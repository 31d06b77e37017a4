/**
 * Values shared by the crawl engine and its extraction plugins: what a fetched
 * page offers to the selectors, the article records, the error entries, and
 * the plugin capability set.
 */
module CrawlTypes {
  import opened Wrappers

  /** What `urlparse` exposes of a URL. */
  datatype ParsedUrl = ParsedUrl(scheme: string, netloc: string, path: string)

  /**
   * The URL library: `parse` is `urlparse` and `join` is `urljoin`, each None
   * when the library raises (a `ValueError` on a malformed IPv6 host, say).
   * Both are library code and are taken as parameters.
   */
  datatype UrlLib = UrlLib(parse: string -> Option<ParsedUrl>, join: (string, string) -> Option<string>)

  /** What the per-item text and link helpers return for one list item ("" when absent). */
  datatype ItemFields = ItemFields(
    title: string, link: string, content: string, author: string, publishTime: string, category: string)

  /**
   * A parsed page, seen through the queries the crawlers make of it:
   * the `href` of every anchor, the items of the primary and of the secondary
   * list selector, the stripped text of `<title>` (None without one), the stripped
   * text of the first element of each content selector in order (None when the
   * selector matches nothing), and the `href` of the first element of each
   * pagination selector in order (None when it matches nothing or has no `href`).
   */
  datatype Page = Page(
    anchors: seq<string>,
    listItems: seq<ItemFields>,
    otherItems: seq<ItemFields>,
    title: Option<string>,
    containers: seq<Option<string>>,
    pageLinks: seq<Option<string>>)

  /** One syndication-feed entry: each field may be missing. */
  datatype FeedEntry = FeedEntry(
    title: Option<string>, summary: Option<string>, link: Option<string>,
    published: Option<string>, author: Option<string>)

  /** The article records the plugins build. */
  datatype Article =
    | FeedArticle(title: string, content: string, url: string, publishTime: string, author: string,
                  sourceId: string, sourceUrl: string)
    | ItemArticle(title: string, content: string, url: string, author: string, publishedAt: Option<string>,
                  category: string, sourceId: string, sourceName: string, extractedAt: string)
    | PageArticle(title: string, content: string, url: string, sourceId: string, sourceName: string,
                  extractedAt: string)

  /** One fetch attempt: the parsed page, or the request failure's text. */
  datatype FetchOutcome = Fetched(page: Page) | FetchFailed(error: string)

  /** A per-URL fetch failure, or a session-level failure at a page index. */
  datatype CrawlError =
    | FetchError(url: string, error: string, retries: int)
    | SessionError(error: string, page: int)

  /** The two operations every crawler variant provides; either may raise. */
  datatype Plugin = Plugin(
    extract: (Page, string) -> Outcome<seq<Article>>,
    nextPage: (Page, string) -> Outcome<Option<string>>)

  /** The variant never raises. */
  ghost predicate NeverRaises(p: Plugin) {
    forall page, url :: p.extract(page, url).Returned? && p.nextPage(page, url).Returned?
  }
}
