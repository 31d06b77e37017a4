/**
 * End-to-end runs of the crawl loop: the Sina crawler on a one-item list page,
 * with working and with missing per-item helpers, and a fetch that always fails.
 */
module CrawlScenarios {
  import opened Wrappers
  import opened Text
  import opened CrawlTypes
  import opened BaseCrawler
  import opened SinaCrawler

  const ListUrl: string := "https://x.test/list/1.html"

  /** A substring needing a character the string lacks does not occur in it. */
  lemma MissingCharNoSubstring(s: string, sub: string, k: nat)
    requires k < |sub|
    ensures sub[k] !in s ==> !Contains(s, sub)
  {
    if Contains(s, sub) {
      var i := ContainsWitness(s, sub);
      assert s[i + k] == s[i..i + |sub|][k] == sub[k];
    }
  }

  /** A URL without `=` has no `key(\d+)` match for a key ending in `=`. */
  lemma NoEqualsNoKeyMatch(s: string, key: string)
    requires key != [] && key[|key| - 1] == '='
    ensures '=' !in s ==> KeyCandidate(s, key).None?
  {
    var r := FindKey(s, key, 0);
    if r.Some? {
      var i := r.value;
      assert s[i + |key| - 1] == s[i..i + |key|][|key| - 1] == '=';
    }
  }

  lemma ListUrlHasNoEquals()
    ensures '=' !in ListUrl
  {
  }

  lemma ListUrlTrailing()
    ensures TrailingCandidate(ListUrl) == Some("https://x.test/list/2")
  {
    var p := "https://x.test/list/";
    ListUrlParts();
    OneToTwo();
    assert !IsDigit(p[|p| - 1]);
    TrailingRewrite(p, "1", ".html");
  }

  lemma ListUrlParts()
    ensures ListUrl == "https://x.test/list/" + "1" + ".html"
    ensures "https://x.test/list/2" == "https://x.test/list/" + "2"
  {
  }

  /** The list URL's only rewrite is `.../list/2`; the key patterns do not match. */
  lemma ListUrlRewrite()
    ensures PatternCandidates(ListUrl) == [Some("https://x.test/list/2"), None, None]
  {
    ListUrlTrailing();
    ListUrlHasNoEquals();
    NoEqualsNoKeyMatch(ListUrl, "page=");
    NoEqualsNoKeyMatch(ListUrl, "p=");
  }

  lemma ListPathNotNews()
    ensures !Contains(Lower("/list/2"), "news")
  {
    LowerIdentity("/list/2");
    assert "news"[2] == 'w';
    assert 'w' !in "/list/2";
    MissingCharNoSubstring("/list/2", "news", 2);
  }

  lemma ListInferenceFails(lib: UrlLib)
    requires lib.parse(ListUrl) == Some(ParsedUrl("https", "x.test", "/list/1.html"))
    requires lib.parse("https://x.test/list/2") == Some(ParsedUrl("https", "x.test", "/list/2"))
    ensures InferNextPageUrl(lib, ListUrl) == None
  {
    ListUrlRewrite();
    ListCandidateInvalid(lib);
    OnlyCandidateInvalid(lib, ListUrl, "https://x.test/list/2");
  }

  /** When only the first pattern rewrites the URL and its rewrite is invalid, nothing is inferred. */
  lemma OnlyCandidateInvalid(lib: UrlLib, cur: string, x: string)
    requires PatternCandidates(cur) == [Some(x), None, None]
    requires !IsValidNextPageUrl(lib, x, cur)
    ensures InferNextPageUrl(lib, cur) == None
  {
    var cs := PatternCandidates(cur);
    assert forall i :: 0 <= i < 3 ==> !CandidateHit(lib, cur, cs[i]);
  }

  lemma ListCandidateInvalid(lib: UrlLib)
    requires lib.parse("https://x.test/list/2") == Some(ParsedUrl("https", "x.test", "/list/2"))
    ensures !IsValidNextPageUrl(lib, "https://x.test/list/2", ListUrl)
  {
    ListPathNotNews();
  }

  /** The list page names no next page: its only candidate leaves the news section. */
  lemma ListPageHasNoNext(c: Sina)
    requires c.lib.parse(ListUrl) == Some(ParsedUrl("https", "x.test", "/list/1.html"))
    requires c.lib.parse("https://x.test/list/2") == Some(ParsedUrl("https", "x.test", "/list/2"))
    ensures GetNextPageUrl(c, ReportPage(), ListUrl) == None
  {
    ListInferenceFails(c.lib);
    assert FirstValidLink(c.lib, ReportPage().pageLinks, ListUrl) == Exhausted;
  }

  /** Crawl settings with defaults, a network that always serves `page`, and the given plugin. */
  function Serving(page: Page, plugin: Plugin): Settings {
    Settings(DefaultDelay, DefaultMaxRetries, DefaultMaxPages, (url, k) => Fetched(page), plugin)
  }

  function Fresh(): LoopState {
    LoopState(Some(ListUrl), 0, [], 0, Effects([], [], []))
  }

  /** Against a network that always serves the page, a fetch succeeds at once. */
  lemma ServedFetch(page: Page, plugin: Plugin, url: string, fx: Effects)
    ensures GetPageSpec(Serving(page, plugin), url, 0, fx).resp == Some(page)
  {
  }

  /** One successful pass through the loop body. */
  lemma CrawlStep(s: Settings, st: LoopState, page: Page, arts: seq<Article>, next: Option<string>)
    requires Continues(s, st)
    requires GetPageSpec(s, st.cur.value, 0, st.fx).resp == Some(page)
    requires s.plugin.extract(page, st.cur.value) == Returned(arts)
    requires s.plugin.nextPage(page, st.cur.value) == Returned(next)
    ensures CrawlFrom(s, st) == CrawlFrom(s, LoopState(next, st.pageCount + 1, st.articles + arts,
                                                       st.found + |arts|, GetPageSpec(s, st.cur.value, 0, st.fx).fx))
  {
  }

  /**
   * A crawl of the one-item list page crawls one page, finds one article and
   * returns it with the item's link as its URL.
   */
  lemma SinaListCrawl(c: Sina, now: string)
    requires c.lib.parse(ListUrl) == Some(ParsedUrl("https", "x.test", "/list/1.html"))
    requires c.lib.parse("https://x.test/list/2") == Some(ParsedUrl("https", "x.test", "/list/2"))
    ensures var fin := CrawlFrom(Serving(ReportPage(), SinaPlugin(c, now)), Fresh());
      fin.pageCount == 1 && fin.found == 1 && |fin.articles| == 1
      && fin.articles[0].url == "https://x.test/a1" && fin.fx.errors == []
  {
    ItemRecordLostAsWritten(c, now);
    SinaListFirstPage(c, now);
  }

  /** The crawl of the list page stops after its first page, with the page's articles and no error. */
  lemma SinaListFirstPage(c: Sina, now: string)
    requires c.lib.parse(ListUrl) == Some(ParsedUrl("https", "x.test", "/list/1.html"))
    requires c.lib.parse("https://x.test/list/2") == Some(ParsedUrl("https", "x.test", "/list/2"))
    ensures var s := Serving(ReportPage(), SinaPlugin(c, now));
      var fx1 := GetPageSpec(s, ListUrl, 0, Fresh().fx).fx;
      var arts := ExtractArticles(c, ReportPage(), ListUrl, now);
      CrawlFrom(s, Fresh()) == LoopState(None, 1, arts, |arts|, fx1) && fx1.errors == []
  {
    var s := Serving(ReportPage(), SinaPlugin(c, now));
    ServedFetch(ReportPage(), SinaPlugin(c, now), ListUrl, Fresh().fx);
    GetPageErrors(s, ListUrl, 0, Fresh().fx);
    ListPageHasNoNext(c);
    CrawlStep(s, Fresh(), ReportPage(), ExtractArticles(c, ReportPage(), ListUrl, now), None);
  }

  /** The same crawl with the helpers as the crawler has them finds nothing. */
  lemma SinaListCrawlAsWritten(c: Sina, now: string)
    requires c.lib.parse(ListUrl) == Some(ParsedUrl("https", "x.test", "/list/1.html"))
    requires c.lib.parse("https://x.test/list/2") == Some(ParsedUrl("https", "x.test", "/list/2"))
    ensures var fin := CrawlFrom(Serving(ReportPage(), AsWrittenPlugin(c, now)), Fresh());
      fin.pageCount == 1 && fin.found == 0 && fin.articles == []
  {
    SinaListFirstPageAsWritten(c, now);
  }

  /** As written, the crawl of the list page stops after its first page with no article. */
  lemma SinaListFirstPageAsWritten(c: Sina, now: string)
    requires c.lib.parse(ListUrl) == Some(ParsedUrl("https", "x.test", "/list/1.html"))
    requires c.lib.parse("https://x.test/list/2") == Some(ParsedUrl("https", "x.test", "/list/2"))
    ensures var s := Serving(ReportPage(), AsWrittenPlugin(c, now));
      CrawlFrom(s, Fresh()) == LoopState(None, 1, [], 0, GetPageSpec(s, ListUrl, 0, Fresh().fx).fx)
  {
    var s := Serving(ReportPage(), AsWrittenPlugin(c, now));
    AsWrittenPluginOnList(c, now);
    ServedFetch(ReportPage(), AsWrittenPlugin(c, now), ListUrl, Fresh().fx);
    CrawlStep(s, Fresh(), ReportPage(), [], None);
  }

  /** As written, the plugin finds no article and no next page on the list page. */
  lemma AsWrittenPluginOnList(c: Sina, now: string)
    requires c.lib.parse(ListUrl) == Some(ParsedUrl("https", "x.test", "/list/1.html"))
    requires c.lib.parse("https://x.test/list/2") == Some(ParsedUrl("https", "x.test", "/list/2"))
    ensures AsWrittenPlugin(c, now).extract(ReportPage(), ListUrl) == Returned([])
    ensures AsWrittenPlugin(c, now).nextPage(ReportPage(), ListUrl) == Returned(None)
  {
    ItemRecordLostAsWritten(c, now);
    ListPageHasNoNext(c);
  }

  /** The Sina plugin with the per-item helpers as the crawler has them. */
  function AsWrittenPlugin(c: Sina, now: string): Plugin {
    Plugin((page, url) => Returned(ExtractArticlesAsWritten(c, page, url, now)),
           (page, url) => Returned(GetNextPageUrl(c, page, url)))
  }

  /**
   * With the default of three retries, a URL that always fails is requested
   * four times and leaves one error entry with retry count three.
   */
  lemma DownHostFetch(s: Settings)
    requires s.maxRetries == DefaultMaxRetries
    requires forall k :: s.net("https://x.test/down", k).FetchFailed?
    ensures var f := GetPageSpec(s, "https://x.test/down", 0, Effects([], [], []));
      f.resp.None? && |f.fx.fetched| == 4 && |f.fx.errors| == 1
      && f.fx.errors[0].FetchError? && f.fx.errors[0].retries == 3
  {
    AlwaysFailingFetch(s, "https://x.test/down", Effects([], [], []));
    var f := GetPageSpec(s, "https://x.test/down", 0, Effects([], [], []));
    RepeatLength("https://x.test/down", 4);
  }

  lemma {:induction false} RepeatLength(url: string, n: nat)
    ensures |Repeat(url, n)| == n
  {
    if n > 0 {
      RepeatLength(url, n - 1);
    }
  }
}
