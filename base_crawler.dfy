/**
 * The crawl engine: the link filter, page fetching with linear back-off, the
 * page-by-page crawl loop with its counters and error list, and the two
 * built-in crawler variants (syndication feed and generic website).
 */
module BaseCrawler {
  import opened Wrappers
  import opened Text
  import opened CrawlTypes

  /** Configuration defaults (CRAWLER_DELAY, CRAWLER_TIMEOUT, CRAWLER_MAX_RETRIES, max_pages). */
  const DefaultDelay: real := 1.0
  const DefaultTimeout: int := 30
  const DefaultMaxRetries: int := 3
  const DefaultMaxPages: int := 10

  const ExcludedExtensions: seq<string> := [".pdf", ".doc", ".docx", ".xls", ".xlsx", ".zip", ".rar"]

  // ---------------------------------------------------------------------------
  // Link filter

  /** The lower-cased whole URL (query and fragment included) ends with an excluded extension. */
  predicate HasExcludedExtension(url: string) {
    exists ext :: ext in ExcludedExtensions && EndsWith(Lower(url), ext)
  }

  /** A link is kept when it parses, is http or https, names a host and is no document download. */
  predicate IsValidLink(lib: UrlLib, url: string) {
    match lib.parse(url)
    case None => false
    case Some(p) => (p.scheme == "http" || p.scheme == "https") && p.netloc != "" && !HasExcludedExtension(url)
  }

  /** The extension test ignores case: an upper-case ".PDF" download is rejected. */
  lemma UpperCaseExtensionRejected(lib: UrlLib, url: string)
    requires EndsWith(url, ".PDF")
    ensures !IsValidLink(lib, url)
  {
    var low := Lower(url);
    var n := |url|;
    assert low[n - 4..] == ".pdf" by {
      forall k | 0 <= k < 4
        ensures low[n - 4..][k] == ".pdf"[k]
      {
        assert url[n - 4..][k] == ".PDF"[k];
      }
    }
    assert ".pdf" in ExcludedExtensions;
    assert HasExcludedExtension(url);
  }

  /**
   * Only the very end of the URL is checked, so a document link followed by a
   * query string is kept.
   */
  lemma QueryAfterExtensionKept(lib: UrlLib, url: string, host: string, path: string)
    requires lib.parse(url) == Some(ParsedUrl("https", host, path)) && host != ""
    requires EndsWith(url, ".pdf?x=1")
    ensures IsValidLink(lib, url)
  {
    var low := Lower(url);
    assert url[|url| - 1] == url[|url| - 8..][7] == '1';
    assert low[|low| - 1] == '1';
    forall ext | ext in ExcludedExtensions
      ensures !EndsWith(low, ext)
    {
      LastCharDiffers(low, ext);
    }
  }

  lemma LastCharDiffers(s: string, t: string)
    requires t != [] && s != [] && s[|s| - 1] != t[|t| - 1]
    ensures !EndsWith(s, t)
  {
    if |t| <= |s| {
      assert s[|s| - |t|..][|t| - 1] == s[|s| - 1];
    }
  }

  /** The absolute form of every anchor that joins and passes the link filter, in document order. */
  function ValidJoined(lib: UrlLib, hrefs: seq<string>, base: string): (r: seq<string>)
    ensures forall l :: l in r ==> IsValidLink(lib, l)
    ensures forall i :: 0 <= i < |hrefs| && lib.join(base, hrefs[i]).Some? && IsValidLink(lib, lib.join(base, hrefs[i]).value) ==>
      lib.join(base, hrefs[i]).value in r
    ensures forall l :: l in r ==> exists i :: 0 <= i < |hrefs| && lib.join(base, hrefs[i]) == Some(l)
    decreases |hrefs|
  {
    if hrefs == [] then []
    else
      var init := hrefs[..|hrefs| - 1];
      var last := lib.join(base, hrefs[|hrefs| - 1]);
      var r := ValidJoined(lib, init, base) + (if last.Some? && IsValidLink(lib, last.value) then [last.value] else []);
      assert forall i :: 0 <= i < |init| ==> init[i] == hrefs[i];
      r
  }

  /** The text of the error `urljoin` raises; only its presence matters. */
  const JoinFailure := "ValueError"

  /**
   * Collects the page's anchors, resolves them against the base URL, filters and
   * de-duplicates. There is no handler: the first anchor on which `urljoin`
   * raises ends the call with that raise.
   */
  method ExtractLinks(lib: UrlLib, page: Page, baseUrl: string) returns (r: Outcome<seq<string>>)
    ensures r.Raised? <==> exists i :: 0 <= i < |page.anchors| && lib.join(baseUrl, page.anchors[i]).None?
    ensures r.Returned? ==> forall l :: l in r.value <==> l in ValidJoined(lib, page.anchors, baseUrl)
    ensures r.Returned? ==> forall i, j :: 0 <= i < j < |r.value| ==> r.value[i] != r.value[j]
  {
    var found: seq<string> := [];
    var i := 0;
    while i < |page.anchors|
      invariant 0 <= i <= |page.anchors|
      invariant forall k :: 0 <= k < i ==> lib.join(baseUrl, page.anchors[k]).Some?
      invariant found == ValidJoined(lib, page.anchors[..i], baseUrl)
    {
      var absolute := lib.join(baseUrl, page.anchors[i]);
      if absolute.None? {
        return Raised(JoinFailure);
      }
      assert page.anchors[..i + 1][..i] == page.anchors[..i];
      if IsValidLink(lib, absolute.value) {
        found := found + [absolute.value];
      }
      i := i + 1;
    }
    assert page.anchors[..i] == page.anchors;
    r := Returned(Dedupe(found));
  }

  // ---------------------------------------------------------------------------
  // Fetching with retries

  /** What a crawl has done to the outside world and to its error list. */
  datatype Effects = Effects(fetched: seq<string>, sleeps: seq<real>, errors: seq<CrawlError>)

  /**
   * A crawler's fixed configuration. `net(url, k)` is the outcome of the k-th
   * request the crawler makes (timeout, headers and status check included).
   */
  datatype Settings = Settings(
    delay: real, maxRetries: int, maxPages: int,
    net: (string, nat) -> FetchOutcome, plugin: Plugin)

  function Max(a: int, b: int): int { if a < b then b else a }

  /** The number of requests a fetch starting at `retries` may make. */
  function Attempts(maxRetries: int, retries: int): nat {
    if retries < maxRetries then maxRetries - retries + 1 else 1
  }

  function Repeat(url: string, n: nat): seq<string> {
    if n == 0 then [] else [url] + Repeat(url, n - 1)
  }

  /** The pause before the retry that follows a failure at retry count `retries`. */
  function Pause(delay: real, retries: int): real {
    delay * (retries + 1) as real
  }

  /** The back-off pauses after failures number `from`, `from + 1`, ...: delay times one more than each. */
  function Backoff(delay: real, from: int, n: nat): seq<real>
    decreases n
  {
    if n == 0 then [] else [Pause(delay, from)] + Backoff(delay, from + 1, n - 1)
  }

  /** A fetch's response (None when it gave up) and its effects. */
  datatype FetchResult = FetchResult(resp: Option<Page>, fx: Effects)

  /**
   * The fetch of one URL, retrying on failure until `maxRetries` is reached. It
   * makes at least one request, only appends to the effects, and adds an error
   * entry exactly when it gives up.
   */
  function GetPageSpec(s: Settings, url: string, retries: int, fx: Effects): (r: FetchResult)
    ensures fx.fetched < r.fx.fetched && fx.sleeps <= r.fx.sleeps && fx.errors <= r.fx.errors
    ensures r.resp.None? <==> |r.fx.errors| == |fx.errors| + 1
    ensures r.resp.Some? <==> r.fx.errors == fx.errors
    decreases if retries < s.maxRetries then s.maxRetries - retries else 0
  {
    var fx1 := fx.(fetched := fx.fetched + [url]);
    match s.net(url, |fx.fetched|)
    case Fetched(page) => FetchResult(Some(page), fx1.(sleeps := fx1.sleeps + [s.delay]))
    case FetchFailed(e) =>
      if retries < s.maxRetries then
        GetPageSpec(s, url, retries + 1, fx1.(sleeps := fx1.sleeps + [Pause(s.delay, retries)]))
      else
        FetchResult(None, fx1.(errors := fx1.errors + [FetchError(url, e, retries)]))
  }

  /**
   * A fetch requests the same URL between one and `Attempts` times and every
   * request but the last failed; it succeeds exactly with the last request's
   * page, and gives up only after the last permitted attempt failed.
   */
  lemma {:induction false} GetPageRequests(s: Settings, url: string, retries: int, fx: Effects)
    ensures var f := GetPageSpec(s, url, retries, fx);
      var n := |f.fx.fetched| - |fx.fetched|;
      1 <= n <= Attempts(s.maxRetries, retries)
      && f.fx.fetched == fx.fetched + Repeat(url, n)
      && (forall k :: |fx.fetched| <= k < |f.fx.fetched| - 1 ==> s.net(url, k).FetchFailed?)
      && (f.resp.Some? ==> s.net(url, |f.fx.fetched| - 1) == Fetched(f.resp.value))
      && (f.resp.None? ==> n == Attempts(s.maxRetries, retries) && s.net(url, |f.fx.fetched| - 1).FetchFailed?)
    decreases if retries < s.maxRetries then s.maxRetries - retries else 0
  {
    var fx1 := fx.(fetched := fx.fetched + [url]);
    if s.net(url, |fx.fetched|).FetchFailed? && retries < s.maxRetries {
      var fx1s := fx1.(sleeps := fx1.sleeps + [Pause(s.delay, retries)]);
      GetPageRequests(s, url, retries + 1, fx1s);
      var f := GetPageSpec(s, url, retries + 1, fx1s);
      var m := |f.fx.fetched| - |fx1s.fetched|;
      assert Repeat(url, m + 1) == [url] + Repeat(url, m);
      assert f.fx.fetched == fx.fetched + Repeat(url, m + 1);
    } else {
      assert Repeat(url, 1) == [url];
    }
  }

  /** A fetch pauses `delay * (r + 1)` after the failure at retry count r, and `delay` after the success. */
  lemma {:induction false} GetPagePauses(s: Settings, url: string, retries: int, fx: Effects)
    ensures var f := GetPageSpec(s, url, retries, fx);
      |fx.fetched| < |f.fx.fetched|
      && f.fx.sleeps == fx.sleeps + Backoff(s.delay, retries, |f.fx.fetched| - |fx.fetched| - 1)
                                  + (if f.resp.Some? then [s.delay] else [])
    decreases if retries < s.maxRetries then s.maxRetries - retries else 0
  {
    var fx1 := fx.(fetched := fx.fetched + [url]);
    if s.net(url, |fx.fetched|).FetchFailed? && retries < s.maxRetries {
      var fx1s := fx1.(sleeps := fx1.sleeps + [Pause(s.delay, retries)]);
      GetPagePauses(s, url, retries + 1, fx1s);
      var f := GetPageSpec(s, url, retries + 1, fx1s);
      var m := |f.fx.fetched| - |fx1s.fetched|;
      assert Backoff(s.delay, retries, m) == [Pause(s.delay, retries)] + Backoff(s.delay, retries + 1, m - 1);
    }
  }

  /**
   * A successful fetch leaves the error list alone; giving up appends exactly
   * one entry with the URL, the last failure and the final retry count.
   */
  lemma {:induction false} GetPageErrors(s: Settings, url: string, retries: int, fx: Effects)
    ensures var f := GetPageSpec(s, url, retries, fx);
      |fx.fetched| < |f.fx.fetched|
      && (f.resp.Some? ==> f.fx.errors == fx.errors)
      && (f.resp.None? ==>
            s.net(url, |f.fx.fetched| - 1).FetchFailed?
            && f.fx.errors == fx.errors + [FetchError(url, s.net(url, |f.fx.fetched| - 1).error, Max(retries, s.maxRetries))])
    decreases if retries < s.maxRetries then s.maxRetries - retries else 0
  {
    var fx1 := fx.(fetched := fx.fetched + [url]);
    if s.net(url, |fx.fetched|).FetchFailed? && retries < s.maxRetries {
      GetPageErrors(s, url, retries + 1, fx1.(sleeps := fx1.sleeps + [Pause(s.delay, retries)]));
    }
  }

  /** Against a URL that always fails, a fetch from retry 0 makes maxRetries + 1 requests and gives up. */
  lemma AlwaysFailingFetch(s: Settings, url: string, fx: Effects)
    requires 0 <= s.maxRetries
    requires forall k :: s.net(url, k).FetchFailed?
    ensures var r, fx2 := GetPageSpec(s, url, 0, fx).resp, GetPageSpec(s, url, 0, fx).fx;
      r.None?
      && fx2.fetched == fx.fetched + Repeat(url, s.maxRetries + 1)
      && fx2.sleeps == fx.sleeps + Backoff(s.delay, 0, s.maxRetries)
      && |fx2.errors| == |fx.errors| + 1
      && fx2.errors[|fx.errors|].FetchError? && fx2.errors[|fx.errors|].retries == s.maxRetries
  {
    GetPageRequests(s, url, 0, fx);
    GetPagePauses(s, url, 0, fx);
    GetPageErrors(s, url, 0, fx);
  }

  // ---------------------------------------------------------------------------
  // The crawl loop

  /** The loop's variables: current URL, pages done, articles gathered, the found counter, the effects. */
  datatype LoopState = LoopState(
    cur: Option<string>, pageCount: int, articles: seq<Article>, found: int, fx: Effects)

  /** The loop guard: a non-empty current URL and pages left. */
  predicate Continues(s: Settings, st: LoopState) {
    st.cur.Some? && st.cur.value != "" && st.pageCount < s.maxPages
  }

  function WithSessionError(st: LoopState, fx: Effects, e: string): LoopState {
    st.(fx := fx.(errors := fx.errors + [SessionError(e, st.pageCount)]))
  }

  /**
   * The crawl loop from a given state: fetch the current page (stop when the
   * fetch gives up), extract its articles, ask for the next URL, count the page.
   * A raise from either plugin operation ends the loop with a session error
   * tagged with the pages done so far.
   */
  function CrawlFrom(s: Settings, st: LoopState): (r: LoopState)
    ensures st.articles <= r.articles && st.fx.fetched <= r.fx.fetched && st.fx.sleeps <= r.fx.sleeps
    ensures Continues(s, st) ==> |st.fx.fetched| < |r.fx.fetched|
    decreases if st.pageCount < s.maxPages then s.maxPages - st.pageCount else 0
  {
    if !Continues(s, st) then st
    else
      var url := st.cur.value;
      var resp, fx1 := GetPageSpec(s, url, 0, st.fx).resp, GetPageSpec(s, url, 0, st.fx).fx;
      if resp.None? then st.(fx := fx1)
      else
        match s.plugin.extract(resp.value, url)
        case Raised(e) => WithSessionError(st, fx1, e)
        case Returned(arts) =>
          var st1 := st.(articles := st.articles + arts, found := st.found + |arts|, fx := fx1);
          match s.plugin.nextPage(resp.value, url)
          case Raised(e) => WithSessionError(st1, fx1, e)
          case Returned(next) => CrawlFrom(s, st1.(cur := next, pageCount := st.pageCount + 1))
  }

  /**
   * What any crawl guarantees, whatever the network and the plugin do: the page
   * count never passes max_pages, the found counter grows by exactly the number
   * of articles gathered, articles and errors are only appended, and a crawl
   * adds at most one error: either a fetch failure, or a session error tagged
   * with the final page count. A crawl that adds no error stopped at the loop guard.
   */
  lemma {:induction false} CrawlShape(s: Settings, st: LoopState)
    ensures var fin := CrawlFrom(s, st);
      st.pageCount <= fin.pageCount
      && (fin.pageCount == st.pageCount || fin.pageCount <= s.maxPages)
      && fin.found - st.found == |fin.articles| - |st.articles|
      && st.articles <= fin.articles
      && st.fx.errors <= fin.fx.errors
      && |fin.fx.errors| <= |st.fx.errors| + 1
      && (|fin.fx.errors| == |st.fx.errors| + 1 ==>
            fin.fx.errors[|st.fx.errors|].FetchError? || fin.fx.errors[|st.fx.errors|].page == fin.pageCount)
      && (|fin.fx.errors| == |st.fx.errors| ==> !Continues(s, fin))
    decreases if st.pageCount < s.maxPages then s.maxPages - st.pageCount else 0
  {
    if Continues(s, st) {
      var url := st.cur.value;
      GetPageErrors(s, url, 0, st.fx);
      var resp, fx1 := GetPageSpec(s, url, 0, st.fx).resp, GetPageSpec(s, url, 0, st.fx).fx;
      if resp.Some? {
        match s.plugin.extract(resp.value, url)
        case Raised(e) =>
        case Returned(arts) =>
          var st1 := st.(articles := st.articles + arts, found := st.found + |arts|, fx := fx1);
          match s.plugin.nextPage(resp.value, url)
          case Raised(e) =>
          case Returned(next) =>
            CrawlShape(s, st1.(cur := next, pageCount := st.pageCount + 1));
      }
    }
  }

  /** A plugin that never raises leaves no session error: every error a crawl adds is a fetch failure. */
  lemma {:induction false} QuietPluginOnlyFetchErrors(s: Settings, st: LoopState)
    requires NeverRaises(s.plugin)
    ensures forall i :: |st.fx.errors| <= i < |CrawlFrom(s, st).fx.errors| ==> CrawlFrom(s, st).fx.errors[i].FetchError?
    decreases if st.pageCount < s.maxPages then s.maxPages - st.pageCount else 0
  {
    CrawlShape(s, st);
    if Continues(s, st) {
      var url := st.cur.value;
      GetPageErrors(s, url, 0, st.fx);
      var resp, fx1 := GetPageSpec(s, url, 0, st.fx).resp, GetPageSpec(s, url, 0, st.fx).fx;
      if resp.Some? {
        var arts := s.plugin.extract(resp.value, url).value;
        var next := s.plugin.nextPage(resp.value, url).value;
        var st2 := st.(articles := st.articles + arts, found := st.found + |arts|, fx := fx1, cur := next, pageCount := st.pageCount + 1);
        assert fx1.errors == st.fx.errors;
        assert CrawlFrom(s, st) == CrawlFrom(s, st2);
        QuietPluginOnlyFetchErrors(s, st2);
        assert |st2.fx.errors| == |st.fx.errors|;
      } else {
        assert CrawlFrom(s, st) == st.(fx := fx1);
      }
    }
  }

  // ---------------------------------------------------------------------------
  // The crawler object

  /** The outcome of one crawl run (its wall-clock time is not modelled). */
  datatype CrawlResult = CrawlResult(
    sourceId: string, sourceUrl: string, articlesFound: int, articlesProcessed: int,
    pagesCrawled: int, errors: seq<CrawlError>, articles: seq<Article>)

  class Crawler {
    const sourceId: string
    const sourceUrl: string
    const delay: real
    const timeout: int
    const maxRetries: int
    const maxPages: int
    const net: (string, nat) -> FetchOutcome
    const plugin: Plugin

    var articlesFound: int
    var articlesProcessed: int
    var errors: seq<CrawlError>
    /** Every URL requested so far, and every pause taken, in order. */
    var fetched: seq<string>
    var sleeps: seq<real>

    function Cfg(): Settings {
      Settings(delay, maxRetries, maxPages, net, plugin)
    }

    function Fx(): Effects
      reads this
    {
      Effects(fetched, sleeps, errors)
    }

    /** A crawler with explicit settings starts with zero counters and no errors. */
    constructor (sourceId: string, sourceUrl: string, delay: real, timeout: int, maxRetries: int, maxPages: int,
                 net: (string, nat) -> FetchOutcome, plugin: Plugin)
      ensures this.sourceId == sourceId && this.sourceUrl == sourceUrl
      ensures this.delay == delay && this.timeout == timeout
      ensures this.maxRetries == maxRetries && this.maxPages == maxPages
      ensures this.net == net && this.plugin == plugin
      ensures articlesFound == 0 && articlesProcessed == 0 && errors == []
      ensures fetched == [] && sleeps == []
    {
      this.sourceId := sourceId;
      this.sourceUrl := sourceUrl;
      this.delay := delay;
      this.timeout := timeout;
      this.maxRetries := maxRetries;
      this.maxPages := maxPages;
      this.net := net;
      this.plugin := plugin;
      articlesFound := 0;
      articlesProcessed := 0;
      errors := [];
      fetched := [];
      sleeps := [];
    }

    /** A crawler built without overrides takes the configured defaults. */
    constructor WithDefaults(sourceId: string, sourceUrl: string, net: (string, nat) -> FetchOutcome, plugin: Plugin)
      ensures this.sourceId == sourceId && this.sourceUrl == sourceUrl
      ensures delay == DefaultDelay && timeout == DefaultTimeout
      ensures maxRetries == DefaultMaxRetries && maxPages == DefaultMaxPages
      ensures this.net == net && this.plugin == plugin
      ensures articlesFound == 0 && articlesProcessed == 0 && errors == []
      ensures fetched == [] && sleeps == []
    {
      this.sourceId := sourceId;
      this.sourceUrl := sourceUrl;
      delay := DefaultDelay;
      timeout := DefaultTimeout;
      maxRetries := DefaultMaxRetries;
      maxPages := DefaultMaxPages;
      this.net := net;
      this.plugin := plugin;
      articlesFound := 0;
      articlesProcessed := 0;
      errors := [];
      fetched := [];
      sleeps := [];
    }

    /** Fetches one URL, pausing after success and backing off before each retry. */
    method GetPage(url: string, retries: int) returns (r: Option<Page>)
      modifies this
      ensures FetchResult(r, Fx()) == GetPageSpec(Cfg(), url, retries, old(Fx()))
      ensures articlesFound == old(articlesFound) && articlesProcessed == old(articlesProcessed)
      decreases if retries < maxRetries then maxRetries - retries else 0
    {
      ghost var fx0 := Fx();
      var attempt := |fetched|;
      fetched := fetched + [url];
      match net(url, attempt)
      case Fetched(page) =>
        sleeps := sleeps + [delay];
        r := Some(page);
      case FetchFailed(e) =>
        if retries < maxRetries {
          sleeps := sleeps + [Pause(delay, retries)];
          assert Fx() == fx0.(fetched := fx0.fetched + [url]).(sleeps := fx0.sleeps + [Pause(delay, retries)]);
          r := GetPage(url, retries + 1);
        } else {
          errors := errors + [FetchError(url, e, retries)];
          r := None;
        }
    }

    /** Runs the crawl loop from the source URL and reports the run. */
    method Crawl() returns (result: CrawlResult)
      modifies this
      ensures var fin := CrawlFrom(Cfg(), LoopState(Some(sourceUrl), 0, [], old(articlesFound), old(Fx())));
        Fx() == fin.fx && articlesFound == fin.found && articlesProcessed == |fin.articles|
        && result == CrawlResult(sourceId, sourceUrl, fin.found, |fin.articles|, fin.pageCount, fin.fx.errors, fin.articles)
    {
      var allArticles: seq<Article> := [];
      var currentUrl: Option<string> := Some(sourceUrl);
      var pageCount := 0;
      ghost var target := CrawlFrom(Cfg(), LoopState(currentUrl, 0, [], articlesFound, Fx()));
      while currentUrl.Some? && currentUrl.value != "" && pageCount < maxPages
        invariant CrawlFrom(Cfg(), LoopState(currentUrl, pageCount, allArticles, articlesFound, Fx())) == target
        decreases maxPages - pageCount
      {
        ghost var st := LoopState(currentUrl, pageCount, allArticles, articlesFound, Fx());
        var url := currentUrl.value;
        var response := GetPage(url, 0);
        if response.None? {
          break;
        }
        var page := response.value;
        var extracted := plugin.extract(page, url);
        if extracted.Raised? {
          errors := errors + [SessionError(extracted.error, pageCount)];
          break;
        }
        var articles := extracted.value;
        allArticles := allArticles + articles;
        articlesFound := articlesFound + |articles|;
        var next := plugin.nextPage(page, url);
        if next.Raised? {
          errors := errors + [SessionError(next.error, pageCount)];
          break;
        }
        currentUrl := next.value;
        pageCount := pageCount + 1;
      }
      articlesProcessed := |allArticles|;
      result := CrawlResult(sourceId, sourceUrl, articlesFound, articlesProcessed, pageCount, errors, allArticles);
    }
  }

  /**
   * For a fresh crawler the found and processed counters agree with the
   * articles returned, and no more than max_pages pages are crawled.
   */
  lemma FreshCrawlCounters(s: Settings, url: string)
    requires 0 <= s.maxPages
    ensures var fin := CrawlFrom(s, LoopState(Some(url), 0, [], 0, Effects([], [], [])));
      fin.found == |fin.articles| && 0 <= fin.pageCount <= s.maxPages && |fin.fx.errors| <= 1
  {
    CrawlShape(s, LoopState(Some(url), 0, [], 0, Effects([], [], [])));
  }

  // ---------------------------------------------------------------------------
  // Built-in variants

  /** One feed entry as an article record; missing fields become empty strings. */
  function FeedRecord(sourceId: string, sourceUrl: string, e: FeedEntry): Article {
    FeedArticle(e.title.GetOr(""), e.summary.GetOr(""), e.link.GetOr(""), e.published.GetOr(""),
                e.author.GetOr(""), sourceId, sourceUrl)
  }

  /**
   * The feed variant re-reads the feed at the page URL through `feed` (None when
   * the feed library raises) and maps its entries in order.
   */
  function RssExtract(sourceId: string, sourceUrl: string, feed: string -> Option<seq<FeedEntry>>, pageUrl: string): (r: seq<Article>)
    ensures feed(pageUrl).None? ==> r == []
    ensures feed(pageUrl).Some? ==> |r| == |feed(pageUrl).value|
    ensures forall i :: 0 <= i < |r| ==> r[i].FeedArticle? && r[i].sourceId == sourceId && r[i].sourceUrl == sourceUrl
    ensures forall i :: 0 <= i < |r| ==> r[i].url == feed(pageUrl).value[i].link.GetOr("")
  {
    match feed(pageUrl)
    case None => []
    case Some(entries) => seq(|entries|, i requires 0 <= i < |entries| => FeedRecord(sourceId, sourceUrl, entries[i]))
  }

  /** The feed variant as a crawl plugin: it never raises and never names a next page. */
  function RssPlugin(sourceId: string, sourceUrl: string, feed: string -> Option<seq<FeedEntry>>): (r: Plugin)
    ensures NeverRaises(r)
    ensures forall page, url :: r.nextPage(page, url) == Returned(None)
  {
    Plugin((page, url) => Returned(RssExtract(sourceId, sourceUrl, feed, url)),
           (page, url) => Returned(None))
  }

  const WebsiteExtractError: string := "Subclasses must implement extract_articles"
  const WebsiteNextError: string := "Subclasses must implement get_next_page_url"

  /** The generic website variant as a crawl plugin: both of its operations raise, whatever the page. */
  function WebsitePlugin(): (r: Plugin)
    ensures forall page, url :: r.extract(page, url).Raised? && r.nextPage(page, url).Raised?
  {
    Plugin((page, url) => Raised(WebsiteExtractError), (page, url) => Raised(WebsiteNextError))
  }

  /** A plugin that never names a next page crawls at most one page. */
  lemma {:induction false} SinglePageWithoutNext(s: Settings, st: LoopState)
    requires forall page, url :: s.plugin.nextPage(page, url) == Returned(None)
    ensures CrawlFrom(s, st).pageCount <= st.pageCount + 1
  {
    if Continues(s, st) {
      var resp, fx1 := GetPageSpec(s, st.cur.value, 0, st.fx).resp, GetPageSpec(s, st.cur.value, 0, st.fx).fx;
      if resp.Some? && s.plugin.extract(resp.value, st.cur.value).Returned? {
        var arts := s.plugin.extract(resp.value, st.cur.value).value;
        var st2 := st.(articles := st.articles + arts, found := st.found + |arts|, fx := fx1, cur := None, pageCount := st.pageCount + 1);
        assert !Continues(s, st2);
      }
    }
  }

  /**
   * The generic website variant gathers nothing and completes no page: once the
   * first fetch succeeds the crawl ends with a session error at page 0.
   */
  lemma WebsiteCrawlFails(s: Settings, url: string, fx: Effects)
    requires forall page, u :: s.plugin.extract(page, u) == WebsitePlugin().extract(page, u)
    requires url != "" && 0 < s.maxPages
    ensures var fin := CrawlFrom(s, LoopState(Some(url), 0, [], 0, fx));
      var resp, fx1 := GetPageSpec(s, url, 0, fx).resp, GetPageSpec(s, url, 0, fx).fx;
      fin.pageCount == 0 && fin.articles == [] && fin.found == 0
      && (resp.Some? ==> fin.fx.errors == fx1.errors + [SessionError(WebsiteExtractError, 0)])
  {
    var st := LoopState(Some(url), 0, [], 0, fx);
    assert Continues(s, st);
    var resp, fx1 := GetPageSpec(s, url, 0, fx).resp, GetPageSpec(s, url, 0, fx).fx;
    if resp.Some? {
      assert s.plugin.extract(resp.value, url) == Raised(WebsiteExtractError);
      assert CrawlFrom(s, st) == WithSessionError(st, fx1, WebsiteExtractError);
    } else {
      assert CrawlFrom(s, st) == st.(fx := fx1);
    }
  }
}
