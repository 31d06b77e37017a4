/**
 * What the two source-registration scripts share: the news-source configuration
 * (categories, some holding lists of source entries), the keyword chain that
 * names a parser, and the loop that posts each source to the API and sorts it
 * into the added or the failed list.
 */
module SourceConfig {
  import opened Wrappers
  import opened Text
  import opened NewsModels
  import opened Schemas
  import opened Http

  /** One configured source; every field may be missing. */
  datatype SourceEntry = SourceEntry(name: Option<string>, url: Option<string>, sourceType: Option<string>, notes: Option<string>)

  /**
   * A category's value: a list of sources, or anything else. For anything else,
   * `falsy` says whether Python treats it as false, and `sized` whether it has a
   * length (a string or an object, whose items are strings).
   */
  datatype CategoryValue = Listed(sources: seq<SourceEntry>) | NotAList(falsy: bool, sized: bool)

  datatype Category = Category(key: string, value: CategoryValue)

  /** The configuration file's top-level object, its categories in file order. */
  type Config = seq<Category>

  /** The sources of every list-valued category, concatenated in file order; other values are skipped. */
  function AllListed(config: Config): seq<SourceEntry>
    decreases |config|
  {
    if config == [] then []
    else
      var last := config[|config| - 1];
      AllListed(config[..|config| - 1]) + (if last.value.Listed? then last.value.sources else [])
  }

  /** The number of sources the list-valued categories hold. */
  function ListedCount(config: Config): nat
    decreases |config|
  {
    if config == [] then 0
    else
      var last := config[|config| - 1];
      ListedCount(config[..|config| - 1]) + (if last.value.Listed? then |last.value.sources| else 0)
  }

  /** The count the summary shows is the number of sources the "all categories" selection processes. */
  lemma {:induction false} ListedCountIsFlattenedLength(config: Config)
    ensures ListedCount(config) == |AllListed(config)|
    decreases |config|
  {
    if config != [] {
      ListedCountIsFlattenedLength(config[..|config| - 1]);
    }
  }

  /** A source is in the flattened list exactly when some list-valued category holds it. */
  lemma {:induction false} AllListedMembers(config: Config, s: SourceEntry)
    ensures s in AllListed(config) <==> exists i :: 0 <= i < |config| && config[i].value.Listed? && s in config[i].value.sources
    decreases |config|
  {
    if config != [] {
      var init := config[..|config| - 1];
      AllListedMembers(init, s);
      if s in AllListed(config) && s !in AllListed(init) {
        assert config[|config| - 1].value.Listed?;
      }
      if exists i :: 0 <= i < |config| && config[i].value.Listed? && s in config[i].value.sources {
        var i :| 0 <= i < |config| && config[i].value.Listed? && s in config[i].value.sources;
        if i < |config| - 1 {
          assert init[i] == config[i];
        }
      }
    }
  }

  /** The flattening loop both scripts run over the configuration. */
  method CollectListed(config: Config) returns (all: seq<SourceEntry>)
    ensures all == AllListed(config)
  {
    all := [];
    var i := 0;
    while i < |config|
      invariant 0 <= i <= |config|
      invariant all == AllListed(config[..i])
    {
      assert config[..i + 1][..i] == config[..i];
      if config[i].value.Listed? {
        all := all + config[i].value.sources;
      }
      i := i + 1;
    }
    assert config[..|config|] == config;
  }

  /** The name lowered for keyword tests; a missing name counts as empty. */
  function LowerName(s: SourceEntry): string {
    Lower(s.name.GetOr(""))
  }

  /**
   * The keyword chain: the first of baidu, sina, sohu, qq-or-tencent, sogou, toutiao,
   * yidian found in the lowered name decides the parser; `None` when none is found.
   */
  function KeywordParser(name: string): (r: Option<string>)
    ensures r.Some? ==> r.value in {"baidu", "sina", "sohu", "tencent", "sogou", "toutiao", "yidian"}
  {
    if Contains(name, "baidu") then Some("baidu")
    else if Contains(name, "sina") then Some("sina")
    else if Contains(name, "sohu") then Some("sohu")
    else if Contains(name, "qq") || Contains(name, "tencent") then Some("tencent")
    else if Contains(name, "sogou") then Some("sogou")
    else if Contains(name, "toutiao") then Some("toutiao")
    else if Contains(name, "yidian") then Some("yidian")
    else None
  }

  /**
   * The chain names a parser only through a keyword the name contains, finds one
   * whenever the name contains any keyword, and an earlier keyword always beats a
   * later one.
   */
  lemma KeywordParserRules(name: string)
    ensures KeywordParser(name).Some? ==>
      Contains(name, KeywordParser(name).value) || (KeywordParser(name).value == "tencent" && Contains(name, "qq"))
    ensures KeywordParser(name).None? <==>
      !Contains(name, "baidu") && !Contains(name, "sina") && !Contains(name, "sohu") && !Contains(name, "qq")
      && !Contains(name, "tencent") && !Contains(name, "sogou") && !Contains(name, "toutiao") && !Contains(name, "yidian")
    ensures Contains(name, "baidu") ==> KeywordParser(name) == Some("baidu")
    ensures Contains(name, "sina") && !Contains(name, "baidu") ==> KeywordParser(name) == Some("sina")
  {
  }

  /** What a script posts to create a source. */
  datatype SourceData = SourceData(name: string, url: string, sourceType: string, parser: string,
                                   crawlInterval: int, isActive: bool, description: Option<string>)

  /** The type a source declares; a missing type counts as "website". */
  function TypeOf(s: SourceEntry): string {
    s.sourceType.GetOr("website")
  }

  /** The post body for a source, given the parser and interval a script picked; notes become the description when non-empty. */
  function SourceDataFor(s: SourceEntry, parser: string, interval: int): (d: SourceData)
    ensures d.name == s.name.GetOr("") && d.url == s.url.GetOr("") && d.sourceType == TypeOf(s)
    ensures d.parser == parser && d.crawlInterval == interval && d.isActive
    ensures d.description.Some? <==> s.notes.Some? && s.notes.value != ""
  {
    SourceData(s.name.GetOr(""), s.url.GetOr(""), TypeOf(s), parser, interval, true,
               if s.notes.Some? && s.notes.value != "" then s.notes else None)
  }

  /** The post body as the API's create validation sees it: every field present. */
  function PayloadOf(d: SourceData): CreatePayload {
    CreatePayload(Some(d.name), Some(d.url), Some(d.sourceType), Some(d.parser), Some(d.crawlInterval))
  }

  /**
   * What the API makes of a script's post body: it is accepted exactly when the name
   * is 1 to 100 characters, the type is one of the four source types and the interval
   * is at least 60, and then the request carries the script's name, parser and interval.
   */
  lemma PayloadAcceptance(s: SourceEntry, parser: string, interval: int)
    ensures var v := ValidateCreate(PayloadOf(SourceDataFor(s, parser, interval)));
      (v.Some? <==> NameOk(s.name.GetOr("")) && ParseSourceType(TypeOf(s)).Some? && IntervalOk(interval))
      && (v.Some? ==> v.value.name == s.name.GetOr("") && v.value.parser == parser && v.value.crawlInterval == interval
                      && SourceTypeValue(v.value.sourceType) == TypeOf(s))
  {
  }

  /** A source the API accepted, with the decoded answer (a flat JSON object). */
  datatype AddedSource = AddedSource(source: SourceEntry, result: map<string, string>)

  /** A create call counts as added when it answers 200 with a body that decodes. */
  predicate Accepted(o: Outcome<Response<map<string, string>>>) {
    o.Returned? && o.value.status == 200 && o.value.body.Ok?
  }

  /**
   * The added list for `sources`: `build` makes each post body and `post(i, data)` is
   * the outcome of the `i`-th create call.
   */
  function AddedOf(sources: seq<SourceEntry>, build: SourceEntry -> SourceData,
                   post: (nat, SourceData) -> Outcome<Response<map<string, string>>>): (r: seq<AddedSource>)
    ensures forall a :: a in r ==> a.source in sources
    decreases |sources|
  {
    if sources == [] then []
    else
      var n := |sources| - 1;
      var o := post(n, build(sources[n]));
      AddedOf(sources[..n], build, post) + (if Accepted(o) then [AddedSource(sources[n], o.value.body.value)] else [])
  }

  /** The failed list for `sources`: every source whose create call raised or was not accepted. */
  function FailedOf(sources: seq<SourceEntry>, build: SourceEntry -> SourceData,
                    post: (nat, SourceData) -> Outcome<Response<map<string, string>>>): (r: seq<SourceEntry>)
    ensures forall s :: s in r ==> s in sources
    decreases |sources|
  {
    if sources == [] then []
    else
      var n := |sources| - 1;
      FailedOf(sources[..n], build, post) + (if Accepted(post(n, build(sources[n]))) then [] else [sources[n]])
  }

  /** Each processed source lands in exactly one of the two lists. */
  lemma {:induction false} AddPartition(sources: seq<SourceEntry>, build: SourceEntry -> SourceData,
                                        post: (nat, SourceData) -> Outcome<Response<map<string, string>>>)
    ensures |AddedOf(sources, build, post)| + |FailedOf(sources, build, post)| == |sources|
    decreases |sources|
  {
    if sources != [] {
      AddPartition(sources[..|sources| - 1], build, post);
    }
  }

  /** The per-source loop: post each source in order and sort it into added or failed. */
  method AddEach(sources: seq<SourceEntry>, build: SourceEntry -> SourceData,
                 post: (nat, SourceData) -> Outcome<Response<map<string, string>>>)
    returns (added: seq<AddedSource>, failed: seq<SourceEntry>)
    ensures added == AddedOf(sources, build, post) && failed == FailedOf(sources, build, post)
    ensures |added| + |failed| == |sources|
  {
    added, failed := [], [];
    var i := 0;
    while i < |sources|
      invariant 0 <= i <= |sources|
      invariant added == AddedOf(sources[..i], build, post) && failed == FailedOf(sources[..i], build, post)
    {
      assert sources[..i + 1][..i] == sources[..i];
      var response := post(i, build(sources[i]));
      if response.Returned? && response.value.status == 200 && response.value.body.Ok? {
        added := added + [AddedSource(sources[i], response.value.body.value)];
      } else {
        failed := failed + [sources[i]];
      }
      i := i + 1;
    }
    assert sources[..|sources|] == sources;
    AddPartition(sources, build, post);
  }
}
