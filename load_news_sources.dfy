/**
 * The interactive loader for the news-source configuration: a summary of the
 * list-valued categories, and the registration of one category (or of all of
 * them) through the API, with the parser and the interval chosen from the
 * source's name and declared type.
 */
module LoadNewsSources {
  import opened Wrappers
  import opened Text
  import opened NewsModels
  import opened Schemas
  import opened SourceConfig
  import opened Http

  /** The parser name: the keyword chain first, then a generic parser for the declared type. */
  function ParserName(s: SourceEntry): string {
    match KeywordParser(LowerName(s))
    case Some(p) => p
    case None =>
      if TypeOf(s) == "aggregator" then "generic_aggregator"
      else if TypeOf(s) == "portal" then "generic_portal"
      else if TypeOf(s) == "search" then "generic_search"
      else "generic_website"
  }

  /** The crawl interval in seconds, by declared type: 300 for aggregators, 900 for search, 600 otherwise. */
  function CrawlInterval(s: SourceEntry): (r: int)
    ensures IntervalOk(r)
  {
    if TypeOf(s) == "aggregator" then 300
    else if TypeOf(s) == "portal" then 600
    else if TypeOf(s) == "search" then 900
    else 600
  }

  /**
   * The parser names the loader can produce, and how the generic ones follow the
   * type: a generic parser is chosen only when no keyword is in the name, and then
   * its kind is the declared type's.
   */
  lemma ParserNameRange(s: SourceEntry)
    ensures ParserName(s) in {"baidu", "sina", "sohu", "tencent", "sogou", "toutiao", "yidian",
                              "generic_aggregator", "generic_portal", "generic_search", "generic_website"}
    ensures StartsWith(ParserName(s), "generic_") <==> KeywordParser(LowerName(s)).None?
    ensures ParserName(s) == "generic_aggregator" <==> KeywordParser(LowerName(s)).None? && TypeOf(s) == "aggregator"
    ensures ParserName(s) == "generic_portal" <==> KeywordParser(LowerName(s)).None? && TypeOf(s) == "portal"
    ensures ParserName(s) == "generic_search" <==> KeywordParser(LowerName(s)).None? && TypeOf(s) == "search"
    ensures ParserName(s) == "generic_website" ==>
      TypeOf(s) != "aggregator" && TypeOf(s) != "portal" && TypeOf(s) != "search"
  {
    KeywordParserRules(LowerName(s));
    var p := ParserName(s);
    if KeywordParser(LowerName(s)).Some? {
      assert p[0] != 'g';
    }
  }

  /** Every interval the loader picks passes the API's lower bound, and the type alone decides it. */
  lemma CrawlIntervalAccepted(s: SourceEntry, t: SourceEntry)
    ensures IntervalOk(CrawlInterval(s)) && CrawlInterval(s) in {300, 600, 900}
    ensures CrawlInterval(s) == 300 <==> TypeOf(s) == "aggregator"
    ensures CrawlInterval(s) == 900 <==> TypeOf(s) == "search"
    ensures CrawlInterval(s) == 600 <==> TypeOf(s) != "aggregator" && TypeOf(s) != "search"
    ensures TypeOf(s) == TypeOf(t) ==> CrawlInterval(s) == CrawlInterval(t)
  {
  }

  /** The post body the loader sends for a source. */
  function BuildData(s: SourceEntry): SourceData {
    SourceDataFor(s, ParserName(s), CrawlInterval(s))
  }

  /**
   * The three types that get a dedicated parser and interval are not source types
   * the API knows, so every such post is refused by the API's validation; a source
   * of a known type is accepted exactly when its name is 1 to 100 characters.
   */
  lemma TypedPostsRejected(s: SourceEntry)
    ensures TypeOf(s) in {"aggregator", "portal", "search"} ==> ValidateCreate(PayloadOf(BuildData(s))).None?
    ensures ParseSourceType(TypeOf(s)).Some? ==>
      (ValidateCreate(PayloadOf(BuildData(s))).Some? <==> NameOk(s.name.GetOr("")))
  {
    PayloadAcceptance(s, ParserName(s), CrawlInterval(s));
    CrawlIntervalAccepted(s, s);
  }

  /** The first value stored under `key`, if the configuration has that key. */
  function ValueOf(config: Config, key: string): (r: Option<CategoryValue>)
    ensures r.Some? <==> exists i :: 0 <= i < |config| && config[i].key == key
    ensures r.Some? ==> exists i :: 0 <= i < |config| && config[i].key == key && config[i].value == r.value
    decreases |config|
  {
    if config == [] then None
    else if config[0].key == key then Some(config[0].value)
    else
      var r := ValueOf(config[1..], key);
      assert forall i :: 1 <= i < |config| ==> config[1..][i - 1] == config[i];
      r
  }

  /**
   * Which sources a run takes up: the named category's value, or all list-valued
   * categories. A true value that is not a list either has no length, so taking
   * its length fails, or is a string or an object, whose items have no `get`.
   */
  datatype Selection = Chosen(sources: seq<SourceEntry>) | Unsized | NotSources

  /**
   * The selection: a non-empty category name that is a key selects that key's value
   * (a list as it is; any other false value as nothing; any other true value as
   * Unsized or NotSources); anything else selects every list-valued category.
   */
  function Select(config: Config, category: Option<string>): Selection {
    if category.Some? && category.value != "" && ValueOf(config, category.value).Some? then
      match ValueOf(config, category.value).value
      case Listed(l) => Chosen(l)
      case NotAList(falsy, sized) => if falsy then Chosen([]) else if sized then NotSources else Unsized
    else Chosen(AllListed(config))
  }

  /** Without a category, or with one that is not a key, every list-valued category is selected; a list-valued key selects its own list. */
  lemma SelectionCases(config: Config, category: Option<string>)
    ensures category.None? ==> Select(config, category) == Chosen(AllListed(config))
    ensures category.Some? && (forall i :: 0 <= i < |config| ==> config[i].key != category.value) ==>
      Select(config, category) == Chosen(AllListed(config))
    ensures category.Some? && category.value != "" && |config| > 0 && config[0].key == category.value && config[0].value.Listed? ==>
      Select(config, category) == Chosen(config[0].value.sources)
    ensures Select(config, category).Chosen? ==>
      forall s :: s in Select(config, category).sources ==> exists i :: 0 <= i < |config| && config[i].value.Listed? && s in config[i].value.sources
  {
    match Select(config, category)
    case Unsized =>
    case NotSources =>
    case Chosen(l) =>
      forall s | s in l
        ensures exists i :: 0 <= i < |config| && config[i].value.Listed? && s in config[i].value.sources
      {
        if category.Some? && category.value != "" && ValueOf(config, category.value).Some? {
          var i :| 0 <= i < |config| && config[i].key == category.value && config[i].value == ValueOf(config, category.value).value;
          assert config[i].value.Listed?;
        } else {
          AllListedMembers(config, s);
        }
      }
  }

  /** How a registration run ends. */
  datatype AddRun =
    | NoConfig
    | NothingToAdd
    | Cancelled
    | Crashed
    | Registered(added: seq<AddedSource>, failed: seq<SourceEntry>)

  /**
   * `add_sources_to_system`: an empty configuration stops at once; otherwise the
   * selection is made, an empty one stops, a value without a length fails when its
   * length is taken, and `confirmed` is the operator's answer to the prompt. A
   * string or object that is confirmed fails on its first item. Each selected
   * source is otherwise posted (`post(i, data)` is the outcome of the `i`-th call)
   * and lands in exactly one of the two lists.
   */
  method AddSourcesToSystem(config: Config, category: Option<string>, confirmed: bool,
                            post: (nat, SourceData) -> Outcome<Response<map<string, string>>>)
    returns (r: AddRun)
    ensures r.NoConfig? <==> config == []
    ensures r.Crashed? <==> config != [] && (Select(config, category).Unsized? || (Select(config, category).NotSources? && confirmed))
    ensures r.NothingToAdd? <==> config != [] && Select(config, category) == Chosen([])
    ensures r.Cancelled? <==> (config != [] && !confirmed
      && (Select(config, category).NotSources? || (Select(config, category).Chosen? && Select(config, category).sources != [])))
    ensures r.Registered? ==> confirmed && config != [] && Select(config, category).Chosen?
    ensures r.Registered? ==>
      r.added == AddedOf(Select(config, category).sources, BuildData, post)
      && r.failed == FailedOf(Select(config, category).sources, BuildData, post)
      && |r.added| + |r.failed| == |Select(config, category).sources|
  {
    if config == [] {
      return NoConfig;
    }
    var toAdd: seq<SourceEntry> := [];
    if category.Some? && category.value != "" && ValueOf(config, category.value).Some? {
      match ValueOf(config, category.value).value {
        case Listed(l) =>
          toAdd := l;
        case NotAList(falsy, sized) =>
          if !falsy {
            if sized && !confirmed {
              return Cancelled;
            }
            return Crashed;
          }
      }
    } else {
      toAdd := CollectListed(config);
    }
    if toAdd == [] {
      return NothingToAdd;
    }
    if !confirmed {
      return Cancelled;
    }
    var added, failed := AddEach(toAdd, BuildData, post);
    r := Registered(added, failed);
  }

  /**
   * `display_sources_summary`: the total it shows, `None` when the configuration is
   * empty and the summary stops early.
   */
  method DisplaySourcesSummary(config: Config) returns (total: Option<nat>)
    ensures config == [] <==> total.None?
    ensures total.Some? ==> total.value == ListedCount(config) == |AllListed(config)|
  {
    if config == [] {
      return None;
    }
    var sum := 0;
    var i := 0;
    while i < |config|
      invariant 0 <= i <= |config|
      invariant sum == ListedCount(config[..i])
    {
      assert config[..i + 1][..i] == config[..i];
      if config[i].value.Listed? {
        sum := sum + |config[i].value.sources|;
      }
      i := i + 1;
    }
    assert config[..|config|] == config;
    ListedCountIsFlattenedLength(config);
    total := Some(sum);
  }
}
