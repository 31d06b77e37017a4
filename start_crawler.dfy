/**
 * The crawler starter: it checks that the API answers, registers every
 * configured source, starts one crawl task per registered source and then polls
 * the status of each task it got a usable id for.
 */
module StartCrawler {
  import opened Wrappers
  import opened Text
  import opened NewsModels
  import opened Schemas
  import opened SourceConfig
  import opened Http
  import LoadNewsSources

  /** The parser name: the keyword chain, else the generic website parser. */
  function ParserName(s: SourceEntry): string {
    KeywordParser(LowerName(s)).GetOr("generic_website")
  }

  /** The crawl interval in seconds by how hard the site is: 300, 600 or 900. */
  function CrawlInterval(s: SourceEntry): (r: int)
    ensures IntervalOk(r)
  {
    var name := LowerName(s);
    if Contains(name, "baidu") || Contains(name, "sina") || Contains(name, "sohu") then 300
    else if Contains(name, "qq") || Contains(name, "tencent") || Contains(name, "sogou") then 600
    else 900
  }

  /**
   * The interval follows the parser: the three easy portals get 300 seconds,
   * tencent and sogou 600, and every other parser 900; every interval passes the
   * API's lower bound.
   */
  lemma IntervalFollowsParser(s: SourceEntry)
    ensures ParserName(s) in {"baidu", "sina", "sohu"} <==> CrawlInterval(s) == 300
    ensures ParserName(s) in {"tencent", "sogou"} <==> CrawlInterval(s) == 600
    ensures ParserName(s) in {"toutiao", "yidian", "generic_website"} <==> CrawlInterval(s) == 900
    ensures IntervalOk(CrawlInterval(s))
  {
    KeywordParserRules(LowerName(s));
  }

  /**
   * The starter and the loader name the same parser whenever the name holds a
   * keyword; without one they agree exactly when the loader's type fallback gives
   * the generic website parser.
   */
  lemma ParsersAgree(s: SourceEntry)
    ensures KeywordParser(LowerName(s)).Some? ==> ParserName(s) == LoadNewsSources.ParserName(s)
    ensures KeywordParser(LowerName(s)).None? ==>
      (ParserName(s) == LoadNewsSources.ParserName(s) <==> TypeOf(s) !in {"aggregator", "portal", "search"})
  {
  }

  /** The post body the starter sends for a source. */
  function BuildData(s: SourceEntry): SourceData {
    SourceDataFor(s, ParserName(s), CrawlInterval(s))
  }

  /** The API accepts a starter post exactly when the name is 1 to 100 characters and the declared type is a known source type. */
  lemma StarterPostAcceptance(s: SourceEntry)
    ensures ValidateCreate(PayloadOf(BuildData(s))).Some? <==> NameOk(s.name.GetOr("")) && ParseSourceType(TypeOf(s)).Some?
  {
    PayloadAcceptance(s, ParserName(s), CrawlInterval(s));
    IntervalFollowsParser(s);
  }

  /** `add_news_sources`: every source of every list-valued category, posted in order and sorted into added or failed. */
  method AddNewsSources(config: Config, post: (nat, SourceData) -> Outcome<Response<map<string, string>>>)
    returns (added: seq<AddedSource>, failed: seq<SourceEntry>)
    ensures added == AddedOf(AllListed(config), BuildData, post) && failed == FailedOf(AllListed(config), BuildData, post)
    ensures |added| + |failed| == ListedCount(config)
  {
    var all := CollectListed(config);
    added, failed := AddEach(all, BuildData, post);
    ListedCountIsFlattenedLength(config);
  }

  /** The crawl request the starter posts for a source: no forced crawl, at most five pages. */
  function StartBody(sourceId: string): CrawlerTaskRequest {
    CrawlerTaskRequest(sourceId, false, Some(5))
  }

  /** The body passes the API's crawler-task validation and comes out as the request the starter meant. */
  lemma StartBodyAccepted(sourceId: string)
    ensures ValidateCrawlerTask(CrawlerTaskPayload(Some(sourceId), Some(false), Some(5))) == Some(StartBody(sourceId))
  {
  }

  datatype StartedTask = StartedTask(sourceName: string, sourceId: string, taskId: string, status: string, createdAt: string)
  datatype FailedTask = FailedTask(sourceName: string, sourceId: string, error: string)

  /** How `start_crawler_tasks` ends: nothing to start, a lookup of a missing key, or both lists. */
  datatype StartRun =
    | NoSources
    | MissingKey(key: string, index: nat)
    | Finished(started: seq<StartedTask>, failed: seq<FailedTask>)

  /** A field of the answer's task object, "N/A" when absent. */
  function Field(task: map<string, string>, key: string): string {
    if key in task then task[key] else "N/A"
  }

  /**
   * The outcome of one start call: a 200 answer whose body decodes gives a started
   * task read from the answer's task object; any other status fails with the answer's
   * text, and a raised call or an undecodable body fails with the error's text.
   */
  function StartOne(name: string, sourceId: string, o: Outcome<Response<map<string, string>>>): Result<StartedTask, FailedTask> {
    match o
    case Raised(e) => Err(FailedTask(name, sourceId, e))
    case Returned(response) =>
      if response.status != 200 then Err(FailedTask(name, sourceId, response.text))
      else match response.body
        case Err(e) => Err(FailedTask(name, sourceId, e))
        case Ok(task) =>
          Ok(StartedTask(name, Field(task, "source_id"), Field(task, "task_id"), Field(task, "status"), Field(task, "created_at")))
  }

  /** Sources start in order from `i`; the id and the name are looked up outside the error handling, so a missing one ends the run. */
  function StartFrom(sources: seq<AddedSource>, post: (nat, CrawlerTaskRequest) -> Outcome<Response<map<string, string>>>,
                     i: nat, started: seq<StartedTask>, failed: seq<FailedTask>): StartRun
    requires i <= |sources|
    decreases |sources| - i
  {
    if i == |sources| then Finished(started, failed)
    else if "id" !in sources[i].result then MissingKey("id", i)
    else if sources[i].source.name.None? then MissingKey("name", i)
    else
      var id := sources[i].result["id"];
      match StartOne(sources[i].source.name.value, id, post(i, StartBody(id)))
      case Ok(t) => StartFrom(sources, post, i + 1, started + [t], failed)
      case Err(f) => StartFrom(sources, post, i + 1, started, failed + [f])
  }

  /** `start_crawler_tasks`, with `post(i, body)` the outcome of the `i`-th start call. */
  function StartTasks(sources: seq<AddedSource>, post: (nat, CrawlerTaskRequest) -> Outcome<Response<map<string, string>>>): StartRun {
    if sources == [] then NoSources else StartFrom(sources, post, 0, [], [])
  }

  /** A source can be started when its answer has an id and its entry has a name. */
  predicate Startable(a: AddedSource) {
    "id" in a.result && a.source.name.Some?
  }

  lemma {:induction false} StartFromShape(sources: seq<AddedSource>, post: (nat, CrawlerTaskRequest) -> Outcome<Response<map<string, string>>>,
                                          i: nat, started: seq<StartedTask>, failed: seq<FailedTask>)
    requires i <= |sources|
    ensures var r := StartFrom(sources, post, i, started, failed);
      !r.NoSources?
      && (r.Finished? <==> forall j :: i <= j < |sources| ==> Startable(sources[j]))
      && (r.Finished? ==> |r.started| + |r.failed| == |started| + |failed| + |sources| - i)
      && (r.MissingKey? ==>
            i <= r.index < |sources| && !Startable(sources[r.index])
            && (r.key == "id" <==> "id" !in sources[r.index].result)
            && (forall j :: i <= j < r.index ==> Startable(sources[j])))
    decreases |sources| - i
  {
    if i < |sources| && Startable(sources[i]) {
      var id := sources[i].result["id"];
      match StartOne(sources[i].source.name.value, id, post(i, StartBody(id)))
      case Ok(t) => StartFromShape(sources, post, i + 1, started + [t], failed);
      case Err(f) => StartFromShape(sources, post, i + 1, started, failed + [f]);
    }
  }

  /**
   * Starting a non-empty list either handles every source, each in exactly one list,
   * or stops at the first source whose id or name is missing; it finishes exactly
   * when every source has both.
   */
  lemma StartTasksShape(sources: seq<AddedSource>, post: (nat, CrawlerTaskRequest) -> Outcome<Response<map<string, string>>>)
    ensures StartTasks(sources, post).NoSources? <==> sources == []
    ensures sources != [] ==> (StartTasks(sources, post).Finished? <==> forall j :: 0 <= j < |sources| ==> Startable(sources[j]))
    ensures StartTasks(sources, post).Finished? ==>
      |StartTasks(sources, post).started| + |StartTasks(sources, post).failed| == |sources|
    ensures StartTasks(sources, post).MissingKey? ==>
      var k := StartTasks(sources, post).index;
      k < |sources| && !Startable(sources[k]) && forall j :: 0 <= j < k ==> Startable(sources[j])
  {
    if sources != [] {
      StartFromShape(sources, post, 0, [], []);
    }
  }

  /** The loop of `start_crawler_tasks`. */
  method StartCrawlerTasks(sources: seq<AddedSource>, post: (nat, CrawlerTaskRequest) -> Outcome<Response<map<string, string>>>)
    returns (r: StartRun)
    ensures r == StartTasks(sources, post)
  {
    if sources == [] {
      return NoSources;
    }
    var started: seq<StartedTask> := [];
    var failed: seq<FailedTask> := [];
    var i := 0;
    while i < |sources|
      invariant 0 <= i <= |sources|
      invariant StartFrom(sources, post, i, started, failed) == StartTasks(sources, post)
    {
      if "id" !in sources[i].result {
        return MissingKey("id", i);
      }
      var sourceId := sources[i].result["id"];
      if sources[i].source.name.None? {
        return MissingKey("name", i);
      }
      var name := sources[i].source.name.value;
      var response := post(i, StartBody(sourceId));
      match response {
        case Raised(e) =>
          failed := failed + [FailedTask(name, sourceId, e)];
        case Returned(answer) =>
          if answer.status == 200 {
            match answer.body {
              case Ok(task) =>
                started := started + [StartedTask(name, Field(task, "source_id"), Field(task, "task_id"),
                                                  Field(task, "status"), Field(task, "created_at"))];
              case Err(e) =>
                failed := failed + [FailedTask(name, sourceId, e)];
            }
          } else {
            failed := failed + [FailedTask(name, sourceId, answer.text)];
          }
      }
      i := i + 1;
    }
    r := Finished(started, failed);
  }

  /** A task id worth polling: non-empty and not the "N/A" placeholder. */
  predicate Pollable(taskId: string) {
    taskId != "" && taskId != "N/A"
  }

  /** The task ids `check_started_tasks` polls, in order. */
  function Polled(started: seq<StartedTask>): (r: seq<string>)
    ensures |r| <= |started|
    ensures forall x :: x in r ==> Pollable(x)
    decreases |started|
  {
    if started == [] then []
    else
      var last := started[|started| - 1];
      Polled(started[..|started| - 1]) + (if Pollable(last.taskId) then [last.taskId] else [])
  }

  /** An id is polled exactly when some started task carries it and it is not a placeholder. */
  lemma {:induction false} PolledExactly(started: seq<StartedTask>, x: string)
    ensures x in Polled(started) <==> Pollable(x) && exists t :: t in started && t.taskId == x
    decreases |started|
  {
    if started != [] {
      var init := started[..|started| - 1];
      PolledExactly(init, x);
      if exists t :: t in started && t.taskId == x {
        var t :| t in started && t.taskId == x;
        if t != started[|started| - 1] {
          assert t in init;
        }
      }
    }
  }

  /** The loop of `check_started_tasks`: tasks without a usable id are skipped. */
  method CheckStartedTasks(started: seq<StartedTask>) returns (polled: seq<string>)
    ensures polled == Polled(started)
  {
    polled := [];
    for i := 0 to |started|
      invariant polled == Polled(started[..i])
    {
      assert started[..i + 1][..i] == started[..i];
      var taskId := started[i].taskId;
      if !Pollable(taskId) {
        continue;
      }
      polled := polled + [taskId];
    }
    assert started[..|started|] == started;
  }

  /** The health probe fails only when the call raises or a 200 answer does not decode; any other status still counts as up. */
  predicate SystemReachable(health: Outcome<Response<map<string, string>>>) {
    health.Returned? && !(health.value.status == 200 && health.value.body.Err?)
  }

  datatype RunOutcome =
    | StatusCheckFailed
    | NoneAdded(failedSources: seq<SourceEntry>)
    | StartCrashed(added: seq<AddedSource>, key: string, index: nat)
    | Completed(added: seq<AddedSource>, failedSources: seq<SourceEntry>,
                started: seq<StartedTask>, failedTasks: seq<FailedTask>, polled: seq<string>)

  /**
   * `run`: stop when the API is unreachable, stop when no source was registered,
   * otherwise start a task per registered source and poll the started ones. The
   * start step is never handed an empty list, so its result always unpacks.
   */
  method Run(config: Config, health: Outcome<Response<map<string, string>>>,
             createPost: (nat, SourceData) -> Outcome<Response<map<string, string>>>,
             startPost: (nat, CrawlerTaskRequest) -> Outcome<Response<map<string, string>>>)
    returns (r: RunOutcome)
    ensures r.StatusCheckFailed? <==> !SystemReachable(health)
    ensures SystemReachable(health) ==> (r.NoneAdded? <==> AddedOf(AllListed(config), BuildData, createPost) == [])
    ensures r.NoneAdded? ==>
      r.failedSources == FailedOf(AllListed(config), BuildData, createPost) && |r.failedSources| == ListedCount(config)
    ensures r.StartCrashed? ==>
      r.added == AddedOf(AllListed(config), BuildData, createPost) != []
      && StartTasks(r.added, startPost) == MissingKey(r.key, r.index)
    ensures r.Completed? ==>
      r.added == AddedOf(AllListed(config), BuildData, createPost) != []
      && r.failedSources == FailedOf(AllListed(config), BuildData, createPost)
      && StartTasks(r.added, startPost) == Finished(r.started, r.failedTasks)
      && |r.started| + |r.failedTasks| == |r.added|
      && r.polled == Polled(r.started)
  {
    match health {
      case Raised(_) =>
        return StatusCheckFailed;
      case Returned(answer) =>
        if answer.status == 200 && answer.body.Err? {
          return StatusCheckFailed;
        }
    }
    var added, failed := AddNewsSources(config, createPost);
    if added == [] {
      return NoneAdded(failed);
    }
    var outcome := StartCrawlerTasks(added, startPost);
    StartTasksShape(added, startPost);
    match outcome {
      case NoSources =>
        assert false;
      case MissingKey(key, index) =>
        r := StartCrashed(added, key, index);
      case Finished(started, failedTasks) =>
        var polled := CheckStartedTasks(started);
        r := Completed(added, failed, started, failedTasks, polled);
    }
  }
}
