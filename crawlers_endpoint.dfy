/**
 * The crawler-management endpoints and the in-memory registry of dispatched crawl
 * tasks they share: a dictionary from dispatch id to task record, listed in
 * insertion order.
 */
module CrawlersEndpoint {
  import opened Wrappers
  import opened Http
  import opened Schemas
  import opened CeleryApp

  /** The record registered for a dispatched crawl. */
  datatype TaskInfo = TaskInfo(
    taskId: string, sourceId: string, status: string, createdAt: string, estimatedStart: string,
    forceCrawl: bool, maxPages: Option<int>, progress: int, articlesFound: int, articlesProcessed: int)

  /**
   * The record for a crawl just handed to the broker under `taskId`; `createdAt`
   * and `estimatedStart` are the two clock readings taken while it is built.
   */
  function NewTaskInfo(taskId: string, request: CrawlerTaskRequest, createdAt: string, estimatedStart: string): TaskInfo {
    TaskInfo(taskId, request.sourceId, "queued", createdAt, estimatedStart, request.forceCrawl, request.maxPages, 0, 0, 0)
  }

  /** A message to the broker: the task name, its positional arguments and the queue asked for. */
  datatype DispatchRequest = DispatchRequest(task: string, args: seq<string>, queue: string)

  function StartDispatch(request: CrawlerTaskRequest): DispatchRequest {
    DispatchRequest("crawler.start_crawler_task", [request.sourceId], "crawler")
  }

  /** The start dispatch reaches the crawler queue only because it names it: the routing table alone would send it to the default queue. */
  lemma StartDispatchQueue(request: CrawlerTaskRequest)
    ensures StartDispatch(request).args == [request.sourceId]
    ensures DispatchQueue(StartDispatch(request).task, Some(StartDispatch(request).queue)) == "crawler"
    ensures DispatchQueue(StartDispatch(request).task, None) == DefaultQueue
  {
    RegisteredTasksUnrouted();
  }

  datatype StartResponse = StartResponse(status: string, message: string, task: TaskInfo)

  const StartFailedDetail: string := "启动爬虫任务失败"
  const TaskMissingDetail: string := "任务不存在"

  /** The record under `taskId`, or 404 when there is none. */
  function Lookup(tasks: map<string, TaskInfo>, taskId: string): (r: Result<TaskInfo, HttpError>)
    ensures r.Ok? <==> taskId in tasks
    ensures r.Ok? ==> r.value == tasks[taskId]
    ensures r.Err? ==> r.error == HttpError(404, TaskMissingDetail)
  {
    if taskId in tasks then Ok(tasks[taskId]) else Err(HttpError(404, TaskMissingDetail))
  }

  /** The values of `tasks` in the order of `keys`. */
  function ValuesIn(tasks: map<string, TaskInfo>, keys: seq<string>): (vs: seq<TaskInfo>)
    requires forall k :: k in keys ==> k in tasks
    ensures |vs| == |keys|
    ensures forall i :: 0 <= i < |keys| ==> vs[i] == tasks[keys[i]]
  {
    if keys == [] then [] else [tasks[keys[0]]] + ValuesIn(tasks, keys[1..])
  }

  /** A query filter applies only when it is given and non-empty. */
  predicate Filtering(f: Option<string>) {
    f.Some? && f.value != ""
  }

  /** The tasks whose `key` equals `wanted`, in their original order. */
  function Matching(ts: seq<TaskInfo>, wanted: string, key: TaskInfo -> string): (r: seq<TaskInfo>)
    ensures |r| <= |ts|
    ensures forall t :: t in r ==> t in ts && key(t) == wanted
    decreases |ts|
  {
    if ts == [] then []
    else (if key(ts[0]) == wanted then [ts[0]] else []) + Matching(ts[1..], wanted, key)
  }

  /** Nothing that matches is dropped. */
  lemma {:induction false} MatchingComplete(ts: seq<TaskInfo>, wanted: string, key: TaskInfo -> string)
    ensures forall t :: t in ts && key(t) == wanted ==> t in Matching(ts, wanted, key)
    decreases |ts|
  {
    if ts != [] {
      MatchingComplete(ts[1..], wanted, key);
      forall t | t in ts && key(t) == wanted ensures t in Matching(ts, wanted, key) {
        if t != ts[0] {
          assert t in ts[1..];
        }
      }
    }
  }

  function StatusOf(t: TaskInfo): string { t.status }
  function SourceOf(t: TaskInfo): string { t.sourceId }

  /** The status filter first, then the source filter. */
  function Selected(all: seq<TaskInfo>, status: Option<string>, sourceId: Option<string>): seq<TaskInfo> {
    var byStatus := if Filtering(status) then Matching(all, status.value, StatusOf) else all;
    if Filtering(sourceId) then Matching(byStatus, sourceId.value, SourceOf) else byStatus
  }

  /** A task passes the selection exactly when it is registered and agrees with every active filter. */
  lemma SelectedExactly(all: seq<TaskInfo>, status: Option<string>, sourceId: Option<string>, t: TaskInfo)
    ensures t in Selected(all, status, sourceId) <==>
      t in all && (Filtering(status) ==> t.status == status.value) && (Filtering(sourceId) ==> t.sourceId == sourceId.value)
  {
    var byStatus := if Filtering(status) then Matching(all, status.value, StatusOf) else all;
    if Filtering(status) {
      MatchingComplete(all, status.value, StatusOf);
    }
    if Filtering(sourceId) {
      MatchingComplete(byStatus, sourceId.value, SourceOf);
    }
  }

  datatype TaskList = TaskList(tasks: seq<TaskInfo>, total: int)

  const DefaultLimit: int := 50
  const MaxLimit: int := 200

  function Min(a: int, b: int): int { if a < b then a else b }

  /**
   * `list_crawler_tasks` over the registered records `all`: a `limit` outside 1..200 is
   * refused by validation; otherwise the selection is cut to `limit` (default 50) and
   * `total` counts what is returned.
   */
  function ListTasks(all: seq<TaskInfo>, status: Option<string>, sourceId: Option<string>, limit: Option<int>)
    : (r: Result<TaskList, HttpError>)
    ensures r.Err? <==> limit.Some? && !(1 <= limit.value <= MaxLimit)
    ensures r.Err? ==> r.error.status == ValidationFailed
    ensures r.Ok? ==> r.value.total == |r.value.tasks| <= limit.GetOr(DefaultLimit)
    ensures r.Ok? ==> r.value.tasks <= Selected(all, status, sourceId)
    ensures r.Ok? ==> |r.value.tasks| == Min(limit.GetOr(DefaultLimit), |Selected(all, status, sourceId)|)
  {
    var n := limit.GetOr(DefaultLimit);
    if n < 1 || n > MaxLimit then Err(HttpError(ValidationFailed, "limit must be between 1 and 200"))
    else
      var sel := Selected(all, status, sourceId);
      var kept := sel[..Min(n, |sel|)];
      Ok(TaskList(kept, |kept|))
  }

  /**
   * Every listed task is registered and passes the filters; and when no more tasks
   * match than the limit allows, every matching task is listed.
   */
  lemma ListingSoundAndComplete(all: seq<TaskInfo>, status: Option<string>, sourceId: Option<string>, limit: Option<int>)
    ensures var r := ListTasks(all, status, sourceId, limit);
      r.Ok? ==> forall t :: t in r.value.tasks ==>
        t in all && (Filtering(status) ==> t.status == status.value) && (Filtering(sourceId) ==> t.sourceId == sourceId.value)
    ensures var r := ListTasks(all, status, sourceId, limit);
      r.Ok? && |Selected(all, status, sourceId)| <= limit.GetOr(DefaultLimit) ==>
        forall t :: (t in all && (Filtering(status) ==> t.status == status.value)
                     && (Filtering(sourceId) ==> t.sourceId == sourceId.value)) ==> t in r.value.tasks
  {
    var r := ListTasks(all, status, sourceId, limit);
    if r.Ok? {
      forall t | t in r.value.tasks
        ensures t in all && (Filtering(status) ==> t.status == status.value) && (Filtering(sourceId) ==> t.sourceId == sourceId.value)
      {
        SelectedExactly(all, status, sourceId, t);
      }
      if |Selected(all, status, sourceId)| <= limit.GetOr(DefaultLimit) {
        assert r.value.tasks == Selected(all, status, sourceId);
        forall t | t in all && (Filtering(status) ==> t.status == status.value) && (Filtering(sourceId) ==> t.sourceId == sourceId.value)
          ensures t in r.value.tasks
        {
          SelectedExactly(all, status, sourceId, t);
        }
      }
    }
  }

  /** An empty status or source filter is no filter at all. */
  lemma EmptyFilterIgnored(all: seq<TaskInfo>)
    ensures Selected(all, Some(""), Some("")) == all && Selected(all, None, None) == all
  {
  }

  /** The registry: the records by dispatch id, and the ids in the order they were first registered. */
  class TaskRegistry {
    var tasks: map<string, TaskInfo>
    var order: seq<string>

    ghost predicate Valid()
      reads this
    {
      (forall i, j :: 0 <= i < j < |order| ==> order[i] != order[j])
      && (forall k :: k in tasks <==> k in order)
    }

    constructor ()
      ensures Valid() && tasks == map[] && order == []
    {
      tasks := map[];
      order := [];
    }

    /** The registered records in insertion order. */
    function Values(): (vs: seq<TaskInfo>)
      reads this
      requires Valid()
      ensures |vs| == |order| && forall i :: 0 <= i < |order| ==> vs[i] == tasks[order[i]]
    {
      ValuesIn(tasks, order)
    }

    /**
     * `start_crawler_task`: hand the crawl to the broker; if the broker raises the
     * answer is 500 and nothing is registered; otherwise exactly one record is put
     * under the id the broker returned, every other record is left as it was, and
     * a new id goes to the end of the listing order.
     */
    method StartCrawlerTask(request: CrawlerTaskRequest, broker: DispatchRequest -> Outcome<string>, createdAt: string, estimatedStart: string)
      returns (r: Result<StartResponse, HttpError>)
      requires Valid()
      modifies this
      ensures Valid()
      ensures broker(StartDispatch(request)).Raised? ==>
        r == Err(HttpError(500, StartFailedDetail)) && tasks == old(tasks) && order == old(order)
      ensures broker(StartDispatch(request)).Returned? ==>
        var id := broker(StartDispatch(request)).value;
        r == Ok(StartResponse("success", "爬虫任务已启动", NewTaskInfo(id, request, createdAt, estimatedStart)))
        && tasks == old(tasks)[id := NewTaskInfo(id, request, createdAt, estimatedStart)]
        && order == (if id in old(order) then old(order) else old(order) + [id])
    {
      var sent := broker(StartDispatch(request));
      match sent {
        case Raised(_) =>
          r := Err(HttpError(500, StartFailedDetail));
        case Returned(id) =>
          var info := NewTaskInfo(id, request, createdAt, estimatedStart);
          if id !in order {
            order := order + [id];
          }
          tasks := tasks[id := info];
          r := Ok(StartResponse("success", "爬虫任务已启动", info));
      }
    }

    /** `get_task_status`: the stored record unchanged, or 404 for an unknown id. */
    function GetTaskStatus(taskId: string): (r: Result<TaskInfo, HttpError>)
      reads this
      ensures r == Lookup(tasks, taskId)
    {
      Lookup(tasks, taskId)
    }

    /** `list_crawler_tasks` over the registered records in insertion order. */
    function ListCrawlerTasks(status: Option<string>, sourceId: Option<string>, limit: Option<int>)
      : (r: Result<TaskList, HttpError>)
      reads this
      requires Valid()
      ensures r == ListTasks(Values(), status, sourceId, limit)
    {
      ListTasks(Values(), status, sourceId, limit)
    }
  }

  /** A registered record is looked up unchanged, and registering one id leaves the lookups of all other ids as they were. */
  lemma RegisterThenLookup(tasks: map<string, TaskInfo>, id: string, info: TaskInfo, other: string)
    ensures Lookup(tasks[id := info], id) == Ok(info)
    ensures other != id ==> Lookup(tasks[id := info], other) == Lookup(tasks, other)
  {
  }

  datatype StopResponse = StopResponse(status: string, message: string, taskId: string, stoppedAt: string)

  /** `stop_crawler_task`: it only acknowledges; it has no access to the registry and stops nothing. */
  function StopCrawlerTask(taskId: string, now: string): (r: StopResponse)
    ensures r.status == "success" && r.taskId == taskId && r.stoppedAt == now
    ensures r.message == "爬虫任务 " + taskId + " 已停止"
  {
    StopResponse("success", "爬虫任务 " + taskId + " 已停止", taskId, now)
  }

  datatype CrawlerStatus = CrawlerStatus(
    totalSources: int, activeSources: int, runningTasks: int, queuedTasks: int,
    completedToday: int, failedToday: int, lastCrawlTime: Option<string>, overallStatus: string)

  /** `get_crawler_status`: all counters zero, no last crawl, status unknown. */
  function GetCrawlerStatus(): (r: CrawlerStatus)
    ensures r.totalSources == r.activeSources == r.runningTasks == r.queuedTasks == 0
    ensures r.completedToday == r.failedToday == 0
    ensures r.lastCrawlTime.None? && r.overallStatus == "unknown"
  {
    CrawlerStatus(0, 0, 0, 0, 0, 0, None, "unknown")
  }
}
