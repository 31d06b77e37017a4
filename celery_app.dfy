/**
 * The static broker configuration: the four queues, the glob routes from task
 * name to queue with the default-queue fallback, the names the task modules
 * register, and the three periodic (beat) entries.
 */
module CeleryApp {
  import opened Wrappers
  import opened Text

  /** A queue declaration: its name, exchange and routing key. */
  datatype QueueSpec = QueueSpec(name: string, exchange: string, routingKey: string)

  const DefaultQueue: string := "default"

  const TaskQueues: seq<QueueSpec> := [
    QueueSpec("default", "default", "default"),
    QueueSpec("crawler", "crawler", "crawler"),
    QueueSpec("processor", "processor", "processor"),
    QueueSpec("index", "index", "index")
  ]

  function QueueNames(): seq<string> {
    [TaskQueues[0].name, TaskQueues[1].name, TaskQueues[2].name, TaskQueues[3].name]
  }

  /**
   * A route whose glob is `prefix` followed by a single `*`. The broker turns the
   * `*` into `.+?` and matches from the start of the name, so the glob matches
   * the names that start with `prefix` and go on with at least one character
   * other than a newline (dots included).
   */
  datatype GlobRoute = GlobRoute(prefix: string, queue: string)

  const TaskRoutes: seq<GlobRoute> := [
    GlobRoute("app.tasks.crawler_tasks.", "crawler"),
    GlobRoute("app.tasks.processor_tasks.", "processor"),
    GlobRoute("app.tasks.index_tasks.", "index")
  ]

  predicate GlobMatches(route: GlobRoute, name: string) {
    StartsWith(name, route.prefix) && |name| > |route.prefix| && name[|route.prefix|] != '\n'
  }

  /** The queue of the first route in `routes` whose glob matches, or the default queue. */
  function RouteIn(routes: seq<GlobRoute>, name: string): string {
    if routes == [] then DefaultQueue
    else if GlobMatches(routes[0], name) then routes[0].queue
    else RouteIn(routes[1..], name)
  }

  /** The queue the routing table sends a task name to. */
  function QueueFor(name: string): string {
    RouteIn(TaskRoutes, name)
  }

  /** Where a dispatch goes: an explicit queue wins over the routing table. */
  function DispatchQueue(name: string, explicit: Option<string>): (q: string)
    ensures explicit.Some? ==> q == explicit.value
    ensures explicit.None? ==> q == QueueFor(name)
  {
    match explicit
    case Some(queue) => queue
    case None => QueueFor(name)
  }

  /** The names under which the three task modules register their tasks. */
  const RegisteredTasks: seq<string> := [
    "crawler.start_crawler_task", "crawler.schedule_crawler_task", "crawler.batch_crawler_task",
    "processor.process_news_task", "processor.schedule_processor_task",
    "processor.cleanup_duplicates_task", "processor.analyze_sentiment_task",
    "index.index_news_task", "index.schedule_index_task", "index.rebuild_index_task",
    "index.optimize_index_task", "index.sync_database_task"
  ]

  /** A periodic entry: its key, the task it sends, its period in seconds and its arguments. */
  datatype BeatEntry = BeatEntry(key: string, task: string, period: real, args: seq<string>)

  const BeatSchedule: seq<BeatEntry> := [
    BeatEntry("crawl-news-every-hour", "crawler.schedule_crawler_task", 3600.0, []),
    BeatEntry("process-news-every-30min", "processor.schedule_processor_task", 1800.0, []),
    BeatEntry("index-news-every-15min", "index.schedule_index_task", 900.0, [])
  ]

  /** Exactly the four queues, each with exchange and routing key equal to its name; the default is one of them. */
  lemma QueueTable()
    ensures QueueNames() == ["default", "crawler", "processor", "index"]
    ensures forall q :: q in TaskQueues ==> q.exchange == q.name && q.routingKey == q.name
    ensures DefaultQueue in QueueNames()
  {
  }

  /** Two names that agree on their first `k + 1` characters agree at position `k`. */
  lemma PrefixesClash(name: string, p: string, q: string, k: nat)
    requires k < |p| && k < |q|
    ensures StartsWith(name, p) && StartsWith(name, q) ==> p[k] == q[k]
  {
    if StartsWith(name, p) && StartsWith(name, q) {
      assert name[..|p|][k] == name[k] == name[..|q|][k];
    }
  }

  /** No task name matches two of the route globs. */
  lemma RoutesDisjoint(name: string)
    ensures forall i, j :: 0 <= i < j < |TaskRoutes| ==>
      !(GlobMatches(TaskRoutes[i], name) && GlobMatches(TaskRoutes[j], name))
  {
    PrefixesClash(name, TaskRoutes[0].prefix, TaskRoutes[1].prefix, 10);
    PrefixesClash(name, TaskRoutes[0].prefix, TaskRoutes[2].prefix, 10);
    PrefixesClash(name, TaskRoutes[1].prefix, TaskRoutes[2].prefix, 10);
  }

  /** The routing table written out as the chain of tests it performs. */
  lemma QueueForCases(name: string)
    ensures QueueFor(name) ==
      if GlobMatches(TaskRoutes[0], name) then "crawler"
      else if GlobMatches(TaskRoutes[1], name) then "processor"
      else if GlobMatches(TaskRoutes[2], name) then "index"
      else DefaultQueue
  {
    var rest := TaskRoutes[1..];
    assert rest[0] == TaskRoutes[1];
    assert rest[1..][0] == TaskRoutes[2];
    assert rest[1..][1..] == [];
    assert RouteIn(rest[1..], name) == if GlobMatches(TaskRoutes[2], name) then "index" else DefaultQueue;
    assert RouteIn(rest, name) == if GlobMatches(TaskRoutes[1], name) then "processor" else RouteIn(rest[1..], name);
  }

  /** A module prefix followed by at least one character that is not a newline. */
  predicate UnderModule(name: string, prefix: string) {
    StartsWith(name, prefix) && |name| > |prefix| && name[|prefix|] != '\n'
  }

  /**
   * A name goes to a route's queue exactly when it is that module's prefix
   * followed by a character other than a newline, and to the default queue
   * exactly when it matches no glob.
   */
  lemma RoutingExact(name: string)
    ensures QueueFor(name) in QueueNames()
    ensures QueueFor(name) == "crawler" <==> UnderModule(name, "app.tasks.crawler_tasks.")
    ensures QueueFor(name) == "processor" <==> UnderModule(name, "app.tasks.processor_tasks.")
    ensures QueueFor(name) == "index" <==> UnderModule(name, "app.tasks.index_tasks.")
    ensures QueueFor(name) == DefaultQueue <==> forall r :: r in TaskRoutes ==> !GlobMatches(r, name)
  {
    PrefixesClash(name, TaskRoutes[0].prefix, TaskRoutes[1].prefix, 10);
    PrefixesClash(name, TaskRoutes[0].prefix, TaskRoutes[2].prefix, 10);
    PrefixesClash(name, TaskRoutes[1].prefix, TaskRoutes[2].prefix, 10);
    QueueForCases(name);
  }

  /** The bare module prefix, with nothing for the `*` to match, goes to the default queue. */
  lemma BarePrefixToDefault()
    ensures QueueFor("app.tasks.crawler_tasks.") == DefaultQueue
    ensures QueueFor("app.tasks.crawler_tasks.\n") == DefaultQueue
    ensures QueueFor("app.tasks.crawler_tasks.run") == "crawler"
  {
    RoutingExact("app.tasks.crawler_tasks.");
    RoutingExact("app.tasks.crawler_tasks.\n");
    RoutingExact("app.tasks.crawler_tasks.run");
    assert "app.tasks.crawler_tasks.run"[..24] == "app.tasks.crawler_tasks.";
  }

  /** A name that does not begin with `a` matches no route and goes to the default queue. */
  lemma OtherNamesToDefault(name: string)
    ensures (name == [] || name[0] != 'a') ==> QueueFor(name) == DefaultQueue
  {
    if name != [] && name[0] != 'a' {
      assert !GlobMatches(TaskRoutes[0], name) by { assert TaskRoutes[0].prefix[0] == 'a'; }
      assert !GlobMatches(TaskRoutes[1], name) by { assert TaskRoutes[1].prefix[0] == 'a'; }
      assert !GlobMatches(TaskRoutes[2], name) by { assert TaskRoutes[2].prefix[0] == 'a'; }
    }
    QueueForCases(name);
  }

  /**
   * The registered task names match none of the route globs, so the table alone
   * sends every one of them to the default queue; only an explicit queue changes that.
   */
  lemma RegisteredTasksUnrouted()
    ensures forall n :: n in RegisteredTasks ==> QueueFor(n) == DefaultQueue
    ensures DispatchQueue("crawler.start_crawler_task", None) == DefaultQueue
    ensures DispatchQueue("crawler.start_crawler_task", Some("crawler")) == "crawler"
  {
    forall n | n in RegisteredTasks ensures QueueFor(n) == DefaultQueue {
      OtherNamesToDefault(n);
    }
  }

  /** Three periodic entries: hourly crawl scheduling, half-hourly processing, quarter-hourly indexing; no arguments, registered names. */
  lemma BeatScheduleShape()
    ensures |BeatSchedule| == 3
    ensures BeatSchedule[0].task == "crawler.schedule_crawler_task" && BeatSchedule[0].period == 3600.0
    ensures BeatSchedule[1].task == "processor.schedule_processor_task" && BeatSchedule[1].period == 1800.0
    ensures BeatSchedule[2].task == "index.schedule_index_task" && BeatSchedule[2].period == 900.0
    ensures forall e :: e in BeatSchedule ==> e.args == [] && e.task in RegisteredTasks
    ensures forall i, j :: 0 <= i < j < |BeatSchedule| ==> BeatSchedule[i].key != BeatSchedule[j].key
  {
  }
}
