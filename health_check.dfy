/**
 * The system health checker: five checks (API, databases, Celery, crawler, news
 * data), each rolling its probe outcomes up into a healthy / warning / unhealthy
 * status stored under its own key, and a report rolling those statuses up into
 * one. Probes are parameters: a socket probe's result, a Redis call's outcome,
 * an HTTP answer.
 */
module HealthCheck {
  import opened Wrappers
  import opened Http

  const Healthy: string := "healthy"
  const Warning: string := "warning"
  const Unhealthy: string := "unhealthy"

  /** How many entries of `xs` equal `v`. */
  function CountOf(xs: seq<string>, v: string): (n: nat)
    ensures n <= |xs|
    decreases |xs|
  {
    if xs == [] then 0
    else CountOf(xs[..|xs| - 1], v) + (if xs[|xs| - 1] == v then 1 else 0)
  }

  /** A value is counted zero times exactly when it does not occur. */
  lemma {:induction false} CountOfZero(xs: seq<string>, v: string)
    ensures CountOf(xs, v) == 0 <==> v !in xs
    ensures CountOf(xs, v) == |xs| <==> forall i :: 0 <= i < |xs| ==> xs[i] == v
    decreases |xs|
  {
    if xs != [] {
      var init := xs[..|xs| - 1];
      CountOfZero(init, v);
      assert xs == init + [xs[|xs| - 1]];
      if CountOf(xs, v) == |xs| {
        assert CountOf(init, v) == |init|;
        forall i | 0 <= i < |xs| ensures xs[i] == v {
          if i < |init| {
            assert xs[i] == init[i];
          }
        }
      }
      if forall i :: 0 <= i < |xs| ==> xs[i] == v {
        assert forall i :: 0 <= i < |init| ==> init[i] == xs[i];
      }
    }
  }

  /** Counts of three distinct values never exceed the number of entries. */
  lemma {:induction false} CountsBounded(xs: seq<string>, a: string, b: string, c: string)
    requires a != b && b != c && a != c
    ensures CountOf(xs, a) + CountOf(xs, b) + CountOf(xs, c) <= |xs|
    decreases |xs|
  {
    if xs != [] {
      CountsBounded(xs[..|xs| - 1], a, b, c);
    }
  }

  // ---------------------------------------------------------------- database

  /** A TCP connect probe: the port answered, refused, or the probe itself raised. */
  datatype SocketProbe = Open | Closed | SocketRaised

  function SocketState(p: SocketProbe): string {
    match p
    case Open => "connected"
    case Closed => "disconnected"
    case SocketRaised => "error"
  }

  /** Redis is probed by a ping and an info call; either one raising marks it as an error, never as disconnected. */
  function RedisState(pingAndInfoOk: bool): string {
    if pingAndInfoOk then "connected" else "error"
  }

  /** The three-way roll-up the database check uses: all connected, some connected, none. */
  function ConnectedRollup(connected: nat, total: nat): string {
    if connected == total then Healthy
    else if connected > 0 then Warning
    else Unhealthy
  }

  datatype QueueLength = Length(n: nat) | QueueError

  /** One component's entry in the health-status map; every kind has a status and a number of error entries. */
  datatype Report =
    | ApiReport(status: string, errors: nat, detailed: Option<map<string, string>>, ready: Option<map<string, string>>)
    | DatabaseReport(status: string, errors: nat, services: map<string, string>)
    | CeleryReport(status: string, errors: nat, beat: string, worker: string, queues: map<string, QueueLength>)
    | CrawlerReport(status: string, errors: nat, sourcesTotal: Option<nat>, activeSources: Option<nat>)
    | NewsReport(status: string, errors: nat, totalNews: nat, recentNews: nat)

  /** The four service states in probe order: PostgreSQL, MongoDB, Redis, Elasticsearch. */
  function ServiceStates(pg: SocketProbe, mongo: SocketProbe, redisOk: bool, es: SocketProbe): seq<string> {
    [SocketState(pg), SocketState(mongo), RedisState(redisOk), SocketState(es)]
  }

  /** `check_database_health`'s result for the four probes. */
  function DatabaseReportOf(pg: SocketProbe, mongo: SocketProbe, redisOk: bool, es: SocketProbe): (r: Report)
    ensures r.DatabaseReport?
    ensures r.services.Keys == {"postgresql", "mongodb", "redis", "elasticsearch"}
  {
    var states := ServiceStates(pg, mongo, redisOk, es);
    var connected := CountOf(states, "connected");
    DatabaseReport(ConnectedRollup(connected, 4), 4 - connected,
                   map["postgresql" := states[0], "mongodb" := states[1], "redis" := states[2], "elasticsearch" := states[3]])
  }

  /**
   * The database roll-up: healthy exactly when all four services are connected,
   * unhealthy exactly when none is, warning otherwise; every service that is not
   * connected leaves one error entry.
   */
  lemma DatabaseRollup(pg: SocketProbe, mongo: SocketProbe, redisOk: bool, es: SocketProbe)
    ensures var r := DatabaseReportOf(pg, mongo, redisOk, es);
      (r.status == Healthy <==> pg == Open && mongo == Open && redisOk && es == Open)
      && (r.status == Unhealthy <==> pg != Open && mongo != Open && !redisOk && es != Open)
      && (r.status == Warning <==>
            (!(pg == Open && mongo == Open && redisOk && es == Open) && (pg == Open || mongo == Open || redisOk || es == Open)))
      && r.errors + CountOf(ServiceStates(pg, mongo, redisOk, es), "connected") == 4
  {
    var states := ServiceStates(pg, mongo, redisOk, es);
    CountOfZero(states, "connected");
    assert states[0] == "connected" <==> pg == Open;
    assert states[1] == "connected" <==> mongo == Open;
    assert states[2] == "connected" <==> redisOk;
    assert states[3] == "connected" <==> es == Open;
  }

  // ------------------------------------------------------------------ celery

  /** The queues the Celery check inspects. */
  const CeleryQueues: seq<string> := ["celery", "crawler", "processor", "index"]

  /** A queue's entry: its length, or an error when the length query raised. */
  function QueueEntry(o: Outcome<nat>): QueueLength {
    match o
    case Returned(n) => Length(n)
    case Raised(_) => QueueError
  }

  /** The queue table the check builds from `llen`, the outcome of each length query. */
  function QueuesOf(llen: string -> Outcome<nat>): (m: map<string, QueueLength>)
    ensures m.Keys == {"celery", "crawler", "processor", "index"}
  {
    map q | q in CeleryQueues :: QueueEntry(llen(q))
  }

  /** The queue loop: one entry per inspected queue, whatever each query does. */
  method InspectQueues(llen: string -> Outcome<nat>) returns (queues: map<string, QueueLength>)
    ensures queues == QueuesOf(llen)
  {
    queues := map[];
    for i := 0 to |CeleryQueues|
      invariant queues.Keys == set j | 0 <= j < i :: CeleryQueues[j]
      invariant forall q :: q in queues ==> queues[q] == QueueEntry(llen(q))
    {
      var q := CeleryQueues[i];
      queues := queues[q := QueueEntry(llen(q))];
    }
  }

  /**
   * What the Celery check reads from Redis: whether the beat-schedule key is set,
   * how many workers are registered as active, each queue's length, and a second
   * read of the beat-schedule key (its outcome only decides a printed line).
   */
  datatype CeleryProbe = CeleryProbe(beatKey: Outcome<bool>, activeWorkers: Outcome<nat>,
                                     llen: string -> Outcome<nat>, beatConfig: Outcome<bool>)

  /** The Celery roll-up: healthy when both beat and worker run, warning when one does, unhealthy otherwise. */
  function CeleryRollup(beat: string, worker: string): string {
    if beat == "running" && worker == "running" then Healthy
    else if beat == "running" || worker == "running" then Warning
    else Unhealthy
  }

  /**
   * `check_celery_health`'s result: a failing Redis read ends the probing with beat
   * or worker left "unknown" and one more error; the provisional "error" status it
   * sets is then replaced by the roll-up.
   */
  function CeleryReportOf(p: CeleryProbe): (r: Report)
    ensures r.CeleryReport?
    ensures r.status == CeleryRollup(r.beat, r.worker)
    ensures r.errors <= 2 && (r.errors == 0 <==> r.beat == "running" && r.worker == "running")
  {
    match p.beatKey
    case Raised(_) => CeleryReport(CeleryRollup("unknown", "unknown"), 1, "unknown", "unknown", map[])
    case Returned(beatSet) =>
      var beat := if beatSet then "running" else "stopped";
      var beatErrors := if beatSet then 0 else 1;
      match p.activeWorkers
      case Raised(_) => CeleryReport(CeleryRollup(beat, "unknown"), beatErrors + 1, beat, "unknown", map[])
      case Returned(n) =>
        var worker := if n > 0 then "running" else "stopped";
        CeleryReport(CeleryRollup(beat, worker), beatErrors + (if n > 0 then 0 else 1), beat, worker, QueuesOf(p.llen))
  }

  /**
   * The Celery roll-up: healthy exactly when the beat key is set and some worker is
   * active, unhealthy exactly when neither holds, warning when just one does; the
   * status is always one of the three, and the queue table is filled exactly when
   * both reads before it succeed.
   */
  lemma CeleryRollupCases(p: CeleryProbe)
    ensures var r := CeleryReportOf(p);
      var beatRuns := p.beatKey == Returned(true);
      var workerRuns := p.beatKey.Returned? && p.activeWorkers.Returned? && p.activeWorkers.value > 0;
      (r.status == Healthy <==> beatRuns && workerRuns)
      && (r.status == Warning <==> beatRuns != workerRuns)
      && (r.status == Unhealthy <==> !beatRuns && !workerRuns)
      && (r.queues != map[] <==> p.beatKey.Returned? && p.activeWorkers.Returned?)
  {
    var r := CeleryReportOf(p);
    if p.beatKey.Returned? && p.activeWorkers.Returned? {
      assert "celery" in r.queues;
    }
  }

  // ----------------------------------------------------------------- crawler

  /** How many sources are active. */
  function ActiveCount(activeFlags: seq<bool>): (n: nat)
    ensures n <= |activeFlags|
    ensures n == 0 <==> forall i :: 0 <= i < |activeFlags| ==> !activeFlags[i]
    decreases |activeFlags|
  {
    if activeFlags == [] then 0
    else
      var init := activeFlags[..|activeFlags| - 1];
      assert forall i :: 0 <= i < |init| ==> init[i] == activeFlags[i];
      ActiveCount(init) + (if activeFlags[|activeFlags| - 1] then 1 else 0)
  }

  /** An HTTP probe counts as answered when it returned 200 with a body that decodes. */
  predicate Answered<B>(o: Outcome<Response<B>>) {
    o.Returned? && o.value.status == 200 && o.value.body.Ok?
  }

  /**
   * `check_crawler_health`'s result: `sources` answers with each source's active flag
   * and `crawlerStatus` is the status probe; each probe that is not answered leaves
   * one error entry.
   */
  function CrawlerReportOf(sources: Outcome<Response<seq<bool>>>, crawlerStatus: Outcome<Response<map<string, string>>>): (r: Report)
    ensures r.CrawlerReport?
    ensures r.errors == (if Answered(sources) then 0 else 1) + (if Answered(crawlerStatus) then 0 else 1)
  {
    var statusErrors := if Answered(crawlerStatus) then 0 else 1;
    if Answered(sources) then
      var flags := sources.value.body.value;
      var active := ActiveCount(flags);
      CrawlerReport(if active > 0 then Healthy else Unhealthy, statusErrors, Some(|flags|), Some(active))
    else
      CrawlerReport(Unhealthy, 1 + statusErrors, None, None)
  }

  /** The crawler is healthy exactly when the source list was answered and at least one source is active; it is never "warning". */
  lemma CrawlerRollup(sources: Outcome<Response<seq<bool>>>, crawlerStatus: Outcome<Response<map<string, string>>>)
    ensures var r := CrawlerReportOf(sources, crawlerStatus);
      (r.status == Healthy <==>
         Answered(sources) && exists i :: 0 <= i < |sources.value.body.value| && sources.value.body.value[i])
      && (r.status == Healthy || r.status == Unhealthy)
  {
  }

  // -------------------------------------------------------------- news data

  /** One news item: only whether it carries a publish time matters to the check. */
  datatype NewsItem = NewsItem(hasPublishTime: bool)

  /** A value inside the answer object: an object (with or without `items`), a list, or a scalar. */
  datatype FieldValue = ObjectValue(items: Option<seq<NewsItem>>) | ListValue(list: seq<NewsItem>) | Scalar

  datatype Field = Field(key: string, value: FieldValue)

  /** The decoded news answer: a top-level list, or an object with its fields in order. */
  datatype NewsBody = TopLevelList(items: seq<NewsItem>) | Object(fields: seq<Field>)

  /** The value under `key`, if any. */
  function FieldNamed(fields: seq<Field>, key: string): (r: Option<FieldValue>)
    ensures r.Some? ==> exists i :: 0 <= i < |fields| && fields[i] == Field(key, r.value)
    decreases |fields|
  {
    if fields == [] then None
    else if fields[0].key == key then Some(fields[0].value)
    else
      var r := FieldNamed(fields[1..], key);
      assert forall i :: 1 <= i < |fields| ==> fields[1..][i - 1] == fields[i];
      r
  }

  /** The first list-valued field's list, or nothing. */
  function FirstList(fields: seq<Field>): (items: seq<NewsItem>)
    ensures items != [] ==> exists i :: 0 <= i < |fields| && fields[i].value == ListValue(items)
    decreases |fields|
  {
    if fields == [] then []
    else if fields[0].value.ListValue? then fields[0].value.list
    else
      var r := FirstList(fields[1..]);
      assert forall i :: 1 <= i < |fields| ==> fields[1..][i - 1] == fields[i];
      r
  }

  /** Where the news list is found: `data.items`, `data` itself when a list, else the first list-valued field; a top-level list as it is. */
  function NewsList(body: NewsBody): seq<NewsItem> {
    match body
    case TopLevelList(items) => items
    case Object(fields) =>
      match FieldNamed(fields, "data")
      case Some(ObjectValue(items)) => items.GetOr([])
      case Some(ListValue(l)) => l
      case _ => FirstList(fields)
  }

  /** How many items carry a publish time. */
  function TimestampedCount(items: seq<NewsItem>): (n: nat)
    ensures n <= |items|
    decreases |items|
  {
    if items == [] then 0
    else TimestampedCount(items[..|items| - 1]) + (if items[|items| - 1].hasPublishTime then 1 else 0)
  }

  /** `check_news_data`'s result for the news-list probe. */
  function NewsReportOf(news: Outcome<Response<NewsBody>>): (r: Report)
    ensures r.NewsReport? && r.recentNews <= r.totalNews
  {
    if Answered(news) then
      var items := NewsList(news.value.body.value);
      NewsReport(if |items| > 0 then Healthy else Warning, 0, |items|, TimestampedCount(items))
    else
      NewsReport(Warning, 1, 0, 0)
  }

  /**
   * The news roll-up: healthy exactly when the list was answered and holds an item,
   * warning otherwise, never unhealthy; an object whose `data` field is a list yields
   * that list.
   */
  lemma NewsRollup(news: Outcome<Response<NewsBody>>)
    ensures var r := NewsReportOf(news);
      (r.status == Healthy <==> Answered(news) && NewsList(news.value.body.value) != [])
      && (r.status == Healthy || r.status == Warning)
      && (r.errors == 0 <==> Answered(news))
    ensures Answered(news) && news.value.body.value.Object? && FieldNamed(news.value.body.value.fields, "data") == Some(ListValue([])) ==>
      NewsReportOf(news).status == Warning
  {
  }

  // --------------------------------------------------------------------- api

  /** The answer's `status` field, "unknown" when absent. */
  function StatusField(m: map<string, string>): string {
    if "status" in m then m["status"] else "unknown"
  }

  /** A probe's decoded body when it was answered. */
  function BodyIfAnswered(o: Outcome<Response<map<string, string>>>): Option<map<string, string>> {
    if Answered(o) then Some(o.value.body.value) else None
  }

  /**
   * `check_api_health`'s result: the basic probe sets the status (the reported one,
   * or unhealthy with one error); the detailed and readiness probes only attach
   * their bodies.
   */
  function ApiReportOf(basic: Outcome<Response<map<string, string>>>, detailed: Outcome<Response<map<string, string>>>,
                       ready: Outcome<Response<map<string, string>>>): (r: Report)
    ensures r.ApiReport?
    ensures r.errors == 0 <==> Answered(basic)
    ensures Answered(basic) ==> r.status == StatusField(basic.value.body.value)
    ensures !Answered(basic) ==> r.status == Unhealthy
    ensures r.detailed.Some? <==> Answered(detailed)
    ensures r.ready.Some? <==> Answered(ready)
  {
    if Answered(basic) then ApiReport(StatusField(basic.value.body.value), 0, BodyIfAnswered(detailed), BodyIfAnswered(ready))
    else ApiReport(Unhealthy, 1, BodyIfAnswered(detailed), BodyIfAnswered(ready))
  }

  // ------------------------------------------------------------------ report

  /** The five checks, each of which writes the health-status entry named by its key. */
  datatype Component = Api | Database | Celery | Crawler | NewsData

  function Key(c: Component): string {
    match c
    case Api => "api"
    case Database => "database"
    case Celery => "celery"
    case Crawler => "crawler"
    case NewsData => "news_data"
  }

  /** Distinct components are stored under distinct keys. */
  lemma KeysDistinct(c: Component, d: Component)
    ensures Key(c) == Key(d) ==> c == d
  {
    if c != d {
      assert Key(c)[0] != Key(d)[0] || |Key(c)| != |Key(d)|;
    }
  }

  /** Storing a report under every component replaces whatever was stored before: the result is the same from any starting table. */
  lemma EveryComponentStored(m: map<Component, Report>, a: Report, d: Report, c: Report, w: Report, n: Report)
    ensures m[Api := a][Database := d][Celery := c][Crawler := w][NewsData := n]
            == map[Api := a, Database := d, Celery := c, Crawler := w, NewsData := n]
  {
    var full := m[Api := a][Database := d][Celery := c][Crawler := w][NewsData := n];
    var expected := map[Api := a, Database := d, Celery := c, Crawler := w, NewsData := n];
    forall k: Component
      ensures k in full && k in expected && full[k] == expected[k]
    {
      match k
      case Api =>
      case Database =>
      case Celery =>
      case Crawler =>
      case NewsData =>
    }
  }

  /** A table holding every component has five entries. */
  lemma FullTableSize(a: Report, d: Report, c: Report, w: Report, n: Report)
    ensures |map[Api := a, Database := d, Celery := c, Crawler := w, NewsData := n]| == 5
  {
    var full := map[Api := a, Database := d, Celery := c, Crawler := w, NewsData := n];
    assert full.Keys == {Api, Database, Celery, Crawler, NewsData};
  }

  /** The statuses of the entries under `keys`, in that order; keys without an entry are skipped. */
  function StatusesOf(status: map<Component, Report>, keys: seq<Component>): (r: seq<string>)
    ensures |r| <= |keys|
    ensures (forall k :: k in keys ==> k in status) ==> |r| == |keys|
    decreases |keys|
  {
    if keys == [] then []
    else
      var k := keys[|keys| - 1];
      StatusesOf(status, keys[..|keys| - 1]) + (if k in status then [status[k].status] else [])
  }

  /** The overall status: healthy with no warning and no unhealthy component, warning with warnings only, else unhealthy. */
  function Overall(warnings: nat, unhealthy: nat): string {
    if unhealthy == 0 && warnings == 0 then Healthy
    else if unhealthy == 0 then Warning
    else Unhealthy
  }

  /**
   * The overall status in terms of the component statuses: healthy exactly when no
   * component is warning or unhealthy, warning exactly when some is warning and none
   * unhealthy, unhealthy exactly when some component is; other statuses count only
   * toward the total.
   */
  lemma OverallRollup(statuses: seq<string>)
    ensures var o := Overall(CountOf(statuses, Warning), CountOf(statuses, Unhealthy));
      (o == Healthy <==> Warning !in statuses && Unhealthy !in statuses)
      && (o == Warning <==> Warning in statuses && Unhealthy !in statuses)
      && (o == Unhealthy <==> Unhealthy in statuses)
    ensures CountOf(statuses, Healthy) + CountOf(statuses, Warning) + CountOf(statuses, Unhealthy) <= |statuses|
  {
    CountOfZero(statuses, Warning);
    CountOfZero(statuses, Unhealthy);
    CountsBounded(statuses, Healthy, Warning, Unhealthy);
  }

  datatype HealthReport = HealthReport(timestamp: string, overall: string, components: map<Component, Report>,
                                       healthy: nat, warning: nat, unhealthy: nat, total: nat)

  /** The health-status map and the order its entries were first written in. */
  class HealthChecker {
    var healthStatus: map<Component, Report>
    var keys: seq<Component>

    ghost predicate Valid()
      reads this
    {
      (forall k :: k in healthStatus <==> k in keys) && |keys| == |healthStatus|
    }

    constructor ()
      ensures Valid() && healthStatus == map[] && keys == []
    {
      healthStatus := map[];
      keys := [];
    }

    /** Write `r` under `key`: the entry is replaced, a new key goes last, nothing else changes. */
    method Store(key: Component, r: Report)
      requires Valid()
      modifies this
      ensures Valid()
      ensures healthStatus == old(healthStatus)[key := r]
      ensures keys == if key in old(healthStatus) then old(keys) else old(keys) + [key]
    {
      if key !in healthStatus {
        keys := keys + [key];
      }
      healthStatus := healthStatus[key := r];
    }

    method CheckApiHealth(basic: Outcome<Response<map<string, string>>>, detailed: Outcome<Response<map<string, string>>>,
                          ready: Outcome<Response<map<string, string>>>)
      returns (r: Report)
      requires Valid()
      modifies this
      ensures Valid() && r == ApiReportOf(basic, detailed, ready)
      ensures healthStatus == old(healthStatus)[Api := r]
      ensures keys == if Api in old(healthStatus) then old(keys) else old(keys) + [Api]
    {
      r := ApiReportOf(basic, detailed, ready);
      Store(Api, r);
    }

    method CheckDatabaseHealth(pg: SocketProbe, mongo: SocketProbe, redisOk: bool, es: SocketProbe)
      returns (r: Report)
      requires Valid()
      modifies this
      ensures Valid() && r == DatabaseReportOf(pg, mongo, redisOk, es)
      ensures healthStatus == old(healthStatus)[Database := r]
      ensures keys == if Database in old(healthStatus) then old(keys) else old(keys) + [Database]
    {
      r := DatabaseReportOf(pg, mongo, redisOk, es);
      Store(Database, r);
    }

    method CheckCeleryHealth(p: CeleryProbe) returns (r: Report)
      requires Valid()
      modifies this
      ensures Valid() && r == CeleryReportOf(p)
      ensures healthStatus == old(healthStatus)[Celery := r]
      ensures keys == if Celery in old(healthStatus) then old(keys) else old(keys) + [Celery]
    {
      var beat := "unknown";
      var worker := "unknown";
      var errors := 0;
      var queues: map<string, QueueLength> := map[];
      match p.beatKey {
        case Raised(_) =>
          errors := errors + 1;
        case Returned(beatSet) =>
          if beatSet {
            beat := "running";
          } else {
            beat := "stopped";
            errors := errors + 1;
          }
          match p.activeWorkers {
            case Raised(_) =>
              errors := errors + 1;
            case Returned(n) =>
              if n > 0 {
                worker := "running";
              } else {
                worker := "stopped";
                errors := errors + 1;
              }
              queues := InspectQueues(p.llen);
          }
      }
      r := CeleryReport(CeleryRollup(beat, worker), errors, beat, worker, queues);
      assert r == CeleryReportOf(p);
      Store(Celery, r);
    }

    method CheckCrawlerHealth(sources: Outcome<Response<seq<bool>>>, crawlerStatus: Outcome<Response<map<string, string>>>)
      returns (r: Report)
      requires Valid()
      modifies this
      ensures Valid() && r == CrawlerReportOf(sources, crawlerStatus)
      ensures healthStatus == old(healthStatus)[Crawler := r]
      ensures keys == if Crawler in old(healthStatus) then old(keys) else old(keys) + [Crawler]
    {
      r := CrawlerReportOf(sources, crawlerStatus);
      Store(Crawler, r);
    }

    method CheckNewsData(news: Outcome<Response<NewsBody>>) returns (r: Report)
      requires Valid()
      modifies this
      ensures Valid() && r == NewsReportOf(news)
      ensures healthStatus == old(healthStatus)[NewsData := r]
      ensures keys == if NewsData in old(healthStatus) then old(keys) else old(keys) + [NewsData]
    {
      r := NewsReportOf(news);
      Store(NewsData, r);
    }

    /** `generate_health_report`: the per-status counts over the stored components and the overall status they give. */
    method GenerateHealthReport(now: string) returns (report: HealthReport)
      requires Valid()
      ensures report.components == healthStatus && report.timestamp == now
      ensures report.total == |keys| == |StatusesOf(healthStatus, keys)|
      ensures report.healthy == CountOf(StatusesOf(healthStatus, keys), Healthy)
      ensures report.warning == CountOf(StatusesOf(healthStatus, keys), Warning)
      ensures report.unhealthy == CountOf(StatusesOf(healthStatus, keys), Unhealthy)
      ensures report.overall == Overall(report.warning, report.unhealthy)
    {
      var statuses: seq<string> := [];
      for i := 0 to |keys|
        invariant statuses == StatusesOf(healthStatus, keys[..i])
      {
        assert keys[..i + 1][..i] == keys[..i];
        var k := keys[i];
        if k in healthStatus {
          statuses := statuses + [healthStatus[k].status];
        }
      }
      assert keys[..|keys|] == keys;
      var healthy, warning, unhealthy := 0, 0, 0;
      for i := 0 to |statuses|
        invariant healthy == CountOf(statuses[..i], Healthy)
        invariant warning == CountOf(statuses[..i], Warning)
        invariant unhealthy == CountOf(statuses[..i], Unhealthy)
      {
        assert statuses[..i + 1][..i] == statuses[..i];
        if statuses[i] == Healthy {
          healthy := healthy + 1;
        } else if statuses[i] == Warning {
          warning := warning + 1;
        } else if statuses[i] == Unhealthy {
          unhealthy := unhealthy + 1;
        }
      }
      assert statuses[..|statuses|] == statuses;
      report := HealthReport(now, Overall(warning, unhealthy), healthStatus, healthy, warning, unhealthy, |statuses|);
    }

    /** The first three checks of a full run. */
    method RunInfrastructureChecks(basic: Outcome<Response<map<string, string>>>, detailed: Outcome<Response<map<string, string>>>,
                                   ready: Outcome<Response<map<string, string>>>,
                                   pg: SocketProbe, mongo: SocketProbe, redisOk: bool, es: SocketProbe, celery: CeleryProbe)
      requires Valid()
      modifies this
      ensures Valid()
      ensures healthStatus == old(healthStatus)[Api := ApiReportOf(basic, detailed, ready)]
                                               [Database := DatabaseReportOf(pg, mongo, redisOk, es)]
                                               [Celery := CeleryReportOf(celery)]
      ensures old(keys) == [] ==> keys == [Api, Database, Celery]
    {
      var a := CheckApiHealth(basic, detailed, ready);
      var d := CheckDatabaseHealth(pg, mongo, redisOk, es);
      var c := CheckCeleryHealth(celery);
    }

    /** The last two checks of a full run. */
    method RunContentChecks(sources: Outcome<Response<seq<bool>>>, crawlerStatus: Outcome<Response<map<string, string>>>,
                            news: Outcome<Response<NewsBody>>)
      requires Valid()
      modifies this
      ensures Valid()
      ensures healthStatus == old(healthStatus)[Crawler := CrawlerReportOf(sources, crawlerStatus)][NewsData := NewsReportOf(news)]
      ensures old(keys) == [Api, Database, Celery] ==> keys == [Api, Database, Celery, Crawler, NewsData]
    {
      var w := CheckCrawlerHealth(sources, crawlerStatus);
      var n := CheckNewsData(news);
    }

    /** `run_full_health_check`: the five checks in order, then the report; on a fresh checker the five entries appear in check order. */
    method RunFullHealthCheck(basic: Outcome<Response<map<string, string>>>, detailed: Outcome<Response<map<string, string>>>,
                              ready: Outcome<Response<map<string, string>>>,
                              pg: SocketProbe, mongo: SocketProbe, redisOk: bool, es: SocketProbe,
                              celery: CeleryProbe,
                              sources: Outcome<Response<seq<bool>>>, crawlerStatus: Outcome<Response<map<string, string>>>,
                              news: Outcome<Response<NewsBody>>, now: string)
      returns (report: HealthReport)
      requires Valid()
      modifies this
      ensures Valid()
      ensures healthStatus == map[Api := ApiReportOf(basic, detailed, ready),
                                  Database := DatabaseReportOf(pg, mongo, redisOk, es),
                                  Celery := CeleryReportOf(celery),
                                  Crawler := CrawlerReportOf(sources, crawlerStatus),
                                  NewsData := NewsReportOf(news)]
      ensures old(keys) == [] ==> keys == [Api, Database, Celery, Crawler, NewsData]
      ensures report.total == 5 == |StatusesOf(healthStatus, keys)| && report.components == healthStatus
      ensures report.healthy == CountOf(StatusesOf(healthStatus, keys), Healthy)
      ensures report.warning == CountOf(StatusesOf(healthStatus, keys), Warning)
      ensures report.unhealthy == CountOf(StatusesOf(healthStatus, keys), Unhealthy)
      ensures report.overall == Overall(report.warning, report.unhealthy)
    {
      RunInfrastructureChecks(basic, detailed, ready, pg, mongo, redisOk, es, celery);
      RunContentChecks(sources, crawlerStatus, news);
      var a, d, c, w, n := ApiReportOf(basic, detailed, ready), DatabaseReportOf(pg, mongo, redisOk, es),
                           CeleryReportOf(celery), CrawlerReportOf(sources, crawlerStatus), NewsReportOf(news);
      EveryComponentStored(old(healthStatus), a, d, c, w, n);
      FullTableSize(a, d, c, w, n);
      assert |keys| == 5;
      report := GenerateHealthReport(now);
    }
  }
}
