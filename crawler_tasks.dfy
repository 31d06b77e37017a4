/**
 * The crawl-stage tasks as they stand: the single-source task reports zero
 * counters without looking the source up, the scheduler dispatches nothing, and
 * the batch task echoes its ids. `fault` is the error an exception raised inside
 * a task's body would carry, if one is raised.
 */
module CrawlerTasks {
  import opened Wrappers
  import opened Text

  datatype CrawlCounters = CrawlCounters(articlesFound: nat, articlesProcessed: nat, pagesCrawled: nat)

  datatype StartReport =
    | StartSuccess(message: string, sourceId: string, result: CrawlCounters, taskId: string)
    | StartFailure(message: string, sourceId: string, taskId: string, error: string)

  /** `start_crawler_task`: success with zero counters for the given source, or the error report. */
  function StartCrawlerTask(taskId: string, sourceId: string, fault: Option<string>): (r: StartReport)
    ensures r.sourceId == sourceId && r.taskId == taskId
    ensures fault.None? <==> r.StartSuccess?
    ensures r.StartSuccess? ==> r.result == CrawlCounters(0, 0, 0)
    ensures r.StartFailure? ==> r.error == fault.value && EndsWith(r.message, fault.value)
  {
    match fault
    case None => StartSuccess("Crawler task completed for source: " + sourceId, sourceId, CrawlCounters(0, 0, 0), taskId)
    case Some(e) => StartFailure("Crawler task failed for source " + sourceId + ": " + e, sourceId, taskId, e)
  }

  datatype ScheduleReport =
    | ScheduleSuccess(message: string, taskId: string)
    | ScheduleFailure(message: string, taskId: string, error: string)

  /** `schedule_crawler_task`: it dispatches nothing and reports success unless its body raises. */
  function ScheduleCrawlerTask(taskId: string, fault: Option<string>): (r: ScheduleReport)
    ensures r.taskId == taskId
    ensures fault.None? <==> r.ScheduleSuccess?
    ensures r.ScheduleFailure? ==> r.error == fault.value && EndsWith(r.message, fault.value)
  {
    match fault
    case None => ScheduleSuccess("Scheduled crawler task completed", taskId)
    case Some(e) => ScheduleFailure("Scheduled crawler task failed: " + e, taskId, e)
  }

  datatype BatchReport =
    | BatchSuccess(message: string, sourceIds: seq<string>, taskId: string)
    | BatchFailure(message: string, sourceIds: seq<string>, taskId: string, error: string)

  const BatchPrefix: string := "Batch crawler task completed for "
  const BatchSuffix: string := " sources"

  /** `batch_crawler_task`: the ids come back unchanged and the message names how many there are. */
  function BatchCrawlerTask(taskId: string, sourceIds: seq<string>, fault: Option<string>): (r: BatchReport)
    ensures r.sourceIds == sourceIds && r.taskId == taskId
    ensures fault.None? <==> r.BatchSuccess?
    ensures r.BatchFailure? ==> r.error == fault.value && EndsWith(r.message, fault.value)
  {
    match fault
    case None => BatchSuccess(BatchPrefix + DecimalString(|sourceIds|) + BatchSuffix, sourceIds, taskId)
    case Some(e) => BatchFailure("Batch crawler task failed: " + e, sourceIds, taskId, e)
  }

  /** The success message carries the number of ids: the digits between its fixed prefix and suffix read back as `|sourceIds|`. */
  lemma BatchMessageCount(taskId: string, sourceIds: seq<string>)
    ensures var m := BatchCrawlerTask(taskId, sourceIds, None).message;
      StartsWith(m, BatchPrefix) && EndsWith(m, BatchSuffix)
      && AllDigits(m[|BatchPrefix|..|m| - |BatchSuffix|])
      && DecimalValue(m[|BatchPrefix|..|m| - |BatchSuffix|]) == |sourceIds|
  {
    var m := BatchCrawlerTask(taskId, sourceIds, None).message;
    assert m[|BatchPrefix|..|m| - |BatchSuffix|] == DecimalString(|sourceIds|);
    assert m[..|BatchPrefix|] == BatchPrefix;
    assert m[|m| - |BatchSuffix|..] == BatchSuffix;
    DecimalRoundTrip(|sourceIds|);
  }
}
