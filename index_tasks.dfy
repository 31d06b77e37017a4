/**
 * The indexing stage: the batch indexing task, its scheduler, the index rebuild
 * and the per-article index record.
 */
module IndexTasks {
  import opened Wrappers
  import opened Text
  import opened TaskBatch

  const IndexingSteps: seq<string> := [
    "fetch_article_data", "transform_data", "create_index_document",
    "index_to_elasticsearch", "verify_indexing"
  ]

  const IndexName: string := "news_articles"

  /** The record `index_single_article` builds (its wall-clock `indexing_time` is not part of it). */
  datatype IndexedArticle = IndexedArticle(articleId: string, status: string, indexingSteps: seq<string>,
                                           indexName: string, documentId: string)

  /** The index record for one article: the document id is the article id behind a fixed prefix. */
  function IndexSingleArticle(articleId: string): (r: IndexedArticle)
    ensures r.articleId == articleId && r.status == "indexed" && r.indexName == IndexName
    ensures r.indexingSteps == IndexingSteps
    ensures StartsWith(r.documentId, "doc_") && r.documentId[4..] == articleId
  {
    IndexedArticle(articleId, "indexed", IndexingSteps, IndexName, "doc_" + articleId)
  }

  /** Distinct articles get distinct document ids: the document id determines the article. */
  lemma DocumentIdInjective(a: string, b: string)
    ensures IndexSingleArticle(a).documentId == IndexSingleArticle(b).documentId ==> a == b
  {
    if IndexSingleArticle(a).documentId == IndexSingleArticle(b).documentId {
      assert a == IndexSingleArticle(a).documentId[4..];
    }
  }

  /** `index_single_article` as the batch calls it: it never raises. */
  function IndexStep(i: nat, articleId: string): Outcome<IndexedArticle> {
    Returned(IndexSingleArticle(articleId))
  }

  datatype IndexReport =
    | IndexSuccess(totalArticles: nat, indexedCount: nat, failedCount: nat,
                   results: seq<Entry<IndexedArticle>>, taskId: string)
    | IndexFailure(message: string, taskId: string, error: string)

  /**
   * `index_news_task`: `step` is the per-item call (it may raise) and `updateFault`
   * the error raised by the final state update, if any.
   */
  method IndexNewsTask(taskId: string, articleIds: seq<string>, step: (nat, string) -> Outcome<IndexedArticle>,
                       updateFault: Option<string>)
    returns (report: IndexReport)
    ensures updateFault.None? ==>
      report == IndexSuccess(|articleIds|, CountDone(Entries(articleIds, step)), CountFailed(Entries(articleIds, step)),
                             Entries(articleIds, step), taskId)
    ensures updateFault.Some? ==>
      report == IndexFailure("News indexing task failed: " + updateFault.value, taskId, updateFault.value)
    ensures report.IndexSuccess? ==>
      report.indexedCount + report.failedCount == report.totalArticles == |articleIds| == |report.results|
  {
    var indexed, failed, results := RunBatch(articleIds, step);
    match updateFault
    case Some(e) =>
      report := IndexFailure("News indexing task failed: " + e, taskId, e);
    case None =>
      report := IndexSuccess(|articleIds|, indexed, failed, results, taskId);
  }

  /** With the actual per-article call every id is indexed and the entry at `i` belongs to `articleIds[i]`. */
  lemma IndexedBatch(articleIds: seq<string>)
    ensures CountFailed(Entries(articleIds, IndexStep)) == 0
    ensures CountDone(Entries(articleIds, IndexStep)) == |articleIds|
    ensures forall i :: 0 <= i < |articleIds| ==>
      Entries(articleIds, IndexStep)[i] == Done(IndexSingleArticle(articleIds[i]))
  {
    NeverRaisingStep(articleIds, IndexStep);
    EntriesPointwise(articleIds, IndexStep);
  }

  /** Within a batch, distinct ids give distinct document ids. */
  lemma DistinctDocumentIds(articleIds: seq<string>)
    ensures forall i, j :: 0 <= i < |articleIds| && 0 <= j < |articleIds| && articleIds[i] != articleIds[j] ==>
      IndexSingleArticle(articleIds[i]).documentId != IndexSingleArticle(articleIds[j]).documentId
  {
    forall i, j | 0 <= i < |articleIds| && 0 <= j < |articleIds| && articleIds[i] != articleIds[j]
      ensures IndexSingleArticle(articleIds[i]).documentId != IndexSingleArticle(articleIds[j]).documentId
    {
      DocumentIdInjective(articleIds[i], articleIds[j]);
    }
  }

  datatype ScheduleReport =
    | NothingPending(message: string, taskId: string)
    | Scheduled(message: string, dispatched: seq<string>, childTaskId: string, taskId: string)
    | ScheduleFailure(message: string, taskId: string, error: string)

  /**
   * The index scheduler's decision for a list of pending ids: nothing to do when the
   * list is empty; otherwise one indexing batch dispatched with all the ids.
   */
  function SchedulePending(taskId: string, pending: seq<string>, dispatch: Outcome<string>): (r: ScheduleReport)
    ensures r.NothingPending? <==> pending == []
    ensures r.Scheduled? ==> r.dispatched == pending && dispatch == Returned(r.childTaskId)
    ensures r.ScheduleFailure? ==> pending != [] && dispatch == Raised(r.error)
    ensures r.taskId == taskId
  {
    if pending == [] then NothingPending("No pending articles to index", taskId)
    else match dispatch
      case Returned(child) =>
        Scheduled("Scheduled indexing task for " + DecimalString(|pending|) + " articles", pending, child, taskId)
      case Raised(e) => ScheduleFailure("Scheduled index task failed: " + e, taskId, e)
  }

  /** `schedule_index_task`: the pending list is the empty literal, so it always succeeds without dispatching. */
  function ScheduleIndexTask(taskId: string, dispatch: Outcome<string>): (r: ScheduleReport)
    ensures r == NothingPending("No pending articles to index", taskId)
  {
    SchedulePending(taskId, [], dispatch)
  }

  const RebuildSteps: seq<string> := [
    "backup_existing_index", "delete_old_index", "create_new_index",
    "reindex_all_articles", "verify_index_integrity"
  ]

  datatype RebuildReport =
    | RebuildSuccess(totalArticles: nat, processingTime: real, stepsCompleted: seq<string>, taskId: string)
    | RebuildFailure(message: string, taskId: string, error: string)

  /** `rebuild_index_task`: fixed figures, unless the state update raises. */
  function RebuildIndexTask(taskId: string, updateFault: Option<string>): (r: RebuildReport)
    ensures updateFault.None? <==> r.RebuildSuccess?
    ensures r.RebuildSuccess? ==> r.totalArticles == 12500 && r.stepsCompleted == RebuildSteps
    ensures r.RebuildFailure? ==> r.error == updateFault.value
    ensures r.taskId == taskId
  {
    match updateFault
    case None => RebuildSuccess(12500, 45.2, RebuildSteps, taskId)
    case Some(e) => RebuildFailure("Index rebuild task failed: " + e, taskId, e)
  }

  /** The rebuild reports five distinct steps, from the backup of the old index to the integrity check of the new one. */
  lemma RebuildStepOrder()
    ensures |RebuildSteps| == 5
    ensures RebuildSteps[0] == "backup_existing_index" && RebuildSteps[4] == "verify_index_integrity"
    ensures forall i, j :: 0 <= i < j < 5 ==> RebuildSteps[i] != RebuildSteps[j]
    ensures IndexOf(RebuildSteps, "delete_old_index") < IndexOf(RebuildSteps, "create_new_index")
            < IndexOf(RebuildSteps, "reindex_all_articles")
  {
  }
}
