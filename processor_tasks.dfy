/**
 * The processing stage: the batch processing task, its scheduler, the batch
 * sentiment task and the two per-article record builders.
 */
module ProcessorTasks {
  import opened Wrappers
  import opened Text
  import opened TaskBatch

  const ProcessingSteps: seq<string> := [
    "content_cleaning", "duplicate_detection", "keyword_extraction",
    "category_classification", "sentiment_analysis"
  ]

  datatype ArticleMetadata = ArticleMetadata(keywords: seq<string>, category: string, sentimentScore: real, sentimentLabel: string)

  /** The record `process_single_article` builds (its wall-clock `processing_time` is not part of it). */
  datatype ProcessedArticle = ProcessedArticle(articleId: string, status: string, processingSteps: seq<string>, metadata: ArticleMetadata)

  const FixedMetadata: ArticleMetadata := ArticleMetadata(["AI", "技术", "创新"], "technology", 0.8, "positive")

  /** The record for one article: only the id varies. */
  function ProcessSingleArticle(articleId: string): (r: ProcessedArticle)
    ensures r.articleId == articleId && r.status == "processed"
    ensures r.processingSteps == ProcessingSteps && r.metadata == FixedMetadata
  {
    ProcessedArticle(articleId, "processed", ProcessingSteps, FixedMetadata)
  }

  /** `process_single_article` as the batch calls it: it never raises. */
  function ProcessStep(i: nat, articleId: string): Outcome<ProcessedArticle> {
    Returned(ProcessSingleArticle(articleId))
  }

  datatype ProcessReport =
    | ProcessSuccess(totalArticles: nat, processedCount: nat, failedCount: nat,
                     results: seq<Entry<ProcessedArticle>>, taskId: string)
    | ProcessFailure(message: string, taskId: string, error: string)

  /**
   * `process_news_task`: `step` is the per-item call (it may raise), and
   * `updateFault` is the error raised by the final state update, if any; an error
   * there discards the batch's results and reports the task as failed.
   */
  method ProcessNewsTask(taskId: string, articleIds: seq<string>, step: (nat, string) -> Outcome<ProcessedArticle>,
                         updateFault: Option<string>)
    returns (report: ProcessReport)
    ensures updateFault.None? ==>
      report == ProcessSuccess(|articleIds|, CountDone(Entries(articleIds, step)), CountFailed(Entries(articleIds, step)),
                               Entries(articleIds, step), taskId)
    ensures updateFault.Some? ==>
      report == ProcessFailure("News processing task failed: " + updateFault.value, taskId, updateFault.value)
    ensures report.ProcessSuccess? ==>
      report.processedCount + report.failedCount == report.totalArticles == |articleIds| == |report.results|
  {
    var processed, failed, results := RunBatch(articleIds, step);
    match updateFault
    case Some(e) =>
      report := ProcessFailure("News processing task failed: " + e, taskId, e);
    case None =>
      EntriesPointwise(articleIds, step);
      report := ProcessSuccess(|articleIds|, processed, failed, results, taskId);
  }

  /**
   * With the actual per-article call, every id is processed: no failures, and the
   * entry at `i` is the fixed record for `articleIds[i]`; so re-running a batch
   * classifies every article the same way.
   */
  lemma ProcessedBatchClassification(articleIds: seq<string>)
    ensures CountFailed(Entries(articleIds, ProcessStep)) == 0
    ensures CountDone(Entries(articleIds, ProcessStep)) == |articleIds|
    ensures forall i :: 0 <= i < |articleIds| ==>
      Entries(articleIds, ProcessStep)[i] == Done(ProcessSingleArticle(articleIds[i]))
  {
    NeverRaisingStep(articleIds, ProcessStep);
    EntriesPointwise(articleIds, ProcessStep);
  }

  /** A failing item yields a `failed` entry for its own id and leaves the entries of the other ids as they would otherwise be. */
  lemma FailureIsolated(articleIds: seq<string>, step: (nat, string) -> Outcome<ProcessedArticle>, j: nat, err: string)
    requires j < |articleIds|
    ensures var failing := (i: nat, id: string) => if i == j then Raised(err) else step(i, id);
      var es, fs := Entries(articleIds, step), Entries(articleIds, failing);
      |fs| == |es| && fs[j] == Failed(articleIds[j], err)
      && (forall i :: 0 <= i < |es| && i != j ==> fs[i] == es[i])
  {
    var failing := (i: nat, id: string) => if i == j then Raised(err) else step(i, id);
    EntriesPointwise(articleIds, step);
    EntriesPointwise(articleIds, failing);
  }

  datatype ScheduleReport =
    | NothingPending(message: string, taskId: string)
    | Scheduled(message: string, dispatched: seq<string>, childTaskId: string, taskId: string)
    | ScheduleFailure(message: string, taskId: string, error: string)

  /**
   * The scheduler's decision for a list of pending ids: nothing to do when the list
   * is empty; otherwise one batch dispatched with all the ids, whose outcome is
   * `dispatch` (the new task's id, or the error the broker raised).
   */
  function SchedulePending(taskId: string, pending: seq<string>, dispatch: Outcome<string>): (r: ScheduleReport)
    ensures r.NothingPending? <==> pending == []
    ensures r.Scheduled? ==> r.dispatched == pending && dispatch == Returned(r.childTaskId)
    ensures r.ScheduleFailure? ==> pending != [] && dispatch == Raised(r.error)
    ensures r.taskId == taskId
  {
    if pending == [] then NothingPending("No pending articles to process", taskId)
    else match dispatch
      case Returned(child) =>
        Scheduled("Scheduled processing task for " + DecimalString(|pending|) + " articles", pending, child, taskId)
      case Raised(e) => ScheduleFailure("Scheduled processor task failed: " + e, taskId, e)
  }

  /** `schedule_processor_task`: the pending list is the empty literal, so it always succeeds without dispatching. */
  function ScheduleProcessorTask(taskId: string, dispatch: Outcome<string>): (r: ScheduleReport)
    ensures r == NothingPending("No pending articles to process", taskId)
  {
    SchedulePending(taskId, [], dispatch)
  }

  const SentimentScores: seq<real> := [-1.0, -0.5, 0.0, 0.5, 1.0]
  const SentimentLabels: seq<string> := ["negative", "slightly_negative", "neutral", "slightly_positive", "positive"]

  /** A position in the score list, as the random choice picks it. */
  type ScoreIndex = k: nat | k < 5

  datatype SentimentResult = SentimentResult(articleId: string, status: string, sentimentScore: real, sentimentLabel: string, analyzedAt: string)

  /**
   * `analyze_article_sentiment`: `choice` is the position the random choice picked
   * and `now` the timestamp; the label is looked up at the index of the score.
   */
  function AnalyzeArticleSentiment(articleId: string, choice: ScoreIndex, now: string): (r: SentimentResult)
    ensures r.articleId == articleId && r.status == "analyzed" && r.analyzedAt == now
    ensures r.sentimentScore in SentimentScores
    ensures r.sentimentLabel == SentimentLabels[choice] && r.sentimentScore == SentimentScores[choice]
  {
    var score := SentimentScores[choice];
    SentimentResult(articleId, "analyzed", score, SentimentLabels[IndexOf(SentimentScores, score)], now)
  }

  /** The score-to-label lookup is a bijection: distinct scores, distinct labels, and the label determines the score. */
  lemma SentimentBijection(a: SentimentResult, b: SentimentResult)
    ensures forall i, j :: 0 <= i < j < 5 ==> SentimentScores[i] != SentimentScores[j] && SentimentLabels[i] != SentimentLabels[j]
    ensures forall k: ScoreIndex :: IndexOf(SentimentScores, SentimentScores[k]) == k
    ensures forall id, k1: ScoreIndex, k2: ScoreIndex, now ::
      AnalyzeArticleSentiment(id, k1, now).sentimentLabel == AnalyzeArticleSentiment(id, k2, now).sentimentLabel ==> k1 == k2
  {
  }

  /** The per-item sentiment call as the `i`-th call of the batch: `pick(i)` is its random choice and `clock(i)` its timestamp. */
  function SentimentStep(pick: nat -> ScoreIndex, clock: nat -> string): (nat, string) -> Outcome<SentimentResult> {
    (i: nat, id: string) => Returned(AnalyzeArticleSentiment(id, pick(i), clock(i)))
  }

  datatype SentimentReport =
    | SentimentSuccess(totalArticles: nat, analyzedCount: nat, results: seq<Entry<SentimentResult>>, taskId: string)
    | SentimentFailure(message: string, taskId: string, error: string)

  /** `analyze_sentiment_task`: the same per-item loop; only successes are counted. */
  method AnalyzeSentimentTask(taskId: string, articleIds: seq<string>, step: (nat, string) -> Outcome<SentimentResult>,
                              updateFault: Option<string>)
    returns (report: SentimentReport)
    ensures updateFault.None? ==>
      report == SentimentSuccess(|articleIds|, CountDone(Entries(articleIds, step)), Entries(articleIds, step), taskId)
    ensures updateFault.Some? ==>
      report == SentimentFailure("Sentiment analysis task failed: " + updateFault.value, taskId, updateFault.value)
    ensures report.SentimentSuccess? ==>
      report.analyzedCount <= report.totalArticles == |articleIds| == |report.results|
  {
    var analyzed, _, results := RunBatch(articleIds, step);
    match updateFault
    case Some(e) =>
      report := SentimentFailure("Sentiment analysis task failed: " + e, taskId, e);
    case None =>
      EntriesPointwise(articleIds, step);
      report := SentimentSuccess(|articleIds|, analyzed, results, taskId);
  }

  /**
   * With the actual per-article call every article is analyzed: the entry at `i` is
   * the record for `articleIds[i]` built from the `i`-th random choice, whose label
   * therefore sits at the same index as its score.
   */
  lemma SentimentBatchAllAnalyzed(articleIds: seq<string>, pick: nat -> ScoreIndex, clock: nat -> string)
    ensures CountDone(Entries(articleIds, SentimentStep(pick, clock))) == |articleIds|
    ensures forall i :: 0 <= i < |articleIds| ==>
      Entries(articleIds, SentimentStep(pick, clock))[i] == Done(AnalyzeArticleSentiment(articleIds[i], pick(i), clock(i)))
  {
    var step := SentimentStep(pick, clock);
    NeverRaisingStep(articleIds, step);
    EntriesPointwise(articleIds, step);
  }
}
