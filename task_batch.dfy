/**
 * The per-item loop shared by the batch tasks (processing, sentiment analysis,
 * indexing): each id is handed to the per-item call in turn; a call that raises
 * becomes a `failed` entry carrying the id and the error text, and the loop goes on.
 */
module TaskBatch {
  import opened Wrappers

  /** One entry of a batch's `results` list. */
  datatype Entry<R> = Done(result: R) | Failed(articleId: string, error: string)

  function EntryFor<R>(id: string, outcome: Outcome<R>): Entry<R> {
    match outcome
    case Returned(v) => Done(v)
    case Raised(e) => Failed(id, e)
  }

  /**
   * The results list for `ids`, where `step(i, id)` is what the per-item call does
   * when it is the `i`-th call of the batch.
   */
  function Entries<R>(ids: seq<string>, step: (nat, string) -> Outcome<R>): (r: seq<Entry<R>>)
    ensures |r| == |ids|
    decreases |ids|
  {
    if ids == [] then []
    else Entries(ids[..|ids| - 1], step) + [EntryFor(ids[|ids| - 1], step(|ids| - 1, ids[|ids| - 1]))]
  }

  function CountDone<R>(es: seq<Entry<R>>): nat
    decreases |es|
  {
    if es == [] then 0 else CountDone(es[..|es| - 1]) + (if es[|es| - 1].Done? then 1 else 0)
  }

  function CountFailed<R>(es: seq<Entry<R>>): nat
    decreases |es|
  {
    if es == [] then 0 else CountFailed(es[..|es| - 1]) + (if es[|es| - 1].Failed? then 1 else 0)
  }

  /** One entry per id, in input order; the entry at `i` is the outcome of the `i`-th call on `ids[i]`. */
  lemma {:induction false} EntriesPointwise<R>(ids: seq<string>, step: (nat, string) -> Outcome<R>)
    ensures forall i :: 0 <= i < |ids| ==> Entries(ids, step)[i] == EntryFor(ids[i], step(i, ids[i]))
    decreases |ids|
  {
    if ids != [] {
      EntriesPointwise(ids[..|ids| - 1], step);
    }
  }

  /** Every entry is either a success or a failure, so the two counts add up to the length. */
  lemma {:induction false} CountsPartition<R>(es: seq<Entry<R>>)
    ensures CountDone(es) + CountFailed(es) == |es|
    decreases |es|
  {
    if es != [] {
      CountsPartition(es[..|es| - 1]);
    }
  }

  /** When the per-item call never raises, no entry fails and every entry is a success. */
  lemma {:induction false} NeverRaisingStep<R>(ids: seq<string>, step: (nat, string) -> Outcome<R>)
    ensures (forall i: nat, id: string :: step(i, id).Returned?) ==>
      CountFailed(Entries(ids, step)) == 0 && CountDone(Entries(ids, step)) == |ids|
    decreases |ids|
  {
    if forall i: nat, id: string :: step(i, id).Returned? {
      if ids != [] {
        NeverRaisingStep(ids[..|ids| - 1], step);
        var es := Entries(ids, step);
        assert es[..|es| - 1] == Entries(ids[..|ids| - 1], step);
        EntriesPointwise(ids[..|ids| - 1], step);
      }
    }
  }

  /**
   * The loop: one call per id, in order, counting successes and failures and
   * appending one entry per id.
   */
  method RunBatch<R>(ids: seq<string>, step: (nat, string) -> Outcome<R>)
    returns (okCount: nat, failedCount: nat, results: seq<Entry<R>>)
    ensures results == Entries(ids, step)
    ensures okCount == CountDone(results) && failedCount == CountFailed(results)
    ensures okCount + failedCount == |ids|
  {
    okCount, failedCount, results := 0, 0, [];
    var i := 0;
    while i < |ids|
      invariant 0 <= i <= |ids|
      invariant results == Entries(ids[..i], step)
      invariant okCount == CountDone(results) && failedCount == CountFailed(results)
    {
      var prev := results;
      assert ids[..i + 1][..i] == ids[..i];
      assert Entries(ids[..i + 1], step) == prev + [EntryFor(ids[i], step(i, ids[i]))];
      match step(i, ids[i]) {
        case Returned(v) =>
          results := results + [Done(v)];
          okCount := okCount + 1;
        case Raised(e) =>
          results := results + [Failed(ids[i], e)];
          failedCount := failedCount + 1;
      }
      assert results[..|results| - 1] == prev;
      i := i + 1;
    }
    assert ids[..|ids|] == ids;
    CountsPartition(results);
    EntriesPointwise(ids, step);
  }
}
