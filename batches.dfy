/**
 * The batching loop of the bulk upsert, `for (i = 0; i < n; i += batchSize)`, for any state
 * and any kind of item: each batch is the next `BatchSize` items (fewer at the end); a batch
 * is refused with an error, which ends the loop, or it is applied to the state and the row
 * count the database reports for it is added up.
 */
module Batches {
  import opened Wrappers

  /** Items per batch. */
  const BatchSize: nat := 100

  function Min(a: int, b: int): int {
    if a <= b then a else b
  }

  /** The batch that starts at item `i`. */
  function BatchAt<J>(items: seq<J>, i: nat): (batch: seq<J>)
    requires i <= |items|
    ensures |batch| <= BatchSize
    ensures i < |items| ==> batch != []
  {
    items[i..Min(i + BatchSize, |items|)]
  }

  /** The number of batches `n` items are cut into. */
  function BatchCount(n: nat): nat {
    (n + BatchSize - 1) / BatchSize
  }

  /** The final state, the result (the summed row count, or the first refusal's error) and
      how many items, from the start, the applied batches covered. */
  datatype BatchRun<S> = BatchRun(state: S, result: Result<nat, string>, applied: nat)

  /** The loop from item `i` on, `saved` rows having been reported so far. `refusal(batch, k)`
      is the error batch number `k` fails with, if any; `affected(k)` the row count reported
      for it when applied. */
  function RunBatches<S, J>(apply: (S, seq<J>) -> S, refusal: (seq<J>, nat) -> Option<string>,
                            affected: nat -> nat, s: S, items: seq<J>, i: nat, saved: nat): BatchRun<S>
    decreases |items| - i
  {
    if i >= |items| then BatchRun(s, Success(saved), |items|)
    else
      var batch := items[i..Min(i + BatchSize, |items|)];
      match refusal(batch, i / BatchSize)
      case Some(e) => BatchRun(s, Failure(e), i)
      case None =>
        RunBatches(apply, refusal, affected, apply(s, batch), items, i + BatchSize, saved + affected(i / BatchSize))
  }

  /** The row counts reported for batches `from` to `to - 1`. */
  function SumOf(affected: nat -> nat, from: nat, to: nat): nat
    decreases to - from
  {
    if from >= to then 0 else affected(from) + SumOf(affected, from + 1, to)
  }

  /** Splitting a slice. */
  lemma SliceSplit<T>(s: seq<T>, i: nat, m: nat, j: nat)
    requires i <= m <= j <= |s|
    ensures s[i..j] == s[i..m] + s[m..j]
  {
  }

  /** Batches start at multiples of the batch size. */
  lemma NextBatchStart(i: nat)
    requires i % BatchSize == 0
    ensures (i + BatchSize) % BatchSize == 0 && (i + BatchSize) / BatchSize == i / BatchSize + 1
  {
  }

  /** One applied batch: the rest of the loop starts from the state it leaves. */
  lemma RunBatchesStep<S, J>(apply: (S, seq<J>) -> S, refusal: (seq<J>, nat) -> Option<string>,
                             affected: nat -> nat, s: S, items: seq<J>, i: nat, saved: nat)
    requires i < |items| && refusal(BatchAt(items, i), i / BatchSize).None?
    ensures RunBatches(apply, refusal, affected, s, items, i, saved)
            == RunBatches(apply, refusal, affected, apply(s, BatchAt(items, i)), items, i + BatchSize,
                          saved + affected(i / BatchSize))
  {
  }

  /** The loop itself: `for (i = 0; i < items.length; i += BatchSize)`, stopping at the first
      refused batch. */
  method RunBatchesLoop<S, J>(apply: (S, seq<J>) -> S, refusal: (seq<J>, nat) -> Option<string>,
                              affected: nat -> nat, s: S, items: seq<J>) returns (run: BatchRun<S>)
    ensures run == RunBatches(apply, refusal, affected, s, items, 0, 0)
  {
    var state := s;
    var saved: nat := 0;
    var i: nat := 0;
    while i < |items|
      invariant i % BatchSize == 0
      invariant RunBatches(apply, refusal, affected, s, items, 0, 0) == RunBatches(apply, refusal, affected, state, items, i, saved)
      decreases |items| - i
    {
      var batch := BatchAt(items, i);
      var verdict := refusal(batch, i / BatchSize);
      if verdict.Some? {
        return BatchRun(state, Failure(verdict.value), i);
      }
      RunBatchesStep(apply, refusal, affected, state, items, i, saved);
      state := apply(state, batch);
      saved := saved + affected(i / BatchSize);
      NextBatchStart(i);
      i := i + BatchSize;
    }
    return BatchRun(state, Success(saved), |items|);
  }

  /** Applying batches that own `apply` is a fold: applying nothing changes nothing, and
      applying two runs of items one after the other is applying them together. */
  ghost predicate IsFold<S(!new), J(!new)>(apply: (S, seq<J>) -> S) {
    && (forall s :: apply(s, []) == s)
    && (forall s, a, b :: apply(s, a + b) == apply(apply(s, a), b))
  }

  /** The loop from item `i` on, for an `apply` that is a fold: it ends as if the items of
      the applied batches had been applied at once; it succeeds exactly when every batch was
      applied, with the sum of the reported row counts; otherwise it stopped at the start of
      a batch, and that batch was refused with the error returned. */
  lemma {:induction false} RunBatchesApplies<S(!new), J(!new)>(apply: (S, seq<J>) -> S,
                                                   refusal: (seq<J>, nat) -> Option<string>,
                                                   affected: nat -> nat, s: S, items: seq<J>, i: nat, saved: nat)
    requires IsFold(apply)
    requires i % BatchSize == 0 && i <= |items|
    ensures var run := RunBatches(apply, refusal, affected, s, items, i, saved);
            && i <= run.applied <= |items|
            && run.state == apply(s, items[i..run.applied])
            && (run.result.Success? <==> run.applied == |items|)
            && (run.result.Success? ==> run.result.value == saved + SumOf(affected, i / BatchSize, BatchCount(|items|)))
            && (run.result.Failure? ==>
                  run.applied % BatchSize == 0 && run.applied < |items|
                  && refusal(BatchAt(items, run.applied), run.applied / BatchSize) == Some(run.result.error))
    decreases |items| - i
  {
    var run := RunBatches(apply, refusal, affected, s, items, i, saved);
    if i == |items| {
      assert items[i..i] == [];
      assert BatchCount(|items|) == i / BatchSize;
    } else {
      var batch := BatchAt(items, i);
      if refusal(batch, i / BatchSize).None? {
        var next := apply(s, batch);
        var saved' := saved + affected(i / BatchSize);
        RunBatchesStep(apply, refusal, affected, s, items, i, saved);
        assert run == RunBatches(apply, refusal, affected, next, items, i + BatchSize, saved');
        NextBatchStart(i);
        if i + BatchSize < |items| {
          RunBatchesApplies(apply, refusal, affected, next, items, i + BatchSize, saved');
          FoldStep(apply, s, items, i, i + BatchSize, run.applied);
          assert i / BatchSize + 1 == (i + BatchSize) / BatchSize;
          assert SumOf(affected, i / BatchSize, BatchCount(|items|))
                 == affected(i / BatchSize) + SumOf(affected, i / BatchSize + 1, BatchCount(|items|));
        } else {
          assert run == BatchRun(next, Success(saved'), |items|);
          assert items[i..|items|] == batch;
          assert BatchCount(|items|) == i / BatchSize + 1;
        }
      } else {
        assert run == BatchRun(s, Failure(refusal(batch, i / BatchSize).value), i);
        assert items[i..i] == [];
      }
    }
  }

  /** A fold over a slice is the fold of its first batch, then of the rest. */
  lemma FoldStep<S(!new), J(!new)>(apply: (S, seq<J>) -> S, s: S, items: seq<J>, i: nat, m: nat, j: nat)
    requires IsFold(apply)
    requires i <= m <= j <= |items|
    ensures apply(s, items[i..j]) == apply(apply(s, items[i..m]), items[m..j])
  {
    SliceSplit(items, i, m, j);
  }

  /** The batches the loop cuts the items from item `i` on into. */
  function BatchesFrom<J>(items: seq<J>, i: nat): seq<seq<J>>
    decreases |items| - i
  {
    if i >= |items| then [] else [BatchAt(items, i)] + BatchesFrom(items, i + BatchSize)
  }

  function Concat<J>(parts: seq<seq<J>>): seq<J> {
    if parts == [] then [] else parts[0] + Concat(parts[1..])
  }

  /** The batches partition the items in order: together they are the items, none is
      empty, every batch but the last holds exactly `BatchSize` items, and there are
      `BatchCount` of them. */
  lemma {:induction false} BatchesPartition<J>(items: seq<J>, i: nat)
    requires i <= |items| && i % BatchSize == 0
    ensures Concat(BatchesFrom(items, i)) == items[i..]
    ensures forall k :: 0 <= k < |BatchesFrom(items, i)| ==> 0 < |BatchesFrom(items, i)[k]| <= BatchSize
    ensures forall k :: 0 <= k < |BatchesFrom(items, i)| - 1 ==> |BatchesFrom(items, i)[k]| == BatchSize
    ensures |BatchesFrom(items, i)| == BatchCount(|items|) - i / BatchSize
    decreases |items| - i
  {
    if i == |items| {
      assert BatchCount(|items|) == i / BatchSize;
    } else {
      var parts := BatchesFrom(items, i);
      NextBatchStart(i);
      if i + BatchSize < |items| {
        BatchesPartition(items, i + BatchSize);
        var rest := BatchesFrom(items, i + BatchSize);
        assert parts[1..] == rest;
        SliceSplit(items, i, i + BatchSize, |items|);
        assert items[i..] == items[i..i + BatchSize] + items[i + BatchSize..];
        forall k | 0 < k < |parts|
          ensures 0 < |parts[k]| <= BatchSize
          ensures k < |parts| - 1 ==> |parts[k]| == BatchSize
        {
          assert parts[k] == rest[k - 1];
        }
      } else {
        assert BatchesFrom(items, i + BatchSize) == [];
        assert BatchAt(items, i) == items[i..];
        assert parts == [items[i..]];
        assert Concat(parts[1..]) == [];
        assert BatchCount(|items|) == i / BatchSize + 1;
      }
    }
  }
}
