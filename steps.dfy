/** Running a step on each entry of a list in order, threading a state through: the shape of
    a loop that visits every entry whatever the earlier ones gave. */
module Steps {

  /** What one step gives: the new state, its result and the lines it logged. */
  datatype Step<S, R, L> = Step(state: S, result: R, log: seq<L>)

  /** What the whole loop gives: the final state, one result per entry and all lines logged. */
  datatype Run<S, R, L> = Run(state: S, results: seq<R>, log: seq<L>)

  function RunAll<S, E, R, L>(step: (S, E) -> Step<S, R, L>, s: S, entries: seq<E>): Run<S, R, L> {
    if entries == [] then Run(s, [], [])
    else
      var n := |entries| - 1;
      var before := RunAll(step, s, entries[..n]);
      var last := step(before.state, entries[n]);
      Run(last.state, before.results + [last.result], before.log + last.log)
  }

  /** One more entry: its step starts from the state the entries before it left. */
  lemma RunAllSnoc<S, E, R, L>(step: (S, E) -> Step<S, R, L>, s: S, entries: seq<E>, i: nat)
    requires i < |entries|
    ensures var before := RunAll(step, s, entries[..i]);
            var last := step(before.state, entries[i]);
            RunAll(step, s, entries[..i + 1]) == Run(last.state, before.results + [last.result], before.log + last.log)
  {
    assert entries[..i + 1][..i] == entries[..i];
  }

  /** Every entry is visited, in order: there is one result per entry, and result `i` is the
      step of entry `i` from the state the entries before it left. */
  lemma {:induction false} RunAllEach<S, E, R, L>(step: (S, E) -> Step<S, R, L>, s: S, entries: seq<E>)
    ensures |RunAll(step, s, entries).results| == |entries|
    ensures forall i :: 0 <= i < |entries| ==>
              RunAll(step, s, entries).results[i] == step(RunAll(step, s, entries[..i]).state, entries[i]).result
  {
    if entries != [] {
      var n := |entries| - 1;
      var init := entries[..n];
      RunAllEach(step, s, init);
      forall i | 0 <= i < |entries|
        ensures RunAll(step, s, entries).results[i] == step(RunAll(step, s, entries[..i]).state, entries[i]).result
      {
        if i < n {
          assert entries[..i] == init[..i] && entries[i] == init[i];
        } else {
          assert entries[..i] == init;
        }
      }
    }
  }
}
