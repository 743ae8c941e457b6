/**
 * The retry executor: a request is attempted up to `maxRetries` times, with a pause of
 * `delay * attempt` after every failed attempt but the last, and one warning per failure.
 * The outcome of attempt k (counting from 1) is `outcomes(k)`; the pauses and warnings are
 * returned as traces instead of being performed.
 */
module HttpRetry {
  import opened Wrappers
  import opened Text

  /** What one attempt of the request gives: a value, or an error with its message. */
  datatype Attempt<T> = Ok(value: T) | Err(message: string)

  /** The result of a retried request, the pauses taken (in milliseconds) and the warnings
      logged, in order. A failure carries the last error, or `None` when no attempt was made
      (`throw undefined`). */
  datatype RetryRun<T> = RetryRun(result: Result<T, Option<string>>, sleeps: seq<int>, warnings: seq<Warning>)

  /** The warning logged after failed attempt `attempt` of `maxRetries`. */
  datatype Warning = Warning(attempt: int, maxRetries: int, message: string)

  /** The text of a warning as the logger receives it. */
  function WarningText(w: Warning): string {
    "Request failed (attempt " + IntToString(w.attempt) + "/" + IntToString(w.maxRetries) + "): " + w.message
  }

  /** The message of a failed attempt. */
  function MessageOf<T>(a: Attempt<T>): string {
    if a.Err? then a.message else ""
  }

  /** The attempts from `attempt` on, after earlier attempts failed with `lastError`. The first
      success ends the run; every failure is warned about, and each failure before the last
      attempt is followed by a pause of `delay * attempt`. */
  function RetryFrom<T>(outcomes: nat -> Attempt<T>, maxRetries: int, delay: int, attempt: nat,
                        lastError: Option<string>): RetryRun<T>
    decreases if maxRetries >= attempt then maxRetries - attempt + 1 else 0
  {
    if attempt > maxRetries then RetryRun(Failure(lastError), [], [])
    else
      match outcomes(attempt)
      case Ok(v) => RetryRun(Success(v), [], [])
      case Err(m) =>
        var rest := RetryFrom(outcomes, maxRetries, delay, attempt + 1, Some(m));
        var pause := if attempt < maxRetries then [delay * attempt] else [];
        RetryRun(rest.result, pause + rest.sleeps, [Warning(attempt, maxRetries, m)] + rest.warnings)
  }

  /** A whole retried request. */
  function Retry<T>(outcomes: nat -> Attempt<T>, maxRetries: int, delay: int): RetryRun<T> {
    RetryFrom(outcomes, maxRetries, delay, 1, None)
  }

  /** `w` is the warning about attempt `k`, an allowed attempt that failed. */
  predicate Warned<T>(outcomes: nat -> Attempt<T>, maxRetries: int, k: nat, w: Warning) {
    k <= maxRetries && outcomes(k).Err? && w == Warning(k, maxRetries, MessageOf(outcomes(k)))
  }

  /** Warning i is about attempt `from + i`, an allowed attempt that failed. */
  predicate WarnedFrom<T>(outcomes: nat -> Attempt<T>, maxRetries: int, from: nat, warnings: seq<Warning>) {
    forall i :: 0 <= i < |warnings| ==> Warned(outcomes, maxRetries, from + i, warnings[i])
  }

  /** Pause i follows attempt `from + i` and lasts `delay * (from + i)`. */
  predicate PausedFrom(delay: int, from: nat, sleeps: seq<int>) {
    forall i :: 0 <= i < |sleeps| ==> sleeps[i] == delay * (from + i)
  }

  /** Attempts 1 to n all failed. */
  predicate FailedUpTo<T>(outcomes: nat -> Attempt<T>, n: int) {
    forall j :: 1 <= j <= n ==> outcomes(j).Err?
  }

  /** A warning about failed attempt `from` in front of the warnings about the attempts
      after it. */
  lemma WarnedCons<T>(outcomes: nat -> Attempt<T>, maxRetries: int, from: nat, w: Warning, ws: seq<Warning>)
    requires from <= maxRetries && outcomes(from).Err?
    requires w == Warning(from, maxRetries, MessageOf(outcomes(from)))
    requires WarnedFrom(outcomes, maxRetries, from + 1, ws)
    ensures WarnedFrom(outcomes, maxRetries, from, [w] + ws)
  {
    var all := [w] + ws;
    forall i | 0 <= i < |all|
      ensures Warned(outcomes, maxRetries, from + i, all[i])
    {
      if i > 0 {
        assert Warned(outcomes, maxRetries, (from + 1) + (i - 1), ws[i - 1]);
        assert all[i] == ws[i - 1];
      }
    }
  }

  lemma {:induction false} WarningsFrom<T>(outcomes: nat -> Attempt<T>, maxRetries: int, delay: int,
                                           attempt: nat, lastError: Option<string>)
    ensures WarnedFrom(outcomes, maxRetries, attempt, RetryFrom(outcomes, maxRetries, delay, attempt, lastError).warnings)
    decreases if maxRetries >= attempt then maxRetries - attempt + 1 else 0
  {
    if attempt <= maxRetries && outcomes(attempt).Err? {
      var m := outcomes(attempt).message;
      WarningsFrom(outcomes, maxRetries, delay, attempt + 1, Some(m));
      var run := RetryFrom(outcomes, maxRetries, delay, attempt, lastError);
      var rest := RetryFrom(outcomes, maxRetries, delay, attempt + 1, Some(m));
      WarnedCons(outcomes, maxRetries, attempt, Warning(attempt, maxRetries, m), rest.warnings);
      assert run.warnings == [Warning(attempt, maxRetries, m)] + rest.warnings;
    }
  }

  /** A run that succeeds ends with the first successful attempt after the warned ones; a run
      that fails made every attempt up to `maxRetries` and raises the last one's error. */
  lemma {:induction false} EndFrom<T>(outcomes: nat -> Attempt<T>, maxRetries: int, delay: int,
                                      attempt: nat, lastError: Option<string>)
    ensures var run := RetryFrom(outcomes, maxRetries, delay, attempt, lastError);
            && (run.result.Success? ==>
                  attempt + |run.warnings| <= maxRetries
                  && outcomes(attempt + |run.warnings|) == Ok(run.result.value))
            && (run.result.Failure? ==>
                  |run.warnings| == (if maxRetries >= attempt then maxRetries - attempt + 1 else 0)
                  && run.result.error == if maxRetries >= attempt then Some(MessageOf(outcomes(maxRetries))) else lastError)
    decreases if maxRetries >= attempt then maxRetries - attempt + 1 else 0
  {
    if attempt <= maxRetries && outcomes(attempt).Err? {
      var m := outcomes(attempt).message;
      EndFrom(outcomes, maxRetries, delay, attempt + 1, Some(m));
      if attempt == maxRetries {
        assert RetryFrom(outcomes, maxRetries, delay, attempt + 1, Some(m)) == RetryRun(Failure(Some(m)), [], []);
      }
    }
  }

  /** Every warned attempt is followed by a pause except a last one that fails. */
  lemma {:induction false} SleepsFrom<T>(outcomes: nat -> Attempt<T>, maxRetries: int, delay: int,
                                         attempt: nat, lastError: Option<string>)
    ensures var run := RetryFrom(outcomes, maxRetries, delay, attempt, lastError);
            |run.sleeps| == (if run.result.Success? || maxRetries < attempt then |run.warnings| else |run.warnings| - 1)
    ensures PausedFrom(delay, attempt, RetryFrom(outcomes, maxRetries, delay, attempt, lastError).sleeps)
    decreases if maxRetries >= attempt then maxRetries - attempt + 1 else 0
  {
    if attempt <= maxRetries && outcomes(attempt).Err? {
      var m := outcomes(attempt).message;
      SleepsFrom(outcomes, maxRetries, delay, attempt + 1, Some(m));
      var run := RetryFrom(outcomes, maxRetries, delay, attempt, lastError);
      var rest := RetryFrom(outcomes, maxRetries, delay, attempt + 1, Some(m));
      if attempt < maxRetries {
        assert run.sleeps == [delay * attempt] + rest.sleeps;
        forall i | 0 <= i < |run.sleeps|
          ensures run.sleeps[i] == delay * (attempt + i)
        {
          if i > 0 {
            var j := i - 1;
            assert attempt + i == (attempt + 1) + j;
            assert run.sleeps[i] == rest.sleeps[j];
          }
        }
      } else {
        assert rest == RetryRun(Failure(Some(m)), [], []);
      }
    }
  }

  /** The request succeeds exactly when one of the allowed attempts does, and then with the
      first successful attempt, all earlier ones having failed; otherwise every allowed
      attempt failed and it raises the last one's error, or `undefined` when no attempt was
      allowed. */
  lemma RetryOutcome<T>(outcomes: nat -> Attempt<T>, maxRetries: int, delay: int)
    ensures var run := Retry(outcomes, maxRetries, delay);
            && (run.result.Success? <==> exists k :: 1 <= k <= maxRetries && outcomes(k).Ok?)
            && (run.result.Success? ==>
                  var k := |run.warnings| + 1;
                  k <= maxRetries && outcomes(k) == Ok(run.result.value) && FailedUpTo(outcomes, k - 1))
            && (run.result.Failure? ==>
                  FailedUpTo(outcomes, maxRetries)
                  && run.result.error == if maxRetries >= 1 then Some(MessageOf(outcomes(maxRetries))) else None)
  {
    var run := Retry(outcomes, maxRetries, delay);
    WarningsFrom(outcomes, maxRetries, delay, 1, None);
    EndFrom(outcomes, maxRetries, delay, 1, None);
    forall j | 1 <= j <= |run.warnings|
      ensures outcomes(j).Err?
    {
      var i := j - 1;
      assert 1 + i == j;
      assert Warned(outcomes, maxRetries, 1 + i, run.warnings[i]);
    }
    if run.result.Success? {
      assert outcomes(|run.warnings| + 1).Ok?;
    }
  }

  /** One warning per failed attempt, naming the attempt and the number allowed; a pause of
      `delay * k` after failed attempt k, except after the last allowed attempt. */
  lemma RetryTraces<T>(outcomes: nat -> Attempt<T>, maxRetries: int, delay: int)
    ensures WarnedFrom(outcomes, maxRetries, 1, Retry(outcomes, maxRetries, delay).warnings)
    ensures PausedFrom(delay, 1, Retry(outcomes, maxRetries, delay).sleeps)
    ensures var run := Retry(outcomes, maxRetries, delay);
            |run.sleeps| == if run.result.Success? || run.warnings == [] then |run.warnings| else |run.warnings| - 1
  {
    WarningsFrom(outcomes, maxRetries, delay, 1, None);
    SleepsFrom(outcomes, maxRetries, delay, 1, None);
    EndFrom(outcomes, maxRetries, delay, 1, None);
  }

  /** Failing twice and then succeeding, with three attempts allowed: the third outcome, two
      warnings, and pauses of `delay` and `2 * delay`. */
  lemma TwoFailuresThenSuccess<T>(outcomes: nat -> Attempt<T>, delay: int)
    requires outcomes(1).Err? && outcomes(2).Err? && outcomes(3).Ok?
    ensures Retry(outcomes, 3, delay)
            == RetryRun(Success(outcomes(3).value), [delay, 2 * delay],
                        [Warning(1, 3, outcomes(1).message), Warning(2, 3, outcomes(2).message)])
  {
    var r3 := RetryFrom(outcomes, 3, delay, 3, Some(outcomes(2).message));
    assert r3 == RetryRun(Success(outcomes(3).value), [], []);
    var r2 := RetryFrom(outcomes, 3, delay, 2, Some(outcomes(1).message));
    assert r2.sleeps == [2 * delay] + r3.sleeps;
    assert r2 == RetryRun(Success(outcomes(3).value), [2 * delay], [Warning(2, 3, outcomes(2).message)]);
  }

  /** The runs of the attempts from some point on, after the pauses and warnings so far. */
  function After<T>(sleeps: seq<int>, warnings: seq<Warning>, run: RetryRun<T>): RetryRun<T> {
    RetryRun(run.result, sleeps + run.sleeps, warnings + run.warnings)
  }

  /** A failed attempt moves its pause and its warning into the traces so far. */
  lemma AfterFailure<T>(outcomes: nat -> Attempt<T>, maxRetries: int, delay: int, attempt: nat,
                        lastError: Option<string>, sleeps: seq<int>, warnings: seq<Warning>, m: string)
    requires attempt <= maxRetries && outcomes(attempt) == Err(m)
    ensures After(sleeps, warnings, RetryFrom(outcomes, maxRetries, delay, attempt, lastError))
            == After(sleeps + (if attempt < maxRetries then [delay * attempt] else []),
                     warnings + [Warning(attempt, maxRetries, m)],
                     RetryFrom(outcomes, maxRetries, delay, attempt + 1, Some(m)))
  {
    var rest := RetryFrom(outcomes, maxRetries, delay, attempt + 1, Some(m));
    var pause := if attempt < maxRetries then [delay * attempt] else [];
    assert (sleeps + pause) + rest.sleeps == sleeps + (pause + rest.sleeps);
    assert (warnings + [Warning(attempt, maxRetries, m)]) + rest.warnings
           == warnings + ([Warning(attempt, maxRetries, m)] + rest.warnings);
  }

  /** `requestWithRetry(request, maxRetries, delay)`: the counted attempt loop. */
  method RequestWithRetry<T>(outcomes: nat -> Attempt<T>, maxRetries: int, delay: int)
    returns (r: Result<T, Option<string>>, sleeps: seq<int>, warnings: seq<Warning>)
    ensures RetryRun(r, sleeps, warnings) == Retry(outcomes, maxRetries, delay)
  {
    var lastError: Option<string> := None;
    sleeps, warnings := [], [];
    var attempt: nat := 1;
    while attempt <= maxRetries
      invariant attempt >= 1
      invariant Retry(outcomes, maxRetries, delay)
                == After(sleeps, warnings, RetryFrom(outcomes, maxRetries, delay, attempt, lastError))
      decreases maxRetries - attempt
    {
      match outcomes(attempt)
      case Ok(v) =>
        return Success(v), sleeps, warnings;
      case Err(m) =>
        AfterFailure(outcomes, maxRetries, delay, attempt, lastError, sleeps, warnings, m);
        lastError := Some(m);
        warnings := warnings + [Warning(attempt, maxRetries, m)];
        sleeps := sleeps + (if attempt < maxRetries then [delay * attempt] else []);
        attempt := attempt + 1;
    }
    r := Failure(lastError);
    assert sleeps + [] == sleeps && warnings + [] == warnings;
  }
}
