/**
 The attempt loops of legacy tasks. The flag that cancellers raise concurrently is seen by the
 loops through their checks: from some check on, every check sees it. What each attempt answers is
 given as a list.
 */
module LegacyLoops {
  import opened Wrappers
  import opened RangeInterval

  datatype Callback = OnComplete | OnInterrupt | OnExhausted

  predicate SeenFrom(flaggedFrom: Option<nat>, check: int) {
    flaggedFrom.Some? && check >= flaggedFrom.value
  }

  class LegacyExecution {
    const flaggedFrom: Option<nat>   // the first check that sees the flag, if any does
    var checks: nat
    var notified: bool
    var attempts: seq<nat>           // the checks made before each attempt
    var slept: seq<nat>              // completed sleeps, in milliseconds
    var callbacks: seq<Callback>

    predicate Seen(check: int) {
      SeenFrom(flaggedFrom, check)
    }

    ghost predicate Untouched()
      reads this
    {
      attempts == [] && slept == [] && callbacks == [] && !notified && checks == 0
    }

    constructor (flaggedFrom: Option<nat>)
      ensures this.flaggedFrom == flaggedFrom && Untouched()
    {
      this.flaggedFrom := flaggedFrom;
      checks, notified := 0, false;
      attempts, slept, callbacks := [], [], [];
    }

    method IsCancelled() returns (cancelled: bool)
      modifies this`checks
      ensures cancelled == Seen(old(checks)) && checks == old(checks) + 1
    {
      cancelled := flaggedFrom.Some? && checks >= flaggedFrom.value;
      checks := checks + 1;
    }

    // Returns whether the sleep completed without the flag being seen, before it or until its end.
    method Sleep(millis: nat) returns (completed: bool)
      modifies this`checks, this`slept
      ensures checks > old(checks) && completed == !Seen(checks - 1)
      ensures checks == old(checks) + if Seen(old(checks)) then 1 else 2
      ensures slept == if completed then old(slept) + [millis] else old(slept)
    {
      var cancelled := IsCancelled();
      if cancelled {
        return false;
      }
      cancelled := IsCancelled();
      completed := !cancelled;
      if completed {
        slept := slept + [millis];
      }
    }

    method NotifyInterrupt()
      modifies this`notified, this`callbacks
      ensures notified && callbacks == if old(notified) then old(callbacks) else old(callbacks) + [OnInterrupt]
    {
      if !notified {
        notified := true;
        callbacks := callbacks + [OnInterrupt];
      }
    }

    method Report(callback: Callback)
      modifies this`callbacks
      ensures callbacks == old(callbacks) + [callback]
    {
      callbacks := callbacks + [callback];
    }

    method Execute()
      modifies this`attempts
      ensures attempts == old(attempts) + [checks]
    {
      attempts := attempts + [checks];
    }
  }

  // Every attempt begins right after a check that did not see the flag.
  ghost predicate Checked(attempts: seq<nat>, flaggedFrom: Option<nat>) {
    && (forall i | 0 <= i < |attempts| :: 1 <= attempts[i] && !SeenFrom(flaggedFrom, attempts[i] - 1))
    && (forall i, j | 0 <= i < j < |attempts| :: attempts[i] < attempts[j])
  }

  // The checks made before the attempts: `first` before the first one and `every` from one to the next.
  ghost predicate Evenly(attempts: seq<nat>, first: nat, every: nat) {
    forall i | 0 <= i < |attempts| :: attempts[i] == first + every * i
  }

  lemma OneMoreEvenly(attempts: seq<nat>, first: nat, every: nat)
    requires Evenly(attempts, first, every)
    ensures Evenly(attempts + [first + every * |attempts|], first, every)
  {}

  ghost predicate Before(attempts: seq<nat>, checks: nat) {
    forall i | 0 <= i < |attempts| :: attempts[i] < checks
  }

  // The first `n` attempts asked for another.
  ghost predicate AllRetry(results: seq<bool>, n: int) {
    forall i | 0 <= i < n && i < |results| :: results[i]
  }

  // The one callback that ends a run says why it ended.
  ghost predicate EndedBy(x: LegacyExecution, results: seq<bool>, callback: Callback)
    reads x
  {
    && x.callbacks == [callback]
    && match callback
       case OnComplete => 0 < |x.attempts| <= |results| && !results[|x.attempts| - 1] && !x.Seen(x.checks - 1)
       case OnInterrupt => x.checks > 0 && x.Seen(x.checks - 1)
       case OnExhausted => |x.attempts| == |results| && !x.Seen(x.checks - 1) && AllRetry(results, |results|)
  }

  ghost predicate Ended(x: LegacyExecution, results: seq<bool>)
    reads x
  {
    && Checked(x.attempts, x.flaggedFrom) && |x.attempts| <= |results| && AllRetry(results, |x.attempts| - 1)
    && exists callback :: EndedBy(x, results, callback)
  }

  // A bounded task without attempts ends silently; any other ends with its one callback.
  ghost predicate Finished(x: LegacyExecution, results: seq<bool>)
    reads x
  {
    if results == [] then x.attempts == [] && x.callbacks == [] else Ended(x, results)
  }

  /** Raising the flag lets at most one more attempt begin: of two attempts the earlier one was begun
      before the first check that saw it. */
  lemma OneAttemptAfterFlag(x: LegacyExecution, results: seq<bool>, i: nat, j: nat)
    requires Ended(x, results) && i < j < |x.attempts| && x.flaggedFrom.Some?
    ensures x.attempts[i] < x.flaggedFrom.value
  {
    assert !SeenFrom(x.flaggedFrom, x.attempts[j] - 1);
  }

  // Between attempts: all attempts so far asked for another, and nothing has been reported.
  ghost predicate Running(x: LegacyExecution, results: seq<bool>, done: nat)
    reads x
  {
    && Checked(x.attempts, x.flaggedFrom) && Before(x.attempts, x.checks) && |x.attempts| == done <= |results|
    && x.callbacks == [] && !x.notified
    && AllRetry(results, done)
  }

  // The last check did not see the flag.
  ghost predicate Clear(x: LegacyExecution)
    reads x
  {
    x.checks > 0 && !x.Seen(x.checks - 1)
  }

  lemma LaterChecks(attempts: seq<nat>, checks: nat, checks': nat)
    requires Before(attempts, checks) && checks <= checks'
    ensures Before(attempts, checks')
  {}

  lemma OneMore(attempts: seq<nat>, checks: nat, flaggedFrom: Option<nat>)
    requires Checked(attempts, flaggedFrom) && Before(attempts, checks)
    requires checks > 0 && !SeenFrom(flaggedFrom, checks - 1)
    ensures Checked(attempts + [checks], flaggedFrom) && Before(attempts + [checks], checks + 1)
  {}

  method Interrupted(x: LegacyExecution, results: seq<bool>, done: nat)
    requires Running(x, results, done) && x.checks > 0 && x.Seen(x.checks - 1)
    modifies x`notified, x`callbacks
    ensures Ended(x, results) && x.callbacks == [OnInterrupt]
  {
    x.NotifyInterrupt();
    assert EndedBy(x, results, OnInterrupt);
  }

  // One call of the work and what the loops do with its answer.
  method Work(x: LegacyExecution, results: seq<bool>, done: nat) returns (over: bool)
    requires Running(x, results, done) && Clear(x) && done < |results|
    modifies x`attempts, x`checks, x`notified, x`callbacks
    ensures if over then Ended(x, results) else Running(x, results, done + 1) && Clear(x)
    ensures over ==> |x.attempts| == done + 1 && x.callbacks != [OnExhausted]
    ensures x.attempts == old(x.attempts) + [old(x.checks)] && x.checks == old(x.checks) + 1
  {
    OneMore(x.attempts, x.checks, x.flaggedFrom);
    hide Checked, Before;
    x.Execute();
    var cancelled := x.IsCancelled();
    if cancelled {
      x.NotifyInterrupt();
      assert EndedBy(x, results, OnInterrupt);
      return true;
    }
    if !results[done] {
      x.Report(OnComplete);
      assert EndedBy(x, results, OnComplete);
      return true;
    }
    return false;
  }

  method ReportExhausted(x: LegacyExecution, results: seq<bool>)
    requires Running(x, results, |results|) && Clear(x)
    modifies x`callbacks
    ensures Ended(x, results)
  {
    x.Report(OnExhausted);
    assert EndedBy(x, results, OnExhausted);
  }

  // A check between attempts; returns whether the loop is over.
  method Look(x: LegacyExecution, results: seq<bool>, done: nat) returns (over: bool)
    requires Running(x, results, done)
    modifies x`checks, x`notified, x`callbacks
    ensures if over then Ended(x, results) && x.callbacks == [OnInterrupt]
            else Running(x, results, done) && Clear(x)
    ensures x.checks == old(x.checks) + 1
  {
    LaterChecks(x.attempts, x.checks, x.checks + 1);
    hide Checked, Before;
    var cancelled := x.IsCancelled();
    if cancelled {
      Interrupted(x, results, done);
    }
    over := cancelled;
  }

  // A sleep between attempts; returns whether the loop is over.
  method Wait(x: LegacyExecution, results: seq<bool>, done: nat, millis: nat) returns (over: bool)
    requires Running(x, results, done)
    modifies x`checks, x`notified, x`callbacks, x`slept
    ensures if over then Ended(x, results) && x.callbacks == [OnInterrupt] && x.slept == old(x.slept)
            else Running(x, results, done) && Clear(x) && x.slept == old(x.slept) + [millis]
    ensures !over ==> x.checks == old(x.checks) + 2
  {
    hide Checked, AllRetry;
    var completed := x.Sleep(millis);
    LaterChecks(x.attempts, old(x.checks), x.checks);
    if !completed {
      Interrupted(x, results, done);
    }
    over := !completed;
  }

  method RunTimeInterval(x: LegacyExecution, intervals: seq<nat>, results: seq<bool>)
    requires x.Untouched() && |results| == |intervals| > 0
    modifies x
    ensures Ended(x, results)
    ensures x.slept <= intervals && |x.attempts| <= |x.slept| <= |x.attempts| + 1
    ensures Evenly(x.attempts, 3, 4)
  {
    for i := 0 to |intervals|
      invariant if i < |intervals| then Running(x, results, i) else Ended(x, results)
      invariant x.slept == intervals[..i] && |x.attempts| == i
      invariant Evenly(x.attempts, 3, 4) && x.checks == 4 * i
    {
      OneMoreEvenly(x.attempts, 3, 4);
      hide Running, Ended, Clear, Evenly;
      var over := Look(x, results, i);
      if over {
        return;
      }
      over := Wait(x, results, i, intervals[i]);
      if over {
        return;
      }
      over := Work(x, results, i);
      if over {
        return;
      }
      if i + 1 == |intervals| {
        ReportExhausted(x, results);
      }
    }
  }

  // Every delay of the compiled plan, by the attempt that failed.
  ghost predicate Delays(plan: Plan, ranges: seq<Range>, total: nat) {
    forall i | 0 <= i < total :: IntervalMillis(total, plan, i) == Some(LastWins(ranges, i))
  }

  // Looks the delay up and sleeps it.
  method WaitForDelay(x: LegacyExecution, ghost ranges: seq<Range>, plan: Plan, results: seq<bool>, done: nat)
    returns (missing: bool, over: bool)
    requires Running(x, results, done) && 0 < done < |results| && Delays(plan, ranges, |results|)
    modifies x`checks, x`notified, x`callbacks, x`slept
    ensures !missing
    ensures if over then Ended(x, results) && x.slept == old(x.slept)
            else Running(x, results, done) && Clear(x) && x.slept == old(x.slept) + [LastWins(ranges, done - 1)]
    ensures !over ==> x.checks == old(x.checks) + 2
  {
    assert IntervalMillis(|results|, plan, done - 1) == Some(LastWins(ranges, done - 1));
    hide Running, Ended, Clear, LastWins, IntervalMillis, Delays;
    var interval := IntervalMillis(|results|, plan, done - 1);
    if interval.None? {
      return true, false;
    }
    over := Wait(x, results, done, interval.value);
    return false, over;
  }

  ghost predicate SleptDelays(slept: seq<nat>, ranges: seq<Range>) {
    forall k | 0 <= k < |slept| :: slept[k] == LastWins(ranges, k)
  }

  lemma SleptOneMore(slept: seq<nat>, ranges: seq<Range>)
    requires SleptDelays(slept, ranges)
    ensures SleptDelays(slept + [LastWins(ranges, |slept|)], ranges)
  {}

  lemma AboutToRun(x: LegacyExecution, results: seq<bool>)
    requires x.Untouched()
    ensures Running(x, results, 0) && x.attempts == [] && x.slept == []
  {}

  lemma SilentEnd(x: LegacyExecution)
    requires Running(x, [], 0)
    ensures Finished(x, [])
  {}

  /** Before each attempt but the first, a range-interval task sleeps what the last matching range
      says; every delay is there, so the missing-delay error is never reported. */
  method RunRangeInterval(x: LegacyExecution, ranges: seq<Range>, results: seq<bool>) returns (missingDelay: bool)
    requires x.Untouched() && |results| <= U32_MAX
    modifies x
    ensures !missingDelay && Finished(x, results)
    ensures |x.slept| <= |x.attempts| <= |x.slept| + 1
    ensures SleptDelays(x.slept, ranges) && Evenly(x.attempts, 1, 4)
  {
    var total := |results|;
    var plan := CompileIntervals(total, ranges);
    assert Delays(plan, ranges, total);
    AboutToRun(x, results);
    assert SleptDelays([], ranges) && Evenly([], 1, 4);
    hide Running, Ended, Clear, LastWins, LastCover, IntervalMillis, DelayAt, Canonical, MeansUpTo, Delays, SleptDelays,
         Evenly;
    for attempt := 0 to total
      invariant if attempt < total || total == 0 then Running(x, results, attempt) else Ended(x, results)
      invariant |x.attempts| == attempt && |x.slept| == if attempt == 0 then 0 else attempt - 1
      invariant SleptDelays(x.slept, ranges)
      invariant Evenly(x.attempts, 1, 4) && x.checks == if attempt == 0 then 0 else 4 * attempt - 2
    {
      OneMoreEvenly(x.attempts, 1, 4);
      var over := Look(x, results, attempt);
      if over {
        return false;
      }
      if attempt > 0 {
        SleptOneMore(x.slept, ranges);
        var missing;
        missing, over := WaitForDelay(x, ranges, plan, results, attempt);
        if missing {
          return true;
        }
        if over {
          return false;
        }
      }
      over := Work(x, results, attempt);
      if over {
        return false;
      }
      if attempt + 1 == total {
        ReportExhausted(x, results);
      }
    }
    if total == 0 {
      SilentEnd(x);
    }
    return false;
  }

  // The progress callback runs between the two checks; it does not affect the loop.
  method RunFixedCount(x: LegacyExecution, results: seq<bool>)
    requires x.Untouched()
    modifies x
    ensures Finished(x, results) && x.slept == [] && Evenly(x.attempts, 2, 3)
  {
    for i := 0 to |results|
      invariant if i < |results| || results == [] then Running(x, results, i) else Ended(x, results)
      invariant x.slept == [] && |x.attempts| == i
      invariant Evenly(x.attempts, 2, 3) && x.checks == 3 * i
    {
      OneMoreEvenly(x.attempts, 2, 3);
      hide Running, Ended, Clear, Evenly;
      var over := Look(x, results, i);
      if over {
        return;
      }
      over := Look(x, results, i);
      if over {
        return;
      }
      over := Work(x, results, i);
      if over {
        return;
      }
      if i + 1 == |results| {
        ReportExhausted(x, results);
      }
    }
  }

  // A periodic task goes on as long as its work asks for it; here until the answers given run out.
  method RunPeriodic(x: LegacyExecution, initialDelay: bool, interval: nat, results: seq<bool>)
    requires x.Untouched()
    modifies x
    ensures Ended(x, results) || (Running(x, results, |results|) && AllRetry(results, |results|))
    ensures x.callbacks != [OnExhausted]
    ensures forall k | 0 <= k < |x.slept| :: x.slept[k] == interval
    ensures Evenly(x.attempts, if initialDelay then 3 else 1, 4)
    ensures var sleeps := |x.slept| + (if initialDelay then 0 else 1); |x.attempts| <= sleeps <= |x.attempts| + 1
  {
    if initialDelay {
      var over := Wait(x, results, 0, interval);
      if over {
        return;
      }
    }
    for i := 0 to |results|
      invariant Running(x, results, i) && |x.attempts| == i
      invariant forall k | 0 <= k < |x.slept| :: x.slept[k] == interval
      invariant Evenly(x.attempts, if initialDelay then 3 else 1, 4)
      invariant x.checks == 4 * i + (if initialDelay then 2 else 0)
      invariant |x.slept| == i + (if initialDelay then 1 else 0)
    {
      OneMoreEvenly(x.attempts, if initialDelay then 3 else 1, 4);
      var over := Look(x, results, i);
      if over {
        return;
      }
      over := Work(x, results, i);
      if over {
        return;
      }
      over := Wait(x, results, i + 1, interval);
      if over {
        return;
      }
    }
  }
}
