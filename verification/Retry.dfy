/**
 The validation of a retry and its attempt loop. What the loop cannot decide itself (clocks,
 attempts, stop requests, the user's predicate) is given as a script, one entry per attempt.
 */
module Retry {
  import opened Wrappers

  import opened Attempts
  import opened Backoff

  const MAX_ATTEMPTS: nat := 1_000_000

  datatype RetrySpec = RetrySpec(
    maxAttempts: nat,
    hasPredicate: bool,
    retryAllErrors: bool,
    retryTimedOut: bool,
    plan: Plan)

  datatype RetryBuildError =
    | InvalidAttemptCount
    | AttemptCountTooLarge
    | RetryPolicyRequired
    | ConflictingDeadline
    | ZeroAttemptTimeout
    | Delays(error: BuildError)

  // What a built specification guarantees its run.
  ghost predicate Validated(s: RetrySpec) {
    && 1 <= s.maxAttempts <= MAX_ATTEMPTS
    && (s.maxAttempts > 1 ==> s.hasPredicate || s.retryAllErrors)
    && s.plan.len == s.maxAttempts - 1
    && Sound(s.plan) && !Overflows(s.plan)
  }

  // The clock can be advanced by that timeout; `horizon` is how far it reaches from now.
  predicate Fits(timeout: Option<real>, horizon: real) {
    timeout.Some? ==> timeout.value <= horizon
  }

  method BuildRetry(maxAttempts: nat, hasPredicate: bool, retryAllErrors: bool, retryTimedOut: bool,
                    hasDeadline: bool, overallTimeout: Option<real>, attemptTimeout: Option<real>, horizon: real,
                    backoff: Backoff, jitter: Option<Jitter>)
    returns (result: Result<RetrySpec, RetryBuildError>)
    requires Durations(backoff)
    ensures result.Ok? ==> Validated(result.value) && result.value.maxAttempts == maxAttempts
    ensures result.Ok? <==>
              && 1 <= maxAttempts <= MAX_ATTEMPTS && (maxAttempts > 1 ==> hasPredicate || retryAllErrors)
              && !(hasDeadline && overallTimeout.Some?) && attemptTimeout != Some(0.0)
              && Fits(attemptTimeout, horizon) && Fits(overallTimeout, horizon)
              && SourceError(backoff, maxAttempts - 1).None? && ValidJitter(jitter)
              && !Overflows(PlanOf(backoff, maxAttempts - 1, jitter))
    ensures result.Ok? ==>
              result.value == RetrySpec(maxAttempts, hasPredicate, retryAllErrors, retryTimedOut,
                                        PlanOf(backoff, maxAttempts - 1, jitter))
    ensures result == Err(InvalidAttemptCount) <==> maxAttempts == 0
    ensures result == Err(AttemptCountTooLarge) <==> maxAttempts > MAX_ATTEMPTS
    ensures result == Err(RetryPolicyRequired) <==>
            1 < maxAttempts <= MAX_ATTEMPTS && !hasPredicate && !retryAllErrors
    ensures var counted := 1 <= maxAttempts <= MAX_ATTEMPTS && (maxAttempts > 1 ==> hasPredicate || retryAllErrors);
            var conflict := hasDeadline && overallTimeout.Some?;
            && (result == Err(ConflictingDeadline) <==> counted && conflict)
            && (result == Err(ZeroAttemptTimeout) <==> counted && !conflict && attemptTimeout == Some(0.0))
  {
    if maxAttempts == 0 {
      return Err(InvalidAttemptCount);
    }
    if maxAttempts > MAX_ATTEMPTS {
      return Err(AttemptCountTooLarge);
    }
    if maxAttempts > 1 && !hasPredicate && !retryAllErrors {
      return Err(RetryPolicyRequired);
    }
    if hasDeadline && overallTimeout.Some? {
      return Err(ConflictingDeadline);
    }
    if attemptTimeout == Some(0.0) {
      return Err(ZeroAttemptTimeout);
    }
    if !Fits(attemptTimeout, horizon) {
      return Err(Delays(DurationOverflow));
    }
    if !Fits(overallTimeout, horizon) {
      return Err(Delays(DurationOverflow));
    }
    hide Item;
    var plan := Build(backoff, maxAttempts - 1, jitter);
    match plan {
      case Err(error) => return Err(Delays(error));
      case Ok(delays) => return Ok(RetrySpec(maxAttempts, hasPredicate, retryAllErrors, retryTimedOut, delays));
    }
  }

  // ---------------------------------------------------------------- the attempt loop

  datatype Stop = ByCancel | ByDeadline

  datatype Outcome = Completed | Failed | TimedOut | DeadlineReached | Panicked | RuntimeGone | NoTimer

  datatype Verdict = Retryable | Final | PredicatePanics

  // One attempt as its environment makes it go; stop causes are what each check observes.
  datatype Attempt = Attempt(
    late: bool,
    stopBefore: Option<Stop>,
    outcome: Outcome,
    stopAfter: Option<Stop>,
    verdict: Verdict,
    sleepFails: bool,
    stopSleeping: Option<Stop>)

  // Errors are named by the attempt that failed with them.
  datatype Exit =
    | CompletedBy(attempt: nat)
    | Cancelled
    | DeadlineExceeded(lastError: Option<nat>)
    | AttemptPanicked(attempt: nat)
    | RuntimeUnavailable
    | TimerUnavailable
    | AttemptTimedOut(attempt: nat, previous: Option<nat>)
    | Exhausted(attempt: nat)
    | NonRetryable(attempt: nat)
    | PredicatePanicked(attempt: nat)
    | BackoffInterrupted(lastError: Option<nat>)
    | PredicateMissing
    | DelayMissing
    | DelayInvalid
    | FellThrough

  // The branches that report a broken invariant.
  predicate Internal(exit: Exit) {
    exit.PredicateMissing? || exit.DelayMissing? || exit.DelayInvalid? || exit.FellThrough?
  }

  predicate Retried(s: RetrySpec, a: Attempt) {
    || (a.outcome.Failed? && (s.retryAllErrors || a.verdict.Retryable?))
    || (a.outcome.TimedOut? && s.retryTimedOut)
  }

  // The last of the first `n` attempts that failed with an error.
  function LatestFailure(script: seq<Attempt>, n: nat): Option<nat>
    requires n <= |script|
  {
    if n == 0 then None
    else if script[n - 1].outcome.Failed? then Some(n)
    else LatestFailure(script, n - 1)
  }

  function StopExit(stop: Stop, lastError: Option<nat>): Exit {
    match stop
    case ByCancel => Cancelled
    case ByDeadline => DeadlineExceeded(lastError)
  }

  // The decision on an attempt that is over: leave the loop, or go on to the delay.
  method Decide(s: RetrySpec, number: nat, a: Attempt, previous: Option<nat>)
    returns (exit: Option<Exit>, previous': Option<nat>)
    requires Validated(s) && 1 <= number <= s.maxAttempts
    ensures exit.None? <==>
            && number < s.maxAttempts
            && (|| (a.outcome.Failed? && (s.retryAllErrors || a.verdict.Retryable?))
                || (a.outcome.TimedOut? && s.retryTimedOut))
    ensures exit.None? ==> previous' == if a.outcome.Failed? then Some(number) else previous
    ensures exit.Some? ==>
              match a.outcome
              case Completed => exit == Some(CompletedBy(number))
              case Panicked => exit == Some(AttemptPanicked(number))
              case RuntimeGone => exit == Some(RuntimeUnavailable)
              case NoTimer => exit == Some(TimerUnavailable)
              case DeadlineReached => exit == Some(DeadlineExceeded(previous))
              case TimedOut => exit == Some(AttemptTimedOut(number, previous))
              case Failed =>
                if number == s.maxAttempts then exit == Some(Exhausted(number))
                else !s.retryAllErrors &&
                     exit == Some(if a.verdict.Final? then NonRetryable(number) else PredicatePanicked(number))
  {
    previous' := previous;
    match a.outcome {
      case Completed => return Some(CompletedBy(number)), previous;
      case Panicked => return Some(AttemptPanicked(number)), previous;
      case RuntimeGone => return Some(RuntimeUnavailable), previous;
      case NoTimer => return Some(TimerUnavailable), previous;
      case DeadlineReached => return Some(DeadlineExceeded(previous)), previous;
      case TimedOut =>
        if !s.retryTimedOut || number == s.maxAttempts {
          return Some(AttemptTimedOut(number, previous)), previous;
        }
      case Failed =>
        if number == s.maxAttempts {
          return Some(Exhausted(number)), previous;
        }
        if !s.retryAllErrors {
          if !s.hasPredicate {
            return Some(PredicateMissing), previous;
          }
          match a.verdict {
            case Final => return Some(NonRetryable(number)), previous;
            case PredicatePanics => return Some(PredicatePanicked(number)), previous;
            case Retryable =>
          }
        }
        previous' := Some(number);
    }
    return None, previous';
  }

  // The delay to the next attempt; a plan that passed validation always has one.
  method NextDelay(s: RetrySpec, delays: DelayIter) returns (found: bool, failure: Exit, delay: real)
    requires Validated(s) && delays.Valid() && delays.plan == s.plan && delays.produced < s.plan.len
    modifies delays
    ensures found && Item(s.plan, old(delays.produced)) == Ok(delay)
    ensures delays.Valid() && delays.produced == old(delays.produced) + 1
  {
    hide Item;
    DelaysAreValid(s, delays.produced);
    var item := delays.Next();
    if item.None? {
      return false, DelayMissing, 0.0;
    }
    if item.value.Err? {
      return false, DelayInvalid, 0.0;
    }
    return true, FellThrough, item.value.value;
  }

  // The attempt was not stopped, its outcome is retried, and its sleep ran to its end.
  ghost predicate WentOn(s: RetrySpec, a: Attempt, slept: real) {
    && !a.late && a.stopBefore.None? && a.stopAfter.None? && Retried(s, a)
    && a.stopSleeping.None? && (slept != 0.0 ==> !a.sleepFails)
  }

  // How attempt `number` decides the exit: before its factory was called, after it, or in its sleep.
  // `known` is the latest failure before it.
  ghost predicate Decides(s: RetrySpec, number: nat, a: Attempt, called: bool, slept: Option<real>,
                          known: Option<nat>, exit: Exit)
  {
    var known' := if a.outcome.Failed? then Some(number) else known;
    if !called then
      (a.late || a.stopBefore.Some?) && slept.None? &&
      exit == if a.late then DeadlineExceeded(known) else StopExit(a.stopBefore.value, known)
    else if a.stopAfter.Some? then slept.None? && exit == StopExit(a.stopAfter.value, known)
    else if Retried(s, a) && number < s.maxAttempts then
      && slept.Some?
      && if a.stopSleeping.Some? then exit == StopExit(a.stopSleeping.value, known')
         else a.sleepFails && slept.value != 0.0 && exit == BackoffInterrupted(known')
    else
      && slept.None?
      && match a.outcome
         case Completed => exit == CompletedBy(number)
         case Panicked => exit == AttemptPanicked(number)
         case RuntimeGone => exit == RuntimeUnavailable
         case NoTimer => exit == TimerUnavailable
         case DeadlineReached => exit == DeadlineExceeded(known)
         case TimedOut => exit == AttemptTimedOut(number, known)
         case Failed => exit == if number == s.maxAttempts then Exhausted(number)
                                else if a.verdict.Final? then NonRetryable(number)
                                else PredicatePanicked(number)
  }

  // One attempt from its checks to its sleep: the exit it decides, or the delay slept before the next.
  method RunAttempt(s: RetrySpec, number: nat, a: Attempt, previous: Option<nat>, delays: DelayIter)
    returns (exit: Option<Exit>, called: bool, previous': Option<nat>, slept: Option<real>)
    requires Validated(s) && 1 <= number <= s.maxAttempts
    requires delays.Valid() && delays.plan == s.plan && delays.produced == number - 1
    modifies delays
    ensures delays.Valid() && delays.produced == if slept.Some? then number else number - 1
    ensures slept.Some? ==> number <= s.plan.len && Item(s.plan, number - 1) == Ok(slept.value)
    ensures called <==> !a.late && a.stopBefore.None?
    ensures slept.Some? <==> called && a.stopAfter.None? && Retried(s, a) && number < s.maxAttempts
    ensures !called ==> exit == Some(if a.late || a.stopBefore.value.ByDeadline? then DeadlineExceeded(previous)
                                     else Cancelled)
    ensures called && a.stopAfter.Some? ==>
              exit == Some(if a.stopAfter.value.ByDeadline? then DeadlineExceeded(previous) else Cancelled)
    ensures called && a.stopAfter.None? && slept.None? ==>
              match a.outcome
              case Completed => exit == Some(CompletedBy(number))
              case Panicked => exit == Some(AttemptPanicked(number))
              case RuntimeGone => exit == Some(RuntimeUnavailable)
              case NoTimer => exit == Some(TimerUnavailable)
              case DeadlineReached => exit == Some(DeadlineExceeded(previous))
              case TimedOut => exit == Some(AttemptTimedOut(number, previous))
              case Failed =>
                exit == Some(if number == s.maxAttempts then Exhausted(number)
                             else if a.verdict.Final? then NonRetryable(number)
                             else PredicatePanicked(number))
    ensures exit.Some? ==> !Internal(exit.value) && Decides(s, number, a, called, slept, previous, exit.value)
    ensures exit.None? ==> slept.Some? && WentOn(s, a, slept.value)
    ensures exit.Some? && exit.value.CompletedBy? <==> called && a.stopAfter.None? && a.outcome.Completed?
    ensures slept.Some? ==> previous' == if a.outcome.Failed? then Some(number) else previous
    ensures slept.Some? && a.stopSleeping.Some? ==>
              exit == Some(if a.stopSleeping.value.ByDeadline? then DeadlineExceeded(previous') else Cancelled)
    ensures slept.Some? && a.stopSleeping.None? ==>
              exit == if slept.value != 0.0 && a.sleepFails then Some(BackoffInterrupted(previous')) else None
  {
    hide Item, Overflows;
    previous', slept := previous, None;
    if a.late {
      return Some(DeadlineExceeded(previous)), false, previous, None;
    }
    if a.stopBefore.Some? {
      return Some(StopExit(a.stopBefore.value, previous)), false, previous, None;
    }
    called := true;
    if a.stopAfter.Some? {
      return Some(StopExit(a.stopAfter.value, previous)), true, previous, None;
    }
    exit, previous' := Decide(s, number, a, previous);
    if exit.Some? {
      return;
    }
    var found, failure, delay := NextDelay(s, delays);
    if !found {
      return Some(failure), true, previous', None;
    }
    slept := Some(delay);
    if delay != 0.0 && a.sleepFails {
      exit := Some(if a.stopSleeping.Some? then StopExit(a.stopSleeping.value, previous')
                   else BackoffInterrupted(previous'));
      return;
    }
    if a.stopSleeping.Some? {
      exit := Some(StopExit(a.stopSleeping.value, previous'));
    }
  }

  /** A validated retry calls its factory once per attempt, in order and at most `maxAttempts` times;
      every attempt but the last begun went on to the next, having closed its children and slept the
      delay of its plan; the first attempt that is late or stopped, or whose outcome or sleep ends
      the retry, decides the exit, and an error that exit reports is that of the latest failed attempt
      known then; no branch that reports a broken invariant is ever taken. */
  method RunRetry(s: RetrySpec, script: seq<Attempt>)
    returns (exit: Exit, begun: nat, called: bool, slept: seq<real>, marks: seq<Mark>)
    requires Validated(s) && |script| == s.maxAttempts
    ensures 1 <= begun <= s.maxAttempts && !Internal(exit)
    ensures marks == if called then Drained(begun) else Drained(begun - 1) + [Begun(begun)]
    ensures begun - 1 <= |slept| <= begun && |slept| < s.maxAttempts
    ensures forall i: nat | i < |slept| :: Item(s.plan, i) == Ok(slept[i])
    ensures forall i | 0 <= i < begun - 1 :: WentOn(s, script[i], slept[i])
    ensures Decides(s, begun, script[begun - 1], called, if |slept| == begun then Some(slept[begun - 1]) else None,
                    LatestFailure(script, begun - 1), exit)
    ensures exit.CompletedBy? <==>
            script[begun - 1].outcome.Completed? && called && script[begun - 1].stopAfter.None?
  {
    assert 1 <= s.maxAttempts == s.plan.len + 1;
    hide Item, Overflows, Drained, WentOn, Decides, Retried, Validated;
    DrainedNone();
    var previous: Option<nat> := None;
    var delays := NewDelays(s);
    begun, called, slept, marks := 0, true, [], [];
    for number := 1 to s.maxAttempts + 1
      invariant begun == number - 1 == |slept| == delays.produced < s.maxAttempts
      invariant marks == Drained(begun)
      invariant delays.Valid() && delays.plan == s.plan
      invariant previous == LatestFailure(script, begun)
      invariant forall i | 0 <= i < begun :: WentOn(s, script[i], slept[i])
      invariant forall i: nat | i < |slept| :: Item(s.plan, i) == Ok(slept[i])
    {
      begun, marks := number, marks + [Begun(number)];
      var over, delay;
      over, called, previous, delay := RunAttempt(s, number, script[number - 1], previous, delays);
      if called {
        marks := marks + [Closed(number)];
        DrainedOneMore(number);
      }
      if delay.Some? {
        slept := slept + [delay.value];
      }
      if over.Some? {
        return over.value, begun, called, slept, marks;
      }
    }
    return FellThrough, begun, called, slept, marks;
  }

  method NewDelays(s: RetrySpec) returns (delays: DelayIter)
    requires Validated(s)
    ensures fresh(delays) && delays.Valid() && delays.plan == s.plan && delays.produced == 0
  {
    delays := new DelayIter(s.plan);
  }

  lemma DelaysAreValid(s: RetrySpec, k: nat)
    requires Validated(s) && k < s.plan.len
    ensures Item(s.plan, k).Ok?
  {
    hide Item;
    assert Sound(s.plan) && !Overflows(s.plan);
  }
}
