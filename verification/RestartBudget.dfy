/**
 The restart budget shared by recurring tasks and services: a deque of recent restart times that
 is trimmed to a window before each decision, and the service's generation loop around it.
 */
module RestartBudget {
  import opened Wrappers

  import opened Attempts

  // ---------------------------------------------------------------- what the budget means

  function CountIn(times: seq<nat>, lo: int, hi: int): (n: nat)
    ensures n <= |times|
  {
    if times == [] then 0
    else
      var last := times[|times| - 1];
      CountIn(times[..|times| - 1], lo, hi) + (if lo <= last <= hi then 1 else 0)
  }

  ghost predicate Ordered(times: seq<nat>) {
    forall i, j | 0 <= i < j < |times| :: times[i] <= times[j]
  }

  // The decision on one request, given the restarts admitted before it.
  function Decide(before: seq<nat>, max: nat, window: nat, now: nat): seq<nat> {
    if CountIn(before, now - window, now) < max then before + [now] else before
  }

  // The restarts a budget admits: each one if fewer than `max` were admitted in the window before it.
  function AdmittedOf(requests: seq<nat>, max: nat, window: nat): seq<nat> {
    if requests == [] then []
    else
      Decide(AdmittedOf(requests[..|requests| - 1], max, window), max, window, requests[|requests| - 1])
  }

  ghost predicate UpTo(times: seq<nat>, now: nat) {
    forall i | 0 <= i < |times| :: times[i] <= now
  }

  lemma OrderedAppend(times: seq<nat>, before: nat, now: nat)
    requires Ordered(times) && UpTo(times, before) && before <= now
    ensures Ordered(times + [now]) && UpTo(times, now) && UpTo(times + [now], now)
  {}

  lemma CountAppend(times: seq<nat>, t: nat, lo: int, hi: int)
    ensures CountIn(times + [t], lo, hi) == CountIn(times, lo, hi) + (if lo <= t <= hi then 1 else 0)
  {
    assert (times + [t])[..|times|] == times;
  }

  lemma {:induction false} CountMonotone(times: seq<nat>, lo: int, hi: int, lo': int, hi': int)
    requires forall i | 0 <= i < |times| :: lo <= times[i] <= hi ==> lo' <= times[i] <= hi'
    ensures CountIn(times, lo, hi) <= CountIn(times, lo', hi')
  {
    if times != [] {
      CountMonotone(times[..|times| - 1], lo, hi, lo', hi');
    }
  }

  lemma {:induction false} AdmittedIsOrdered(requests: seq<nat>, max: nat, window: nat, now: nat)
    requires Ordered(requests) && UpTo(requests, now)
    ensures Ordered(AdmittedOf(requests, max, window))
    ensures UpTo(AdmittedOf(requests, max, window), now)
  {
    if requests != [] {
      AdmittedIsOrdered(requests[..|requests| - 1], max, window, requests[|requests| - 1]);
    }
  }

  lemma WindowStep(before: seq<nat>, max: nat, window: nat, now: nat, from: int)
    requires UpTo(before, now)
    requires CountIn(before, from, from + window) <= max
    ensures CountIn(Decide(before, max, window, now), from, from + window) <= max
  {
    hide CountIn;
    CountAppend(before, now, from, from + window);
    if from <= now <= from + window {
      CountMonotone(before, from, from + window, now - window, now);
    }
  }

  /** A true sliding window: with a clock that never runs backwards, every closed interval as long as
      the window contains at most `max` admitted restarts. */
  lemma {:induction false} SlidingWindow(requests: seq<nat>, max: nat, window: nat, from: int)
    requires Ordered(requests)
    ensures CountIn(AdmittedOf(requests, max, window), from, from + window) <= max
  {
    if requests != [] {
      var n := |requests| - 1;
      SlidingWindow(requests[..n], max, window, from);
      AdmittedIsOrdered(requests[..n], max, window, requests[n]);
      WindowStep(AdmittedOf(requests[..n], max, window), max, window, requests[n], from);
    }
  }

  lemma AdmitOne(requests: seq<nat>, max: nat, window: nat, now: nat)
    ensures AdmittedOf(requests + [now], max, window) ==
            Decide(AdmittedOf(requests, max, window), max, window, now)
  {
    assert (requests + [now])[..|requests|] == requests;
  }

  // A restart is refused exactly when admitting it would put more than `max` into its window.
  lemma RefusedOnlyWhenFull(requests: seq<nat>, max: nat, window: nat, now: nat)
    ensures AdmittedOf(requests + [now], max, window) == AdmittedOf(requests, max, window) <==>
            CountIn(AdmittedOf(requests, max, window) + [now], now - window, now) > max
  {
    AdmitOne(requests, max, window, now);
    CountAppend(AdmittedOf(requests, max, window), now, now - window, now);
    hide AdmittedOf, CountIn;
  }

  // ---------------------------------------------------------------- the deque

  // Trimmed times beyond the window count for nothing; those kept all count.
  lemma {:induction false} CountSuffix(times: seq<nat>, k: nat, lo: int, hi: int)
    requires k <= |times|
    requires forall i | 0 <= i < k :: times[i] < lo
    requires forall i | k <= i < |times| :: lo <= times[i] <= hi
    ensures CountIn(times, lo, hi) == |times| - k
  {
    if times != [] {
      var n := |times| - 1;
      if k <= n {
        CountSuffix(times[..n], k, lo, hi);
      } else {
        CountSuffix(times[..n], n, lo, hi);
      }
    }
  }

  // The deque is the tail of the admitted restarts; what was trimmed is before every window that
  // ends at `now` or later.
  ghost predicate Tail(times: seq<nat>, admitted: seq<nat>, window: nat, now: nat) {
    && |times| <= |admitted|
    && times == admitted[|admitted| - |times|..]
    && forall i | 0 <= i < |admitted| - |times| :: admitted[i] < now - window
  }

  lemma TrimmedTail(times: seq<nat>, kept: seq<nat>, admitted: seq<nat>, window: nat, before: nat, now: nat)
    requires Tail(times, admitted, window, before) && Tail(kept, times, window, now) && before <= now
    ensures Tail(kept, admitted, window, now)
  {
    var d := |admitted| - |times|;
    assert forall i | 0 <= i < |times| :: times[i] == admitted[d + i];
    assert forall i | d <= i < |admitted| :: admitted[i] == times[i - d];
  }

  // The length of a trimmed deque is the number of restarts in the window that ends now.
  lemma TailCounts(times: seq<nat>, admitted: seq<nat>, window: nat, now: nat)
    requires Tail(times, admitted, window, now) && Ordered(admitted)
    requires UpTo(admitted, now)
    requires times != [] ==> times[0] >= now - window
    ensures CountIn(admitted, now - window, now) == |times|
  {
    CountSuffix(admitted, |admitted| - |times|, now - window, now);
  }

  lemma TailAppend(times: seq<nat>, admitted: seq<nat>, window: nat, now: nat)
    requires Tail(times, admitted, window, now)
    ensures Tail(times + [now], admitted + [now], window, now)
  {}

  class RestartWindow {
    const maxRestarts: nat
    const window: nat
    var times: seq<nat>
    ghost var requests: seq<nat>
    ghost var clock: nat

    ghost function Admitted(): seq<nat>
      reads this
    {
      AdmittedOf(requests, maxRestarts, window)
    }

    ghost predicate Valid()
      reads this
    {
      Ordered(requests) && UpTo(requests, clock) && Tail(times, Admitted(), window, clock)
    }

    constructor (maxRestarts: nat, window: nat)
      ensures this.maxRestarts == maxRestarts && this.window == window
      ensures Valid() && requests == [] && clock == 0
    {
      this.maxRestarts, this.window := maxRestarts, window;
      times, requests, clock := [], [], 0;
    }

    // Drops the restarts that have left the window that ends at `now`.
    method Trim(now: nat)
      modifies this`times
      ensures Tail(times, old(times), window, now)
      ensures times != [] ==> times[0] >= now - window
    {
      while times != [] && now - times[0] > window
        invariant Tail(times, old(times), window, now)
        decreases |times|
      {
        times := times[1..];
      }
    }

    // Whether one more restart fits the window that ends now; a request that does not is refused.
    method HasRoom(now: nat) returns (room: bool)
      requires Valid() && clock <= now
      modifies this
      ensures Valid() && clock == now && Admitted() == old(Admitted())
      ensures room <==> CountIn(Admitted(), now - window, now) < maxRestarts
      ensures requests == if room then old(requests) else old(requests) + [now]
    {
      hide AdmittedOf, CountIn, Tail, Ordered, UpTo;
      ghost var before := Admitted();
      OrderedAppend(requests, clock, now);
      AdmittedIsOrdered(requests, maxRestarts, window, now);
      AdmitOne(requests, maxRestarts, window, now);
      Trim(now);
      TrimmedTail(old(times), times, before, window, clock, now);
      TailCounts(times, before, window, now);
      clock := now;
      room := |times| < maxRestarts;
      if !room {
        requests := requests + [now];
      }
    }

    method Record(now: nat)
      requires Valid() && clock == now && CountIn(Admitted(), now - window, now) < maxRestarts
      modifies this
      ensures Valid() && clock == now && requests == old(requests) + [now]
      ensures Admitted() == old(Admitted()) + [now]
    {
      hide AdmittedOf, CountIn, Tail, Ordered, UpTo;
      OrderedAppend(requests, now, now);
      AdmitOne(requests, maxRestarts, window, now);
      TailAppend(times, Admitted(), window, now);
      times := times + [now];
      requests := requests + [now];
    }
  }

  ghost predicate WithinBudget(times: seq<nat>, max: nat, window: nat, from: int) {
    CountIn(times, from, from + window) <= max
  }

  // However it got there, a valid deque has never let a window exceed the budget.
  lemma BudgetIsKept(restarts: RestartWindow)
    requires restarts.Valid()
    ensures forall from: int :: WithinBudget(restarts.Admitted(), restarts.maxRestarts, restarts.window, from)
  {
    forall from: int ensures WithinBudget(restarts.Admitted(), restarts.maxRestarts, restarts.window, from) {
      SlidingWindow(restarts.requests, restarts.maxRestarts, restarts.window, from);
    }
  }

  // A recurring task's decision on a panicked tick.
  method AdmitPanicRestart(restarts: RestartWindow, now: nat) returns (admitted: bool)
    requires restarts.Valid() && restarts.clock <= now
    modifies restarts
    ensures restarts.Valid() && restarts.requests == old(restarts.requests) + [now]
    ensures admitted <==> CountIn(old(restarts.Admitted()), now - restarts.window, now) < restarts.maxRestarts
  {
    admitted := restarts.HasRoom(now);
    if admitted {
      restarts.Record(now);
    }
  }

  // ---------------------------------------------------------------- the service loop

  // How one generation of a service body ends, seen from the loop: it is over for good, or it asks
  // for a restart at `now`, possibly while cancelled, and then sleeps its backoff. A generation whose
  // factory panicked has no body.
  datatype GenerationEnd =
    | Returns(factoryPanicked: bool)
    | AsksRestart(factoryPanicked: bool, now: nat, cancelled: bool, slept: bool)

  datatype ServiceExit =
    | Finished(generation: nat)
    | RestartLimitExceeded(generation: nat)
    | CounterOverflow
    | GenerationOverflow
    | StillRunning(generation: nat)    // the generations given are over and all were restarted

  datatype RestartAdmission = Admitted | Rejected | Overflowed

  ghost predicate Clocked(script: seq<GenerationEnd>, from: nat) {
    && (forall i | 0 <= i < |script| && script[i].AsksRestart? :: from <= script[i].now)
    && (forall i, j | 0 <= i < j < |script| && script[i].AsksRestart? && script[j].AsksRestart? ::
          script[i].now <= script[j].now)
  }

  // The window that ends at `now` holds the maximum of restarts already.
  ghost predicate Crowded(restarts: RestartWindow, now: nat)
    reads restarts
  {
    CountIn(restarts.Admitted(), now - restarts.window, now) >= restarts.maxRestarts
  }

  method AdmitRestart(restarts: RestartWindow, count: nat, now: nat, cancelled: bool, slept: bool)
    returns (admission: RestartAdmission, count': nat)
    requires restarts.Valid() && restarts.clock <= now && count <= U32_MAX
    modifies restarts
    ensures restarts.Valid() && restarts.clock == now
    ensures admission.Admitted? <==> !old(Crowded(restarts, now)) && !cancelled && count < U32_MAX && slept
    ensures admission.Overflowed? <==> !old(Crowded(restarts, now)) && !cancelled && count >= U32_MAX
    ensures !old(Crowded(restarts, now)) && !cancelled && count < U32_MAX ==>
              count' == count + 1 && restarts.Admitted() == old(restarts.Admitted()) + [now]
    ensures old(Crowded(restarts, now)) || cancelled || count >= U32_MAX ==>
              count' == count && restarts.Admitted() == old(restarts.Admitted())
  {
    var room := restarts.HasRoom(now);
    if !room || cancelled {
      return Rejected, count;
    }
    if count + 1 > U32_MAX {
      return Overflowed, count;
    }
    restarts.Record(now);
    return (if slept then Admitted else Rejected), count + 1;
  }

  // What `n` generations do to their children: one whose factory panicked is never closed.
  function ServiceMarks(script: seq<GenerationEnd>, n: nat): seq<Mark>
    requires n <= |script|
  {
    if n == 0 then []
    else ServiceMarks(script, n - 1) + [Begun(n)] + (if script[n - 1].factoryPanicked then [] else [Closed(n)])
  }

  // The part of a generation before its restart is decided; returns whether the service is over.
  method BeginGeneration(generation: nat, end: GenerationEnd, restartsOnPanic: bool)
    returns (over: bool, marks: seq<Mark>)
    ensures marks == [Begun(generation)] + (if end.factoryPanicked then [] else [Closed(generation)])
    ensures over <==> end.Returns? || (end.factoryPanicked && !restartsOnPanic)
  {
    marks := [Begun(generation)];
    if end.factoryPanicked {
      over := !restartsOnPanic || end.Returns?;
    } else {
      marks := marks + [Closed(generation)];
      over := end.Returns?;
    }
  }

  lemma OneGeneration(script: seq<GenerationEnd>, n: nat, marks: seq<Mark>)
    requires n < |script|
    requires marks == [Begun(n + 1)] + (if script[n].factoryPanicked then [] else [Closed(n + 1)])
    ensures ServiceMarks(script, n) + marks == ServiceMarks(script, n + 1)
  {}

  // When the first `n` generations asked for their restarts.
  function RestartTimes(script: seq<GenerationEnd>, n: nat): seq<nat>
    requires n <= |script|
  {
    if n == 0 then []
    else RestartTimes(script, n - 1) + (if script[n - 1].AsksRestart? then [script[n - 1].now] else [])
  }

  // The window that ends when generation `i + 1` asks holds the maximum of restarts already.
  predicate Full(script: seq<GenerationEnd>, i: nat, max: nat, window: nat) {
    && i < |script| && script[i].AsksRestart?
    && CountIn(RestartTimes(script, i), script[i].now - window, script[i].now) >= max
  }

  // What becomes of the service with one generation.
  datatype Fate = Ends | Refused | CountedOut | Restarts

  // The fate that generation `i + 1` decides, once all before it were restarted: its restart is refused
  // if its window is full, or if the service is cancelled by then, or while it waits to restart.
  function FateOf(script: seq<GenerationEnd>, i: nat, restartsOnPanic: bool, max: nat, window: nat): Fate
    requires i < |script|
  {
    if script[i].Returns? || (script[i].factoryPanicked && !restartsOnPanic) then Ends
    else if script[i].cancelled || Full(script, i, max, window) then Refused
    else if i >= U32_MAX then CountedOut
    else if script[i].slept then Restarts
    else Refused
  }

  lemma RefusedIfFull(script: seq<GenerationEnd>, i: nat, restartsOnPanic: bool, max: nat, window: nat, full: bool)
    requires i < |script| && script[i].AsksRestart? && !(script[i].factoryPanicked && !restartsOnPanic)
    requires full == (CountIn(RestartTimes(script, i), script[i].now - window, script[i].now) >= max)
    ensures FateOf(script, i, restartsOnPanic, max, window) ==
            if full || script[i].cancelled then Refused
            else if i >= U32_MAX then CountedOut
            else if script[i].slept then Restarts
            else Refused
  {}

  // The first `n` generations were all restarted.
  ghost predicate AllRestarted(script: seq<GenerationEnd>, n: int, restartsOnPanic: bool, max: nat, window: nat) {
    forall i: nat | i < n :: i < |script| && FateOf(script, i, restartsOnPanic, max, window).Restarts?
  }

  lemma OneMoreRestarted(script: seq<GenerationEnd>, n: nat, restartsOnPanic: bool, max: nat, window: nat)
    requires n < |script| && AllRestarted(script, n, restartsOnPanic, max, window)
    requires FateOf(script, n, restartsOnPanic, max, window).Restarts?
    ensures AllRestarted(script, n + 1, restartsOnPanic, max, window)
  {}

  lemma OneFewerRestarted(script: seq<GenerationEnd>, n: nat, restartsOnPanic: bool, max: nat, window: nat)
    requires n <= |script| && AllRestarted(script, n, restartsOnPanic, max, window)
    ensures AllRestarted(script, n - 1, restartsOnPanic, max, window)
    ensures n > 0 ==> FateOf(script, n - 1, restartsOnPanic, max, window).Restarts?
  {}

  lemma EndsExactlyWhenOver(script: seq<GenerationEnd>, i: nat, restartsOnPanic: bool, max: nat, window: nat)
    requires i < |script|
    ensures FateOf(script, i, restartsOnPanic, max, window) == Ends <==>
            script[i].Returns? || (script[i].factoryPanicked && !restartsOnPanic)
  {}

  lemma OneRestart(script: seq<GenerationEnd>, i: nat)
    requires i < |script| && script[i].AsksRestart?
    ensures RestartTimes(script, i + 1) == RestartTimes(script, i) + [script[i].now]
  {}

  // No restart still to be asked for is before `clock`.
  ghost predicate NotBefore(script: seq<GenerationEnd>, i: nat, clock: nat) {
    forall j | i <= j < |script| && script[j].AsksRestart? :: clock <= script[j].now
  }

  lemma ClockMoves(script: seq<GenerationEnd>, i: nat, clock: nat)
    requires i < |script| && Clocked(script, 0) && NotBefore(script, i, clock)
    ensures NotBefore(script, i + 1, clock)
    ensures script[i].AsksRestart? ==> clock <= script[i].now && NotBefore(script, i + 1, script[i].now)
  {}

  // Without restarts on panic, only the last generation can be left open.
  lemma {:induction false} DrainedUnlessPanicked(script: seq<GenerationEnd>, n: nat, restartsOnPanic: bool, max: nat,
                                                 window: nat)
    requires n <= |script|
    requires AllRestarted(script, n - 1, restartsOnPanic, max, window)
    ensures !restartsOnPanic ==> LastMayBeOpen(n, ServiceMarks(script, n))
    ensures !restartsOnPanic && n > 0 && FateOf(script, n - 1, restartsOnPanic, max, window).Restarts? ==>
              ServiceMarks(script, n) == Drained(n)
  {
    if n > 0 {
      DrainedUnlessPanicked(script, n - 1, restartsOnPanic, max, window);
      if n == 1 {
        DrainedNone();
      }
      hide Full;
      assert FateOf(script, n - 1, restartsOnPanic, max, window).Restarts? && !restartsOnPanic ==>
          !script[n - 1].factoryPanicked;
      DrainedOneMore(n);
    }
  }

  // Between generations: the restarts recorded are those the first `n` generations asked for.
  ghost predicate Between(restarts: RestartWindow, script: seq<GenerationEnd>, n: nat, restartsOnPanic: bool,
                          marks: seq<Mark>)
    reads restarts
  {
    && restarts.Valid() && n <= |script| && n <= U32_MAX && NotBefore(script, n, restarts.clock) && Clocked(script, 0)
    && restarts.Admitted() == RestartTimes(script, n) && |restarts.Admitted()| == n
    && AllRestarted(script, n, restartsOnPanic, restarts.maxRestarts, restarts.window)
    && marks == ServiceMarks(script, n) && (!restartsOnPanic ==> LastMayBeOpen(n, marks))
  }

  // After `begun` generations the service is over, for the time being if all of them were restarted.
  ghost predicate Concluded(restarts: RestartWindow, script: seq<GenerationEnd>, begun: nat, restartsOnPanic: bool,
                            marks: seq<Mark>, count: nat, exit: ServiceExit)
    reads restarts
  {
    && restarts.Valid() && count == |restarts.Admitted()| && count <= U32_MAX
    && begun <= |script| && begun - 1 <= count <= begun
    && AllRestarted(script, begun - 1, restartsOnPanic, restarts.maxRestarts, restarts.window)
    && (if begun == 0 then script == [] && exit == StillRunning(1)
        else
          match FateOf(script, begun - 1, restartsOnPanic, restarts.maxRestarts, restarts.window)
          case Ends => exit == Finished(begun)
          case Refused => exit == RestartLimitExceeded(begun)
          case CountedOut => exit == CounterOverflow
          case Restarts => begun == |script| && exit == StillRunning(begun + 1))
    && marks == ServiceMarks(script, begun) && (!restartsOnPanic ==> LastMayBeOpen(begun, marks))
  }

  /** A service finishes exactly with a generation that returned or that panicked where nobody restarts
      after a panic; it exceeds its restart limit exactly with one that asked for a restart and found its
      window full or the service cancelled, then or while it waited. */
  lemma HowServicesEnd(restarts: RestartWindow, script: seq<GenerationEnd>, begun: nat, restartsOnPanic: bool,
                       marks: seq<Mark>, count: nat, exit: ServiceExit)
    requires Concluded(restarts, script, begun, restartsOnPanic, marks, count, exit) && begun > 0
    ensures var last := script[begun - 1];
            var over := last.Returns? || (last.factoryPanicked && !restartsOnPanic);
            && (exit.Finished? <==> over)
            && (exit.Finished? || exit.RestartLimitExceeded? ==> exit.generation == begun)
            && (!over ==>
                  var full := CountIn(RestartTimes(script, begun - 1), last.now - restarts.window, last.now) >=
                              restarts.maxRestarts;
                  && (exit.CounterOverflow? <==> !full && !last.cancelled && begun > U32_MAX)
                  && (exit.RestartLimitExceeded? <==>
                        full || last.cancelled || (!last.slept && begun <= U32_MAX))
                  && (exit.StillRunning? <==> !full && !last.cancelled && last.slept && begun <= U32_MAX))
            && (exit.StillRunning? ==> begun == |script| && exit.generation == begun + 1)
  {
    hide AllRestarted, ServiceMarks, LastMayBeOpen, RestartTimes, CountIn;
    EndsExactlyWhenOver(script, begun - 1, restartsOnPanic, restarts.maxRestarts, restarts.window);
  }

  lemma BetweenAtStart(restarts: RestartWindow, script: seq<GenerationEnd>, restartsOnPanic: bool)
    requires restarts.Valid() && restarts.requests == [] && Clocked(script, restarts.clock)
    ensures Between(restarts, script, 0, restartsOnPanic, [])
  {
    DrainedNone();
  }

  lemma NoneLeft(restarts: RestartWindow, script: seq<GenerationEnd>, restartsOnPanic: bool, marks: seq<Mark>)
    requires Between(restarts, script, |script|, restartsOnPanic, marks)
    ensures Concluded(restarts, script, |script|, restartsOnPanic, marks, |script|, StillRunning(|script| + 1))
  {
    OneFewerRestarted(script, |script|, restartsOnPanic, restarts.maxRestarts, restarts.window);
    hide AllRestarted, FateOf, ServiceMarks, RestartTimes, NotBefore, Clocked, LastMayBeOpen;
  }

  // Decides on the restart of a generation that is over, and records it.
  method DecideRestart(restarts: RestartWindow, script: seq<GenerationEnd>, n: nat, restartsOnPanic: bool)
    returns (fate: Fate, count: nat)
    requires n < |script| && n <= U32_MAX && script[n].AsksRestart? && !(script[n].factoryPanicked && !restartsOnPanic)
    requires restarts.Valid() && restarts.clock <= script[n].now
    requires restarts.Admitted() == RestartTimes(script, n) && |restarts.Admitted()| == n
    modifies restarts
    ensures restarts.Valid() && restarts.clock == script[n].now
    ensures count == |restarts.Admitted()| && n <= count <= n + 1 && count <= U32_MAX
    ensures fate == FateOf(script, n, restartsOnPanic, restarts.maxRestarts, restarts.window)
    ensures fate.Restarts? ==> count == n + 1 && restarts.Admitted() == RestartTimes(script, n + 1)
  {
    OneRestart(script, n);
    ghost var full := Crowded(restarts, script[n].now);
    RefusedIfFull(script, n, restartsOnPanic, restarts.maxRestarts, restarts.window, full);
    hide CountIn, AdmittedOf, RestartTimes, Tail, Ordered, UpTo, FateOf, Crowded;
    var admission;
    admission, count := AdmitRestart(restarts, n, script[n].now, script[n].cancelled, script[n].slept);
    fate := match admission
      case Rejected => Refused
      case Overflowed => CountedOut
      case Admitted => Restarts;
  }

  // One generation from its beginning to its restart, or to the end of the service.
  method RunGeneration(restarts: RestartWindow, script: seq<GenerationEnd>, generation: nat, restartsOnPanic: bool,
                       marks: seq<Mark>)
    returns (exit: Option<ServiceExit>, count: nat, marks': seq<Mark>)
    requires 1 <= generation <= |script| && Between(restarts, script, generation - 1, restartsOnPanic, marks)
    modifies restarts
    ensures exit.None? ==>
              count == generation <= U32_MAX && Between(restarts, script, generation, restartsOnPanic, marks')
    ensures exit.Some? ==> Concluded(restarts, script, generation, restartsOnPanic, marks', count, exit.value)
    ensures exit != Some(GenerationOverflow)
  {
    ghost var n, max, window := generation - 1, restarts.maxRestarts, restarts.window;
    var over, more := BeginGeneration(generation, script[generation - 1], restartsOnPanic);
    marks' := marks + more;
    OneGeneration(script, n, more);
    DrainedUnlessPanicked(script, generation, restartsOnPanic, max, window);
    hide AllRestarted, FateOf, ServiceMarks, RestartTimes, NotBefore, Clocked, LastMayBeOpen;
    if over {
      EndsExactlyWhenOver(script, n, restartsOnPanic, max, window);
      return Some(Finished(generation)), generation - 1, marks';
    }
    ClockMoves(script, n, restarts.clock);
    var fate;
    fate, count := DecideRestart(restarts, script, generation - 1, restartsOnPanic);
    match fate {
      case Refused => return Some(RestartLimitExceeded(generation)), count, marks';
      case CountedOut => return Some(CounterOverflow), count, marks';
      case Restarts =>
        OneMoreRestarted(script, n, restartsOnPanic, max, window);
        return None, count, marks';
    }
  }

  /** The first generation that is not restarted decides how the service ends. The generation is always
      one more than the restarts admitted, so it overflows never: the 32-bit restart counter runs out
      first. A generation closes its children before the next one begins exactly if its factory
      returned; without restarts on panic, only the last one can be left open. */
  method RunService(restarts: RestartWindow, script: seq<GenerationEnd>, restartsOnPanic: bool)
    returns (exit: ServiceExit, count: nat, begun: nat, marks: seq<Mark>)
    requires restarts.Valid() && restarts.requests == [] && Clocked(script, restarts.clock)
    modifies restarts
    ensures Concluded(restarts, script, begun, restartsOnPanic, marks, count, exit)
    ensures exit != GenerationOverflow
  {
    var generation := 1;
    count, begun, marks := 0, 0, [];
    BetweenAtStart(restarts, script, restartsOnPanic);
    hide Between, Concluded;
    while begun < |script|
      invariant begun <= |script| && Between(restarts, script, begun, restartsOnPanic, marks)
      invariant begun == count && generation == begun + 1 && begun <= U32_MAX
    {
      var over;
      over, count, marks := RunGeneration(restarts, script, generation, restartsOnPanic, marks);
      begun := begun + 1;
      if over.Some? {
        return over.value, count, begun, marks;
      }
      assert generation <= U32_MAX;
      if generation + 1 > U64_MAX {
        return GenerationOverflow, count, begun, marks;
      }
      generation := generation + 1;
    }
    NoneLeft(restarts, script, restartsOnPanic, marks);
    return StillRunning(generation), count, begun, marks;
  }
}
