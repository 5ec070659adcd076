/** What an execution guarantees in every state that some run reaches. */
module ExecutionTheorems {
  import opened Wrappers
  import opened ExecutionState
  import opened ExecutionSystem
  import opened ExecutionRuns

  lemma Reached(cfg: Config, events: seq<Event>)
    requires Legal(cfg, Start, events)
    ensures SystemInv(cfg, After(cfg, Start, events))
  {
    StartHolds(cfg);
    RunKeeps(cfg, Start, events);
  }

  // ---------------------------------------------------------------- one terminal outcome

  /** At most one commit takes effect, and from then on the public state, what waiters see and the
      stored or taken result are all its outcome: the same kind of exit, with its reason, source or
      preceding stop. */
  lemma OneTerminal(cfg: Config, events: seq<Event>)
    requires Legal(cfg, Start, events)
    ensures var z := After(cfg, Start, events);
            && |z.log.decisions| <= 1
            && (z.core.terminal.Some? <==> z.log.decisions != [])
            && (z.core.terminal.Some? <==> IsTerminal(z.core.publicState))
            && (z.core.terminal.Some? ==>
                  var final := z.log.decisions[0].final;
                  && z.core.terminal == Some(Summarize(final))
                  && z.core.publicState == StateOf(Summarize(final))
                  && (z.out.cell == Some(final) || z.out.taken == Some(final)))
            && (z.core.terminal.Some? ==>
                  var summary, state := z.core.terminal.value, z.core.publicState;
                  match z.log.decisions[0].final
                  case Completed(_) => summary == Summary.Completed && state == TaskState.Completed
                  case Failed(_) => summary == Summary.Failed && state == TaskState.Failed
                  case Cancelled(reason) => summary == Summary.Cancelled(reason) && state == TaskState.Cancelled
                  case Aborted(preceding) => summary == Summary.Aborted(preceding) && state == TaskState.Aborted
                  case Panicked(source, _) => summary == Summary.Panicked(source) && state == TaskState.Panicked
                  case ExecutorStopped(why) =>
                    summary == Summary.ExecutorStopped(why) && state == TaskState.ExecutorStopped)
            && (z.out.watch.Some? ==> z.out.watch == z.core.terminal)
            && (z.core.terminal.Some? && z.out.watch.None? ==> Owes(z.runner))
            && (z.runner.Gone? ==> z.out.watch.Some? && z.out.watch == z.core.terminal)
  {
    Reached(cfg, events);
  }

  /** The first stop request made while the execution was live decides the outcome, unless the
      runner had prepared a forced abort, which is kept. */
  lemma FirstCauseWins(cfg: Config, events: seq<Event>)
    requires Legal(cfg, Start, events) && After(cfg, Start, events).core.terminal.Some?
    ensures var z := After(cfg, Start, events); var d := z.log.decisions;
            && d != []
            && (d[0].prepared.Aborted? ==> d[0].final == d[0].prepared)
            && (z.log.requests == [] ==> d[0].final == d[0].prepared)
            && (!d[0].prepared.Aborted? && z.log.requests != [] ==>
                  match z.log.requests[0]
                  case Cancel(reason) => d[0].final == TaskExit.Cancelled(reason)
                  case Deadline =>
                    if d[0].prepared.Failed? && d[0].prepared.failure.DeadlineExceeded?
                    then d[0].final == d[0].prepared
                    else d[0].final == TaskExit.Failed(DeadlineExceeded(None)))
            && (d[0].final.Aborted? && d[0].final.precedingStop.Some? ==>
                  z.log.requests != [] && d[0].final.precedingStop.value == z.log.requests[0])
  {
    Reached(cfg, events);
  }

  lemma DecidedStep(cfg: Config, y: System, e: Event)
    requires Enabled(cfg, y, e) && y.core.terminal.Some? && WatchInv(y.core, y.out, y.runner)
    ensures Next(cfg, y, e).core == y.core && Next(cfg, y, e).log.decisions == y.log.decisions
    ensures Next(cfg, y, e).log.requests == y.log.requests
    ensures y.out.watch.Some? ==> Next(cfg, y, e).out.watch == y.out.watch
  {
    hide Sift, Children, StateOf, Summarize;
  }

  // No later event changes a terminal execution: not its state, its outcome or what waiters saw.
  lemma {:induction false} TerminalIsForever(cfg: Config, y: System, events: seq<Event>)
    requires Legal(cfg, y, events) && SystemInv(cfg, y) && y.core.terminal.Some?
    ensures var z := After(cfg, y, events);
            z.core == y.core && z.log.decisions == y.log.decisions && z.log.requests == y.log.requests &&
            (y.out.watch.Some? ==> z.out.watch == y.out.watch)
    decreases |events|
  {
    if events != [] {
      assert WatchInv(y.core, y.out, y.runner);
      StepKeeps(cfg, y, events[0]);
      DecidedStep(cfg, y, events[0]);
      hide SystemInv, WatchInv, Next, Enabled;
      TerminalIsForever(cfg, Next(cfg, y, events[0]), events[1..]);
    }
  }

  /** A body cut off ends aborted if a forced abort was requested, and as stopped by the runtime if not;
      an execution whose runner is dropped ends as its first stop cause says, or with its runner
      cancelled. */
  lemma CutOffOutcomes(cfg: Config, events: seq<Event>)
    requires Legal(cfg, Start, events)
    ensures var y := After(cfg, Start, events);
            && (Enabled(cfg, y, Cut) ==>
                  Next(cfg, y, Cut).runner ==
                    Joined(if y.log.forced then TaskExit.Aborted(FirstOf(y.log.requests))
                           else TaskExit.ExecutorStopped(RuntimeUnavailable)))
            && (Enabled(cfg, y, GuardDrops) ==>
                  var z := Next(cfg, y, GuardDrops);
                  if y.core.terminal.Some? then z.core == y.core && z.log.decisions == y.log.decisions
                  else
                    && z.log.decisions != [] && z.core.terminal.Some?
                    && match FirstOf(y.log.requests)
                       case None => z.log.decisions[0].final == TaskExit.ExecutorStopped(RunnerCancelled)
                       case Some(Cancel(reason)) => z.log.decisions[0].final == TaskExit.Cancelled(reason)
                       case Some(Deadline) => z.log.decisions[0].final == TaskExit.Failed(DeadlineExceeded(None)))
  {
    Reached(cfg, events);
    var y := After(cfg, Start, events);
    assert CauseInv(y.core, y.log.requests) && ResultInv(y.core, y.out, y.log);
    hide SystemInv, Legal, After, Children, Sift;
  }

  // The exit of a body that is over is on its way to the commit, or was committed, or its runner was
  // dropped first.
  ghost predicate Carries(y: System, exit: TaskExit) {
    if y.core.terminal.None? then (y.runner.Joined? || y.runner.Closing? || y.runner.Ready?) && y.runner.exit == exit
    else y.log.decisions != [] && (y.log.decisions[0].prepared == exit || y.log.decisions[0].prepared == REFUSED)
  }

  lemma CarriesStep(cfg: Config, y: System, e: Event, exit: TaskExit)
    requires Enabled(cfg, y, e) && Carries(y, exit) && ResultInv(y.core, y.out, y.log)
    ensures Carries(Next(cfg, y, e), exit)
  {
    hide Sift, Children, StateOf, Summarize, Select;
  }

  lemma {:induction false} CarriesRun(cfg: Config, y: System, events: seq<Event>, exit: TaskExit)
    requires Legal(cfg, y, events) && SystemInv(cfg, y) && Carries(y, exit)
    ensures Carries(After(cfg, y, events), exit)
    decreases |events|
  {
    if events != [] {
      assert ResultInv(y.core, y.out, y.log);
      StepKeeps(cfg, y, events[0]);
      CarriesStep(cfg, y, events[0], exit);
      hide SystemInv, ResultInv, Carries, Next, Enabled;
      CarriesRun(cfg, Next(cfg, y, events[0]), events[1..], exit);
    }
  }

  /** What the body returned is what its execution ends with, in every run from its end on, unless a
      stop was requested while the execution was live or its runner was dropped before the commit. */
  lemma BodyDecidesOutcome(cfg: Config, before: seq<Event>, exit: TaskExit, events: seq<Event>)
    requires Legal(cfg, Start, before) && Enabled(cfg, After(cfg, Start, before), End(exit))
    requires Legal(cfg, Next(cfg, After(cfg, Start, before), End(exit)), events)
    ensures var z := After(cfg, Next(cfg, After(cfg, Start, before), End(exit)), events);
            z.core.terminal.Some? ==>
              && z.log.decisions != []
              && (z.log.decisions[0].prepared == exit || z.log.decisions[0].prepared == REFUSED)
              && (z.log.requests == [] && z.log.decisions[0].prepared == exit ==> z.log.decisions[0].final == exit)
  {
    var y := After(cfg, Start, before);
    Reached(cfg, before);
    StepKeeps(cfg, y, End(exit));
    EndCarries(cfg, y, exit);
    var y1 := Next(cfg, y, End(exit));
    hide SystemInv, Next, Enabled, Carries;
    CarriesRun(cfg, y1, events, exit);
    RunKeeps(cfg, y1, events);
    FinalIsPrepared(cfg, After(cfg, y1, events));
    if After(cfg, y1, events).core.terminal.Some? {
      CarriedIsPrepared(After(cfg, y1, events), exit);
    }
  }

  lemma CarriedIsPrepared(z: System, exit: TaskExit)
    requires Carries(z, exit) && z.core.terminal.Some?
    ensures z.log.decisions != []
    ensures z.log.decisions[0].prepared == exit || z.log.decisions[0].prepared == REFUSED
  {}

  lemma EndCarries(cfg: Config, y: System, exit: TaskExit)
    requires Enabled(cfg, y, End(exit)) && SystemInv(cfg, y)
    ensures Carries(Next(cfg, y, End(exit)), exit)
  {
    assert WatchInv(y.core, y.out, y.runner);
  }

  lemma FinalIsPrepared(cfg: Config, z: System)
    requires SystemInv(cfg, z)
    ensures z.core.terminal.Some? ==> z.log.decisions != []
    ensures z.core.terminal.Some? && z.log.requests == [] ==> z.log.decisions[0].final == z.log.decisions[0].prepared
  {
    assert ResultInv(z.core, z.out, z.log);
  }

  // The public state follows the attempt that begins, until a stop is accepted.
  lemma StateFollowsAttempt(cfg: Config, y: System, attempt: nat)
    requires Enabled(cfg, y, Begin(attempt))
    ensures Next(cfg, y, Begin(attempt)).core.publicState ==
            if y.core.terminal.None? && y.core.stopCause.None? then Running(attempt) else y.core.publicState
  {}

  // An accepted stop raises the cancellation flag, or its requester is about to; nothing else does.
  lemma FlagMeansStop(cfg: Config, events: seq<Event>)
    requires Legal(cfg, Start, events)
    ensures var z := After(cfg, Start, events);
            && (z.out.signal ==> z.log.requests != [])
            && (z.log.requests != [] ==> z.out.signal || z.out.signalOwed)
  {
    Reached(cfg, events);
  }

  // A stop requested before the runner claimed its start keeps the body from ever running.
  predicate Withheld(y: System) {
    && !Stoppable(y.core) && y.crew.issued == {} && y.crew.admitted == {}
    && !y.runner.Body? && !y.runner.Joined? && !y.runner.Closing?
    && (y.runner.Ready? ==> y.runner.exit == REFUSED)
    && (y.log.decisions != [] ==> y.log.decisions[0].prepared == REFUSED)
  }

  lemma WithheldStep(cfg: Config, y: System, e: Event)
    requires Enabled(cfg, y, e) && Withheld(y)
    ensures Withheld(Next(cfg, y, e))
  {
    hide Sift, Children, StateOf, Summarize;
  }

  lemma {:induction false} EarlyStopNeverRuns(cfg: Config, y: System, events: seq<Event>)
    requires Legal(cfg, y, events) && Withheld(y)
    ensures Withheld(After(cfg, y, events))
    decreases |events|
  {
    hide Withheld, Next, Enabled;
    if events != [] {
      WithheldStep(cfg, y, events[0]);
      EarlyStopNeverRuns(cfg, Next(cfg, y, events[0]), events[1..]);
    }
  }

  lemma CancelledWhileQueued(cfg: Config, before: seq<Event>, events: seq<Event>)
    requires Legal(cfg, Start, before) && Legal(cfg, After(cfg, Start, before), events)
    requires After(cfg, Start, before).runner.Unclaimed? && After(cfg, Start, before).log.requests != []
    ensures var z := After(cfg, After(cfg, Start, before), events);
            && !z.runner.Body? && z.crew.admitted == {}
            && (z.log.decisions != [] ==> z.log.decisions[0].prepared == REFUSED)
  {
    var y := After(cfg, Start, before);
    Reached(cfg, before);
    assert Withheld(y);
    EarlyStopNeverRuns(cfg, y, events);
  }

  // ---------------------------------------------------------------- structured children

  /** When the runner is about to commit, child admission is closed for good and every child ever
      admitted is terminal, except those whose attempt-close was cut short by an abort. */
  lemma ChildrenBeforeParent(cfg: Config, events: seq<Event>)
    requires Legal(cfg, Start, events) && After(cfg, Start, events).runner.Ready?
    ensures var z := After(cfg, Start, events);
            && (!z.children.admissionOpen || z.crew.issued == {})
            && z.crew.admitted <= z.crew.done + z.crew.orphans
            && (z.crew.admitted <= z.crew.done <==> z.crew.orphans <= z.crew.done)
            && (z.crew.orphans != {} ==> z.log.forced || z.log.runtimeLost)
  {
    Reached(cfg, events);
    var z := After(cfg, Start, events);
    assert HeldInv(z.children, z.runner, z.crew) && GateInv(z.children, z.runner, z.crew);
    NoChildren();
  }

  lemma ClosedStep(cfg: Config, y: System, e: Event)
    requires Enabled(cfg, y, e) && !y.children.admissionOpen
    ensures !Next(cfg, y, e).children.admissionOpen && Next(cfg, y, e).crew.admitted == y.crew.admitted
  {
    hide Sift, Children, StateOf, Summarize, Commit;
  }

  // Once admission is closed no context, however stale, can add a child.
  lemma {:induction false} ClosedToChildren(cfg: Config, y: System, events: seq<Event>)
    requires Legal(cfg, y, events) && !y.children.admissionOpen
    ensures !After(cfg, y, events).children.admissionOpen
    ensures After(cfg, y, events).crew.admitted == y.crew.admitted
    decreases |events|
  {
    hide Next, Enabled;
    if events != [] {
      ClosedStep(cfg, y, events[0]);
      ClosedToChildren(cfg, Next(cfg, y, events[0]), events[1..]);
    }
  }

  /** No child outlives its attempt: when an attempt of a body that closes every attempt begins, every
      child admitted so far is terminal. */
  lemma AttemptsDoNotOverlap(cfg: Config, events: seq<Event>, attempt: nat)
    requires Legal(cfg, Start, events) && Enabled(cfg, After(cfg, Start, events), Begin(attempt))
    requires ClosesAttempts(cfg.kind) || cfg.maxChildren == 0
    ensures var z := After(cfg, Start, events); z.crew.admitted == z.crew.done
  {
    Reached(cfg, events);
    var z := After(cfg, Start, events);
    assert HeldInv(z.children, z.runner, z.crew) && GateInv(z.children, z.runner, z.crew);
    NoChildren();
  }

  // A run that reaches a normal commit leaves no child behind.
  ghost predicate LeavesNoChild(cfg: Config, events: seq<Event>) {
    Legal(cfg, Start, events) ==>
      var z := After(cfg, Start, events);
      z.runner.Ready? && !z.log.runtimeLost ==> z.crew.admitted <= z.crew.done
  }

  lemma Prepend(cfg: Config, y: System, e: Event, rest: seq<Event>)
    requires Enabled(cfg, y, e) && Legal(cfg, Next(cfg, y, e), rest)
    ensures Legal(cfg, y, [e] + rest) && After(cfg, y, [e] + rest) == After(cfg, Next(cfg, y, e), rest)
  {
    assert ([e] + rest)[1..] == rest;
  }

  lemma {:induction false} Concat(cfg: Config, y: System, first: seq<Event>, rest: seq<Event>)
    requires Legal(cfg, y, first) && Legal(cfg, After(cfg, y, first), rest)
    ensures Legal(cfg, y, first + rest) && After(cfg, y, first + rest) == After(cfg, After(cfg, y, first), rest)
    decreases |first|
  {
    hide Next, Enabled;
    if first == [] {
      assert first + rest == rest;
    } else {
      assert (first + rest)[1..] == first[1..] + rest;
      Concat(cfg, Next(cfg, y, first[0]), first[1..], rest);
    }
  }

  // The body's first attempt spawns a child.
  function Opening(kind: Kind, child: ChildId): seq<Event> {
    var attempt := [Begin(1)] + ([Spawn(1, child)] + []);
    [Claim] + (if kind.RecurringRetry? then [BeginTick] + attempt else attempt)
  }

  // The runner is aborted while the body awaits that child.
  function AbortedDrain(): seq<Event> {
    [Drain] + ([Force] + ([Cut] + ([CloseChildren] + ([ChildrenClosed] + []))))
  }

  lemma FirstAttemptSpawns(cfg: Config, y: System, child: ChildId)
    requires MayBegin(cfg.kind, y.runner, 1) && Stoppable(y.core) && cfg.maxChildren > 0
    requires y.children.admissionOpen && y.children.controls == []
    requires y.crew.admitted == {} && y.crew.done == {}
    ensures var attempt := [Begin(1)] + ([Spawn(1, child)] + []);
            && Legal(cfg, y, attempt)
            && var z := After(cfg, y, attempt);
               && z.runner == Body(1, Working) && z.children.controls == [Tracked(1, child)]
               && z.core.terminal.None? && z.crew.admitted == {child} && z.crew.done == {} && z.log == y.log
  {
    Prepend(cfg, Next(cfg, y, Begin(1)), Spawn(1, child), []);
    Prepend(cfg, y, Begin(1), [Spawn(1, child)] + []);
  }

  lemma OneChildWorking(cfg: Config, child: ChildId)
    requires cfg.maxChildren > 0 && !cfg.kind.Plain?
    ensures Legal(cfg, Start, Opening(cfg.kind, child))
    ensures var y := After(cfg, Start, Opening(cfg.kind, child));
            && y.runner == Body(1, Working) && y.children.controls == [Tracked(1, child)]
            && y.core.terminal.None? && y.crew.admitted == {child} && y.crew.done == {} && !y.log.runtimeLost
  {
    var attempt := [Begin(1)] + ([Spawn(1, child)] + []);
    var y1 := Next(cfg, Start, Claim);
    if cfg.kind.RecurringRetry? {
      FirstAttemptSpawns(cfg, Next(cfg, y1, BeginTick), child);
      Prepend(cfg, y1, BeginTick, attempt);
      Prepend(cfg, Start, Claim, [BeginTick] + attempt);
    } else {
      FirstAttemptSpawns(cfg, y1, child);
      Prepend(cfg, Start, Claim, attempt);
    }
  }

  lemma DrainAborted(cfg: Config, y: System, child: ChildId)
    requires y.runner == Body(1, Working) && y.children.controls == [Tracked(1, child)]
    requires cfg.abortAllowed && !cfg.kind.Plain?
    ensures Legal(cfg, y, AbortedDrain())
    ensures var z := After(cfg, y, AbortedDrain());
            && z.runner.Ready? && z.log.runtimeLost == y.log.runtimeLost
            && z.crew.admitted == y.crew.admitted && z.crew.done == y.crew.done
  {
    hide Children, Stoppable;
    var y1 := Next(cfg, y, Drain);
    NoneKept(y.children.controls, 1);
    var y2 := Next(cfg, y1, Force);
    var y3 := Next(cfg, y2, Cut);
    var y4 := Next(cfg, y3, CloseChildren);
    NoChildren();
    assert Enabled(cfg, y4, ChildrenClosed);
    Prepend(cfg, y4, ChildrenClosed, []);
    Prepend(cfg, y3, CloseChildren, [ChildrenClosed] + []);
    Prepend(cfg, y2, Cut, [CloseChildren] + ([ChildrenClosed] + []));
    Prepend(cfg, y1, Force, [Cut] + ([CloseChildren] + ([ChildrenClosed] + [])));
    Prepend(cfg, y, Drain, [Force] + ([Cut] + ([CloseChildren] + ([ChildrenClosed] + []))));
  }

  lemma AbortOrphansChild(cfg: Config, child: ChildId)
    requires cfg.abortAllowed && cfg.maxChildren > 0 && !cfg.kind.Plain?
    ensures !LeavesNoChild(cfg, Opening(cfg.kind, child) + AbortedDrain())
  {
    hide Next, Enabled, Opening, AbortedDrain, Legal, After;
    var opening := Opening(cfg.kind, child);
    OneChildWorking(cfg, child);
    DrainAborted(cfg, After(cfg, Start, opening), child);
    Concat(cfg, Start, opening, AbortedDrain());
    assert child in After(cfg, Start, opening + AbortedDrain()).crew.admitted;
  }

  lemma NoAbortNoOrphan(cfg: Config, events: seq<Event>)
    requires !cfg.abortAllowed || cfg.maxChildren == 0 || cfg.kind.Plain?
    ensures LeavesNoChild(cfg, events)
  {
    if Legal(cfg, Start, events) && After(cfg, Start, events).runner.Ready? {
      Reached(cfg, events);
      ChildrenBeforeParent(cfg, events);
    }
  }

  /** Exactly when forced aborts are not allowed, or children are not, or the body never closes an
      attempt, every normal commit of every run finds all children terminal. */
  lemma CooperativeMeansStructured(cfg: Config, child: ChildId)
    ensures (forall events :: LeavesNoChild(cfg, events)) <==>
            !cfg.abortAllowed || cfg.maxChildren == 0 || cfg.kind.Plain?
  {
    hide LeavesNoChild;
    if cfg.abortAllowed && cfg.maxChildren > 0 && !cfg.kind.Plain? {
      AbortOrphansChild(cfg, child);
    } else {
      forall events ensures LeavesNoChild(cfg, events) {
        NoAbortNoOrphan(cfg, events);
      }
    }
  }

  // ---------------------------------------------------------------- attempts beside older children

  // An attempt that begins after the run finds every child of the earlier ones terminal.
  ghost predicate AttemptsApart(cfg: Config, events: seq<Event>, attempt: nat) {
    Legal(cfg, Start, events) && Enabled(cfg, After(cfg, Start, events), Begin(attempt)) ==>
      After(cfg, Start, events).crew.admitted <= After(cfg, Start, events).crew.done
  }

  // A service whose factory panics after spawning a child begins its next generation beside it.
  lemma UndrainedAttemptOverlaps(cfg: Config, child: ChildId)
    requires cfg.kind == Kind.Service(true) && cfg.maxChildren > 0
    ensures !AttemptsApart(cfg, Opening(cfg.kind, child) + [LeaveUndrained], 2)
  {
    var opening := Opening(cfg.kind, child);
    OneChildWorking(cfg, child);
    hide Opening;
    var y := After(cfg, Start, opening);
    assert Legal(cfg, Next(cfg, y, LeaveUndrained), []);
    assert After(cfg, y, [LeaveUndrained]) == Next(cfg, y, LeaveUndrained);
    Concat(cfg, Start, opening, [LeaveUndrained]);
    assert child in After(cfg, Start, opening + [LeaveUndrained]).crew.admitted;
  }

  // One attempt of a retry from beginning to close.
  function WholeAttempt(n: nat): seq<Event> {
    [Begin(n)] + ([Drain] + ([Drained] + []))
  }

  // A first tick whose retry makes two attempts.
  function FirstTick(): seq<Event> {
    [Claim] + ([BeginTick] + (WholeAttempt(1) + (WholeAttempt(2) + ([CloseTick] + ([Drained] + [])))))
  }

  lemma WholeAttemptWorks(cfg: Config, y: System, n: nat)
    requires cfg.kind == RecurringRetry(true) && At(y.runner, {Ticking, Settled}) && Stoppable(y.core)
    requires y.children.controls == []
    ensures Legal(cfg, y, WholeAttempt(n))
    ensures var z := After(cfg, y, WholeAttempt(n));
            && z.runner == Body(n, Settled) && Stoppable(z.core) && z.log == y.log
            && z.children == ChildSet(y.children.admissionOpen, n, false, [])
            && z.crew == y.crew.(issued := y.crew.issued + {n})
  {
    NoChildren();
    var y1 := Next(cfg, y, Begin(n));
    assert Sift([], n, true) == [] && Sift([], n, false) == [];
    var y2 := Next(cfg, y1, Drain);
    assert y2.runner == Body(n, Draining({}, false));
    Prepend(cfg, y2, Drained, []);
    Prepend(cfg, y1, Drain, [Drained] + []);
    Prepend(cfg, y, Begin(n), [Drain] + ([Drained] + []));
  }

  lemma TickEnds(cfg: Config, y: System)
    requires cfg.kind.RecurringRetry? && At(y.runner, {Settled}) && y.children.controls == []
    ensures Legal(cfg, y, [CloseTick] + ([Drained] + []))
    ensures var z := After(cfg, y, [CloseTick] + ([Drained] + []));
            && z.runner == y.runner && z.core == y.core && z.crew == y.crew && z.log == y.log
            && z.children.admissionOpen == y.children.admissionOpen && z.children.controls == []
  {
    NoChildren();
    var n := NumberOf(y.log.tick);
    assert Sift([], n, true) == [] && Sift([], n, false) == [];
    var y1 := Next(cfg, y, CloseTick);
    assert y1.runner == Body(y.runner.attempt, Draining({}, false));
    Prepend(cfg, y1, Drained, []);
    Prepend(cfg, y, CloseTick, [Drained] + []);
  }

  lemma FirstTickWorks(cfg: Config)
    requires cfg.kind == RecurringRetry(true)
    ensures Legal(cfg, Start, FirstTick())
    ensures var z := After(cfg, Start, FirstTick());
            && At(z.runner, {Settled}) && Stoppable(z.core) && z.log.tick == 1
            && z.children.admissionOpen && z.children.controls == []
            && z.crew.issued == {1, 2} && z.crew.admitted == {} && z.crew.done == {}
  {
    var y1 := Next(cfg, Start, Claim);
    var y2 := Next(cfg, y1, BeginTick);
    assert At(y2.runner, {Ticking}) && Stoppable(y2.core) && y2.log.tick == 1 && y2.crew.issued == {};
    hide Next, Enabled, WholeAttempt;
    WholeAttemptWorks(cfg, y2, 1);
    var y3 := After(cfg, y2, WholeAttempt(1));
    WholeAttemptWorks(cfg, y3, 2);
    var y4 := After(cfg, y3, WholeAttempt(2));
    TickEnds(cfg, y4);
    Concat(cfg, y3, WholeAttempt(2), [CloseTick] + ([Drained] + []));
    Concat(cfg, y2, WholeAttempt(1), WholeAttempt(2) + ([CloseTick] + ([Drained] + [])));
    Prepend(cfg, y1, BeginTick, WholeAttempt(1) + (WholeAttempt(2) + ([CloseTick] + ([Drained] + []))));
    Prepend(cfg, Start, Claim,
            [BeginTick] + (WholeAttempt(1) + (WholeAttempt(2) + ([CloseTick] + ([Drained] + [])))));
  }

  // The second tick reopens number 2, under which a stale context spawns.
  function StaleSpawn(child: ChildId): seq<Event> {
    [BeginTick] + ([Spawn(2, child)] + [])
  }

  /** A recurring task whose retry makes several attempts per tick reopens the number of an old attempt
      when it begins a later tick: a context kept from that attempt spawns a child, and the retry's
      first attempt begins beside it. */
  lemma ReopenedAttemptOverlaps(cfg: Config, child: ChildId)
    requires cfg.kind == RecurringRetry(true) && cfg.maxChildren > 0
    ensures !AttemptsApart(cfg, FirstTick() + StaleSpawn(child), 1)
  {
    FirstTickWorks(cfg);
    var y := After(cfg, Start, FirstTick());
    hide FirstTick;
    var y1 := Next(cfg, y, BeginTick);
    Prepend(cfg, y1, Spawn(2, child), []);
    Prepend(cfg, y, BeginTick, [Spawn(2, child)] + []);
    Concat(cfg, Start, FirstTick(), StaleSpawn(child));
    assert child in After(cfg, Start, FirstTick() + StaleSpawn(child)).crew.admitted;
  }

  /** In every run each attempt begins after all earlier children have ended exactly when the body
      closes every attempt before the next one begins, or can have no children. */
  lemma ClosingKeepsAttemptsApart(cfg: Config, child: ChildId)
    ensures (forall events, attempt :: AttemptsApart(cfg, events, attempt)) <==>
            ClosesAttempts(cfg.kind) || cfg.maxChildren == 0
  {
    hide AttemptsApart;
    if ClosesAttempts(cfg.kind) || cfg.maxChildren == 0 {
      forall events, attempt ensures AttemptsApart(cfg, events, attempt) {
        ClosedAttemptsApart(cfg, events, attempt);
      }
    } else if cfg.kind.Service? {
      UndrainedAttemptOverlaps(cfg, child);
    } else {
      ReopenedAttemptOverlaps(cfg, child);
    }
  }

  lemma ClosedAttemptsApart(cfg: Config, events: seq<Event>, attempt: nat)
    requires ClosesAttempts(cfg.kind) || cfg.maxChildren == 0
    ensures AttemptsApart(cfg, events, attempt)
  {
    if Legal(cfg, Start, events) && Enabled(cfg, After(cfg, Start, events), Begin(attempt)) {
      AttemptsDoNotOverlap(cfg, events, attempt);
    }
  }
}
