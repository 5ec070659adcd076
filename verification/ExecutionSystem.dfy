/**
 One execution among its concurrent actors: the runner with its guard and its spawned body, stop
 requesters, forced aborts, tracked children, stale work contexts and result takers. Every event
 is one lock-held block or one send made after the lock is released.
 */
module ExecutionSystem {
  import opened Wrappers
  import opened ExecutionState

  // What the body runs: plain tasks and futures have a single attempt and never close one; the others
  // number their attempts, ticks or generations and close each. A recurring task that runs a retry
  // begins its tick's number and then the retry's own (`several` attempts, or one); a service may
  // restart after its factory panicked, and then closes nothing.
  datatype Kind =
    | Plain
    | Retry
    | Recurring
    | RecurringRetry(several: bool)
    | Service(restartsOnPanic: bool)

  datatype Config = Config(maxChildren: nat, abortAllowed: bool, kind: Kind)

  // The bodies that begin an attempt only when every child of the earlier ones is closed.
  predicate ClosesAttempts(kind: Kind) {
    match kind
    case RecurringRetry(several) => !several
    case Service(restartsOnPanic) => !restartsOnPanic
    case _ => true
  }

  // Where the spawned body stands in its attempts.
  datatype Stage =
    | Fresh                                // no attempt has begun
    | Ticking                              // a tick has begun, its retry has not
    | Working
    | Draining(waiting: set<ChildId>, last: bool)   // awaiting the children of the closed attempt
    | Settled                              // between attempts
    | Ending                               // about to end

  datatype Runner =
    | Unclaimed
    | Body(attempt: nat, stage: Stage)
    | Joined(exit: TaskExit)               // the body is over, its exit prepared
    | Closing(exit: TaskExit, waiting: set<ChildId>)
    | Ready(exit: TaskExit)                // about to commit
    | Sending(won: bool)                   // committed, about to publish if the commit took effect
    | Committed                            // published, guard still armed
    | GuardSending(won: bool)
    | Gone

  // What waiters can see, and the result until it is taken.
  datatype Outlet = Outlet(
    watch: Option<Summary>,
    cell: Option<TaskExit>,
    taken: Option<TaskExit>,
    signal: bool,                          // the cancellation flag
    signalOwed: bool)

  datatype Crew = Crew(
    issued: set<nat>,                      // attempts whose context has been handed to user code
    admitted: set<ChildId>,
    done: set<ChildId>,                    // terminal children
    orphans: set<ChildId>)                 // taken out of the set by a wait that was cut short

  datatype Decision = Decision(prepared: TaskExit, requests: nat, final: TaskExit)

  datatype Log = Log(
    requests: seq<StopCause>,              // stop requests received before the terminal state, in order
    decisions: seq<Decision>,              // commits that took effect
    forced: bool,                          // a forced abort was requested
    runtimeLost: bool,
    tick: nat)                             // ticks begun by a recurring retry

  datatype System = System(core: Core, out: Outlet, children: ChildSet, runner: Runner, crew: Crew, log: Log)

  const Start: System :=
    System(NewCore, Outlet(None, None, None, false, false), NewChildren, Unclaimed,
           Crew({}, {}, {}, {}), Log([], [], false, false, 0))

  datatype Event =
    | Claim
    | StartPlain
    | BeginTick
    | Begin(attempt: nat)
    | CloseTick
    | LeaveUndrained
    | Drain
    | Drained
    | End(exit: TaskExit)
    | Cut
    | CloseChildren
    | ChildrenClosed
    | CommitPrepared
    | Publish
    | Disarm
    | GuardDrops
    | Stop(cause: StopCause)
    | Signal
    | Activate(state: TaskState)
    | Spawn(attempt: nat, child: ChildId)
    | ChildEnds(child: ChildId)
    | Force
    | RuntimeStops
    | Take

  predicate At(r: Runner, stages: set<Stage>) {
    r.Body? && r.stage in stages
  }

  predicate Armed(r: Runner) {
    !r.Sending? && !r.GuardSending? && !r.Gone?
  }

  predicate MayBegin(kind: Kind, r: Runner, attempt: nat) {
    match kind
    case Plain => false
    case RecurringRetry(several) => if several then At(r, {Ticking, Settled}) else At(r, {Ticking}) && attempt == 1
    case _ => At(r, {Fresh, Settled})
  }

  // A tick's attempt number, in 32 bits.
  function NumberOf(tick: nat): nat {
    if tick > U32_MAX then U32_MAX else tick
  }

  predicate Enabled(cfg: Config, y: System, e: Event) {
    match e
    case Claim => y.runner.Unclaimed?
    case StartPlain => cfg.kind.Plain? && At(y.runner, {Fresh})
    case BeginTick => cfg.kind.RecurringRetry? && At(y.runner, {Fresh, Settled})
    case Begin(attempt) => MayBegin(cfg.kind, y.runner, attempt)
    case CloseTick => cfg.kind.RecurringRetry? && At(y.runner, {Ticking, Working, Settled})
    case LeaveUndrained => cfg.kind == Kind.Service(true) && At(y.runner, {Working})
    case Drain => !cfg.kind.Plain? && At(y.runner, {Working})
    case Drained => y.runner.Body? && y.runner.stage.Draining? && y.runner.stage.waiting <= y.crew.done
    case End(exit) => At(y.runner, {Fresh, Working, Settled, Ending}) && !exit.Aborted?
    case Cut => y.runner.Body? && (y.log.forced || y.log.runtimeLost)
    case CloseChildren => y.runner.Joined?
    case ChildrenClosed => y.runner.Closing? && y.runner.waiting <= y.crew.done
    case CommitPrepared => y.runner.Ready?
    case Publish => y.runner.Sending? || y.runner.GuardSending?
    case Disarm => y.runner.Committed?
    case GuardDrops => Armed(y.runner)
    case Stop(_) => true
    case Signal => y.out.signalOwed
    case Activate(state) => state.Running? || state.Sleeping?
    case Spawn(attempt, child) =>
      attempt in y.crew.issued && child !in y.crew.admitted && Admits(y.children, attempt, cfg.maxChildren)
    case ChildEnds(child) => child in y.crew.admitted
    case Force => cfg.abortAllowed && !y.runner.Unclaimed?
    case RuntimeStops => true
    case Take => true
  }

  const REFUSED: TaskExit := TaskExit.ExecutorStopped(RunnerCancelled)

  function Claimed(y: System): System {
    if Stoppable(y.core) then y.(core := ClaimStart(y.core), runner := Body(1, Fresh))
    else y.(runner := Ready(REFUSED))
  }

  function Begun(y: System, attempt: nat): System {
    y.(children := BeginAttempt(y.children, attempt), runner := Body(attempt, Working),
       core := SetActive(y.core, Running(attempt)), crew := y.crew.(issued := y.crew.issued + {attempt}))
  }

  // The children a cut or dropped runner was waiting for are in nobody's hands any more.
  function Waiting(r: Runner): set<ChildId> {
    if r.Closing? then r.waiting
    else if r.Body? && r.stage.Draining? then r.stage.waiting
    else {}
  }

  function Orphaned(y: System): Crew {
    y.crew.(orphans := y.crew.orphans + Waiting(y.runner))
  }

  // A tick begins its own number; no context carries it before the retry's first attempt begins.
  function TickBegun(y: System): System {
    var number := NumberOf(y.log.tick + 1);
    y.(children := BeginAttempt(y.children, number), runner := Body(number, Ticking),
       core := SetActive(y.core, Running(number)), log := y.log.(tick := y.log.tick + 1))
  }

  // A tick whose retry went through every attempt may be followed by another; any other ends the body.
  ghost function TickClosed(y: System): System
    requires y.runner.Body?
  {
    var number := NumberOf(y.log.tick);
    y.(children := CloseAttempt(y.children, number),
       runner := Body(y.runner.attempt, Draining(Children(Sift(y.children.controls, number, false)),
                                                 !y.runner.stage.Settled?)))
  }

  function CutShort(y: System): System {
    y.(runner := Joined(CutExit(y.log.forced, y.core.stopCause)), crew := Orphaned(y))
  }

  function Committing(y: System, prepared: TaskExit): System {
    var (core, cell) := Commit(y.core, y.out.cell, prepared);
    y.(core := core, out := y.out.(cell := cell),
       log := if y.core.terminal.Some? || cell.None? then y.log
              else y.log.(decisions := y.log.decisions + [Decision(prepared, |y.log.requests|, cell.value)]))
  }

  ghost function Next(cfg: Config, y: System, e: Event): System
    requires Enabled(cfg, y, e)
  {
    match e
    case Claim => Claimed(y)
    case StartPlain => y.(runner := Body(1, Working), crew := y.crew.(issued := y.crew.issued + {1}))
    case Begin(attempt) => Begun(y, attempt)
    case BeginTick => TickBegun(y)
    case CloseTick => TickClosed(y)
    case LeaveUndrained => y.(runner := Body(y.runner.attempt, Settled))
    case Drain =>
      var attempt := y.runner.attempt;
      y.(children := CloseAttempt(y.children, attempt),
         runner := Body(attempt, Draining(Children(Sift(y.children.controls, attempt, false)), false)))
    case Drained => y.(runner := Body(y.runner.attempt, if y.runner.stage.last then Ending else Settled))
    case End(exit) => y.(runner := Joined(exit))
    case Cut => CutShort(y)
    case CloseChildren =>
      y.(children := CloseAll(y.children), runner := Closing(y.runner.exit, Children(y.children.controls)))
    case ChildrenClosed => y.(runner := Ready(y.runner.exit))
    case CommitPrepared => Committing(y, y.runner.exit).(runner := Sending(y.core.terminal.None?))
    case Publish =>
      y.(out := if y.runner.won then y.out.(watch := y.core.terminal) else y.out,
         runner := if y.runner.Sending? then Committed else Gone)
    case Disarm => y.(runner := Gone)
    case GuardDrops =>
      Committing(y, REFUSED).(runner := GuardSending(y.core.terminal.None?), crew := Orphaned(y))
    case Stop(cause) =>
      y.(core := RequestStop(y.core, cause),
         out := if Stoppable(y.core) then y.out.(signalOwed := true) else y.out,
         log := if y.core.terminal.Some? then y.log else y.log.(requests := y.log.requests + [cause]))
    case Signal => y.(out := y.out.(signal := true, signalOwed := false))
    case Activate(state) => y.(core := SetActive(y.core, state))
    case Spawn(attempt, child) =>
      y.(children := SpawnChild(y.children, attempt, child),
         crew := y.crew.(admitted := y.crew.admitted + {child}))
    case ChildEnds(child) => y.(crew := y.crew.(done := y.crew.done + {child}))
    case Force => y.(log := y.log.(forced := true))
    case RuntimeStops => y.(log := y.log.(runtimeLost := true))
    case Take => if y.out.cell.Some? then y.(out := y.out.(taken := y.out.cell, cell := None)) else y
  }

  ghost predicate Legal(cfg: Config, y: System, events: seq<Event>)
    decreases |events|
  {
    events == [] || (Enabled(cfg, y, events[0]) && Legal(cfg, Next(cfg, y, events[0]), events[1..]))
  }

  ghost function After(cfg: Config, y: System, events: seq<Event>): System
    requires Legal(cfg, y, events)
    decreases |events|
  {
    if events == [] then y else After(cfg, Next(cfg, y, events[0]), events[1..])
  }

  // ---------------------------------------------------------------- invariants

  // The public state follows the terminal outcome, else the accepted stop cause.
  ghost predicate StateInv(c: Core) {
    && (c.terminal.Some? ==> c.publicState == StateOf(c.terminal.value))
    && (c.terminal.None? && c.stopCause.Some? ==> c.publicState == Stopping(c.stopCause.value))
    && (c.terminal.None? ==> !IsTerminal(c.publicState))
  }

  // The stop cause is the first request made while the execution was live.
  function FirstOf(requests: seq<StopCause>): Option<StopCause> {
    if requests == [] then None else Some(requests[0])
  }

  ghost predicate CauseInv(c: Core, requests: seq<StopCause>) {
    c.stopCause == FirstOf(requests)
  }

  ghost predicate SignalInv(c: Core, out: Outlet) {
    && (out.signal || out.signalOwed ==> c.stopCause.Some?)
    && (c.stopCause.Some? ==> out.signal || out.signalOwed)
  }

  // A forced exit names the stop cause that preceded it, or none.
  ghost predicate PrecedingStopIsFirst(exit: TaskExit, stop: Option<StopCause>) {
    exit.Aborted? ==> exit.precedingStop.None? || exit.precedingStop == stop
  }

  // The result is in the cell or was taken, and it is the one decision's.
  ghost predicate ResultInv(c: Core, out: Outlet, log: Log) {
    if c.terminal.None? then log.decisions == [] && out.cell.None? && out.taken.None?
    else
      && |log.decisions| == 1
      && log.decisions[0].requests == |log.requests|
      && log.decisions[0].final == Select(FirstOf(log.requests), log.decisions[0].prepared)
      && PrecedingStopIsFirst(log.decisions[0].final, FirstOf(log.requests))
      && c.terminal == Some(Summarize(log.decisions[0].final))
      && (out.cell == Some(log.decisions[0].final) || out.taken == Some(log.decisions[0].final))
      && (out.cell.None? || out.taken.None?)
  }

  ghost predicate Owes(r: Runner) {
    (r.Sending? && r.won) || (r.GuardSending? && r.won)
  }

  // Waiters see the terminal summary, or its committer is about to publish it.
  ghost predicate WatchInv(c: Core, out: Outlet, r: Runner) {
    && (out.watch.Some? ==> out.watch == c.terminal)
    && (c.terminal.Some? && out.watch.None? ==> Owes(r))
    && (Owes(r) ==> c.terminal.Some? && out.watch.None?)
    && ((r.Committed? || r.Gone? || r.Sending? || r.GuardSending?) <==> c.terminal.Some?)
  }

  ghost predicate AbortInv(c: Core, r: Runner) {
    r.Joined? || r.Closing? || r.Ready? ==> PrecedingStopIsFirst(r.exit, c.stopCause)
  }

  ghost predicate PastClosing(r: Runner) {
    r.Closing? || r.Ready? || r.Sending? || r.Committed?
  }

  ghost predicate GateInv(k: ChildSet, r: Runner, crew: Crew) {
    && (!k.admissionOpen ==> !k.attemptOpen && k.controls == [])
    && (PastClosing(r) ==> !k.admissionOpen || crew.issued == {})
    && (r.Unclaimed? || At(r, {Fresh}) ==> crew.issued == {})
    && (crew.issued == {} ==> crew.admitted == {} && k.controls == [])
    && (r.Unclaimed? || r.Body? ==> crew.orphans == {})
  }

  // Every admitted child is terminal, tracked, being waited for, or orphaned.
  ghost predicate HeldInv(k: ChildSet, r: Runner, crew: Crew) {
    && crew.admitted <= crew.done + Children(k.controls) + Waiting(r) + crew.orphans
    && crew.done + Children(k.controls) + Waiting(r) + crew.orphans <= crew.admitted
  }

  // A body that closes every attempt has tracked children of the current attempt only, and none
  // between attempts.
  ghost predicate AttemptInv(kind: Kind, k: ChildSet, r: Runner) {
    ClosesAttempts(kind) ==>
      && (r.Unclaimed? || At(r, {Fresh}) ==> k.currentAttempt == 1)
      && (r.Body? ==> forall t | t in k.controls :: t.attempt == r.attempt)
      && (r.Body? ==> k.currentAttempt == r.attempt)
      && (At(r, {Settled}) || (r.Body? && r.stage.Draining? && !r.stage.last) ==> !k.attemptOpen && k.controls == [])
      && (At(r, {Ticking}) ==> k.controls == [])
  }

  // With a single attempt per tick, no stale context carries the number of a tick that has just begun.
  ghost predicate TickInv(kind: Kind, r: Runner, issued: set<nat>, tick: nat) {
    kind == RecurringRetry(false) ==>
      && (forall a | a in issued :: a == 1)
      && (issued != {} ==> tick >= 1)
      && (At(r, {Ticking}) ==> r.attempt == NumberOf(tick) && tick >= 1 && (issued != {} ==> tick >= 2))
  }

  // Only a forced abort, a lost runtime or a dropped guard can orphan a child.
  ghost predicate OrphanInv(cfg: Config, r: Runner, crew: Crew, log: Log) {
    && (crew.orphans != {} ==> log.forced || log.runtimeLost || r.GuardSending? || r.Gone?)
    && (log.forced ==> cfg.abortAllowed)
    && (cfg.kind.Plain? ==> !(r.Body? && r.stage.Draining?))
    && (cfg.kind.Plain? && crew.orphans != {} ==> r.GuardSending? || r.Gone?)
    && (At(r, {Ticking}) ==> cfg.kind.RecurringRetry?)
    && (cfg.maxChildren == 0 ==> crew.admitted == {})
  }

  ghost predicate SystemInv(cfg: Config, y: System) {
    && StateInv(y.core)
    && CauseInv(y.core, y.log.requests)
    && SignalInv(y.core, y.out)
    && ResultInv(y.core, y.out, y.log)
    && WatchInv(y.core, y.out, y.runner)
    && AbortInv(y.core, y.runner)
    && GateInv(y.children, y.runner, y.crew)
    && HeldInv(y.children, y.runner, y.crew)
    && AttemptInv(cfg.kind, y.children, y.runner)
    && TickInv(cfg.kind, y.runner, y.crew.issued, y.log.tick)
    && OrphanInv(cfg, y.runner, y.crew, y.log)
  }
}
