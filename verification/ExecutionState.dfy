/**
 The values an execution's locks protect, and one function per lock-held block: the lifecycle
 state, the result cell written once under the same lock, and the set of tracked children.
 */
module ExecutionState {
  import opened Wrappers

  type ChildId(==, !new)
  type Value(==, !new)
  type Fault(==, !new)

  datatype CancelReason =
    | UserRequested
    | ExecutorShutdown
    | LaneClosing
    | ScopeCancelled
    | Replaced
    | Other(text: string)

  datatype StopCause = Cancel(reason: CancelReason) | Deadline

  datatype TaskState =
    | Queued
    | Running(attempt: nat)
    | Sleeping(attempt: nat, wakeAt: nat)
    | Stopping(cause: StopCause)
    | Completed
    | Failed
    | Cancelled
    | Aborted
    | Panicked
    | ExecutorStopped

  datatype PanicSource = Factory | WorkFuture | Child | Schedule | RestartPolicy | ServiceBody | ShutdownHook

  datatype ExecutorStopReason = RuntimeUnavailable | RunnerCancelled | InternalInvariantViolation

  // The retry, recurring and service failures are told apart no further here.
  datatype TaskFailure =
    | Operation(error: Fault)
    | Retry
    | Recurring
    | Service
    | DeadlineExceeded(lastError: Option<Fault>)
    | PolicyPanicked
    | ChildFailed
    | TimerUnavailable

  datatype TaskExit =
    | Completed(value: Value)
    | Failed(failure: TaskFailure)
    | Cancelled(reason: CancelReason)
    | Aborted(precedingStop: Option<StopCause>)
    | Panicked(source: PanicSource, message: string)
    | ExecutorStopped(why: ExecutorStopReason)

  datatype Summary =
    | Completed
    | Failed
    | Cancelled(reason: CancelReason)
    | Aborted(precedingStop: Option<StopCause>)
    | Panicked(source: PanicSource)
    | ExecutorStopped(why: ExecutorStopReason)

  predicate IsTerminal(s: TaskState) {
    s.Completed? || s.Failed? || s.Cancelled? || s.Aborted? || s.Panicked? || s.ExecutorStopped?
  }

  function Summarize(exit: TaskExit): Summary {
    match exit
    case Completed(_) => Summary.Completed
    case Failed(_) => Summary.Failed
    case Cancelled(reason) => Summary.Cancelled(reason)
    case Aborted(preceding) => Summary.Aborted(preceding)
    case Panicked(source, _) => Summary.Panicked(source)
    case ExecutorStopped(why) => Summary.ExecutorStopped(why)
  }

  function StateOf(summary: Summary): (s: TaskState)
    ensures IsTerminal(s)
  {
    match summary
    case Completed => TaskState.Completed
    case Failed => TaskState.Failed
    case Cancelled(_) => TaskState.Cancelled
    case Aborted(_) => TaskState.Aborted
    case Panicked(_) => TaskState.Panicked
    case ExecutorStopped(_) => TaskState.ExecutorStopped
  }

  // ---------------------------------------------------------------- lifecycle

  datatype Core = Core(publicState: TaskState, stopCause: Option<StopCause>, terminal: Option<Summary>)

  const NewCore: Core := Core(Queued, None, None)

  datatype StopOutcome = Requested | AlreadyStopping | AlreadyTerminal

  predicate Stoppable(c: Core) {
    c.terminal.None? && c.stopCause.None?
  }

  function ClaimStart(c: Core): Core {
    if Stoppable(c) then c.(publicState := Running(1)) else c
  }

  function SetActive(c: Core, next: TaskState): Core {
    if Stoppable(c) then c.(publicState := next) else c
  }

  function RequestOutcome(c: Core): StopOutcome {
    if c.terminal.Some? then AlreadyTerminal
    else if c.stopCause.Some? then AlreadyStopping
    else Requested
  }

  function RequestStop(c: Core, cause: StopCause): Core {
    if Stoppable(c) then c.(stopCause := Some(cause), publicState := Stopping(cause)) else c
  }

  // Which exit a commit keeps: the prepared one, or the one the accepted stop cause dictates.
  function Select(stop: Option<StopCause>, prepared: TaskExit): TaskExit {
    if prepared.Aborted? then prepared
    else match stop
      case Some(Cancel(reason)) => TaskExit.Cancelled(reason)
      case Some(Deadline) =>
        if prepared.Failed? && prepared.failure.DeadlineExceeded? then prepared
        else TaskExit.Failed(DeadlineExceeded(None))
      case None => prepared
  }

  // The exit of a body that was cut off: forced if a forced abort was requested.
  function CutExit(forced: bool, stop: Option<StopCause>): TaskExit {
    if forced then TaskExit.Aborted(stop) else TaskExit.ExecutorStopped(RuntimeUnavailable)
  }

  // The cell keeps the first exit stored in it and answers with that exit's summary.
  function Store(cell: Option<TaskExit>, exit: TaskExit): Option<TaskExit> {
    if cell.Some? then cell else Some(exit)
  }

  function Commit(c: Core, cell: Option<TaskExit>, prepared: TaskExit): (Core, Option<TaskExit>) {
    if c.terminal.Some? then (c, cell)
    else
      var cell' := Store(cell, Select(c.stopCause, prepared));
      var summary := Summarize(cell'.value);
      (c.(publicState := StateOf(summary), terminal := Some(summary)), cell')
  }

  // ---------------------------------------------------------------- children

  datatype Tracked = Tracked(attempt: nat, control: ChildId)

  datatype ChildSet = ChildSet(
    admissionOpen: bool,
    currentAttempt: nat,
    attemptOpen: bool,
    controls: seq<Tracked>)

  const NewChildren: ChildSet := ChildSet(true, 1, true, [])

  function BeginAttempt(k: ChildSet, attempt: nat): ChildSet {
    k.(currentAttempt := attempt, attemptOpen := k.admissionOpen)
  }

  predicate Admits(k: ChildSet, attempt: nat, maximum: nat) {
    k.admissionOpen && k.attemptOpen && k.currentAttempt == attempt && |k.controls| < maximum
  }

  function SpawnChild(k: ChildSet, attempt: nat, child: ChildId): ChildSet {
    k.(controls := k.controls + [Tracked(attempt, child)])
  }

  // The children of `attempt`, or with `keep` those of the other attempts, in order.
  function Sift(controls: seq<Tracked>, attempt: nat, keep: bool): (r: seq<Tracked>)
    ensures forall t :: t in r <==> t in controls && ((t.attempt != attempt) == keep)
  {
    if controls == [] then []
    else
      var rest := Sift(controls[..|controls| - 1], attempt, keep);
      var last := controls[|controls| - 1];
      if (last.attempt != attempt) == keep then rest + [last] else rest
  }

  // What is sifted keeps its order: each item has its own position, in the same sequence.
  lemma {:induction false} SiftKeepsOrder(controls: seq<Tracked>, attempt: nat, keep: bool) returns (at: seq<nat>)
    ensures |at| == |Sift(controls, attempt, keep)|
    ensures forall i | 0 <= i < |at| :: at[i] < |controls| && controls[at[i]] == Sift(controls, attempt, keep)[i]
    ensures forall i, j | 0 <= i < j < |at| :: at[i] < at[j]
    ensures forall n: nat | n < |controls| && (controls[n].attempt != attempt) == keep :: n in at
  {
    if controls == [] {
      at := [];
    } else {
      var last := |controls| - 1;
      at := SiftKeepsOrder(controls[..last], attempt, keep);
      if (controls[last].attempt != attempt) == keep {
        at := at + [last];
      }
    }
  }

  function CloseAttempt(k: ChildSet, attempt: nat): ChildSet {
    k.(attemptOpen := k.attemptOpen && k.currentAttempt != attempt,
       controls := Sift(k.controls, attempt, true))
  }

  function CloseAll(k: ChildSet): ChildSet {
    k.(admissionOpen := false, attemptOpen := false, controls := [])
  }

  ghost function Children(controls: seq<Tracked>): set<ChildId> {
    set t | t in controls :: t.control
  }

  lemma NoChildren()
    ensures Children([]) == {}
  {}

  lemma ChildrenAppend(controls: seq<Tracked>, attempt: nat, child: ChildId)
    ensures Children(controls + [Tracked(attempt, child)]) == Children(controls) + {child}
  {
    var more := controls + [Tracked(attempt, child)];
    assert Tracked(attempt, child) in more;
    assert forall t :: t in more <==> t in controls || t == Tracked(attempt, child);
  }

  // Closing an attempt loses no child: each is taken or kept.
  lemma SiftPartitions(controls: seq<Tracked>, attempt: nat)
    ensures Children(controls) ==
            Children(Sift(controls, attempt, false)) + Children(Sift(controls, attempt, true))
  {
    var taken, kept := Sift(controls, attempt, false), Sift(controls, attempt, true);
    forall c ensures c in Children(controls) <==> c in Children(taken) + Children(kept) {
      if c in Children(controls) {
        var t :| t in controls && t.control == c;
        assert t in taken || t in kept;
      }
    }
  }
}
