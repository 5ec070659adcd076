/**
 The execution core as the source keeps it: mutable fields behind locks, and one method per
 operation, each tied to the step functions of `ExecutionState`.
 */
module ExecutionCore {
  import opened Wrappers
  import State = ExecutionState
  import opened ExecutionState

  datatype ForcedOutcome = ForceRequested | ForceAlreadyRequested | ForceAlreadyTerminal

  datatype ForcedError = NotAllowed | NoTrackedFuture

  datatype SpawnChildError = ParentClosing | ExecutorUnavailable | LimitReached(maximum: nat)

  // How the spawned body of a plain task ended, if its factory made one; `timer` says that its panic
  // means timers are disabled.
  datatype BodyEnd =
    | FactoryPanicked(message: string)
    | Returned(value: Value)
    | Errored(error: Fault)
    | PanickedWith(message: string, timer: bool)
    | CutOff

  class ResultCell {
    var value: Option<TaskExit>

    constructor ()
      ensures value == None
    {
      value := None;
    }

    method Store(exit: TaskExit) returns (summary: Summary)
      modifies this
      ensures value == State.Store(old(value), exit) && summary == Summarize(value.value)
      ensures value == if old(value).Some? then old(value) else Some(exit)
      ensures match value.value
              case Completed(_) => summary == Summary.Completed
              case Failed(_) => summary == Summary.Failed
              case Cancelled(reason) => summary == Summary.Cancelled(reason)
              case Aborted(preceding) => summary == Summary.Aborted(preceding)
              case Panicked(source, _) => summary == Summary.Panicked(source)
              case ExecutorStopped(why) => summary == Summary.ExecutorStopped(why)
    {
      if value.Some? {
        return Summarize(value.value);
      }
      summary := Summarize(exit);
      value := Some(exit);
    }

    method Take() returns (taken: Option<TaskExit>)
      modifies this
      ensures value == None && taken == old(value)
    {
      taken := value;
      value := None;
    }
  }

  class ExecutionCore {
    var publicState: TaskState
    var stopCause: Option<StopCause>
    var terminal: Option<Summary>
    var cancellation: bool
    var terminalWatch: Option<Summary>
    var admissionOpen: bool
    var currentAttempt: nat
    var attemptAdmissionOpen: bool
    var controls: seq<Tracked>
    var abortAllowed: bool
    var abortHandle: bool
    var forcedRequested: bool
    const maxChildren: nat

    ghost function Lifecycle(): Core
      reads this
    {
      Core(publicState, stopCause, terminal)
    }

    ghost function ChildrenView(): ChildSet
      reads this
    {
      ChildSet(admissionOpen, currentAttempt, attemptAdmissionOpen, controls)
    }

    constructor (maxChildren: nat)
      ensures this.maxChildren == maxChildren
      ensures Lifecycle() == NewCore && ChildrenView() == NewChildren
      ensures !cancellation && terminalWatch == None && !abortAllowed && !abortHandle && !forcedRequested
    {
      this.maxChildren := maxChildren;
      publicState, stopCause, terminal := Queued, None, None;
      cancellation, terminalWatch := false, None;
      admissionOpen, currentAttempt, attemptAdmissionOpen, controls := true, 1, true, [];
      abortAllowed, abortHandle, forcedRequested := false, false, false;
    }

    method ClaimStart() returns (claimed: bool)
      modifies this`publicState
      ensures Lifecycle() == State.ClaimStart(old(Lifecycle())) && claimed == Stoppable(old(Lifecycle()))
      ensures claimed <==> terminal.None? && stopCause.None?
      ensures publicState == if claimed then Running(1) else old(publicState)
    {
      if terminal.Some? || stopCause.Some? {
        return false;
      }
      publicState := Running(1);
      return true;
    }

    method SetActiveState(next: TaskState)
      modifies this`publicState
      ensures Lifecycle() == SetActive(old(Lifecycle()), next)
      ensures publicState == if terminal.None? && stopCause.None? then next else old(publicState)
    {
      if terminal.None? && stopCause.None? {
        publicState := next;
      }
    }

    // `targets` are the children that the caller then cancels, outside the locks.
    method RequestStop(cause: StopCause) returns (outcome: StopOutcome, targets: seq<Tracked>)
      modifies this`publicState, this`stopCause, this`cancellation
      ensures Lifecycle() == State.RequestStop(old(Lifecycle()), cause)
      ensures outcome == RequestOutcome(old(Lifecycle()))
      ensures outcome.AlreadyTerminal? <==> terminal.Some?
      ensures outcome.Requested? <==> terminal.None? && old(stopCause).None?
      ensures outcome.Requested? ==> stopCause == Some(cause) && publicState == Stopping(cause)
      ensures !outcome.Requested? ==> stopCause == old(stopCause) && publicState == old(publicState)
      ensures if outcome.Requested? then cancellation && targets == controls
              else cancellation == old(cancellation) && targets == []
    {
      if terminal.Some? {
        return AlreadyTerminal, [];
      }
      if stopCause.Some? {
        return AlreadyStopping, [];
      }
      stopCause := Some(cause);
      publicState := Stopping(cause);
      targets := controls;
      cancellation := true;
      outcome := Requested;
    }

    method Commit(result: ResultCell, normalExit: TaskExit) returns (won: bool)
      modifies this`publicState, this`terminal, this`terminalWatch, result
      ensures (Lifecycle(), result.value) == State.Commit(old(Lifecycle()), old(result.value), normalExit)
      ensures won == old(terminal).None?
      ensures terminalWatch == if won then terminal else old(terminalWatch)
      ensures !won ==> Lifecycle() == old(Lifecycle()) && result.value == old(result.value)
      ensures won && old(result.value).None? ==>
                if normalExit.Aborted? || stopCause.None? then result.value == Some(normalExit)
                else
                  match stopCause.value
                  case Cancel(reason) => result.value == Some(TaskExit.Cancelled(reason))
                  case Deadline =>
                    result.value ==
                      Some(if normalExit.Failed? && normalExit.failure.DeadlineExceeded? then normalExit
                           else TaskExit.Failed(DeadlineExceeded(None)))
      ensures won ==> result.value.Some? && terminal.Some?
      ensures won ==>
                match result.value.value
                case Completed(_) => terminal == Some(Summary.Completed) && publicState == TaskState.Completed
                case Failed(_) => terminal == Some(Summary.Failed) && publicState == TaskState.Failed
                case Cancelled(reason) =>
                  terminal == Some(Summary.Cancelled(reason)) && publicState == TaskState.Cancelled
                case Aborted(preceding) =>
                  terminal == Some(Summary.Aborted(preceding)) && publicState == TaskState.Aborted
                case Panicked(source, _) =>
                  terminal == Some(Summary.Panicked(source)) && publicState == TaskState.Panicked
                case ExecutorStopped(why) =>
                  terminal == Some(Summary.ExecutorStopped(why)) && publicState == TaskState.ExecutorStopped
    {
      if terminal.Some? {
        return false;
      }
      var selected := normalExit;
      if !normalExit.Aborted? {
        match stopCause {
          case Some(Cancel(reason)) => selected := TaskExit.Cancelled(reason);
          case Some(Deadline) =>
            if !(normalExit.Failed? && normalExit.failure.DeadlineExceeded?) {
              selected := TaskExit.Failed(DeadlineExceeded(None));
            }
          case None =>
        }
      }
      var summary := result.Store(selected);
      publicState := StateOf(summary);
      terminal := Some(summary);
      terminalWatch := Some(summary);
      return true;
    }

    method RequestForcedCancellation() returns (outcome: Result<ForcedOutcome, ForcedError>)
      modifies this`forcedRequested
      ensures outcome.Err? <==> !IsTerminal(publicState) && (!abortAllowed || !abortHandle)
      ensures outcome == Err(NotAllowed) <==> !IsTerminal(publicState) && !abortAllowed
      ensures outcome == Ok(ForceRequested) <==> !old(forcedRequested) && forcedRequested
      ensures outcome == Ok(ForceAlreadyTerminal) <==> IsTerminal(publicState)
      ensures old(forcedRequested) ==> forcedRequested
    {
      if IsTerminal(publicState) {
        return Ok(ForceAlreadyTerminal);
      }
      if !abortAllowed {
        return Err(NotAllowed);
      }
      if !abortHandle {
        return Err(NoTrackedFuture);
      }
      if forcedRequested {
        return Ok(ForceAlreadyRequested);
      }
      forcedRequested := true;
      return Ok(ForceRequested);
    }

    // The exit of a body that a forced abort cut off: no stop cause, however late, overrides it.
    method ForcedExit() returns (exit: TaskExit)
      ensures exit == CutExit(true, stopCause) && exit == TaskExit.Aborted(stopCause)
      ensures forall stop :: Select(stop, exit) == exit
    {
      return TaskExit.Aborted(stopCause);
    }

    // The exit the runner prepares once its body is over, and then commits.
    method PrepareExit(end: BodyEnd) returns (exit: TaskExit)
      ensures exit.Aborted? <==> end.CutOff? && forcedRequested
      ensures exit.Aborted? ==> exit.precedingStop == stopCause && forall stop :: Select(stop, exit) == exit
      ensures end.CutOff? ==> exit == CutExit(forcedRequested, stopCause)
      ensures end.CutOff? && !forcedRequested ==> exit == TaskExit.ExecutorStopped(RuntimeUnavailable)
      ensures end.Returned? <==> exit.Completed?
      ensures end.Returned? ==> exit == TaskExit.Completed(end.value)
      ensures end.FactoryPanicked? ==> exit == TaskExit.Panicked(Factory, end.message)
      ensures end.Errored? ==> exit == TaskExit.Failed(Operation(end.error))
      ensures end.PanickedWith? && end.timer ==> exit == TaskExit.Failed(TimerUnavailable)
      ensures end.PanickedWith? && !end.timer ==> exit == TaskExit.Panicked(WorkFuture, end.message)
      ensures end.Errored? || (end.PanickedWith? && end.timer) <==> exit.Failed?
    {
      match end {
        case FactoryPanicked(message) => return TaskExit.Panicked(Factory, message);
        case Returned(value) => return TaskExit.Completed(value);
        case Errored(error) => return TaskExit.Failed(Operation(error));
        case PanickedWith(message, timer) =>
          if timer {
            return TaskExit.Failed(TimerUnavailable);
          }
          return TaskExit.Panicked(WorkFuture, message);
        case CutOff =>
          if forcedRequested {
            exit := ForcedExit();
            return;
          }
          return TaskExit.ExecutorStopped(RuntimeUnavailable);
      }
    }

    method BeginAttempt(attempt: nat)
      modifies this`currentAttempt, this`attemptAdmissionOpen
      ensures ChildrenView() == State.BeginAttempt(old(ChildrenView()), attempt)
      ensures currentAttempt == attempt && attemptAdmissionOpen == admissionOpen
    {
      currentAttempt := attempt;
      attemptAdmissionOpen := admissionOpen;
    }

    // The children returned are cancelled and awaited by the caller.
    method CloseAttemptChildren(attempt: nat) returns (taken: seq<Tracked>)
      modifies this`attemptAdmissionOpen, this`controls
      ensures ChildrenView() == CloseAttempt(old(ChildrenView()), attempt)
      ensures taken == Sift(old(controls), attempt, false)
      ensures attemptAdmissionOpen == (old(attemptAdmissionOpen) && currentAttempt != attempt)
      ensures forall t :: t in taken <==> t in old(controls) && t.attempt == attempt
      ensures forall t :: t in controls <==> t in old(controls) && t.attempt != attempt
    {
      if currentAttempt == attempt {
        attemptAdmissionOpen := false;
      }
      var all := controls;
      taken := [];
      var retained: seq<Tracked> := [];
      for i := 0 to |all|
        invariant taken == Sift(all[..i], attempt, false)
        invariant retained == Sift(all[..i], attempt, true)
      {
        assert all[..i + 1][..i] == all[..i];
        if all[i].attempt == attempt {
          taken := taken + [all[i]];
        } else {
          retained := retained + [all[i]];
        }
      }
      assert all[..|all|] == all;
      controls := retained;
    }

    method CloseChildren() returns (taken: seq<Tracked>)
      modifies this`admissionOpen, this`attemptAdmissionOpen, this`controls
      ensures ChildrenView() == CloseAll(old(ChildrenView())) && taken == old(controls)
      ensures !admissionOpen && !attemptAdmissionOpen && controls == []
    {
      admissionOpen := false;
      attemptAdmissionOpen := false;
      taken := controls;
      controls := [];
    }

    // `started` is the runtime's answer to spawning the child: its control, or nothing.
    method SpawnChild(attempt: nat, started: Option<ChildId>) returns (result: Result<ChildId, SpawnChildError>)
      modifies this`controls
      ensures result.Ok? <==> Admits(old(ChildrenView()), attempt, maxChildren) && started.Some?
      ensures result.Ok? ==> started == Some(result.value)
      ensures ChildrenView() == if result.Ok? then State.SpawnChild(old(ChildrenView()), attempt, result.value)
                                else old(ChildrenView())
      ensures result == Err(ParentClosing) <==>
              !admissionOpen || !attemptAdmissionOpen || currentAttempt != attempt
      ensures result == Err(LimitReached(maxChildren)) <==>
              admissionOpen && attemptAdmissionOpen && currentAttempt == attempt && |old(controls)| >= maxChildren
      ensures result.Ok? <==>
              && admissionOpen && attemptAdmissionOpen && currentAttempt == attempt
              && |old(controls)| < maxChildren && started.Some?
      ensures controls == if result.Ok? then old(controls) + [Tracked(attempt, result.value)] else old(controls)
    {
      if !admissionOpen || !attemptAdmissionOpen || currentAttempt != attempt {
        return Err(ParentClosing);
      }
      if |controls| >= maxChildren {
        return Err(LimitReached(maxChildren));
      }
      match started {
        case None => return Err(ExecutorUnavailable);
        case Some(child) =>
          controls := controls + [Tracked(attempt, child)];
          return Ok(child);
      }
    }
  }
}
