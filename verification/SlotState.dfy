/**
 A task slot: the state behind its mutex and one step function per lock-held block. `TaskSlot` keeps
 the same state in mutable fields.
 */
module SlotState {
  import opened Wrappers

  type ExecutionId(==, !new)
  type TaskSpecId(==, !new)

  datatype ReplacePolicy = StrictSingleInstance | AvailabilityFirst

  datatype Slot = Slot(
    revision: Option<nat>,
    specId: Option<TaskSpecId>,
    transaction: nat,
    current: Option<ExecutionId>,
    last: Option<ExecutionId>,
    closed: bool)

  const NewSlot: Slot := Slot(None, None, 0, None, None, false)

  datatype ReplaceError =
    | Closed
    | WouldJoin(execution: ExecutionId)
    | StaleRevision(current: nat, proposed: nat)
    | RevisionConflict(revision: nat)
    | RevisionInProgress(revision: nat)
    | SequenceExhausted

  // A request is answered at once with the execution of the same revision, or accepted.
  datatype Reply = Existing(control: ExecutionId) | Accepted(transaction: nat, previous: Option<ExecutionId>)

  // `joining` holds the executions the caller itself runs in.
  function ReplaceReply(s: Slot, revision: nat, spec: TaskSpecId, policy: ReplacePolicy, joining: set<ExecutionId>)
    : Result<Reply, ReplaceError>
  {
    if s.closed then Err(Closed)
    else if policy.StrictSingleInstance? && s.current.Some? && s.current.value in joining then
      Err(WouldJoin(s.current.value))
    else if s.revision.Some? && revision < s.revision.value then Err(StaleRevision(s.revision.value, revision))
    else if s.revision == Some(revision) then
      if s.specId != Some(spec) then Err(RevisionConflict(revision))
      else if s.current.Some? then Ok(Existing(s.current.value))
      else if s.last.Some? then Ok(Existing(s.last.value))
      else Err(RevisionInProgress(revision))
    else if s.transaction + 1 > U64_MAX then Err(SequenceExhausted)
    else Ok(Accepted(s.transaction + 1, s.current))
  }

  function Accept(s: Slot, revision: nat, spec: TaskSpecId): Slot {
    s.(transaction := s.transaction + 1, revision := Some(revision), specId := Some(spec))
  }

  predicate Superseded(s: Slot, transaction: nat, revision: nat) {
    s.closed || s.transaction != transaction || s.revision != Some(revision)
  }

  function Publish(s: Slot, execution: ExecutionId): Slot {
    s.(current := Some(execution), last := Some(execution))
  }

  function MonitorFires(s: Slot, transaction: nat, execution: ExecutionId): Slot {
    if s.transaction == transaction && s.current == Some(execution) then s.(current := None) else s
  }

  function Close(s: Slot): Slot {
    s.(closed := true, transaction := if s.transaction + 1 > U64_MAX then s.transaction else s.transaction + 1,
       current := None, last := None)
  }

  class TaskSlot {
    var revision: Option<nat>
    var specId: Option<TaskSpecId>
    var transaction: nat
    var current: Option<ExecutionId>
    var last: Option<ExecutionId>
    var closed: bool

    ghost function View(): Slot
      reads this
    {
      Slot(revision, specId, transaction, current, last, closed)
    }

    constructor ()
      ensures View() == NewSlot
    {
      revision, specId, transaction := None, None, 0;
      current, last, closed := None, None, false;
    }

    // A strict request would wait for an execution that its caller runs in.
    ghost predicate Joins(policy: ReplacePolicy, joining: set<ExecutionId>)
      reads this`current, this`closed
    {
      !closed && policy.StrictSingleInstance? && current.Some? && current.value in joining
    }

    method Replace(proposed: nat, spec: TaskSpecId, policy: ReplacePolicy, joining: set<ExecutionId>)
      returns (result: Result<Reply, ReplaceError>)
      modifies this`transaction, this`revision, this`specId
      ensures result == ReplaceReply(old(View()), proposed, spec, policy, joining)
      ensures View() == if result.Ok? && result.value.Accepted? then Accept(old(View()), proposed, spec)
                        else old(View())
      ensures result == Err(ReplaceError.Closed) <==> closed
      ensures result.Err? && result.error.WouldJoin? <==> Joins(policy, joining)
      ensures result.Err? && result.error.WouldJoin? ==> Some(result.error.execution) == current
      ensures result.Err? && result.error.StaleRevision? <==>
              !closed && !Joins(policy, joining) && old(revision).Some? && proposed < old(revision).value
      ensures result.Err? && result.error.StaleRevision? ==>
                Some(result.error.current) == old(revision) && result.error.proposed == proposed
      ensures result == Err(RevisionConflict(proposed)) <==>
              !closed && !Joins(policy, joining) && old(revision) == Some(proposed) && old(specId) != Some(spec)
      ensures result.Ok? && result.value.Existing? <==>
              && !closed && !Joins(policy, joining) && old(revision) == Some(proposed) && old(specId) == Some(spec)
              && (current.Some? || last.Some?)
      ensures result.Ok? && result.value.Existing? ==>
                Some(result.value.control) == if current.Some? then current else last
      ensures result == Err(RevisionInProgress(proposed)) <==>
              && !closed && !Joins(policy, joining) && old(revision) == Some(proposed) && old(specId) == Some(spec)
              && current.None? && last.None?
      ensures result == Err(SequenceExhausted) <==>
              && !closed && !Joins(policy, joining) && old(transaction) >= U64_MAX
              && (old(revision).Some? ==> proposed > old(revision).value)
      ensures result.Ok? && result.value.Accepted? <==>
              && !closed && !Joins(policy, joining) && old(transaction) < U64_MAX
              && (old(revision).Some? ==> proposed > old(revision).value)
      ensures if result.Ok? && result.value.Accepted? then
                && result.value == Accepted(old(transaction) + 1, current) && transaction == old(transaction) + 1
                && revision == Some(proposed) && specId == Some(spec)
              else transaction == old(transaction) && revision == old(revision) && specId == old(specId)
    {
      if closed {
        return Err(ReplaceError.Closed);
      }
      if policy.StrictSingleInstance? {
        if current.Some? && current.value in joining {
          return Err(WouldJoin(current.value));
        }
      }
      match revision {
        case Some(present) =>
          if proposed < present {
            return Err(StaleRevision(present, proposed));
          }
          if proposed == present {
            if specId != Some(spec) {
              return Err(RevisionConflict(proposed));
            }
            if current.Some? {
              return Ok(Existing(current.value));
            }
            if last.Some? {
              return Ok(Existing(last.value));
            }
            return Err(RevisionInProgress(proposed));
          }
        case None =>
      }
      if transaction + 1 > U64_MAX {
        return Err(SequenceExhausted);
      }
      transaction := transaction + 1;
      revision := Some(proposed);
      specId := Some(spec);
      return Ok(Accepted(transaction, current));
    }

    method PublishExecution(owner: nat, accepted: nat, execution: ExecutionId) returns (published: bool)
      modifies this`current, this`last
      ensures published == !Superseded(old(View()), owner, accepted)
      ensures View() == if published then Publish(old(View()), execution) else old(View())
      ensures published <==> !closed && transaction == owner && revision == Some(accepted)
      ensures current == (if published then Some(execution) else old(current))
      ensures last == (if published then Some(execution) else old(last))
    {
      if closed || transaction != owner || revision != Some(accepted) {
        return false;
      }
      current := Some(execution);
      last := Some(execution);
      return true;
    }

    method ClearFinished(owner: nat, execution: ExecutionId)
      modifies this`current
      ensures View() == MonitorFires(old(View()), owner, execution)
      ensures current == if transaction == owner && old(current) == Some(execution) then None else old(current)
    {
      if transaction == owner && current.Some? && current.value == execution {
        current := None;
      }
    }

    method CloseSlot() returns (cancelled: Option<ExecutionId>)
      modifies this
      ensures View() == Close(old(View())) && cancelled == old(current)
      ensures closed && current.None? && last.None? && revision == old(revision) && specId == old(specId)
      ensures transaction == if old(transaction) >= U64_MAX then old(transaction) else old(transaction) + 1
    {
      closed := true;
      if transaction + 1 <= U64_MAX {
        transaction := transaction + 1;
      }
      cancelled := current;
      current := None;
      last := None;
    }
  }
}
