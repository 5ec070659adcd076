/**
 A scope family: the state behind its mutex, its generations, and one step function per lock-held
 block. `Scope` keeps the same state in mutable fields.
 */
module ScopeState {
  import opened Wrappers

  type ScopeId(==, !new)
  type ExecutionId(==, !new)

  datatype RotationPolicy = Strict | AvailabilityFirst

  datatype Generation = Generation(number: nat, open: bool, controls: set<ExecutionId>)

  datatype Family = Family(
    current: ScopeId,
    nextGeneration: nat,
    rotating: bool,
    ticket: nat,
    closed: bool,
    generations: map<ScopeId, Generation>)

  datatype ScopeError = Closed | RotationInProgress | WouldJoin | SequenceExhausted

  datatype SpawnError = ScopeClosed | StaleGeneration

  datatype RotationOutcome = Rotated | Cancelled | Failed

  function NewFamily(id: ScopeId): Family {
    Family(id, 2, false, 0, false, map[id := Generation(1, true, {})])
  }

  predicate Known(f: Family) {
    f.current in f.generations
  }

  function Shut(f: Family, id: ScopeId): map<ScopeId, Generation>
    requires id in f.generations
  {
    f.generations[id := f.generations[id].(open := false)]
  }

  // `joining` says that a strict rotation is requested from within one of the tracked executions.
  function RotationError(f: Family, policy: RotationPolicy, joining: bool): Option<ScopeError> {
    if f.closed then Some(Closed)
    else if f.rotating then Some(RotationInProgress)
    else if policy.Strict? && joining then Some(WouldJoin)
    else if f.ticket + 1 > U64_MAX || f.nextGeneration + 1 > U64_MAX then Some(SequenceExhausted)
    else None
  }

  function Rotate(f: Family, reserved: ScopeId, policy: RotationPolicy): Family
    requires Known(f)
  {
    f.(rotating := true, ticket := f.ticket + 1, nextGeneration := f.nextGeneration + 1,
       generations := Shut(f, f.current)[reserved := Generation(f.nextGeneration, true, {})],
       current := if policy.AvailabilityFirst? then reserved else f.current)
  }

  function OutcomeOf(f: Family, ticket: nat, cancelled: bool): RotationOutcome {
    if f.ticket != ticket then Failed else if cancelled then Cancelled else Rotated
  }

  function FinishRotation(f: Family, reserved: ScopeId, ticket: nat, policy: RotationPolicy, cancelled: bool): Family
    requires reserved in f.generations
  {
    match OutcomeOf(f, ticket, cancelled)
    case Failed => f
    case Cancelled => f.(generations := Shut(f, reserved), closed := true, rotating := false)
    case Rotated => f.(current := if policy.Strict? then reserved else f.current, rotating := false)
  }

  function CheckCurrent(f: Family, id: ScopeId): Option<SpawnError>
    requires id in f.generations
  {
    if f.closed then Some(ScopeClosed)
    else if f.current != id || !f.generations[id].open then Some(StaleGeneration)
    else None
  }

  function Track(f: Family, id: ScopeId, execution: ExecutionId): Family
    requires id in f.generations
  {
    var g := f.generations[id];
    f.(generations := f.generations[id := g.(controls := g.controls + {execution})])
  }

  function Untrack(f: Family, id: ScopeId, execution: ExecutionId): Family
    requires id in f.generations
  {
    var g := f.generations[id];
    f.(generations := f.generations[id := g.(controls := g.controls - {execution})])
  }

  function Close(f: Family): Family
    requires Known(f)
  {
    f.(closed := true, generations := Shut(f, f.current))
  }

  class Scope {
    var current: ScopeId
    var nextGeneration: nat
    var rotating: bool
    var rotationTicket: nat
    var closed: bool
    var generations: map<ScopeId, Generation>

    ghost function View(): Family
      reads this
    {
      Family(current, nextGeneration, rotating, rotationTicket, closed, generations)
    }

    constructor (id: ScopeId)
      ensures View() == NewFamily(id)
    {
      current, nextGeneration := id, 2;
      rotating, rotationTicket, closed := false, 0, false;
      generations := map[id := Generation(1, true, {})];
    }

    // On success the caller spawns the supervisor of `ticket`, which ends with `EndRotation`.
    method RotateTo(reserved: ScopeId, policy: RotationPolicy, joining: bool)
      returns (result: Result<(ScopeId, nat), ScopeError>)
      requires Known(View()) && reserved !in generations
      modifies this
      ensures match RotationError(old(View()), policy, joining)
              case Some(error) => result == Err(error) && View() == old(View())
              case None => View() == Rotate(old(View()), reserved, policy) &&
                           result == Ok((old(current), rotationTicket))
      ensures result == Err(ScopeError.Closed) <==> closed
      ensures result == Err(RotationInProgress) <==> !closed && old(rotating)
      ensures result == Err(WouldJoin) <==> !closed && !old(rotating) && policy.Strict? && joining
      ensures result == Err(SequenceExhausted) <==>
              && !closed && !old(rotating) && !(policy.Strict? && joining)
              && (old(rotationTicket) >= U64_MAX || old(nextGeneration) >= U64_MAX)
      ensures result.Ok? ==>
                && rotating && rotationTicket == old(rotationTicket) + 1 && nextGeneration == old(nextGeneration) + 1
                && current == (if policy.AvailabilityFirst? then reserved else old(current))
                && generations.Keys == old(generations).Keys + {reserved}
                && generations[reserved] == Generation(old(nextGeneration), true, {})
                && generations[old(current)] == old(generations)[old(current)].(open := false)
                && forall id | id in old(generations) && id != old(current) :: generations[id] == old(generations)[id]
      ensures closed == old(closed)
    {
      if closed {
        return Err(ScopeError.Closed);
      }
      if rotating {
        return Err(RotationInProgress);
      }
      if policy.Strict? && joining {
        return Err(WouldJoin);
      }
      if rotationTicket + 1 > U64_MAX {
        return Err(SequenceExhausted);
      }
      if nextGeneration + 1 > U64_MAX {
        return Err(SequenceExhausted);
      }
      rotating := true;
      rotationTicket := rotationTicket + 1;
      generations := generations[current := generations[current].(open := false)];
      var retired := current;
      generations := generations[reserved := Generation(nextGeneration, true, {})];
      nextGeneration := nextGeneration + 1;
      if policy.AvailabilityFirst? {
        current := reserved;
      }
      return Ok((retired, rotationTicket));
    }

    method EndRotation(reserved: ScopeId, ticket: nat, policy: RotationPolicy, cancelled: bool)
      returns (outcome: RotationOutcome)
      requires reserved in generations
      modifies this`current, this`rotating, this`closed, this`generations
      ensures outcome == OutcomeOf(old(View()), ticket, cancelled)
      ensures outcome.Failed? <==> rotationTicket != ticket
      ensures outcome.Cancelled? <==> rotationTicket == ticket && cancelled
      ensures outcome.Failed? ==> View() == old(View())
      ensures outcome.Cancelled? ==>
                && closed && !rotating && current == old(current)
                && generations == old(generations)[reserved := old(generations)[reserved].(open := false)]
      ensures outcome.Rotated? ==>
                && closed == old(closed) && !rotating && generations == old(generations)
                && current == if policy.Strict? then reserved else old(current)
      ensures View() == FinishRotation(old(View()), reserved, ticket, policy, cancelled)
    {
      if rotationTicket != ticket {
        return Failed;
      }
      if cancelled {
        generations := generations[reserved := generations[reserved].(open := false)];
        closed := true;
        rotating := false;
        return Cancelled;
      }
      if policy.Strict? {
        current := reserved;
      }
      rotating := false;
      return Rotated;
    }

    // `admitted` is what the lane answers while the scope is locked.
    method TrySpawn(id: ScopeId, admitted: Option<ExecutionId>)
      returns (result: Result<Option<ExecutionId>, SpawnError>)
      requires id in generations
      modifies this`generations
      ensures match CheckCurrent(old(View()), id)
              case Some(error) => result == Err(error) && View() == old(View())
              case None => result == Ok(admitted) &&
                           View() == if admitted.Some? then Track(old(View()), id, admitted.value) else old(View())
      ensures result == Err(ScopeClosed) <==> closed
      ensures result == Err(StaleGeneration) <==> !closed && (current != id || !old(generations)[id].open)
      ensures result.Ok? ==> result.value == admitted
      ensures generations ==
              if result.Ok? && admitted.Some? then
                var g := old(generations)[id];
                old(generations)[id := g.(controls := g.controls + {admitted.value})]
              else old(generations)
    {
      if closed {
        return Err(ScopeClosed);
      }
      var generation := generations[id];
      if current != id || !generation.open {
        return Err(StaleGeneration);
      }
      if admitted.Some? {
        generations := generations[id := generation.(controls := generation.controls + {admitted.value})];
      }
      return Ok(admitted);
    }

    method CloseScope()
      requires Known(View())
      modifies this`closed, this`generations
      ensures View() == Close(old(View()))
      ensures closed && generations == old(generations)[current := old(generations)[current].(open := false)]
    {
      closed := true;
      generations := generations[current := generations[current].(open := false)];
    }
  }
}
