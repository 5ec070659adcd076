/** Replace transactions of a slot among their supervisors, their monitors and closers. */
module SlotSystem {
  import opened Wrappers
  import opened SlotState

  datatype Phase =
    | Waiting                          // a strict transaction awaits the execution it replaces
    | Spawning                         // about to try the lane
    | Spawned(execution: ExecutionId)  // admitted, not yet published
    | Published(execution: ExecutionId)
    | Watched(execution: ExecutionId)  // its monitor has run
    | Ended                            // superseded or refused

  datatype Supervisor = Supervisor(
    revision: nat, policy: ReplacePolicy, previous: Option<ExecutionId>, phase: Phase)

  // The lane's answer to one admission attempt.
  datatype Answer = Full | Refused | Admitted(execution: ExecutionId)

  datatype System = System(
    slot: Slot,
    supervisors: map<nat, Supervisor>,         // by transaction
    owner: map<ExecutionId, nat>,              // spawned executions and their transaction
    done: set<ExecutionId>)                    // terminal executions

  const Start: System := System(NewSlot, map[], map[], {})

  datatype Event =
    | Request(revision: nat, spec: TaskSpecId, policy: ReplacePolicy)
    | Proceed(t: nat)
    | TrySpawn(t: nat, answer: Answer)
    | PublishResult(t: nat)
    | Monitor(t: nat)
    | Ends(execution: ExecutionId)
    | CloseSlot

  predicate Accepts(s: Slot, e: Event)
    requires e.Request?
  {
    var reply := ReplaceReply(s, e.revision, e.spec, e.policy, {});
    reply.Ok? && reply.value.Accepted?
  }

  predicate Enabled(y: System, e: Event) {
    match e
    case Request(_, _, _) => Accepts(y.slot, e)
    case Proceed(t) =>
      && t in y.supervisors && y.supervisors[t].phase.Waiting?
      && (y.supervisors[t].policy.StrictSingleInstance? && y.supervisors[t].previous.Some? ==>
            y.supervisors[t].previous.value in y.done)
    case TrySpawn(t, answer) =>
      && t in y.supervisors && y.supervisors[t].phase.Spawning?
      && (answer.Admitted? ==> answer.execution !in y.owner && answer.execution !in y.done)
    case PublishResult(t) => t in y.supervisors && y.supervisors[t].phase.Spawned?
    case Monitor(t) =>
      t in y.supervisors && y.supervisors[t].phase.Published? && y.supervisors[t].phase.execution in y.done
    case Ends(execution) => execution in y.owner
    case CloseSlot => true
  }

  function At(y: System, t: nat, phase: Phase): map<nat, Supervisor>
    requires t in y.supervisors
  {
    y.supervisors[t := y.supervisors[t].(phase := phase)]
  }

  function Tried(y: System, t: nat, answer: Answer): System
    requires t in y.supervisors
  {
    if Superseded(y.slot, t, y.supervisors[t].revision) then y.(supervisors := At(y, t, Ended))
    else match answer
      case Full => y
      case Refused => y.(supervisors := At(y, t, Ended))
      case Admitted(execution) =>
        y.(supervisors := At(y, t, Spawned(execution)), owner := y.owner[execution := t])
  }

  function Next(y: System, e: Event): System
    requires Enabled(y, e)
  {
    match e
    case Request(revision, spec, policy) =>
      y.(slot := Accept(y.slot, revision, spec),
         supervisors := y.supervisors[y.slot.transaction + 1 := Supervisor(revision, policy, y.slot.current, Waiting)])
    case Proceed(t) => y.(supervisors := At(y, t, Spawning))
    case TrySpawn(t, answer) => Tried(y, t, answer)
    case PublishResult(t) =>
      var execution := y.supervisors[t].phase.execution;
      if Superseded(y.slot, t, y.supervisors[t].revision) then y.(supervisors := At(y, t, Ended))
      else y.(slot := Publish(y.slot, execution), supervisors := At(y, t, Published(execution)))
    case Monitor(t) =>
      var execution := y.supervisors[t].phase.execution;
      y.(slot := MonitorFires(y.slot, t, execution), supervisors := At(y, t, Watched(execution)))
    case Ends(execution) => y.(done := y.done + {execution})
    case CloseSlot => y.(slot := Close(y.slot))
  }

  ghost predicate Legal(y: System, events: seq<Event>)
    decreases |events|
  {
    events == [] || (Enabled(y, events[0]) && Legal(Next(y, events[0]), events[1..]))
  }

  ghost function After(y: System, events: seq<Event>): System
    requires Legal(y, events)
    decreases |events|
  {
    if events == [] then y else After(Next(y, events[0]), events[1..])
  }

  // ---------------------------------------------------------------- invariants

  predicate Visible(p: Phase) {
    p.Published? || p.Watched?
  }

  predicate Holding(p: Phase) {
    p.Spawned? || p.Published? || p.Watched?
  }

  // Each execution belongs to the one transaction that spawned it.
  ghost predicate OwnerInv(y: System) {
    && (forall t | t in y.supervisors :: 1 <= t <= y.slot.transaction)
    && (forall t | t in y.supervisors && Holding(y.supervisors[t].phase) ::
          y.supervisors[t].phase.execution in y.owner && y.owner[y.supervisors[t].phase.execution] == t)
    && (forall x | x in y.owner :: y.owner[x] in y.supervisors)
    && (y.slot.transaction in y.supervisors ==>
          y.slot.revision == Some(y.supervisors[y.slot.transaction].revision))
    && y.done <= y.owner.Keys
  }

  // The current execution was published by its transaction; unless a newer transaction has been
  // accepted since, its monitor has not run.
  ghost predicate CurrentInv(y: System) {
    && (y.slot.closed ==> y.slot.current.None? && y.slot.last.None?)
    && (y.slot.current.Some? ==>
          && y.slot.current.value in y.owner
          && var t := y.owner[y.slot.current.value];
             && t in y.supervisors && Visible(y.supervisors[t].phase)
             && y.supervisors[t].phase.execution == y.slot.current.value
             && (t == y.slot.transaction ==> y.supervisors[t].phase.Published?))
    && (!y.slot.closed && y.slot.transaction in y.supervisors && y.supervisors[y.slot.transaction].phase.Published? ==>
          y.slot.current == Some(y.supervisors[y.slot.transaction].phase.execution))
  }

  // The newest transaction still knows the execution it replaces.
  ghost predicate PreviousInv(y: System) {
    && (forall t | t in y.supervisors ::
          y.supervisors[t].previous.Some? ==> y.supervisors[t].previous.value in y.owner)
    && (forall t | t in y.supervisors && !y.supervisors[t].phase.Waiting? ::
          y.supervisors[t].policy.StrictSingleInstance? && y.supervisors[t].previous.Some? ==>
            y.supervisors[t].previous.value in y.done)
    && (!y.slot.closed && y.slot.transaction in y.supervisors && y.slot.current.Some? ==>
          var newest := y.supervisors[y.slot.transaction];
          || y.slot.current == newest.previous
          || (newest.phase.Published? && y.slot.current.value == newest.phase.execution))
  }

  ghost predicate SystemInv(y: System) {
    OwnerInv(y) && CurrentInv(y) && PreviousInv(y)
  }

  ghost predicate AllStrict(y: System) {
    forall t | t in y.supervisors :: y.supervisors[t].policy.StrictSingleInstance?
  }

  // In an open slot, a published execution is terminal or current.
  ghost predicate OnlyCurrent(y: System) {
    !y.slot.closed ==>
      forall t | t in y.supervisors && Visible(y.supervisors[t].phase) ::
        y.supervisors[t].phase.execution in y.done || y.slot.current == Some(y.supervisors[t].phase.execution)
  }

  // Of two published executions one is terminal.
  ghost predicate OneLive(y: System) {
    forall t, u | t in y.supervisors && u in y.supervisors && t != u &&
        Visible(y.supervisors[t].phase) && Visible(y.supervisors[u].phase) ::
      y.supervisors[t].phase.execution in y.done || y.supervisors[u].phase.execution in y.done
  }
}
