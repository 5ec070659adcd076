/** Rotations of a scope among spawners, finishing executions, cancellers and closers. */
module ScopeSystem {
  import opened Wrappers
  import opened ScopeState

  datatype Config = Config(availability: bool)   // whether availability-first rotations are requested

  datatype Phase =
    | Collecting
    | Joining(controls: set<ExecutionId>)
    | Switching
    | Over(outcome: RotationOutcome)

  datatype Process = Process(retired: ScopeId, reserved: ScopeId, policy: RotationPolicy, cancelled: bool, phase: Phase)

  datatype System = System(
    family: Family,
    processes: map<nat, Process>,          // supervisors by rotation ticket
    home: map<ExecutionId, ScopeId>,       // admitted executions and their generation
    done: set<ExecutionId>,                // terminal executions
    created: seq<nat>)                     // generation numbers, in order of creation

  function Start(id: ScopeId): System {
    System(NewFamily(id), map[], map[], {}, [1])
  }

  datatype Event =
    | Rotation(reserved: ScopeId, policy: RotationPolicy)
    | Collect(ticket: nat)
    | Joined(ticket: nat)
    | Switch(ticket: nat)
    | CancelPending(ticket: nat)
    | Spawn(id: ScopeId, execution: ExecutionId)
    | Ends(execution: ExecutionId)
    | Forget(execution: ExecutionId)
    | CloseScope

  predicate InPhase(y: System, ticket: nat, collecting: bool) {
    && ticket in y.processes
    && if collecting then y.processes[ticket].phase.Collecting? else y.processes[ticket].phase.Joining?
  }

  predicate Enabled(cfg: Config, y: System, e: Event) {
    match e
    case Rotation(reserved, policy) =>
      && Known(y.family) && reserved !in y.family.generations
      && RotationError(y.family, policy, false).None? && (policy.AvailabilityFirst? ==> cfg.availability)
    case Collect(ticket) => InPhase(y, ticket, true) && y.processes[ticket].retired in y.family.generations
    case Joined(ticket) =>
      InPhase(y, ticket, false) && (y.processes[ticket].policy.Strict? ==> y.processes[ticket].phase.controls <= y.done)
    case Switch(ticket) =>
      && ticket in y.processes && y.processes[ticket].phase.Switching?
      && y.processes[ticket].reserved in y.family.generations
    case CancelPending(ticket) => ticket in y.processes
    case Spawn(id, execution) =>
      id in y.family.generations && CheckCurrent(y.family, id).None? && execution !in y.home
    case Ends(execution) => execution in y.home
    case Forget(execution) => execution in y.done && execution in y.home && y.home[execution] in y.family.generations
    case CloseScope => Known(y.family)
  }

  function At(y: System, ticket: nat, phase: Phase): map<nat, Process>
    requires ticket in y.processes
  {
    y.processes[ticket := y.processes[ticket].(phase := phase)]
  }

  function Next(cfg: Config, y: System, e: Event): System
    requires Enabled(cfg, y, e)
  {
    match e
    case Rotation(reserved, policy) =>
      var f := Rotate(y.family, reserved, policy);
      y.(family := f, created := y.created + [y.family.nextGeneration],
         processes := y.processes[f.ticket := Process(y.family.current, reserved, policy, false, Collecting)])
    case Collect(ticket) =>
      y.(processes := At(y, ticket, Joining(y.family.generations[y.processes[ticket].retired].controls)))
    case Joined(ticket) => y.(processes := At(y, ticket, Switching))
    case Switch(ticket) =>
      var p := y.processes[ticket];
      y.(family := FinishRotation(y.family, p.reserved, ticket, p.policy, p.cancelled),
         processes := At(y, ticket, Over(OutcomeOf(y.family, ticket, p.cancelled))))
    case CancelPending(ticket) => y.(processes := y.processes[ticket := y.processes[ticket].(cancelled := true)])
    case Spawn(id, execution) => y.(family := Track(y.family, id, execution), home := y.home[execution := id])
    case Ends(execution) => y.(done := y.done + {execution})
    case Forget(execution) => y.(family := Untrack(y.family, y.home[execution], execution))
    case CloseScope => y.(family := Close(y.family))
  }

  ghost predicate Legal(cfg: Config, y: System, events: seq<Event>)
    decreases |events|
  {
    events == [] || (Enabled(cfg, y, events[0]) && Legal(cfg, Next(cfg, y, events[0]), events[1..]))
  }

  ghost function After(cfg: Config, y: System, events: seq<Event>): System
    requires Legal(cfg, y, events)
    decreases |events|
  {
    if events == [] then y else After(cfg, Next(cfg, y, events[0]), events[1..])
  }

  // ---------------------------------------------------------------- invariants

  // Admitted and not yet terminal.
  function Live(home: map<ExecutionId, ScopeId>, done: set<ExecutionId>): set<ExecutionId> {
    home.Keys - done
  }

  // A rotation is in progress exactly while the supervisor of the last ticket is not over.
  ghost predicate TicketInv(f: Family, processes: map<nat, Process>) {
    && (forall t | t in processes :: t <= f.ticket)
    && (forall t | t in processes && t < f.ticket :: processes[t].phase.Over?)
    && (f.rotating ==> f.ticket in processes && !processes[f.ticket].phase.Over?)
    && (!f.rotating && f.ticket in processes ==> processes[f.ticket].phase.Over?)
    && (forall t | t in processes :: processes[t].phase.Over? ==> !processes[t].phase.outcome.Failed?)
  }

  ghost predicate KnownInv(f: Family, processes: map<nat, Process>, home: map<ExecutionId, ScopeId>) {
    && Known(f)
    && (forall t | t in processes :: processes[t].retired in f.generations && processes[t].reserved in f.generations)
    && (forall x | x in home :: home[x] in f.generations)
  }

  // Numbers strictly increase, and every generation has one of them.
  ghost predicate NumberInv(f: Family, created: seq<nat>) {
    && (forall i, j | 0 <= i < j < |created| :: created[i] < created[j])
    && (forall i | 0 <= i < |created| :: created[i] < f.nextGeneration)
    && (forall id | id in f.generations :: f.generations[id].number < f.nextGeneration)
    && (forall a, b | a in f.generations && b in f.generations && a != b ::
          f.generations[a].number != f.generations[b].number)
  }

  // A live execution is tracked by its generation.
  ghost predicate TrackInv(f: Family, home: map<ExecutionId, ScopeId>, done: set<ExecutionId>) {
    forall x | x in Live(home, done) :: home[x] in f.generations && x in f.generations[home[x]].controls
  }

  // The supervisor of a strict rotation joins every live execution before it switches.
  ghost predicate JoinInv(f: Family, p: Process, live: set<ExecutionId>) {
    && p.retired == f.current && p.retired in f.generations && !f.generations[p.retired].open
    && (p.phase.Joining? ==> live <= p.phase.controls)
    && (p.phase.Switching? ==> live == {})
  }

  // With strict rotations only, live executions belong to the current generation.
  ghost predicate StrictInv(f: Family, processes: map<nat, Process>, home: map<ExecutionId, ScopeId>,
                            done: set<ExecutionId>) {
    && (forall x | x in Live(home, done) :: home[x] == f.current)
    && (forall t | t in processes :: processes[t].policy.Strict?)
    && (f.rotating && f.ticket in processes ==> JoinInv(f, processes[f.ticket], Live(home, done)))
  }

  ghost predicate SystemInv(cfg: Config, y: System) {
    && TicketInv(y.family, y.processes)
    && KnownInv(y.family, y.processes, y.home)
    && NumberInv(y.family, y.created)
    && TrackInv(y.family, y.home, y.done)
    && (!cfg.availability ==> StrictInv(y.family, y.processes, y.home, y.done))
  }
}
