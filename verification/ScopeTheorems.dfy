/** What rotations guarantee over every run of a scope. */
module ScopeTheorems {
  import opened Wrappers
  import opened ScopeState
  import opened ScopeSystem

  lemma TicketKept(cfg: Config, y: System, e: Event)
    requires Enabled(cfg, y, e) && TicketInv(y.family, y.processes)
    ensures TicketInv(Next(cfg, y, e).family, Next(cfg, y, e).processes)
  {}

  lemma KnownKept(cfg: Config, y: System, e: Event)
    requires Enabled(cfg, y, e) && KnownInv(y.family, y.processes, y.home)
    ensures KnownInv(Next(cfg, y, e).family, Next(cfg, y, e).processes, Next(cfg, y, e).home)
  {}

  // The next number is above every number in use.
  lemma RotateNumbers(f: Family, reserved: ScopeId, policy: RotationPolicy, created: seq<nat>)
    requires NumberInv(f, created) && Known(f) && reserved !in f.generations
    ensures NumberInv(Rotate(f, reserved, policy), created + [f.nextGeneration])
  {}

  lemma SameNumbers(f: Family, f': Family, created: seq<nat>)
    requires NumberInv(f, created) && f'.nextGeneration == f.nextGeneration
    requires forall id :: id in f'.generations <==> id in f.generations
    requires forall id | id in f.generations :: f'.generations[id].number == f.generations[id].number
    ensures NumberInv(f', created)
  {}

  lemma NumberKept(cfg: Config, y: System, e: Event)
    requires Enabled(cfg, y, e) && NumberInv(y.family, y.created)
    ensures NumberInv(Next(cfg, y, e).family, Next(cfg, y, e).created)
  {
    hide NumberInv, Rotate;
    match e {
      case Rotation(reserved, policy) => RotateNumbers(y.family, reserved, policy, y.created);
      case _ => SameNumbers(y.family, Next(cfg, y, e).family, y.created);
    }
  }

  lemma TrackKept(cfg: Config, y: System, e: Event)
    requires Enabled(cfg, y, e) && TrackInv(y.family, y.home, y.done)
    ensures TrackInv(Next(cfg, y, e).family, Next(cfg, y, e).home, Next(cfg, y, e).done)
  {}

  lemma StrictKept(cfg: Config, y: System, e: Event)
    requires Enabled(cfg, y, e) && StrictInv(y.family, y.processes, y.home, y.done) && !cfg.availability
    requires TrackInv(y.family, y.home, y.done) && TicketInv(y.family, y.processes)
    ensures StrictInv(Next(cfg, y, e).family, Next(cfg, y, e).processes, Next(cfg, y, e).home, Next(cfg, y, e).done)
  {}

  lemma StepKeeps(cfg: Config, y: System, e: Event)
    requires Enabled(cfg, y, e) && SystemInv(cfg, y)
    ensures SystemInv(cfg, Next(cfg, y, e))
  {
    hide Next, TicketInv, KnownInv, NumberInv, TrackInv, StrictInv, Enabled;
    TicketKept(cfg, y, e);
    KnownKept(cfg, y, e);
    NumberKept(cfg, y, e);
    TrackKept(cfg, y, e);
    if !cfg.availability {
      StrictKept(cfg, y, e);
    }
  }

  lemma {:induction false} RunKeeps(cfg: Config, y: System, events: seq<Event>)
    requires Legal(cfg, y, events) && SystemInv(cfg, y)
    ensures SystemInv(cfg, After(cfg, y, events))
    decreases |events|
  {
    hide SystemInv, Next, Enabled;
    if events != [] {
      StepKeeps(cfg, y, events[0]);
      RunKeeps(cfg, Next(cfg, y, events[0]), events[1..]);
    }
  }

  lemma Reached(cfg: Config, id: ScopeId, events: seq<Event>)
    requires Legal(cfg, Start(id), events)
    ensures SystemInv(cfg, After(cfg, Start(id), events))
  {
    assert SystemInv(cfg, Start(id));
    RunKeeps(cfg, Start(id), events);
  }

  // ---------------------------------------------------------------- rotations

  // Generation numbers are handed out in strictly increasing order and never shared.
  lemma NumbersIncrease(cfg: Config, id: ScopeId, events: seq<Event>)
    requires Legal(cfg, Start(id), events)
    ensures var z := After(cfg, Start(id), events);
            && (forall i, j | 0 <= i < j < |z.created| :: z.created[i] < z.created[j])
            && (forall a, b | a in z.family.generations && b in z.family.generations && a != b ::
                  z.family.generations[a].number != z.family.generations[b].number)
  {
    Reached(cfg, id, events);
  }

  /** Rotations never overlap: a supervisor that switches holds the scope's last ticket, so the
      mismatch outcome cannot occur and only one supervisor is ever at work. */
  lemma MismatchUnreachable(cfg: Config, id: ScopeId, events: seq<Event>, ticket: nat)
    requires Legal(cfg, Start(id), events) && ticket in After(cfg, Start(id), events).processes
    ensures var z := After(cfg, Start(id), events); var p := z.processes[ticket];
            && (Enabled(cfg, z, Switch(ticket)) ==> !OutcomeOf(z.family, ticket, p.cancelled).Failed?)
            && (p.phase.Over? ==> !p.phase.outcome.Failed?)
            && (!p.phase.Over? <==> z.family.rotating && ticket == z.family.ticket)
  {
    Reached(cfg, id, events);
    var z := After(cfg, Start(id), events);
    assert TicketInv(z.family, z.processes);
  }

  lemma ShutStep(cfg: Config, y: System, e: Event, id: ScopeId)
    requires Enabled(cfg, y, e)
    requires id in y.family.generations && (y.family.closed || !y.family.generations[id].open)
    ensures var z := Next(cfg, y, e);
            && id in z.family.generations && (z.family.closed || !z.family.generations[id].open)
            && (forall x | x in z.home && z.home[x] == id :: x in y.home && y.home[x] == id)
  {}

  // A generation that has been left behind, or whose scope is closed, admits nothing ever again.
  lemma {:induction false} ShutForever(cfg: Config, y: System, events: seq<Event>, id: ScopeId)
    requires Legal(cfg, y, events)
    requires id in y.family.generations && (y.family.closed || !y.family.generations[id].open)
    ensures var z := After(cfg, y, events);
            forall x | x in z.home && z.home[x] == id :: x in y.home && y.home[x] == id
    decreases |events|
  {
    if events != [] {
      ShutStep(cfg, y, events[0], id);
      hide Next, Enabled;
      ShutForever(cfg, Next(cfg, y, events[0]), events[1..], id);
    }
  }

  // ---------------------------------------------------------------- separation of generations

  // No two executions of different generations are live at once.
  ghost predicate Separated(home: map<ExecutionId, ScopeId>, done: set<ExecutionId>) {
    forall a, b | a in Live(home, done) && b in Live(home, done) :: home[a] == home[b]
  }

  ghost predicate RunSeparates(cfg: Config, id: ScopeId, events: seq<Event>) {
    Legal(cfg, Start(id), events) ==>
      Separated(After(cfg, Start(id), events).home, After(cfg, Start(id), events).done)
  }

  lemma StrictSeparates(cfg: Config, id: ScopeId, events: seq<Event>)
    requires !cfg.availability
    ensures RunSeparates(cfg, id, events)
  {
    if Legal(cfg, Start(id), events) {
      Reached(cfg, id, events);
      var z := After(cfg, Start(id), events);
      assert StrictInv(z.family, z.processes, z.home, z.done);
    }
  }

  function Overlap(id: ScopeId, reserved: ScopeId, a: ExecutionId, b: ExecutionId): seq<Event> {
    [Spawn(id, a), Rotation(reserved, AvailabilityFirst), Spawn(reserved, b)]
  }

  lemma Prepend(cfg: Config, y: System, e: Event, rest: seq<Event>)
    requires Enabled(cfg, y, e) && Legal(cfg, Next(cfg, y, e), rest)
    ensures Legal(cfg, y, [e] + rest) && After(cfg, y, [e] + rest) == After(cfg, Next(cfg, y, e), rest)
  {
    assert ([e] + rest)[1..] == rest;
  }

  lemma AvailabilityOverlaps(cfg: Config, id: ScopeId, reserved: ScopeId, a: ExecutionId, b: ExecutionId)
    requires cfg.availability && id != reserved && a != b
    ensures !RunSeparates(cfg, id, Overlap(id, reserved, a, b))
  {
    var y1 := Next(cfg, Start(id), Spawn(id, a));
    var y2 := Next(cfg, y1, Rotation(reserved, AvailabilityFirst));
    var z := Next(cfg, y2, Spawn(reserved, b));
    Prepend(cfg, y2, Spawn(reserved, b), []);
    Prepend(cfg, y1, Rotation(reserved, AvailabilityFirst), [Spawn(reserved, b)]);
    Prepend(cfg, Start(id), Spawn(id, a), [Rotation(reserved, AvailabilityFirst), Spawn(reserved, b)]);
    assert Overlap(id, reserved, a, b) == [Spawn(id, a)] + [Rotation(reserved, AvailabilityFirst), Spawn(reserved, b)];
    assert a in Live(z.home, z.done) && b in Live(z.home, z.done) && z.home[a] != z.home[b];
  }

  /** Executions of different generations never overlap in any run exactly when every rotation
      requested is strict. */
  lemma StrictRotationSeparates(cfg: Config, id: ScopeId, reserved: ScopeId, a: ExecutionId, b: ExecutionId)
    requires id != reserved && a != b
    ensures (forall events :: RunSeparates(cfg, id, events)) <==> !cfg.availability
  {
    hide RunSeparates;
    if cfg.availability {
      AvailabilityOverlaps(cfg, id, reserved, a, b);
    } else {
      forall events ensures RunSeparates(cfg, id, events) {
        StrictSeparates(cfg, id, events);
      }
    }
  }
}
