/** Every event preserves the system invariant, so it holds in every reachable state. */
module LaneRuns {
  import opened Wrappers
  import opened LaneState
  import opened LaneInvariant
  import opened LaneSystem

  // ---------------------------------------------------------------- steps of a producer

  // A producer that only moves to another phase.
  lemma MoveKeeps(cfg: Config, y: System, t: Ticket, phase: Phase)
    requires SystemInv(cfg, y) && t in y.desk.phases
    requires phase.Parking? ==> !y.lane.closing && (Full(cfg, y.lane) || y.lane.waiting[0] != t)
    requires phase.Asleep? ==> y.desk.phases[t].Parking? && t !in y.desk.permits
    requires phase.Published? || phase.Leaving? || (!y.desk.phases[t].Published? && !y.desk.phases[t].Leaving?)
    ensures SystemInv(cfg, Moved(y, t, phase))
  {
    hide Inv, FateInv, MonitorInv;
  }

  lemma EnlistDesk(full: bool, closing: bool, waiting: seq<Ticket>, d: Desk, next: nat, tickets: seq<Ticket>)
    requires TicketInv(waiting, d) && HeadInv(full, closing, waiting, d) && ClosedInv(closing, d)
    requires OrderInv(next, d.phases, tickets)
    requires WaitInv(waiting, |waiting|, next)
    ensures var d' := Move(d, Ticket(next), Polling);
            && TicketInv(waiting + [Ticket(next)], d')
            && HeadInv(full, closing, waiting + [Ticket(next)], d')
            && ClosedInv(closing, d')
            && OrderInv(next + 1, d'.phases, tickets)
  {
    var w := Ticket(next);
    var d' := Move(d, w, Polling);
    assert w !in waiting;
    assert forall t | t != w :: Covered(d', t) == Covered(d, t);
    assert Covered(d', w);
    assert waiting != [] ==> (waiting + [w])[0] == waiting[0] && waiting[0] in waiting;
  }

  lemma EnlistKeeps(cfg: Config, y: System)
    requires SystemInv(cfg, y) && NewWaiter(cfg, y.lane).Ok?
    ensures SystemInv(cfg, Enlisted(cfg, y))
  {
    hide FateInv, TicketInv, HeadInv, ClosedInv, OrderInv, QueueInv, RunInv, CountInv, SingleFlight;
    NewWaiterKeeps(cfg, y.lane);
    assert WaitInv(y.lane.waiting, |y.lane.waiting|, y.lane.nextWaiter);
    hide Inv, WaitInv;
    EnlistDesk(Full(cfg, y.lane), y.lane.closing, y.lane.waiting, y.desk, y.lane.nextWaiter, y.log.tickets);
  }

  lemma AdmissionKeeps(cfg: Config, y: System, t: Ticket, error: Option<SpawnError>)
    requires SystemInv(cfg, y) && t in y.desk.phases
    requires y.desk.phases[t].Polling? || y.desk.phases[t].Admitting?
    requires error == AdmissionError(cfg, y.lane, Some(t))
    requires error.Some?
    ensures SystemInv(cfg, Moved(y, t, Rejected(error.value)))
  {
    MoveKeeps(cfg, y, t, Rejected(error.value));
  }

  lemma CheckKeeps(cfg: Config, y: System, t: Ticket, open: bool)
    requires SystemInv(cfg, y) && InPhase(y, t, {Polling})
    ensures SystemInv(cfg, Moved(y, t, AfterCheck(cfg, y, t, open)))
  {
    hide SystemInv, Inv;
    if open && AdmissionError(cfg, y.lane, Some(t)).Some? {
      AdmissionKeeps(cfg, y, t, AdmissionError(cfg, y.lane, Some(t)));
    } else {
      MoveKeeps(cfg, y, t, AfterCheck(cfg, y, t, open));
    }
  }

  lemma ParkKeeps(cfg: Config, y: System, t: Ticket)
    requires SystemInv(cfg, y) && InPhase(y, t, {Parking})
    ensures SystemInv(cfg, Parked(y, t))
  {
    hide Inv, FateInv, MonitorInv;
    var d' := Parked(y, t).desk;
    assert forall u | u != t :: Covered(d', u) == Covered(y.desk, u);
    assert Covered(y.desk, t) ==> Covered(d', t);
  }

  // The ticket leaving the front hands its coverage to the next one.
  lemma FinishDesk(full: bool, closing: bool, s: State, t: Ticket, d: Desk, tickets: seq<Ticket>)
    requires TicketInv(s.waiting, d) && HeadInv(full, closing, s.waiting, d) && ClosedInv(closing, d)
    requires OrderInv(s.nextWaiter, d.phases, tickets)
    requires WaitInv(s.waiting, |s.waiting|, s.nextWaiter) && t in d.phases
    ensures var d' := d.(phases := d.phases - {t}, permits := d.permits - {t},
                         owedSignals := d.owedSignals + One(SuccessorOf(s, t)));
            && TicketInv(Without(s.waiting, t), d')
            && HeadInv(full, closing, Without(s.waiting, t), d')
            && ClosedInv(closing, d')
            && OrderInv(s.nextWaiter, d'.phases, tickets)
  {
    hide WaitInv;
    WithoutKeepsTickets(s.waiting, t, s.nextWaiter);
    var d' := d.(phases := d.phases - {t}, permits := d.permits - {t},
                 owedSignals := d.owedSignals + One(SuccessorOf(s, t)));
    assert forall u | u != t && Covered(d, u) :: Covered(d', u);
    var rest := Without(s.waiting, t);
    if rest != [] {
      if s.waiting[0] == t {
        assert SuccessorOf(s, t) == Some(rest[0]);
        assert rest[0] in d'.owedSignals;
      } else {
        assert rest[0] == s.waiting[0];
      }
    }
  }

  lemma FinishKeeps(cfg: Config, y: System, t: Ticket)
    requires SystemInv(cfg, y) && InPhase(y, t, {Leaving})
    ensures SystemInv(cfg, Finished(y, t))
  {
    hide FateInv, HeadInv, ClosedInv, OrderInv, QueueInv, RunInv, CountInv, SingleFlight;
    assert t in y.lane.waiting;
    hide TicketInv;
    FinishWaiterKeeps(cfg, y.lane, t);
    assert WaitInv(y.lane.waiting, |y.lane.waiting|, y.lane.nextWaiter);
    hide Inv, WaitInv;
    FinishDesk(Full(cfg, y.lane), y.lane.closing, y.lane, t, y.desk, y.log.tickets);
  }

  // ---------------------------------------------------------------- insertion and withdrawal

  lemma ActiveWasAdmitted(cfg: Config, y: System)
    requires SystemInv(cfg, y)
    ensures y.lane.active <= y.log.admitted && y.lane.entries.Keys !! y.log.monitors
  {
    hide TicketInv, HeadInv, ClosedInv, OrderInv, QueueInv, CountInv, SingleFlight, WaitInv;
    assert y.log.monitors <= Elements(y.log.started);
    if !y.log.stopped {
      assert y.lane.active <= y.lane.entries.Keys + y.log.monitors;
    }
  }

  lemma InsertFate(queued: set<ExecutionId>, log: Log, id: ExecutionId)
    requires FateInv(queued, log) && id !in log.admitted
    ensures FateInv(queued + {id}, log.(admitted := log.admitted + {id}))
  {}

  lemma InsertMonitors(s: State, log: Log, id: ExecutionId, options: SpawnOptions)
    requires MonitorInv(s, log) && s.entries.Keys <= s.active && id !in s.active && !s.unavailable
    ensures MonitorInv(Insert(s, id, options), log.(admitted := log.admitted + {id}))
    ensures Insert(s, id, options).entries.Keys == s.entries.Keys + {id}
    ensures |Insert(s, id, options).entries| >= |s.entries|
  {
    assert Insert(s, id, options).entries.Keys == s.entries.Keys + {id};
    AddToBoth(s.active, s.entries.Keys, id);
    assert |Insert(s, id, options).entries.Keys| >= |s.entries.Keys|;
  }

  lemma InsertedKeeps(cfg: Config, y: System, id: ExecutionId, options: SpawnOptions, ticket: Option<Ticket>)
    requires SystemInv(cfg, y) && id !in y.log.admitted
    requires InsertError(cfg, y.lane, options.key, ticket).None?
    ensures SystemInv(cfg, Inserted(y, id, options))
  {
    hide TicketInv, ClosedInv, OrderInv, QueueInv, CountInv, SingleFlight, WaitInv;
    ActiveWasAdmitted(cfg, y);
    assert RunInv(y.lane.entries, y.lane.active, y.lane.running);
    InsertKeeps(cfg, y.lane, id, options, ticket);
    hide Inv, FateInv;
    InsertRoom(cfg, y.lane, options, ticket);
    InsertMonitors(y.lane, y.log, id, options);
    InsertFate(y.lane.entries.Keys, y.log, id);
    hide MonitorInv, RunInv;
  }

  // Only the first ticket is admitted, so admitted tickets keep increasing.
  lemma AdmitOrder(waiting: seq<Ticket>, next: nat, d: Desk, tickets: seq<Ticket>, t: Ticket, id: ExecutionId)
    requires TicketInv(waiting, d) && WaitInv(waiting, |waiting|, next) && OrderInv(next, d.phases, tickets)
    requires t in d.phases && d.phases[t].Admitting? && Front(waiting) == Some(t)
    ensures OrderInv(next, Move(d, t, Published(id)).phases, tickets + [t])
  {
    assert forall u | u in tickets :: u.n < t.n;
    forall u | u in d.phases ensures t.n < u.n || t == u {
      var i := Position(waiting, u);
      assert waiting[0] == t && waiting[i] == u;
    }
    var more := tickets + [t];
    assert forall i | 0 <= i < |tickets| :: more[i] == tickets[i] && tickets[i] in tickets;
  }

  lemma TicketsAreNoFate(s: State, log: Log, tickets: seq<Ticket>)
    requires FateInv(s.entries.Keys, log) && MonitorInv(s, log)
    ensures FateInv(s.entries.Keys, log.(tickets := tickets)) && MonitorInv(s, log.(tickets := tickets))
  {}

  lemma AdmitMoves(cfg: Config, y: System, t: Ticket, id: ExecutionId)
    requires SystemInv(cfg, y) && InPhase(y, t, {Admitting}) && Front(y.lane.waiting) == Some(t)
    ensures var z := Moved(y, t, Published(id)); SystemInv(cfg, z.(log := z.log.(tickets := z.log.tickets + [t])))
  {
    hide QueueInv, RunInv, CountInv, SingleFlight, HeadInv, ClosedInv, OrderInv, TicketInv, FateInv, MonitorInv;
    MoveKeeps(cfg, y, t, Published(id));
    assert WaitInv(y.lane.waiting, |y.lane.waiting|, y.lane.nextWaiter);
    hide Inv, WaitInv;
    AdmitOrder(y.lane.waiting, y.lane.nextWaiter, y.desk, y.log.tickets, t, id);
    var z := Moved(y, t, Published(id));
    var log := z.log.(tickets := z.log.tickets + [t]);
    TicketsAreNoFate(z.lane, z.log, log.tickets);
  }

  lemma AdmittedKeeps(cfg: Config, y: System, t: Ticket, id: ExecutionId, options: SpawnOptions)
    requires SystemInv(cfg, y) && InPhase(y, t, {Admitting}) && id !in y.log.admitted
    ensures SystemInv(cfg, Admitted(cfg, y, t, id, options))
  {
    hide SystemInv;
    var error := InsertError(cfg, y.lane, options.key, Some(t));
    if error.None? {
      InsertedKeeps(cfg, y, id, options, Some(t));
      AdmitMoves(cfg, Inserted(y, id, options), t, id);
    } else if AdmissionError(cfg, y.lane, Some(t)).Some? {
      AdmissionKeeps(cfg, y, t, error);
    } else {
      LeaveKeeps(cfg, y, t);
    }
  }

  lemma LeaveKeeps(cfg: Config, y: System, t: Ticket)
    requires SystemInv(cfg, y) && t in y.desk.phases
    ensures SystemInv(cfg, Moved(y, t, Leaving))
  {
    MoveKeeps(cfg, y, t, Leaving);
  }

  lemma WithdrawFate(queued: set<ExecutionId>, log: Log, id: ExecutionId)
    requires FateInv(queued, log) && id in queued
    ensures FateInv(queued - {id}, log.(removed := log.removed + {id}))
  {}

  lemma WithdrawMonitors(s: State, log: Log, id: ExecutionId)
    requires MonitorInv(s, log) && s.entries.Keys <= s.active && id in s.entries
    ensures MonitorInv(RemoveQueued(s, id), log.(removed := log.removed + {id}))
    ensures RemoveQueued(s, id).entries.Keys == s.entries.Keys - {id}
  {
    assert RemoveQueued(s, id).entries.Keys == s.entries.Keys - {id};
    assert (s.active - {id}) - (s.entries.Keys - {id}) == s.active - s.entries.Keys;
  }

  // A further owed notification covers whatever the head needs.
  lemma OweHead(full: bool, closing: bool, waiting: seq<Ticket>, d: Desk, full': bool)
    requires TicketInv(waiting, d) && HeadInv(full, closing, waiting, d) && ClosedInv(closing, d)
    ensures var d' := d.(owedHead := d.owedHead + 1);
            TicketInv(waiting, d') && HeadInv(full', closing, waiting, d') && ClosedInv(closing, d')
  {
    assert forall t :: Covered(d, t) ==> Covered(d.(owedHead := d.owedHead + 1), t);
  }

  lemma WithdrawnDesk(cfg: Config, y: System, id: ExecutionId)
    requires SystemInv(cfg, y) && id in y.lane.entries
    ensures var z := Withdrawn(y, id);
            && TicketInv(z.lane.waiting, z.desk)
            && HeadInv(Full(cfg, z.lane), z.lane.closing, z.lane.waiting, z.desk)
            && ClosedInv(z.lane.closing, z.desk)
  {
    hide Inv, TicketInv, HeadInv, ClosedInv, OrderInv, FateInv, MonitorInv, Full;
    OweHead(Full(cfg, y.lane), y.lane.closing, y.lane.waiting, y.desk, Full(cfg, RemoveQueued(y.lane, id)));
  }

  lemma WithdrawnKeeps(cfg: Config, y: System, id: ExecutionId)
    requires SystemInv(cfg, y)
    ensures SystemInv(cfg, Withdrawn(y, id))
  {
    hide TicketInv, HeadInv, ClosedInv, OrderInv, QueueInv, CountInv, SingleFlight, WaitInv, FateInv, MonitorInv;
    assert y.lane.entries.Keys <= y.lane.active;
    hide Inv, RunInv, Full;
    if id in y.lane.entries {
      RemoveQueuedKeeps(cfg, y.lane, id);
      WithdrawFate(y.lane.entries.Keys, y.log, id);
      WithdrawMonitors(y.lane, y.log, id);
      WithdrawnDesk(cfg, y, id);
    }
  }

  lemma RegisteredKeeps(cfg: Config, y: System, t: Ticket, ok: bool)
    requires SystemInv(cfg, y) && t in y.desk.phases && y.desk.phases[t].Published?
    ensures SystemInv(cfg, Moved(Registered(y, y.desk.phases[t].id, ok), t, Leaving))
  {
    hide SystemInv;
    WithdrawnKeeps(cfg, y, y.desk.phases[t].id);
    LeaveKeeps(cfg, Registered(y, y.desk.phases[t].id, ok), t);
  }

  // ---------------------------------------------------------------- dispatch and completion

  lemma DispatchFate(queued: set<ExecutionId>, log: Log, id: ExecutionId)
    requires FateInv(queued, log) && id in queued
    ensures FateInv(queued - {id}, log.(started := log.started + [id], monitors := log.monitors + {id}))
  {
    assert Elements(log.started + [id]) == Elements(log.started) + {id};
    assert id !in log.started by {
      assert id !in Elements(log.started);
    }
  }

  lemma DispatchMonitors(s: State, log: Log, id: ExecutionId)
    requires MonitorInv(s, log) && s.entries.Keys <= s.active && id in s.entries && !log.stopped
    ensures MonitorInv(DispatchOne(s, id), log.(started := log.started + [id], monitors := log.monitors + {id}))
    ensures DispatchOne(s, id).entries.Keys == s.entries.Keys - {id}
  {
    assert DispatchOne(s, id).entries.Keys == s.entries.Keys - {id};
    assert s.active - (s.entries.Keys - {id}) == (s.active - s.entries.Keys) + {id};
  }

  // Part of a dispatch pass, taken after the pass's own notification is accounted for.
  ghost function Batch(cfg: Config, y: System, starts: seq<ExecutionId>): System
    requires Dispatchable(cfg, y.lane, starts)
  {
    y.(lane := Dispatch(cfg, y.lane, starts),
       log := y.log.(started := y.log.started + starts, monitors := y.log.monitors + (set id | id in starts)))
  }

  lemma TakeOneKeeps(cfg: Config, y: System, id: ExecutionId)
    requires SystemInv(cfg, y) && !y.log.stopped && y.lane.running < cfg.concurrency && Ready(y.lane, id)
    requires y.desk.owedHead > 0
    ensures SystemInv(cfg, y.(lane := DispatchOne(y.lane, id),
                              log := y.log.(started := y.log.started + [id], monitors := y.log.monitors + {id})))
  {
    hide TicketInv, ClosedInv, OrderInv, QueueInv, CountInv, SingleFlight, WaitInv, FateInv, MonitorInv;
    assert y.lane.entries.Keys <= y.lane.active;
    hide Inv, RunInv;
    DispatchOneKeeps(cfg, y.lane, id);
    DispatchFate(y.lane.entries.Keys, y.log, id);
    DispatchMonitors(y.lane, y.log, id);
  }

  lemma BatchSplits(cfg: Config, y: System, starts: seq<ExecutionId>)
    requires starts != [] && Dispatchable(cfg, y.lane, starts)
    ensures var z := y.(lane := DispatchOne(y.lane, starts[0]),
                        log := y.log.(started := y.log.started + [starts[0]],
                                      monitors := y.log.monitors + {starts[0]}));
            Dispatchable(cfg, z.lane, starts[1..]) && Batch(cfg, y, starts) == Batch(cfg, z, starts[1..])
  {
    assert y.log.started + starts == y.log.started + [starts[0]] + starts[1..];
    assert starts == [starts[0]] + starts[1..];
    assert (set id | id in starts) == {starts[0]} + (set id | id in starts[1..]);
    assert y.log.monitors + (set id | id in starts) == y.log.monitors + {starts[0]} + (set id | id in starts[1..]);
  }

  lemma BatchKeeps(cfg: Config, y: System, starts: seq<ExecutionId>)
    requires SystemInv(cfg, y) && !y.log.stopped && Dispatchable(cfg, y.lane, starts)
    requires y.desk.owedHead > 0
    ensures SystemInv(cfg, Batch(cfg, y, starts))
    decreases |starts|
  {
    hide SystemInv;
    if starts == [] {
      assert y.log.started + starts == y.log.started;
      assert y.log.monitors + (set id | id in starts) == y.log.monitors;
    } else {
      TakeOneKeeps(cfg, y, starts[0]);
      BatchSplits(cfg, y, starts);
      BatchKeeps(cfg, y.(lane := DispatchOne(y.lane, starts[0]),
                         log := y.log.(started := y.log.started + [starts[0]],
                                       monitors := y.log.monitors + {starts[0]})), starts[1..]);
    }
  }

  lemma DispatchedKeeps(cfg: Config, y: System, starts: seq<ExecutionId>)
    requires SystemInv(cfg, y) && !y.log.stopped && Dispatchable(cfg, y.lane, starts)
    ensures SystemInv(cfg, Dispatched(cfg, y, starts))
  {
    hide Inv, TicketInv, HeadInv, ClosedInv, OrderInv, FateInv, MonitorInv;
    if starts == [] {
      assert y.log.started + starts == y.log.started;
      assert y.log.monitors + (set id | id in starts) == y.log.monitors;
      assert Dispatched(cfg, y, starts) == y;
    } else {
      OweHead(Full(cfg, y.lane), y.lane.closing, y.lane.waiting, y.desk, Full(cfg, y.lane));
      BatchKeeps(cfg, y.(desk := y.desk.(owedHead := y.desk.owedHead + 1)), starts);
    }
  }

  lemma ReportFate(queued: set<ExecutionId>, log: Log, id: ExecutionId)
    requires FateInv(queued, log) && id in log.monitors
    ensures FateInv(queued, log.(monitors := log.monitors - {id}, finished := log.finished + {id}))
  {}

  lemma ReportMonitors(s: State, log: Log, id: ExecutionId)
    requires MonitorInv(s, log) && id !in s.entries && id in log.monitors
    ensures MonitorInv(ExecutionFinished(s, id),
                       log.(monitors := log.monitors - {id}, finished := log.finished + {id}))
  {
    var s' := ExecutionFinished(s, id);
    if !log.stopped {
      RemoveFromFirst(s.active, s.entries.Keys, id);
    }
  }

  lemma FinishFrame(s: State, id: ExecutionId)
    ensures var t := ExecutionFinished(s, id);
            && t.queue == s.queue && t.entries == s.entries && t.waiting == s.waiting
            && t.nextWaiter == s.nextWaiter && t.closing == s.closing && t.unavailable == s.unavailable
  {
    hide DecrementRefcount;
  }

  lemma ReportedKeeps(cfg: Config, y: System, id: ExecutionId)
    requires SystemInv(cfg, y) && id in y.log.monitors
    ensures SystemInv(cfg, Reported(y, id))
  {
    ActiveWasAdmitted(cfg, y);
    FinishFrame(y.lane, id);
    hide TicketInv, HeadInv, ClosedInv, OrderInv, Inv, FateInv, MonitorInv, ExecutionFinished;
    ExecutionFinishedKeeps(cfg, y.lane, id);
    ReportFate(y.lane.entries.Keys, y.log, id);
    ReportMonitors(y.lane, y.log, id);
  }

  // ---------------------------------------------------------------- notifications and closing

  lemma HeadNotifiedKeeps(cfg: Config, y: System)
    requires SystemInv(cfg, y) && y.desk.owedHead > 0
    ensures SystemInv(cfg, HeadNotified(y))
  {
    hide Inv, FateInv, MonitorInv, OrderInv;
    var d' := HeadNotified(y).desk;
    assert forall t | Covered(y.desk, t) :: Covered(d', t);
    assert y.lane.waiting != [] ==> Covered(d', y.lane.waiting[0]);
  }

  lemma AllNotifiedKeeps(cfg: Config, y: System)
    requires SystemInv(cfg, y) && y.desk.owedAll > 0
    ensures SystemInv(cfg, AllNotified(y))
  {
    hide Inv, FateInv, MonitorInv, OrderInv;
    var d' := AllNotified(y).desk;
    forall t | Covered(y.desk, t) || t in y.lane.waiting ensures Covered(d', t) {
      assert t in y.lane.waiting ==> t in multiset(y.lane.waiting);
    }
  }

  lemma DeliveredOrder(nextWaiter: nat, d: Desk, t: Ticket, tickets: seq<Ticket>)
    requires OrderInv(nextWaiter, d.phases, tickets)
    ensures OrderInv(nextWaiter, Delivered(d, t).phases, tickets)
  {
    var d' := Delivered(d, t);
    assert forall u | u in d.phases && d.phases[u] != d'.phases[u] :: u == t && d'.phases[u].Polling?;
  }

  // A delivered signal uncovers nobody: it wakes its waiter or leaves a permit.
  lemma DeliveredCovers(d: Desk, t: Ticket)
    requires t in d.owedSignals
    ensures var d' := Delivered(d, t);
            && d'.owedHead == d.owedHead && d'.owedAll == d.owedAll && d'.phases.Keys == d.phases.Keys
            && forall u | u in d.phases && Covered(d, u) :: Covered(d', u)
  {
    var d' := Delivered(d, t);
    assert d'.phases.Keys == d.phases.Keys;
  }

  lemma DeliveredTickets(waiting: seq<Ticket>, d: Desk, t: Ticket)
    requires TicketInv(waiting, d)
    ensures TicketInv(waiting, Delivered(d, t))
  {}

  lemma FirstHasPhase(waiting: seq<Ticket>, d: Desk)
    requires TicketInv(waiting, d)
    ensures waiting != [] ==> waiting[0] in d.phases
  {
    assert waiting != [] ==> waiting[0] in waiting;
  }

  lemma DeliveredKeeps(cfg: Config, y: System, t: Ticket)
    requires SystemInv(cfg, y) && t in y.desk.owedSignals
    ensures SystemInv(cfg, y.(desk := Delivered(y.desk, t)))
  {
    DeliveredOrder(y.lane.nextWaiter, y.desk, t, y.log.tickets);
    DeliveredTickets(y.lane.waiting, y.desk, t);
    FirstHasPhase(y.lane.waiting, y.desk);
    hide Inv, FateInv, MonitorInv, OrderInv, TicketInv, Delivered, Covered;
    DeliveredCovers(y.desk, t);
    var d' := Delivered(y.desk, t);
    assert forall u | u in d'.phases :: u in y.desk.phases.Keys;
  }

  lemma ClosedKeeps(cfg: Config, y: System)
    requires SystemInv(cfg, y)
    ensures SystemInv(cfg, Closed(y))
  {
    RequestCloseKeeps(cfg, y.lane);
    hide Inv, FateInv, OrderInv;
  }

  lemma StopFate(queued: set<ExecutionId>, log: Log)
    requires FateInv(queued, log)
    ensures FateInv({}, log.(stopped := true, removed := log.removed + queued))
  {}

  lemma StoppedKeeps(cfg: Config, y: System)
    requires SystemInv(cfg, y) && !y.log.stopped
    ensures SystemInv(cfg, Stopped(y))
  {
    hide FateInv, OrderInv;
    DispatcherStoppedKeeps(cfg, y.lane);
    hide Inv;
    StopFate(y.lane.entries.Keys, y.log);
    assert Stopped(y).lane.entries.Keys == {};
  }

  // ---------------------------------------------------------------- all events

  lemma StepKeeps(cfg: Config, y: System, e: Event)
    requires SystemInv(cfg, y) && Enabled(cfg, y, e)
    ensures SystemInv(cfg, Next(cfg, y, e))
  {
    hide SystemInv;
    match e {
      case Enlist => EnlistKeeps(cfg, y);
      case Check(t, open) => CheckKeeps(cfg, y, t, open);
      case PrepareFails(t) => LeaveKeeps(cfg, y, t);
      case Admit(t, id, options) => AdmittedKeeps(cfg, y, t, id, options);
      case Register(t, ok) => RegisteredKeeps(cfg, y, t, ok);
      case Park(t) => ParkKeeps(cfg, y, t);
      case Abandon(t) => LeaveKeeps(cfg, y, t);
      case Finish(t) => FinishKeeps(cfg, y, t);
      case AdmitDirect(id, options) =>
        InsertedKeeps(cfg, y, id, options, None);
        UnregisteredIsFree(cfg, Inserted(y, id, options), y.unregistered + {id});
      case RegisterDirect(id, ok) =>
        WithdrawnKeeps(cfg, y, id);
        UnregisteredIsFree(cfg, Registered(y, id, ok), y.unregistered - {id});
      case CancelQueued(id) => WithdrawnKeeps(cfg, y, id);
      case TakeStartable(starts) => DispatchedKeeps(cfg, y, starts);
      case Report(id) => ReportedKeeps(cfg, y, id);
      case NotifyHead => HeadNotifiedKeeps(cfg, y);
      case NotifyAll => AllNotifiedKeeps(cfg, y);
      case Deliver(t) => DeliveredKeeps(cfg, y, t);
      case Close => ClosedKeeps(cfg, y);
      case DispatcherStops => StoppedKeeps(cfg, y);
    }
  }

  lemma UnregisteredIsFree(cfg: Config, y: System, u: set<ExecutionId>)
    requires SystemInv(cfg, y)
    ensures SystemInv(cfg, y.(unregistered := u))
  {}

  lemma StartHolds(cfg: Config)
    ensures SystemInv(cfg, Start)
  {
    InitialHolds(cfg);
    assert Start.lane.active - Start.lane.entries.Keys == {};
  }

  // The invariant holds after every run.
  lemma {:induction false} RunKeeps(cfg: Config, y: System, events: seq<Event>)
    requires SystemInv(cfg, y) && Legal(cfg, y, events)
    ensures SystemInv(cfg, After(cfg, y, events))
    decreases |events|
  {
    hide SystemInv;
    if events != [] {
      StepKeeps(cfg, y, events[0]);
      RunKeeps(cfg, Next(cfg, y, events[0]), events[1..]);
    }
  }
}
