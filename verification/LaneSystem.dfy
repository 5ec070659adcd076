/**
 The lane among its concurrent actors: waiting producers, the dispatcher, completion monitors,
 cancellation hooks and closers. Each event is one lock-held block or one notification sent
 after the lock is released, so a run interleaves the actors in every possible way.
 */
module LaneSystem {
  import opened Wrappers
  import opened LaneState

  // Where a producer holding a ticket stands in its admission loop.
  datatype Phase =
    | Polling                     // will make another admission check
    | Admitting                   // passed the check, about to insert
    | Published(id: ExecutionId)  // inserted, about to register with the executor
    | Parking                     // saw a full queue, about to await its signal
    | Asleep
    | Leaving                     // about to give its ticket back

  // The waiting producers, their signals, and the notifications still to be sent.
  datatype Desk = Desk(
    phases: map<Ticket, Phase>,
    permits: set<Ticket>,            // signals holding an unconsumed notification
    owedHead: nat,                   // actors that still have to notify the waiting head
    owedAll: nat,                    // actors that still have to notify every waiter
    owedSignals: multiset<Ticket>)   // signals picked under the lock and not yet fired

  // What has happened so far.
  datatype Log = Log(
    admitted: set<ExecutionId>,
    removed: set<ExecutionId>,       // withdrawn from the queue without being started
    started: seq<ExecutionId>,
    monitors: set<ExecutionId>,      // started, completion not yet reported
    finished: set<ExecutionId>,
    stopped: bool,                   // the dispatcher is gone
    tickets: seq<Ticket>)            // tickets admitted, in order

  datatype System = System(lane: State, desk: Desk, log: Log, unregistered: set<ExecutionId>)

  const Start: System :=
    System(Initial, Desk(map[], {}, 0, 0, multiset{}), Log({}, {}, [], {}, {}, false, []), {})

  datatype Event =
    | Enlist
    | Check(t: Ticket, open: bool)
    | PrepareFails(t: Ticket)
    | Admit(t: Ticket, id: ExecutionId, options: SpawnOptions)
    | Register(t: Ticket, ok: bool)
    | Park(t: Ticket)
    | Abandon(t: Ticket)
    | Finish(t: Ticket)
    | AdmitDirect(id: ExecutionId, options: SpawnOptions)
    | RegisterDirect(id: ExecutionId, ok: bool)
    | CancelQueued(id: ExecutionId)
    | TakeStartable(starts: seq<ExecutionId>)
    | Report(id: ExecutionId)
    | NotifyHead
    | NotifyAll
    | Deliver(t: Ticket)
    | Close
    | DispatcherStops

  predicate InPhase(y: System, t: Ticket, phases: set<Phase>) {
    t in y.desk.phases && y.desk.phases[t] in phases
  }

  ghost predicate Enabled(cfg: Config, y: System, e: Event) {
    match e
    case Enlist => NewWaiter(cfg, y.lane).Ok?
    case Check(t, _) => InPhase(y, t, {Polling})
    case PrepareFails(t) => InPhase(y, t, {Admitting})
    case Admit(t, id, _) => InPhase(y, t, {Admitting}) && id !in y.log.admitted
    case Register(t, _) => t in y.desk.phases && y.desk.phases[t].Published?
    case Park(t) => InPhase(y, t, {Parking})
    case Abandon(t) => InPhase(y, t, {Polling, Parking, Asleep})
    case Finish(t) => InPhase(y, t, {Leaving})
    case AdmitDirect(id, options) => id !in y.log.admitted && InsertError(cfg, y.lane, options.key, None).None?
    case RegisterDirect(id, _) => id in y.unregistered
    case CancelQueued(_) => true
    case TakeStartable(starts) =>
      !y.log.stopped && Dispatchable(cfg, y.lane, starts) && Saturated(cfg, Dispatch(cfg, y.lane, starts))
    case Report(id) => id in y.log.monitors
    case NotifyHead => y.desk.owedHead > 0
    case NotifyAll => y.desk.owedAll > 0
    case Deliver(t) => t in y.desk.owedSignals
    case Close => true
    case DispatcherStops => !y.log.stopped
  }

  function Move(d: Desk, t: Ticket, phase: Phase): Desk {
    d.(phases := d.phases[t := phase])
  }

  function Moved(y: System, t: Ticket, phase: Phase): System {
    y.(desk := Move(y.desk, t, phase))
  }

  // A rejected producer retries after a wake-up when the queue was full and gives up otherwise.
  function Rejected(error: SpawnError): Phase {
    if error == QueueFull then Parking else Leaving
  }

  function One(t: Option<Ticket>): multiset<Ticket> {
    if t.None? then multiset{} else multiset{t.value}
  }

  function Enlisted(cfg: Config, y: System): System
    requires NewWaiter(cfg, y.lane).Ok?
  {
    Moved(y, Ticket(y.lane.nextWaiter), Polling).(lane := NewWaiter(cfg, y.lane).value)
  }

  function AfterCheck(cfg: Config, y: System, t: Ticket, open: bool): Phase {
    var error := AdmissionError(cfg, y.lane, Some(t));
    if !open then Leaving else if error.Some? then Rejected(error.value) else Admitting
  }

  function Inserted(y: System, id: ExecutionId, options: SpawnOptions): System {
    y.(lane := Insert(y.lane, id, options), log := y.log.(admitted := y.log.admitted + {id}))
  }

  function Admitted(cfg: Config, y: System, t: Ticket, id: ExecutionId, options: SpawnOptions): System {
    var error := InsertError(cfg, y.lane, options.key, Some(t));
    if error.Some? then Moved(y, t, Rejected(error.value))
    else var z := Inserted(y, id, options);
         Moved(z, t, Published(id)).(log := z.log.(tickets := z.log.tickets + [t]))
  }

  // `remove_queued`: whoever removed the entry owes the waiting head a notification.
  function Withdrawn(y: System, id: ExecutionId): System {
    if id !in y.lane.entries then y
    else y.(lane := RemoveQueued(y.lane, id),
            log := y.log.(removed := y.log.removed + {id}),
            desk := y.desk.(owedHead := y.desk.owedHead + 1))
  }

  function Registered(y: System, id: ExecutionId, ok: bool): System {
    if ok then y else Withdrawn(y, id)
  }

  function Parked(y: System, t: Ticket): System {
    if t in y.desk.permits
    then y.(desk := Move(y.desk, t, Polling).(permits := y.desk.permits - {t}))
    else Moved(y, t, Asleep)
  }

  function Finished(y: System, t: Ticket): System {
    y.(lane := FinishWaiter(y.lane, t),
       desk := y.desk.(phases := y.desk.phases - {t}, permits := y.desk.permits - {t},
                       owedSignals := y.desk.owedSignals + One(SuccessorOf(y.lane, t))))
  }

  ghost function Dispatched(cfg: Config, y: System, starts: seq<ExecutionId>): System
    requires Dispatchable(cfg, y.lane, starts)
  {
    y.(lane := Dispatch(cfg, y.lane, starts),
       log := y.log.(started := y.log.started + starts,
                     monitors := y.log.monitors + (set id | id in starts)),
       desk := if starts == [] then y.desk else y.desk.(owedHead := y.desk.owedHead + 1))
  }

  function Reported(y: System, id: ExecutionId): System {
    y.(lane := ExecutionFinished(y.lane, id),
       log := y.log.(monitors := y.log.monitors - {id}, finished := y.log.finished + {id}))
  }

  function HeadNotified(y: System): System
    requires y.desk.owedHead > 0
  {
    y.(desk := y.desk.(owedHead := y.desk.owedHead - 1,
                       owedSignals := y.desk.owedSignals + One(Front(y.lane.waiting))))
  }

  function AllNotified(y: System): System
    requires y.desk.owedAll > 0
  {
    y.(desk := y.desk.(owedAll := y.desk.owedAll - 1,
                       owedSignals := y.desk.owedSignals + multiset(y.lane.waiting)))
  }

  // `Notify::notify_one` on the ticket's signal: wake the sleeper or store the permit.
  function Delivered(d: Desk, t: Ticket): Desk {
    var d1 := d.(owedSignals := d.owedSignals - multiset{t});
    if t !in d.phases then d1
    else if d.phases[t].Asleep? then Move(d1, t, Polling)
    else d1.(permits := d1.permits + {t})
  }

  function Closed(y: System): System {
    y.(lane := RequestClose(y.lane), desk := y.desk.(owedAll := y.desk.owedAll + 1))
  }

  function Stopped(y: System): System {
    y.(lane := DispatcherStopped(y.lane),
       desk := y.desk.(owedAll := y.desk.owedAll + 1),
       log := y.log.(stopped := true, removed := y.log.removed + y.lane.entries.Keys))
  }

  ghost function Next(cfg: Config, y: System, e: Event): System
    requires Enabled(cfg, y, e)
  {
    match e
    case Enlist => Enlisted(cfg, y)
    case Check(t, open) => Moved(y, t, AfterCheck(cfg, y, t, open))
    case PrepareFails(t) => Moved(y, t, Leaving)
    case Admit(t, id, options) => Admitted(cfg, y, t, id, options)
    case Register(t, ok) => Moved(Registered(y, y.desk.phases[t].id, ok), t, Leaving)
    case Park(t) => Parked(y, t)
    case Abandon(t) => Moved(y, t, Leaving)
    case Finish(t) => Finished(y, t)
    case AdmitDirect(id, options) => Inserted(y, id, options).(unregistered := y.unregistered + {id})
    case RegisterDirect(id, ok) => Registered(y, id, ok).(unregistered := y.unregistered - {id})
    case CancelQueued(id) => Withdrawn(y, id)
    case TakeStartable(starts) => Dispatched(cfg, y, starts)
    case Report(id) => Reported(y, id)
    case NotifyHead => HeadNotified(y)
    case NotifyAll => AllNotified(y)
    case Deliver(t) => y.(desk := Delivered(y.desk, t))
    case Close => Closed(y)
    case DispatcherStops => Stopped(y)
  }

  // ---------------------------------------------------------------- runs

  ghost predicate Legal(cfg: Config, y: System, events: seq<Event>)
    decreases |events|
  {
    events == [] || (Enabled(cfg, y, events[0]) && Legal(cfg, Next(cfg, y, events[0]), events[1..]))
  }

  ghost function After(cfg: Config, y: System, events: seq<Event>): System
    requires Legal(cfg, y, events)
    decreases |events|
  {
    if events == [] then y else After(cfg, Next(cfg, y, events[0]), events[1..])
  }

  // ---------------------------------------------------------------- the system invariant

  ghost predicate TicketInv(waiting: seq<Ticket>, d: Desk) {
    && (forall t :: t in d.phases <==> t in waiting)
    && d.permits <= d.phases.Keys
  }

  // Nothing more has to happen for this producer to look at the queue again.
  ghost predicate Covered(d: Desk, t: Ticket) {
    || (t in d.phases && !d.phases[t].Parking? && !d.phases[t].Asleep?)
    || (t in d.phases && d.phases[t].Parking? && t in d.permits)
    || t in d.owedSignals
  }

  // With a free slot in an open lane, the first waiter is on its way to it.
  ghost predicate HeadInv(full: bool, closing: bool, waiting: seq<Ticket>, d: Desk) {
    !closing && !full && waiting != [] ==> d.owedHead > 0 || Covered(d, waiting[0])
  }

  // Once the lane closes, every waiter is on its way to learn it.
  ghost predicate ClosedInv(closing: bool, d: Desk) {
    closing ==> d.owedAll > 0 || forall t | t in d.phases :: Covered(d, t)
  }

  ghost function Elements<T(!new)>(s: seq<T>): set<T> {
    set x | x in s
  }

  ghost predicate Distinct<T(!new)>(s: seq<T>) {
    forall i, j | 0 <= i < j < |s| :: s[i] != s[j]
  }

  // Every admitted execution is queued, withdrawn or started, and each starts at most once.
  ghost predicate FateInv(queued: set<ExecutionId>, log: Log) {
    && log.admitted == queued + log.removed + Elements(log.started)
    && queued !! log.removed
    && Elements(log.started) !! queued + log.removed
    && Distinct(log.started)
    && Elements(log.started) == log.monitors + log.finished
    && log.monitors !! log.finished
  }

  // Until the dispatcher stops, running means started and not yet reported.
  ghost predicate MonitorInv(lane: State, log: Log) {
    && log.stopped == lane.unavailable
    && (log.stopped ==> lane.entries == map[])
    && (!log.stopped ==> log.monitors == lane.active - lane.entries.Keys)
  }

  ghost predicate OrderInv(nextWaiter: nat, phases: map<Ticket, Phase>, tickets: seq<Ticket>) {
    && (forall i, j | 0 <= i < j < |tickets| :: tickets[i].n < tickets[j].n)
    && (forall u | u in tickets :: u.n < nextWaiter)
    && (forall u, t | u in tickets && t in phases ::
          u.n < t.n || (u == t && (phases[t].Published? || phases[t].Leaving?)))
  }

  ghost predicate Full(cfg: Config, s: State) {
    |s.entries| >= cfg.capacity
  }

  ghost predicate SystemInv(cfg: Config, y: System) {
    && Inv(cfg, y.lane)
    && TicketInv(y.lane.waiting, y.desk)
    && HeadInv(Full(cfg, y.lane), y.lane.closing, y.lane.waiting, y.desk)
    && ClosedInv(y.lane.closing, y.desk)
    && FateInv(y.lane.entries.Keys, y.log)
    && MonitorInv(y.lane, y.log)
    && OrderInv(y.lane.nextWaiter, y.desk.phases, y.log.tickets)
  }
}
