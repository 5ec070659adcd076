/**
 The lane's dispatcher task and its own wake-ups, laid over `LaneSystem`: when it arms its signal,
 passes over the queue, waits, and which notifications the other actors still owe it.
 */
module LaneDispatcher {
  import opened Wrappers

  import opened LaneState
  import opened LaneSystem
  import opened LaneRuns

  datatype Stand =
    | Idle       // about to create the notification it may await
    | Armed      // the notification exists; about to take what is startable
    | Waiting    // took nothing and awaits the notification
    | Gone       // returned or was dropped

  // `heard` is a broadcast since the dispatcher armed; `permit` is a stored single notification.
  datatype Watch = Watch(stand: Stand, heard: bool, permit: bool, owedOne: nat, owedAll: nat)

  datatype Whole = Whole(y: System, w: Watch)

  const Begin: Whole := Whole(Start, Watch(Idle, false, false, 0, 0))

  datatype Act =
    | Other(e: Event)                  // anything but the dispatcher's own pass
    | Arm
    | Pass(starts: seq<ExecutionId>)
    | Wake
    | PayOne
    | PayAll

  // Whoever changed what is startable owes the dispatcher a single notification...
  function OwesOne(y: System, e: Event): bool {
    match e
    case Register(t, ok) =>
      t in y.desk.phases && y.desk.phases[t].Published? && (ok || y.desk.phases[t].id in y.lane.entries)
    case RegisterDirect(id, ok) => ok || id in y.lane.entries
    case CancelQueued(id) => id in y.lane.entries
    case Report(_) => true
    case _ => false
  }

  // ...and a closer owes a broadcast.
  function Owing(y: System, w: Watch, e: Event): Watch {
    if OwesOne(y, e) then w.(owedOne := w.owedOne + 1)
    else if e.Close? then w.(owedAll := w.owedAll + 1)
    else if e.DispatcherStops? then w.(stand := Gone)
    else w
  }

  ghost predicate Possible(cfg: Config, x: Whole, a: Act) {
    match a
    case Other(e) => !e.TakeStartable? && Enabled(cfg, x.y, e)
    case Arm => x.w.stand.Idle?
    case Pass(starts) => x.w.stand.Armed? && Enabled(cfg, x.y, TakeStartable(starts))
    case Wake => x.w.stand.Waiting? && (x.w.heard || x.w.permit)
    case PayOne => x.w.owedOne > 0
    case PayAll => x.w.owedAll > 0
  }

  function AfterPass(s: State, starts: seq<ExecutionId>): Stand {
    if ShouldExit(s) then Gone else if starts == [] then Waiting else Idle
  }

  ghost function Do(cfg: Config, x: Whole, a: Act): Whole
    requires Possible(cfg, x, a)
  {
    match a
    case Other(e) => Whole(Next(cfg, x.y, e), Owing(x.y, x.w, e))
    case Arm => x.(w := x.w.(stand := Armed, heard := false))
    case Pass(starts) =>
      var z := Next(cfg, x.y, TakeStartable(starts));
      Whole(z, x.w.(stand := AfterPass(z.lane, starts)))
    case Wake =>
      x.(w := if x.w.heard then x.w.(stand := Idle, heard := false) else x.w.(stand := Idle, permit := false))
    case PayOne => x.(w := x.w.(owedOne := x.w.owedOne - 1, permit := true))
    case PayAll =>
      x.(w := x.w.(owedAll := x.w.owedAll - 1, heard := x.w.heard || x.w.stand.Armed? || x.w.stand.Waiting?))
  }

  ghost predicate Runs(cfg: Config, x: Whole, acts: seq<Act>)
    decreases |acts|
  {
    acts == [] || (Possible(cfg, x, acts[0]) && Runs(cfg, Do(cfg, x, acts[0]), acts[1..]))
  }

  ghost function Reach(cfg: Config, x: Whole, acts: seq<Act>): Whole
    requires Runs(cfg, x, acts)
    decreases |acts|
  {
    if acts == [] then x else Reach(cfg, Do(cfg, x, acts[0]), acts[1..])
  }

  // A broadcast is heard by a dispatcher that has armed, whether or not it waits already; a single
  // notification is kept for its next wait, whenever it is sent.
  lemma SignalsAreKept(cfg: Config, x: Whole)
    ensures x.w.owedAll > 0 ==>
              var w := Do(cfg, x, PayAll).w;
              w.heard == (x.w.heard || x.w.stand.Armed? || x.w.stand.Waiting?) && w.permit == x.w.permit
    ensures x.w.owedOne > 0 ==>
              var w := Do(cfg, x, PayOne).w; w.permit && w.heard == x.w.heard && w.stand == x.w.stand
  {}

  // ---------------------------------------------------------------- what a waiting dispatcher may miss

  // The entry is published and its producer has still to register it, and then to notify.
  ghost predicate Announcing(y: System, id: ExecutionId) {
    id in y.unregistered || exists t :: t in y.desk.phases && y.desk.phases[t] == Published(id)
  }

  // Whatever could be started has a producer that will notify, and there is no reason to exit.
  ghost predicate NothingMissed(cfg: Config, y: System) {
    && (y.lane.running >= cfg.concurrency || forall id | Ready(y.lane, id) :: Announcing(y, id))
    && !ShouldExit(y.lane)
  }

  predicate Unsignalled(w: Watch) {
    w.stand.Waiting? && !w.heard && !w.permit && w.owedOne == 0 && w.owedAll == 0
  }

  ghost predicate WatchInv(cfg: Config, x: Whole) {
    Unsignalled(x.w) ==> NothingMissed(cfg, x.y)
  }

  // The parts of the lane that decide what is startable and whether to exit.
  ghost predicate SameWork(s: State, s': State) {
    && s'.entries == s.entries && s'.activeKeys == s.activeKeys && s'.running == s.running
    && s'.active == s.active && s'.closing == s.closing
  }

  predicate Publishes(cfg: Config, y: System, e: Event) {
    e.AdmitDirect? || (e.Admit? && InsertError(cfg, y.lane, e.options.key, Some(e.t)).None?)
  }

  lemma TicketIsFresh(cfg: Config, y: System)
    requires SystemInv(cfg, y)
    ensures Ticket(y.lane.nextWaiter) !in y.desk.phases
  {
    assert WaitInv(y.lane.waiting, |y.lane.waiting|, y.lane.nextWaiter);
  }

  lemma FinishWaiterWork(s: State, t: Ticket)
    ensures SameWork(s, FinishWaiter(s, t))
  {}

  ghost predicate Quiet(cfg: Config, y: System, e: Event) {
    && Enabled(cfg, y, e) && !OwesOne(y, e) && !Publishes(cfg, y, e)
    && !e.Close? && !e.DispatcherStops? && !e.TakeStartable?
  }

  lemma QuietWork(cfg: Config, y: System, e: Event)
    requires Quiet(cfg, y, e)
    ensures SameWork(y.lane, Next(cfg, y, e).lane)
  {
    hide Dispatchable, Dispatch, InsertError, AdmissionError, FinishWaiter, SuccessorOf, One, Front, Delivered;
    if e.Finish? {
      FinishWaiterWork(y.lane, e.t);
    }
  }

  lemma DeskFrames(y: System, u: Ticket, id: ExecutionId, ok: bool)
    ensures forall t | t in y.desk.phases && y.desk.phases[t].Published? ::
              t in Delivered(y.desk, u).phases && Delivered(y.desk, u).phases[t] == y.desk.phases[t]
    ensures Registered(y, id, ok).desk.phases == y.desk.phases
  {}

  lemma QuietPhases(cfg: Config, y: System, e: Event, t: Ticket, id: ExecutionId)
    requires Quiet(cfg, y, e) && Ticket(y.lane.nextWaiter) !in y.desk.phases
    requires t in y.desk.phases && y.desk.phases[t] == Published(id) && id in y.lane.entries
    ensures t in Next(cfg, y, e).desk.phases && Next(cfg, y, e).desk.phases[t] == Published(id)
  {
    hide Dispatchable, Dispatch, InsertError, AdmissionError, FinishWaiter, SuccessorOf, One, Front, Delivered,
         Registered, NewWaiter, RemoveQueued;
    match e {
      case Register(u, ok) => DeskFrames(y, u, y.desk.phases[u].id, ok);
      case RegisterDirect(other, ok) => DeskFrames(y, t, other, ok);
      case CancelQueued(other) => DeskFrames(y, t, other, false);
      case Deliver(u) => DeskFrames(y, u, id, true);
      case _ =>
    }
  }

  lemma QuietUnregistered(cfg: Config, y: System, e: Event, id: ExecutionId)
    requires Quiet(cfg, y, e) && id in y.unregistered && id in y.lane.entries
    ensures id in Next(cfg, y, e).unregistered
  {
    hide Dispatchable, Dispatch, InsertError, AdmissionError, FinishWaiter, SuccessorOf, One, Front, Delivered;
  }

  lemma QuietEvents(cfg: Config, y: System, e: Event, id: ExecutionId)
    requires Quiet(cfg, y, e) && Ticket(y.lane.nextWaiter) !in y.desk.phases
    requires Announcing(y, id) && id in y.lane.entries
    ensures Announcing(Next(cfg, y, e), id)
  {
    hide Quiet, Next, Enabled;
    if id in y.unregistered {
      QuietUnregistered(cfg, y, e, id);
    } else {
      var t :| t in y.desk.phases && y.desk.phases[t] == Published(id);
      QuietPhases(cfg, y, e, t, id);
    }
  }

  lemma PublishingEvents(cfg: Config, y: System, e: Event)
    requires Enabled(cfg, y, e) && Publishes(cfg, y, e) && NothingMissed(cfg, y)
    ensures NothingMissed(cfg, Next(cfg, y, e))
  {
    hide InsertError, AdmissionError, CountedOnce;
    var z := Next(cfg, y, e);
    assert e.Admit? ==> e.t in z.desk.phases && z.desk.phases[e.t] == Published(e.id);
    forall id | Ready(z.lane, id) && z.lane.running < cfg.concurrency ensures Announcing(z, id) {
      if id != e.id {
        assert Ready(y.lane, id) && Announcing(y, id);
        if id !in y.unregistered {
          var t :| t in y.desk.phases && y.desk.phases[t] == Published(id);
          assert t in z.desk.phases && z.desk.phases[t] == Published(id);
        }
      }
    }
  }

  lemma SameWorkMisses(cfg: Config, y: System, z: System)
    requires NothingMissed(cfg, y) && SameWork(y.lane, z.lane)
    requires forall id | Announcing(y, id) && id in y.lane.entries :: Announcing(z, id)
    ensures NothingMissed(cfg, z)
  {
    assert forall id :: Ready(z.lane, id) <==> Ready(y.lane, id);
  }

  lemma QuietKeeps(cfg: Config, y: System, e: Event)
    requires Quiet(cfg, y, e) && Ticket(y.lane.nextWaiter) !in y.desk.phases && NothingMissed(cfg, y)
    ensures NothingMissed(cfg, Next(cfg, y, e))
  {
    assert Enabled(cfg, y, e);
    QuietWork(cfg, y, e);
    hide Quiet, Next, Enabled, NothingMissed, Announcing, SameWork;
    forall id | Announcing(y, id) && id in y.lane.entries ensures Announcing(Next(cfg, y, e), id) {
      QuietEvents(cfg, y, e, id);
    }
    SameWorkMisses(cfg, y, Next(cfg, y, e));
  }

  lemma NothingOwed(x: Whole, e: Event)
    requires Unsignalled(Owing(x.y, x.w, e))
    ensures Unsignalled(x.w) && !OwesOne(x.y, e) && !e.Close? && !e.DispatcherStops?
  {
    hide OwesOne;
  }

  lemma OthersKeepWatch(cfg: Config, x: Whole, e: Event)
    requires !e.TakeStartable? && Enabled(cfg, x.y, e) && SystemInv(cfg, x.y)
    requires WatchInv(cfg, x) && Unsignalled(Owing(x.y, x.w, e))
    ensures NothingMissed(cfg, Next(cfg, x.y, e))
  {
    hide SystemInv, Next, Enabled, NothingMissed, Publishes, OwesOne, Owing, Unsignalled;
    NothingOwed(x, e);
    TicketIsFresh(cfg, x.y);
    if Publishes(cfg, x.y, e) {
      PublishingEvents(cfg, x.y, e);
    } else {
      QuietKeeps(cfg, x.y, e);
    }
  }

  // A pass that took nothing found nothing startable.
  lemma EmptyPass(cfg: Config, y: System)
    requires Enabled(cfg, y, TakeStartable([])) && !ShouldExit(Next(cfg, y, TakeStartable([])).lane)
    ensures NothingMissed(cfg, Next(cfg, y, TakeStartable([])))
  {}

  lemma WatchKept(cfg: Config, x: Whole, a: Act)
    requires Possible(cfg, x, a) && WatchInv(cfg, x) && SystemInv(cfg, x.y)
    ensures WatchInv(cfg, Do(cfg, x, a))
  {
    hide SystemInv, Next, Enabled, NothingMissed, Owing, ShouldExit;
    match a {
      case Other(e) =>
        if Unsignalled(Owing(x.y, x.w, e)) {
          OthersKeepWatch(cfg, x, e);
        }
      case Pass(starts) =>
        if AfterPass(Next(cfg, x.y, TakeStartable(starts)).lane, starts).Waiting? {
          EmptyPass(cfg, x.y);
        }
      case _ =>
    }
  }

  lemma LaneKept(cfg: Config, x: Whole, a: Act)
    requires Possible(cfg, x, a) && SystemInv(cfg, x.y)
    ensures SystemInv(cfg, Do(cfg, x, a).y)
  {
    hide SystemInv, Next, Enabled;
    match a {
      case Other(e) => StepKeeps(cfg, x.y, e);
      case Pass(starts) => StepKeeps(cfg, x.y, TakeStartable(starts));
      case _ =>
    }
  }

  lemma {:induction false} WatchRun(cfg: Config, x: Whole, acts: seq<Act>)
    requires Runs(cfg, x, acts) && WatchInv(cfg, x) && SystemInv(cfg, x.y)
    ensures WatchInv(cfg, Reach(cfg, x, acts))
    decreases |acts|
  {
    hide Possible, Do, WatchInv, SystemInv;
    if acts != [] {
      LaneKept(cfg, x, acts[0]);
      WatchKept(cfg, x, acts[0]);
      WatchRun(cfg, Do(cfg, x, acts[0]), acts[1..]);
    }
  }

  /** The dispatcher is not forgotten: while it waits without a permit or a broadcast, somebody owes it
      one, or else it has no reason to exit and every entry it could start still has a producer that is
      about to announce it. Once nobody has anything to announce, there is nothing it could start. */
  lemma DispatcherNotForgotten(cfg: Config, acts: seq<Act>)
    requires Runs(cfg, Begin, acts)
    ensures var x := Reach(cfg, Begin, acts);
            x.w.stand.Waiting? && !x.w.heard && !x.w.permit && x.w.owedOne == 0 && x.w.owedAll == 0 ==>
              && !ShouldExit(x.y.lane)
              && (x.y.lane.running < cfg.concurrency ==> forall id | Ready(x.y.lane, id) :: Announcing(x.y, id))
              && ((forall id :: !Announcing(x.y, id)) ==> Saturated(cfg, x.y.lane))
  {
    StartHolds(cfg);
    WatchRun(cfg, Begin, acts);
  }

  // ---------------------------------------------------------------- the same lane

  // The lane events among the acts.
  function EventsOf(acts: seq<Act>): seq<Event> {
    if acts == [] then []
    else
      (match acts[0]
       case Other(e) => [e]
       case Pass(starts) => [TakeStartable(starts)]
       case _ => []) + EventsOf(acts[1..])
  }

  /** Forgetting the dispatcher's signals leaves a run of `LaneSystem`, so all its results hold here. */
  lemma {:induction false} IsLaneRun(cfg: Config, x: Whole, acts: seq<Act>)
    requires Runs(cfg, x, acts)
    ensures Legal(cfg, x.y, EventsOf(acts)) && After(cfg, x.y, EventsOf(acts)) == Reach(cfg, x, acts).y
    decreases |acts|
  {
    hide Next, Enabled;
    if acts != [] {
      IsLaneRun(cfg, Do(cfg, x, acts[0]), acts[1..]);
      var rest := EventsOf(acts[1..]);
      match acts[0] {
        case Other(e) => assert ([e] + rest)[1..] == rest;
        case Pass(starts) => assert ([TakeStartable(starts)] + rest)[1..] == rest;
        case _ => assert [] + rest == rest;
      }
    }
  }
}
