/** The dam's invariant over all runs, and what a cancel guarantees to the tasks around it. */
module DamTheorems {
  import opened Wrappers
  import opened DamSystem

  // ---------------------------------------------------------------- where a stamp is

  lemma PlaceStamp(q: Queue, w: Worker, handled: set<Stamp>)
    requires PlaceInv(q, w, handled) && q.nextSeq < U64_MAX
    ensures PlaceInv(q.(nextSeq := q.nextSeq + 1, pending := q.pending + {Stamp(q.nextSeq)}), w, handled)
  {
    var s := Stamp(q.nextSeq);
    assert s !in q.buffer && !Busy(w, s) && s !in handled;
  }

  lemma PlaceSend(q: Queue, w: Worker, handled: set<Stamp>, capacity: nat, s: Stamp)
    requires PlaceInv(q, w, handled) && s in q.pending
    ensures PlaceInv(Sent(q, capacity, s), w, handled)
  {
    var q' := Sent(q, capacity, s);
    assert forall x | Waiting(q', x) :: Waiting(q, x);
    assert s !in q.buffer;
  }

  lemma PlaceReceive(q: Queue, handled: set<Stamp>)
    requires PlaceInv(q, Idle, handled) && q.buffer != []
    ensures PlaceInv(q.(buffer := q.buffer[1..]), Taken(q.buffer[0]), handled)
  {
    var s, q' := q.buffer[0], q.(buffer := q.buffer[1..]);
    assert q.buffer == [s] + q'.buffer;
    assert s in q.buffer && Waiting(q, s);
    assert forall x | Waiting(q', x) :: Waiting(q, x);
    assert s !in q'.buffer;
  }

  // The worker keeps its task, or hands it over to the handled ones.
  lemma PlaceMove(q: Queue, q': Queue, w: Worker, w': Worker, handled: set<Stamp>, handled': set<Stamp>)
    requires PlaceInv(q, w, handled)
    requires q'.nextSeq == q.nextSeq && q'.pending == q.pending && q'.buffer == q.buffer
    requires forall s | Busy(w', s) :: Busy(w, s)
    requires handled' == handled || (!w.Idle? && w'.Idle? && handled' == handled + {w.s})
    ensures PlaceInv(q', w', handled')
  {
    assert forall s :: Waiting(q', s) == Waiting(q, s);
    assert !w.Idle? ==> Busy(w, w.s);
  }

  lemma BusyIsNotHandled(q: Queue, w: Worker, handled: set<Stamp>, s: Stamp)
    requires PlaceInv(q, w, handled)
    ensures Busy(w, s) ==> s !in handled
  {}

  // ---------------------------------------------------------------- flags, attempts and callbacks

  lemma CurrentKept(capacity: nat, y: System, e: Event)
    requires Enabled(y, e) && CurrentInv(y.current, y.worker)
    ensures CurrentInv(Next(capacity, y, e).current, Next(capacity, y, e).worker)
  {}

  lemma NotifyFrame(log: Log, s: Stamp)
    ensures Notify(log, s).ran == log.ran && Notify(log, s).handled == log.handled
    ensures Notify(log, s).begins == log.begins && Notify(log, s).flagged == log.flagged + {s}
    ensures Notify(log, s).notified == log.notified + {s} && Notify(log, s).exits == log.exits
  {
    assert s in log.notified ==> log.notified + {s} == log.notified;
  }

  // What one event can do to the worker and the log.
  ghost predicate Moves(watermark: nat, w: Worker, log: Log, w': Worker, log': Log) {
    || (w' == w && log' == log)
    || (w' == w && (w.Published? || w.Running? || w.Clearing?) && log' == Flag(log, w.s))
    || (w.Idle? && w'.Taken? && log' == log)
    || (w.Taken? && w' == Passed(w.s) && log' == log)
    || (w.Taken? && w.s.n < watermark && w' == Idle && log' == Handled(Notify(log, w.s), w.s))
    || (w.Passed? && w' == Published(w.s) && log' == log)
    || (w.Published? && w.s.n < watermark && w' == Clearing(w.s) && log' == Notify(log, w.s))
    || (w.Published? && w' == Running(w.s, Entering) && log' == log.(ran := log.ran + {w.s}))
    || (w.Clearing? && w' == Idle && log' == Handled(log, w.s))
    || (w.Running? && w'.Running? && w'.s == w.s && log' == log)
    || (w.Running? && w'.Running? && w'.s == w.s && log' == log.(begins := log.begins + multiset{w.s}))
    || LeavesLoop(w, log, w', log')
  }

  ghost predicate LeavesLoop(w: Worker, log: Log, w': Worker, log': Log) {
    && w.Running? && w' == Clearing(w.s)
    && (|| (w.s in log.flagged && log' == Leave(Notify(log, w.s), w.s, Interrupted))
        || (w.s !in log.flagged && log' == Leave(log, w.s, Finished))
        || log' == Leave(log, w.s, PanickedOut) || log' == Leave(log, w.s, NoAttempts))
  }

  lemma NextMoves(capacity: nat, y: System, e: Event)
    requires Enabled(y, e) && CurrentInv(y.current, y.worker)
    ensures var z := Next(capacity, y, e);
            Moves(y.queue.watermark, y.worker, y.log, z.worker, z.log) && y.queue.watermark <= z.queue.watermark
  {
    hide Sent, Notify, Flag, Handled, Leave;
  }

  predicate MovesQueue(e: Event) {
    e.StampNext? || e.Send? || e.Receive?
  }

  lemma QueueStays(capacity: nat, y: System, e: Event)
    requires Enabled(y, e) && !MovesQueue(e)
    ensures var q := Next(capacity, y, e).queue;
            q.nextSeq == y.queue.nextSeq && q.pending == y.queue.pending && q.buffer == y.queue.buffer
    ensures y.worker.Idle? ==> Next(capacity, y, e).worker.Idle?
  {
    hide Notify, Flag, Handled, Leave;
  }

  lemma MovesHandOver(watermark: nat, w: Worker, log: Log, w': Worker, log': Log)
    requires Moves(watermark, w, log, w', log') && (w.Idle? ==> w'.Idle?)
    ensures forall s | Busy(w', s) :: Busy(w, s)
    ensures log'.handled == log.handled || (!w.Idle? && w'.Idle? && log'.handled == log.handled + {w.s})
  {
    if !w.Idle? {
      NotifyFrame(log, w.s);
    }
    hide Notify;
  }

  lemma PlaceKept(capacity: nat, y: System, e: Event)
    requires Enabled(y, e) && PlaceInv(y.queue, y.worker, y.log.handled) && CurrentInv(y.current, y.worker)
    ensures PlaceInv(Next(capacity, y, e).queue, Next(capacity, y, e).worker, Next(capacity, y, e).log.handled)
  {
    hide PlaceInv, Waiting, Sent, Notify, Moves;
    match e {
      case StampNext => PlaceStamp(y.queue, y.worker, y.log.handled);
      case Send(s) => PlaceSend(y.queue, y.worker, y.log.handled, capacity, s);
      case Receive => PlaceReceive(y.queue, y.log.handled);
      case _ => PlaceStays(capacity, y, e);
    }
  }

  lemma PlaceStays(capacity: nat, y: System, e: Event)
    requires Enabled(y, e) && PlaceInv(y.queue, y.worker, y.log.handled) && CurrentInv(y.current, y.worker)
    requires !MovesQueue(e)
    ensures PlaceInv(Next(capacity, y, e).queue, Next(capacity, y, e).worker, Next(capacity, y, e).log.handled)
  {
    NextMoves(capacity, y, e);
    QueueStays(capacity, y, e);
    hide PlaceInv, Next, Enabled, Moves;
    var z := Next(capacity, y, e);
    MovesHandOver(y.queue.watermark, y.worker, y.log, z.worker, z.log);
    PlaceMove(y.queue, z.queue, y.worker, z.worker, y.log.handled, z.log.handled);
  }

  lemma ToldKept(watermark: nat, w: Worker, log: Log, w': Worker, log': Log, s: Stamp)
    requires Moves(watermark, w, log, w', log') && Told(log, s)
    ensures Told(log', s)
  {
    if !w.Idle? {
      NotifyTold(log, w.s, s);
    }
    hide Notify;
  }

  lemma NotifyTold(log: Log, t: Stamp, s: Stamp)
    requires Told(log, s)
    ensures Told(Notify(log, t), s)
  {}

  lemma AttemptedKept(watermark: nat, w: Worker, log: Log, w': Worker, log': Log, s: Stamp)
    requires Moves(watermark, w, log, w', log') && Attempted(w, log, s)
    ensures Attempted(w', log', s)
  {
    if !w.Idle? {
      NotifyFrame(log, w.s);
    }
    hide Notify;
  }

  lemma ReachingKept(watermark: nat, watermark': nat, w: Worker, log: Log, w': Worker, log': Log, s: Stamp)
    requires Moves(watermark, w, log, w', log') && watermark <= watermark'
    requires Reaching(watermark, w, log, s) && Attempted(w, log, s) && (Busy(w, s) ==> s !in log.handled)
    ensures Reaching(watermark', w', log', s)
  {
    hide Moves, Notify, FlaggedWhile, ToldWhile, Dropped, Attempted;
    FlaggedWhileKept(watermark, w, log, w', log', s);
    ToldWhileKept(watermark, w, log, w', log', s);
    DroppedKept(watermark, watermark', w, log, w', log', s);
  }

  lemma FlaggedWhileKept(watermark: nat, w: Worker, log: Log, w': Worker, log': Log, s: Stamp)
    requires Moves(watermark, w, log, w', log') && FlaggedWhile(w, log, s) && (Busy(w, s) ==> s !in log.handled)
    ensures FlaggedWhile(w', log', s)
  {
    if !w.Idle? {
      NotifyFrame(log, w.s);
    }
    hide Notify;
  }

  lemma ToldWhileKept(watermark: nat, w: Worker, log: Log, w': Worker, log': Log, s: Stamp)
    requires Moves(watermark, w, log, w', log') && ToldWhile(w, log, s) && (Busy(w, s) ==> s !in log.handled)
    ensures ToldWhile(w', log', s)
  {
    if !w.Idle? {
      NotifyFrame(log, w.s);
    }
    hide Notify;
  }

  lemma DroppedKept(watermark: nat, watermark': nat, w: Worker, log: Log, w': Worker, log': Log, s: Stamp)
    requires Moves(watermark, w, log, w', log') && watermark <= watermark'
    requires Dropped(watermark, w, log, s) && Attempted(w, log, s) && (Busy(w, s) ==> s !in log.handled)
    ensures Dropped(watermark', w', log', s)
  {
    if !w.Idle? {
      NotifyFrame(log, w.s);
    }
    hide Notify;
  }

  lemma LeftByLeaving(w: Worker, log: Log, w': Worker, log': Log, s: Stamp)
    requires LeavesLoop(w, log, w', log') && Left(w, log, s)
    requires (Busy(w, s) ==> s !in log.handled && s in log.ran) && (s in log.notified ==> s in log.flagged)
    requires s in log.notified ==> !Busy(w, s)
    ensures Left(w', log', s)
  {
    NotifyFrame(log, w.s);
    hide Notify;
  }

  lemma LeftKept(watermark: nat, w: Worker, log: Log, w': Worker, log': Log, s: Stamp)
    requires Moves(watermark, w, log, w', log') && Left(w, log, s) && Attempted(w, log, s) && Told(log, s)
    requires Reaching(watermark, w, log, s) && (Busy(w, s) ==> s !in log.handled)
    ensures Left(w', log', s)
  {
    if !w.Idle? {
      NotifyFrame(log, w.s);
    }
    hide Notify, LeavesLoop, Told;
    if LeavesLoop(w, log, w', log') {
      LeavingIsRunning(w, log, w', log', s);
      LeftByLeaving(w, log, w', log', s);
    }
  }

  lemma LeavingIsRunning(w: Worker, log: Log, w': Worker, log': Log, s: Stamp)
    requires LeavesLoop(w, log, w', log') && Told(log, s)
    ensures w.Running? && (s in log.notified ==> s in log.flagged)
  {}

  lemma FateKept(capacity: nat, y: System, e: Event, s: Stamp)
    requires Enabled(y, e) && CurrentInv(y.current, y.worker) && FateOf(y.queue, y.worker, y.log, s)
    requires Busy(y.worker, s) ==> s !in y.log.handled
    ensures FateOf(Next(capacity, y, e).queue, Next(capacity, y, e).worker, Next(capacity, y, e).log, s)
  {
    NextMoves(capacity, y, e);
    hide Next, Enabled, Moves, Told, Attempted, Reaching, Left;
    var z := Next(capacity, y, e);
    ToldKept(y.queue.watermark, y.worker, y.log, z.worker, z.log, s);
    AttemptedKept(y.queue.watermark, y.worker, y.log, z.worker, z.log, s);
    ReachingKept(y.queue.watermark, z.queue.watermark, y.worker, y.log, z.worker, z.log, s);
    LeftKept(y.queue.watermark, y.worker, y.log, z.worker, z.log, s);
  }

  lemma CallKept(capacity: nat, y: System, e: Event, k: CallId)
    requires Enabled(y, e) && CurrentInv(y.current, y.worker) && k in Next(capacity, y, e).calls
    requires k in y.calls ==> CallInv(y.queue, y.worker, y.log.flagged, y.calls[k])
    ensures CallInv(Next(capacity, y, e).queue, Next(capacity, y, e).worker, Next(capacity, y, e).log.flagged,
                    Next(capacity, y, e).calls[k])
  {
    hide Sent;
  }

  lemma StepKeeps(capacity: nat, y: System, e: Event)
    requires Enabled(y, e) && SystemInv(y)
    ensures SystemInv(Next(capacity, y, e))
  {
    hide Next, PlaceInv, CurrentInv, FateOf, CallInv, Enabled, Busy;
    var z := Next(capacity, y, e);
    PlaceKept(capacity, y, e);
    CurrentKept(capacity, y, e);
    forall s: Stamp ensures FateOf(z.queue, z.worker, z.log, s) {
      BusyIsNotHandled(y.queue, y.worker, y.log.handled, s);
      FateKept(capacity, y, e, s);
    }
    forall k | k in z.calls ensures CallInv(z.queue, z.worker, z.log.flagged, z.calls[k]) {
      CallKept(capacity, y, e, k);
    }
  }

  lemma {:induction false} RunKeeps(capacity: nat, y: System, events: seq<Event>)
    requires Legal(capacity, y, events) && SystemInv(y)
    ensures SystemInv(After(capacity, y, events))
    decreases |events|
  {
    hide SystemInv, Next, Enabled;
    if events != [] {
      StepKeeps(capacity, y, events[0]);
      RunKeeps(capacity, Next(capacity, y, events[0]), events[1..]);
    }
  }

  lemma Reached(capacity: nat, events: seq<Event>)
    requires Legal(capacity, Start, events)
    ensures SystemInv(After(capacity, Start, events))
  {
    assert SystemInv(Start);
    RunKeeps(capacity, Start, events);
  }

  // ---------------------------------------------------------------- every execution, every run

  /** An execution is told of its interruption at most once, and only if it was cancelled. One that
      the worker is done with either reached its attempt loop, and was told exactly if it left it
      interrupted; or it was dropped: then it never began an attempt, was told exactly once, and
      some cancel's bound was above it. */
  lemma HandledOnce(capacity: nat, events: seq<Event>, s: Stamp)
    requires Legal(capacity, Start, events)
    ensures var z := After(capacity, Start, events);
            && z.log.interrupts[s] <= 1
            && (z.log.interrupts[s] == 1 ==> s in z.log.flagged)
            && (s in z.log.handled && s !in z.log.ran ==>
                  z.log.begins[s] == 0 && z.log.interrupts[s] == 1 && s.n < z.queue.watermark)
            && (s in z.log.handled && s in z.log.ran ==>
                  s in z.log.exits && (z.log.interrupts[s] == 1 <==> z.log.exits[s].Interrupted?))
            && (Waiting(z.queue, s) ==>
                  z.log.begins[s] == 0 && z.log.interrupts[s] == 0 && s !in z.log.flagged)
  {
    Reached(capacity, events);
    var z := After(capacity, Start, events);
    assert FateOf(z.queue, z.worker, z.log, s);
  }

  // Flagged in its attempt loop, which can no longer finish as if nothing had happened.
  ghost predicate Caught(w: Worker, log: Log, s: Stamp) {
    && s in log.flagged
    && ((w.Running? && w.s == s) || (s in log.exits && !log.exits[s].Finished?))
  }

  lemma CaughtMove(watermark: nat, w: Worker, log: Log, w': Worker, log': Log, s: Stamp)
    requires Moves(watermark, w, log, w', log') && Left(w, log, s) && (Busy(w, s) ==> s !in log.handled)
    requires Caught(w, log, s)
    ensures Caught(w', log', s)
  {
    if !w.Idle? {
      NotifyFrame(log, w.s);
    }
    hide Notify;
  }

  lemma {:induction false} CaughtRun(capacity: nat, y: System, events: seq<Event>, s: Stamp)
    requires Legal(capacity, y, events) && SystemInv(y) && Caught(y.worker, y.log, s)
    ensures Caught(After(capacity, y, events).worker, After(capacity, y, events).log, s)
    decreases |events|
  {
    if events != [] {
      assert FateOf(y.queue, y.worker, y.log, s);
      BusyIsNotHandled(y.queue, y.worker, y.log.handled, s);
      StepKeeps(capacity, y, events[0]);
      NextMoves(capacity, y, events[0]);
      hide SystemInv, Next, Enabled, Caught, Moves, Left;
      var z := Next(capacity, y, events[0]);
      CaughtMove(y.queue.watermark, y.worker, y.log, z.worker, z.log, s);
      CaughtRun(capacity, Next(capacity, y, events[0]), events[1..], s);
    }
  }

  /** An execution flagged while it is in its attempt loop is told exactly once by the time the worker
      is done with it, unless its loop panicked or had no attempts. */
  lemma FlaggedLoopIsTold(capacity: nat, before: seq<Event>, events: seq<Event>, s: Stamp)
    requires Legal(capacity, Start, before) && Legal(capacity, After(capacity, Start, before), events)
    requires After(capacity, Start, before).worker.Running? && After(capacity, Start, before).worker.s == s
    requires s in After(capacity, Start, before).log.flagged
    ensures var z := After(capacity, After(capacity, Start, before), events);
            s in z.log.handled ==>
              s in z.log.exits &&
              (z.log.interrupts[s] == 1 || z.log.exits[s].PanickedOut? || z.log.exits[s].NoAttempts?)
  {
    var y := After(capacity, Start, before);
    var z := After(capacity, y, events);
    Reached(capacity, before);
    CaughtRun(capacity, y, events, s);
    RunKeeps(capacity, y, events);
    BusyIsNotHandled(z.queue, z.worker, z.log.handled, s);
    assert FateOf(z.queue, z.worker, z.log, s);
  }

  // ---------------------------------------------------------------- tasks below a cancel's snapshot

  predicate Covered(y: System, k: CallId, s: Stamp) {
    k in y.calls && y.calls[k].phase.Returned? && s.n < y.calls[k].bound
  }

  // The one attempt of `s` that is already past its cancellation check.
  function Slack(y: System, s: Stamp): nat {
    if y.worker == Running(s, Cleared) then 1 else 0
  }

  lemma CoveredStep(capacity: nat, y: System, e: Event, k: CallId, s: Stamp)
    requires Enabled(y, e) && Covered(y, k, s) && CallInv(y.queue, y.worker, y.log.flagged, y.calls[k])
    ensures var z := Next(capacity, y, e);
            && Covered(z, k, s)
            && z.log.begins[s] + Slack(z, s) <= y.log.begins[s] + Slack(y, s)
            && (s in z.log.ran ==> s in y.log.ran)
  {
    hide Sent;
  }

  lemma {:induction false} CoveredRun(capacity: nat, y: System, events: seq<Event>, k: CallId, s: Stamp)
    requires Legal(capacity, y, events) && SystemInv(y) && Covered(y, k, s)
    ensures var z := After(capacity, y, events);
            && z.log.begins[s] + Slack(z, s) <= y.log.begins[s] + Slack(y, s)
            && (s in z.log.ran ==> s in y.log.ran)
    decreases |events|
  {
    if events != [] {
      StepKeeps(capacity, y, events[0]);
      CoveredStep(capacity, y, events[0], k, s);
      hide SystemInv, Next, Enabled, Covered, Slack;
      CoveredRun(capacity, Next(capacity, y, events[0]), events[1..], k, s);
    }
  }

  /** After a cancel has returned, a task below its bound begins no attempt any more, save the one
      already past its check; if it had not reached its attempt loop it never will, and once the
      worker is done with it, it has been told exactly once. */
  lemma CancelReachesOlderTasks(capacity: nat, before: seq<Event>, events: seq<Event>, k: CallId, s: Stamp)
    requires Legal(capacity, Start, before) && Legal(capacity, After(capacity, Start, before), events)
    requires Covered(After(capacity, Start, before), k, s)
    ensures var y := After(capacity, Start, before); var z := After(capacity, y, events);
            && z.log.begins[s] <= y.log.begins[s] + (if y.worker == Running(s, Cleared) then 1 else 0)
            && (y.worker.Running? && y.worker.s == s ==> s in y.log.flagged)
            && (s !in y.log.ran ==>
                  z.log.begins[s] == 0 && (s in z.log.handled ==> z.log.interrupts[s] == 1))
  {
    var y := After(capacity, Start, before);
    var z := After(capacity, y, events);
    Reached(capacity, before);
    RunKeeps(capacity, y, events);
    CoveredRun(capacity, y, events, k, s);
    assert CallInv(y.queue, y.worker, y.log.flagged, y.calls[k]);
    assert FateOf(z.queue, z.worker, z.log, s);
  }

  // ---------------------------------------------------------------- tasks enqueued after a cancel

  // No cancel is under way and none has a bound above `s`.
  ghost predicate Spared(y: System, s: Stamp) {
    && (forall k | k in y.calls :: y.calls[k].phase.Returned?)
    && y.queue.watermark <= s.n && s !in y.log.flagged
  }

  lemma SparedStep(capacity: nat, y: System, e: Event, s: Stamp)
    requires Enabled(y, e) && Spared(y, s) && !e.CallStarts?
    ensures Spared(Next(capacity, y, e), s)
  {
    hide Sent;
  }

  lemma {:induction false} SparedRun(capacity: nat, y: System, events: seq<Event>, s: Stamp)
    requires Legal(capacity, y, events) && Spared(y, s)
    requires forall i | 0 <= i < |events| :: !events[i].CallStarts?
    ensures Spared(After(capacity, y, events), s)
    decreases |events|
  {
    if events != [] {
      assert !events[0].CallStarts?;
      SparedStep(capacity, y, events[0], s);
      hide Next, Enabled, Spared;
      SparedRun(capacity, Next(capacity, y, events[0]), events[1..], s);
    }
  }

  // Without a release, the channel stays open and the watermark within the stamps handed out.
  ghost predicate Bounded(y: System) {
    && y.queue.watermark <= y.queue.nextSeq && y.queue.open
    && (forall k | k in y.calls :: !y.calls[k].release && y.calls[k].bound <= y.queue.nextSeq)
  }

  lemma BoundedStep(capacity: nat, y: System, e: Event)
    requires Enabled(y, e) && Bounded(y) && !(e.CallStarts? && e.release)
    ensures Bounded(Next(capacity, y, e))
  {
    hide Sent, Notify;
  }

  lemma {:induction false} BoundedRun(capacity: nat, y: System, events: seq<Event>)
    requires Legal(capacity, y, events) && Bounded(y)
    requires forall i | 0 <= i < |events| :: !(events[i].CallStarts? && events[i].release)
    ensures Bounded(After(capacity, y, events))
    decreases |events|
  {
    if events != [] {
      assert !(events[0].CallStarts? && events[0].release);
      BoundedStep(capacity, y, events[0]);
      hide Next, Enabled, Bounded;
      BoundedRun(capacity, Next(capacity, y, events[0]), events[1..]);
    }
  }

  /** Once every cancel has returned, a task enqueued from then on is never cancelled by them: it is
      not flagged, not told of an interruption, and reaches its attempt loop when its turn comes. */
  lemma CancelSparesLaterTasks(capacity: nat, before: seq<Event>, events: seq<Event>, s: Stamp)
    requires Legal(capacity, Start, before) && Legal(capacity, After(capacity, Start, before), events)
    requires forall i | 0 <= i < |before| :: !(before[i].CallStarts? && before[i].release)
    requires forall k | k in After(capacity, Start, before).calls ::
               After(capacity, Start, before).calls[k].phase.Returned?
    requires forall i | 0 <= i < |events| :: !events[i].CallStarts?
    requires s.n >= After(capacity, Start, before).queue.nextSeq
    ensures var z := After(capacity, After(capacity, Start, before), events);
            && s !in z.log.flagged && z.log.interrupts[s] == 0
            && (s in z.log.handled ==> s in z.log.ran)
  {
    var y := After(capacity, Start, before);
    var z := After(capacity, y, events);
    Reached(capacity, before);
    RunKeeps(capacity, y, events);
    BoundedRun(capacity, Start, before);
    assert FateOf(y.queue, y.worker, y.log, s) && FateOf(z.queue, z.worker, z.log, s);
    assert PlaceInv(y.queue, y.worker, y.log.handled);
    assert Spared(y, s);
    SparedRun(capacity, y, events, s);
  }

  lemma Prepend(capacity: nat, y: System, e: Event, rest: seq<Event>)
    requires Enabled(y, e) && Legal(capacity, Next(capacity, y, e), rest)
    ensures Legal(capacity, y, [e] + rest)
    ensures After(capacity, y, [e] + rest) == After(capacity, Next(capacity, y, e), rest)
  {
    assert ([e] + rest)[1..] == rest;
  }

  lemma {:induction false} Concat(capacity: nat, y: System, first: seq<Event>, rest: seq<Event>)
    requires Legal(capacity, y, first) && Legal(capacity, After(capacity, y, first), rest)
    ensures Legal(capacity, y, first + rest)
    ensures After(capacity, y, first + rest) == After(capacity, After(capacity, y, first), rest)
    decreases |first|
  {
    hide Next, Enabled;
    if first == [] {
      assert first + rest == rest;
    } else {
      assert (first + rest)[1..] == first[1..] + rest;
      Concat(capacity, Next(capacity, y, first[0]), first[1..], rest);
    }
  }

  ghost predicate WithoutCalls(events: seq<Event>) {
    forall i | 0 <= i < |events| :: !events[i].CallStarts?
  }

  predicate Drained(y: System) {
    y.worker.Idle? && y.queue.buffer == []
  }

  // One way for the worker to go on.
  function WorkerStep(w: Worker): Event {
    match w
    case Idle => Receive
    case Taken(_) => FirstCheck
    case Passed(_) => Publish
    case Published(_) => Recheck
    case Running(_, _) => Panics(false)
    case Clearing(_) => Clear
  }

  function WorkLeft(y: System): nat {
    6 * |y.queue.buffer| +
    match y.worker
    case Idle => 0
    case Clearing(_) => 1
    case Running(_, _) => 2
    case Published(_) => 3
    case Passed(_) => 4
    case Taken(_) => 5
  }

  lemma WorkerStepWorks(capacity: nat, y: System)
    requires !Drained(y)
    ensures Enabled(y, WorkerStep(y.worker))
    ensures var z := Next(capacity, y, WorkerStep(y.worker));
            && WorkLeft(z) < WorkLeft(y) && z.calls == y.calls
            && z.queue.(buffer := []) == y.queue.(buffer := [])
  {
    hide Sent, Notify;
  }

  function Drain(capacity: nat, y: System): seq<Event>
    decreases WorkLeft(y)
  {
    if Drained(y) then []
    else
      WorkerStepWorks(capacity, y);
      [WorkerStep(y.worker)] + Drain(capacity, Next(capacity, y, WorkerStep(y.worker)))
  }

  // The worker can always finish everything it was sent, while the cancellers stand still.
  lemma {:induction false} DrainWorks(capacity: nat, y: System)
    ensures Legal(capacity, y, Drain(capacity, y)) && WithoutCalls(Drain(capacity, y))
    ensures var z := After(capacity, y, Drain(capacity, y));
            Drained(z) && z.calls == y.calls && z.queue == y.queue.(buffer := [])
    decreases WorkLeft(y)
  {
    if !Drained(y) {
      WorkerStepWorks(capacity, y);
      hide Next, Enabled, WorkLeft;
      var e := WorkerStep(y.worker);
      DrainWorks(capacity, Next(capacity, y, e));
      Prepend(capacity, y, e, Drain(capacity, Next(capacity, y, e)));
    }
  }

  // The next task is enqueued and published.
  function Arrive(s: Stamp): seq<Event> {
    [StampNext] + ([Send(s)] + ([Receive] + ([FirstCheck] + ([Publish] + []))))
  }

  lemma ArriveWorks(capacity: nat, y: System)
    requires Drained(y) && y.queue.open && capacity > 0
    requires y.queue.watermark <= y.queue.nextSeq < U64_MAX
    ensures var s := Stamp(y.queue.nextSeq);
            && Legal(capacity, y, Arrive(s)) && WithoutCalls(Arrive(s))
            && After(capacity, y, Arrive(s)).current == Some(s) && After(capacity, y, Arrive(s)).calls == y.calls
  {
    var s := Stamp(y.queue.nextSeq);
    var y1 := Next(capacity, y, StampNext);
    var y2 := Next(capacity, y1, Send(s));
    var y3 := Next(capacity, y2, Receive);
    var y4 := Next(capacity, y3, FirstCheck);
    Prepend(capacity, y4, Publish, []);
    hide Next, Enabled;
    Prepend(capacity, y3, FirstCheck, [Publish] + []);
    Prepend(capacity, y2, Receive, [FirstCheck] + ([Publish] + []));
    Prepend(capacity, y1, Send(s), [Receive] + ([FirstCheck] + ([Publish] + [])));
    Prepend(capacity, y, StampNext, [Send(s)] + ([Receive] + ([FirstCheck] + ([Publish] + []))));
  }

  // What is left of a cancel that has started.
  function Complete(y: System, k: CallId): seq<Event>
    requires k in y.calls
  {
    if y.calls[k].phase.Snapshot? then [Raise(k)] + ([FlagCurrent(k)] + []) else [FlagCurrent(k)] + []
  }

  lemma CompleteWorks(capacity: nat, y: System, k: CallId)
    requires k in y.calls && !y.calls[k].phase.Returned? && y.current.Some?
    ensures Legal(capacity, y, Complete(y, k)) && WithoutCalls(Complete(y, k))
    ensures y.current.value in After(capacity, y, Complete(y, k)).log.flagged
  {
    if y.calls[k].phase.Snapshot? {
      Prepend(capacity, Next(capacity, y, Raise(k)), FlagCurrent(k), []);
      Prepend(capacity, y, Raise(k), [FlagCurrent(k)] + []);
    } else {
      Prepend(capacity, y, FlagCurrent(k), []);
    }
  }

  // No continuation without further cancels flags `s`.
  ghost predicate NeverFlagged(capacity: nat, y: System, events: seq<Event>, s: Stamp) {
    Legal(capacity, y, events) && WithoutCalls(events) ==> s !in After(capacity, y, events).log.flagged
  }

  /** Wherever a run without a release stands, a cancel that is still running may flag the next task to
      be enqueued, although that task is stamped at or above its snapshot. */
  lemma CancelMayFlagLaterTask(capacity: nat, y: System, k: CallId) returns (events: seq<Event>)
    requires Bounded(y) && capacity > 0 && y.queue.nextSeq < U64_MAX
    requires k in y.calls && !y.calls[k].phase.Returned?
    ensures y.calls[k].bound <= y.queue.nextSeq
    ensures Legal(capacity, y, events) && WithoutCalls(events)
    ensures Stamp(y.queue.nextSeq) in After(capacity, y, events).log.flagged
  {
    var s := Stamp(y.queue.nextSeq);
    hide Next, Enabled, Drain, Arrive, Complete;
    DrainWorks(capacity, y);
    var y1 := After(capacity, y, Drain(capacity, y));
    ArriveWorks(capacity, y1);
    var y2 := After(capacity, y1, Arrive(s));
    CompleteWorks(capacity, y2, k);
    Concat(capacity, y1, Arrive(s), Complete(y2, k));
    Concat(capacity, y, Drain(capacity, y), Arrive(s) + Complete(y2, k));
    events := Drain(capacity, y) + (Arrive(s) + Complete(y2, k));
  }

  /** The next task to be enqueued is safe from the cancels made so far exactly when every one of them
      has returned. */
  lemma NextTaskIsSpared(capacity: nat, before: seq<Event>)
    requires Legal(capacity, Start, before) && capacity > 0
    requires forall i | 0 <= i < |before| :: !(before[i].CallStarts? && before[i].release)
    requires After(capacity, Start, before).queue.nextSeq < U64_MAX
    ensures var y := After(capacity, Start, before);
            (forall events :: NeverFlagged(capacity, y, events, Stamp(y.queue.nextSeq))) <==>
            (forall k | k in y.calls :: y.calls[k].phase.Returned?)
  {
    var y := After(capacity, Start, before);
    var s := Stamp(y.queue.nextSeq);
    BoundedRun(capacity, Start, before);
    hide Bounded;
    if k :| k in y.calls && !y.calls[k].phase.Returned? {
      var events := CancelMayFlagLaterTask(capacity, y, k);
      assert !NeverFlagged(capacity, y, events, s);
    } else {
      forall events ensures NeverFlagged(capacity, y, events, s) {
        if Legal(capacity, y, events) && WithoutCalls(events) {
          CancelSparesLaterTasks(capacity, before, events, s);
        }
      }
    }
  }

  // After a release no attempt loop is entered again, whatever was enqueued.
  lemma ReleaseStopsEverything(capacity: nat, before: seq<Event>, events: seq<Event>, k: CallId, s: Stamp)
    requires Legal(capacity, Start, before) && Legal(capacity, After(capacity, Start, before), events)
    requires var y := After(capacity, Start, before);
             k in y.calls && y.calls[k].phase.Returned? && y.calls[k].bound == U64_MAX
    requires s.n < U64_MAX && s !in After(capacity, Start, before).log.ran
    ensures var z := After(capacity, After(capacity, Start, before), events);
            && z.log.begins[s] == 0 && (s in z.log.handled ==> z.log.interrupts[s] == 1)
  {
    CancelReachesOlderTasks(capacity, before, events, k, s);
  }

  // ---------------------------------------------------------------- the loop's decisions

  // Leaves the attempt loop, told exactly if it is interrupted.
  ghost predicate LeavesAs(y: System, z: System, exit: LoopExit) {
    && y.worker.Running? && z.worker == Clearing(y.worker.s)
    && z.log.exits == y.log.exits[y.worker.s := exit]
    && (if exit.Interrupted? then y.worker.s in z.log.notified else z.log.notified == y.log.notified)
    && z.log.begins == y.log.begins && z.queue == y.queue
  }

  /** A check or the end of an attempt that finds the flag leaves the loop interrupted; without it a check
      goes on, an attempt that asks for another is followed by a check, and any other ends the loop. A
      panic ends every loop but that of a periodic task that is not flagged, which restarts. */
  lemma LoopDecides(capacity: nat, y: System, e: Event)
    requires Enabled(y, e) && (e.Check? || e.BeginWork? || e.WorkEnds? || e.Panics? || e.Resume? || e.Enter?)
    ensures var z := Next(capacity, y, e); var s := y.worker.s; var flagged := s in y.log.flagged;
            match e
            case Check => if flagged then LeavesAs(y, z, Interrupted) else z == y.(worker := Running(s, Cleared))
            case BeginWork =>
              z.worker == Running(s, Executing) && z.log.begins == y.log.begins + multiset{s}
            case WorkEnds(outcome) =>
              if flagged then LeavesAs(y, z, Interrupted)
              else if outcome.Retry? then z == y.(worker := Running(s, Checking))
              else LeavesAs(y, z, Finished)
            case Panics(periodic) =>
              if periodic && !flagged then z == y.(worker := Running(s, Restarting)) else LeavesAs(y, z, PanickedOut)
            case Resume => if flagged then LeavesAs(y, z, Interrupted) else z == y.(worker := Running(s, Entering))
            case Enter(empty) =>
              if empty then LeavesAs(y, z, NoAttempts) else z == y.(worker := Running(s, Checking))
            case _ => true
  {}

  // Attempting, or done with its attempts: at least one has begun.
  ghost predicate Began(w: Worker, log: Log, s: Stamp) {
    && (w == Running(s, Executing) ==> log.begins[s] > 0)
    && (s in log.exits && log.exits[s].Finished? ==> log.begins[s] > 0)
  }

  lemma BeganStep(capacity: nat, y: System, e: Event, s: Stamp)
    requires Enabled(y, e) && Began(y.worker, y.log, s)
    ensures Began(Next(capacity, y, e).worker, Next(capacity, y, e).log, s)
  {
    hide Sent, CallAt;
  }

  lemma {:induction false} BeganRun(capacity: nat, y: System, events: seq<Event>, s: Stamp)
    requires Legal(capacity, y, events) && Began(y.worker, y.log, s)
    ensures Began(After(capacity, y, events).worker, After(capacity, y, events).log, s)
    decreases |events|
  {
    hide Began, Next, Enabled;
    if events != [] {
      BeganStep(capacity, y, events[0], s);
      BeganRun(capacity, Next(capacity, y, events[0]), events[1..], s);
    }
  }

  // An execution whose loop finished began at least one attempt.
  lemma FinishedMeansAttempted(capacity: nat, events: seq<Event>, s: Stamp)
    requires Legal(capacity, Start, events)
    ensures var log := After(capacity, Start, events).log;
            s in log.exits && log.exits[s].Finished? ==> log.begins[s] > 0
  {
    BeganRun(capacity, Start, events, s);
  }
}
