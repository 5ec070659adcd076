/** What a lane guarantees in every state that some run reaches. */
module LaneTheorems {
  import opened Wrappers
  import opened LaneState
  import opened LaneInvariant
  import opened LaneSystem
  import opened LaneRuns
  import opened LaneFairness

  lemma Reached(cfg: Config, events: seq<Event>)
    requires Legal(cfg, Start, events)
    ensures SystemInv(cfg, After(cfg, Start, events))
  {
    StartHolds(cfg);
    RunKeeps(cfg, Start, events);
  }

  // ---------------------------------------------------------------- the lane invariant

  lemma LaneInvariantOverRuns(cfg: Config, events: seq<Event>)
    requires Legal(cfg, Start, events)
    ensures var s := After(cfg, Start, events).lane;
            && Distinct(s.queue) && Elements(s.queue) == s.entries.Keys && |s.entries| <= cfg.capacity
            && s.entries.Keys <= s.active && s.running == |s.active - s.entries.Keys| <= cfg.concurrency
            && (forall a, b | a in s.runningKeys && b in s.runningKeys && a != b ::
                  s.runningKeys[a] != s.runningKeys[b])
            && (forall key | key in s.refcounts ::
                  s.refcounts[key] == |Holders(s.entries, s.runningKeys, key)| > 0)
            && (forall key: OrderingKey :: Holders(s.entries, s.runningKeys, key) != {} ==> key in s.refcounts)
            && |s.refcounts| <= cfg.maxKeys
  {
    var s := After(cfg, Start, events).lane;
    Reached(cfg, events);
    QueueIsDistinct(s);
    CountsArePositive(s.entries, s.runningKeys, s.refcounts);
  }

  lemma CountsArePositive(e: Entries, k: Keys, counts: map<OrderingKey, nat>)
    requires CountInv(e, k, counts)
    ensures forall key | key in counts :: counts[key] > 0
  {
    forall key | key in counts ensures counts[key] > 0 {
      assert Holders(e, k, key) != {};
      assert |Holders(e, k, key)| > 0;
    }
  }

  // No counter underflows and no lookup misses, so the logged repairs never run.
  lemma LoggedBranchesUnreachable(cfg: Config, events: seq<Event>, id: ExecutionId, t: Ticket)
    requires Legal(cfg, Start, events)
    ensures var y := After(cfg, Start, events); var s := y.lane;
            && (id in s.entries && s.entries[id].key.Some? ==>
                  s.entries[id].key.value in s.refcounts && s.refcounts[s.entries[id].key.value] > 0)
            && (id in s.runningKeys ==>
                  s.runningKeys[id] in s.refcounts && s.refcounts[s.runningKeys[id]] > 0 &&
                  s.runningKeys[id] in s.activeKeys)
            && (id in s.active && id !in s.entries ==> s.running > 0)
            && (id in s.queue ==> id in s.entries)
            && (t in y.desk.phases ==> t in s.waiting && s.waitingProducers > 0)
  {
    var y := After(cfg, Start, events);
    var s := y.lane;
    Reached(cfg, events);
    CountsArePositive(s.entries, s.runningKeys, s.refcounts);
    if id in s.entries && s.entries[id].key.Some? {
      HoldersAre(s.entries, s.runningKeys, s.entries[id].key.value);
      assert Holds(s.entries, s.runningKeys, id, s.entries[id].key.value);
    }
    if id in s.runningKeys {
      HoldersAre(s.entries, s.runningKeys, s.runningKeys[id]);
      assert Holds(s.entries, s.runningKeys, id, s.runningKeys[id]);
    }
    if id in s.active && id !in s.entries {
      FinishKeepsRuns(s, id);
    }
    if t in y.desk.phases {
      assert t in s.waiting;
    }
  }

  // ---------------------------------------------------------------- wake-ups

  /** No wake-up is lost: while the lane is open and has a free slot, its first waiter is polling or
      holds a notification, or some actor still owes one that will reach whoever is first then. */
  lemma NoLostWakeup(cfg: Config, events: seq<Event>)
    requires Legal(cfg, Start, events)
    ensures var y := After(cfg, Start, events);
            && (!y.lane.closing && |y.lane.entries| < cfg.capacity && y.lane.waiting != [] ==>
                  y.desk.owedHead > 0 || Covered(y.desk, y.lane.waiting[0]))
            && (y.lane.closing ==> y.desk.owedAll > 0 || forall t | t in y.lane.waiting :: Covered(y.desk, t))
  {
    Reached(cfg, events);
    var y := After(cfg, Start, events);
    assert TicketInv(y.lane.waiting, y.desk);
  }

  // No actor has anything left to do for the waiters.
  ghost predicate Quiescent(d: Desk) {
    && d.owedHead == 0 && d.owedAll == 0 && d.owedSignals == multiset{}
    && forall t | t in d.phases :: d.phases[t].Asleep?
  }

  lemma UncoveredHead(waiting: seq<Ticket>, d: Desk)
    requires TicketInv(waiting, d) && Quiescent(d) && waiting != []
    ensures waiting[0] in d.phases && !Covered(d, waiting[0])
  {
    assert waiting[0] in waiting;
  }

  // A producer can be left asleep only by an open lane whose queue is full.
  lemma QuiescentWaitersMeanFull(cfg: Config, events: seq<Event>)
    requires Legal(cfg, Start, events)
    requires Quiescent(After(cfg, Start, events).desk) && After(cfg, Start, events).lane.waiting != []
    ensures var s := After(cfg, Start, events).lane; !s.closing && |s.entries| == cfg.capacity
  {
    var y := After(cfg, Start, events);
    Reached(cfg, events);
    assert |y.lane.entries| <= cfg.capacity;
    hide Inv, FateInv, MonitorInv, OrderInv, TicketInv, Covered;
    UncoveredHead(y.lane.waiting, y.desk);
  }

  // ---------------------------------------------------------------- first come, first served

  lemma AdmissionIsFifo(cfg: Config, events: seq<Event>)
    requires Legal(cfg, Start, events)
    ensures var tickets := After(cfg, Start, events).log.tickets;
            forall i, j | 0 <= i < j < |tickets| :: tickets[i].n < tickets[j].n
  {
    Reached(cfg, events);
  }

  lemma FirstIsLeast(waiting: seq<Ticket>, next: nat, t: Ticket)
    requires WaitInv(waiting, |waiting|, next) && t in waiting
    ensures waiting[0] in waiting && waiting[0].n <= t.n
  {
    assert waiting[Position(waiting, t)] == t;
  }

  lemma AdmittedIsFirst(cfg: Config, y: System, e: Event)
    requires Enabled(cfg, y, e) && Next(cfg, y, e).log.admitted != y.log.admitted && y.lane.waiting != []
    ensures e.Admit? && e.t == y.lane.waiting[0]
  {
    hide Next, Dispatchable;
    EventEffect(cfg, y, e);
    assert EffectOf(cfg, y, e).Pushed?;
  }

  // Nobody is admitted past a waiting producer with a smaller ticket.
  lemma NoBarging(cfg: Config, events: seq<Event>, e: Event, t: Ticket)
    requires Legal(cfg, Start, events) && Enabled(cfg, After(cfg, Start, events), e)
    requires t in After(cfg, Start, events).lane.waiting
    requires Next(cfg, After(cfg, Start, events), e).log.admitted != After(cfg, Start, events).log.admitted
    ensures e.Admit? && e.t in After(cfg, Start, events).lane.waiting && e.t.n <= t.n
  {
    var y := After(cfg, Start, events);
    Reached(cfg, events);
    assert WaitInv(y.lane.waiting, |y.lane.waiting|, y.lane.nextWaiter);
    hide SystemInv, Next, Enabled, WaitInv, Legal, After;
    FirstIsLeast(y.lane.waiting, y.lane.nextWaiter, t);
    AdmittedIsFirst(cfg, y, e);
  }

  // ---------------------------------------------------------------- closing

  lemma DispatchFrame(cfg: Config, s: State, starts: seq<ExecutionId>)
    requires Dispatchable(cfg, s, starts)
    ensures Dispatch(cfg, s, starts).closing == s.closing && Dispatch(cfg, s, starts).active == s.active
    decreases |starts|
  {
    if starts != [] {
      DispatchFrame(cfg, DispatchOne(s, starts[0]), starts[1..]);
    }
  }

  lemma {:induction false} CloseStopsAdmission(cfg: Config, y: System, events: seq<Event>)
    requires Legal(cfg, y, events) && y.lane.closing
    ensures After(cfg, y, events).lane.closing && After(cfg, y, events).log.admitted == y.log.admitted
    decreases |events|
  {
    if events != [] {
      CloseStopsAdmissionStep(cfg, y, events[0]);
      CloseStopsAdmission(cfg, Next(cfg, y, events[0]), events[1..]);
    }
  }

  lemma CloseStopsAdmissionStep(cfg: Config, y: System, e: Event)
    requires Enabled(cfg, y, e) && y.lane.closing
    ensures Next(cfg, y, e).lane.closing && Next(cfg, y, e).log.admitted == y.log.admitted
  {
    hide Chosen, Saturated;
    match e {
      case TakeStartable(starts) => DispatchFrame(cfg, y.lane, starts);
      case _ =>
    }
  }

  // Closing takes nothing away from the queued work: the same starts remain possible.
  lemma {:induction false} CloseKeepsDispatching(cfg: Config, s: State, starts: seq<ExecutionId>)
    ensures Dispatchable(cfg, RequestClose(s), starts) <==> Dispatchable(cfg, s, starts)
    decreases |starts|
  {
    if starts != [] {
      assert Chosen(RequestClose(s), starts[0]) <==> Chosen(s, starts[0]) by {
        assert forall x :: Ready(RequestClose(s), x) <==> Ready(s, x);
      }
      if Chosen(s, starts[0]) {
        assert DispatchOne(RequestClose(s), starts[0]) == RequestClose(DispatchOne(s, starts[0]));
        CloseKeepsDispatching(cfg, DispatchOne(s, starts[0]), starts[1..]);
      }
    }
  }

  /** The dispatcher leaves through its exit exactly when the lane is closed and every execution it
      ever admitted has finished or was withdrawn; the pass that tells it so started nothing. */
  lemma ExitMeansDrained(cfg: Config, events: seq<Event>, starts: seq<ExecutionId>)
    requires Legal(cfg, Start, events) && Enabled(cfg, After(cfg, Start, events), TakeStartable(starts))
    ensures var y := After(cfg, Start, events); var z := Next(cfg, y, TakeStartable(starts));
            && (ShouldExit(z.lane) <==> y.lane.closing && y.log.admitted == y.log.removed + y.log.finished)
            && (ShouldExit(z.lane) ==> starts == [] && y.log.monitors == {})
  {
    var y := After(cfg, Start, events);
    Reached(cfg, events);
    DispatchFrame(cfg, y.lane, starts);
    DispatchShrinks(cfg, y.lane, starts);
    assert RunInv(y.lane.entries, y.lane.active, y.lane.running);
    ActiveIsOpen(y.lane, y.log);
    if starts != [] {
      assert starts[0] in starts;
      assert starts[0] in y.lane.active;
    }
  }

  lemma ActiveIsOpen(s: State, log: Log)
    requires FateInv(s.entries.Keys, log) && MonitorInv(s, log) && s.entries.Keys <= s.active && !log.stopped
    ensures s.active == {} <==> log.admitted == log.removed + log.finished
    ensures s.active == {} ==> log.monitors == {}
  {
    assert s.active == s.entries.Keys + log.monitors;
    if log.admitted == log.removed + log.finished {
      forall x ensures x !in s.active {
        assert x in s.entries.Keys ==> x in log.admitted;
        assert x in log.monitors ==> x in Elements(log.started) && x in log.admitted;
      }
    }
  }

  // ---------------------------------------------------------------- conservation

  // Each admitted execution has exactly one fate, and none is started twice.
  lemma StartsAtMostOnce(cfg: Config, events: seq<Event>, id: ExecutionId)
    requires Legal(cfg, Start, events) && id in After(cfg, Start, events).log.admitted
    ensures var y := After(cfg, Start, events);
            && Distinct(y.log.started)
            && (id in y.lane.entries || id in y.log.removed || id in y.log.started)
            && !(id in y.lane.entries && id in y.log.removed)
            && !(id in y.lane.entries && id in y.log.started)
            && !(id in y.log.removed && id in y.log.started)
            && (id in y.log.started <==> id in y.log.monitors || id in y.log.finished)
  {
    var y := After(cfg, Start, events);
    Reached(cfg, events);
    FateOf(cfg, y, id);
    assert id in Elements(y.log.started) <==> id in y.log.started;
    assert id in y.lane.entries <==> id in y.lane.entries.Keys;
  }

  // An execution that has left the queue never returns to it.
  lemma LeftForGood(cfg: Config, before: seq<Event>, events: seq<Event>, id: ExecutionId)
    requires Legal(cfg, Start, before) && Legal(cfg, After(cfg, Start, before), events)
    requires id in After(cfg, Start, before).log.admitted && id !in After(cfg, Start, before).lane.entries
    ensures id !in After(cfg, After(cfg, Start, before), events).lane.entries
  {
    Reached(cfg, before);
    hide SystemInv;
    NeverRequeuedInRun(cfg, After(cfg, Start, before), events, id);
  }

  // ---------------------------------------------------------------- fairness and order

  /** In any run, an unkeyed entry with `older` entries before it is started within 8 * (older + 1)
      further dispatches, whatever arrives later, unless it is withdrawn. */
  lemma StarvationBound(cfg: Config, before: seq<Event>, events: seq<Event>, id: ExecutionId, older: nat)
    requires Legal(cfg, Start, before) && Legal(cfg, After(cfg, Start, before), events)
    requires older < |After(cfg, Start, before).lane.queue| && After(cfg, Start, before).lane.queue[older] == id
    requires id in After(cfg, Start, before).lane.entries
    requires After(cfg, Start, before).lane.entries[id].key.None?
    requires var y := After(cfg, Start, before);
             |After(cfg, y, events).log.started| >= |y.log.started| + 8 * (older + 1)
    ensures var z := After(cfg, After(cfg, Start, before), events); id in z.log.started || id in z.log.removed
  {
    Reached(cfg, before);
    hide SystemInv;
    BoundedWaiting(cfg, After(cfg, Start, before), events, id, older);
  }

  /** In any run, an entry with `older` entries before it, keyed or not, is started or withdrawn once
      `older + 1` reserved dispatches have found it ready. */
  lemma ReadyStarvationBound(cfg: Config, before: seq<Event>, events: seq<Event>, id: ExecutionId, older: nat)
    requires Legal(cfg, Start, before) && Legal(cfg, After(cfg, Start, before), events)
    requires older < |After(cfg, Start, before).lane.queue| && After(cfg, Start, before).lane.queue[older] == id
    requires TurnsInRun(cfg, After(cfg, Start, before), events, id) > older
    ensures var z := After(cfg, After(cfg, Start, before), events); id in z.log.started || id in z.log.removed
  {
    var y := After(cfg, Start, before);
    Reached(cfg, before);
    RunKeeps(cfg, y, events);
    QueuedAt(cfg, y, older);
    hide SystemInv, Legal, After, Position, TurnsInRun;
    if id in After(cfg, y, events).lane.entries {
      TurnsRun(cfg, y, events, id);
    }
    AdmittedForever(cfg, y, events, id);
    FateOf(cfg, After(cfg, y, events), id);
  }

  lemma QueuedAt(cfg: Config, y: System, k: nat)
    requires SystemInv(cfg, y) && k < |y.lane.queue|
    ensures var id := y.lane.queue[k];
            id in y.lane.entries && id in y.log.admitted && id in y.lane.queue && Position(y.lane.queue, id) == k
  {
    var id := y.lane.queue[k];
    assert id in y.lane.queue;
    QueuedFacts(cfg, y, id);
  }

  /** In any run, of two entries queued together under one key, or both without one, the older starts
      before the younger unless it is withdrawn, provided the younger is not more urgent. */
  lemma OlderStartsFirst(cfg: Config, before: seq<Event>, events: seq<Event>, a: ExecutionId, b: ExecutionId)
    requires Legal(cfg, Start, before) && Legal(cfg, After(cfg, Start, before), events)
    requires Elder(After(cfg, Start, before).lane, a, b)
    requires b in After(cfg, After(cfg, Start, before), events).log.started
    ensures var z := After(cfg, After(cfg, Start, before), events);
            a in z.log.removed || Before(z.log.started, a, b)
  {
    Reached(cfg, before);
    hide SystemInv, Elder, Before;
    SameKeyOrder(cfg, After(cfg, Start, before), events, a, b);
  }

  // Within any run, 8 * capacity dispatches reach every unkeyed entry.
  lemma BoundedByCapacity(cfg: Config, before: seq<Event>, events: seq<Event>, id: ExecutionId)
    requires Legal(cfg, Start, before) && Legal(cfg, After(cfg, Start, before), events)
    requires id in After(cfg, Start, before).lane.entries
    requires After(cfg, Start, before).lane.entries[id].key.None?
    requires var y := After(cfg, Start, before);
             |After(cfg, y, events).log.started| >= |y.log.started| + 8 * cfg.capacity
    ensures var z := After(cfg, After(cfg, Start, before), events); id in z.log.started || id in z.log.removed
  {
    var y := After(cfg, Start, before);
    Reached(cfg, before);
    assert id in y.lane.queue;
    QueueIsDistinct(y.lane);
    DistinctLength(y.lane.queue);
    assert Elements(y.lane.queue) == y.lane.entries.Keys;
    assert |y.lane.queue| <= cfg.capacity;
    hide SystemInv;
    BoundedWaiting(cfg, y, events, id, Position(y.lane.queue, id));
  }

  lemma {:induction false} DistinctLength<T(!new)>(s: seq<T>)
    requires Distinct(s)
    ensures |Elements(s)| == |s|
  {
    if s != [] {
      DistinctLength(s[1..]);
      assert Elements(s) == {s[0]} + Elements(s[1..]);
    }
  }
}
