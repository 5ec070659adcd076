/**
 What the lane's decisions are worth in every reachable state, told by its entries, limits and
 running executions: who is started, who is admitted, and what a registration or a close leaves.
 */
module LanePolicy {
  import opened Wrappers
  import opened LaneState
  import opened LaneInvariant
  import opened LaneSystem
  import opened LaneFairness
  import opened LaneTheorems

  // ---------------------------------------------------------------- starting

  // Queued, and no running execution has its key.
  ghost predicate Free(s: State, id: ExecutionId) {
    id in s.entries && forall r | r in s.runningKeys :: s.entries[id].key != Some(s.runningKeys[r])
  }

  lemma ReadyIsFree(cfg: Config, s: State, id: ExecutionId)
    requires Inv(cfg, s)
    ensures Ready(s, id) <==> Free(s, id)
  {
    assert SingleFlight(s.runningKeys, s.activeKeys);
    if id in s.entries && s.entries[id].key.Some? && s.entries[id].key.value in s.activeKeys {
      var r :| r in s.runningKeys && s.runningKeys[r] == s.entries[id].key.value;
    }
  }

  lemma {:induction false} DispatchPrefix(cfg: Config, s: State, starts: seq<ExecutionId>, k: nat)
    requires Inv(cfg, s) && Dispatchable(cfg, s, starts) && k <= |starts|
    ensures Dispatchable(cfg, s, starts[..k])
    ensures Inv(cfg, Dispatch(cfg, s, starts[..k]))
    ensures k < |starts| ==> Chosen(Dispatch(cfg, s, starts[..k]), starts[k])
    decreases |starts|
  {
    hide Inv, Chosen;
    if k > 0 {
      assert Chosen(s, starts[0]);
      ChosenIsQueued(s, starts[0]);
      DispatchOneKeeps(cfg, s, starts[0]);
      hide DispatchOne;
      DispatchPrefix(cfg, DispatchOne(s, starts[0]), starts[1..], k - 1);
      assert starts[..k][1..] == starts[1..][..k - 1];
    }
  }

  lemma ChosenIsQueued(s: State, id: ExecutionId)
    requires Chosen(s, id)
    ensures id in s.entries && Ready(s, id)
  {}

  // By age on every eighth dispatch; by priority and then age on the others.
  ghost predicate Best(m: State, id: ExecutionId, x: ExecutionId)
    requires id in m.entries && x in m.entries
  {
    var mine, other := m.entries[id], m.entries[x];
    if m.dispatchCount % 8 == 7 then mine.sequence <= other.sequence
    else other.priority < mine.priority || (other.priority == mine.priority && mine.sequence <= other.sequence)
  }

  lemma ChosenIsBest(cfg: Config, m: State, id: ExecutionId, x: ExecutionId)
    requires Inv(cfg, m) && Chosen(m, id) && Free(m, x)
    ensures Free(m, id) && Best(m, id, x)
  {
    ReadyIsFree(cfg, m, id);
    ReadyIsFree(cfg, m, x);
    hide Inv;
  }

  /** Each start of a dispatcher pass is, among the queued entries whose key nobody running holds, one
      of the highest priority and the oldest of those; on every eighth dispatch it is the oldest of
      all. */
  lemma PriorityDecides(cfg: Config, events: seq<Event>, starts: seq<ExecutionId>, k: nat)
    requires Legal(cfg, Start, events) && Enabled(cfg, After(cfg, Start, events), TakeStartable(starts))
    requires k < |starts|
    ensures Dispatchable(cfg, After(cfg, Start, events).lane, starts[..k])
    ensures var m := Dispatch(cfg, After(cfg, Start, events).lane, starts[..k]); var id := starts[k];
            && Free(m, id)
            && forall x | Free(m, x) ::
                 if m.dispatchCount % 8 == 7 then m.entries[id].sequence <= m.entries[x].sequence
                 else
                   || m.entries[x].priority < m.entries[id].priority
                   || (m.entries[x].priority == m.entries[id].priority &&
                       m.entries[id].sequence <= m.entries[x].sequence)
  {
    LaneHolds(cfg, events);
    PassStep(cfg, After(cfg, Start, events), starts);
    hide Inv, Dispatchable, Dispatch, Saturated, Enabled, Next;
    StartIsBest(cfg, After(cfg, Start, events).lane, starts, k);
  }

  lemma PassStep(cfg: Config, y: System, starts: seq<ExecutionId>)
    requires Enabled(cfg, y, TakeStartable(starts))
    ensures Dispatchable(cfg, y.lane, starts) && Saturated(cfg, Dispatch(cfg, y.lane, starts))
    ensures Next(cfg, y, TakeStartable(starts)).lane == Dispatch(cfg, y.lane, starts)
  {
    hide Dispatchable, Dispatch, Saturated;
  }

  lemma LaneHolds(cfg: Config, events: seq<Event>)
    requires Legal(cfg, Start, events)
    ensures Inv(cfg, After(cfg, Start, events).lane)
  {
    Reached(cfg, events);
    hide Legal, After, Inv, TicketInv, HeadInv, ClosedInv, FateInv, MonitorInv, OrderInv;
  }

  lemma StartIsBest(cfg: Config, s: State, starts: seq<ExecutionId>, k: nat)
    requires Inv(cfg, s) && Dispatchable(cfg, s, starts) && k < |starts|
    ensures Dispatchable(cfg, s, starts[..k])
    ensures var m := Dispatch(cfg, s, starts[..k]); Free(m, starts[k]) && forall x | Free(m, x) :: Best(m, starts[k], x)
  {
    DispatchPrefix(cfg, s, starts, k);
    var m := Dispatch(cfg, s, starts[..k]);
    hide Inv, Free, Dispatch, Dispatchable, Best, Chosen;
    ChosenIsQueued(m, starts[k]);
    hide Ready;
    ReadyIsFree(cfg, m, starts[k]);
    forall x | Free(m, x) ensures Best(m, starts[k], x) {
      ChosenIsBest(cfg, m, starts[k], x);
    }
  }

  /** A pass leaves a free slot only if every entry still queued has the key of a running execution. */
  lemma IdleMeansBlocked(cfg: Config, events: seq<Event>, starts: seq<ExecutionId>)
    requires Legal(cfg, Start, events) && Enabled(cfg, After(cfg, Start, events), TakeStartable(starts))
    ensures var s := Next(cfg, After(cfg, Start, events), TakeStartable(starts)).lane;
            s.running < cfg.concurrency ==>
              forall id | id in s.entries ::
                exists r :: r in s.runningKeys && s.entries[id].key == Some(s.runningKeys[r])
  {
    LaneHolds(cfg, events);
    PassStep(cfg, After(cfg, Start, events), starts);
    hide Inv, Dispatchable, Dispatch, Saturated, Enabled, Next;
    SaturatedMeansBlocked(cfg, After(cfg, Start, events).lane, starts);
  }

  lemma SaturatedMeansBlocked(cfg: Config, s: State, starts: seq<ExecutionId>)
    requires Inv(cfg, s) && Dispatchable(cfg, s, starts) && Saturated(cfg, Dispatch(cfg, s, starts))
    ensures var z := Dispatch(cfg, s, starts);
            z.running < cfg.concurrency ==>
              forall id | id in z.entries ::
                exists r :: r in z.runningKeys && z.entries[id].key == Some(z.runningKeys[r])
  {
    DispatchPrefix(cfg, s, starts, |starts|);
    assert starts[..|starts|] == starts;
    var z := Dispatch(cfg, s, starts);
    hide Inv, Dispatch, Dispatchable, Ready;
    if z.running < cfg.concurrency {
      forall id | id in z.entries
        ensures exists r :: r in z.runningKeys && z.entries[id].key == Some(z.runningKeys[r])
      {
        ReadyIsFree(cfg, z, id);
      }
    }
  }

  // ---------------------------------------------------------------- admission

  // What the next check tells the producer of ticket `t`.
  lemma CheckDecides(cfg: Config, y: System, t: Ticket, open: bool)
    requires Enabled(cfg, y, Check(t, open))
    ensures var s := y.lane; var phase := Next(cfg, y, Check(t, open)).desk.phases[t];
            && (phase.Leaving? <==> !open || s.unavailable || s.closing)
            && (phase.Admitting? <==>
                  open && !s.unavailable && !s.closing && |s.entries| < cfg.capacity &&
                  s.waiting != [] && s.waiting[0] == t)
            && (phase.Leaving? || phase.Admitting? || phase.Parking?)
            && Next(cfg, y, Check(t, open)).lane == s
  {}

  // The key and the sequence leave room for one more entry.
  predicate RoomForKey(cfg: Config, s: State, key: Option<OrderingKey>) {
    && s.nextSequence < U64_MAX
    && (key.Some? ==>
          if key.value in s.refcounts then s.refcounts[key.value] < USIZE_MAX else |s.refcounts| < cfg.maxKeys)
  }

  /** Whoever is first in an open lane with room is admitted, with the priority and the key asked for and
      as the youngest entry; the others change nothing. */
  lemma FirstIsAdmitted(cfg: Config, y: System, t: Ticket, id: ExecutionId, options: SpawnOptions)
    requires Enabled(cfg, y, Admit(t, id, options))
    ensures var z := Next(cfg, y, Admit(t, id, options)); var s := y.lane;
            var first := s.waiting != [] && s.waiting[0] == t;
            if !s.unavailable && !s.closing && |s.entries| < cfg.capacity && first && RoomForKey(cfg, s, options.key)
            then
              && z.desk.phases[t] == Published(id)
              && z.lane.entries == s.entries[id := QueueEntry(options.priority, options.key, s.nextSequence)]
              && z.lane.queue == s.queue + [id] && z.log.tickets == y.log.tickets + [t]
            else
              && z.lane == s && z.log == y.log
              && (z.desk.phases[t].Parking? <==>
                    !s.unavailable && !s.closing && !(|s.entries| < cfg.capacity && first))
              && (z.desk.phases[t].Parking? || z.desk.phases[t].Leaving?)
  {}

  // A producer without a ticket is admitted only past an empty line.
  lemma NewcomerIsAdmitted(cfg: Config, y: System, id: ExecutionId, options: SpawnOptions)
    ensures var s := y.lane;
            Enabled(cfg, y, AdmitDirect(id, options)) <==>
            && id !in y.log.admitted && !s.unavailable && !s.closing && |s.entries| < cfg.capacity
            && s.waiting == [] && RoomForKey(cfg, s, options.key)
    ensures Enabled(cfg, y, AdmitDirect(id, options)) ==>
              Next(cfg, y, AdmitDirect(id, options)).lane.entries ==
                y.lane.entries[id := QueueEntry(options.priority, options.key, y.lane.nextSequence)]
  {}

  // A failed registration withdraws the entry, unless it has left the queue; a good one changes nothing.
  lemma RegistrationDecides(cfg: Config, y: System, t: Ticket, ok: bool)
    requires Enabled(cfg, y, Register(t, ok))
    ensures var z := Next(cfg, y, Register(t, ok)); var id := y.desk.phases[t].id;
            && z.lane.entries == (if ok then y.lane.entries else y.lane.entries - {id})
            && z.log.started == y.log.started && z.desk.phases[t].Leaving?
            && z.log.removed == (if !ok && id in y.lane.entries then y.log.removed + {id} else y.log.removed)
  {}

  // ---------------------------------------------------------------- wake-ups

  // A producer about to sleep takes the permit its signal left, or sleeps.
  lemma ParkTakesPermit(cfg: Config, y: System, t: Ticket)
    requires Enabled(cfg, y, Park(t))
    ensures var d, d' := y.desk, Next(cfg, y, Park(t)).desk;
            && d'.phases == d.phases[t := (if t in d.permits then Polling else Asleep)]
            && d'.permits == d.permits - {t} && d'.owedSignals == d.owedSignals
  {}

  // A signal wakes its own producer or leaves it one permit, and touches no other.
  lemma SignalReachesOne(cfg: Config, y: System, t: Ticket)
    requires Enabled(cfg, y, Deliver(t))
    ensures var d, d' := y.desk, Next(cfg, y, Deliver(t)).desk;
            && d'.owedSignals == d.owedSignals - multiset{t} && d'.phases.Keys == d.phases.Keys
            && (forall u | u in d.phases && u != t :: d'.phases[u] == d.phases[u])
            && d'.permits == (if t in d.phases && !d.phases[t].Asleep? then d.permits + {t} else d.permits)
            && (t in d.phases ==> d'.phases[t] == if d.phases[t].Asleep? then Polling else d.phases[t])
            && d'.owedHead == d.owedHead && d'.owedAll == d.owedAll
  {}

  // A single notification is for whoever is first when it is sent, a broadcast for everyone in line.
  lemma NotificationsReach(cfg: Config, y: System)
    ensures y.desk.owedHead > 0 ==>
              var z := Next(cfg, y, NotifyHead);
              && z.lane == y.lane && z.desk.phases == y.desk.phases && z.desk.permits == y.desk.permits
              && z.desk.owedSignals == if y.lane.waiting == [] then y.desk.owedSignals
                                       else y.desk.owedSignals + multiset{y.lane.waiting[0]}
    ensures y.desk.owedAll > 0 ==>
              var z := Next(cfg, y, NotifyAll);
              && z.lane == y.lane && z.desk.phases == y.desk.phases && z.desk.permits == y.desk.permits
              && z.desk.owedSignals == y.desk.owedSignals + multiset(y.lane.waiting)
  {}

  // ---------------------------------------------------------------- closing

  /** From the moment a lane closes, or its dispatcher is gone, no run admits anything more. */
  lemma ShutLaneAdmitsNobody(cfg: Config, y: System, e: Event, events: seq<Event>)
    requires (e.Close? || e.DispatcherStops?) && Enabled(cfg, y, e) && Legal(cfg, Next(cfg, y, e), events)
    ensures After(cfg, Next(cfg, y, e), events).lane.closing
    ensures After(cfg, Next(cfg, y, e), events).log.admitted == y.log.admitted
  {
    CloseStopsAdmission(cfg, Next(cfg, y, e), events);
  }
}
