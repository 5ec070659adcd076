/**
 The lane's mutable state as the source keeps it, with one method per lock-held block. Each method
 is tied to the step function of `LaneState`, for which all run properties are proved.
 */
module LaneShared {
  import opened Wrappers
  import opened LaneState
  import opened LaneInvariant

  // A ready queue position offered to the selector.
  datatype Candidate = Candidate(queueIndex: nat, id: ExecutionId, entry: QueueEntry)

  datatype LaneStats = LaneStats(
    queuedLive: nat,
    running: nat,
    availableQueueCapacity: nat,
    waitingProducers: nat,
    blockedByOrderingKey: nat,
    readyByPriority: seq<nat>)

  method SelectReadyCandidate(dispatchCount: nat, candidates: seq<Candidate>) returns (selected: Option<Candidate>)
    ensures selected == None <==> candidates == []
    ensures selected.Some? ==> selected.value in candidates
    ensures selected.Some? ==>
              forall c | c in candidates :: !Precedes(Aged(dispatchCount), c.entry, selected.value.entry)
    ensures selected.Some? && dispatchCount % 8 != 7 ==>
              forall c | c in candidates ::
                || c.entry.priority < selected.value.entry.priority
                || (c.entry.priority == selected.value.entry.priority &&
                    selected.value.entry.sequence <= c.entry.sequence)
    ensures selected.Some? && dispatchCount % 8 == 7 ==>
              forall c | c in candidates :: selected.value.entry.sequence <= c.entry.sequence
  {
    var selectOldest := dispatchCount % 8 == 7;
    selected := None;
    for i := 0 to |candidates|
      invariant selected == None <==> i == 0
      invariant selected.Some? ==> selected.value in candidates[..i]
      invariant selected.Some? ==>
                  forall c | c in candidates[..i] :: !Precedes(selectOldest, c.entry, selected.value.entry)
    {
      var candidate := candidates[i];
      assert candidates[..i + 1] == candidates[..i] + [candidate];
      if selected.None? {
        selected := Some(candidate);
      } else if selectOldest {
        if candidate.entry.sequence < selected.value.entry.sequence {
          selected := Some(candidate);
        }
      } else if candidate.entry.priority > selected.value.entry.priority ||
                (candidate.entry.priority == selected.value.entry.priority &&
                 candidate.entry.sequence < selected.value.entry.sequence) {
        selected := Some(candidate);
      }
    }
    assert candidates[..|candidates|] == candidates;
  }

  // ---------------------------------------------------------------- one more start in a pass

  lemma {:induction false} DispatchAppend(cfg: Config, s: State, starts: seq<ExecutionId>, id: ExecutionId)
    requires Dispatchable(cfg, s, starts)
    requires Dispatch(cfg, s, starts).running < cfg.concurrency && Chosen(Dispatch(cfg, s, starts), id)
    ensures Dispatchable(cfg, s, starts + [id])
    ensures Dispatch(cfg, s, starts + [id]) == DispatchOne(Dispatch(cfg, s, starts), id)
    decreases |starts|
  {
    if starts == [] {
      assert starts + [id] == [id];
      assert Dispatchable(cfg, DispatchOne(s, id), []);
    } else {
      assert (starts + [id])[1..] == starts[1..] + [id];
      DispatchAppend(cfg, DispatchOne(s, starts[0]), starts[1..], id);
    }
  }

  // The selected position holds the chosen entry.
  ghost predicate Offers(s: State, candidates: seq<Candidate>, upTo: nat)
    requires upTo <= |s.queue|
  {
    && (forall c | c in candidates ::
          c.queueIndex < upTo && s.queue[c.queueIndex] == c.id && Ready(s, c.id) && c.entry == s.entries[c.id])
    && (forall i | 0 <= i < upTo && Ready(s, s.queue[i]) ::
          Candidate(i, s.queue[i], s.entries[s.queue[i]]) in candidates)
  }

  lemma SelectionIsChosen(s: State, candidates: seq<Candidate>, c: Candidate)
    requires QueueInv(s.queue, s.entries, s.nextSequence) && Offers(s, candidates, |s.queue|) && c in candidates
    requires forall d | d in candidates :: !Precedes(Aged(s.dispatchCount), d.entry, c.entry)
    ensures Chosen(s, c.id)
    ensures Without(s.queue, c.id) == s.queue[..c.queueIndex] + s.queue[c.queueIndex + 1..]
  {
    var i := c.queueIndex;
    assert s.queue == s.queue[..i] + [c.id] + s.queue[i + 1..];
    assert forall j | 0 <= j < |s.queue| && j != i :: s.queue[j] != c.id;
    WithoutAt(s.queue[..i], c.id, s.queue[i + 1..]);
    forall x | Ready(s, x) ensures !Precedes(Aged(s.dispatchCount), s.entries[x], s.entries[c.id]) {
      assert x in s.queue;
      var j := Position(s.queue, x);
      assert Candidate(j, x, s.entries[x]) in candidates;
    }
  }

  ghost function ReadyAt(s: State, ids: set<ExecutionId>, p: Priority): set<ExecutionId> {
    set id | id in ids && Ready(s, id) && s.entries[id].priority == p
  }

  ghost function BlockedIn(s: State, ids: set<ExecutionId>): set<ExecutionId> {
    set id | id in ids && id in s.entries && !Ready(s, id)
  }

  class LaneShared {
    const cfg: Config
    var closing: bool
    var runtimeUnavailable: bool
    var queue: seq<ExecutionId>
    var entries: map<ExecutionId, QueueEntry>
    var active: set<ExecutionId>
    var running: nat
    var waitingProducers: nat
    var waitingQueue: seq<Ticket>
    var nextWaiterSequence: nat
    var nextSequence: nat
    var dispatchCount: nat
    var activeOrderingKeys: set<OrderingKey>
    var runningOrderingKeys: map<ExecutionId, OrderingKey>
    var orderingKeyRefcounts: map<OrderingKey, nat>

    ghost function View(): State
      reads this
    {
      State(closing, runtimeUnavailable, queue, entries, active, running, waitingProducers, waitingQueue,
            nextWaiterSequence, nextSequence, dispatchCount, activeOrderingKeys, runningOrderingKeys,
            orderingKeyRefcounts)
    }

    constructor (cfg: Config)
      ensures this.cfg == cfg && View() == Initial
    {
      this.cfg := cfg;
      closing, runtimeUnavailable := false, false;
      queue, entries, active, running := [], map[], {}, 0;
      waitingProducers, waitingQueue, nextWaiterSequence := 0, [], 0;
      nextSequence, dispatchCount := 0, 0;
      activeOrderingKeys, runningOrderingKeys, orderingKeyRefcounts := {}, map[], map[];
    }

    // `WaitingProducer::new`.
    method NewWaitingProducer() returns (result: Result<Ticket, SpawnError>)
      modifies this`nextWaiterSequence, this`waitingProducers, this`waitingQueue
      ensures match NewWaiter(cfg, old(View()))
              case Ok(s) => View() == s && result == Ok(Ticket(old(nextWaiterSequence)))
              case Err(error) => View() == old(View()) && result == Err(error)
      ensures result == Err(WaitingProducerLimitReached) <==> old(waitingProducers) >= cfg.maxWaiting
      ensures result == Err(SequenceExhausted) <==>
              old(waitingProducers) < cfg.maxWaiting && old(nextWaiterSequence) >= U64_MAX
      ensures result.Ok? <==> old(waitingProducers) < cfg.maxWaiting && old(nextWaiterSequence) < U64_MAX
      ensures result.Ok? ==>
                && waitingQueue == old(waitingQueue) + [Ticket(old(nextWaiterSequence))]
                && waitingProducers == old(waitingProducers) + 1 && nextWaiterSequence == old(nextWaiterSequence) + 1
    {
      if waitingProducers >= cfg.maxWaiting {
        return Err(WaitingProducerLimitReached);
      }
      var ticket := Ticket(nextWaiterSequence);
      if nextWaiterSequence + 1 > U64_MAX {
        return Err(SequenceExhausted);
      }
      nextWaiterSequence := nextWaiterSequence + 1;
      waitingProducers := waitingProducers + 1;
      waitingQueue := waitingQueue + [ticket];
      return Ok(ticket);
    }

    // `WaitingProducer::finish`, up to the notification of the returned successor.
    method FinishWaitingProducer(ticket: Ticket) returns (successor: Option<Ticket>)
      requires ticket in waitingQueue
      modifies this`waitingQueue, this`waitingProducers
      ensures View() == FinishWaiter(old(View()), ticket)
      ensures successor == SuccessorOf(old(View()), ticket)
      ensures ticket !in waitingQueue && forall t | t != ticket :: t in waitingQueue <==> t in old(waitingQueue)
      ensures successor.Some? <==> old(waitingQueue)[0] == ticket && waitingQueue != []
      ensures successor.Some? ==> successor.value == waitingQueue[0]
    {
      var wasFront := Front(waitingQueue) == Some(ticket);
      waitingQueue := Without(waitingQueue, ticket);
      if waitingProducers > 0 {
        waitingProducers := waitingProducers - 1;
      }
      successor := if wasFront then Front(waitingQueue) else None;
    }

    method DecrementOrderingKeyRefcount(key: OrderingKey)
      modifies this`orderingKeyRefcounts
      ensures orderingKeyRefcounts == DecrementRefcount(old(orderingKeyRefcounts), key)
      ensures key in orderingKeyRefcounts && orderingKeyRefcounts[key] > 0 <==>
              key in old(orderingKeyRefcounts) && old(orderingKeyRefcounts)[key] > 1
      ensures key in orderingKeyRefcounts && orderingKeyRefcounts[key] > 0 ==>
                orderingKeyRefcounts[key] + 1 == old(orderingKeyRefcounts)[key]
      ensures orderingKeyRefcounts - {key} == old(orderingKeyRefcounts) - {key}
    {
      if key in orderingKeyRefcounts && orderingKeyRefcounts[key] > 0 {
        var next := orderingKeyRefcounts[key] - 1;
        if next == 0 {
          orderingKeyRefcounts := orderingKeyRefcounts - {key};
        } else {
          orderingKeyRefcounts := orderingKeyRefcounts[key := next];
        }
      }
    }

    method RemoveQueuedExecution(id: ExecutionId) returns (removed: bool)
      modifies this`entries, this`queue, this`active, this`orderingKeyRefcounts
      ensures View() == RemoveQueued(old(View()), id) && removed == (id in old(entries))
      ensures entries == old(entries) - {id}
      ensures active == if removed then old(active) - {id} else old(active)
      ensures forall x :: x in queue <==> x in old(queue) && (removed ==> x != id)
      ensures orderingKeyRefcounts == if removed && old(entries)[id].key.Some?
                                      then DecrementRefcount(old(orderingKeyRefcounts), old(entries)[id].key.value)
                                      else old(orderingKeyRefcounts)
    {
      removed := id in entries;
      if removed {
        var entry := entries[id];
        entries := entries - {id};
        queue := Without(queue, id);
        active := active - {id};
        if entry.key.Some? {
          DecrementOrderingKeyRefcount(entry.key.value);
        }
      }
    }

    // Open, with room, and the caller's turn.
    ghost predicate Admitting(ticket: Option<Ticket>)
      reads this
    {
      && !runtimeUnavailable && !closing && |entries| < cfg.capacity
      && if ticket.Some? then waitingQueue != [] && waitingQueue[0] == ticket.value else waitingQueue == []
    }

    // `admissionOpen` is the executor-wide flag, read under its own lock.
    method CheckTryAdmission(admissionOpen: bool, ticket: Option<Ticket>) returns (error: Option<SpawnError>)
      ensures error == if !admissionOpen then Some(ExecutorShuttingDown) else AdmissionError(cfg, View(), ticket)
      ensures error == Some(ExecutorShuttingDown) <==> !admissionOpen
      ensures error == Some(ExecutorUnavailable) <==> admissionOpen && runtimeUnavailable
      ensures error == Some(LaneClosing) <==> admissionOpen && !runtimeUnavailable && closing
      ensures error == None <==> admissionOpen && Admitting(ticket)
      ensures error == Some(QueueFull) <==>
              admissionOpen && !runtimeUnavailable && !closing && !Admitting(ticket)
    {
      if !admissionOpen {
        return Some(ExecutorShuttingDown);
      }
      error := LaneAdmission(ticket);
    }

    method LaneAdmission(ticket: Option<Ticket>) returns (error: Option<SpawnError>)
      ensures error == AdmissionError(cfg, View(), ticket)
      ensures error.None? <==> Admitting(ticket)
      ensures error == Some(ExecutorUnavailable) <==> runtimeUnavailable
      ensures error == Some(LaneClosing) <==> !runtimeUnavailable && closing
      ensures error == Some(QueueFull) <==> !runtimeUnavailable && !closing && !Admitting(ticket)
    {
      if runtimeUnavailable {
        return Some(ExecutorUnavailable);
      }
      if closing {
        return Some(LaneClosing);
      }
      if |entries| >= cfg.capacity {
        return Some(QueueFull);
      }
      match ticket {
        case Some(_) =>
          if Front(waitingQueue) != ticket {
            return Some(QueueFull);
          }
        case None =>
          if waitingQueue != [] {
            return Some(QueueFull);
          }
      }
      return None;
    }

    // The reference count that one more holder of `key` leads to.
    method NextRefcount(key: Option<OrderingKey>) returns (result: Result<Option<nat>, SpawnError>)
      ensures result.Err? <==> KeyError(cfg, View(), key).Some?
      ensures result.Err? ==> KeyError(cfg, View(), key) == Some(result.error)
      ensures result.Ok? ==> result.value.Some? == key.Some?
      ensures result == Err(OrderingKeyLimitReached) <==>
              key.Some? && key.value !in orderingKeyRefcounts && |orderingKeyRefcounts| >= cfg.maxKeys
      ensures result == Err(SequenceExhausted) <==>
              key.Some? && key.value in orderingKeyRefcounts && orderingKeyRefcounts[key.value] >= USIZE_MAX
      ensures result.Err? ==> result.error.OrderingKeyLimitReached? || result.error.SequenceExhausted?
      ensures result.Ok? && key.Some? ==>
                result.value.value ==
                  (if key.value in orderingKeyRefcounts then orderingKeyRefcounts[key.value] else 0) + 1
      ensures result.Ok? && key.Some? ==>
                CountedOnce(orderingKeyRefcounts, key.value) == orderingKeyRefcounts[key.value := result.value.value]
    {
      match key {
        case None => return Ok(None);
        case Some(k) =>
          if k in orderingKeyRefcounts {
            if orderingKeyRefcounts[k] + 1 > USIZE_MAX {
              return Err(SequenceExhausted);
            }
            return Ok(Some(orderingKeyRefcounts[k] + 1));
          }
          if |orderingKeyRefcounts| >= cfg.maxKeys {
            return Err(OrderingKeyLimitReached);
          }
          return Ok(Some(1));
      }
    }

    // The lock-held block of `insert_prepared`.
    method InsertPrepared(id: ExecutionId, options: SpawnOptions, ticket: Option<Ticket>)
      returns (error: Option<SpawnError>)
      modifies this`nextSequence, this`active, this`entries, this`queue, this`orderingKeyRefcounts
      ensures error == InsertError(cfg, old(View()), options.key, ticket)
      ensures View() == if error.None? then Insert(old(View()), id, options) else old(View())
      ensures error.None? ==>
                && old(Admitting(ticket)) && old(nextSequence) < U64_MAX && queue == old(queue) + [id]
                && entries == old(entries)[id := QueueEntry(options.priority, options.key, old(nextSequence))]
                && nextSequence == old(nextSequence) + 1 && active == old(active) + {id}
      ensures error.None? && options.key.None? ==> orderingKeyRefcounts == old(orderingKeyRefcounts)
      ensures error.None? && options.key.Some? ==>
                var key, counts := options.key.value, old(orderingKeyRefcounts);
                && (if key in counts then counts[key] < USIZE_MAX else |counts| < cfg.maxKeys)
                && orderingKeyRefcounts == counts[key := (if key in counts then counts[key] else 0) + 1]
      ensures error == Some(OrderingKeyLimitReached) <==>
              && old(Admitting(ticket)) && options.key.Some? && options.key.value !in old(orderingKeyRefcounts)
              && |old(orderingKeyRefcounts)| >= cfg.maxKeys
      ensures error == Some(ExecutorUnavailable) <==> runtimeUnavailable
      ensures error == Some(LaneClosing) <==> !runtimeUnavailable && closing
      ensures error == Some(QueueFull) <==> !runtimeUnavailable && !closing && !old(Admitting(ticket))
      ensures error == Some(SequenceExhausted) <==>
              && old(Admitting(ticket)) && error != Some(OrderingKeyLimitReached)
              && (|| old(nextSequence) >= U64_MAX
                  || (options.key.Some? && options.key.value in old(orderingKeyRefcounts) &&
                      old(orderingKeyRefcounts)[options.key.value] >= USIZE_MAX))
      ensures error.None? || error.value in {OrderingKeyLimitReached, ExecutorUnavailable, LaneClosing, QueueFull,
                                             SequenceExhausted}
    {
      hide AdmissionError, KeyError, CountedOnce;
      error := LaneAdmission(ticket);
      if error.Some? {
        return;
      }
      var refcount := NextRefcount(options.key);
      if refcount.Err? {
        return Some(refcount.error);
      }
      if nextSequence + 1 > U64_MAX {
        return Some(SequenceExhausted);
      }
      if options.key.Some? {
        orderingKeyRefcounts := orderingKeyRefcounts[options.key.value := refcount.value.value];
      }
      Publish(id, QueueEntry(options.priority, options.key, nextSequence));
      return None;
    }

    method Publish(id: ExecutionId, entry: QueueEntry)
      modifies this`nextSequence, this`active, this`entries, this`queue
      ensures nextSequence == old(nextSequence) + 1 && active == old(active) + {id}
      ensures entries == old(entries)[id := entry] && queue == old(queue) + [id]
    {
      nextSequence := nextSequence + 1;
      active := active + {id};
      entries := entries[id := entry];
      queue := queue + [id];
    }

    // The positions whose entry is not blocked by a running execution of the same key.
    method ReadyCandidates() returns (candidates: seq<Candidate>)
      ensures Offers(View(), candidates, |queue|)
    {
      candidates := [];
      for i := 0 to |queue|
        invariant Offers(View(), candidates, i)
      {
        var id := queue[i];
        if id in entries {
          var entry := entries[id];
          if entry.key.None? || entry.key.value !in activeOrderingKeys {
            candidates := candidates + [Candidate(i, id, entry)];
          }
        }
      }
    }

    method StartCandidate(c: Candidate)
      requires c.queueIndex < |queue| && c.id in entries
      requires Without(queue, c.id) == queue[..c.queueIndex] + queue[c.queueIndex + 1..]
      modifies this
      ensures View() == DispatchOne(old(View()), c.id) && running == old(running) + 1
    {
      hide Without;
      var key := Dequeue(c);
      if key.Some? {
        OccupyKey(c.id, key.value);
      }
      CountDispatch();
    }

    method Dequeue(c: Candidate) returns (key: Option<OrderingKey>)
      requires c.queueIndex < |queue| && c.id in entries
      modifies this`queue, this`entries
      ensures queue == old(queue)[..c.queueIndex] + old(queue)[c.queueIndex + 1..]
      ensures entries == old(entries) - {c.id} && key == old(entries)[c.id].key
    {
      queue := queue[..c.queueIndex] + queue[c.queueIndex + 1..];
      key := entries[c.id].key;
      entries := entries - {c.id};
    }

    method OccupyKey(id: ExecutionId, key: OrderingKey)
      modifies this`activeOrderingKeys, this`runningOrderingKeys
      ensures activeOrderingKeys == old(activeOrderingKeys) + {key}
      ensures runningOrderingKeys == old(runningOrderingKeys)[id := key]
    {
      activeOrderingKeys := activeOrderingKeys + {key};
      runningOrderingKeys := runningOrderingKeys[id := key];
    }

    method CountDispatch()
      modifies this`running, this`dispatchCount
      ensures running == old(running) + 1 && dispatchCount == NextDispatchCount(old(dispatchCount))
      ensures dispatchCount == if old(dispatchCount) >= U64_MAX then 0 else old(dispatchCount) + 1
    {
      running := running + 1;
      dispatchCount := if dispatchCount + 1 > U64_MAX then 0 else dispatchCount + 1;
    }

    // One pass of the dispatch loop: starts the chosen entry, if any is ready.
    method TakeOne() returns (started: Option<ExecutionId>)
      requires Inv(cfg, View()) && running < cfg.concurrency
      modifies this
      ensures Inv(cfg, View())
      ensures match started
              case Some(id) => Chosen(old(View()), id) && View() == DispatchOne(old(View()), id)
              case None => View() == old(View()) && forall id :: !Ready(View(), id)
      ensures started.Some? ==> running == old(running) + 1
    {
      hide Inv, Offers, Without, Precedes, Chosen, Ready, DispatchOne;
      var candidates := ReadyCandidates();
      var candidate := SelectReadyCandidate(dispatchCount, candidates);
      if candidate.None? {
        NothingReady(cfg, View(), candidates);
        return None;
      }
      BestStarts(cfg, View(), candidates, candidate.value);
      StartCandidate(candidate.value);
      return Some(candidate.value.id);
    }

    method TakeStartable() returns (starts: seq<ExecutionId>, shouldExit: bool)
      requires Inv(cfg, View())
      modifies this
      ensures Inv(cfg, View())
      ensures Dispatchable(cfg, old(View()), starts) && View() == Dispatch(cfg, old(View()), starts)
      ensures Saturated(cfg, View())
      ensures shouldExit == ShouldExit(View())
    {
      starts := [];
      assert Dispatchable(cfg, View(), starts) && View() == Dispatch(cfg, View(), starts);
      hide Inv, Dispatchable, Dispatch, DispatchOne, Chosen, Ready;
      while running < cfg.concurrency
        invariant Inv(cfg, View())
        invariant Dispatchable(cfg, old(View()), starts) && View() == Dispatch(cfg, old(View()), starts)
        decreases cfg.concurrency - running
      {
        var started := TakeOne();
        if started.None? {
          break;
        }
        DispatchAppend(cfg, old(View()), starts, started.value);
        starts := starts + [started.value];
      }
      shouldExit := closing && active == {};
    }

    method FinishExecution(id: ExecutionId)
      modifies this`active, this`running, this`runningOrderingKeys, this`activeOrderingKeys, this`orderingKeyRefcounts
      ensures View() == ExecutionFinished(old(View()), id)
      ensures active == old(active) - {id} && runningOrderingKeys == old(runningOrderingKeys) - {id}
      ensures id in old(active) && old(running) > 0 ==> running == old(running) - 1
      ensures id !in old(active) || old(running) == 0 ==> running == old(running)
      ensures if id in old(runningOrderingKeys) then
                var key := old(runningOrderingKeys)[id];
                && activeOrderingKeys == old(activeOrderingKeys) - {key}
                && orderingKeyRefcounts == DecrementRefcount(old(orderingKeyRefcounts), key)
              else activeOrderingKeys == old(activeOrderingKeys) && orderingKeyRefcounts == old(orderingKeyRefcounts)
    {
      if id in active {
        active := active - {id};
        if running > 0 {
          running := running - 1;
        }
      }
      if id in runningOrderingKeys {
        var key := runningOrderingKeys[id];
        runningOrderingKeys := runningOrderingKeys - {id};
        activeOrderingKeys := activeOrderingKeys - {key};
        DecrementOrderingKeyRefcount(key);
      }
    }

    // The controls handed to the closer are those of every queued or running execution.
    method Close() returns (controls: set<ExecutionId>)
      modifies this`closing
      ensures View() == RequestClose(old(View())) && closing && controls == active
    {
      closing := true;
      controls := active;
    }

    // `queued` are dropped, `runningControls` are cancelled.
    method StopDispatcher() returns (queued: map<ExecutionId, QueueEntry>, runningControls: set<ExecutionId>)
      modifies this
      ensures View() == DispatcherStopped(old(View())) && closing && runtimeUnavailable
      ensures queue == [] && entries == map[] && active == {} && running == 0
      ensures activeOrderingKeys == {} && runningOrderingKeys == map[] && orderingKeyRefcounts == map[]
      ensures waitingQueue == old(waitingQueue) && waitingProducers == old(waitingProducers)
      ensures queued == old(entries) && runningControls == old(active) - old(entries).Keys
    {
      closing, runtimeUnavailable := true, true;
      queued := entries;
      runningControls := active - queued.Keys;
      ClearExecutions();
      ClearOrderingKeys();
    }

    method ClearExecutions()
      modifies this`queue, this`entries, this`active, this`running
      ensures queue == [] && entries == map[] && active == {} && running == 0
    {
      queue, entries, active, running := [], map[], {}, 0;
    }

    method ClearOrderingKeys()
      modifies this`activeOrderingKeys, this`runningOrderingKeys, this`orderingKeyRefcounts
      ensures activeOrderingKeys == {} && runningOrderingKeys == map[] && orderingKeyRefcounts == map[]
    {
      activeOrderingKeys, runningOrderingKeys, orderingKeyRefcounts := {}, map[], map[];
    }

    // Every queued entry is counted once: as blocked, or as ready under its priority.
    method Stats() returns (stats: LaneStats)
      requires Inv(cfg, View())
      ensures stats.queuedLive == |entries| && stats.running == running
      ensures stats.availableQueueCapacity == cfg.capacity - |entries|
      ensures stats.waitingProducers == waitingProducers
      ensures Tallied(View(), entries.Keys, stats.blockedByOrderingKey, stats.readyByPriority)
    {
      assert |entries| <= cfg.capacity;
      hide *;
      var blocked, ready := TallyAll(View(), entries, activeOrderingKeys);
      stats := LaneStats(|entries|, running, cfg.capacity - |entries|, waitingProducers, blocked, ready);
    }
  }

  method TallyAll(ghost s: State, entries: map<ExecutionId, QueueEntry>, activeKeys: set<OrderingKey>)
    returns (blocked: nat, ready: seq<nat>)
    requires s.entries == entries && s.activeKeys == activeKeys
    ensures Tallied(s, entries.Keys, blocked, ready)
  {
    NothingTallied(s);
    assert entries.Keys - entries.Keys == {};
    hide *;
    blocked, ready := 0, [0, 0, 0, 0, 0, 0, 0, 0];
    var rest := entries.Keys;
    while rest != {}
      invariant rest <= entries.Keys && Tallied(s, entries.Keys - rest, blocked, ready)
      decreases |rest|
    {
      var id :| id in rest;
      assert entries.Keys - rest + {id} == entries.Keys - (rest - {id});
      blocked, ready := Tally(s, entries.Keys - rest, id, entries[id], activeKeys, blocked, ready);
      rest := rest - {id};
    }
    assert entries.Keys - rest == entries.Keys;
  }

  // `blocked` and `ready` count the entries among `ids`.
  ghost predicate Tallied(s: State, ids: set<ExecutionId>, blocked: nat, ready: seq<nat>) {
    && |ready| == 8 && blocked == |BlockedIn(s, ids)|
    && forall p: Priority :: ready[p] == |ReadyAt(s, ids, p)|
  }

  lemma NothingTallied(s: State)
    ensures Tallied(s, {}, 0, [0, 0, 0, 0, 0, 0, 0, 0])
  {
    assert BlockedIn(s, {}) == {};
    assert forall p: Priority :: ReadyAt(s, {}, p) == {};
  }

  method Tally(ghost s: State, ghost done: set<ExecutionId>, id: ExecutionId, entry: QueueEntry,
               activeKeys: set<OrderingKey>, blocked: nat, ready: seq<nat>)
    returns (blocked': nat, ready': seq<nat>)
    requires Tallied(s, done, blocked, ready) && id !in done
    requires id in s.entries && s.entries[id] == entry && s.activeKeys == activeKeys
    ensures Tallied(s, done + {id}, blocked', ready')
  {
    CountBlocked(s, done, id);
    forall p: Priority ensures |ReadyAt(s, done + {id}, p)| == |ReadyAt(s, done, p)| +
                                 (if Ready(s, id) && entry.priority == p then 1 else 0) {
      CountReady(s, done, id, p);
    }
    if entry.key.Some? && entry.key.value in activeKeys {
      blocked', ready' := blocked + 1, ready;
    } else {
      blocked', ready' := blocked, ready[entry.priority := ready[entry.priority] + 1];
    }
    hide BlockedIn, ReadyAt;
  }

  lemma ReadyIsOffered(s: State, candidates: seq<Candidate>, id: ExecutionId)
    requires QueueInv(s.queue, s.entries, s.nextSequence) && Offers(s, candidates, |s.queue|) && Ready(s, id)
    ensures candidates != []
  {
    assert id in s.queue;
    assert Candidate(Position(s.queue, id), id, s.entries[id]) in candidates;
  }

  lemma NothingReady(cfg: Config, s: State, candidates: seq<Candidate>)
    requires Inv(cfg, s) && Offers(s, candidates, |s.queue|) && candidates == []
    ensures forall id :: !Ready(s, id)
  {
    assert QueueInv(s.queue, s.entries, s.nextSequence);
    hide Inv, Offers, QueueInv, Ready;
    forall id ensures !Ready(s, id) {
      if Ready(s, id) {
        ReadyIsOffered(s, candidates, id);
      }
    }
  }

  // Starting the best candidate is a dispatch, and keeps the invariant.
  lemma BestStarts(cfg: Config, s: State, candidates: seq<Candidate>, c: Candidate)
    requires Inv(cfg, s) && s.running < cfg.concurrency && Offers(s, candidates, |s.queue|) && c in candidates
    requires forall d | d in candidates :: !Precedes(Aged(s.dispatchCount), d.entry, c.entry)
    ensures Chosen(s, c.id) && Inv(cfg, DispatchOne(s, c.id))
    ensures c.queueIndex < |s.queue| && c.id in s.entries
    ensures Without(s.queue, c.id) == s.queue[..c.queueIndex] + s.queue[c.queueIndex + 1..]
  {
    assert QueueInv(s.queue, s.entries, s.nextSequence);
    assert c.queueIndex < |s.queue|;
    hide Inv, Precedes, Without, QueueInv;
    SelectionIsChosen(s, candidates, c);
    hide Offers;
    DispatchOneKeeps(cfg, s, c.id);
  }

  lemma CountBlocked(s: State, done: set<ExecutionId>, id: ExecutionId)
    requires id in s.entries && id !in done
    ensures |BlockedIn(s, done + {id})| == |BlockedIn(s, done)| + (if Ready(s, id) then 0 else 1)
  {
    hide Ready;
    assert BlockedIn(s, done + {id}) == BlockedIn(s, done) + (if Ready(s, id) then {} else {id});
  }

  lemma CountReady(s: State, done: set<ExecutionId>, id: ExecutionId, p: Priority)
    requires id in s.entries && id !in done
    ensures |ReadyAt(s, done + {id}, p)| ==
            |ReadyAt(s, done, p)| + (if Ready(s, id) && s.entries[id].priority == p then 1 else 0)
  {
    assert Ready(s, id) ==> id in s.entries;
    if Ready(s, id) && s.entries[id].priority == p {
      assert ReadyAt(s, done + {id}, p) == ReadyAt(s, done, p) + {id};
    } else {
      assert ReadyAt(s, done + {id}, p) == ReadyAt(s, done, p);
    }
  }

  // The counts of `Stats` add up to the queue.
  lemma StatsCoverQueue(s: State)
    ensures |BlockedIn(s, s.entries.Keys)| + |set id | id in s.entries.Keys && Ready(s, id)| == |s.entries|
  {
    var ready := set id | id in s.entries.Keys && Ready(s, id);
    assert BlockedIn(s, s.entries.Keys) + ready == s.entries.Keys;
    assert BlockedIn(s, s.entries.Keys) !! ready;
  }
}
