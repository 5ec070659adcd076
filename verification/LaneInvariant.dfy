/** Every lock-held block of the lane preserves the lane invariant. */
module LaneInvariant {
  import opened Wrappers
  import opened LaneState

  type Entries = map<ExecutionId, QueueEntry>
  type Keys = map<ExecutionId, OrderingKey>

  lemma InitialHolds(cfg: Config)
    ensures Inv(cfg, Initial)
  {}

  // ---------------------------------------------------------------- queue facts

  function Position<T(==)>(queue: seq<T>, id: T): (i: nat)
    requires id in queue
    ensures i < |queue| && queue[i] == id
  {
    if queue[0] == id then 0 else 1 + Position(queue[1..], id)
  }

  lemma WithoutSplits(queue: seq<ExecutionId>, entries: Entries, next: nat, id: ExecutionId)
    requires QueueInv(queue, entries, next) && id in queue
    ensures Without(queue, id) == queue[..Position(queue, id)] + queue[Position(queue, id) + 1..]
  {
    var i := Position(queue, id);
    assert queue == queue[..i] + [id] + queue[i + 1..];
    assert forall j | 0 <= j < |queue| && j != i :: queue[j] != id;
    WithoutAt(queue[..i], id, queue[i + 1..]);
  }

  // The listed entries come in the order of their sequences.
  ghost predicate InOrder(r: seq<ExecutionId>, entries: Entries) {
    forall a, b | 0 <= a < b < |r| ::
      r[a] in entries && r[b] in entries && entries[r[a]].sequence < entries[r[b]].sequence
  }

  lemma CutKeepsOrder(queue: seq<ExecutionId>, entries: Entries, i: nat)
    requires i < |queue| && forall x | x in queue :: x in entries
    requires forall a, b | 0 <= a < b < |queue| :: entries[queue[a]].sequence < entries[queue[b]].sequence
    ensures InOrder(queue[..i] + queue[i + 1..], entries)
  {
    var r := queue[..i] + queue[i + 1..];
    forall a, b | 0 <= a < b < |r|
      ensures r[a] in entries && r[b] in entries && entries[r[a]].sequence < entries[r[b]].sequence
    {
      var c := if a < i then a else a + 1;
      var d := if b < i then b else b + 1;
      assert r[a] == queue[c] && r[b] == queue[d];
    }
  }

  lemma WithoutKeepsOrder(queue: seq<ExecutionId>, entries: Entries, next: nat, id: ExecutionId)
    requires QueueInv(queue, entries, next) && id in queue
    ensures InOrder(Without(queue, id), entries)
  {
    hide InOrder, Without;
    WithoutSplits(queue, entries, next, id);
    CutKeepsOrder(queue, entries, Position(queue, id));
  }

  lemma WithoutKeepsQueue(queue: seq<ExecutionId>, entries: Entries, next: nat, id: ExecutionId)
    requires QueueInv(queue, entries, next) && id in entries
    ensures QueueInv(Without(queue, id), entries - {id}, next)
  {
    WithoutKeepsOrder(queue, entries, next, id);
    var r := Without(queue, id);
    var entries' := entries - {id};
    assert forall x :: x in entries' <==> x in entries && x != id;
    assert forall x | x in entries' :: entries'[x] == entries[x];
    forall a, b | 0 <= a < b < |r| ensures entries'[r[a]].sequence < entries'[r[b]].sequence {
      var x, y := r[a], r[b];
      assert x in r && y in r;
      assert entries[x].sequence < entries[y].sequence;
      assert entries'[x] == entries[x] && entries'[y] == entries[y];
    }
  }

  lemma PushKeepsQueue(queue: seq<ExecutionId>, entries: Entries, next: nat, id: ExecutionId, entry: QueueEntry)
    requires QueueInv(queue, entries, next) && id !in entries && entry.sequence == next
    ensures QueueInv(queue + [id], entries[id := entry], next + 1)
  {
    var r := queue + [id];
    var entries' := entries[id := entry];
    forall a, b | 0 <= a < b < |r| ensures entries'[r[a]].sequence < entries'[r[b]].sequence {
      assert r[a] in queue;
      assert r[a] in entries;
      if b < |queue| {
        assert r[b] in queue;
      }
    }
  }

  // ---------------------------------------------------------------- refcount facts

  lemma HoldsInsert(e: Entries, k: Keys, id: ExecutionId, entry: QueueEntry)
    requires id !in e && id !in k
    ensures forall x: ExecutionId, k1: OrderingKey ::
              Holds(e[id := entry], k, x, k1) <==> Holds(e, k, x, k1) || (x == id && entry.key == Some(k1))
  {}

  lemma HoldsRemove(e: Entries, k: Keys, id: ExecutionId)
    requires id in e && id !in k
    ensures forall x: ExecutionId, k1: OrderingKey ::
              Holds(e - {id}, k, x, k1) <==> Holds(e, k, x, k1) && !(x == id && e[id].key == Some(k1))
  {}

  lemma HoldsDispatch(e: Entries, k: Keys, id: ExecutionId)
    requires id in e && id !in k
    ensures var k' := if e[id].key.None? then k else k[id := e[id].key.value];
            forall x: ExecutionId, k1: OrderingKey :: Holds(e - {id}, k', x, k1) <==> Holds(e, k, x, k1)
  {}

  lemma HoldsFinish(e: Entries, k: Keys, id: ExecutionId)
    requires id !in e && id in k
    ensures forall x: ExecutionId, k1: OrderingKey ::
              Holds(e, k - {id}, x, k1) <==> Holds(e, k, x, k1) && !(x == id && k1 == k[id])
  {}

  lemma HoldersAre(e: Entries, k: Keys, key: OrderingKey)
    ensures forall x: ExecutionId :: x in Holders(e, k, key) <==> Holds(e, k, x, key)
  {}

  // How the holders of one key change when `id` starts or stops holding `key`.
  lemma HoldersStep(e: Entries, k: Keys, e': Entries, k': Keys, key: OrderingKey, k1: OrderingKey, id: ExecutionId,
                    grows: bool)
    requires grows ==> forall x: ExecutionId ::
               Holds(e', k', x, k1) <==> Holds(e, k, x, k1) || (x == id && k1 == key)
    requires !grows ==> forall x: ExecutionId ::
               Holds(e', k', x, k1) <==> Holds(e, k, x, k1) && !(x == id && k1 == key)
    requires Holds(e, k, id, key) == !grows
    ensures k1 != key ==> Holders(e', k', k1) == Holders(e, k, k1)
    ensures k1 == key && grows ==> Holders(e', k', k1) == Holders(e, k, k1) + {id} && id !in Holders(e, k, k1)
    ensures k1 == key && !grows ==> Holders(e', k', k1) == Holders(e, k, k1) - {id} && id in Holders(e, k, k1)
  {
    HoldersAre(e, k, k1);
    HoldersAre(e', k', k1);
  }

  // Adding one holder of `key` and counting it.
  lemma CountUp(e: Entries, k: Keys, e': Entries, k': Keys, counts: map<OrderingKey, nat>,
                id: ExecutionId, key: OrderingKey)
    requires CountInv(e, k, counts) && !Holds(e, k, id, key)
    requires forall x: ExecutionId, k1: OrderingKey ::
               Holds(e', k', x, k1) <==> Holds(e, k, x, k1) || (x == id && k1 == key)
    ensures CountInv(e', k', CountedOnce(counts, key))
    ensures |CountedOnce(counts, key)| == |counts| + (if key in counts then 0 else 1)
  {
    var counts' := CountedOnce(counts, key);
    assert counts'.Keys == counts.Keys + {key};
    forall k1: OrderingKey
      ensures k1 in counts' <==> Holders(e', k', k1) != {}
      ensures k1 in counts' ==> counts'[k1] == |Holders(e', k', k1)|
    {
      HoldersStep(e, k, e', k', key, k1, id, true);
    }
  }

  // Removing one holder of `key` and discounting it never underflows.
  lemma CountDown(e: Entries, k: Keys, e': Entries, k': Keys, counts: map<OrderingKey, nat>,
                  id: ExecutionId, key: OrderingKey)
    requires CountInv(e, k, counts) && Holds(e, k, id, key)
    requires forall x: ExecutionId, k1: OrderingKey ::
               Holds(e', k', x, k1) <==> Holds(e, k, x, k1) && !(x == id && k1 == key)
    ensures CountInv(e', k', DecrementRefcount(counts, key))
    ensures key in counts && counts[key] > 0 && |DecrementRefcount(counts, key)| <= |counts|
  {
    HoldersAre(e, k, key);
    assert (counts - {key}).Keys == counts.Keys - {key};
    assert counts[key := counts[key] - 1].Keys == counts.Keys;
    var counts' := DecrementRefcount(counts, key);
    forall k1: OrderingKey
      ensures k1 in counts' <==> Holders(e', k', k1) != {}
      ensures k1 in counts' ==> counts'[k1] == |Holders(e', k', k1)|
    {
      HoldersStep(e, k, e', k', key, k1, id, false);
      assert k1 == key ==> |Holders(e', k', k1)| == |Holders(e, k, k1)| - 1;
    }
  }

  // A change that leaves every holder in place keeps the counts.
  lemma CountSame(e: Entries, k: Keys, e': Entries, k': Keys, counts: map<OrderingKey, nat>)
    requires CountInv(e, k, counts)
    requires forall x: ExecutionId, k1: OrderingKey :: Holds(e', k', x, k1) <==> Holds(e, k, x, k1)
    ensures CountInv(e', k', counts)
  {
    forall k1: OrderingKey ensures Holders(e', k', k1) == Holders(e, k, k1) {
      HoldersAre(e, k, k1);
      HoldersAre(e', k', k1);
    }
  }

  lemma FlightUp(k: Keys, activeKeys: set<OrderingKey>, id: ExecutionId, key: OrderingKey)
    requires SingleFlight(k, activeKeys) && id !in k && key !in activeKeys
    ensures SingleFlight(k[id := key], activeKeys + {key})
  {
    var k' := k[id := key];
    forall x ensures x in k'.Values <==> x in activeKeys + {key} {
      if x in k.Values {
        var y := KeyOf(k, x);
        assert k'[y] == x;
      } else if x == key {
        assert k'[id] == x;
      }
    }
  }

  lemma FlightDown(k: Keys, activeKeys: set<OrderingKey>, id: ExecutionId)
    requires SingleFlight(k, activeKeys) && id in k
    ensures SingleFlight(k - {id}, activeKeys - {k[id]})
  {
    var k' := k - {id};
    forall x ensures x in k'.Values <==> x in activeKeys - {k[id]} {
      if x in k.Values && x != k[id] {
        var y := KeyOf(k, x);
        assert k'[y] == x;
      }
    }
  }

  // ---------------------------------------------------------------- preservation

  lemma AddToBoth<T>(a: set<T>, b: set<T>, x: T)
    requires b <= a && x !in a
    ensures (a + {x}) - (b + {x}) == a - b && b + {x} <= a + {x}
  {}

  lemma InsertKeepsRuns(s: State, id: ExecutionId, entry: QueueEntry)
    requires RunInv(s.entries, s.active, s.running) && id !in s.active
    ensures var e' := s.entries[id := entry];
            && RunInv(e', s.active + {id}, s.running)
            && (s.active + {id}) - e'.Keys == s.active - s.entries.Keys
            && |e'| == |s.entries| + 1
  {
    assert s.entries[id := entry].Keys == s.entries.Keys + {id};
    AddToBoth(s.active, s.entries.Keys, id);
  }

  lemma InsertKeepsCounts(e: Entries, k: Keys, counts: map<OrderingKey, nat>, id: ExecutionId, entry: QueueEntry)
    requires CountInv(e, k, counts) && id !in e && id !in k
    ensures entry.key.None? ==> CountInv(e[id := entry], k, counts)
    ensures entry.key.Some? ==>
              var counts' := CountedOnce(counts, entry.key.value);
              CountInv(e[id := entry], k, counts') &&
              |counts'| == |counts| + (if entry.key.value in counts then 0 else 1)
  {
    HoldsInsert(e, k, id, entry);
    match entry.key {
      case None =>
        CountSame(e, k, e[id := entry], k, counts);
      case Some(key) =>
        CountUp(e, k, e[id := entry], k, counts, id, key);
    }
  }

  lemma InsertRoom(cfg: Config, s: State, options: SpawnOptions, ticket: Option<Ticket>)
    requires InsertError(cfg, s, options.key, ticket).None?
    ensures |s.entries| < cfg.capacity && s.nextSequence < U64_MAX && !s.closing && !s.unavailable
    ensures options.key.Some? && options.key.value !in s.refcounts ==> |s.refcounts| < cfg.maxKeys
  {}

  lemma InsertKeepsLists(cfg: Config, s: State, id: ExecutionId, options: SpawnOptions)
    requires Inv(cfg, s) && id !in s.active && |s.entries| < cfg.capacity
    ensures var s' := Insert(s, id, options);
            && QueueInv(s'.queue, s'.entries, s'.nextSequence)
            && RunInv(s'.entries, s'.active, s'.running)
            && |s'.entries| <= cfg.capacity
            && s'.runningKeys.Keys <= s'.active - s'.entries.Keys
  {
    var entry := QueueEntry(options.priority, options.key, s.nextSequence);
    PushKeepsQueue(s.queue, s.entries, s.nextSequence, id, entry);
    InsertKeepsRuns(s, id, entry);
  }

  lemma InsertKeepsKeys(cfg: Config, s: State, id: ExecutionId, options: SpawnOptions)
    requires Inv(cfg, s) && id !in s.active
    requires options.key.Some? && options.key.value !in s.refcounts ==> |s.refcounts| < cfg.maxKeys
    ensures var s' := Insert(s, id, options);
            CountInv(s'.entries, s'.runningKeys, s'.refcounts) && |s'.refcounts| <= cfg.maxKeys
  {
    InsertKeepsCounts(s.entries, s.runningKeys, s.refcounts, id, Insert(s, id, options).entries[id]);
  }

  lemma InsertKeeps(cfg: Config, s: State, id: ExecutionId, options: SpawnOptions, ticket: Option<Ticket>)
    requires Inv(cfg, s) && id !in s.active
    requires InsertError(cfg, s, options.key, ticket).None?
    ensures Inv(cfg, Insert(s, id, options))
  {
    InsertRoom(cfg, s, options, ticket);
    InsertKeepsLists(cfg, s, id, options);
    InsertKeepsKeys(cfg, s, id, options);
    hide QueueInv, RunInv, CountInv;
  }

  lemma RemoveQueuedKeeps(cfg: Config, s: State, id: ExecutionId)
    requires Inv(cfg, s)
    ensures Inv(cfg, RemoveQueued(s, id))
  {
    if id in s.entries {
      var s' := RemoveQueued(s, id);
      WithoutKeepsQueue(s.queue, s.entries, s.nextSequence, id);
      assert s'.active - s'.entries.Keys == s.active - s.entries.Keys;
      HoldsRemove(s.entries, s.runningKeys, id);
      match s.entries[id].key {
        case None =>
          CountSame(s.entries, s.runningKeys, s'.entries, s'.runningKeys, s.refcounts);
        case Some(key) =>
          CountDown(s.entries, s.runningKeys, s'.entries, s'.runningKeys, s.refcounts, id, key);
      }
    }
  }

  lemma DispatchKeepsRuns(s: State, id: ExecutionId)
    requires RunInv(s.entries, s.active, s.running) && id in s.entries
    ensures RunInv(s.entries - {id}, s.active, s.running + 1)
    ensures s.active - (s.entries - {id}).Keys == (s.active - s.entries.Keys) + {id}
  {
    assert (s.entries - {id}).Keys == s.entries.Keys - {id};
    assert s.active - (s.entries - {id}).Keys == (s.active - s.entries.Keys) + {id};
  }

  lemma DispatchKeepsKeys(s: State, id: ExecutionId)
    requires id in s.entries && id !in s.runningKeys && !Blocked(s, s.entries[id])
    requires CountInv(s.entries, s.runningKeys, s.refcounts) && SingleFlight(s.runningKeys, s.activeKeys)
    ensures var s' := DispatchOne(s, id);
            && CountInv(s'.entries, s'.runningKeys, s'.refcounts)
            && SingleFlight(s'.runningKeys, s'.activeKeys)
            && s'.runningKeys.Keys <= s.runningKeys.Keys + {id}
  {
    var s' := DispatchOne(s, id);
    HoldsDispatch(s.entries, s.runningKeys, id);
    CountSame(s.entries, s.runningKeys, s'.entries, s'.runningKeys, s.refcounts);
    if s.entries[id].key.Some? {
      FlightUp(s.runningKeys, s.activeKeys, id, s.entries[id].key.value);
    }
  }

  lemma DispatchOneKeeps(cfg: Config, s: State, id: ExecutionId)
    requires Inv(cfg, s) && s.running < cfg.concurrency && Ready(s, id)
    ensures Inv(cfg, DispatchOne(s, id))
  {
    WithoutKeepsQueue(s.queue, s.entries, s.nextSequence, id);
    DispatchKeepsRuns(s, id);
    DispatchKeepsKeys(s, id);
    assert |s.entries - {id}| <= |s.entries| by {
      assert (s.entries - {id}).Keys == s.entries.Keys - {id};
    }
  }

  lemma RemoveFromFirst<T>(a: set<T>, b: set<T>, x: T)
    requires x in a && x !in b
    ensures (a - {x}) - b == (a - b) - {x} && |a - b| > 0 && |(a - {x}) - b| == |a - b| - 1
  {
    assert (a - {x}) - b == (a - b) - {x};
    assert x in a - b;
  }

  lemma FinishKeepsRuns(s: State, id: ExecutionId)
    requires RunInv(s.entries, s.active, s.running) && id in s.active && id !in s.entries
    ensures s.running > 0 && RunInv(s.entries, s.active - {id}, s.running - 1)
    ensures (s.active - {id}) - s.entries.Keys == (s.active - s.entries.Keys) - {id}
  {
    RemoveFromFirst(s.active, s.entries.Keys, id);
  }

  lemma ExecutionFinishedKeeps(cfg: Config, s: State, id: ExecutionId)
    requires Inv(cfg, s) && id !in s.entries
    ensures Inv(cfg, ExecutionFinished(s, id))
  {
    if id in s.active {
      FinishKeepsRuns(s, id);
      if id in s.runningKeys {
        FlightDown(s.runningKeys, s.activeKeys, id);
        HoldsFinish(s.entries, s.runningKeys, id);
        CountDown(s.entries, s.runningKeys, s.entries, s.runningKeys - {id}, s.refcounts, id, s.runningKeys[id]);
      }
    }
  }

  lemma NewWaiterKeeps(cfg: Config, s: State)
    requires Inv(cfg, s) && NewWaiter(cfg, s).Ok?
    ensures Inv(cfg, NewWaiter(cfg, s).value)
  {
    assert NewWaiter(cfg, s).value.waiting[|s.waiting|] == Ticket(s.nextWaiter);
  }

  lemma CutKeepsTickets(waiting: seq<Ticket>, i: nat, nextWaiter: nat)
    requires WaitInv(waiting, |waiting|, nextWaiter) && i < |waiting|
    ensures WaitInv(waiting[..i] + waiting[i + 1..], |waiting| - 1, nextWaiter)
    ensures i != 0 ==> Front(waiting[..i] + waiting[i + 1..]) == Front(waiting)
  {
    var r := waiting[..i] + waiting[i + 1..];
    forall a | 0 <= a < |r| ensures r[a] == waiting[if a < i then a else a + 1] {}
  }

  lemma WithoutKeepsTickets(waiting: seq<Ticket>, t: Ticket, nextWaiter: nat)
    requires WaitInv(waiting, |waiting|, nextWaiter) && t in waiting
    ensures |waiting| > 0 && WaitInv(Without(waiting, t), |waiting| - 1, nextWaiter)
    ensures Position(waiting, t) != 0 ==> Front(Without(waiting, t)) == Front(waiting)
  {
    var i := Position(waiting, t);
    assert waiting[i] == t;
    CutKeepsTickets(waiting, i, nextWaiter);
    TicketOnce(waiting, i, nextWaiter);
    hide WaitInv, Without, Position, Front;
    assert waiting == waiting[..i] + [t] + waiting[i + 1..];
    WithoutAt(waiting[..i], t, waiting[i + 1..]);
  }

  lemma TicketOnce(waiting: seq<Ticket>, i: nat, nextWaiter: nat)
    requires WaitInv(waiting, |waiting|, nextWaiter) && i < |waiting|
    ensures waiting[i] !in waiting[..i] && waiting[i] !in waiting[i + 1..]
  {}

  lemma FinishWaiterKeeps(cfg: Config, s: State, t: Ticket)
    requires Inv(cfg, s)
    ensures Inv(cfg, FinishWaiter(s, t))
  {
    if t in s.waiting {
      WithoutKeepsTickets(s.waiting, t, s.nextWaiter);
    }
  }

  lemma RequestCloseKeeps(cfg: Config, s: State)
    requires Inv(cfg, s)
    ensures Inv(cfg, RequestClose(s))
  {}

  lemma DispatcherStoppedKeeps(cfg: Config, s: State)
    requires Inv(cfg, s)
    ensures Inv(cfg, DispatcherStopped(s))
  {
    var s' := DispatcherStopped(s);
    assert s'.active - s'.entries.Keys == {};
  }
}
