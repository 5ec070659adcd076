/** Ordering over whole runs: bounded waiting, same-key order, one start per execution. */
module LaneFairness {
  import opened Wrappers
  import opened LaneState
  import opened LaneInvariant
  import opened LaneSystem
  import opened LaneRuns

  // ---------------------------------------------------------------- what an event does to the queue

  datatype Effect =
    | Same
    | Pushed(id: ExecutionId, options: SpawnOptions)
    | Pulled(id: ExecutionId)
    | Took(starts: seq<ExecutionId>)
    | Cleared

  ghost predicate HasEffect(cfg: Config, y: System, z: System, f: Effect) {
    match f
    case Same =>
      && z.lane.queue == y.lane.queue && z.lane.entries == y.lane.entries
      && z.lane.dispatchCount == y.lane.dispatchCount && z.log.admitted == y.log.admitted
      && z.log.started == y.log.started && z.log.removed == y.log.removed
    case Pushed(id, options) =>
      && id !in y.log.admitted && z.lane == Insert(y.lane, id, options)
      && z.log.admitted == y.log.admitted + {id}
      && z.log.started == y.log.started && z.log.removed == y.log.removed
    case Pulled(id) =>
      && id in y.lane.entries && z.lane == RemoveQueued(y.lane, id) && z.log.admitted == y.log.admitted
      && z.log.started == y.log.started && z.log.removed == y.log.removed + {id}
    case Took(starts) =>
      && Dispatchable(cfg, y.lane, starts) && z.lane == Dispatch(cfg, y.lane, starts)
      && z.log.admitted == y.log.admitted
      && z.log.started == y.log.started + starts && z.log.removed == y.log.removed
    case Cleared =>
      && z.lane == DispatcherStopped(y.lane) && z.log.admitted == y.log.admitted
      && z.log.started == y.log.started && z.log.removed == y.log.removed + y.lane.entries.Keys
  }

  function PullOf(y: System, id: ExecutionId): Effect {
    if id in y.lane.entries then Pulled(id) else Same
  }

  function EffectOf(cfg: Config, y: System, e: Event): Effect
    requires e.Register? ==> e.t in y.desk.phases && y.desk.phases[e.t].Published?
  {
    match e
    case Admit(t, id, options) =>
      if InsertError(cfg, y.lane, options.key, Some(t)).Some? then Same else Pushed(id, options)
    case Register(t, ok) => if ok then Same else PullOf(y, y.desk.phases[t].id)
    case AdmitDirect(id, options) => Pushed(id, options)
    case RegisterDirect(id, ok) => if ok then Same else PullOf(y, id)
    case CancelQueued(id) => PullOf(y, id)
    case TakeStartable(starts) => Took(starts)
    case DispatcherStops => Cleared
    case _ => Same
  }

  lemma EnlistFrame(cfg: Config, s: State)
    requires NewWaiter(cfg, s).Ok?
    ensures var t := NewWaiter(cfg, s).value;
            t.queue == s.queue && t.entries == s.entries && t.dispatchCount == s.dispatchCount
  {}

  lemma EventEffect(cfg: Config, y: System, e: Event)
    requires Enabled(cfg, y, e)
    ensures HasEffect(cfg, y, Next(cfg, y, e), EffectOf(cfg, y, e))
  {
    hide Dispatchable, Dispatch, Saturated, Insert, RemoveQueued, DispatcherStopped, InsertError, AdmissionError;
    hide AfterCheck, Rejected, SuccessorOf, One, Front, Delivered, NewWaiter, DecrementRefcount, InPhase;
    if e.Enlist? {
      EnlistFrame(cfg, y.lane);
    }
  }

  // ---------------------------------------------------------------- positions in the queue

  lemma {:induction false} PositionWithout<T(!new)>(queue: seq<T>, x: T, id: T)
    requires Distinct(queue) && x in queue && id in queue && x != id
    ensures id in Without(queue, x)
    ensures Position(Without(queue, x), id) ==
            if Position(queue, x) < Position(queue, id) then Position(queue, id) - 1 else Position(queue, id)
  {
    if queue[0] == x {
      WithoutAbsent(queue[1..], x);
    } else if queue[0] != id {
      PositionWithout(queue[1..], x, id);
    }
  }

  lemma {:induction false} PositionPush<T(!new)>(queue: seq<T>, x: T, id: T)
    requires id in queue
    ensures id in queue + [x] && Position(queue + [x], id) == Position(queue, id)
  {
    if queue[0] != id {
      assert (queue + [x])[1..] == queue[1..] + [x];
      PositionPush(queue[1..], x, id);
    }
  }

  lemma QueueIsDistinct(s: State)
    requires QueueInv(s.queue, s.entries, s.nextSequence)
    ensures Distinct(s.queue)
  {}

  // Older means nearer the front.
  lemma OlderIsNearer(s: State, a: ExecutionId, b: ExecutionId)
    requires QueueInv(s.queue, s.entries, s.nextSequence) && a in s.entries && b in s.entries
    ensures s.entries[a].sequence < s.entries[b].sequence <==> Position(s.queue, a) < Position(s.queue, b)
    ensures s.entries[a].sequence == s.entries[b].sequence <==> a == b
  {}

  // ---------------------------------------------------------------- bounded waiting

  // An upper bound on the dispatches that can still happen before an unkeyed entry's own.
  ghost function Rank(s: State, id: ExecutionId): nat
    requires id in s.queue
  {
    8 * Position(s.queue, id) + (8 - s.dispatchCount % 8)
  }

  // The reserved slot keeps coming round when the counter wraps, as 2^64 is a multiple of 8.
  lemma AgingSurvivesWrap(count: nat)
    requires count <= U64_MAX
    ensures NextDispatchCount(count) % 8 == if Aged(count) then 0 else count % 8 + 1
  {}

  // The reserved dispatch never passes over a ready entry for a younger one.
  lemma AgedIsNearer(s: State, x: ExecutionId, id: ExecutionId)
    requires QueueInv(s.queue, s.entries, s.nextSequence)
    requires Chosen(s, x) && Ready(s, id) && x != id && Aged(s.dispatchCount)
    ensures Position(s.queue, x) < Position(s.queue, id)
  {
    OlderIsNearer(s, id, x);
    OlderIsNearer(s, x, id);
  }

  lemma NearerAfterDispatch(s: State, x: ExecutionId, id: ExecutionId)
    requires QueueInv(s.queue, s.entries, s.nextSequence)
    requires Chosen(s, x) && id in s.entries && x != id
    ensures id in s.queue && id in Without(s.queue, x)
    ensures Position(Without(s.queue, x), id) <= Position(s.queue, id)
    ensures Aged(s.dispatchCount) && Ready(s, id) ==>
              Position(Without(s.queue, x), id) == Position(s.queue, id) - 1
  {
    assert x in s.queue && id in s.queue;
    QueueIsDistinct(s);
    PositionWithout(s.queue, x, id);
    if Aged(s.dispatchCount) && Ready(s, id) {
      AgedIsNearer(s, x, id);
    }
  }

  lemma RankDispatchOne(s: State, x: ExecutionId, id: ExecutionId)
    requires QueueInv(s.queue, s.entries, s.nextSequence) && s.dispatchCount <= U64_MAX
    requires Chosen(s, x) && id in s.entries && s.entries[id].key.None? && x != id
    ensures id in s.queue && id in DispatchOne(s, x).queue && Rank(DispatchOne(s, x), id) + 1 <= Rank(s, id)
  {
    assert Ready(s, id);
    NearerAfterDispatch(s, x, id);
    AgingSurvivesWrap(s.dispatchCount);
    hide QueueInv, Chosen, Without, Position, NextDispatchCount;
  }

  lemma DispatchShrinks(cfg: Config, s: State, starts: seq<ExecutionId>)
    requires Dispatchable(cfg, s, starts)
    ensures forall id :: id in Dispatch(cfg, s, starts).entries ==>
                           id in s.entries && Dispatch(cfg, s, starts).entries[id] == s.entries[id]
    ensures forall id :: id in starts ==> id in s.entries && id !in Dispatch(cfg, s, starts).entries
    decreases |starts|
  {
    if starts != [] {
      DispatchShrinks(cfg, DispatchOne(s, starts[0]), starts[1..]);
      assert forall id :: id in starts ==> id == starts[0] || id in starts[1..];
    }
  }

  lemma RankDispatch(cfg: Config, s: State, starts: seq<ExecutionId>, id: ExecutionId)
    requires Inv(cfg, s) && Dispatchable(cfg, s, starts)
    requires id in s.entries && s.entries[id].key.None? && id in Dispatch(cfg, s, starts).entries
    ensures id in s.queue && id in Dispatch(cfg, s, starts).queue
    ensures Rank(Dispatch(cfg, s, starts), id) + |starts| <= Rank(s, id)
    decreases |starts|
  {
    assert id in s.queue && QueueInv(s.queue, s.entries, s.nextSequence) && s.dispatchCount <= U64_MAX;
    hide Inv, QueueInv, Rank;
    if starts != [] {
      DispatchShrinks(cfg, s, starts);
      DispatchShrinks(cfg, DispatchOne(s, starts[0]), starts[1..]);
      DispatchOneKeeps(cfg, s, starts[0]);
      RankDispatchOne(s, starts[0], id);
      RankDispatch(cfg, DispatchOne(s, starts[0]), starts[1..], id);
    }
  }

  // Only dispatches change the counter, and nothing but time moves a queued entry back.
  lemma KeptInPlace(cfg: Config, y: System, z: System, f: Effect, id: ExecutionId)
    requires HasEffect(cfg, y, z, f) && !f.Took? && id in y.log.admitted
    requires id in y.lane.entries && id in z.lane.entries && id in y.lane.queue
    requires Distinct(y.lane.queue) && forall x | x in y.lane.entries :: x in y.lane.queue
    ensures id in z.lane.queue && z.lane.entries[id] == y.lane.entries[id]
    ensures Position(z.lane.queue, id) <= Position(y.lane.queue, id)
    ensures z.lane.dispatchCount == y.lane.dispatchCount && z.log.started == y.log.started
  {
    match f {
      case Pushed(x, options) => PositionPush(y.lane.queue, x, id);
      case Pulled(x) => PositionWithout(y.lane.queue, x, id);
      case _ =>
    }
  }

  lemma QueuedFacts(cfg: Config, y: System, id: ExecutionId)
    requires SystemInv(cfg, y) && id in y.lane.entries
    ensures Inv(cfg, y.lane) && id in y.lane.queue && id in y.log.admitted && Distinct(y.lane.queue)
    ensures forall x | x in y.lane.entries :: x in y.lane.queue
  {
    assert FateInv(y.lane.entries.Keys, y.log);
    QueueIsDistinct(y.lane);
  }

  // No single event lets an entry wait longer than its rank allows.
  lemma RankEvent(cfg: Config, y: System, e: Event, id: ExecutionId)
    requires SystemInv(cfg, y) && Enabled(cfg, y, e)
    requires id in y.lane.entries && y.lane.entries[id].key.None? && id in Next(cfg, y, e).lane.entries
    ensures var z := Next(cfg, y, e);
            && z.lane.entries[id] == y.lane.entries[id]
            && id in y.lane.queue && id in z.lane.queue
            && Rank(z.lane, id) + |z.log.started| <= Rank(y.lane, id) + |y.log.started|
  {
    hide SystemInv, Next, Inv, Distinct, Position, Dispatchable, Dispatch;
    QueuedFacts(cfg, y, id);
    EventEffect(cfg, y, e);
    var f := EffectOf(cfg, y, e);
    if f.Took? {
      DispatchShrinks(cfg, y.lane, f.starts);
      RankDispatch(cfg, y.lane, f.starts, id);
    } else {
      KeptInPlace(cfg, y, Next(cfg, y, e), f, id);
    }
  }

  // An execution that left the queue never comes back.
  lemma NeverRequeued(cfg: Config, y: System, e: Event, id: ExecutionId)
    requires SystemInv(cfg, y) && Enabled(cfg, y, e) && id in y.log.admitted && id !in y.lane.entries
    ensures id in Next(cfg, y, e).log.admitted && id !in Next(cfg, y, e).lane.entries
  {
    hide SystemInv, Next;
    EventEffect(cfg, y, e);
    match EffectOf(cfg, y, e) {
      case Took(starts) => DispatchShrinks(cfg, y.lane, starts);
      case _ =>
    }
  }

  lemma {:induction false} NeverRequeuedInRun(cfg: Config, y: System, events: seq<Event>, id: ExecutionId)
    requires SystemInv(cfg, y) && Legal(cfg, y, events) && id in y.log.admitted && id !in y.lane.entries
    ensures id !in After(cfg, y, events).lane.entries
    decreases |events|
  {
    hide SystemInv, Next;
    if events != [] {
      StepKeeps(cfg, y, events[0]);
      NeverRequeued(cfg, y, events[0], id);
      NeverRequeuedInRun(cfg, Next(cfg, y, events[0]), events[1..], id);
    }
  }

  lemma StillQueued(cfg: Config, y: System, events: seq<Event>, id: ExecutionId)
    requires SystemInv(cfg, y) && Legal(cfg, y, events) && events != []
    requires id in y.log.admitted && id in After(cfg, y, events).lane.entries
    ensures id in Next(cfg, y, events[0]).lane.entries
  {
    hide SystemInv, Next;
    StepKeeps(cfg, y, events[0]);
    AdmittedForever(cfg, y, events[..1], id);
    assert events[..1] == [events[0]];
    if id !in Next(cfg, y, events[0]).lane.entries {
      NeverRequeuedInRun(cfg, Next(cfg, y, events[0]), events[1..], id);
    }
  }

  lemma {:induction false} RankRun(cfg: Config, y: System, events: seq<Event>, id: ExecutionId)
    requires SystemInv(cfg, y) && Legal(cfg, y, events)
    requires id in y.lane.entries && y.lane.entries[id].key.None? && id in After(cfg, y, events).lane.entries
    ensures var z := After(cfg, y, events);
            && id in y.lane.queue && id in z.lane.queue
            && Rank(z.lane, id) + |z.log.started| <= Rank(y.lane, id) + |y.log.started|
    decreases |events|
  {
    assert id in y.lane.queue && id in y.log.admitted;
    hide SystemInv, Next, Rank;
    if events != [] {
      StepKeeps(cfg, y, events[0]);
      StillQueued(cfg, y, events, id);
      RankEvent(cfg, y, events[0], id);
      RankRun(cfg, Next(cfg, y, events[0]), events[1..], id);
    }
  }

  // Every admitted execution is queued, withdrawn or started.
  lemma FateOf(cfg: Config, y: System, id: ExecutionId)
    requires SystemInv(cfg, y) && id in y.log.admitted
    ensures id in y.lane.entries || id in y.log.removed || id in y.log.started
  {
    assert id in y.lane.entries.Keys + y.log.removed + Elements(y.log.started);
  }

  /** An unkeyed entry behind `older` entries is started within 8 * (older + 1) further dispatches
      of any run, whatever arrives later, unless it is withdrawn. */
  lemma BoundedWaiting(cfg: Config, y: System, events: seq<Event>, id: ExecutionId, older: nat)
    requires SystemInv(cfg, y) && Legal(cfg, y, events)
    requires older < |y.lane.queue| && y.lane.queue[older] == id && y.lane.entries[id].key.None?
    requires |After(cfg, y, events).log.started| >= |y.log.started| + 8 * (older + 1)
    ensures id in After(cfg, y, events).log.started || id in After(cfg, y, events).log.removed
  {
    QueueIsDistinct(y.lane);
    assert id in y.lane.queue && Position(y.lane.queue, id) == older;
    assert id in y.log.admitted;
    hide SystemInv;
    if id in After(cfg, y, events).lane.entries {
      RankRun(cfg, y, events, id);
      assert false;
    }
    AdmittedForever(cfg, y, events, id);
    RunKeeps(cfg, y, events);
    FateOf(cfg, After(cfg, y, events), id);
  }

  lemma {:induction false} AdmittedForever(cfg: Config, y: System, events: seq<Event>, id: ExecutionId)
    requires Legal(cfg, y, events) && id in y.log.admitted
    ensures id in After(cfg, y, events).log.admitted
    decreases |events|
  {
    hide Next;
    if events != [] {
      EventEffect(cfg, y, events[0]);
      AdmittedForever(cfg, Next(cfg, y, events[0]), events[1..], id);
    }
  }

  // ---------------------------------------------------------------- bounded waiting of any entry

  // Reserved dispatches of a pass that find `id` ready.
  ghost function Turns(cfg: Config, s: State, starts: seq<ExecutionId>, id: ExecutionId): nat
    requires Dispatchable(cfg, s, starts)
    decreases |starts|
  {
    if starts == [] then 0
    else (if Aged(s.dispatchCount) && Ready(s, id) then 1 else 0) +
         Turns(cfg, DispatchOne(s, starts[0]), starts[1..], id)
  }

  ghost function TurnsOf(cfg: Config, y: System, e: Event, id: ExecutionId): nat
    requires Enabled(cfg, y, e)
  {
    if e.TakeStartable? then Turns(cfg, y.lane, e.starts, id) else 0
  }

  ghost function TurnsInRun(cfg: Config, y: System, events: seq<Event>, id: ExecutionId): nat
    requires Legal(cfg, y, events)
    decreases |events|
  {
    if events == [] then 0
    else TurnsOf(cfg, y, events[0], id) + TurnsInRun(cfg, Next(cfg, y, events[0]), events[1..], id)
  }

  lemma TurnsDispatch(cfg: Config, s: State, starts: seq<ExecutionId>, id: ExecutionId)
    requires Inv(cfg, s) && Dispatchable(cfg, s, starts)
    requires id in s.entries && id in Dispatch(cfg, s, starts).entries
    ensures id in s.queue && id in Dispatch(cfg, s, starts).queue
    ensures Position(Dispatch(cfg, s, starts).queue, id) + Turns(cfg, s, starts, id) <= Position(s.queue, id)
    decreases |starts|
  {
    assert id in s.queue && QueueInv(s.queue, s.entries, s.nextSequence);
    hide Inv, QueueInv, Position;
    if starts != [] {
      DispatchShrinks(cfg, s, starts);
      DispatchShrinks(cfg, DispatchOne(s, starts[0]), starts[1..]);
      DispatchOneKeeps(cfg, s, starts[0]);
      NearerAfterDispatch(s, starts[0], id);
      TurnsDispatch(cfg, DispatchOne(s, starts[0]), starts[1..], id);
    }
  }

  // Every reserved dispatch that finds the entry ready brings it one place nearer.
  lemma TurnsEvent(cfg: Config, y: System, e: Event, id: ExecutionId)
    requires SystemInv(cfg, y) && Enabled(cfg, y, e)
    requires id in y.lane.entries && id in Next(cfg, y, e).lane.entries
    ensures var z := Next(cfg, y, e);
            && id in y.lane.queue && id in z.lane.queue
            && Position(z.lane.queue, id) + TurnsOf(cfg, y, e, id) <= Position(y.lane.queue, id)
  {
    hide SystemInv, Next, Inv, Distinct, Position, Dispatchable, Dispatch, Turns;
    QueuedFacts(cfg, y, id);
    EventEffect(cfg, y, e);
    var f := EffectOf(cfg, y, e);
    if f.Took? {
      TurnsDispatch(cfg, y.lane, f.starts, id);
    } else {
      KeptInPlace(cfg, y, Next(cfg, y, e), f, id);
    }
  }

  lemma {:induction false} TurnsRun(cfg: Config, y: System, events: seq<Event>, id: ExecutionId)
    requires SystemInv(cfg, y) && Legal(cfg, y, events)
    requires id in y.lane.entries && id in After(cfg, y, events).lane.entries
    ensures id in y.lane.queue && TurnsInRun(cfg, y, events, id) <= Position(y.lane.queue, id)
    decreases |events|
  {
    QueuedFacts(cfg, y, id);
    hide SystemInv, Next, Position, TurnsOf, Inv, Distinct, Enabled;
    if events != [] {
      StepKeeps(cfg, y, events[0]);
      StillQueued(cfg, y, events, id);
      TurnsEvent(cfg, y, events[0], id);
      TurnsRun(cfg, Next(cfg, y, events[0]), events[1..], id);
    }
  }

  // ---------------------------------------------------------------- same-key order

  // Queued together under one key, or both without a key, the older at least as urgent.
  ghost predicate Elder(s: State, a: ExecutionId, b: ExecutionId) {
    && a in s.entries && b in s.entries
    && s.entries[a].key == s.entries[b].key
    && s.entries[a].sequence < s.entries[b].sequence
    && s.entries[a].priority >= s.entries[b].priority
  }

  // Neither the priority rule nor the aging rule picks the younger one.
  lemma ElderBlocksYounger(s: State, a: ExecutionId, b: ExecutionId)
    requires Elder(s, a, b)
    ensures !Chosen(s, b)
  {
    if Ready(s, b) {
      assert Ready(s, a);
      assert Precedes(Aged(s.dispatchCount), s.entries[a], s.entries[b]);
    }
  }

  ghost predicate Before<T(!new)>(s: seq<T>, a: T, b: T) {
    a in s && (b in s ==> Position(s, a) < Position(s, b))
  }

  lemma ElderBatch(cfg: Config, s: State, starts: seq<ExecutionId>, a: ExecutionId, b: ExecutionId)
    requires Dispatchable(cfg, s, starts) && Elder(s, a, b)
    ensures a in starts ==> Before(starts, a, b)
    ensures a !in starts ==> b !in starts && Elder(Dispatch(cfg, s, starts), a, b)
    decreases |starts|
  {
    if starts != [] {
      ElderBlocksYounger(s, a, b);
      assert starts == [starts[0]] + starts[1..];
      if starts[0] != a {
        ElderBatch(cfg, DispatchOne(s, starts[0]), starts[1..], a, b);
      }
    }
  }

  lemma {:induction false} PositionAppend<T(!new)>(s: seq<T>, more: seq<T>, x: T)
    requires x in s || x in more
    ensures x in s + more
    ensures Position(s + more, x) == if x in s then Position(s, x) else |s| + Position(more, x)
  {
    if s == [] {
      assert s + more == more;
    } else {
      assert (s + more)[1..] == s[1..] + more;
      if s[0] != x {
        PositionAppend(s[1..], more, x);
      }
    }
  }

  // The younger one has not overtaken the elder and can no longer do so.
  ghost predicate Settled(queued: set<ExecutionId>, log: Log, a: ExecutionId, b: ExecutionId) {
    && a in log.admitted && b in log.admitted
    && (b in queued ==> a !in queued && (a in log.removed || a in log.started))
    && (b in log.started ==> a !in queued && (a in log.removed || Before(log.started, a, b)))
  }

  lemma SettledTake(queued: set<ExecutionId>, queued': set<ExecutionId>, log: Log, log': Log,
                    starts: seq<ExecutionId>, a: ExecutionId, b: ExecutionId)
    requires Settled(queued, log, a, b) && FateInv(queued, log)
    requires log'.admitted == log.admitted && log'.removed == log.removed && log'.started == log.started + starts
    requires queued' <= queued && forall x | x in starts :: x in queued
    ensures Settled(queued', log', a, b)
  {
    assert b in log.started ==> b in Elements(log.started);
    if b in log'.started && a !in log.removed {
      PositionAppend(log.started, starts, b);
      PositionAppend(log.started, starts, a);
    }
  }

  lemma ElderTake(cfg: Config, y: System, z: System, starts: seq<ExecutionId>, a: ExecutionId, b: ExecutionId)
    requires FateInv(y.lane.entries.Keys, y.log) && HasEffect(cfg, y, z, Took(starts)) && Elder(y.lane, a, b)
    ensures Elder(z.lane, a, b) || Settled(z.lane.entries.Keys, z.log, a, b)
  {
    DispatchShrinks(cfg, y.lane, starts);
    ElderBatch(cfg, y.lane, starts, a, b);
    assert a !in Elements(y.log.started) && b !in Elements(y.log.started);
    if a in starts {
      PositionAppend(y.log.started, starts, a);
      if b in starts {
        PositionAppend(y.log.started, starts, b);
      }
    }
  }

  lemma OrderOtherEffect(cfg: Config, y: System, z: System, f: Effect, a: ExecutionId, b: ExecutionId)
    requires FateInv(y.lane.entries.Keys, y.log) && HasEffect(cfg, y, z, f) && !f.Took?
    requires Elder(y.lane, a, b) || Settled(y.lane.entries.Keys, y.log, a, b)
    ensures Elder(z.lane, a, b) || Settled(z.lane.entries.Keys, z.log, a, b)
  {
    assert Elder(y.lane, a, b) ==> a !in Elements(y.log.started) && b !in Elements(y.log.started);
    hide Position;
  }

  lemma OrderEvent(cfg: Config, y: System, e: Event, a: ExecutionId, b: ExecutionId)
    requires SystemInv(cfg, y) && Enabled(cfg, y, e)
    requires Elder(y.lane, a, b) || Settled(y.lane.entries.Keys, y.log, a, b)
    ensures var z := Next(cfg, y, e); Elder(z.lane, a, b) || Settled(z.lane.entries.Keys, z.log, a, b)
  {
    assert FateInv(y.lane.entries.Keys, y.log);
    hide SystemInv, Next, Elder, Settled, FateInv;
    var z := Next(cfg, y, e);
    EventEffect(cfg, y, e);
    match EffectOf(cfg, y, e) {
      case Took(starts) =>
        if Elder(y.lane, a, b) {
          ElderTake(cfg, y, z, starts, a, b);
        } else {
          DispatchShrinks(cfg, y.lane, starts);
          SettledTake(y.lane.entries.Keys, z.lane.entries.Keys, y.log, z.log, starts, a, b);
        }
      case f => OrderOtherEffect(cfg, y, z, f, a, b);
    }
  }

  lemma {:induction false} OrderRun(cfg: Config, y: System, events: seq<Event>, a: ExecutionId, b: ExecutionId)
    requires SystemInv(cfg, y) && Legal(cfg, y, events)
    requires Elder(y.lane, a, b) || Settled(y.lane.entries.Keys, y.log, a, b)
    ensures var z := After(cfg, y, events); Elder(z.lane, a, b) || Settled(z.lane.entries.Keys, z.log, a, b)
    decreases |events|
  {
    hide SystemInv, Next, Elder, Settled;
    if events != [] {
      StepKeeps(cfg, y, events[0]);
      OrderEvent(cfg, y, events[0], a, b);
      OrderRun(cfg, Next(cfg, y, events[0]), events[1..], a, b);
    }
  }

  /** Of two entries queued together under the same key, or both without one, the older starts
      first in every run unless it is withdrawn, provided the younger is not more urgent. */
  lemma SameKeyOrder(cfg: Config, y: System, events: seq<Event>, a: ExecutionId, b: ExecutionId)
    requires SystemInv(cfg, y) && Legal(cfg, y, events) && Elder(y.lane, a, b)
    requires b in After(cfg, y, events).log.started
    ensures a in After(cfg, y, events).log.removed || Before(After(cfg, y, events).log.started, a, b)
  {
    var z := After(cfg, y, events);
    OrderRun(cfg, y, events, a, b);
    RunKeeps(cfg, y, events);
    assert b in Elements(z.log.started);
  }
}
