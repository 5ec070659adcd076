/**
 The state behind a lane's mutex and one function per lock-held block. Every function here is
 an atomic step; notifications sent after the lock is released are modelled in `LaneSystem`.
 */
module LaneState {
  import opened Wrappers

  type ExecutionId(==, !new)
  // Ordering keys are only ever compared for equality.
  type OrderingKey(==, !new)
  datatype Ticket = Ticket(n: nat)
  type Priority = p: nat | p <= 7

  datatype Config = Config(capacity: nat, concurrency: nat, maxWaiting: nat, maxKeys: nat)

  datatype SpawnOptions = SpawnOptions(priority: Priority, key: Option<OrderingKey>)

  datatype QueueEntry = QueueEntry(priority: Priority, key: Option<OrderingKey>, sequence: nat)

  datatype SpawnError =
    | QueueFull
    | LaneClosing
    | ExecutorShuttingDown
    | ExecutorUnavailable
    | WaitingProducerLimitReached
    | OrderingKeyLimitReached
    | SequenceExhausted

  datatype State = State(
    closing: bool,
    unavailable: bool,
    queue: seq<ExecutionId>,
    entries: map<ExecutionId, QueueEntry>,
    active: set<ExecutionId>,
    running: nat,
    waitingProducers: nat,
    waiting: seq<Ticket>,
    nextWaiter: nat,
    nextSequence: nat,
    dispatchCount: nat,
    activeKeys: set<OrderingKey>,
    runningKeys: map<ExecutionId, OrderingKey>,
    refcounts: map<OrderingKey, nat>)

  const Initial: State :=
    State(false, false, [], map[], {}, 0, 0, [], 0, 0, 0, {}, map[], map[])

  // ---------------------------------------------------------------- waiter tickets

  // First key of the ordered ticket map, which is kept as its keys in ascending order.
  function Front(waiting: seq<Ticket>): Option<Ticket> {
    if waiting == [] then None else Some(waiting[0])
  }

  // ---------------------------------------------------------------- queue helpers

  // `VecDeque::retain(|id| *id != execution_id)`.
  function Without<T(==, !new)>(queue: seq<T>, id: T): (r: seq<T>)
    ensures forall x :: x in r <==> x in queue && x != id
    ensures |r| <= |queue|
  {
    if queue == [] then []
    else if queue[0] == id then Without(queue[1..], id)
    else [queue[0]] + Without(queue[1..], id)
  }

  lemma WithoutAbsent<T(!new)>(queue: seq<T>, id: T)
    requires id !in queue
    ensures Without(queue, id) == queue
  {
    if queue != [] {
      WithoutAbsent(queue[1..], id);
    }
  }

  lemma WithoutConcat<T(!new)>(a: seq<T>, b: seq<T>, id: T)
    ensures Without(a + b, id) == Without(a, id) + Without(b, id)
  {
    if a == [] {
      assert a + b == b;
    } else {
      assert (a + b)[1..] == a[1..] + b;
      WithoutConcat(a[1..], b, id);
    }
  }

  // Where an id occurs once, retaining the others removes exactly that position.
  lemma WithoutAt<T(!new)>(a: seq<T>, id: T, b: seq<T>)
    requires id !in a && id !in b
    ensures Without(a + [id] + b, id) == a + b
  {
    WithoutConcat(a + [id], b, id);
    WithoutConcat(a, [id], id);
    WithoutAbsent(a, id);
    WithoutAbsent(b, id);
    assert Without([id], id) == [];
    assert a + [] == a;
  }

  // ---------------------------------------------------------------- selection

  // Every eighth dispatch is reserved for the oldest ready entry.
  predicate Aged(dispatchCount: nat) {
    dispatchCount % 8 == 7
  }

  // `a` replaces the currently selected `b`.
  predicate Precedes(aged: bool, a: QueueEntry, b: QueueEntry) {
    if aged then a.sequence < b.sequence
    else a.priority > b.priority || (a.priority == b.priority && a.sequence < b.sequence)
  }

  predicate Blocked(s: State, e: QueueEntry) {
    e.key.Some? && e.key.value in s.activeKeys
  }

  predicate Ready(s: State, id: ExecutionId) {
    id in s.entries && !Blocked(s, s.entries[id])
  }

  // The entry a dispatch takes: ready, and no ready entry is preferred to it.
  ghost predicate Chosen(s: State, id: ExecutionId) {
    && Ready(s, id)
    && forall x | Ready(s, x) :: !Precedes(Aged(s.dispatchCount), s.entries[x], s.entries[id])
  }

  // ---------------------------------------------------------------- lock-held blocks

  function DecrementRefcount(counts: map<OrderingKey, nat>, key: OrderingKey): map<OrderingKey, nat> {
    if key !in counts || counts[key] == 0 then counts
    else if counts[key] == 1 then counts - {key}
    else counts[key := counts[key] - 1]
  }

  function NewWaiter(cfg: Config, s: State): Result<State, SpawnError> {
    if s.waitingProducers >= cfg.maxWaiting then Err(WaitingProducerLimitReached)
    else if s.nextWaiter + 1 > U64_MAX then Err(SequenceExhausted)
    else Ok(s.(nextWaiter := s.nextWaiter + 1,
               waitingProducers := s.waitingProducers + 1,
               waiting := s.waiting + [Ticket(s.nextWaiter)]))
  }

  function FinishWaiter(s: State, t: Ticket): State {
    if t !in s.waiting then s
    else s.(waiting := Without(s.waiting, t),
            waitingProducers := if s.waitingProducers == 0 then 0 else s.waitingProducers - 1)
  }

  // The producer whose ticket leaves the front passes the wake-up to the new front.
  function SuccessorOf(s: State, t: Ticket): Option<Ticket> {
    if Front(s.waiting) == Some(t) then Front(Without(s.waiting, t)) else None
  }

  function AdmissionError(cfg: Config, s: State, ticket: Option<Ticket>): Option<SpawnError> {
    if s.unavailable then Some(ExecutorUnavailable)
    else if s.closing then Some(LaneClosing)
    else if |s.entries| >= cfg.capacity then Some(QueueFull)
    else if ticket.Some? && Front(s.waiting) != ticket then Some(QueueFull)
    else if ticket.None? && s.waiting != [] then Some(QueueFull)
    else None
  }

  function KeyError(cfg: Config, s: State, key: Option<OrderingKey>): Option<SpawnError> {
    if key.None? then None
    else if key.value in s.refcounts then
      if s.refcounts[key.value] + 1 > USIZE_MAX then Some(SequenceExhausted) else None
    else if |s.refcounts| >= cfg.maxKeys then Some(OrderingKeyLimitReached)
    else None
  }

  function InsertError(cfg: Config, s: State, key: Option<OrderingKey>, ticket: Option<Ticket>): Option<SpawnError> {
    if AdmissionError(cfg, s, ticket).Some? then AdmissionError(cfg, s, ticket)
    else if KeyError(cfg, s, key).Some? then KeyError(cfg, s, key)
    else if s.nextSequence + 1 > U64_MAX then Some(SequenceExhausted)
    else None
  }

  function CountedOnce(counts: map<OrderingKey, nat>, key: OrderingKey): map<OrderingKey, nat> {
    counts[key := (if key in counts then counts[key] else 0) + 1]
  }

  function Insert(s: State, id: ExecutionId, options: SpawnOptions): State {
    s.(nextSequence := s.nextSequence + 1,
       refcounts := if options.key.None? then s.refcounts else CountedOnce(s.refcounts, options.key.value),
       active := s.active + {id},
       entries := s.entries[id := QueueEntry(options.priority, options.key, s.nextSequence)],
       queue := s.queue + [id])
  }

  function RemoveQueued(s: State, id: ExecutionId): State {
    if id !in s.entries then s
    else s.(entries := s.entries - {id},
            queue := Without(s.queue, id),
            active := s.active - {id},
            refcounts := if s.entries[id].key.None? then s.refcounts
                         else DecrementRefcount(s.refcounts, s.entries[id].key.value))
  }

  function NextDispatchCount(count: nat): nat {
    if count + 1 > U64_MAX then 0 else count + 1
  }

  function DispatchOne(s: State, id: ExecutionId): State
    requires id in s.entries
  {
    var key := s.entries[id].key;
    s.(queue := Without(s.queue, id),
       entries := s.entries - {id},
       activeKeys := if key.None? then s.activeKeys else s.activeKeys + {key.value},
       runningKeys := if key.None? then s.runningKeys else s.runningKeys[id := key.value],
       running := s.running + 1,
       dispatchCount := NextDispatchCount(s.dispatchCount))
  }

  // One pass of the dispatcher takes `starts` in order, each the chosen entry of its moment.
  ghost predicate Dispatchable(cfg: Config, s: State, starts: seq<ExecutionId>)
    decreases |starts|
  {
    starts == [] ||
    (s.running < cfg.concurrency && Chosen(s, starts[0]) &&
     Dispatchable(cfg, DispatchOne(s, starts[0]), starts[1..]))
  }

  ghost function Dispatch(cfg: Config, s: State, starts: seq<ExecutionId>): State
    requires Dispatchable(cfg, s, starts)
    decreases |starts|
  {
    if starts == [] then s else Dispatch(cfg, DispatchOne(s, starts[0]), starts[1..])
  }

  // The pass stops only at the concurrency limit or when nothing is ready.
  ghost predicate Saturated(cfg: Config, s: State) {
    s.running >= cfg.concurrency || forall id :: !Ready(s, id)
  }

  predicate ShouldExit(s: State) {
    s.closing && s.active == {}
  }

  function ExecutionFinished(s: State, id: ExecutionId): State {
    var s1 := if id in s.active
              then s.(active := s.active - {id}, running := if s.running == 0 then 0 else s.running - 1)
              else s;
    if id in s1.runningKeys
    then s1.(runningKeys := s1.runningKeys - {id},
             activeKeys := s1.activeKeys - {s1.runningKeys[id]},
             refcounts := DecrementRefcount(s1.refcounts, s1.runningKeys[id]))
    else s1
  }

  function RequestClose(s: State): State {
    s.(closing := true)
  }

  function DispatcherStopped(s: State): State {
    s.(closing := true, unavailable := true, queue := [], entries := map[], active := {}, running := 0,
       activeKeys := {}, runningKeys := map[], refcounts := map[])
  }

  // ---------------------------------------------------------------- the lane invariant

  // `queue` lists the keys of `entries` once each, oldest first.
  ghost predicate QueueInv(queue: seq<ExecutionId>, entries: map<ExecutionId, QueueEntry>, nextSequence: nat) {
    && (forall id :: id in queue <==> id in entries)
    && (forall i, j | 0 <= i < j < |queue| :: entries[queue[i]].sequence < entries[queue[j]].sequence)
    && (forall id | id in entries :: entries[id].sequence < nextSequence)
  }

  // Queued executions are active; the others are exactly the running ones.
  ghost predicate RunInv(entries: map<ExecutionId, QueueEntry>, active: set<ExecutionId>, running: nat) {
    && entries.Keys <= active
    && running == |active - entries.Keys|
  }

  ghost predicate Holds(entries: map<ExecutionId, QueueEntry>, runningKeys: map<ExecutionId, OrderingKey>,
                        id: ExecutionId, key: OrderingKey) {
    || (id in entries && entries[id].key == Some(key))
    || (id in runningKeys && runningKeys[id] == key)
  }

  // Queued and running executions that carry `key`.
  ghost function Holders(entries: map<ExecutionId, QueueEntry>, runningKeys: map<ExecutionId, OrderingKey>,
                         key: OrderingKey): set<ExecutionId> {
    set id | id in entries.Keys + runningKeys.Keys && Holds(entries, runningKeys, id, key)
  }

  // Every reference count is the number of holders, and no count is zero.
  ghost predicate CountInv(entries: map<ExecutionId, QueueEntry>, runningKeys: map<ExecutionId, OrderingKey>,
                           refcounts: map<OrderingKey, nat>) {
    && (forall key: OrderingKey :: key in refcounts <==> Holders(entries, runningKeys, key) != {})
    && (forall key | key in refcounts :: refcounts[key] == |Holders(entries, runningKeys, key)|)
  }

  // At most one running execution per key, and `activeKeys` is the set of those keys.
  ghost predicate SingleFlight(runningKeys: map<ExecutionId, OrderingKey>, activeKeys: set<OrderingKey>) {
    && activeKeys == runningKeys.Values
    && (forall a, b | a in runningKeys && b in runningKeys && runningKeys[a] == runningKeys[b] :: a == b)
  }

  // Live tickets in the order they were handed out.
  ghost predicate WaitInv(waiting: seq<Ticket>, waitingProducers: nat, nextWaiter: nat) {
    && waitingProducers == |waiting|
    && (forall i, j | 0 <= i < j < |waiting| :: waiting[i].n < waiting[j].n)
    && forall i | 0 <= i < |waiting| :: waiting[i].n < nextWaiter
  }

  ghost predicate Inv(cfg: Config, s: State) {
    && QueueInv(s.queue, s.entries, s.nextSequence)
    && RunInv(s.entries, s.active, s.running)
    && s.runningKeys.Keys <= s.active - s.entries.Keys
    && CountInv(s.entries, s.runningKeys, s.refcounts)
    && SingleFlight(s.runningKeys, s.activeKeys)
    && WaitInv(s.waiting, s.waitingProducers, s.nextWaiter)
    && |s.entries| <= cfg.capacity && s.running <= cfg.concurrency
    && |s.refcounts| <= cfg.maxKeys && s.waitingProducers <= cfg.maxWaiting
    && s.nextWaiter <= U64_MAX && s.nextSequence <= U64_MAX && s.dispatchCount <= U64_MAX
    && (s.unavailable ==> s.closing && s.active == {})
  }
}
