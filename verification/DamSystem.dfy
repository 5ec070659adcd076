/**
 The legacy dam among its concurrent actors: enqueuers, cancellers, releasers and the worker with
 the execution it runs. Each event is one atomic operation, one lock-held block or one cancellation
 check, so a run interleaves a cancel with the worker's hand-off in every possible way.
 */
module DamSystem {
  import opened Wrappers

  // The sequence number a task is tagged with when it is enqueued; it also names its execution.
  datatype Stamp = Stamp(n: nat)

  type CallId(==, !new)

  datatype Stage =
    | Entering      // the attempt loop is about to start
    | Checking      // about to look at the cancellation flag
    | Cleared       // the last check before an attempt passed
    | Executing
    | Restarting    // a periodic task panicked and sleeps before its loop restarts

  datatype Worker =
    | Idle
    | Taken(s: Stamp)
    | Passed(s: Stamp)              // the watermark was not above its stamp
    | Published(s: Stamp)           // visible to cancellers as the current task
    | Running(s: Stamp, stage: Stage)
    | Clearing(s: Stamp)            // about to clear the current slot

  // A canceller has read its snapshot, then raises the watermark, then flags the current task.
  datatype CallPhase = Snapshot | Raised | Returned

  datatype Call = Call(bound: nat, phase: CallPhase, release: bool)

  datatype Queue = Queue(nextSeq: nat, watermark: nat, open: bool, pending: set<Stamp>, buffer: seq<Stamp>)

  datatype LoopExit = Interrupted | Finished | PanickedOut | NoAttempts

  // Per-execution flags and what has happened to each execution.
  datatype Log = Log(
    flagged: set<Stamp>,
    notified: set<Stamp>,
    interrupts: multiset<Stamp>,    // calls of `on_interrupt`
    begins: multiset<Stamp>,        // attempts begun
    ran: set<Stamp>,                // executions that reached their attempt loop
    handled: set<Stamp>,            // executions the worker is done with
    exits: map<Stamp, LoopExit>)    // how their attempt loop ended

  datatype System = System(queue: Queue, current: Option<Stamp>, worker: Worker, calls: map<CallId, Call>, log: Log)

  const Start: System :=
    System(Queue(0, 0, true, {}, []), None, Idle, map[],
           Log({}, {}, multiset{}, multiset{}, {}, {}, map[]))

  datatype Outcome = Done | Retry | Exhausted

  datatype Event =
    | StampNext
    | Send(s: Stamp)
    | Receive
    | FirstCheck
    | Publish
    | Recheck
    | Clear
    | Enter(empty: bool)
    | Check
    | CheckAgain
    | BeginWork
    | WorkEnds(outcome: Outcome)
    | Panics(periodic: bool)
    | Resume
    | CallStarts(k: CallId, release: bool)
    | Raise(k: CallId)
    | FlagCurrent(k: CallId)
    | CloseChannel(k: CallId)

  predicate InStage(y: System, stages: set<Stage>) {
    y.worker.Running? && y.worker.stage in stages
  }

  predicate InCall(y: System, k: CallId, phase: CallPhase) {
    k in y.calls && y.calls[k].phase == phase
  }

  predicate Enabled(y: System, e: Event) {
    match e
    case StampNext => y.queue.nextSeq < U64_MAX
    case Send(s) => s in y.queue.pending
    case Receive => y.worker.Idle? && y.queue.buffer != []
    case FirstCheck => y.worker.Taken?
    case Publish => y.worker.Passed?
    case Recheck => y.worker.Published?
    case Clear => y.worker.Clearing?
    case Enter(_) => InStage(y, {Entering})
    case Check => InStage(y, {Checking})
    case CheckAgain => InStage(y, {Cleared})
    case BeginWork => InStage(y, {Cleared})
    case WorkEnds(_) => InStage(y, {Executing})
    case Panics(_) => y.worker.Running?
    case Resume => InStage(y, {Restarting})
    case CallStarts(k, _) => k !in y.calls
    case Raise(k) => InCall(y, k, Snapshot)
    case FlagCurrent(k) => InCall(y, k, Raised)
    case CloseChannel(k) => InCall(y, k, Returned) && y.calls[k].release
  }

  // `LegacyExecution::cancel`.
  function Flag(log: Log, s: Stamp): Log {
    log.(flagged := log.flagged + {s})
  }

  // `LegacyExecution::notify_interrupt`: flags the execution and calls back on the first call only.
  function Notify(log: Log, s: Stamp): Log {
    if s in log.notified then Flag(log, s)
    else Flag(log, s).(notified := log.notified + {s}, interrupts := log.interrupts + multiset{s})
  }

  function Leave(log: Log, s: Stamp, exit: LoopExit): Log {
    log.(exits := log.exits[s := exit])
  }

  function Handled(log: Log, s: Stamp): Log {
    log.(handled := log.handled + {s})
  }

  // A closed or full channel loses the execution.
  function Sent(q: Queue, capacity: nat, s: Stamp): (r: Queue)
    ensures r.nextSeq == q.nextSeq && r.watermark == q.watermark && r.open == q.open
  {
    q.(pending := q.pending - {s},
       buffer := if q.open && |q.buffer| < capacity then q.buffer + [s] else q.buffer)
  }

  function Rechecked(y: System): System
    requires y.worker.Published?
  {
    var s := y.worker.s;
    if s.n < y.queue.watermark
    then y.(worker := Clearing(s), log := Notify(y.log, s))
    else y.(worker := Running(s, Entering), log := y.log.(ran := y.log.ran + {s}))
  }

  // Leaves the attempt loop through `on_interrupt`, or goes on to `stage`.
  function Observed(y: System, stage: Stage): System
    requires y.worker.Running?
  {
    var s := y.worker.s;
    if s in y.log.flagged then y.(worker := Clearing(s), log := Leave(Notify(y.log, s), s, Interrupted))
    else y.(worker := Running(s, stage))
  }

  function WorkDone(y: System, outcome: Outcome): System
    requires y.worker.Running?
  {
    var z := Observed(y, Checking);
    if z.worker.Running? && !outcome.Retry?
    then z.(worker := Clearing(y.worker.s), log := Leave(z.log, y.worker.s, Finished))
    else z
  }

  function Panicked(y: System, periodic: bool): System
    requires y.worker.Running?
  {
    var s := y.worker.s;
    if periodic && s !in y.log.flagged then y.(worker := Running(s, Restarting))
    else y.(worker := Clearing(s), log := Leave(y.log, s, PanickedOut))
  }

  function CallAt(y: System, k: CallId, phase: CallPhase): map<CallId, Call>
    requires k in y.calls
  {
    y.calls[k := y.calls[k].(phase := phase)]
  }

  function Next(capacity: nat, y: System, e: Event): System
    requires Enabled(y, e)
  {
    match e
    case StampNext =>
      y.(queue := y.queue.(nextSeq := y.queue.nextSeq + 1, pending := y.queue.pending + {Stamp(y.queue.nextSeq)}))
    case Send(s) => y.(queue := Sent(y.queue, capacity, s))
    case Receive =>
      y.(queue := y.queue.(buffer := y.queue.buffer[1..]), worker := Taken(y.queue.buffer[0]))
    case FirstCheck =>
      var s := y.worker.s;
      if s.n < y.queue.watermark then y.(worker := Idle, log := Handled(Notify(y.log, s), s))
      else y.(worker := Passed(s))
    case Publish => y.(worker := Published(y.worker.s), current := Some(y.worker.s))
    case Recheck => Rechecked(y)
    case Clear => y.(worker := Idle, current := None, log := Handled(y.log, y.worker.s))
    case Enter(empty) =>
      if empty then y.(worker := Clearing(y.worker.s), log := Leave(y.log, y.worker.s, NoAttempts))
      else y.(worker := Running(y.worker.s, Checking))
    case Check => Observed(y, Cleared)
    case CheckAgain => y.(worker := Running(y.worker.s, Checking))
    case BeginWork =>
      y.(worker := Running(y.worker.s, Executing), log := y.log.(begins := y.log.begins + multiset{y.worker.s}))
    case WorkEnds(outcome) => WorkDone(y, outcome)
    case Panics(periodic) => Panicked(y, periodic)
    case Resume => Observed(y, Entering)
    case CallStarts(k, release) =>
      y.(calls := y.calls[k := Call(if release then U64_MAX else y.queue.nextSeq, Snapshot, release)])
    case Raise(k) =>
      y.(calls := CallAt(y, k, Raised),
         queue := if y.queue.watermark < y.calls[k].bound then y.queue.(watermark := y.calls[k].bound) else y.queue)
    case FlagCurrent(k) =>
      y.(calls := CallAt(y, k, Returned), log := if y.current.Some? then Flag(y.log, y.current.value) else y.log)
    case CloseChannel(_) => y.(queue := y.queue.(open := false))
  }

  ghost predicate Legal(capacity: nat, y: System, events: seq<Event>)
    decreases |events|
  {
    events == [] || (Enabled(y, events[0]) && Legal(capacity, Next(capacity, y, events[0]), events[1..]))
  }

  ghost function After(capacity: nat, y: System, events: seq<Event>): System
    requires Legal(capacity, y, events)
    decreases |events|
  {
    if events == [] then y else After(capacity, Next(capacity, y, events[0]), events[1..])
  }

  // ---------------------------------------------------------------- invariants

  predicate Busy(w: Worker, s: Stamp) {
    !w.Idle? && w.s == s
  }

  ghost predicate Waiting(q: Queue, s: Stamp) {
    s in q.pending || s in q.buffer
  }

  // Each stamp is in one place: being enqueued, buffered, in the worker's hands, or handled.
  ghost predicate PlaceInv(q: Queue, w: Worker, handled: set<Stamp>) {
    && (forall s | Waiting(q, s) || Busy(w, s) || s in handled :: s.n < q.nextSeq)
    && (forall s | s in q.pending :: s !in q.buffer)
    && (forall i, j | 0 <= i < j < |q.buffer| :: q.buffer[i] != q.buffer[j])
    && (forall s | Waiting(q, s) :: !Busy(w, s) && s !in handled)
    && (forall s | Busy(w, s) :: s !in handled)
    && q.nextSeq <= U64_MAX
  }

  // The current slot holds the worker's task from its publication until it is cleared.
  ghost predicate CurrentInv(current: Option<Stamp>, w: Worker) {
    current == if w.Published? || w.Running? || w.Clearing? then Some(w.s) else None
  }

  // `on_interrupt` is called once, when the execution is notified, and only when it is cancelled.
  ghost predicate Told(log: Log, s: Stamp) {
    && (log.interrupts[s] == if s in log.notified then 1 else 0)
    && (s in log.notified ==> s in log.flagged)
  }

  // Attempts begin only in the attempt loop.
  ghost predicate Attempted(w: Worker, log: Log, s: Stamp) {
    && (log.begins[s] > 0 ==> s in log.ran)
    && (s in log.ran ==> s in log.handled || (Busy(w, s) && (w.Running? || w.Clearing?)))
    && (Busy(w, s) && w.Running? ==> s in log.ran)
  }

  // Cancellation reaches published tasks, or drops those below the watermark.
  ghost predicate Reaching(watermark: nat, w: Worker, log: Log, s: Stamp) {
    FlaggedWhile(w, log, s) && ToldWhile(w, log, s) && Dropped(watermark, w, log, s)
  }

  ghost predicate FlaggedWhile(w: Worker, log: Log, s: Stamp) {
    s in log.flagged ==> s in log.handled || (Busy(w, s) && (w.Published? || w.Running? || w.Clearing?))
  }

  ghost predicate ToldWhile(w: Worker, log: Log, s: Stamp) {
    s in log.notified ==> s in log.handled || (Busy(w, s) && w.Clearing?)
  }

  ghost predicate Dropped(watermark: nat, w: Worker, log: Log, s: Stamp) {
    s !in log.ran && (s in log.handled || (Busy(w, s) && w.Clearing?)) ==> s in log.notified && s.n < watermark
  }

  // Exactly the executions that reached their loop and left it have an exit, and those that left it
  // interrupted were told.
  ghost predicate Left(w: Worker, log: Log, s: Stamp) {
    && (s in log.exits <==> s in log.ran && (s in log.handled || (Busy(w, s) && w.Clearing?)))
    && (s in log.exits ==> (log.exits[s].Interrupted? <==> s in log.notified))
  }

  // What has happened to one execution fits where it is.
  ghost predicate FateOf(q: Queue, w: Worker, log: Log, s: Stamp) {
    Told(log, s) && Attempted(w, log, s) && Reaching(q.watermark, w, log, s) && Left(w, log, s)
  }

  // A finished call has flagged every execution below its bound that is running its attempts.
  ghost predicate CallInv(q: Queue, w: Worker, flagged: set<Stamp>, c: Call) {
    && (!c.phase.Snapshot? ==> q.watermark >= c.bound)
    && (c.phase.Returned? && w.Running? && w.s.n < c.bound ==> w.s in flagged)
  }

  ghost predicate SystemInv(y: System) {
    && PlaceInv(y.queue, y.worker, y.log.handled)
    && CurrentInv(y.current, y.worker)
    && (forall s: Stamp :: FateOf(y.queue, y.worker, y.log, s))
    && (forall k | k in y.calls :: CallInv(y.queue, y.worker, y.log.flagged, y.calls[k]))
  }
}
