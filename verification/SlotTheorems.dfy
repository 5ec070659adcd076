/** What newest-wins replacement guarantees over every run of a slot. */
module SlotTheorems {
  import opened Wrappers
  import opened SlotState
  import opened SlotSystem

  lemma OwnerKept(y: System, e: Event)
    requires Enabled(y, e) && OwnerInv(y)
    ensures OwnerInv(Next(y, e))
  {}

  lemma CurrentKept(y: System, e: Event)
    requires Enabled(y, e) && OwnerInv(y) && CurrentInv(y)
    ensures CurrentInv(Next(y, e))
  {}

  lemma PreviousKept(y: System, e: Event)
    requires Enabled(y, e) && OwnerInv(y) && CurrentInv(y) && PreviousInv(y)
    ensures PreviousInv(Next(y, e))
  {}

  lemma StepKeeps(y: System, e: Event)
    requires Enabled(y, e) && SystemInv(y)
    ensures SystemInv(Next(y, e))
  {
    hide Next, Enabled, OwnerInv, CurrentInv, PreviousInv;
    OwnerKept(y, e);
    CurrentKept(y, e);
    PreviousKept(y, e);
  }

  lemma {:induction false} RunKeeps(y: System, events: seq<Event>)
    requires Legal(y, events) && SystemInv(y)
    ensures SystemInv(After(y, events))
    decreases |events|
  {
    hide SystemInv, Next, Enabled;
    if events != [] {
      StepKeeps(y, events[0]);
      RunKeeps(Next(y, events[0]), events[1..]);
    }
  }

  lemma Reached(events: seq<Event>)
    requires Legal(Start, events)
    ensures SystemInv(After(Start, events))
  {
    assert SystemInv(Start);
    RunKeeps(Start, events);
  }

  // ---------------------------------------------------------------- newest wins

  predicate NotBelow(a: Option<nat>, b: Option<nat>) {
    a.None? || (b.Some? && a.value <= b.value)
  }

  lemma {:induction false} RevisionNeverDecreases(y: System, events: seq<Event>)
    requires Legal(y, events)
    ensures NotBelow(y.slot.revision, After(y, events).slot.revision)
    ensures y.slot.transaction <= After(y, events).slot.transaction
    ensures y.slot.closed ==> After(y, events).slot.closed
    decreases |events|
  {
    if events != [] {
      RevisionNeverDecreases(Next(y, events[0]), events[1..]);
    }
  }

  /** The current execution changes hands in three ways only: the newest accepted transaction
      publishes the execution it spawned, the monitor of the current execution finds it terminal, or
      the slot closes. */
  lemma CurrentChangesHands(events: seq<Event>, e: Event)
    requires Legal(Start, events) && Enabled(After(Start, events), e)
    requires Next(After(Start, events), e).slot.current != After(Start, events).slot.current
    ensures var y := After(Start, events); var z := Next(y, e);
            match z.slot.current
            case Some(x) =>
              && e == PublishResult(y.slot.transaction) && !y.slot.closed
              && x in y.owner && y.owner[x] == y.slot.transaction
              && (forall t | t in y.supervisors :: t <= y.slot.transaction)
              && (y.slot.current.Some? ==>
                    y.slot.current.value in y.owner && y.owner[y.slot.current.value] < y.slot.transaction)
            case None =>
              && y.slot.current.value in y.owner
              && (e == CloseSlot || (e == Monitor(y.owner[y.slot.current.value]) && y.slot.current.value in y.done))
  {
    var y := After(Start, events);
    Reached(events);
    assert OwnerInv(y) && CurrentInv(y);
  }

  lemma ClosedStep(y: System, e: Event)
    requires Enabled(y, e) && y.slot.closed && y.slot.current.None?
    ensures Next(y, e).slot.closed && Next(y, e).slot.current.None? && Next(y, e).owner == y.owner
  {}

  // A closed slot never has a current execution again, and its transactions spawn nothing.
  lemma {:induction false} ClosedForever(y: System, events: seq<Event>)
    requires Legal(y, events) && y.slot.closed && y.slot.current.None?
    ensures After(y, events).slot.current.None? && After(y, events).owner == y.owner
    decreases |events|
  {
    if events != [] {
      ClosedStep(y, events[0]);
      hide Next, Enabled;
      ClosedForever(Next(y, events[0]), events[1..]);
    }
  }

  /** A strict transaction spawns only after the execution it was accepted to replace is terminal;
      whatever is current at that moment is that execution. */
  lemma StrictWaits(events: seq<Event>, t: nat, x: ExecutionId)
    requires Legal(Start, events) && Enabled(After(Start, events), TrySpawn(t, Admitted(x)))
    requires After(Start, events).supervisors[t].policy.StrictSingleInstance?
    requires x in Next(After(Start, events), TrySpawn(t, Admitted(x))).owner
    ensures var y := After(Start, events);
            && (y.supervisors[t].previous.Some? ==> y.supervisors[t].previous.value in y.done)
            && (y.slot.current.Some? ==>
                  y.slot.current == y.supervisors[t].previous && y.slot.current.value in y.done)
  {
    Reached(events);
  }

  // ---------------------------------------------------------------- one published execution

  lemma StrictKept(y: System, e: Event)
    requires Enabled(y, e) && AllStrict(y) && (e.Request? ==> e.policy.StrictSingleInstance?)
    ensures AllStrict(Next(y, e))
  {}

  lemma OnlyCurrentKept(y: System, e: Event)
    requires Enabled(y, e) && SystemInv(y) && AllStrict(y) && OnlyCurrent(y)
    ensures OnlyCurrent(Next(y, e))
  {}

  lemma OneLiveKept(y: System, e: Event)
    requires Enabled(y, e) && SystemInv(y) && AllStrict(y) && OnlyCurrent(y) && OneLive(y)
    ensures OneLive(Next(y, e))
  {
  }

  lemma {:induction false} SingleRun(y: System, events: seq<Event>)
    requires Legal(y, events) && SystemInv(y) && AllStrict(y) && OnlyCurrent(y) && OneLive(y)
    requires forall i | 0 <= i < |events| && events[i].Request? :: events[i].policy.StrictSingleInstance?
    ensures OneLive(After(y, events)) && OnlyCurrent(After(y, events))
    decreases |events|
  {
    hide SystemInv, AllStrict, OnlyCurrent, OneLive, Next, Enabled;
    if events != [] {
      StepKeeps(y, events[0]);
      StrictKept(y, events[0]);
      OnlyCurrentKept(y, events[0]);
      OneLiveKept(y, events[0]);
      SingleRun(Next(y, events[0]), events[1..]);
    }
  }

  /** When every transaction is strict, at most one published execution is live, and in an open slot
      it is the current one. */
  lemma StrictMeansOnePublished(events: seq<Event>)
    requires Legal(Start, events)
    requires forall i | 0 <= i < |events| && events[i].Request? :: events[i].policy.StrictSingleInstance?
    ensures OneLive(After(Start, events)) && OnlyCurrent(After(Start, events))
  {
    assert SystemInv(Start);
    SingleRun(Start, events);
  }

  // ---------------------------------------------------------------- the publication window

  ghost function Live(y: System): set<ExecutionId> {
    y.owner.Keys - y.done
  }

  ghost predicate AtMostOne(y: System) {
    forall a, b | a in Live(y) && b in Live(y) :: a == b
  }

  // The transaction's execution is live and still to be published.
  predicate Unpublished(y: System, t: nat) {
    t in y.supervisors && y.supervisors[t].phase.Spawned? && y.supervisors[t].phase.execution !in y.done
  }

  ghost predicate Settled(y: System) {
    forall t | t in y.supervisors :: !Unpublished(y, t)
  }

  ghost predicate Calm(y: System, events: seq<Event>)
    requires Legal(y, events)
    decreases |events|
  {
    events == [] ||
    ((events[0].Request? ==> events[0].policy.StrictSingleInstance? && Settled(y)) &&
     Calm(Next(y, events[0]), events[1..]))
  }

  // In an open slot a live execution is current, or the newest transaction is about to publish it
  // and what is current is terminal.
  ghost predicate SoleInv(y: System) {
    && AtMostOne(y)
    && (!y.slot.closed ==>
          forall x | x in Live(y) :: y.slot.current == Some(x) ||
            (y.owner[x] == y.slot.transaction && y.slot.transaction in y.supervisors &&
             y.supervisors[y.slot.transaction].phase == Spawned(x)))
  }

  lemma SoleKept(y: System, e: Event)
    requires Enabled(y, e) && SystemInv(y) && AllStrict(y) && SoleInv(y)
    requires e.Request? ==> e.policy.StrictSingleInstance? && Settled(y)
    ensures SoleInv(Next(y, e))
  {
    match e {
      case TrySpawn(t, answer) =>
        if answer.Admitted? && !Superseded(y.slot, t, y.supervisors[t].revision) {
          NothingLive(y, t);
          assert Live(Next(y, e)) == {answer.execution};
        } else {
          assert Live(Next(y, e)) == Live(y);
        }
      case Ends(x) => assert Live(Next(y, e)) == Live(y) - {x};
      case PublishResult(t) =>
        OnlyTheSpawned(y, t);
        assert Live(Next(y, e)) == Live(y);
      case _ => assert Live(Next(y, e)) == Live(y);
    }
  }

  // A strict transaction that is still the newest publishes the only live execution, if any.
  lemma OnlyTheSpawned(y: System, t: nat)
    requires SystemInv(y) && AllStrict(y) && SoleInv(y) && t in y.supervisors && y.supervisors[t].phase.Spawned?
    ensures !y.slot.closed && y.slot.transaction == t ==>
              forall x | x in Live(y) :: x == y.supervisors[t].phase.execution
  {}

  // A strict transaction that is still the newest finds nothing live when it tries the lane.
  lemma NothingLive(y: System, t: nat)
    requires SystemInv(y) && AllStrict(y) && SoleInv(y)
    requires t in y.supervisors && y.supervisors[t].phase.Spawning?
    requires !y.slot.closed && y.slot.transaction == t
    ensures Live(y) == {}
  {
    forall x ensures x !in Live(y) {}
  }

  lemma {:induction false} CalmKeeps(y: System, events: seq<Event>)
    requires Legal(y, events) && Calm(y, events) && SystemInv(y) && AllStrict(y) && SoleInv(y)
    ensures SystemInv(After(y, events)) && AllStrict(After(y, events)) && SoleInv(After(y, events))
    decreases |events|
  {
    hide SystemInv, AllStrict, SoleInv, Next, Enabled, Settled;
    if events != [] {
      StepKeeps(y, events[0]);
      StrictKept(y, events[0]);
      SoleKept(y, events[0]);
      CalmKeeps(Next(y, events[0]), events[1..]);
    }
  }

  /** Strict transactions keep a single instance in every run whose requests are accepted only while
      no live execution is still unpublished. */
  lemma StrictMeansOneInstance(events: seq<Event>)
    requires Legal(Start, events) && Calm(Start, events)
    ensures AtMostOne(After(Start, events))
  {
    assert SystemInv(Start) && SoleInv(Start);
    CalmKeeps(Start, events);
  }

  lemma Prepend(y: System, e: Event, rest: seq<Event>)
    requires Enabled(y, e) && Legal(Next(y, e), rest)
    ensures Legal(y, [e] + rest) && After(y, [e] + rest) == After(Next(y, e), rest)
  {
    assert ([e] + rest)[1..] == rest;
  }

  // A first strict transaction up to the admission of its execution.
  function FirstSpawn(spec: TaskSpecId, a: ExecutionId): seq<Event> {
    [Request(1, spec, StrictSingleInstance)] + ([Proceed(1)] + ([TrySpawn(1, Admitted(a))] + []))
  }

  lemma {:induction false} Concat(y: System, first: seq<Event>, rest: seq<Event>)
    requires Legal(y, first) && Legal(After(y, first), rest)
    ensures Legal(y, first + rest) && After(y, first + rest) == After(After(y, first), rest)
    decreases |first|
  {
    hide Next, Enabled;
    if first == [] {
      assert first + rest == rest;
    } else {
      assert (first + rest)[1..] == first[1..] + rest;
      Concat(Next(y, first[0]), first[1..], rest);
    }
  }

  lemma FirstSpawned(spec: TaskSpecId, a: ExecutionId)
    ensures Legal(Start, FirstSpawn(spec, a))
    ensures After(Start, FirstSpawn(spec, a)) ==
            System(Slot(Some(1), Some(spec), 1, None, None, false),
                   map[1 := Supervisor(1, StrictSingleInstance, None, Spawned(a))], map[a := 1], {})
  {
    var y1 := Next(Start, Request(1, spec, StrictSingleInstance));
    var y2 := Next(y1, Proceed(1));
    Prepend(y2, TrySpawn(1, Admitted(a)), []);
    Prepend(y1, Proceed(1), [TrySpawn(1, Admitted(a))] + []);
    Prepend(Start, Request(1, spec, StrictSingleInstance), [Proceed(1)] + ([TrySpawn(1, Admitted(a))] + []));
  }

  // After a strict request: what is current ends, if anything is, and the new transaction spawns `b`.
  function Race(y: System, b: ExecutionId): seq<Event> {
    var t := y.slot.transaction + 1;
    var spawn := [Proceed(t)] + ([TrySpawn(t, Admitted(b))] + []);
    if y.slot.current.Some? then [Ends(y.slot.current.value)] + spawn else spawn
  }

  lemma SpawnsBeside(y: System, t: nat, x: ExecutionId, b: ExecutionId)
    requires t in y.supervisors && y.supervisors[t].phase.Waiting? && !Superseded(y.slot, t, y.supervisors[t].revision)
    requires y.supervisors[t].previous.Some? ==> y.supervisors[t].previous.value in y.done
    requires x in Live(y) && b !in y.owner && b !in y.done
    ensures Legal(y, [Proceed(t)] + ([TrySpawn(t, Admitted(b))] + []))
    ensures {x, b} <= Live(After(y, [Proceed(t)] + ([TrySpawn(t, Admitted(b))] + [])))
  {
    Prepend(Next(y, Proceed(t)), TrySpawn(t, Admitted(b)), []);
    Prepend(y, Proceed(t), [TrySpawn(t, Admitted(b))] + []);
  }

  /** Wherever a run stands, a strict request accepted while another transaction's live execution is
      unpublished does not wait for it: the request's own execution can come to live beside it. */
  lemma UnpublishedIsNotAwaited(events: seq<Event>, e: Event, t: nat, b: ExecutionId)
    requires Legal(Start, events) && Enabled(After(Start, events), e) && Unpublished(After(Start, events), t)
    requires e.Request? && e.policy.StrictSingleInstance? && b !in After(Start, events).owner
    ensures var y := After(Start, events);
            && Legal(Next(y, e), Race(y, b)) && WithoutRequests(Race(y, b))
            && {y.supervisors[t].phase.execution, b} <= Live(After(Next(y, e), Race(y, b)))
            && y.supervisors[t].phase.execution != b
  {
    Reached(events);
    var y := After(Start, events);
    var x := y.supervisors[t].phase.execution;
    assert OwnerInv(y) && CurrentInv(y);
    hide PreviousInv, SystemInv;
    var z := Next(y, e);
    var u := y.slot.transaction + 1;
    if y.slot.current.Some? {
      var z' := Next(z, Ends(y.slot.current.value));
      SpawnsBeside(z', u, x, b);
      Prepend(z, Ends(y.slot.current.value), [Proceed(u)] + ([TrySpawn(u, Admitted(b))] + []));
    } else {
      SpawnsBeside(z, u, x, b);
    }
  }

  ghost predicate WithoutRequests(events: seq<Event>) {
    forall i | 0 <= i < |events| :: !events[i].Request?
  }

  // No continuation without further requests has two live executions.
  ghost predicate StaysSingle(y: System, rest: seq<Event>) {
    Legal(y, rest) && WithoutRequests(rest) ==> AtMostOne(After(y, rest))
  }

  lemma {:induction false} NoRequestIsCalm(y: System, rest: seq<Event>)
    requires Legal(y, rest) && WithoutRequests(rest)
    ensures Calm(y, rest)
    decreases |rest|
  {
    hide Next, Enabled, Settled;
    if rest != [] {
      assert !rest[0].Request?;
      assert WithoutRequests(rest[1..]);
      NoRequestIsCalm(Next(y, rest[0]), rest[1..]);
    }
  }

  /** A strict request keeps the slot single, whatever happens before the next one, exactly when it
      finds no live unpublished execution. */
  lemma RequestKeepsOneInstance(events: seq<Event>, e: Event, b: ExecutionId)
    requires Legal(Start, events) && Calm(Start, events) && Enabled(After(Start, events), e)
    requires e.Request? && e.policy.StrictSingleInstance? && b !in After(Start, events).owner
    ensures var y := After(Start, events);
            (forall rest :: StaysSingle(Next(y, e), rest)) <==> !exists t :: Unpublished(y, t)
  {
    var y := After(Start, events);
    assert SystemInv(Start) && SoleInv(Start);
    CalmKeeps(Start, events);
    if t :| Unpublished(y, t) {
      UnpublishedIsNotAwaited(events, e, t, b);
      assert !StaysSingle(Next(y, e), Race(y, b));
    } else {
      assert Settled(y);
      StepKeeps(y, e);
      StrictKept(y, e);
      SoleKept(y, e);
      hide SystemInv, AllStrict, SoleInv, Next, Enabled, Settled, Unpublished, Calm;
      forall rest ensures StaysSingle(Next(y, e), rest) {
        SingleAfter(Next(y, e), rest);
      }
    }
  }

  lemma SingleAfter(y: System, rest: seq<Event>)
    requires SystemInv(y) && AllStrict(y) && SoleInv(y)
    ensures StaysSingle(y, rest)
  {
    if Legal(y, rest) && WithoutRequests(rest) {
      NoRequestIsCalm(y, rest);
      CalmKeeps(y, rest);
    }
  }

  // ---------------------------------------------------------------- a finished current execution

  /** The monitor of the current execution clears it exactly if no newer transaction has been
      accepted; so a current execution whose monitor has run belongs to an older transaction. */
  lemma StaleCurrent(events: seq<Event>, t: nat)
    requires Legal(Start, events) && t in After(Start, events).supervisors
    ensures var y := After(Start, events); var p := y.supervisors[t].phase;
            && (Enabled(y, Monitor(t)) && y.slot.current == Some(p.execution) ==>
                  (Next(y, Monitor(t)).slot.current.None? <==> t == y.slot.transaction))
            && (p.Watched? && y.slot.current == Some(p.execution) ==> t < y.slot.transaction)
  {
    Reached(events);
    var y := After(Start, events);
    assert OwnerInv(y) && CurrentInv(y);
  }

  function StaleEnd(spec: TaskSpecId, a: ExecutionId): seq<Event> {
    [PublishResult(1)] + ([Request(2, spec, StrictSingleInstance)] + ([Ends(a)] + ([Monitor(1)] +
    ([Proceed(2)] + ([TrySpawn(2, Refused)] + [])))))
  }

  // Such a finished execution can stay current: the newer transaction may be refused by the lane.
  lemma StaleCurrentRemains(spec: TaskSpecId, a: ExecutionId)
    ensures Legal(Start, FirstSpawn(spec, a) + StaleEnd(spec, a))
    ensures var z := After(Start, FirstSpawn(spec, a) + StaleEnd(spec, a));
            z.slot.current == Some(a) && a in z.done && forall t | t in z.supervisors ::
              z.supervisors[t].phase.Watched? || z.supervisors[t].phase.Ended?
  {
    FirstSpawned(spec, a);
    var y := After(Start, FirstSpawn(spec, a));
    hide FirstSpawn;
    var y1 := Next(y, PublishResult(1));
    var y2 := Next(y1, Request(2, spec, StrictSingleInstance));
    var y3 := Next(y2, Ends(a));
    var y4 := Next(y3, Monitor(1));
    var y5 := Next(y4, Proceed(2));
    Prepend(y5, TrySpawn(2, Refused), []);
    Prepend(y4, Proceed(2), [TrySpawn(2, Refused)] + []);
    Prepend(y3, Monitor(1), [Proceed(2)] + ([TrySpawn(2, Refused)] + []));
    Prepend(y2, Ends(a), [Monitor(1)] + ([Proceed(2)] + ([TrySpawn(2, Refused)] + [])));
    Prepend(y1, Request(2, spec, StrictSingleInstance),
            [Ends(a)] + ([Monitor(1)] + ([Proceed(2)] + ([TrySpawn(2, Refused)] + []))));
    Prepend(y, PublishResult(1), [Request(2, spec, StrictSingleInstance)] + ([Ends(a)] + ([Monitor(1)] +
            ([Proceed(2)] + ([TrySpawn(2, Refused)] + [])))));
    Concat(Start, FirstSpawn(spec, a), StaleEnd(spec, a));
  }

  // ---------------------------------------------------------------- superseded transactions

  lemma SupersededStep(y: System, e: Event, t: nat)
    requires Enabled(y, e) && t in y.supervisors && t < y.slot.transaction && !Visible(y.supervisors[t].phase)
    ensures var z := Next(y, e);
            && t in z.supervisors && t < z.slot.transaction && !Visible(z.supervisors[t].phase)
            && forall x | x in z.owner && z.owner[x] == t :: x in y.owner && y.owner[x] == t
  {}

  /** Newest wins: from the moment a newer request is accepted, a transaction that has not published
      never publishes and spawns nothing more, in any run. */
  lemma {:induction false} SupersededForGood(y: System, events: seq<Event>, t: nat)
    requires Legal(y, events) && t in y.supervisors && t < y.slot.transaction && !Visible(y.supervisors[t].phase)
    ensures var z := After(y, events);
            && t in z.supervisors && !Visible(z.supervisors[t].phase)
            && forall x | x in z.owner && z.owner[x] == t :: x in y.owner && y.owner[x] == t
    decreases |events|
  {
    if events != [] {
      SupersededStep(y, events[0], t);
      hide Next, Enabled;
      SupersededForGood(Next(y, events[0]), events[1..], t);
    }
  }

  // What a try to spawn leads to, in an open slot whose newest transaction this is.
  lemma NewestTries(y: System, t: nat, answer: Answer)
    requires Enabled(y, TrySpawn(t, answer)) && t == y.slot.transaction && !y.slot.closed && OwnerInv(y)
    ensures var z := Next(y, TrySpawn(t, answer));
            && (answer.Full? ==> z == y)
            && (answer.Refused? ==> z.supervisors[t].phase.Ended? && z.owner == y.owner)
            && (answer.Admitted? ==>
                  z.supervisors[t].phase == Spawned(answer.execution) && z.owner == y.owner[answer.execution := t])
  {}

  // ---------------------------------------------------------------- repeated requests

  // An open slot shows the revision of its newest transaction.
  ghost predicate AskedInv(y: System) {
    && (y.slot.current.Some? ==> y.slot.last == y.slot.current)
    && (!y.slot.closed && y.slot.revision.Some? ==> y.slot.transaction in y.supervisors)
  }

  // `last` is the execution published most recently.
  ghost predicate LastInv(y: System) {
    && (y.slot.last.Some? ==>
          && y.slot.last.value in y.owner && y.owner[y.slot.last.value] in y.supervisors
          && var s := y.supervisors[y.owner[y.slot.last.value]];
             Visible(s.phase) && s.phase.execution == y.slot.last.value)
    && (!y.slot.closed && y.slot.transaction in y.supervisors && Visible(y.supervisors[y.slot.transaction].phase) ==>
          y.slot.last == Some(y.supervisors[y.slot.transaction].phase.execution))
  }

  lemma AskedKept(y: System, e: Event)
    requires Enabled(y, e) && AskedInv(y)
    ensures AskedInv(Next(y, e))
  {}

  lemma LastKept(y: System, e: Event)
    requires Enabled(y, e) && OwnerInv(y) && LastInv(y)
    ensures LastInv(Next(y, e))
  {}

  lemma {:induction false} LastRun(y: System, events: seq<Event>)
    requires Legal(y, events) && SystemInv(y) && LastInv(y) && AskedInv(y)
    ensures SystemInv(After(y, events)) && LastInv(After(y, events)) && AskedInv(After(y, events))
    decreases |events|
  {
    if events != [] {
      StepKeeps(y, events[0]);
      assert OwnerInv(y);
      LastKept(y, events[0]);
      AskedKept(y, events[0]);
      hide SystemInv, LastInv, AskedInv, OwnerInv, Next, Enabled;
      LastRun(Next(y, events[0]), events[1..]);
    }
  }

  /** Asking again for the revision an open slot already has never changes the slot. With another
      specification the answer is a conflict; with the same one it is an execution, and that is the
      one asked for exactly if it has been published: before, it is the one published before it, if
      any. */
  lemma RepeatedRequest(events: seq<Event>, revision: nat, spec: TaskSpecId, policy: ReplacePolicy,
                        joining: set<ExecutionId>)
    requires Legal(Start, events)
    requires !After(Start, events).slot.closed && After(Start, events).slot.revision == Some(revision)
    ensures var y := After(Start, events); var t := y.slot.transaction;
            var reply := ReplaceReply(y.slot, revision, spec, policy, joining);
            && t in y.supervisors && y.supervisors[t].revision == revision
            && !(reply.Ok? && reply.value.Accepted?)
            && (if policy.StrictSingleInstance? && y.slot.current.Some? && y.slot.current.value in joining
                then reply == Err(WouldJoin(y.slot.current.value))
                else reply == Err(RevisionConflict(revision)) <==> y.slot.specId != Some(spec))
            && (reply.Ok? ==>
                  var x := reply.value.control;
                  x in y.owner && y.owner[x] <= t && (y.owner[x] == t <==> Visible(y.supervisors[t].phase)))
            && (reply == Err(RevisionInProgress(revision)) ==> !Visible(y.supervisors[t].phase))
  {
    LastRun(Start, events);
    var y := After(Start, events);
    assert OwnerInv(y);
  }

  // A first transaction that has published, and a second one accepted and not yet published.
  function SecondAsked(spec: TaskSpecId, a: ExecutionId, other: TaskSpecId): seq<Event> {
    FirstSpawn(spec, a) + ([PublishResult(1)] + ([Request(2, other, StrictSingleInstance)] + []))
  }

  /** The answer can therefore name the execution that is being replaced: asked again for revision 2
      before its execution is published, a slot answers with the one of revision 1. */
  lemma RepeatNamesThePredecessor(spec: TaskSpecId, a: ExecutionId, other: TaskSpecId, policy: ReplacePolicy)
    ensures Legal(Start, SecondAsked(spec, a, other))
    ensures var y := After(Start, SecondAsked(spec, a, other));
            && y.slot.revision == Some(2) && y.slot.specId == Some(other)
            && ReplaceReply(y.slot, 2, other, policy, {}) == Ok(Existing(a)) && y.owner == map[a := 1]
  {
    FirstSpawned(spec, a);
    hide FirstSpawn;
    var y := After(Start, FirstSpawn(spec, a));
    Prepend(Next(y, PublishResult(1)), Request(2, other, StrictSingleInstance), []);
    Prepend(y, PublishResult(1), [Request(2, other, StrictSingleInstance)] + []);
    Concat(Start, FirstSpawn(spec, a), [PublishResult(1)] + ([Request(2, other, StrictSingleInstance)] + []));
  }
}
