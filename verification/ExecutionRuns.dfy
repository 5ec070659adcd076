/** Every event of an execution keeps its invariant, so every run does. */
module ExecutionRuns {
  import opened Wrappers
  import opened ExecutionState
  import opened ExecutionSystem

  lemma StateKept(cfg: Config, y: System, e: Event)
    requires Enabled(cfg, y, e) && StateInv(y.core)
    ensures StateInv(Next(cfg, y, e).core)
  {
    hide Sift, Children, Summarize;
  }

  lemma CauseKept(cfg: Config, y: System, e: Event)
    requires Enabled(cfg, y, e) && CauseInv(y.core, y.log.requests)
    ensures CauseInv(Next(cfg, y, e).core, Next(cfg, y, e).log.requests)
  {
    hide Sift, Children, Summarize, StateOf;
  }

  lemma SignalKept(cfg: Config, y: System, e: Event)
    requires Enabled(cfg, y, e) && SignalInv(y.core, y.out)
    ensures SignalInv(Next(cfg, y, e).core, Next(cfg, y, e).out)
  {
    hide Sift, Children, Summarize, StateOf;
  }

  lemma ResultKept(cfg: Config, y: System, e: Event)
    requires Enabled(cfg, y, e) && ResultInv(y.core, y.out, y.log) && CauseInv(y.core, y.log.requests)
    requires AbortInv(y.core, y.runner)
    ensures ResultInv(Next(cfg, y, e).core, Next(cfg, y, e).out, Next(cfg, y, e).log)
  {
    hide Sift, Children, StateOf;
  }

  lemma WatchKept(cfg: Config, y: System, e: Event)
    requires Enabled(cfg, y, e) && WatchInv(y.core, y.out, y.runner)
    ensures WatchInv(Next(cfg, y, e).core, Next(cfg, y, e).out, Next(cfg, y, e).runner)
  {
    hide Sift, Children, StateOf;
  }

  lemma AbortKept(cfg: Config, y: System, e: Event)
    requires Enabled(cfg, y, e) && AbortInv(y.core, y.runner)
    ensures AbortInv(Next(cfg, y, e).core, Next(cfg, y, e).runner)
  {
    hide Sift, Children, StateOf;
  }

  lemma GateKept(cfg: Config, y: System, e: Event)
    requires Enabled(cfg, y, e) && GateInv(y.children, y.runner, y.crew)
    ensures GateInv(Next(cfg, y, e).children, Next(cfg, y, e).runner, Next(cfg, y, e).crew)
  {
    hide Children, StateOf, Commit;
    if e.Drain? && y.children.controls == [] {
      assert Sift([], y.runner.attempt, true) == [];
    } else if e.CloseTick? && y.children.controls == [] {
      assert Sift([], NumberOf(y.log.tick), true) == [];
    }
  }

  lemma HeldKept(cfg: Config, y: System, e: Event)
    requires Enabled(cfg, y, e) && HeldInv(y.children, y.runner, y.crew) && GateInv(y.children, y.runner, y.crew)
    ensures HeldInv(Next(cfg, y, e).children, Next(cfg, y, e).runner, Next(cfg, y, e).crew)
  {
    hide Children, Sift, StateOf, Commit;
    match e {
      case Spawn(attempt, child) => ChildrenAppend(y.children.controls, attempt, child);
      case CloseChildren => NoChildren();
      case Drain => SiftPartitions(y.children.controls, y.runner.attempt);
      case CloseTick => SiftPartitions(y.children.controls, NumberOf(y.log.tick));
      case _ =>
    }
  }

  lemma AttemptKept(cfg: Config, y: System, e: Event)
    requires Enabled(cfg, y, e) && AttemptInv(cfg.kind, y.children, y.runner)
    requires GateInv(y.children, y.runner, y.crew) && TickInv(cfg.kind, y.runner, y.crew.issued, y.log.tick)
    requires OrphanInv(cfg, y.runner, y.crew, y.log)
    ensures AttemptInv(cfg.kind, Next(cfg, y, e).children, Next(cfg, y, e).runner)
  {
    hide Children, StateOf, Commit;
    if e.Drain? && ClosesAttempts(cfg.kind) {
      NoneKept(y.children.controls, y.runner.attempt);
    } else if e.CloseTick? && y.children.controls == [] {
      assert Sift([], NumberOf(y.log.tick), true) == [];
    }
  }

  lemma TickKept(cfg: Config, y: System, e: Event)
    requires Enabled(cfg, y, e) && TickInv(cfg.kind, y.runner, y.crew.issued, y.log.tick)
    requires OrphanInv(cfg, y.runner, y.crew, y.log)
    ensures TickInv(cfg.kind, Next(cfg, y, e).runner, Next(cfg, y, e).crew.issued, Next(cfg, y, e).log.tick)
  {
    hide Children, Sift, StateOf, Commit;
  }

  lemma NoneKept(controls: seq<Tracked>, attempt: nat)
    requires forall t | t in controls :: t.attempt == attempt
    ensures Sift(controls, attempt, true) == []
  {
    if controls != [] {
      NoneKept(controls[..|controls| - 1], attempt);
    }
  }

  lemma OrphanKept(cfg: Config, y: System, e: Event)
    requires Enabled(cfg, y, e) && OrphanInv(cfg, y.runner, y.crew, y.log)
    requires GateInv(y.children, y.runner, y.crew)
    ensures OrphanInv(cfg, Next(cfg, y, e).runner, Next(cfg, y, e).crew, Next(cfg, y, e).log)
  {
    hide Children, Sift, StateOf, Commit;
  }

  lemma StepKeeps(cfg: Config, y: System, e: Event)
    requires Enabled(cfg, y, e) && SystemInv(cfg, y)
    ensures SystemInv(cfg, Next(cfg, y, e))
  {
    hide Next, StateInv, CauseInv, SignalInv, ResultInv, WatchInv, AbortInv, GateInv, HeldInv, AttemptInv, TickInv,
         OrphanInv, Enabled;
    StateKept(cfg, y, e);
    CauseKept(cfg, y, e);
    SignalKept(cfg, y, e);
    ResultKept(cfg, y, e);
    WatchKept(cfg, y, e);
    AbortKept(cfg, y, e);
    GateKept(cfg, y, e);
    HeldKept(cfg, y, e);
    AttemptKept(cfg, y, e);
    TickKept(cfg, y, e);
    OrphanKept(cfg, y, e);
  }

  lemma {:induction false} RunKeeps(cfg: Config, y: System, events: seq<Event>)
    requires Legal(cfg, y, events) && SystemInv(cfg, y)
    ensures SystemInv(cfg, After(cfg, y, events))
    decreases |events|
  {
    hide SystemInv, Next, Enabled;
    if events != [] {
      StepKeeps(cfg, y, events[0]);
      RunKeeps(cfg, Next(cfg, y, events[0]), events[1..]);
    }
  }

  lemma StartHolds(cfg: Config)
    ensures SystemInv(cfg, Start)
  {}
}
