/**
 The dam as the source keeps it: counters, a channel, the shared current slot and per-execution
 flags, changed in place. Each operation is the uninterrupted sequence of its steps in `DamSystem`.
 */
module Dam {
  import opened Wrappers
  import opened DamSystem

  datatype DamError = DamReleased | QueueFull

  function Bound(y: System, release: bool): nat {
    if release then U64_MAX else y.queue.nextSeq
  }

  // An uninterrupted cancel: its watermark is raised and the current execution flagged.
  function Cancelled(y: System, k: CallId, release: bool): System {
    var bound := Bound(y, release);
    y.(calls := y.calls[k := Call(bound, Returned, release)],
       queue := y.queue.(watermark := if y.queue.watermark < bound then bound else y.queue.watermark),
       log := if y.current.Some? then Flag(y.log, y.current.value) else y.log)
  }

  lemma CancelIsThreeSteps(capacity: nat, y: System, k: CallId, release: bool)
    requires k !in y.calls
    ensures var y1 := Next(capacity, y, CallStarts(k, release));
            var y2 := Next(capacity, y1, Raise(k));
            Next(capacity, y2, FlagCurrent(k)) == Cancelled(y, k, release)
  {
    var bound := Bound(y, release);
    assert y.calls[k := Call(bound, Snapshot, release)][k := Call(bound, Raised, release)]
                  [k := Call(bound, Returned, release)] == y.calls[k := Call(bound, Returned, release)];
  }

  class Dam {
    const capacity: nat
    var releaseFlag: bool
    var enqueueSeq: nat
    var cancelWatermark: nat
    var channelOpen: bool
    var buffer: seq<Stamp>
    var current: Option<Stamp>
    var flagged: set<Stamp>
    var notified: set<Stamp>
    ghost var pending: set<Stamp>
    ghost var worker: Worker
    ghost var calls: map<CallId, Call>
    ghost var interrupts: multiset<Stamp>
    ghost var begins: multiset<Stamp>
    ghost var ran: set<Stamp>
    ghost var handled: set<Stamp>
    ghost var exits: map<Stamp, LoopExit>

    ghost function View(): System
      reads this
    {
      System(Queue(enqueueSeq, cancelWatermark, channelOpen, pending, buffer), current, worker, calls,
             Log(flagged, notified, interrupts, begins, ran, handled, exits))
    }

    constructor (capacity: nat)
      ensures this.capacity == capacity && !releaseFlag && View() == Start
    {
      this.capacity := capacity;
      releaseFlag, enqueueSeq, cancelWatermark, channelOpen := false, 0, 0, true;
      buffer, current, flagged, notified := [], None, {}, {};
      pending, worker, calls := {}, Idle, map[];
      interrupts, begins, ran, handled, exits := multiset{}, multiset{}, {}, {}, map[];
    }

    // The stamp counter wraps after 2^64 tasks; up to then the result is that of the two steps.
    method Enqueue() returns (result: Result<Stamp, DamError>)
      requires enqueueSeq <= U64_MAX
      modifies this
      ensures old(releaseFlag) ==> result == Err(DamReleased) && View() == old(View())
      ensures !old(releaseFlag) ==>
                var s := Stamp(old(enqueueSeq));
                && enqueueSeq == (if s.n == U64_MAX then 0 else s.n + 1) && channelOpen == old(channelOpen)
                && buffer == (if result.Ok? then old(buffer) + [s] else old(buffer))
                && result == if !old(channelOpen) then Err(DamReleased)
                             else if |old(buffer)| >= capacity then Err(QueueFull)
                             else Ok(s)
      ensures !old(releaseFlag) && old(enqueueSeq) < U64_MAX ==>
                var stamped := Next(capacity, old(View()), StampNext);
                var s := Stamp(old(enqueueSeq));
                View() == Next(capacity, stamped, Send(s))
    {
      if releaseFlag {
        return Err(DamReleased);
      }
      var s := Stamp(enqueueSeq);
      enqueueSeq := if enqueueSeq == U64_MAX then 0 else enqueueSeq + 1;
      pending := pending + {s};
      pending := pending - {s};
      if !channelOpen {
        return Err(DamReleased);
      }
      if |buffer| >= capacity {
        return Err(QueueFull);
      }
      buffer := buffer + [s];
      return Ok(s);
    }

    // Raises the watermark to `bound` and flags the current execution.
    method Cancel(bound: nat)
      modifies this`cancelWatermark, this`flagged
      ensures cancelWatermark == if old(cancelWatermark) < bound then bound else old(cancelWatermark)
      ensures flagged == if current.Some? then old(flagged) + {current.value} else old(flagged)
    {
      if cancelWatermark < bound {
        cancelWatermark := bound;
      }
      if current.Some? {
        flagged := flagged + {current.value};
      }
    }

    method CancelAll(ghost k: CallId)
      requires k !in calls
      modifies this`cancelWatermark, this`flagged, this`calls
      ensures View() == Cancelled(old(View()), k, false)
      ensures cancelWatermark == enqueueSeq || cancelWatermark == old(cancelWatermark)
      ensures cancelWatermark >= enqueueSeq && cancelWatermark >= old(cancelWatermark)
      ensures flagged == if current.Some? then old(flagged) + {current.value} else old(flagged)
    {
      var watermark := enqueueSeq;
      Cancel(watermark);
      calls := calls[k := Call(watermark, Returned, false)];
    }

    method Release(ghost k: CallId)
      requires k !in calls
      modifies this`releaseFlag, this`cancelWatermark, this`flagged, this`channelOpen, this`calls
      ensures releaseFlag && !channelOpen && cancelWatermark >= U64_MAX
      ensures cancelWatermark == U64_MAX || cancelWatermark == old(cancelWatermark)
      ensures flagged == if current.Some? then old(flagged) + {current.value} else old(flagged)
      ensures var y := Cancelled(old(View()), k, true); View() == y.(queue := y.queue.(open := false))
    {
      releaseFlag := true;
      Cancel(U64_MAX);
      channelOpen := false;
      calls := calls[k := Call(U64_MAX, Returned, true)];
    }

    method NotifyInterrupt(s: Stamp)
      modifies this`flagged, this`notified, this`interrupts
      ensures Log(flagged, notified, interrupts, begins, ran, handled, exits) ==
              Notify(old(Log(flagged, notified, interrupts, begins, ran, handled, exits)), s)
      ensures flagged == old(flagged) + {s} && notified == old(notified) + {s}
      ensures interrupts == if s in old(notified) then old(interrupts) else old(interrupts) + multiset{s}
    {
      flagged := flagged + {s};
      if s !in notified {
        notified := notified + {s};
        interrupts := interrupts + multiset{s};
      }
    }

    // `run_loop_msg` for a task just received, step by step: cancellers may act between the steps.
    method FirstLook(s: Stamp) returns (dropped: bool)
      requires worker == Taken(s)
      modifies this
      ensures View() == Next(capacity, old(View()), FirstCheck) && dropped == worker.Idle?
      ensures dropped <==> s.n < cancelWatermark
      ensures dropped ==> s in flagged && s in notified && s in handled && current == old(current)
      ensures !dropped ==> flagged == old(flagged) && notified == old(notified) && interrupts == old(interrupts)
    {
      dropped := s.n < cancelWatermark;
      if dropped {
        NotifyInterrupt(s);
        worker, handled := Idle, handled + {s};
      } else {
        worker := Passed(s);
      }
    }

    method PublishCurrent(s: Stamp)
      requires worker == Passed(s)
      modifies this
      ensures View() == Next(capacity, old(View()), Publish)
      ensures current == Some(s) && flagged == old(flagged) && notified == old(notified)
    {
      current := Some(s);
      worker := Published(s);
    }

    method SecondLook(s: Stamp) returns (dropped: bool)
      requires worker == Published(s)
      modifies this
      ensures View() == Next(capacity, old(View()), Recheck) && dropped == worker.Clearing?
      ensures dropped <==> s.n < cancelWatermark
      ensures dropped ==> s in flagged && s in notified && ran == old(ran)
      ensures !dropped ==> flagged == old(flagged) && notified == old(notified) && ran == old(ran) + {s}
    {
      dropped := s.n < cancelWatermark;
      if dropped {
        NotifyInterrupt(s);
        worker := Clearing(s);
      } else {
        worker, ran := Running(s, Entering), ran + {s};
      }
    }

    method ClearCurrent(s: Stamp)
      requires worker == Clearing(s)
      modifies this
      ensures View() == Next(capacity, old(View()), Clear)
      ensures current == None && handled == old(handled) + {s}
    {
      current := None;
      worker, handled := Idle, handled + {s};
    }
  }
}
