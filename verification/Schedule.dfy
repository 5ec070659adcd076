/**
 When a recurring task runs next. Instants are nanoseconds since an arbitrary origin and have a
 platform-dependent last value; durations are whole seconds in 64 bits and nanoseconds below one
 second, and nanosecond counts are 128 bits wide.
 */
module Schedule {
  import opened Wrappers

  const NANOS_PER_SECOND: nat := 1_000_000_000
  const U128_MAX: nat := 0xFFFF_FFFF_FFFF_FFFF_FFFF_FFFF_FFFF_FFFF

  datatype Duration = Duration(seconds: nat, subsecond: nat)

  predicate Valid(d: Duration) {
    d.seconds <= U64_MAX && d.subsecond < NANOS_PER_SECOND
  }

  function AsNanos(d: Duration): nat {
    d.seconds * NANOS_PER_SECOND + d.subsecond
  }

  function DurationFromNanos(nanos: nat): Option<Duration> {
    var seconds := nanos / NANOS_PER_SECOND;
    var subsecond := nanos % NANOS_PER_SECOND;
    if seconds > U64_MAX || subsecond > U32_MAX then None else Some(Duration(seconds, subsecond))
  }

  /** Nanosecond counts and durations correspond one to one, up to the last duration. */
  lemma DurationRoundTrip(nanos: nat, d: Duration)
    ensures DurationFromNanos(nanos).None? <==> nanos / NANOS_PER_SECOND > U64_MAX
    ensures DurationFromNanos(nanos).Some? ==>
              Valid(DurationFromNanos(nanos).value) && AsNanos(DurationFromNanos(nanos).value) == nanos
    ensures Valid(d) ==> DurationFromNanos(AsNanos(d)) == Some(d)
  {}

  datatype ScheduleMode = FixedDelay | FixedRate

  datatype MissedTickPolicy = Burst | Skip | Delay

  datatype ResumePolicy = Continue | RunImmediately | SkipMissed

  // `chosen` is what the user's function answers for a dynamic plan.
  datatype Plan =
    | Fixed(interval: Duration, mode: ScheduleMode)
    | Steps(delays: seq<Duration>, repeatLast: bool)
    | Dynamic(chosen: Option<Duration>)

  datatype Schedule = Schedule(plan: Plan, missed: MissedTickPolicy, resume: ResumePolicy)

  datatype ScheduleError =
    | FixedDelayOverflow
    | FixedRateMultiplyOverflow
    | FixedRateDurationOverflow
    | FixedRateInstantOverflow
    | MissedDelayOverflow
    | MissedCountOverflow
    | MissedAdvanceOverflow
    | MissedDurationOverflow
    | MissedInstantOverflow
    | StepCounterUnderflow
    | StepInstantOverflow
    | DynamicInstantOverflow

  datatype Tick = Tick(at: nat, missed: nat)

  // `Instant::checked_add`.
  function CheckedAdd(at: nat, d: Duration, latest: nat): Option<nat> {
    if at + AsNanos(d) > latest then None else Some(at + AsNanos(d))
  }

  function TickAfter(at: nat, d: Duration, missed: nat, latest: nat, error: ScheduleError)
    : Result<Option<Tick>, ScheduleError>
  {
    match CheckedAdd(at, d, latest)
    case Some(next) => Ok(Some(Tick(next, missed)))
    case None => Err(error)
  }

  function SkipAhead(target: nat, now: nat, interval: Duration, latest: nat): Result<Option<Tick>, ScheduleError>
    requires target <= now && AsNanos(interval) > 0
  {
    var skipped := (now - target) / AsNanos(interval) + 1;
    if skipped > U128_MAX || skipped > U64_MAX then Err(MissedCountOverflow)
    else if AsNanos(interval) * skipped > U128_MAX then Err(MissedAdvanceOverflow)
    else match DurationFromNanos(AsNanos(interval) * skipped)
      case None => Err(MissedDurationOverflow)
      case Some(advance) => TickAfter(target, advance, skipped, latest, MissedInstantOverflow)
  }

  function FixedRateTick(s: Schedule, interval: Duration, target: nat, now: nat, lastFinished: nat, resumed: bool,
                         latest: nat): Result<Option<Tick>, ScheduleError>
  {
    if target > now then Ok(Some(Tick(target, 0)))
    else if AsNanos(interval) == 0 then Ok(Some(Tick(now, 0)))
    else match if resumed && s.resume.SkipMissed? then Skip else s.missed
      case Burst => Ok(Some(Tick(target, 1)))
      case Delay => TickAfter(lastFinished, interval, 1, latest, MissedDelayOverflow)
      case Skip => SkipAhead(target, now, interval, latest)
  }

  function NextTarget(s: Schedule, anchor: nat, completed: nat, lastFinished: nat, resumed: bool, now: nat,
                      latest: nat): Result<Option<Tick>, ScheduleError>
  {
    if resumed && s.resume.RunImmediately? then Ok(Some(Tick(now, 0)))
    else match s.plan
      case Fixed(interval, FixedDelay) => TickAfter(lastFinished, interval, 0, latest, FixedDelayOverflow)
      case Fixed(interval, FixedRate) =>
        var nanos: nat := AsNanos(interval) * completed;
        if nanos > U128_MAX then Err(FixedRateMultiplyOverflow)
        else (match DurationFromNanos(nanos)
          case None => Err(FixedRateDurationOverflow)
          case Some(elapsed) =>
            match CheckedAdd(anchor, elapsed, latest)
            case None => Err(FixedRateInstantOverflow)
            case Some(target) => FixedRateTick(s, interval, target, now, lastFinished, resumed, latest))
      case Steps(delays, repeatLast) =>
        if completed == 0 then Err(StepCounterUnderflow)
        else if completed - 1 < |delays| then
          TickAfter(lastFinished, delays[completed - 1], 0, latest, StepInstantOverflow)
        else if repeatLast && delays != [] then
          TickAfter(lastFinished, delays[|delays| - 1], 0, latest, StepInstantOverflow)
        else Ok(None)
      case Dynamic(Some(delay)) => TickAfter(lastFinished, delay, 0, latest, DynamicInstantOverflow)
      case Dynamic(None) => Ok(None)
  }

  // ---------------------------------------------------------------- the fixed-rate grid

  // The last nanosecond a duration can count; instants are at most that far from their origin.
  const LAST_NANO: nat := U64_MAX * NANOS_PER_SECOND + (NANOS_PER_SECOND - 1)

  datatype GridPoint = GridPoint(index: nat)

  // The points of the grid that starts at `target` through `now`.
  ghost function PointsThrough(target: nat, now: nat, step: nat): set<GridPoint>
    requires step > 0
  {
    set j | 0 <= j <= now && target + j * step <= now :: GridPoint(j)
  }

  ghost function Below(n: nat): set<GridPoint> {
    set j | 0 <= j < n :: GridPoint(j)
  }

  lemma {:induction false} BelowSize(n: nat)
    ensures |Below(n)| == n
  {
    if n > 0 {
      BelowSize(n - 1);
      assert Below(n) == Below(n - 1) + {GridPoint(n - 1)};
    }
  }

  lemma MulKeepsOrder(a: nat, b: nat, step: nat)
    requires a <= b
    ensures a * step <= b * step
  {}

  lemma DivisionBounds(behind: nat, step: nat)
    requires step > 0
    ensures (behind / step) * step <= behind < (behind / step + 1) * step
    ensures (behind / step + 1) * step == (behind / step) * step + step
  {
    assert behind == step * (behind / step) + behind % step;
  }

  lemma PointIffBelow(behind: nat, step: nat, j: nat)
    requires step > 0
    ensures j * step <= behind <==> j < behind / step + 1
    ensures j * step <= behind ==> j <= behind
    ensures j * step > behind ==> j * step >= (behind / step + 1) * step
  {
    DivisionBounds(behind, step);
    if j <= behind / step {
      MulKeepsOrder(j, behind / step, step);
    } else {
      MulKeepsOrder(behind / step + 1, j, step);
    }
    MulKeepsOrder(1, step, j);
  }

  lemma CountPoints(target: nat, now: nat, step: nat)
    requires step > 0 && target <= now
    ensures |PointsThrough(target, now, step)| == (now - target) / step + 1
  {
    var n := (now - target) / step + 1;
    forall p: GridPoint ensures p in PointsThrough(target, now, step) <==> p in Below(n) {
      PointIffBelow(now - target, step, p.index);
    }
    assert PointsThrough(target, now, step) == Below(n);
    BelowSize(n);
  }

  // The first grid point after `now`, seen from `target`.
  function FirstAfter(target: nat, now: nat, step: nat): (at: nat)
    requires step > 0 && target <= now
    ensures now < at <= now + step
  {
    DivisionBounds(now - target, step);
    target + ((now - target) / step + 1) * step
  }

  lemma FirstAfterIsLeast(target: nat, now: nat, step: nat, j: nat)
    requires step > 0 && target <= now && target + j * step > now
    ensures target + j * step >= FirstAfter(target, now, step)
  {
    PointIffBelow(now - target, step, j);
  }

  /** Skipping ahead from a target that is not after `now` lands on the least point of the target's
      grid strictly after `now`, and reports how many grid points from the target through `now` it
      passed over. It fails only if that count is beyond 64 bits or that point beyond the clock. */
  lemma SkipLandsOnGrid(target: nat, now: nat, interval: Duration, latest: nat)
    requires target <= now <= latest <= LAST_NANO && Valid(interval) && AsNanos(interval) > 0
    ensures var step := AsNanos(interval); var count := |PointsThrough(target, now, step)|;
            match SkipAhead(target, now, interval, latest)
            case Ok(Some(tick)) =>
              && tick.missed == count <= U64_MAX
              && tick.at == target + count * step <= latest
              && now < tick.at <= now + step
              && forall j: nat | target + j * step > now :: target + j * step >= tick.at
            case Ok(None) => false
            case Err(error) =>
              && error != MissedAdvanceOverflow
              && (error == MissedCountOverflow <==> count > U64_MAX)
              && (count > U64_MAX || target + count * step > latest)
  {
    var step := AsNanos(interval);
    var count := (now - target) / step + 1;
    CountPoints(target, now, step);
    var at := FirstAfter(target, now, step);
    assert step * count == count * step == at - target <= now + step;
    AdvanceFits(interval, now);
    DurationRoundTrip(count * step, interval);
    hide DurationFromNanos, PointsThrough, AsNanos;
    forall j: nat | target + j * step > now ensures target + j * step >= at {
      FirstAfterIsLeast(target, now, step, j);
    }
  }

  // The same without the comparison with the other grid points.
  lemma SkipResult(target: nat, now: nat, interval: Duration, latest: nat)
    requires target <= now <= latest <= LAST_NANO && Valid(interval) && AsNanos(interval) > 0
    ensures var count := |PointsThrough(target, now, AsNanos(interval))|;
            var at := target + count * AsNanos(interval);
            var result := SkipAhead(target, now, interval, latest);
            && (result.Ok? <==> count <= U64_MAX && at <= latest)
            && (result.Ok? ==> result.value == Some(Tick(at, count)))
  {
    hide AsNanos, Valid, SkipAhead, PointsThrough;
    SkipLandsOnGrid(target, now, interval, latest);
  }

  lemma AdvanceFits(interval: Duration, now: nat)
    requires Valid(interval) && now <= LAST_NANO
    ensures now + AsNanos(interval) <= U128_MAX
  {}

  // The policy that applies to a missed fixed-rate tick.
  predicate Skips(s: Schedule, resumed: bool) {
    !(resumed && s.resume.RunImmediately?) && ((resumed && s.resume.SkipMissed?) || s.missed.Skip?)
  }

  lemma TargetIsRepresentable(interval: Duration, completed: nat, anchor: nat, now: nat, latest: nat)
    requires anchor + completed * AsNanos(interval) <= now <= latest <= LAST_NANO
    ensures var nanos := AsNanos(interval) * completed;
            nanos <= U128_MAX && DurationFromNanos(nanos).Some? &&
            CheckedAdd(anchor, DurationFromNanos(nanos).value, latest) ==
              Some(anchor + completed * AsNanos(interval))
  {
    DurationRoundTrip(AsNanos(interval) * completed, interval);
    assert AsNanos(interval) * completed == completed * AsNanos(interval);
  }

  lemma LateTickSkipsAhead(s: Schedule, interval: Duration, anchor: nat, completed: nat, lastFinished: nat,
                           resumed: bool, now: nat, latest: nat)
    requires s.plan == Fixed(interval, FixedRate) && Skips(s, resumed) && AsNanos(interval) > 0
    requires anchor + completed * AsNanos(interval) <= now <= latest <= LAST_NANO
    ensures NextTarget(s, anchor, completed, lastFinished, resumed, now, latest) ==
            SkipAhead(anchor + completed * AsNanos(interval), now, interval, latest)
  {
    TargetIsRepresentable(interval, completed, anchor, now, latest);
    hide AsNanos, DurationFromNanos, SkipAhead, CheckedAdd;
  }

  // Points before the target are not after `now`, so the least one after it is the same from `anchor`.
  lemma LeastFromAnchor(anchor: nat, completed: nat, now: nat, step: nat, m: nat)
    requires step > 0 && anchor + completed * step <= now && anchor + m * step > now
    ensures anchor + m * step >= FirstAfter(anchor + completed * step, now, step)
  {
    if m < completed {
      MulKeepsOrder(m, completed, step);
    } else {
      assert m * step == completed * step + (m - completed) * step;
      FirstAfterIsLeast(anchor + completed * step, now, step, m - completed);
    }
  }

  lemma FirstAfterFromAnchor(anchor: nat, completed: nat, now: nat, step: nat)
    requires step > 0 && anchor + completed * step <= now
    ensures var target := anchor + completed * step;
            FirstAfter(target, now, step) == anchor + (completed + |PointsThrough(target, now, step)|) * step
            == target + |PointsThrough(target, now, step)| * step
  {
    var target := anchor + completed * step;
    CountPoints(target, now, step);
    hide PointsThrough;
    var count := |PointsThrough(target, now, step)|;
    assert (completed + count) * step == completed * step + count * step;
  }

  // Point `m` of the grid that starts at `anchor`.
  function GridAt(anchor: nat, step: nat, m: nat): nat {
    anchor + m * step
  }

  // `at` is after `now`, and no grid point of `anchor` after `now` comes before it.
  ghost predicate LeastAfter(anchor: nat, step: nat, now: nat, at: nat) {
    now < at && forall m: nat | GridAt(anchor, step, m) > now :: GridAt(anchor, step, m) >= at
  }

  lemma FirstAfterIsLeastAfter(anchor: nat, completed: nat, now: nat, step: nat)
    requires step > 0 && anchor + completed * step <= now
    ensures LeastAfter(anchor, step, now, FirstAfter(anchor + completed * step, now, step))
  {
    forall m: nat | anchor + m * step > now
      ensures anchor + m * step >= FirstAfter(anchor + completed * step, now, step)
    {
      LeastFromAnchor(anchor, completed, now, step, m);
    }
  }

  /** A late fixed-rate task that skips runs next at the least `anchor + m * interval` strictly after
      `now`, over every m, and reports the grid points it missed. */
  lemma LateTickSkips(s: Schedule, interval: Duration, anchor: nat, completed: nat, lastFinished: nat, resumed: bool,
                      now: nat, latest: nat)
    requires s.plan == Fixed(interval, FixedRate) && Skips(s, resumed) && Valid(interval) && AsNanos(interval) > 0
    requires anchor + completed * AsNanos(interval) <= now <= latest <= LAST_NANO
    ensures var step := AsNanos(interval);
            var result := NextTarget(s, anchor, completed, lastFinished, resumed, now, latest);
            var count := |PointsThrough(GridAt(anchor, step, completed), now, step)|;
            var at := GridAt(anchor, step, completed + count);
            && (result.Ok? <==> count <= U64_MAX && at <= latest)
            && (result.Ok? ==> result.value == Some(Tick(at, count)))
            && LeastAfter(anchor, step, now, at)
  {
    var step := AsNanos(interval);
    var target := anchor + completed * step;
    LateTickSkipsAhead(s, interval, anchor, completed, lastFinished, resumed, now, latest);
    hide NextTarget, DurationFromNanos, PointsThrough, AsNanos, SkipAhead, Valid, Skips, FirstAfter, LeastAfter;
    SkipResult(target, now, interval, latest);
    FirstAfterFromAnchor(anchor, completed, now, step);
    FirstAfterIsLeastAfter(anchor, completed, now, step);
  }

  // The next tick is a whole `interval` after the last one finished, if the clock reaches that far.
  ghost predicate WaitsFull(result: Result<Option<Tick>, ScheduleError>, lastFinished: nat, interval: Duration,
                            missed: nat, latest: nat, error: ScheduleError)
  {
    if lastFinished + AsNanos(interval) <= latest
    then result == Ok(Some(Tick(lastFinished + AsNanos(interval), missed)))
    else result == Err(error)
  }

  /** Fixed delay and the policy for late fixed-rate ticks that delays both leave a whole interval after
      the last tick finished; a task resumed under `RunImmediately` runs at once, whatever its plan. */
  lemma DelayWaitsFullInterval(s: Schedule, interval: Duration, anchor: nat, completed: nat, lastFinished: nat,
                               resumed: bool, now: nat, latest: nat)
    requires now <= latest <= LAST_NANO && Valid(interval)
    ensures var result := NextTarget(s, anchor, completed, lastFinished, resumed, now, latest);
            if resumed && s.resume.RunImmediately? then result == Ok(Some(Tick(now, 0)))
            else
              && (s.plan == Fixed(interval, FixedDelay) ==>
                    WaitsFull(result, lastFinished, interval, 0, latest, FixedDelayOverflow))
              && (s.plan == Fixed(interval, FixedRate) && s.missed.Delay? && !(resumed && s.resume.SkipMissed?) &&
                  AsNanos(interval) > 0 && anchor + completed * AsNanos(interval) <= now ==>
                    WaitsFull(result, lastFinished, interval, 1, latest, MissedDelayOverflow))
              && (s.plan == Fixed(interval, FixedRate) && AsNanos(interval) == 0 && anchor <= now ==>
                    result == Ok(Some(Tick(now, 0))))
  {
    if anchor + completed * AsNanos(interval) <= now {
      TargetIsRepresentable(interval, completed, anchor, now, latest);
    }
    hide SkipAhead, DurationFromNanos, AsNanos;
    assert completed * 0 == 0;
  }

  /** A plan of steps waits the delay of its position after each tick, then the last one again or no more;
      a dynamic plan waits what the user's function chose, and ends when it chose nothing. */
  lemma StepsWaitTheirDelay(s: Schedule, anchor: nat, completed: nat, lastFinished: nat, resumed: bool, now: nat,
                            latest: nat)
    requires !(resumed && s.resume.RunImmediately?)
    ensures var result := NextTarget(s, anchor, completed, lastFinished, resumed, now, latest);
            match s.plan
            case Fixed(_, _) => true
            case Steps(delays, repeatLast) =>
              if completed == 0 then result == Err(StepCounterUnderflow)
              else if completed > |delays| && !(repeatLast && delays != []) then result == Ok(None)
              else
                var delay := delays[if completed <= |delays| then completed - 1 else |delays| - 1];
                WaitsFull(result, lastFinished, delay, 0, latest, StepInstantOverflow)
            case Dynamic(Some(delay)) => WaitsFull(result, lastFinished, delay, 0, latest, DynamicInstantOverflow)
            case Dynamic(None) => result == Ok(None)
  {}

  /** Fixed-rate ticks keep to the grid of their anchor, whether on time, in a burst or skipping; a
      tick reports missed points exactly if its own grid point is not after `now`. */
  lemma FixedRateKeepsGrid(s: Schedule, interval: Duration, anchor: nat, completed: nat, lastFinished: nat,
                           resumed: bool, now: nat, latest: nat)
    requires s.plan == Fixed(interval, FixedRate) && Valid(interval) && AsNanos(interval) > 0
    requires (Skips(s, resumed) || s.missed.Burst?) && !(resumed && s.resume.RunImmediately?)
    requires now <= latest <= LAST_NANO
    ensures var step := AsNanos(interval);
            match NextTarget(s, anchor, completed, lastFinished, resumed, now, latest)
            case Ok(Some(tick)) =>
              && tick.at == GridAt(anchor, step, completed + (if Skips(s, resumed) then tick.missed else 0))
              && (tick.missed == 0 <==> anchor + completed * step > now)
              && (!Skips(s, resumed) ==> tick.missed <= 1)
              && tick.at <= latest
            case Ok(None) => false
            case Err(_) =>
              anchor + completed * step > latest || (Skips(s, resumed) && anchor + completed * step <= now)
  {
    var step := AsNanos(interval);
    var target := anchor + completed * step;
    if target <= now {
      if Skips(s, resumed) {
        LateTickSkips(s, interval, anchor, completed, lastFinished, resumed, now, latest);
        PointsPassed(target, now, step);
      } else {
        TargetIsRepresentable(interval, completed, anchor, now, latest);
      }
    } else {
      OnTimeTick(s, interval, anchor, completed, lastFinished, resumed, now, latest);
    }
  }

  // A tick that is not late runs at its grid point, which fails only where the source's arithmetic ends.
  lemma OnTimeTick(s: Schedule, interval: Duration, anchor: nat, completed: nat, lastFinished: nat,
                   resumed: bool, now: nat, latest: nat)
    requires s.plan == Fixed(interval, FixedRate) && !(resumed && s.resume.RunImmediately?)
    requires anchor + completed * AsNanos(interval) > now
    requires latest <= LAST_NANO
    ensures var result := NextTarget(s, anchor, completed, lastFinished, resumed, now, latest);
            var target := anchor + completed * AsNanos(interval);
            if target <= latest then result == Ok(Some(Tick(target, 0)))
            else
              result == Err(if completed * AsNanos(interval) > U128_MAX then FixedRateMultiplyOverflow
                            else if completed * AsNanos(interval) / NANOS_PER_SECOND > U64_MAX
                            then FixedRateDurationOverflow
                            else FixedRateInstantOverflow)
  {
    DurationRoundTrip(AsNanos(interval) * completed, interval);
    assert AsNanos(interval) * completed == completed * AsNanos(interval);
    hide AsNanos, SkipAhead;
  }

  lemma StillMissed(anchor: nat, completed: nat, later: nat, step: nat, missed: nat)
    requires step > 0 && missed >= 1 && anchor + (completed + missed) * step <= later
    ensures anchor + (completed + 1) * step <= later
    ensures |PointsThrough(anchor + (completed + 1) * step, later, step)| >= missed
  {
    MulKeepsOrder(completed + 1, completed + missed, step);
    var target := anchor + (completed + 1) * step;
    CountPoints(target, later, step);
    hide PointsThrough;
    assert (completed + missed) * step == (completed + 1) * step + (missed - 1) * step;
    PointIffBelow(later - target, step, missed - 1);
  }

  /** Ticks are counted, not grid points: once a task has skipped, its next tick is late again even
      if it runs at once, and reports at least as many missed points as before. */
  lemma SkippingStaysLate(s: Schedule, interval: Duration, anchor: nat, completed: nat, resumed: bool,
                          now: nat, later: nat, latest: nat)
    requires s.plan == Fixed(interval, FixedRate) && Skips(s, resumed) && Valid(interval) && AsNanos(interval) > 0
    requires anchor + completed * AsNanos(interval) <= now <= later <= latest <= LAST_NANO
    requires var first := NextTarget(s, anchor, completed, now, resumed, now, latest);
             first.Ok? && first.value.Some? && first.value.value.at <= later
    ensures var first := NextTarget(s, anchor, completed, now, resumed, now, latest).value.value;
            var second := NextTarget(s, anchor, completed + 1, later, resumed, later, latest);
            second.Ok? ==> second.value.Some? && second.value.value.missed >= first.missed >= 1
  {
    var step := AsNanos(interval);
    LateTickSkips(s, interval, anchor, completed, now, resumed, now, latest);
    hide NextTarget, AsNanos, Skips, PointsThrough, LeastAfter, Valid;
    PointsPassed(anchor + completed * step, now, step);
    var first := NextTarget(s, anchor, completed, now, resumed, now, latest).value.value;
    StillMissed(anchor, completed, later, step, first.missed);
    LateTickSkips(s, interval, anchor, completed + 1, later, resumed, later, latest);
  }

  lemma PointsPassed(target: nat, now: nat, step: nat)
    requires step > 0 && target <= now
    ensures |PointsThrough(target, now, step)| >= 1
  {
    CountPoints(target, now, step);
  }
}
