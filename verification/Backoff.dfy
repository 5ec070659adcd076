/**
 Between-attempt delays of a retry: base delays from a backoff, jitter from a 64-bit xorshift
 stream, and the validation that runs the whole plan once. Durations are real seconds below 2^64;
 rounding of floating point is not modelled.
 */
module Backoff {
  import opened Wrappers

  // Durations hold fewer than 2^64 seconds.
  const SECONDS_LIMIT: real := 18446744073709551616.0

  datatype Backoff =
    | NoDelay
    | Fixed(delay: real)
    | Explicit(delays: seq<real>)
    | Exponential(base: real, multiplier: real, cap: real)

  datatype Jitter = Jitter(seed: bv64, ratio: real)

  datatype Plan = Plan(source: Backoff, jitter: Option<Jitter>, jitterCap: Option<real>, len: nat)

  datatype BuildError =
    | DelayCountMismatch(expected: nat, actual: nat)
    | InvalidBackoffMultiplier
    | BackoffCapBelowBase
    | InvalidJitterRatio
    | DurationOverflow

  type Delay = Result<real, BuildError>

  predicate IsDuration(d: real) {
    0.0 <= d < SECONDS_LIMIT
  }

  // The durations a caller can put into a backoff.
  predicate Durations(b: Backoff) {
    match b
    case NoDelay => true
    case Fixed(delay) => IsDuration(delay)
    case Explicit(delays) => forall i | 0 <= i < |delays| :: IsDuration(delays[i])
    case Exponential(base, _, cap) => IsDuration(base) && IsDuration(cap)
  }

  function Min(a: real, b: real): real {
    if a <= b then a else b
  }

  // The product, named so that proofs can treat it as a whole.
  function Scaled(delay: real, factor: real): real {
    delay * factor
  }

  // `Duration::try_from_secs_f64`.
  function FromSeconds(seconds: real): Delay {
    if IsDuration(seconds) then Ok(seconds) else Err(DurationOverflow)
  }

  // ---------------------------------------------------------------- base delays

  // The iterator's running value after `k` steps.
  function Seconds(base: real, multiplier: real, cap: real, k: nat): real {
    if k == 0 then base else Min(Scaled(Seconds(base, multiplier, cap, k - 1), multiplier), cap)
  }

  function BaseDelay(p: Plan, k: nat): Delay
    requires p.source.Explicit? ==> k < |p.source.delays|
  {
    match p.source
    case NoDelay => Ok(0.0)
    case Fixed(delay) => Ok(delay)
    case Explicit(delays) => Ok(delays[k])
    case Exponential(base, multiplier, cap) => FromSeconds(Min(Seconds(base, multiplier, cap, k), cap))
  }

  function Power(m: real, k: nat): real {
    if k == 0 then 1.0 else Scaled(Power(m, k - 1), m)
  }

  lemma Grows(x: real, m: real)
    requires x >= 0.0 && m >= 1.0
    ensures Scaled(x, m) >= x
  {}

  lemma {:induction false} PowerIsPositive(m: real, k: nat)
    requires m >= 1.0
    ensures Power(m, k) >= 1.0
  {
    if k > 0 {
      PowerIsPositive(m, k - 1);
      Grows(Power(m, k - 1), m);
    }
  }

  lemma MinScales(x: real, m: real, cap: real)
    requires x >= 0.0 && m >= 1.0 && cap >= 0.0
    ensures Min(Scaled(Min(x, cap), m), cap) == Min(Scaled(x, m), cap)
  {
    if x > cap {
      assert cap * m >= cap;
      assert x * m >= cap * m;
    }
  }

  lemma CappedStep(s: real, x: real, m: real, cap: real)
    requires s >= 0.0 && x >= 0.0 && m >= 1.0 && cap >= 0.0 && Min(s, cap) == Min(x, cap)
    ensures Min(Min(Scaled(s, m), cap), cap) == Min(Scaled(x, m), cap)
  {
    MinScales(s, m, cap);
    MinScales(x, m, cap);
  }

  lemma ScaledByOne(x: real)
    ensures Scaled(x, 1.0) == x
  {}

  lemma ProductStep(base: real, power: real, m: real)
    requires base >= 0.0 && power >= 1.0
    ensures Scaled(base, power) >= 0.0 && Scaled(Scaled(base, power), m) == Scaled(base, Scaled(power, m))
  {}

  /** Capping at every step is capping once: the iterated delay is `min(base * m^k, cap)`. */
  lemma {:induction false} ExponentialClosedForm(base: real, m: real, cap: real, k: nat)
    requires base >= 0.0 && m >= 1.0 && cap >= base
    ensures Min(Seconds(base, m, cap, k), cap) == Min(Scaled(base, Power(m, k)), cap)
  {
    hide Scaled, Min;
    if k == 0 {
      ScaledByOne(base);
    } else {
      ExponentialClosedForm(base, m, cap, k - 1);
      PowerIsPositive(m, k - 1);
      SecondsAreNotNegative(base, m, cap, k - 1);
      ProductStep(base, Power(m, k - 1), m);
      CappedStep(Seconds(base, m, cap, k - 1), Scaled(base, Power(m, k - 1)), m, cap);
    }
  }

  lemma {:induction false} SecondsAreNotNegative(base: real, m: real, cap: real, k: nat)
    requires base >= 0.0 && m >= 1.0 && cap >= base
    ensures Seconds(base, m, cap, k) >= 0.0
  {
    if k > 0 {
      SecondsAreNotNegative(base, m, cap, k - 1);
    }
  }

  // Exponential delays never decrease and never exceed the cap.
  lemma {:induction false} ExponentialNeverDecreases(base: real, m: real, cap: real, i: nat, j: nat)
    requires base >= 0.0 && m >= 1.0 && cap >= base && i <= j
    ensures Min(Seconds(base, m, cap, i), cap) <= Min(Seconds(base, m, cap, j), cap) <= cap
    decreases j
  {
    hide Scaled;
    if i < j {
      ExponentialNeverDecreases(base, m, cap, i, j - 1);
      SecondsAreNotNegative(base, m, cap, j - 1);
      Grows(Seconds(base, m, cap, j - 1), m);
    }
  }

  // ---------------------------------------------------------------- jitter

  function XorShift(state: bv64): bv64 {
    var s1 := state ^ (state << 13);
    var s2 := s1 ^ (s1 >> 7);
    s2 ^ (s2 << 17)
  }

  // The stream leaves zero only by starting there: a non-zero seed never gets stuck.
  lemma XorShiftKeepsNonZero(state: bv64)
    ensures XorShift(state) == 0 <==> state == 0
  {}

  function StateAt(seed: bv64, k: nat): bv64 {
    if k == 0 then seed else XorShift(StateAt(seed, k - 1))
  }

  function Unit(state: bv64): (u: real)
    ensures 0.0 <= u <= 1.0
  {
    (state as nat) as real / 18446744073709551615.0
  }

  function Factor(ratio: real, unit: real): real {
    (1.0 - ratio) + 2.0 * ratio * unit
  }

  // The stream of seed 1 begins with 2^30 + 2^23 + 2^17 + 2^13 + 2^6 + 1.
  lemma XorShiftOfOne()
    ensures XorShift(1) == 1082269761
  {}

  // The delay before attempt `k + 2`.
  function Item(p: Plan, k: nat): Delay
    requires p.source.Explicit? ==> k < |p.source.delays|
  {
    match BaseDelay(p, k)
    case Err(error) => Err(error)
    case Ok(delay) =>
      match p.jitter
      case None => Ok(delay)
      case Some(jitter) =>
        match FromSeconds(Scaled(delay, Factor(jitter.ratio, Unit(StateAt(jitter.seed, k + 1)))))
        case Err(_) => Err(DurationOverflow)
        case Ok(jittered) => Ok(if p.jitterCap.Some? then Min(jittered, p.jitterCap.value) else jittered)
  }

  // From `delay - delay * ratio` at 0 to `delay + delay * ratio` at 1.
  function Spread(delay: real, ratio: real, share: real): real {
    delay + delay * ratio * (2.0 * share - 1.0)
  }

  lemma SpreadEvenly(delay: real, ratio: real, share: real)
    ensures Scaled(delay, Factor(ratio, share)) == Spread(delay, ratio, share)
  {
    assert Factor(ratio, share) == 1.0 + ratio * (2.0 * share - 1.0);
    assert delay * (1.0 + ratio * (2.0 * share - 1.0)) == delay + delay * (ratio * (2.0 * share - 1.0));
  }

  /** Before the cap, jitter spreads a delay evenly over its ratio: it moves linearly with the share of the
      64-bit range at which the position's random state lies, and is refused only if it is no duration. */
  lemma JitterSpreads(p: Plan, k: nat)
    requires p.source.Explicit? ==> k < |p.source.delays|
    requires p.jitter.Some? && BaseDelay(p, k).Ok?
    ensures var share := Unit(StateAt(p.jitter.value.seed, k + 1));
            var x := Spread(BaseDelay(p, k).value, p.jitter.value.ratio, share);
            Item(p, k) == if x < 0.0 || x >= SECONDS_LIMIT then Err(DurationOverflow)
                          else Ok(if p.jitterCap.Some? && p.jitterCap.value < x then p.jitterCap.value else x)
  {
    var d, r, state := BaseDelay(p, k).value, p.jitter.value.ratio, StateAt(p.jitter.value.seed, k + 1);
    SpreadEvenly(d, r, Unit(state));
    hide StateAt, BaseDelay, Scaled, Factor, Spread, Unit;
  }

  lemma UnitIsShare(state: bv64)
    ensures Unit(state) * 18446744073709551615.0 == (state as nat) as real
  {}

  lemma FactorBounds(ratio: real, unit: real)
    requires 0.0 <= ratio <= 1.0 && 0.0 <= unit <= 1.0
    ensures 1.0 - ratio <= Factor(ratio, unit) <= 1.0 + ratio
  {
    ScaleBetween(ratio, 0.0, unit, 1.0);
  }

  lemma ScaleBetween(d: real, lo: real, f: real, hi: real)
    requires d >= 0.0 && 0.0 <= lo <= f <= hi
    ensures 0.0 <= Scaled(d, lo) <= Scaled(d, f) <= Scaled(d, hi)
  {}

  /** Jitter keeps a delay within its ratio of the base delay, before the cap; and it fails only if
      the jittered delay is no duration. */
  lemma JitterBounds(p: Plan, k: nat)
    requires p.source.Explicit? ==> k < |p.source.delays|
    requires p.jitter.Some? && 0.0 <= p.jitter.value.ratio <= 1.0
    requires BaseDelay(p, k).Ok? && BaseDelay(p, k).value >= 0.0
    ensures var d := BaseDelay(p, k).value; var r := p.jitter.value.ratio;
            match Item(p, k)
            case Ok(x) =>
              && x <= Scaled(d, 1.0 + r) && (p.jitterCap.Some? ==> x <= p.jitterCap.value)
              && (x >= Scaled(d, 1.0 - r) || Some(x) == p.jitterCap)
            case Err(error) => error == DurationOverflow && Scaled(d, 1.0 + r) >= SECONDS_LIMIT
  {
    var d, r := BaseDelay(p, k).value, p.jitter.value.ratio;
    hide Factor, StateAt, BaseDelay, Scaled, Unit;
    var u := Unit(StateAt(p.jitter.value.seed, k + 1));
    FactorBounds(r, u);
    ScaleBetween(d, 1.0 - r, Factor(r, u), 1.0 + r);
  }

  // ---------------------------------------------------------------- the iterators

  // A plan the validation lets through, apart from its delays.
  predicate Sound(p: Plan) {
    && Durations(p.source)
    && (p.source.Explicit? ==> |p.source.delays| == p.len)
    && (p.source.Exponential? ==> p.source.multiplier >= 1.0 && p.source.cap >= p.source.base)
  }

  // Over reals, no base delay of a sound plan is out of range.
  lemma BaseDelaysAreDurations(p: Plan, k: nat)
    requires Sound(p) && k < p.len
    ensures BaseDelay(p, k).Ok? && IsDuration(BaseDelay(p, k).value)
  {
    if p.source.Exponential? {
      SecondsAreNotNegative(p.source.base, p.source.multiplier, p.source.cap, k);
    }
  }

  class DelayIter {
    const plan: Plan
    var remaining: nat
    var seconds: real
    var state: bv64
    ghost var produced: nat

    ghost predicate Valid()
      reads this
    {
      && Sound(plan) && produced + remaining == plan.len
      && (plan.source.Exponential? ==>
            seconds == Seconds(plan.source.base, plan.source.multiplier, plan.source.cap, produced))
      && (plan.jitter.Some? ==> state == StateAt(plan.jitter.value.seed, produced))
    }

    constructor (plan: Plan)
      requires Sound(plan)
      ensures this.plan == plan && Valid() && produced == 0
    {
      this.plan := plan;
      remaining, produced := plan.len, 0;
      seconds := if plan.source.Exponential? then plan.source.base else 0.0;
      state := if plan.jitter.Some? then plan.jitter.value.seed else 0;
    }

    // `BaseDelayIter::next`.
    method NextBase() returns (delay: Delay)
      requires Valid() && remaining > 0
      modifies this`remaining, this`seconds
      ensures remaining == old(remaining) - 1 && delay == BaseDelay(plan, produced)
      ensures match plan.source
              case NoDelay => delay == Ok(0.0)
              case Fixed(fixed) => delay == Ok(fixed)
              case Explicit(delays) => delay == Ok(delays[produced])
              case Exponential(base, multiplier, cap) =>
                var uncapped := Scaled(base, Power(multiplier, produced));
                delay == Ok(if uncapped <= cap then uncapped else cap)
      ensures plan.source.Exponential? ==>
                seconds == Seconds(plan.source.base, plan.source.multiplier, plan.source.cap, produced + 1)
    {
      BaseDelaysAreDurations(plan, produced);
      if plan.source.Exponential? {
        ExponentialClosedForm(plan.source.base, plan.source.multiplier, plan.source.cap, produced);
      }
      hide Scaled, StateAt;
      var position := plan.len - remaining;
      remaining := remaining - 1;
      match plan.source {
        case NoDelay => delay := Ok(0.0);
        case Fixed(fixed) => delay := Ok(fixed);
        case Explicit(delays) => delay := Ok(delays[position]);
        case Exponential(_, multiplier, cap) =>
          delay := FromSeconds(Min(seconds, cap));
          seconds := Min(Scaled(seconds, multiplier), cap);
      }
    }

    method Next() returns (item: Option<Delay>)
      requires Valid()
      modifies this
      ensures Valid()
      ensures if old(produced) < plan.len then item == Some(Item(plan, old(produced))) && produced == old(produced) + 1
              else item == None && produced == old(produced)
    {
      hide BaseDelay, Seconds, Factor, Unit, Scaled, XorShift;
      if remaining == 0 {
        return None;
      }
      BaseDelaysAreDurations(plan, produced);
      var base := NextBase();
      produced := produced + 1;
      if plan.jitter.None? {
        return Some(base);
      }
      var jitter := plan.jitter.value;
      state := XorShift(state);
      var jittered := FromSeconds(Scaled(base.value, Factor(jitter.ratio, Unit(state))));
      if jittered.Err? {
        return Some(Err(DurationOverflow));
      }
      return Some(Ok(if plan.jitterCap.Some? then Min(jittered.value, plan.jitterCap.value) else jittered.value));
    }
  }

  // ---------------------------------------------------------------- validation

  function SourceError(b: Backoff, retries: nat): Option<BuildError> {
    match b
    case Explicit(delays) =>
      if |delays| != retries then Some(DelayCountMismatch(retries, |delays|)) else None
    case Exponential(base, multiplier, cap) =>
      if multiplier < 1.0 then Some(InvalidBackoffMultiplier)
      else if cap < base then Some(BackoffCapBelowBase)
      else None
    case _ => None
  }

  function PlanOf(b: Backoff, retries: nat, jitter: Option<Jitter>): Plan {
    Plan(b, jitter, if b.Exponential? then Some(b.cap) else None, retries)
  }

  predicate ValidJitter(j: Option<Jitter>) {
    j.Some? ==> 0.0 <= j.value.ratio <= 1.0
  }

  // Some delay of the plan is out of range.
  ghost predicate Overflows(p: Plan)
    requires Sound(p)
  {
    exists k: nat :: k < p.len && Item(p, k).Err?
  }

  lemma BaseErrorIsItemError(p: Plan, k: nat)
    requires Sound(p) && k < p.len
    ensures Item(p.(jitter := None), k).Err? ==> Item(p, k) == Item(p.(jitter := None), k)
  {
    assert Item(p.(jitter := None), k) == BaseDelay(p, k);
  }

  // Runs a plan until its first invalid delay.
  method FirstInvalid(plan: Plan) returns (k: nat)
    requires Sound(plan)
    ensures k <= plan.len && (k < plan.len ==> Item(plan, k).Err?)
    ensures forall i: nat | i < k :: Item(plan, i).Ok?
  {
    hide BaseDelay, Item, Seconds, Factor, Unit, Scaled, XorShift;
    var delays := new DelayIter(plan);
    k := 0;
    while k < plan.len
      invariant delays.Valid() && delays.plan == plan && delays.produced == k <= plan.len
      invariant forall i: nat | i < k :: Item(plan, i).Ok?
    {
      var item := delays.Next();
      if item.value.Err? {
        return;
      }
      k := k + 1;
    }
  }

  /** Validation runs the base delays and then, with jitter, the whole plan; it accepts exactly the
      plans all of whose delays are durations, so running an accepted plan meets no invalid delay. */
  method Build(b: Backoff, retries: nat, jitter: Option<Jitter>) returns (result: Result<Plan, BuildError>)
    requires Durations(b)
    ensures result.Ok? <==>
              SourceError(b, retries).None? && ValidJitter(jitter) && !Overflows(PlanOf(b, retries, jitter))
    ensures result.Ok? ==> result.value == PlanOf(b, retries, jitter)
    ensures result.Ok? ==>
              && result.value.source == b && result.value.jitter == jitter && result.value.len == retries
              && result.value.jitterCap == if b.Exponential? then Some(b.cap) else None
    ensures result.Err? && result.error.DelayCountMismatch? <==> b.Explicit? && |b.delays| != retries
    ensures result.Err? && result.error.DelayCountMismatch? ==> result == Err(DelayCountMismatch(retries, |b.delays|))
    ensures result == Err(InvalidBackoffMultiplier) <==> b.Exponential? && b.multiplier < 1.0
    ensures result == Err(BackoffCapBelowBase) <==> b.Exponential? && b.multiplier >= 1.0 && b.cap < b.base
    ensures result == Err(InvalidJitterRatio) <==>
            SourceError(b, retries).None? && jitter.Some? && !(0.0 <= jitter.value.ratio <= 1.0)
  {
    var error := SourceError(b, retries);
    if error.Some? {
      return Err(error.value);
    }
    var plan := PlanOf(b, retries, jitter);
    hide BaseDelay, Item, Seconds, Factor, Unit, Scaled, XorShift;
    var k := FirstInvalid(plan.(jitter := None));
    if k < retries {
      BaseErrorIsItemError(plan, k);
      BaseDelaysAreDurations(plan, k);
      return Err(DurationOverflow);
    }
    if jitter.None? {
      return Ok(plan);
    }
    if !ValidJitter(jitter) {
      return Err(InvalidJitterRatio);
    }
    k := FirstInvalid(plan);
    if k < retries {
      return Err(DurationOverflow);
    }
    return Ok(plan);
  }
}
