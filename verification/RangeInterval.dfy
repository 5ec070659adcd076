/**
 Range-based retry delays: overlapping "later wins" ranges are compiled into sorted segments, or a
 dense table when that is smaller, and looked up by attempt index.
 */
module RangeInterval {
  import opened Wrappers

  // `duration` applies after failures at attempts `start` to `end`, both included.
  datatype Range = Range(start: nat, end: nat, duration: nat)

  datatype Segment = Segment(start: nat, end: nat, duration: nat)

  datatype Plan = Dense(intervals: seq<nat>) | Segments(segments: seq<Segment>)

  // A range clipped to the attempts that exist; `priority` is its position in the list.
  datatype Span = Span(start: nat, end: nat, priority: nat, duration: nat)

  // ---------------------------------------------------------------- meaning

  predicate Covers(r: Range, i: nat) {
    r.start <= i <= r.end
  }

  // Position of the last range containing `i`.
  function LastCover(ranges: seq<Range>, i: nat): (p: Option<nat>)
    ensures p.Some? ==> p.value < |ranges| && Covers(ranges[p.value], i)
    ensures p.Some? ==> forall q | p.value < q < |ranges| :: !Covers(ranges[q], i)
    ensures p.None? ==> forall q | 0 <= q < |ranges| :: !Covers(ranges[q], i)
  {
    if ranges == [] then None
    else if Covers(ranges[|ranges| - 1], i) then Some(|ranges| - 1)
    else LastCover(ranges[..|ranges| - 1], i)
  }

  function LastWins(ranges: seq<Range>, i: nat): nat {
    match LastCover(ranges, i)
    case None => 0
    case Some(p) => ranges[p].duration
  }

  /** Each range holds from its start through its end, and of those that hold at an index the last one
      decides; where none holds there is no delay. */
  lemma LaterRangeWins(ranges: seq<Range>, i: nat, k: nat)
    ensures k < |ranges| && ranges[k].start <= i <= ranges[k].end &&
            (forall j | k < j < |ranges| :: i < ranges[j].start || ranges[j].end < i) ==>
              LastWins(ranges, i) == ranges[k].duration
    ensures (forall j | 0 <= j < |ranges| :: i < ranges[j].start || ranges[j].end < i) ==> LastWins(ranges, i) == 0
  {
    var p := LastCover(ranges, i);
    if p.Some? {
      assert ranges[p.value].start <= i <= ranges[p.value].end;
    }
    if k < |ranges| && ranges[k].start <= i <= ranges[k].end {
      assert Covers(ranges[k], i);
    }
  }

  // ---------------------------------------------------------------- lookup

  // Number of leading segments that start at or before `i`, found by bisection.
  function PartitionPoint(segments: seq<Segment>, i: nat, lo: nat, hi: nat): (p: nat)
    requires lo <= hi <= |segments|
    ensures lo <= p <= hi
    decreases hi - lo
  {
    if lo == hi then lo
    else
      var mid := lo + (hi - lo) / 2;
      if segments[mid].start <= i then PartitionPoint(segments, i, mid + 1, hi)
      else PartitionPoint(segments, i, lo, mid)
  }

  function DelayAt(plan: Plan, i: nat): nat {
    match plan
    case Dense(intervals) => if i < |intervals| then intervals[i] else 0
    case Segments(segments) =>
      var position := PartitionPoint(segments, i, 0, |segments|);
      if position == 0 then 0
      else if i < segments[position - 1].end then segments[position - 1].duration
      else 0
  }

  function IntervalMillis(total: nat, plan: Plan, i: nat): Option<nat> {
    if i >= total then None else Some(DelayAt(plan, i))
  }

  // Reference lookup: the last segment that starts at or before `i`.
  function Lookup(segments: seq<Segment>, i: nat): nat {
    if segments == [] then 0
    else
      var last := segments[|segments| - 1];
      if last.start <= i then (if i < last.end then last.duration else 0)
      else Lookup(segments[..|segments| - 1], i)
  }

  ghost predicate Sorted(segments: seq<Segment>) {
    && (forall k | 0 <= k < |segments| :: segments[k].start < segments[k].end)
    && (forall k, l | 0 <= k < l < |segments| :: segments[k].end <= segments[l].start)
  }

  lemma {:induction false} PartitionSplits(segments: seq<Segment>, i: nat, lo: nat, hi: nat)
    requires Sorted(segments) && lo <= hi <= |segments|
    requires forall k | 0 <= k < lo :: segments[k].start <= i
    requires forall k | hi <= k < |segments| :: segments[k].start > i
    ensures var p := PartitionPoint(segments, i, lo, hi);
            && (forall k | 0 <= k < p :: segments[k].start <= i)
            && (forall k | p <= k < |segments| :: segments[k].start > i)
    decreases hi - lo
  {
    if lo < hi {
      var mid := lo + (hi - lo) / 2;
      if segments[mid].start <= i {
        PartitionSplits(segments, i, mid + 1, hi);
      } else {
        PartitionSplits(segments, i, lo, mid);
      }
    }
  }

  lemma {:induction false} LookupAtSplit(segments: seq<Segment>, i: nat, p: nat)
    requires p <= |segments|
    requires forall k | 0 <= k < p :: segments[k].start <= i
    requires forall k | p <= k < |segments| :: segments[k].start > i
    ensures Lookup(segments, i) ==
            if p == 0 then 0 else if i < segments[p - 1].end then segments[p - 1].duration else 0
    decreases |segments|
  {
    if |segments| > p {
      LookupAtSplit(segments[..|segments| - 1], i, p);
    }
  }

  // The bisection finds what the reference lookup finds.
  lemma DelayIsLookup(segments: seq<Segment>, i: nat)
    requires Sorted(segments)
    ensures DelayAt(Segments(segments), i) == Lookup(segments, i)
  {
    PartitionSplits(segments, i, 0, |segments|);
    LookupAtSplit(segments, i, PartitionPoint(segments, i, 0, |segments|));
  }

  // ---------------------------------------------------------------- canonical form

  // Sorted, disjoint, within the attempts, never zero, and no two touching segments that agree.
  ghost predicate Canonical(segments: seq<Segment>, total: nat) {
    && Sorted(segments)
    && (forall k | 0 <= k < |segments| :: segments[k].end <= total && segments[k].duration > 0)
    && (forall k | 0 < k < |segments| ::
          segments[k - 1].end == segments[k].start ==> segments[k - 1].duration != segments[k].duration)
  }

  lemma {:induction false} LookupBeyond(segments: seq<Segment>, i: nat)
    requires Sorted(segments)
    requires forall k | 0 <= k < |segments| :: segments[k].end <= i
    ensures Lookup(segments, i) == 0
  {}

  ghost predicate SameMeaning(a: seq<Segment>, b: seq<Segment>) {
    forall i: nat :: Lookup(a, i) == Lookup(b, i)
  }

  lemma CanonicalPrefix(segments: seq<Segment>, total: nat)
    requires Canonical(segments, total) && segments != []
    ensures Canonical(segments[..|segments| - 1], segments[|segments| - 1].start)
  {}

  lemma LastIsNonZero(segments: seq<Segment>, total: nat)
    requires Canonical(segments, total) && segments != []
    ensures Lookup(segments, segments[|segments| - 1].start) > 0
  {
    assert segments[|segments| - 1].start < segments[|segments| - 1].end;
  }

  // What a canonical list says just before its last segment differs from that segment.
  lemma LastIsMaximal(segments: seq<Segment>, total: nat)
    requires Canonical(segments, total) && segments != [] && segments[|segments| - 1].start > 0
    ensures Lookup(segments, segments[|segments| - 1].start - 1) != segments[|segments| - 1].duration
  {
    var n := |segments|;
    var before := segments[n - 1].start - 1;
    if n > 1 {
      assert segments[..n - 1][n - 2] == segments[n - 2];
      assert segments[n - 2].end <= segments[n - 1].start;
    }
  }

  lemma LastAgrees(a: seq<Segment>, b: seq<Segment>, total: nat)
    requires Canonical(a, total) && Canonical(b, total) && a != [] && b != []
    requires SameMeaning(a, b)
    ensures a[|a| - 1].end <= b[|b| - 1].end
    ensures a[|a| - 1].end == b[|b| - 1].end ==> a[|a| - 1].duration == b[|b| - 1].duration
    ensures a[|a| - 1].end == b[|b| - 1].end ==> a[|a| - 1].start >= b[|b| - 1].start
  {
    var x, y := a[|a| - 1], b[|b| - 1];
    var e: nat := x.end - 1;
    if x.end > y.end {
      LookupBeyond(b, e);
    }
    assert Lookup(a, e) == x.duration;
    if x.end == y.end && x.start < y.start {
      assert Lookup(a, y.start - 1) == x.duration;
      assert Lookup(b, y.end - 1) == y.duration;
      LastIsMaximal(b, total);
    }
  }

  lemma PrefixesAgree(a: seq<Segment>, b: seq<Segment>, total: nat)
    requires Canonical(a, total) && Canonical(b, total) && a != [] && b != []
    requires a[|a| - 1] == b[|b| - 1]
    requires SameMeaning(a, b)
    ensures SameMeaning(a[..|a| - 1], b[..|b| - 1])
  {
    var a', b' := a[..|a| - 1], b[..|b| - 1];
    forall i: nat ensures Lookup(a', i) == Lookup(b', i) {
      if i < a[|a| - 1].start {
        assert Lookup(a, i) == Lookup(b, i);
      } else {
        LookupBeyond(a', i);
        LookupBeyond(b', i);
      }
    }
  }

  lemma MeaningIsSymmetric(a: seq<Segment>, b: seq<Segment>)
    requires SameMeaning(a, b)
    ensures SameMeaning(b, a)
  {}

  lemma SomethingIsMeant(a: seq<Segment>, b: seq<Segment>, total: nat)
    requires Canonical(b, total) && b != [] && SameMeaning(a, b)
    ensures a != []
  {
    LastIsNonZero(b, total);
  }

  /** A canonical list is determined by the delays it means: no other canonical list means the same. */
  lemma {:induction false} CanonicalUnique(a: seq<Segment>, b: seq<Segment>, total: nat)
    requires Canonical(a, total) && Canonical(b, total)
    requires SameMeaning(a, b)
    ensures a == b
    decreases |a|
  {
    hide Canonical, Sorted, SameMeaning, Lookup;
    MeaningIsSymmetric(a, b);
    if b != [] {
      SomethingIsMeant(a, b, total);
    }
    if a != [] {
      SomethingIsMeant(b, a, total);
      LastAgrees(a, b, total);
      LastAgrees(b, a, total);
      PrefixesAgree(a, b, total);
      CanonicalPrefix(a, total);
      CanonicalPrefix(b, total);
      CanonicalUnique(a[..|a| - 1], b[..|b| - 1], a[|a| - 1].start);
      assert a == a[..|a| - 1] + [a[|a| - 1]] && b == b[..|b| - 1] + [b[|b| - 1]];
    }
  }

  // ---------------------------------------------------------------- compilation: inputs of the sweep

  function Clipped(r: Range, total: nat): nat {
    if r.end + 1 < total then r.end + 1 else total
  }

  ghost predicate SpanOf(s: Span, ranges: seq<Range>, upTo: nat, total: nat)
    requires upTo <= |ranges|
  {
    && s.priority < upTo && s.start < s.end
    && s.start == ranges[s.priority].start && s.end == Clipped(ranges[s.priority], total)
    && s.duration == ranges[s.priority].duration
  }

  ghost predicate HasPriority(spans: seq<Span>, s: Span, p: nat) {
    s in spans && s.priority == p
  }

  // The spans are the non-empty clipped ranges.
  ghost predicate Normalizes(spans: seq<Span>, ranges: seq<Range>, upTo: nat, total: nat)
    requires upTo <= |ranges|
  {
    && (forall s | s in spans :: SpanOf(s, ranges, upTo, total))
    && (forall p | 0 <= p < upTo && ranges[p].start < Clipped(ranges[p], total) :: exists s :: HasPriority(spans, s, p))
  }

  ghost predicate HasPoint(points: seq<nat>, k: int, x: nat) {
    0 <= k < |points| && points[k] == x
  }

  ghost predicate Has(points: seq<nat>, x: nat) {
    exists k :: HasPoint(points, k, x)
  }

  // Every start and end is a boundary, and so are 0 and `total`.
  ghost predicate Bounds(points: seq<nat>, spans: seq<Span>, total: nat) {
    && Has(points, 0) && Has(points, total)
    && (forall s | s in spans :: Has(points, s.start) && Has(points, s.end))
    && (forall k | 0 <= k < |points| :: points[k] <= total)
  }

  lemma HasMore(points: seq<nat>, more: seq<nat>, x: nat)
    requires Has(points, x) || Has(more, x)
    ensures Has(points + more, x)
  {
    if Has(points, x) {
      var k :| HasPoint(points, k, x);
      assert HasPoint(points + more, k, x);
    } else {
      var k :| HasPoint(more, k, x);
      assert HasPoint(points + more, |points| + k, x);
    }
  }

  lemma BoundsMore(points: seq<nat>, spans: seq<Span>, s: Span, total: nat)
    requires Bounds(points, spans, total) && s.start <= total && s.end <= total
    ensures Bounds(points + [s.start, s.end], spans + [s], total)
  {
    var more := [s.start, s.end];
    assert HasPoint(more, 0, s.start) && HasPoint(more, 1, s.end);
    HasMore(points, more, 0);
    HasMore(points, more, total);
    forall t | t in spans + [s] ensures Has(points + more, t.start) && Has(points + more, t.end) {
      HasMore(points, more, t.start);
      HasMore(points, more, t.end);
    }
  }

  lemma NormalizesMore(spans: seq<Span>, s: Span, ranges: seq<Range>, upTo: nat, total: nat)
    requires upTo < |ranges| && Normalizes(spans, ranges, upTo, total)
    requires SpanOf(s, ranges, upTo + 1, total) && s.priority == upTo
    ensures Normalizes(spans + [s], ranges, upTo + 1, total)
  {
    var more := spans + [s];
    forall p | 0 <= p < upTo + 1 && ranges[p].start < Clipped(ranges[p], total)
      ensures exists t :: HasPriority(more, t, p)
    {
      if p < upTo {
        var t :| HasPriority(spans, t, p);
        assert HasPriority(more, t, p);
      } else {
        assert HasPriority(more, s, p);
      }
    }
  }

  // Clips the ranges, drops the empty ones and collects every boundary.
  method Normalize(total: nat, ranges: seq<Range>) returns (normalized: seq<Span>, boundaries: seq<nat>)
    requires total > 0
    ensures Normalizes(normalized, ranges, |ranges|, total) && |normalized| <= |ranges|
    ensures Bounds(boundaries, normalized, total)
  {
    normalized := [];
    boundaries := [0, total];
    assert HasPoint(boundaries, 0, 0) && HasPoint(boundaries, 1, total);
    for p := 0 to |ranges|
      invariant Normalizes(normalized, ranges, p, total) && |normalized| <= p
      invariant Bounds(boundaries, normalized, total)
    {
      var start := ranges[p].start;
      var endExclusive := if ranges[p].end + 1 < total then ranges[p].end + 1 else total;
      if start >= endExclusive {
        continue;
      }
      var span := Span(start, endExclusive, p, ranges[p].duration);
      NormalizesMore(normalized, span, ranges, p, total);
      BoundsMore(boundaries, normalized, span, total);
      normalized := normalized + [span];
      boundaries := boundaries + [start, endExclusive];
    }
  }

  // ---------------------------------------------------------------- the ordered collections it uses

  // Order of `sort_unstable_by_key(|span| (span.start, span.priority))`.
  predicate StartsBefore(a: Span, b: Span) {
    a.start < b.start || (a.start == b.start && a.priority <= b.priority)
  }

  ghost predicate ByStart(spans: seq<Span>) {
    forall i, j | 0 <= i < j < |spans| :: StartsBefore(spans[i], spans[j])
  }

  function InsertByStart(spans: seq<Span>, s: Span): (r: seq<Span>)
    ensures |r| == |spans| + 1 && forall x :: x in r <==> x in spans || x == s
  {
    if spans == [] || StartsBefore(s, spans[0]) then [s] + spans
    else [spans[0]] + InsertByStart(spans[1..], s)
  }

  lemma {:induction false} InsertByStartSorts(spans: seq<Span>, s: Span)
    requires ByStart(spans)
    ensures ByStart(InsertByStart(spans, s))
  {
    if spans != [] && !StartsBefore(s, spans[0]) {
      InsertByStartSorts(spans[1..], s);
      var r := InsertByStart(spans[1..], s);
      forall j | 0 <= j < |r| ensures StartsBefore(spans[0], r[j]) {
        assert r[j] in r;
        assert r[j] in spans[1..] ==> r[j] in spans;
      }
    }
  }

  method SortByStart(spans: seq<Span>) returns (sorted: seq<Span>)
    ensures ByStart(sorted) && |sorted| == |spans| && forall x :: x in sorted <==> x in spans
  {
    sorted := [];
    for i := 0 to |spans|
      invariant ByStart(sorted) && |sorted| == i && forall x :: x in sorted <==> x in spans[..i]
    {
      assert spans[..i + 1] == spans[..i] + [spans[i]];
      InsertByStartSorts(sorted, spans[i]);
      sorted := InsertByStart(sorted, spans[i]);
    }
    assert spans[..|spans|] == spans;
  }

  ghost predicate Increasing(points: seq<nat>) {
    forall i, j | 0 <= i < j < |points| :: points[i] < points[j]
  }

  function InsertPoint(points: seq<nat>, x: nat): seq<nat> {
    if points == [] || x < points[0] then [x] + points
    else if x == points[0] then points
    else [points[0]] + InsertPoint(points[1..], x)
  }

  lemma HasCons(a: nat, rest: seq<nat>, y: nat)
    ensures Has([a] + rest, y) <==> y == a || Has(rest, y)
  {
    if y == a || Has(rest, y) {
      assert HasPoint([a], 0, a);
      HasMore([a], rest, y);
    }
    if Has([a] + rest, y) && y != a {
      var k :| HasPoint([a] + rest, k, y);
      assert HasPoint(rest, k - 1, y);
    }
  }

  lemma {:induction false} InsertPointHas(points: seq<nat>, x: nat, y: nat)
    ensures Has(InsertPoint(points, x), y) <==> y == x || Has(points, y)
  {
    if points == [] || x < points[0] {
      HasCons(x, points, y);
    } else {
      assert points == [points[0]] + points[1..];
      HasCons(points[0], points[1..], y);
      if x > points[0] {
        InsertPointHas(points[1..], x, y);
        HasCons(points[0], InsertPoint(points[1..], x), y);
      }
    }
  }

  lemma {:induction false} InsertPointSorts(points: seq<nat>, x: nat)
    requires Increasing(points)
    ensures Increasing(InsertPoint(points, x))
  {
    if points != [] && x > points[0] {
      var rest := InsertPoint(points[1..], x);
      InsertPointSorts(points[1..], x);
      forall j | 0 <= j < |rest| ensures points[0] < rest[j] {
        InsertPointHas(points[1..], x, rest[j]);
        assert HasPoint(rest, j, rest[j]);
        if rest[j] != x {
          var i :| HasPoint(points[1..], i, rest[j]);
        }
      }
    }
  }

  // `sort_unstable` followed by `dedup`.
  method SortDedup(points: seq<nat>) returns (sorted: seq<nat>)
    ensures Increasing(sorted) && forall x :: Has(sorted, x) <==> Has(points, x)
  {
    sorted := [];
    for i := 0 to |points|
      invariant Increasing(sorted) && forall x :: Has(sorted, x) <==> Has(points[..i], x)
    {
      InsertPointSorts(sorted, points[i]);
      forall x ensures Has(InsertPoint(sorted, points[i]), x) <==> Has(points[..i + 1], x) {
        InsertPointHas(sorted, points[i], x);
        HasSnoc(points[..i], points[i], x);
        assert points[..i + 1] == points[..i] + [points[i]];
      }
      sorted := InsertPoint(sorted, points[i]);
    }
    assert points[..|points|] == points;
  }

  lemma HasSnoc(points: seq<nat>, a: nat, y: nat)
    ensures Has(points + [a], y) <==> y == a || Has(points, y)
  {
    if y == a || Has(points, y) {
      assert HasPoint([a], 0, a);
      HasMore(points, [a], y);
    }
    if Has(points + [a], y) && y != a {
      var k :| HasPoint(points + [a], k, y);
      assert HasPoint(points, k, y);
    }
  }

  // A max-heap of active spans, as its contents in ascending priority: the last one is its top.
  ghost predicate IsHeap(active: seq<Span>) {
    forall i, j | 0 <= i < j < |active| :: active[i].priority <= active[j].priority
  }

  function HeapPush(active: seq<Span>, s: Span): (r: seq<Span>)
    ensures |r| == |active| + 1 && forall x :: x in r <==> x in active || x == s
  {
    if active == [] || s.priority <= active[0].priority then [s] + active
    else [active[0]] + HeapPush(active[1..], s)
  }

  lemma {:induction false} HeapPushKeeps(active: seq<Span>, s: Span)
    requires IsHeap(active)
    ensures IsHeap(HeapPush(active, s))
  {
    if active != [] && s.priority > active[0].priority {
      HeapPushKeeps(active[1..], s);
      var r := HeapPush(active[1..], s);
      forall j | 0 <= j < |r| ensures active[0].priority <= r[j].priority {
        assert r[j] in r;
        assert r[j] in active[1..] ==> r[j] in active;
      }
    }
  }

  // ---------------------------------------------------------------- the sweep

  // A window is covered by a span wholly or not at all.
  ghost predicate Whole(spans: seq<Span>, start: nat, end: nat) {
    forall s | s in spans :: (s.start <= start || end <= s.start) && (s.end <= start || end <= s.end)
  }

  lemma WindowIsWhole(points: seq<nat>, spans: seq<Span>, total: nat, w: nat)
    requires Increasing(points) && Bounds(points, spans, total) && w + 1 < |points|
    ensures Whole(spans, points[w], points[w + 1]) && points[w] < points[w + 1] <= total
  {
    forall s | s in spans
      ensures (s.start <= points[w] || points[w + 1] <= s.start) && (s.end <= points[w] || points[w + 1] <= s.end)
    {
      var i :| HasPoint(points, i, s.start);
      var j :| HasPoint(points, j, s.end);
    }
  }

  // The pruned heap: spans still open at `start`, below a top that is.
  ghost predicate Open(active: seq<Span>, spans: seq<Span>, start: nat) {
    && IsHeap(active)
    && (forall s | s in active :: s in spans && s.start <= start)
    && (forall s | s in spans && s.start <= start :: s in active || s.end <= start)
  }

  lemma TopIsGreatest(active: seq<Span>, s: Span)
    requires IsHeap(active) && s in active
    ensures s.priority <= active[|active| - 1].priority
  {
    var i :| 0 <= i < |active| && active[i] == s;
  }

  /** Whatever stale spans lie below it, an open top is the last range over the whole window. */
  lemma TopWins(ranges: seq<Range>, total: nat, spans: seq<Span>, active: seq<Span>, start: nat, end: nat, i: nat)
    requires Normalizes(spans, ranges, |ranges|, total) && Open(active, spans, start) && Whole(spans, start, end)
    requires active != [] ==> active[|active| - 1].end > start
    requires start <= i < end <= total
    ensures LastWins(ranges, i) == if active == [] then 0 else active[|active| - 1].duration
  {
    var last := LastCover(ranges, i);
    if last.Some? {
      var s :| HasPriority(spans, s, last.value);
      assert s in active;
      TopIsGreatest(active, s);
    }
    if active != [] {
      var top := active[|active| - 1];
      assert top in active && SpanOf(top, ranges, |ranges|, total);
      assert Covers(ranges[top.priority], i);
    }
  }

  // Appends a window, extending the last segment when it touches and agrees.
  function Extend(segments: seq<Segment>, start: nat, end: nat, duration: nat): seq<Segment> {
    if duration == 0 then segments
    else if segments != [] && segments[|segments| - 1].end == start && segments[|segments| - 1].duration == duration
    then segments[..|segments| - 1] + [segments[|segments| - 1].(end := end)]
    else segments + [Segment(start, end, duration)]
  }

  lemma AppendIsCanonical(segments: seq<Segment>, next: Segment)
    requires Canonical(segments, next.start) && next.start < next.end && next.duration > 0
    requires segments != [] && segments[|segments| - 1].end == next.start ==>
               segments[|segments| - 1].duration != next.duration
    ensures Canonical(segments + [next], next.end)
  {}

  lemma StretchIsCanonical(segments: seq<Segment>, start: nat, end: nat)
    requires Canonical(segments, start) && segments != [] && start < end
    ensures var n := |segments| - 1; Canonical(segments[..n] + [segments[n].(end := end)], end)
  {
    var n := |segments| - 1;
    var r := segments[..n] + [segments[n].(end := end)];
    assert r[n].start == segments[n].start && r[n].duration == segments[n].duration;
    assert forall k | 0 <= k < n :: r[k] == segments[k];
  }

  lemma ExtendIsCanonical(segments: seq<Segment>, start: nat, end: nat, duration: nat)
    requires Canonical(segments, start) && start < end
    ensures Canonical(Extend(segments, start, end, duration), end)
  {
    if duration > 0 {
      if Extend(segments, start, end, duration) == segments + [Segment(start, end, duration)] {
        AppendIsCanonical(segments, Segment(start, end, duration));
      } else {
        StretchIsCanonical(segments, start, end);
      }
    }
  }

  lemma ExtendMeans(segments: seq<Segment>, start: nat, end: nat, duration: nat, i: nat)
    requires Canonical(segments, start) && start < end && i < end
    ensures Lookup(Extend(segments, start, end, duration), i) == if i < start then Lookup(segments, i) else duration
  {
    var r := Extend(segments, start, end, duration);
    if duration == 0 {
      if i >= start {
        LookupBeyond(segments, i);
      }
    } else if r != segments + [Segment(start, end, duration)] {
      assert r[..|r| - 1] == segments[..|segments| - 1];
    } else {
      assert r[..|r| - 1] == segments;
    }
  }

  ghost predicate MeansUpTo(segments: seq<Segment>, ranges: seq<Range>, end: nat) {
    forall i | 0 <= i < end :: Lookup(segments, i) == LastWins(ranges, i)
  }

  // Pushes every span that starts at or before `start`.
  method Activate(spans: seq<Span>, active: seq<Span>, next: nat, start: nat) returns (active': seq<Span>, next': nat)
    requires ByStart(spans) && next <= |spans| && IsHeap(active)
    ensures IsHeap(active') && next <= next' <= |spans|
    ensures forall s :: s in active' <==> s in active || s in spans[next..next']
    ensures forall k | next <= k < next' :: spans[k].start <= start
    ensures forall k | next' <= k < |spans| :: spans[k].start > start
  {
    active', next' := active, next;
    while next' < |spans| && spans[next'].start <= start
      invariant IsHeap(active') && next <= next' <= |spans|
      invariant forall s :: s in active' <==> s in active || s in spans[next..next']
      invariant forall k | next <= k < next' :: spans[k].start <= start
    {
      assert spans[next..next' + 1] == spans[next..next'] + [spans[next']];
      HeapPushKeeps(active', spans[next']);
      active' := HeapPush(active', spans[next']);
      next' := next' + 1;
    }
  }

  // Pops the top while it has ended; entries below the top may stay although they have.
  method Prune(active: seq<Span>, start: nat) returns (active': seq<Span>)
    requires IsHeap(active)
    ensures IsHeap(active') && active' <= active
    ensures active' != [] ==> active'[|active'| - 1].end > start
    ensures forall s | s in active && s !in active' :: s.end <= start
  {
    active' := active;
    while active' != [] && active'[|active'| - 1].end <= start
      invariant IsHeap(active') && active' <= active
      invariant forall s | s in active && s !in active' :: s.end <= start
    {
      var top := active'[|active'| - 1];
      assert forall s | s in active' :: s in active'[..|active'| - 1] || s == top;
      active' := active'[..|active'| - 1];
    }
  }

  // The heap holds every span met so far, except some that have ended.
  ghost predicate Met(active: seq<Span>, met: seq<Span>, at: nat) {
    && IsHeap(active)
    && (forall s | s in active :: s in met)
    && (forall s | s in met :: s.start <= at && (s in active || s.end <= at))
  }

  lemma MetIsOpen(active: seq<Span>, spans: seq<Span>, next: nat, at: nat)
    requires next <= |spans| && Met(active, spans[..next], at)
    requires forall k | next <= k < |spans| :: spans[k].start > at
    ensures Open(active, spans, at)
  {
    assert forall s | s in spans :: s in spans[..next] || s in spans[next..];
  }

  // One window: activates the spans it meets, prunes the top and reads the delay.
  method SweepWindow(spans: seq<Span>, active: seq<Span>, next: nat, ghost before: nat, start: nat)
    returns (active': seq<Span>, next': nat, duration: nat)
    requires ByStart(spans) && next <= |spans| && before <= start && Met(active, spans[..next], before)
    ensures next' <= |spans| && Met(active', spans[..next'], start) && Open(active', spans, start)
    ensures active' != [] ==> active'[|active'| - 1].end > start
    ensures duration == if active' == [] then 0 else active'[|active'| - 1].duration
  {
    var pushed;
    pushed, next' := Activate(spans, active, next, start);
    active' := Prune(pushed, start);
    assert spans[..next'] == spans[..next] + spans[next..next'];
    assert forall s | s in active' :: s in pushed;
    MetIsOpen(active', spans, next', start);
    duration := if active' == [] then 0 else active'[|active'| - 1].duration;
  }

  lemma FirstAndLast(points: seq<nat>, spans: seq<Span>, total: nat)
    requires Increasing(points) && Bounds(points, spans, total) && total > 0
    ensures |points| >= 2 && points[0] == 0 && points[|points| - 1] == total
  {
    var i :| HasPoint(points, i, 0);
    var j :| HasPoint(points, j, total);
  }

  lemma WindowMeans(ranges: seq<Range>, total: nat, spans: seq<Span>, active: seq<Span>, segments: seq<Segment>,
                    start: nat, end: nat, duration: nat)
    requires Normalizes(spans, ranges, |ranges|, total) && Open(active, spans, start) && Whole(spans, start, end)
    requires active != [] ==> active[|active| - 1].end > start
    requires duration == if active == [] then 0 else active[|active| - 1].duration
    requires Canonical(segments, start) && MeansUpTo(segments, ranges, start) && start < end <= total
    ensures Canonical(Extend(segments, start, end, duration), end)
    ensures MeansUpTo(Extend(segments, start, end, duration), ranges, end)
  {
    ExtendIsCanonical(segments, start, end, duration);
    hide Open, Whole, Normalizes, Canonical;
    forall i | 0 <= i < end ensures Lookup(Extend(segments, start, end, duration), i) == LastWins(ranges, i) {
      ExtendMeans(segments, start, end, duration, i);
      if i >= start {
        TopWins(ranges, total, spans, active, start, end, i);
      }
    }
  }

  // Compiles one window on top of the segments before it.
  method SweepStep(total: nat, ghost ranges: seq<Range>, spans: seq<Span>, active: seq<Span>, next: nat,
                   ghost before: nat, segments: seq<Segment>, start: nat, end: nat)
    returns (active': seq<Span>, next': nat, segments': seq<Segment>)
    requires Normalizes(spans, ranges, |ranges|, total) && ByStart(spans) && Whole(spans, start, end)
    requires next <= |spans| && before <= start < end <= total && Met(active, spans[..next], before)
    requires Canonical(segments, start) && MeansUpTo(segments, ranges, start)
    ensures next' <= |spans| && Met(active', spans[..next'], start)
    ensures Canonical(segments', end) && MeansUpTo(segments', ranges, end)
  {
    hide Met, Canonical, MeansUpTo, Open, Whole, Normalizes, ByStart, Extend;
    var duration;
    active', next', duration := SweepWindow(spans, active, next, before, start);
    WindowMeans(ranges, total, spans, active', segments, start, end, duration);
    segments' := PushWindow(segments, start, end, duration);
  }

  lemma NothingSwept(ranges: seq<Range>, spans: seq<Span>)
    ensures Met([], spans[..0], 0) && Canonical([], 0) && MeansUpTo([], ranges, 0)
  {}

  // Cuts the attempts at every boundary and compiles the windows in order.
  method Sweep(total: nat, ghost ranges: seq<Range>, spans: seq<Span>, points: seq<nat>)
    returns (segments: seq<Segment>)
    requires total > 0 && Normalizes(spans, ranges, |ranges|, total) && ByStart(spans)
    requires Increasing(points) && Bounds(points, spans, total)
    ensures Canonical(segments, total) && MeansUpTo(segments, ranges, total)
  {
    hide Met, Canonical, MeansUpTo, Open, Whole, Normalizes, ByStart, Bounds, Increasing;
    FirstAndLast(points, spans, total);
    NothingSwept(ranges, spans);
    var active: seq<Span> := [];
    var next: nat := 0;
    segments := [];
    ghost var before: nat := 0;
    for w := 0 to |points| - 1
      invariant next <= |spans| && before <= points[w] && Met(active, spans[..next], before)
      invariant Canonical(segments, points[w]) && MeansUpTo(segments, ranges, points[w])
    {
      WindowIsWhole(points, spans, total, w);
      var start, end := points[w], points[w + 1];
      active, next, segments := SweepStep(total, ranges, spans, active, next, before, segments, start, end);
      before := start;
    }
  }

  // Appends a window unless it needs no delay, merging it with a touching segment that agrees.
  method PushWindow(segments: seq<Segment>, start: nat, end: nat, duration: nat) returns (r: seq<Segment>)
    ensures r == Extend(segments, start, end, duration)
  {
    if duration == 0 {
      return segments;
    }
    if segments != [] {
      var last := segments[|segments| - 1];
      if last.end == start && last.duration == duration {
        return segments[..|segments| - 1] + [last.(end := end)];
      }
    }
    return segments + [Segment(start, end, duration)];
  }

  // ---------------------------------------------------------------- dense form

  lemma {:induction false} LookupInside(segments: seq<Segment>, k: nat, i: nat)
    requires Sorted(segments) && k < |segments| && segments[k].start <= i < segments[k].end
    ensures Lookup(segments, i) == segments[k].duration
    decreases |segments|
  {
    if k < |segments| - 1 {
      LookupInside(segments[..|segments| - 1], k, i);
    }
  }

  // Writes each segment's delay over its attempts; every segment fits the table.
  method Materialize(total: nat, segments: seq<Segment>) returns (dense: seq<nat>)
    requires Canonical(segments, total)
    ensures |dense| == total && forall i | 0 <= i < total :: dense[i] == Lookup(segments, i)
  {
    var table := new nat[total](_ => 0);
    for k := 0 to |segments|
      invariant forall i | 0 <= i < total :: table[i] == Lookup(segments[..k], i)
    {
      var segment := segments[k];
      assert segments[..k + 1][..k] == segments[..k];
      assert segments[..k + 1] != [] && segments[..k + 1][k] == segment;
      for i := segment.start to segment.end
        invariant forall j | 0 <= j < total ::
                    table[j] == if segment.start <= j < i then segment.duration else Lookup(segments[..k], j)
      {
        table[i] := segment.duration;
      }
      forall i | 0 <= i < total ensures table[i] == Lookup(segments[..k + 1], i) {
        if i >= segment.end {
          LookupBeyond(segments[..k], i);
        }
      }
    }
    assert segments[..|segments|] == segments;
    dense := table[..];
  }

  const SEGMENT_BYTES: nat := 24
  const DELAY_BYTES: nat := 8

  lemma OneSize(segments: seq<Segment>, ranges: seq<Range>, total: nat)
    requires Canonical(segments, total) && MeansUpTo(segments, ranges, total)
    ensures forall other | Canonical(other, total) && MeansUpTo(other, ranges, total) :: |other| == |segments|
  {
    hide Canonical, MeansUpTo;
    forall other | Canonical(other, total) && MeansUpTo(other, ranges, total) ensures |other| == |segments| {
      MeaningDecidesPlan(ranges, ranges, segments, other, total);
    }
  }

  /** Compiles the ranges of a task with `total` attempts. Whatever form the plan takes, it gives each
      attempt the delay of the last range that contains it; the plan is a table exactly if there are few
      attempts or the table is no larger than the canonical segments, which are its other form. */
  method CompileIntervals(total: nat, ranges: seq<Range>) returns (plan: Plan)
    requires total <= U32_MAX
    ensures forall i | 0 <= i < total :: IntervalMillis(total, plan, i) == Some(LastWins(ranges, i))
    ensures forall i: nat | i >= total :: IntervalMillis(total, plan, i) == None
    ensures plan.Dense? ==> |plan.intervals| == total
    ensures plan.Dense? && total > 4096 ==>
              forall segments | Canonical(segments, total) && MeansUpTo(segments, ranges, total) ::
                DELAY_BYTES * total <= SEGMENT_BYTES * |segments|
    ensures plan.Segments? ==> Canonical(plan.segments, total) && MeansUpTo(plan.segments, ranges, total)
    ensures plan.Segments? ==> total > 4096 && DELAY_BYTES * total > SEGMENT_BYTES * |plan.segments|
  {
    if total == 0 {
      return Dense([]);
    }
    var normalized, boundaries := Normalize(total, ranges);
    var sorted := SortByStart(normalized);
    var points := SortDedup(boundaries);
    SameSpans(normalized, sorted, boundaries, points, ranges, total);
    var segments := Sweep(total, ranges, sorted, points);
    if total <= 4096 || DELAY_BYTES * total <= SEGMENT_BYTES * |segments| {
      var dense := Materialize(total, segments);
      OneSize(segments, ranges, total);
      return Dense(dense);
    }
    forall i | 0 <= i < total ensures DelayAt(Segments(segments), i) == LastWins(ranges, i) {
      DelayIsLookup(segments, i);
    }
    return Segments(segments);
  }

  lemma SameSpans(spans: seq<Span>, sorted: seq<Span>, boundaries: seq<nat>, points: seq<nat>,
                  ranges: seq<Range>, total: nat)
    requires Normalizes(spans, ranges, |ranges|, total) && Bounds(boundaries, spans, total)
    requires forall x :: x in sorted <==> x in spans
    requires forall x :: Has(points, x) <==> Has(boundaries, x)
    ensures Normalizes(sorted, ranges, |ranges|, total) && Bounds(points, sorted, total)
  {
    forall p | 0 <= p < |ranges| && ranges[p].start < Clipped(ranges[p], total)
      ensures exists s :: HasPriority(sorted, s, p)
    {
      var s :| HasPriority(spans, s, p);
      assert HasPriority(sorted, s, p);
    }
    forall k | 0 <= k < |points| ensures points[k] <= total {
      assert HasPoint(points, k, points[k]) && Has(boundaries, points[k]);
      var j :| HasPoint(boundaries, j, points[k]);
    }
  }

  // ---------------------------------------------------------------- size of a canonical plan

  datatype Point = Point(at: nat)

  predicate Effective(r: Range, total: nat) {
    r.start < Clipped(r, total)
  }

  function EffectiveCount(ranges: seq<Range>, total: nat): nat {
    if ranges == [] then 0
    else EffectiveCount(ranges[..|ranges| - 1], total) + (if Effective(ranges[|ranges| - 1], total) then 1 else 0)
  }

  ghost function EndPoints(ranges: seq<Range>, total: nat): set<Point> {
    if ranges == [] then {}
    else
      var last := ranges[|ranges| - 1];
      EndPoints(ranges[..|ranges| - 1], total) +
      (if Effective(last, total) then {Point(last.start), Point(Clipped(last, total))} else {})
  }

  lemma {:induction false} EndPointsSize(ranges: seq<Range>, total: nat)
    ensures |EndPoints(ranges, total)| <= 2 * EffectiveCount(ranges, total)
  {
    if ranges != [] {
      var last := ranges[|ranges| - 1];
      EndPointsSize(ranges[..|ranges| - 1], total);
      assert |{Point(last.start), Point(Clipped(last, total))}| <= 2;
    }
  }

  lemma {:induction false} EndPointsHave(ranges: seq<Range>, total: nat, p: nat)
    requires p < |ranges| && Effective(ranges[p], total)
    ensures Point(ranges[p].start) in EndPoints(ranges, total)
    ensures Point(Clipped(ranges[p], total)) in EndPoints(ranges, total)
    decreases |ranges|
  {
    if p < |ranges| - 1 {
      EndPointsHave(ranges[..|ranges| - 1], total, p);
    }
  }

  lemma {:induction false} LookupPrefix(segments: seq<Segment>, k: nat, i: nat)
    requires Sorted(segments) && k < |segments| && i < segments[k].start
    ensures Lookup(segments, i) == Lookup(segments[..k], i)
    decreases |segments|
  {
    var shorter := segments[..|segments| - 1];
    if k < |segments| - 1 {
      LookupPrefix(shorter, k, i);
      assert shorter[..k] == segments[..k];
    }
  }

  lemma CanonicalUpTo(segments: seq<Segment>, total: nat, k: nat)
    requires Canonical(segments, total) && k <= |segments|
    ensures Canonical(segments[..k], total) && Sorted(segments) && Sorted(segments[..k])
  {}

  lemma BeforeSegment(segments: seq<Segment>, total: nat, k: nat)
    requires Canonical(segments, total) && k < |segments| && segments[k].start > 0
    ensures Lookup(segments, segments[k].start - 1) != segments[k].duration
  {
    hide Lookup, Canonical, Sorted;
    var prefix := segments[..k + 1];
    CanonicalUpTo(segments, total, k + 1);
    LookupPrefix(segments, k, segments[k].start - 1);
    LookupPrefix(prefix, k, segments[k].start - 1);
    assert prefix[..k] == segments[..k];
    LastIsMaximal(prefix, total);
  }

  // Each segment starts where some effective range starts or ends.
  lemma StartIsEndPoint(ranges: seq<Range>, segments: seq<Segment>, total: nat, k: nat)
    requires Canonical(segments, total) && MeansUpTo(segments, ranges, total) && k < |segments|
    ensures Point(segments[k].start) in EndPoints(ranges, total)
    ensures exists q :: q in EndPoints(ranges, total) && q.at > segments[k].start
  {
    var x := segments[k].start;
    LookupInside(segments, k, x);
    assert LastWins(ranges, x) == segments[k].duration > 0;
    var p := LastCover(ranges, x).value;
    EndPointsHave(ranges, total, p);
    assert Point(Clipped(ranges[p], total)).at > x;
    if ranges[p].start < x {
      BeforeSegment(segments, total, k);
      assert LastWins(ranges, x - 1) != segments[k].duration;
      var q := LastCover(ranges, x - 1).value;
      assert q > p && !Covers(ranges[q], x);
      EndPointsHave(ranges, total, q);
    }
  }

  ghost function Starts(segments: seq<Segment>): set<Point> {
    set k | 0 <= k < |segments| :: Point(segments[k].start)
  }

  lemma {:induction false} StartsSize(segments: seq<Segment>)
    requires Sorted(segments)
    ensures |Starts(segments)| == |segments|
  {
    if segments != [] {
      var n := |segments| - 1;
      StartsSize(segments[..n]);
      forall k | 0 <= k < n ensures segments[..n][k] == segments[k] {}
      assert Starts(segments) == Starts(segments[..n]) + {Point(segments[n].start)};
      assert Point(segments[n].start) !in Starts(segments[..n]);
    }
  }

  lemma SubsetSize<T>(a: set<T>, b: set<T>)
    requires a <= b
    ensures |a| <= |b|
  {
    assert b == a + (b - a);
  }

  /** A canonical plan of n >= 1 effective ranges has at most 2n - 1 segments. */
  lemma PlanIsCompact(ranges: seq<Range>, segments: seq<Segment>, total: nat)
    requires Canonical(segments, total) && MeansUpTo(segments, ranges, total)
    ensures segments != [] ==> |segments| <= 2 * EffectiveCount(ranges, total) - 1
  {
    if segments != [] {
      var n := |segments| - 1;
      StartIsEndPoint(ranges, segments, total, n);
      var q :| q in EndPoints(ranges, total) && q.at > segments[n].start;
      forall x | x in Starts(segments) ensures x in EndPoints(ranges, total) - {q} {
        var k :| 0 <= k < |segments| && x == Point(segments[k].start);
        StartIsEndPoint(ranges, segments, total, k);
      }
      StartsSize(segments);
      EndPointsSize(ranges, total);
      SubsetSize(Starts(segments), EndPoints(ranges, total) - {q});
    }
  }

  /** Two range lists that mean the same compile to the same segments. */
  lemma MeaningDecidesPlan(r1: seq<Range>, r2: seq<Range>, s1: seq<Segment>, s2: seq<Segment>, total: nat)
    requires Canonical(s1, total) && MeansUpTo(s1, r1, total)
    requires Canonical(s2, total) && MeansUpTo(s2, r2, total)
    requires forall i | 0 <= i < total :: LastWins(r1, i) == LastWins(r2, i)
    ensures s1 == s2
  {
    forall i: nat ensures Lookup(s1, i) == Lookup(s2, i) {
      if i >= total {
        LookupBeyond(s1, i);
        LookupBeyond(s2, i);
      }
    }
    CanonicalUnique(s1, s2, total);
  }
}
