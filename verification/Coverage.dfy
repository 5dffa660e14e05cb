/** Which milliseconds of a channel some source covered, and which of a required range none did. */
module Coverage {
  import opened Ordering
  import opened Text
  import opened Tables
  import opened Journal

  datatype Interval = Interval(start: I64, end: I64, source: string)

  function Saturated(n: int): I64 {
    if n > MAX_I64 then MAX_I64 else if n < -MAX_I64 - 1 then -MAX_I64 - 1 else n
  }

  function Max(a: I64, b: I64): I64 { if a < b then b else a }

  function Min(a: I64, b: I64): I64 { if a < b then a else b }

  ghost predicate Covered(intervals: seq<Interval>, t: int) {
    exists i <- intervals :: i.start <= t <= i.end
  }

  ghost predicate SamePoints(a: seq<Interval>, b: seq<Interval>) {
    forall t: int :: Covered(a, t) <==> Covered(b, t)
  }

  /** The n-th interval does not hold the millisecond. */
  predicate Uncovering(m: seq<Interval>, n: nat, t: int)
    requires n < |m|
  {
    !(m[n].start <= t <= m[n].end)
  }

  /** In order, none empty, at least one uncovered millisecond between neighbours. */
  ghost predicate Separated(m: seq<Interval>) {
    && (forall i :: 0 <= i < |m| ==> m[i].start <= m[i].end)
    && (forall i, j :: 0 <= i < j < |m| ==> m[i].end + 1 < m[j].start)
  }

  function ExtentOrder(): (Interval, Interval) -> bool {
    (a: Interval, b: Interval) => a.start < b.start || (a.start == b.start && a.end <= b.end)
  }

  /* ---------- sources ---------- */

  /** The comma-separated names in a source field. */
  function Names(source: string): seq<string> {
    Split(source, ',')
  }

  /** Add a source to the list unless it is there. */
  function Joined(source: string, more: string): string {
    if more in Names(source) then source else source + "," + more
  }

  lemma {:induction false} JoinedNames(source: string, more: string)
    ensures forall n :: n in Names(Joined(source, more)) <==> n in Names(source) || n in Names(more)
  {
    if more in Names(source) {
      PartsArePlain(source, ',');
      SplitPlain(more, ',');
    } else {
      SplitJoined(source, more, ',');
      assert source + "," + more == source + [','] + more;
    }
  }

  ghost predicate Wider(x: Interval, i: Interval) {
    x.start <= i.start && i.end <= x.end && forall n <- Names(i.source) :: n in Names(x.source)
  }

  lemma {:induction false} KeptConcat(a: seq<Interval>, b: seq<Interval>, i: Interval)
    ensures Kept(a + b, i) <==> Kept(a, i) || Kept(b, i)
    ensures |b| == 1 ==> (Kept(b, i) <==> Wider(b[0], i))
  {
    assert forall x :: x in a + b <==> x in a || x in b;
  }

  /** Every interval that is not empty lies in one of `m` that carries its names. */
  ghost predicate Kept(m: seq<Interval>, i: Interval) {
    exists x <- m :: Wider(x, i)
  }

  /* ---------- merging ---------- */

  /** The last interval grows, or a new one starts. */
  function MergeStep(merged: seq<Interval>, next: Interval): seq<Interval> {
    if next.end < next.start then merged
    else if merged != [] && next.start <= Saturated(merged[|merged| - 1].end + 1) then
      var last := merged[|merged| - 1];
      merged[..|merged| - 1] + [Interval(last.start, Max(last.end, next.end), Joined(last.source, next.source))]
    else merged + [next]
  }

  lemma {:induction false} StepSeparates(m: seq<Interval>, next: Interval)
    requires Separated(m) && (m != [] ==> m[|m| - 1].start <= next.start)
    ensures Separated(MergeStep(m, next))
    ensures MergeStep(m, next) != [] ==> MergeStep(m, next)[|MergeStep(m, next)| - 1].start <= next.start
  {
  }

  lemma {:induction false} CoveredConcat(a: seq<Interval>, b: seq<Interval>, t: int)
    ensures Covered(a + b, t) <==> Covered(a, t) || Covered(b, t)
    ensures |b| == 1 ==> (Covered(b, t) <==> b[0].start <= t <= b[0].end)
  {
    assert forall i :: i in a + b <==> i in a || i in b;
  }

  lemma {:induction false} StepPoints(m: seq<Interval>, next: Interval, t: int)
    requires Separated(m) && (m != [] ==> m[|m| - 1].start <= next.start)
    ensures Covered(MergeStep(m, next), t) <==> Covered(m + [next], t)
  {
    CoveredConcat(m, [next], t);
    if next.start <= next.end && m != [] && next.start <= Saturated(m[|m| - 1].end + 1) {
      var front, last := m[..|m| - 1], m[|m| - 1];
      var grown := Interval(last.start, Max(last.end, next.end), Joined(last.source, next.source));
      assert m == front + [last];
      CoveredConcat(front, [last], t);
      CoveredConcat(front, [grown], t);
    }
  }

  lemma {:induction false} StepKeeps(m: seq<Interval>, next: Interval, i: Interval)
    requires Separated(m) && (m != [] ==> m[|m| - 1].start <= next.start)
    requires Kept(m, i) || (i == next && next.start <= next.end)
    ensures Kept(MergeStep(m, next), i)
  {
    if next.start <= next.end && m != [] && next.start <= Saturated(m[|m| - 1].end + 1) {
      var front, last := m[..|m| - 1], m[|m| - 1];
      var grown := Interval(last.start, Max(last.end, next.end), Joined(last.source, next.source));
      assert m == front + [last];
      KeptConcat(front, [last], i);
      KeptConcat(front, [grown], i);
      JoinedNames(last.source, next.source);
      assert Wider(grown, last) && Wider(grown, next);
    } else {
      KeptConcat(m, [next], i);
      assert Wider(next, next);
    }
  }

  /** What merging has made of the intervals so far. */
  ghost predicate MergedOf(m: seq<Interval>, s: seq<Interval>) {
    && Separated(m) && SamePoints(m, s)
    && forall i <- s :: i.start <= i.end ==> Kept(m, i)
  }

  lemma {:induction false} MergeNext(m: seq<Interval>, s: seq<Interval>, next: Interval)
    requires MergedOf(m, s) && (m != [] ==> m[|m| - 1].start <= next.start)
    ensures MergedOf(MergeStep(m, next), s + [next])
  {
    StepSeparates(m, next);
    forall t: int ensures Covered(MergeStep(m, next), t) <==> Covered(s + [next], t) {
      StepPoints(m, next, t);
      CoveredConcat(m, [next], t);
      CoveredConcat(s, [next], t);
    }
    forall i | i in s + [next] && i.start <= i.end ensures Kept(MergeStep(m, next), i) {
      StepKeeps(m, next, i);
    }
  }

  lemma {:induction false} MergeSorted(m: seq<Interval>, sorted: seq<Interval>, n: nat)
    requires n < |sorted| && Sorted(sorted, ExtentOrder())
    requires MergedOf(m, sorted[..n]) && (m != [] ==> m[|m| - 1].start <= sorted[n].start)
    ensures MergedOf(MergeStep(m, sorted[n]), sorted[..n + 1])
    ensures var out := MergeStep(m, sorted[n]);
            out != [] && n + 1 < |sorted| ==> out[|out| - 1].start <= sorted[n + 1].start
  {
    assert sorted[..n + 1] == sorted[..n] + [sorted[n]];
    MergeNext(m, sorted[..n], sorted[n]);
    StepSeparates(m, sorted[n]);
    assert n + 1 < |sorted| ==> ExtentOrder()(sorted[n], sorted[n + 1]);
  }

  /** One turn of the merging loop. */
  method AddInterval(merged: seq<Interval>, next: Interval) returns (out: seq<Interval>)
    ensures out == MergeStep(merged, next)
  {
    if next.end < next.start {
      return merged;
    }
    if merged != [] && next.start <= Saturated(merged[|merged| - 1].end + 1) {
      var previous := merged[|merged| - 1];
      var source := previous.source;
      if next.source !in Names(previous.source) {
        source := source + "," + next.source;
      }
      return merged[..|merged| - 1] + [Interval(previous.start, Max(previous.end, next.end), source)];
    }
    return merged + [next];
  }

  lemma {:induction false} ExtentsAreTotal()
    ensures Preorder(ExtentOrder())
  {
  }

  /** merge_intervals: the same milliseconds in canonical form, no interval's sources forgotten. */
  method MergeIntervals(intervals: seq<Interval>) returns (merged: seq<Interval>)
    ensures Separated(merged) && SamePoints(merged, intervals)
    ensures forall i <- intervals :: i.start <= i.end ==> Kept(merged, i)
  {
    var sorted := Sort(intervals, ExtentOrder());
    ExtentsAreTotal();
    SortSorts(intervals, ExtentOrder());
    SortKeeps(intervals, ExtentOrder());
    merged := [];
    for n := 0 to |sorted|
      invariant MergedOf(merged, sorted[..n])
      invariant merged != [] && n < |sorted| ==> merged[|merged| - 1].start <= sorted[n].start
    {
      MergeSorted(merged, sorted, n);
      merged := AddInterval(merged, sorted[n]);
    }
    assert sorted[..|sorted|] == sorted;
    SameElements(sorted, intervals, merged);
  }

  lemma {:induction false} SameElements(a: seq<Interval>, b: seq<Interval>, m: seq<Interval>)
    requires MergedOf(m, a) && forall i :: i in a <==> i in b
    ensures MergedOf(m, b)
  {
    forall t: int ensures Covered(a, t) <==> Covered(b, t) {}
  }

  ghost predicate SameExtents(a: seq<Interval>, b: seq<Interval>) {
    |a| == |b| && forall i :: 0 <= i < |a| ==> a[i].start == b[i].start && a[i].end == b[i].end
  }

  lemma {:induction false} FirstExtent(a: seq<Interval>, b: seq<Interval>)
    requires Separated(a) && Separated(b) && SamePoints(a, b) && a != []
    ensures b != [] && a[0].start >= b[0].start
    ensures a[0].start == b[0].start ==> a[0].end <= b[0].end
  {
    assert Covered(a, a[0].start);
    assert Covered(b, a[0].start);
    FirstCovers(a, b[0].end + 1);
    GapAfterFirst(b);
  }

  lemma {:induction false} FirstCovers(m: seq<Interval>, t: int)
    requires m != []
    ensures m[0].start <= t <= m[0].end ==> Covered(m, t)
  {
    assert m[0] in m;
  }

  lemma {:induction false} GapAfterFirst(m: seq<Interval>)
    requires Separated(m) && m != []
    ensures !Covered(m, m[0].end + 1)
  {
    var t := m[0].end + 1;
    forall i | 0 <= i < |m| ensures Uncovering(m, i, t) {
      assert i > 0 ==> m[0].end + 1 < m[i].start;
    }
  }

  lemma {:induction false} RestPoints(a: seq<Interval>, t: int)
    requires Separated(a) && a != []
    ensures Covered(a[1..], t) <==> Covered(a, t) && t > a[0].end
  {
    assert a == [a[0]] + a[1..];
  }

  /** The canonical form of a set of milliseconds is unique, so the order of merging cannot matter. */
  lemma {:induction false} CanonicalIsUnique(a: seq<Interval>, b: seq<Interval>)
    requires Separated(a) && Separated(b) && SamePoints(a, b)
    ensures SameExtents(a, b)
    decreases |a|
  {
    if a == [] {
      if b != [] {
        FirstExtent(b, a);
      }
    } else {
      FirstExtent(a, b);
      FirstExtent(b, a);
      forall t: int ensures Covered(a[1..], t) <==> Covered(b[1..], t) {
        RestPoints(a, t);
        RestPoints(b, t);
      }
      CanonicalIsUnique(a[1..], b[1..]);
    }
  }

  /* ---------- gaps ---------- */

  ghost predicate InGap(gaps: seq<(I64, I64)>, t: int) {
    exists g <- gaps :: g.0 <= t <= g.1
  }

  /** Inside the range, in order, and not empty. */
  ghost predicate GapsOrdered(gaps: seq<(I64, I64)>, from: int, to: int) {
    && (forall i :: 0 <= i < |gaps| ==> from <= gaps[i].0 < gaps[i].1 <= to)
    && (forall i, j :: 0 <= i < j < |gaps| ==> gaps[i].1 <= gaps[j].0)
  }

  /** Strictly inside a gap nothing is covered, and some millisecond of the closed gap is not. */
  ghost predicate IsGap(intervals: seq<Interval>, g: (I64, I64)) {
    && (forall t: int :: g.0 < t < g.1 ==> !Covered(intervals, t))
    && exists t: int :: g.0 <= t <= g.1 && !Covered(intervals, t)
  }

  ghost predicate AllCovered(intervals: seq<Interval>, from: int, to: int) {
    forall t: int :: from <= t <= to ==> Covered(intervals, t)
  }

  /** The state of the sweep: what lies before the cursor is decided. */
  ghost predicate Swept(m: seq<Interval>, n: nat, from: int, to: int, cursor: int, gaps: seq<(I64, I64)>)
    requires n <= |m|
  {
    && from <= cursor && (cursor > from ==> Covered(m, cursor))
    && (forall i :: 0 <= i < n ==> m[i].end <= cursor || m[i].start > to)
    && GapsOrdered(gaps, from, Lesser(cursor, to))
    && (forall g <- gaps :: IsGap(m, g))
    && (forall t: int :: from <= t < cursor && t <= to && !Covered(m, t) ==> InGap(gaps, t))
  }

  function Lesser(a: int, b: int): int { if a < b then a else b }

  lemma {:induction false} NothingBetween(m: seq<Interval>, n: nat, cursor: int, to: int, t: int)
    requires Separated(m) && n <= |m|
    requires forall i :: 0 <= i < n ==> m[i].end <= cursor || m[i].start > to
    requires cursor < t <= to && (n < |m| ==> t < m[n].start)
    ensures !Covered(m, t)
  {
    forall i | 0 <= i < |m| ensures Uncovering(m, i, t) {
      assert i > n ==> m[n].end + 1 < m[i].start;
    }
  }

  /** From the cursor to the next interval is a gap. */
  lemma {:induction false} GapFound(m: seq<Interval>, n: nat, from: int, to: I64, cursor: I64, upto: I64)
    requires Separated(m) && n <= |m| && from <= cursor < upto <= to
    requires cursor > from ==> Covered(m, cursor)
    requires forall i :: 0 <= i < n ==> m[i].end <= cursor || m[i].start > to
    requires if n < |m| then upto == m[n].start else upto == to
    ensures IsGap(m, (cursor, upto))
  {
    forall t: int | cursor < t < upto ensures !Covered(m, t) {
      NothingBetween(m, n, cursor, to, t);
    }
    if n == |m| {
      NothingBetween(m, n, cursor, to, to);
    } else if Covered(m, cursor) {
      var i :| 0 <= i < |m| && m[i].start <= cursor <= m[i].end;
      assert i < n;
      assert m[i].end + 1 < m[n].start;
      NothingBetween(m, n, cursor, to, cursor + 1);
      assert !Covered(m, cursor + 1);
    }
  }

  lemma {:induction false} SweepNext(m: seq<Interval>, n: nat, from: I64, to: I64, cursor: I64, gaps: seq<(I64, I64)>,
                                     cursor': I64, gaps': seq<(I64, I64)>)
    requires Separated(m) && n < |m| && Swept(m, n, from, to, cursor, gaps) && cursor < to
    requires m[n].end >= cursor && m[n].start <= to
    requires gaps' == if m[n].start > cursor then gaps + [(cursor, m[n].start)] else gaps
    requires cursor' == Max(cursor, m[n].end)
    ensures Swept(m, n + 1, from, to, cursor', gaps')
  {
    GapsGrow(m, n, from, to, cursor, gaps, cursor', gaps');
    CursorMoves(m, n, from, to, cursor, gaps, cursor');
    SweptPoints(m, n, from, to, cursor, gaps, cursor', gaps');
  }

  lemma {:induction false} GapsGrow(m: seq<Interval>, n: nat, from: I64, to: I64, cursor: I64, gaps: seq<(I64, I64)>,
                                    cursor': I64, gaps': seq<(I64, I64)>)
    requires Separated(m) && n < |m| && Swept(m, n, from, to, cursor, gaps) && cursor < to
    requires m[n].end >= cursor && m[n].start <= to
    requires gaps' == if m[n].start > cursor then gaps + [(cursor, m[n].start)] else gaps
    requires cursor' == Max(cursor, m[n].end)
    ensures GapsOrdered(gaps', from, Lesser(cursor', to)) && forall g <- gaps' :: IsGap(m, g)
  {
    if m[n].start > cursor {
      GapFound(m, n, from, to, cursor, m[n].start);
      GapAdded(m, from, to, cursor, gaps, m[n].start);
    }
  }

  lemma {:induction false} CursorMoves(m: seq<Interval>, n: nat, from: I64, to: I64, cursor: I64, gaps: seq<(I64, I64)>, cursor': I64)
    requires Separated(m) && n < |m| && Swept(m, n, from, to, cursor, gaps)
    requires m[n].end >= cursor && m[n].start <= to && cursor' == Max(cursor, m[n].end)
    ensures from <= cursor' && (cursor' > from ==> Covered(m, cursor'))
    ensures forall i :: 0 <= i < n + 1 ==> m[i].end <= cursor' || m[i].start > to
  {
    if cursor' > from && cursor' == m[n].end {
      assert m[n] in m;
    }
  }

  lemma {:induction false} SweptPoints(m: seq<Interval>, n: nat, from: I64, to: I64, cursor: I64, gaps: seq<(I64, I64)>,
                                       cursor': I64, gaps': seq<(I64, I64)>)
    requires n < |m| && Swept(m, n, from, to, cursor, gaps)
    requires gaps' == if m[n].start > cursor then gaps + [(cursor, m[n].start)] else gaps
    requires cursor' == Max(cursor, m[n].end)
    ensures forall t: int :: from <= t < cursor' && t <= to && !Covered(m, t) ==> InGap(gaps', t)
  {
    forall t: int | from <= t < cursor' && t <= to && !Covered(m, t) ensures InGap(gaps', t) {
      SweptPoint(m, n, from, to, cursor, gaps, cursor', gaps', t);
    }
  }

  lemma {:induction false} GapAdded(m: seq<Interval>, from: I64, to: I64, cursor: I64, gaps: seq<(I64, I64)>, upto: I64)
    requires from <= cursor < upto <= to
    requires GapsOrdered(gaps, from, cursor) && (forall g <- gaps :: IsGap(m, g)) && IsGap(m, (cursor, upto))
    ensures GapsOrdered(gaps + [(cursor, upto)], from, upto)
    ensures forall g <- gaps + [(cursor, upto)] :: IsGap(m, g)
  {
  }

  lemma {:induction false} SweptPoint(m: seq<Interval>, n: nat, from: I64, to: I64, cursor: I64, gaps: seq<(I64, I64)>,
                                      cursor': I64, gaps': seq<(I64, I64)>, t: int)
    requires n < |m| && Swept(m, n, from, to, cursor, gaps)
    requires gaps' == if m[n].start > cursor then gaps + [(cursor, m[n].start)] else gaps
    requires cursor' == Max(cursor, m[n].end)
    requires from <= t < cursor' && t <= to && !Covered(m, t)
    ensures InGap(gaps', t)
  {
    if t < cursor {
      var g :| g in gaps && g.0 <= t <= g.1;
      assert g in gaps';
    } else {
      assert Uncovering(m, n, t);
      assert (cursor, m[n].start) in gaps';
    }
  }

  /** uncovered_intervals: nothing is missing exactly when every millisecond is covered. */
  method UncoveredIntervals(intervals: seq<Interval>, from: I64, to: I64) returns (gaps: seq<(I64, I64)>)
    ensures gaps == [] <==> from >= to || AllCovered(intervals, from, to)
    ensures GapsOrdered(gaps, from, to)
    ensures forall g <- gaps :: IsGap(intervals, g)
    ensures from < to ==> forall t: int :: from <= t <= to && !Covered(intervals, t) ==> InGap(gaps, t)
  {
    gaps := [];
    if from >= to {
      return;
    }
    var m := MergeIntervals(intervals);
    var cursor := from;
    var n := 0;
    while n < |m| && cursor < to
      invariant n <= |m| && Swept(m, n, from, to, cursor, gaps)
      decreases |m| - n
    {
      var next := m[n];
      if !(next.end < cursor || next.start > to) {
        var gaps', cursor' := gaps, cursor;
        if next.start > cursor {
          gaps' := gaps + [(cursor, Min(next.start, to))];
        }
        cursor' := Max(cursor, next.end);
        SweepNext(m, n, from, to, cursor, gaps, cursor', gaps');
        gaps, cursor := gaps', cursor';
      }
      n := n + 1;
    }
    ghost var before := gaps;
    if cursor < to {
      GapFound(m, n, from, to, cursor, to);
      GapAdded(m, from, to, cursor, gaps, to);
      gaps := gaps + [(cursor, to)];
    }
    forall t: int | from <= t <= to && !Covered(m, t) ensures InGap(gaps, t) {
      LastPoint(m, n, from, to, cursor, before, gaps, t);
    }
    GapsDecide(m, intervals, from, to, gaps);
  }

  lemma {:induction false} LastPoint(m: seq<Interval>, n: nat, from: I64, to: I64, cursor: I64, before: seq<(I64, I64)>, gaps: seq<(I64, I64)>, t: int)
    requires n <= |m| && from < to && Swept(m, n, from, to, cursor, before)
    requires gaps == if cursor < to then before + [(cursor, to)] else before
    requires from <= t <= to && !Covered(m, t)
    ensures InGap(gaps, t)
  {
    if t < cursor {
      var g :| g in before && g.0 <= t <= g.1;
      assert g in gaps;
    } else {
      assert (cursor, to) in gaps;
    }
  }

  lemma {:induction false} GapsDecide(m: seq<Interval>, intervals: seq<Interval>, from: I64, to: I64, gaps: seq<(I64, I64)>)
    requires SamePoints(m, intervals) && GapsOrdered(gaps, from, to) && forall g <- gaps :: IsGap(m, g)
    requires forall t: int :: from <= t <= to && !Covered(m, t) ==> InGap(gaps, t)
    ensures gaps == [] <==> AllCovered(intervals, from, to)
    ensures forall g <- gaps :: IsGap(intervals, g)
  {
    forall g | g in gaps ensures IsGap(intervals, g) {
      assert IsGap(m, g);
      var t: int :| g.0 <= t <= g.1 && !Covered(m, t);
      assert !Covered(intervals, t);
    }
    if gaps != [] {
      assert IsGap(intervals, gaps[0]);
    }
  }

  /* ---------- assessment ---------- */

  datatype CoverageRequest = CoverageRequest(after: Option<I64>, before: Option<I64>, limit: nat, now: I64, retention: I64)

  datatype Assessment = Assessment(sufficient: bool, from: I64, to: I64, gaps: seq<(I64, I64)>)

  function RequiredEnd(request: CoverageRequest): I64 {
    Min(if request.before.Some? then request.before.value else request.now, request.now)
  }

  /** The start asked for, not before what is retained. */
  function RequestedStart(request: CoverageRequest): I64 {
    var horizon := Saturated(RequiredEnd(request) - request.retention);
    Max(if request.after.Some? then request.after.value else horizon, horizon)
  }

  function Earliest(times: seq<I64>): (m: I64)
    requires times != []
    ensures m in times && forall x <- times :: m <= x
  {
    if |times| == 1 then times[0]
    else
      assert times == [times[0]] + times[1..];
      Min(times[0], Earliest(times[1..]))
  }

  /** Nothing to ask for: no records wanted, or an empty window. */
  predicate Vacuous(request: CoverageRequest) {
    request.limit == 0 || (request.after.Some? && request.after.value >= RequiredEnd(request))
  }

  /** With `limit` records in hand only the time since the oldest of the last `limit` matters. */
  function RequiredStart(received: seq<I64>, request: CoverageRequest): I64
    requires request.limit > 0
  {
    if |received| >= request.limit
    then Max(Earliest(received[|received| - request.limit..]), RequestedStart(request))
    else RequestedStart(request)
  }

  /** Every millisecond from the required start to the required end is covered. */
  ghost predicate Sufficient(received: seq<I64>, intervals: seq<Interval>, request: CoverageRequest) {
    Vacuous(request) ||
    var from, to := RequiredStart(received, request), RequiredEnd(request);
    from >= to || AllCovered(intervals, from, to)
  }

  method RequiredFrom(received: seq<I64>, request: CoverageRequest, to: I64) returns (from: I64)
    requires request.limit > 0 && to == RequiredEnd(request)
    ensures from == RequiredStart(received, request)
  {
    var horizon := Saturated(to - request.retention);
    from := Max(if request.after.Some? then request.after.value else horizon, horizon);
    if |received| >= request.limit {
      from := Max(Earliest(received[|received| - request.limit..]), from);
    }
  }

  /** assess_coverage, over the receipt times of the records of the answer. */
  method AssessCoverage(received: seq<I64>, intervals: seq<Interval>, request: CoverageRequest) returns (a: Assessment)
    ensures a.sufficient <==> Sufficient(received, intervals, request)
    ensures a.sufficient <==> a.gaps == []
    ensures a.to == RequiredEnd(request)
    ensures !Vacuous(request) ==> a.from == RequiredStart(received, request)
    ensures Vacuous(request) ==> a.from == a.to
    ensures GapsOrdered(a.gaps, a.from, a.to) && forall g <- a.gaps :: IsGap(intervals, g)
  {
    var to := Min(if request.before.Some? then request.before.value else request.now, request.now);
    if request.limit == 0 || (request.after.Some? && request.after.value >= to) {
      return Assessment(true, to, to, []);
    }
    var from := RequiredFrom(received, request, to);
    var gaps := UncoveredIntervals(intervals, from, to);
    return Assessment(gaps == [], from, to, gaps);
  }

  /**
   * Which milliseconds an answer must have evidence for: up to now and the bound before, from the bound
   * after and the retained time on, and with `limit` records in hand from one of the last `limit` on.
   */
  lemma {:induction false} RequiredByTimes(received: seq<I64>, request: CoverageRequest, t: I64)
    requires request.limit > 0
    ensures var end := if request.before.Some? && request.before.value < request.now then request.before.value else request.now;
            RequiredStart(received, request) <= t <= RequiredEnd(request) <==>
              && t <= end && Saturated(end - request.retention) <= t && (request.after.Some? ==> request.after.value <= t)
              && (|received| >= request.limit ==> exists i :: |received| - request.limit <= i < |received| && received[i] <= t)
  {
    if |received| >= request.limit {
      var last := received[|received| - request.limit..];
      var i :| 0 <= i < |last| && last[i] == Earliest(last);
      assert received[|received| - request.limit + i] == last[i];
      forall j | |received| - request.limit <= j < |received| ensures Earliest(last) <= received[j] {
        assert last[j - (|received| - request.limit)] == received[j];
        assert received[j] in last;
      }
    }
  }

  lemma {:induction false} StartOnlyRises(received: seq<I64>, older: seq<I64>, request: CoverageRequest)
    requires request.limit > 0
    ensures RequiredStart(older + received, request) >= RequiredStart(received, request)
  {
    var all := older + received;
    if |received| >= request.limit {
      assert all[|all| - request.limit..] == received[|received| - request.limit..];
    }
  }

  /** More evidence never makes a sufficient answer insufficient, and older records in front never do. */
  lemma {:induction false} EvidenceOnlyHelps(received: seq<I64>, older: seq<I64>, intervals: seq<Interval>, more: seq<Interval>, request: CoverageRequest)
    requires Sufficient(received, intervals, request)
    ensures Sufficient(older + received, intervals + more, request)
  {
    if !Vacuous(request) {
      StartOnlyRises(received, older, request);
      var from, to := RequiredStart(older + received, request), RequiredEnd(request);
      if from < to {
        forall t: int | from <= t <= to ensures Covered(intervals + more, t) {
          CoveredConcat(intervals, more, t);
        }
      }
    }
  }
}
