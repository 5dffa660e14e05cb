/** Pressure eviction: which whole blocks go when the store outgrows its budget. */
module Eviction {
  import opened Ordering
  import opened Journal

  datatype BlockMeta = BlockMeta(
    id: nat,
    channel: string,
    count: nat,
    bytes: nat,
    lastRequested: nat,
    lastEvent: nat,
    alwaysJoin: bool,
    guarded: bool)     // journal_protected

  datatype Ratios = Ratios(highWater: real, target: real, emergency: real)

  datatype Pressure = Pressure(effectiveMax: nat, ratios: Ratios, floor: nat, requestedAfter: nat)

  datatype Thresholds = Thresholds(target: nat, highWater: nat, emergency: nat)

  datatype Mode = Normal | HighWater | Emergency

  datatype Plan = Plan(mode: Mode, ids: seq<nat>, bytesBefore: nat, bytesAfter: nat, crossedFloor: bool)

  datatype EvictionError = InvalidPolicy | TargetUnreachable

  datatype Planned = Planned(plan: Plan) | Unplanned(error: EvictionError)

  /* ---------- thresholds ---------- */

  predicate InUnit(x: real) { 0.0 <= x <= 1.0 }

  predicate ValidRatios(r: Ratios) {
    InUnit(r.target) && InUnit(r.highWater) && InUnit(r.emergency) && r.target < r.highWater < r.emergency
  }

  /** The whole part of a share of the budget. */
  function Share(max: nat, ratio: real): nat
    requires 0.0 <= ratio
  {
    MulNonNegative(max as real, ratio);
    (max as real * ratio).Floor
  }

  lemma {:induction false} MulNonNegative(a: real, b: real)
    requires 0.0 <= a && 0.0 <= b
    ensures 0.0 <= a * b
  {
  }

  function ThresholdsOf(p: Pressure): Option<Thresholds> {
    if p.effectiveMax == 0 || !ValidRatios(p.ratios) then None
    else Some(Thresholds(Share(p.effectiveMax, p.ratios.target), Share(p.effectiveMax, p.ratios.highWater),
                         Share(p.effectiveMax, p.ratios.emergency)))
  }

  lemma {:induction false} ShareRises(max: nat, a: real, b: real)
    requires 0.0 <= a <= b
    ensures Share(max, a) <= Share(max, b)
  {
    MulNonNegative(max as real, b - a);
    assert max as real * b == max as real * a + max as real * (b - a);
  }

  /** Target, high water and emergency come in this order, all within the budget. */
  lemma {:induction false} ThresholdsRise(p: Pressure)
    requires ThresholdsOf(p).Some?
    ensures var t := ThresholdsOf(p).value; t.target <= t.highWater <= t.emergency <= p.effectiveMax
  {
    ShareRises(p.effectiveMax, p.ratios.target, p.ratios.highWater);
    ShareRises(p.effectiveMax, p.ratios.highWater, p.ratios.emergency);
    ShareRises(p.effectiveMax, p.ratios.emergency, 1.0);
  }

  /* ---------- the order of victims ---------- */

  function Tier(b: BlockMeta, requestedAfter: nat): nat {
    if b.alwaysJoin then 3
    else if b.lastRequested == 0 then 0
    else if b.lastRequested < requestedAfter then 1
    else 2
  }

  function VictimOrder(requestedAfter: nat): (BlockMeta, BlockMeta) -> bool {
    (a: BlockMeta, b: BlockMeta) =>
      var s, t := Tier(a, requestedAfter), Tier(b, requestedAfter);
      s < t || (s == t &&
      (a.lastRequested < b.lastRequested || (a.lastRequested == b.lastRequested &&
      (a.lastEvent < b.lastEvent || (a.lastEvent == b.lastEvent && a.id <= b.id)))))
  }

  lemma {:induction false} VictimsAreOrdered(requestedAfter: nat)
    ensures Preorder(VictimOrder(requestedAfter))
  {
  }

  function Unguarded(): BlockMeta -> bool {
    (b: BlockMeta) => !b.guarded
  }

  function Candidates(blocks: seq<BlockMeta>, requestedAfter: nat): seq<BlockMeta> {
    Sort(Filter(blocks, Unguarded()), VictimOrder(requestedAfter))
  }

  /** The channel has a block that someone asked for lately or that is always joined. */
  predicate Requested(blocks: seq<BlockMeta>, channel: string, requestedAfter: nat) {
    exists b <- blocks :: b.channel == channel && Tier(b, requestedAfter) >= 2
  }

  function FloorOf(blocks: seq<BlockMeta>, channel: string, p: Pressure): nat {
    if Requested(blocks, channel, p.requestedAfter) then p.floor else 0
  }

  /* ---------- sums ---------- */

  function Sum(blocks: seq<BlockMeta>, f: BlockMeta -> nat): nat {
    if blocks == [] then 0 else f(blocks[0]) + Sum(blocks[1..], f)
  }

  function Bytes(): BlockMeta -> nat {
    (b: BlockMeta) => b.bytes
  }

  function CountOf(channel: string): BlockMeta -> nat {
    (b: BlockMeta) => if b.channel == channel then b.count else 0
  }

  function BytesIn(blocks: seq<BlockMeta>): nat { Sum(blocks, Bytes()) }

  function CountIn(blocks: seq<BlockMeta>, channel: string): nat { Sum(blocks, CountOf(channel)) }

  lemma {:induction false} SumConcat(a: seq<BlockMeta>, b: seq<BlockMeta>, f: BlockMeta -> nat)
    ensures Sum(a + b, f) == Sum(a, f) + Sum(b, f)
  {
    if a == [] {
      assert a + b == b;
    } else {
      assert (a + b)[1..] == a[1..] + b;
      SumConcat(a[1..], b, f);
    }
  }

  lemma {:induction false} SumPush(a: seq<BlockMeta>, b: BlockMeta, f: BlockMeta -> nat)
    ensures Sum(a + [b], f) == Sum(a, f) + f(b)
  {
    SumConcat(a, [b], f);
    assert Sum([b], f) == f(b) + Sum([], f);
  }

  lemma {:induction false} SumInsert(b: BlockMeta, s: seq<BlockMeta>, le: (BlockMeta, BlockMeta) -> bool, f: BlockMeta -> nat)
    ensures Sum(Insert(b, s, le), f) == f(b) + Sum(s, f)
  {
    if s == [] || le(b, s[0]) {
      assert ([b] + s)[1..] == s;
    } else {
      SumInsert(b, s[1..], le, f);
      assert ([s[0]] + Insert(b, s[1..], le))[1..] == Insert(b, s[1..], le);
    }
  }

  lemma {:induction false} SumSort(s: seq<BlockMeta>, le: (BlockMeta, BlockMeta) -> bool, f: BlockMeta -> nat)
    ensures Sum(Sort(s, le), f) == Sum(s, f)
  {
    if s != [] {
      SumSort(s[1..], le, f);
      SumInsert(s[0], Sort(s[1..], le), le, f);
    }
  }

  lemma {:induction false} SumFilter(s: seq<BlockMeta>, p: BlockMeta -> bool, f: BlockMeta -> nat)
    ensures Sum(Filter(s, p), f) <= Sum(s, f)
    ensures (forall b <- s :: p(b)) ==> Filter(s, p) == s
  {
    if s != [] {
      SumFilter(s[1..], p, f);
      var rest := Filter(s[1..], p);
      assert ([s[0]] + rest)[1..] == rest && [] + rest == rest;
      assert s == [s[0]] + s[1..];
    }
  }

  function Ids(blocks: seq<BlockMeta>): seq<nat> {
    seq(|blocks|, i requires 0 <= i < |blocks| => blocks[i].id)
  }

  /** What is left of the store, never below zero. */
  function Left(current: nat, selected: seq<BlockMeta>): nat {
    if BytesIn(selected) >= current then 0 else current - BytesIn(selected)
  }

  /** Messages the channel keeps when the selected blocks go. */
  function Kept(blocks: seq<BlockMeta>, selected: seq<BlockMeta>, channel: string): int {
    CountIn(blocks, channel) - CountIn(selected, channel)
  }

  /** Evicting `b` as well takes a requested channel below its floor. */
  predicate Breaches(blocks: seq<BlockMeta>, selected: seq<BlockMeta>, b: BlockMeta, p: Pressure) {
    Kept(blocks, selected, b.channel) - b.count < FloorOf(blocks, b.channel, p)
  }

  /* ---------- the plan as a function ---------- */

  datatype Choice = Choice(selected: seq<BlockMeta>, deferred: seq<BlockMeta>)

  /** Put the block off if evicting it breaches a floor, take it otherwise. */
  function Considered(blocks: seq<BlockMeta>, p: Pressure, b: BlockMeta, c: Choice): Choice {
    if Breaches(blocks, c.selected, b, p) then c.(deferred := c.deferred + [b]) else c.(selected := c.selected + [b])
  }

  /** First pass, over `rest`: take what fits the floors, put off what does not, stop at the target. */
  function FirstPass(blocks: seq<BlockMeta>, current: nat, target: nat, p: Pressure, rest: seq<BlockMeta>, c: Choice): Choice
    decreases |rest|
  {
    if rest == [] || Left(current, c.selected) <= target then c
    else FirstPass(blocks, current, target, p, rest[1..], Considered(blocks, p, rest[0], c))
  }

  /** Second pass, in an emergency: take what was put off, floors or not, until the target is reached. */
  function SecondPass(current: nat, target: nat, rest: seq<BlockMeta>, selected: seq<BlockMeta>): seq<BlockMeta>
    decreases |rest|
  {
    if rest == [] || Left(current, selected) <= target then selected
    else SecondPass(current, target, rest[1..], selected + [rest[0]])
  }

  function ModeOf(t: Thresholds, current: nat): Mode {
    if current < t.highWater then Normal else if current >= t.emergency then Emergency else HighWater
  }

  function FirstChoice(blocks: seq<BlockMeta>, current: nat, t: Thresholds, p: Pressure): Choice {
    FirstPass(blocks, current, t.target, p, Candidates(blocks, p.requestedAfter), Choice([], []))
  }

  /** The blocks to evict, and whether the floors were ignored to choose them. */
  function Selection(blocks: seq<BlockMeta>, current: nat, t: Thresholds, p: Pressure): (seq<BlockMeta>, bool) {
    var c := FirstChoice(blocks, current, t, p);
    if Left(current, c.selected) > t.target && ModeOf(t, current) == Emergency
    then (SecondPass(current, t.target, c.deferred, c.selected), true)
    else (c.selected, false)
  }

  function PlanOf(blocks: seq<BlockMeta>, current: nat, p: Pressure): Planned {
    match ThresholdsOf(p)
    case None => Unplanned(InvalidPolicy)
    case Some(t) =>
      if ModeOf(t, current) == Normal then Planned(Plan(Normal, [], current, current, false))
      else
        var (selected, crossed) := Selection(blocks, current, t, p);
        if Left(current, selected) > t.target then Unplanned(TargetUnreachable)
        else Planned(Plan(ModeOf(t, current), Ids(selected), current, Left(current, selected), crossed))
  }

  /* ---------- what the first pass keeps true ---------- */

  /** The first `k` candidates are chosen or put off, none twice. */
  ghost predicate Split(cands: seq<BlockMeta>, k: nat, c: Choice)
    requires k <= |cands|
  {
    && multiset(c.selected) + multiset(c.deferred) == multiset(cands[..k])
    && (forall ch: string :: CountIn(c.selected, ch) + CountIn(c.deferred, ch) == CountIn(cands[..k], ch))
    && BytesIn(c.selected) + BytesIn(c.deferred) == BytesIn(cands[..k])
  }

  /** What was chosen keeps every floor, what was put off would breach one. */
  ghost predicate Floors(blocks: seq<BlockMeta>, p: Pressure, c: Choice) {
    && (forall d <- c.deferred :: Breaches(blocks, c.selected, d, p))
    && (forall b <- c.selected :: Kept(blocks, c.selected, b.channel) >= FloorOf(blocks, b.channel, p))
  }

  ghost predicate NoStopMissed(current: nat, target: nat, selected: seq<BlockMeta>) {
    selected != [] ==> Left(current, selected[..|selected| - 1]) > target
  }

  ghost predicate ChoiceOk(blocks: seq<BlockMeta>, current: nat, target: nat, p: Pressure, cands: seq<BlockMeta>, k: nat, c: Choice)
    requires k <= |cands|
  {
    Split(cands, k, c) && Floors(blocks, p, c) && NoStopMissed(current, target, c.selected)
  }

  lemma {:induction false} DeferSplits(cands: seq<BlockMeta>, k: nat, c: Choice)
    requires k < |cands| && Split(cands, k, c)
    ensures Split(cands, k + 1, c.(deferred := c.deferred + [cands[k]]))
  {
    assert cands[..k + 1] == cands[..k] + [cands[k]];
    SumPush(cands[..k], cands[k], Bytes());
    SumPush(c.deferred, cands[k], Bytes());
    forall ch: string ensures CountIn(c.selected, ch) + CountIn(c.deferred + [cands[k]], ch) == CountIn(cands[..k + 1], ch) {
      SumPush(cands[..k], cands[k], CountOf(ch));
      SumPush(c.deferred, cands[k], CountOf(ch));
    }
  }

  lemma {:induction false} SelectKeeps(blocks: seq<BlockMeta>, current: nat, target: nat, p: Pressure, cands: seq<BlockMeta>, k: nat, c: Choice)
    requires k < |cands| && ChoiceOk(blocks, current, target, p, cands, k, c) && !Breaches(blocks, c.selected, cands[k], p)
    requires Left(current, c.selected) > target
    ensures ChoiceOk(blocks, current, target, p, cands, k + 1, c.(selected := c.selected + [cands[k]]))
  {
    SelectSplits(cands, k, c);
    SelectFloors(blocks, p, cands[k], c);
    var more := c.selected + [cands[k]];
    assert more[..|more| - 1] == c.selected;
  }

  lemma {:induction false} SelectSplits(cands: seq<BlockMeta>, k: nat, c: Choice)
    requires k < |cands| && Split(cands, k, c)
    ensures Split(cands, k + 1, c.(selected := c.selected + [cands[k]]))
  {
    assert cands[..k + 1] == cands[..k] + [cands[k]];
    SumPush(cands[..k], cands[k], Bytes());
    SumPush(c.selected, cands[k], Bytes());
    forall ch: string ensures CountIn(c.selected + [cands[k]], ch) + CountIn(c.deferred, ch) == CountIn(cands[..k + 1], ch) {
      SumPush(cands[..k], cands[k], CountOf(ch));
      SumPush(c.selected, cands[k], CountOf(ch));
    }
  }

  lemma {:induction false} SelectFloors(blocks: seq<BlockMeta>, p: Pressure, b: BlockMeta, c: Choice)
    requires Floors(blocks, p, c) && !Breaches(blocks, c.selected, b, p)
    ensures Floors(blocks, p, c.(selected := c.selected + [b]))
  {
    var more := c.selected + [b];
    forall ch: string ensures Kept(blocks, more, ch) == Kept(blocks, c.selected, ch) - if ch == b.channel then b.count else 0 {
      SumPush(c.selected, b, CountOf(ch));
    }
    forall x | x in more ensures Kept(blocks, more, x.channel) >= FloorOf(blocks, x.channel, p) {
      assert x == b || x in c.selected;
    }
  }

  lemma {:induction false} ConsiderKeeps(blocks: seq<BlockMeta>, current: nat, target: nat, p: Pressure, cands: seq<BlockMeta>, k: nat, c: Choice)
    requires k < |cands| && ChoiceOk(blocks, current, target, p, cands, k, c) && Left(current, c.selected) > target
    ensures ChoiceOk(blocks, current, target, p, cands, k + 1, Considered(blocks, p, cands[k], c))
  {
    if Breaches(blocks, c.selected, cands[k], p) {
      DeferSplits(cands, k, c);
    } else {
      SelectKeeps(blocks, current, target, p, cands, k, c);
    }
  }

  lemma {:induction false} FirstPassStep(blocks: seq<BlockMeta>, current: nat, target: nat, p: Pressure, cands: seq<BlockMeta>, k: nat, c: Choice)
    requires k <= |cands|
    ensures FirstPass(blocks, current, target, p, cands[k..], c)
         == if k == |cands| || Left(current, c.selected) <= target then c
            else FirstPass(blocks, current, target, p, cands[k + 1..], Considered(blocks, p, cands[k], c))
  {
    if k < |cands| {
      assert cands[k..][0] == cands[k] && cands[k..][1..] == cands[k + 1..];
    }
  }

  /** The first pass ends at some candidate: the last one, or the first at which the target is reached. */
  lemma {:induction false} FirstPassEnds(blocks: seq<BlockMeta>, current: nat, target: nat, p: Pressure, cands: seq<BlockMeta>, k: nat, c: Choice)
    returns (n: nat, out: Choice)
    requires k <= |cands| && ChoiceOk(blocks, current, target, p, cands, k, c)
    ensures n <= |cands| && out == FirstPass(blocks, current, target, p, cands[k..], c)
    ensures ChoiceOk(blocks, current, target, p, cands, n, out)
    ensures n == |cands| || Left(current, out.selected) <= target
    decreases |cands| - k
  {
    FirstPassStep(blocks, current, target, p, cands, k, c);
    if k == |cands| || Left(current, c.selected) <= target {
      n, out := k, c;
    } else {
      ConsiderKeeps(blocks, current, target, p, cands, k, c);
      n, out := FirstPassEnds(blocks, current, target, p, cands, k + 1, Considered(blocks, p, cands[k], c));
    }
  }

  lemma {:induction false} FirstChoiceOk(blocks: seq<BlockMeta>, current: nat, t: Thresholds, p: Pressure) returns (n: nat)
    ensures var cands := Candidates(blocks, p.requestedAfter);
            && n <= |cands| && ChoiceOk(blocks, current, t.target, p, cands, n, FirstChoice(blocks, current, t, p))
            && (n == |cands| || Left(current, FirstChoice(blocks, current, t, p).selected) <= t.target)
  {
    var cands := Candidates(blocks, p.requestedAfter);
    assert cands[..0] == [] && cands[0..] == cands;
    var out;
    n, out := FirstPassEnds(blocks, current, t.target, p, cands, 0, Choice([], []));
  }

  /* ---------- the second pass ---------- */

  /** It takes a prefix of what was put off: all of it, or up to the first block that reaches the target. */
  lemma {:induction false} SecondPassTakes(current: nat, target: nat, rest: seq<BlockMeta>, selected: seq<BlockMeta>) returns (k: nat)
    ensures k <= |rest| && SecondPass(current, target, rest, selected) == selected + rest[..k]
    ensures k == |rest| || Left(current, selected + rest[..k]) <= target
    ensures k > 0 ==> Left(current, selected + rest[..k - 1]) > target
    decreases |rest|
  {
    if rest == [] || Left(current, selected) <= target {
      k := 0;
      assert selected + rest[..0] == selected;
    } else {
      var j := SecondPassTakes(current, target, rest[1..], selected + [rest[0]]);
      k := j + 1;
      assert selected + [rest[0]] + rest[1..][..j] == selected + rest[..k];
      if j > 0 {
        assert selected + [rest[0]] + rest[1..][..j - 1] == selected + rest[..k - 1];
      } else {
        assert selected + rest[..0] == selected;
      }
    }
  }

  /* ---------- theorems about plans ---------- */

  lemma {:induction false} SumPrefix(s: seq<BlockMeta>, k: nat, f: BlockMeta -> nat)
    requires k <= |s|
    ensures Sum(s[..k], f) <= Sum(s, f)
    ensures k < |s| ==> Sum(s[..k], f) + f(s[k]) <= Sum(s, f)
  {
    assert s == s[..k] + s[k..];
    SumConcat(s[..k], s[k..], f);
  }

  lemma {:induction false} CandidateSums(blocks: seq<BlockMeta>, requestedAfter: nat, f: BlockMeta -> nat)
    ensures Sum(Candidates(blocks, requestedAfter), f) == Sum(Filter(blocks, Unguarded()), f) <= Sum(blocks, f)
  {
    SumSort(Filter(blocks, Unguarded()), VictimOrder(requestedAfter), f);
    SumFilter(blocks, Unguarded(), f);
  }

  /** What an emergency adds to the first choice. */
  lemma {:induction false} Added(blocks: seq<BlockMeta>, current: nat, t: Thresholds, p: Pressure) returns (k: nat)
    requires Selection(blocks, current, t, p).1
    ensures var c := FirstChoice(blocks, current, t, p);
            && k <= |c.deferred| && Selection(blocks, current, t, p).0 == c.selected + c.deferred[..k]
            && Left(current, c.selected) > t.target
            && (k == |c.deferred| || Left(current, c.selected + c.deferred[..k]) <= t.target)
            && (k > 0 ==> Left(current, c.selected + c.deferred[..k - 1]) > t.target)
            && (k == 0 ==> Selection(blocks, current, t, p).0 == c.selected)
  {
    var c := FirstChoice(blocks, current, t, p);
    k := SecondPassTakes(current, t.target, c.deferred, c.selected);
    assert c.selected + c.deferred[..0] == c.selected;
  }

  /** The candidates that the first pass got to, as bags and as bytes. */
  lemma {:induction false} FirstSplit(blocks: seq<BlockMeta>, current: nat, t: Thresholds, p: Pressure) returns (n: nat)
    ensures var cands, c := Candidates(blocks, p.requestedAfter), FirstChoice(blocks, current, t, p);
            && n <= |cands| && multiset(c.selected) + multiset(c.deferred) == multiset(cands[..n])
            && BytesIn(c.selected) + BytesIn(c.deferred) == BytesIn(cands[..n])
            && (n == |cands| || Left(current, c.selected) <= t.target)
            && NoStopMissed(current, t.target, c.selected)
  {
    n := FirstChoiceOk(blocks, current, t, p);
  }

  lemma {:induction false} SubBag(a: seq<BlockMeta>, b: seq<BlockMeta>, k: nat, cands: seq<BlockMeta>, n: nat)
    requires n <= |cands| && k <= |b| && multiset(a) + multiset(b) == multiset(cands[..n])
    ensures multiset(a + b[..k]) <= multiset(cands)
  {
    assert cands == cands[..n] + cands[n..];
    assert b == b[..k] + b[k..];
  }

  /** A plan only takes unguarded blocks of the store, each at most once. */
  lemma {:induction false} SelectsCandidates(blocks: seq<BlockMeta>, current: nat, t: Thresholds, p: Pressure)
    ensures multiset(Selection(blocks, current, t, p).0) <= multiset(Filter(blocks, Unguarded()))
  {
    var n := FirstSplit(blocks, current, t, p);
    var c := FirstChoice(blocks, current, t, p);
    SortKeeps(Filter(blocks, Unguarded()), VictimOrder(p.requestedAfter));
    if Selection(blocks, current, t, p).1 {
      var k := Added(blocks, current, t, p);
      SubBag(c.selected, c.deferred, k, Candidates(blocks, p.requestedAfter), n);
    } else {
      assert c.selected + c.deferred[..0] == c.selected;
      SubBag(c.selected, c.deferred, 0, Candidates(blocks, p.requestedAfter), n);
    }
  }

  lemma {:induction false} BagMembers(a: seq<BlockMeta>, b: seq<BlockMeta>)
    requires multiset(a) <= multiset(b)
    ensures forall x <- a :: x in b
  {
    forall x | x in a ensures x in b {
      assert x in multiset(a);
    }
  }

  /** The second pass only adds up to the block that reaches the target. */
  lemma {:induction false} SecondPassStops(current: nat, target: nat, rest: seq<BlockMeta>, selected: seq<BlockMeta>)
    requires Left(current, selected) > target && Left(current, SecondPass(current, target, rest, selected)) <= target
    ensures NoStopMissed(current, target, SecondPass(current, target, rest, selected)) && rest != []
  {
    var k := SecondPassTakes(current, target, rest, selected);
    assert selected + rest[..0] == selected;
    if k > 0 {
      assert (selected + rest[..k])[..|selected| + k - 1] == selected + rest[..k - 1];
    }
  }

  lemma {:induction false} SelectionStops(blocks: seq<BlockMeta>, current: nat, t: Thresholds, p: Pressure)
    requires Left(current, Selection(blocks, current, t, p).0) <= t.target
    ensures NoStopMissed(current, t.target, Selection(blocks, current, t, p).0)
    ensures Selection(blocks, current, t, p).1 ==> FirstChoice(blocks, current, t, p).deferred != []
  {
    var n := FirstSplit(blocks, current, t, p);
    if Selection(blocks, current, t, p).1 {
      var c := FirstChoice(blocks, current, t, p);
      SecondPassStops(current, t.target, c.deferred, c.selected);
    }
  }

  /** A plan brings the store to its target, with no block to spare: without the last one it would not. */
  lemma {:induction false} PlanReachesTarget(blocks: seq<BlockMeta>, current: nat, p: Pressure)
    requires PlanOf(blocks, current, p).Planned? && PlanOf(blocks, current, p).plan.mode != Normal
    ensures var plan, t := PlanOf(blocks, current, p).plan, ThresholdsOf(p).value;
            var selected := Selection(blocks, current, t, p).0;
            && plan.ids == Ids(selected) && plan.bytesAfter == Left(current, selected) <= t.target
            && NoStopMissed(current, t.target, selected)
            && forall b <- selected :: b in blocks && !b.guarded
  {
    var t := ThresholdsOf(p).value;
    SelectsCandidates(blocks, current, t, p);
    BagMembers(Selection(blocks, current, t, p).0, Filter(blocks, Unguarded()));
    SelectionStops(blocks, current, t, p);
  }

  /** A plan says it crossed a floor exactly when a requested channel that lost a block ends below its floor. */
  lemma {:induction false} CrossedExactly(blocks: seq<BlockMeta>, current: nat, p: Pressure)
    requires PlanOf(blocks, current, p).Planned? && PlanOf(blocks, current, p).plan.mode != Normal
    ensures var plan, t := PlanOf(blocks, current, p).plan, ThresholdsOf(p).value;
            var selected := Selection(blocks, current, t, p).0;
            plan.crossedFloor <==> exists b <- selected :: Kept(blocks, selected, b.channel) < FloorOf(blocks, b.channel, p)
  {
    var t := ThresholdsOf(p).value;
    var c := FirstChoice(blocks, current, t, p);
    var n := FirstChoiceOk(blocks, current, t, p);
    if Selection(blocks, current, t, p).1 {
      var k := Added(blocks, current, t, p);
      var d := c.deferred[0];
      assert Breaches(blocks, c.selected, d, p);
      DeferredSinks(blocks, p, c, k);
    }
  }

  /** Taking a block that was put off leaves its channel below the floor. */
  lemma {:induction false} DeferredSinks(blocks: seq<BlockMeta>, p: Pressure, c: Choice, k: nat)
    requires 0 < k <= |c.deferred| && Breaches(blocks, c.selected, c.deferred[0], p)
    ensures var selected := c.selected + c.deferred[..k];
            exists b <- selected :: Kept(blocks, selected, b.channel) < FloorOf(blocks, b.channel, p)
  {
    var d := c.deferred[0];
    SumConcat(c.selected, c.deferred[..k], CountOf(d.channel));
    SumPrefix(c.deferred[..k], 0, CountOf(d.channel));
    assert d == c.deferred[..k][0] && d in c.selected + c.deferred[..k];
  }

  /** In an emergency planning fails exactly when evicting every unguarded block would not be enough. */
  lemma {:induction false} EmergencyFailsExactly(blocks: seq<BlockMeta>, current: nat, p: Pressure)
    requires ThresholdsOf(p).Some? && ModeOf(ThresholdsOf(p).value, current) == Emergency
    ensures PlanOf(blocks, current, p).Unplanned? <==>
              Left(current, Filter(blocks, Unguarded())) > ThresholdsOf(p).value.target
  {
    var t := ThresholdsOf(p).value;
    var cands, c := Candidates(blocks, p.requestedAfter), FirstChoice(blocks, current, t, p);
    var n := FirstSplit(blocks, current, t, p);
    CandidateSums(blocks, p.requestedAfter, Bytes());
    SumPrefix(cands, n, Bytes());
    assert cands[..|cands|] == cands && c.deferred[..|c.deferred|] == c.deferred;
    if Selection(blocks, current, t, p).1 {
      var k := Added(blocks, current, t, p);
      SumConcat(c.selected, c.deferred[..k], Bytes());
      SumPrefix(c.deferred, k, Bytes());
    }
  }

  /** At high water planning fails only when every unguarded block left over would breach its channel's floor. */
  lemma {:induction false} HighWaterFailsWhenNothingFits(blocks: seq<BlockMeta>, current: nat, p: Pressure)
    requires ThresholdsOf(p).Some? && ModeOf(ThresholdsOf(p).value, current) == HighWater
    ensures var t := ThresholdsOf(p).value;
            var selected := FirstChoice(blocks, current, t, p).selected;
            && (PlanOf(blocks, current, p).Unplanned? <==> Left(current, selected) > t.target)
            && (PlanOf(blocks, current, p).Unplanned? ==>
                  && multiset(selected) <= multiset(Filter(blocks, Unguarded()))
                  && forall b <- blocks :: b.guarded || b in selected || Breaches(blocks, selected, b, p))
  {
    var t := ThresholdsOf(p).value;
    var c := FirstChoice(blocks, current, t, p);
    if Left(current, c.selected) > t.target {
      SelectsCandidates(blocks, current, t, p);
      RestBreach(blocks, current, t, p);
    }
  }

  /** When the first pass misses the target, it went over every candidate. */
  lemma {:induction false} RestBreach(blocks: seq<BlockMeta>, current: nat, t: Thresholds, p: Pressure)
    requires Left(current, FirstChoice(blocks, current, t, p).selected) > t.target
    ensures var selected := FirstChoice(blocks, current, t, p).selected;
            forall b <- blocks :: b.guarded || b in selected || Breaches(blocks, selected, b, p)
  {
    var cands := Candidates(blocks, p.requestedAfter);
    var c := FirstChoice(blocks, current, t, p);
    var n := FirstChoiceOk(blocks, current, t, p);
    SortKeeps(Filter(blocks, Unguarded()), VictimOrder(p.requestedAfter));
    assert cands[..|cands|] == cands;
    forall b | b in blocks && !b.guarded ensures b in c.selected || Breaches(blocks, c.selected, b, p) {
      assert b in cands && b in multiset(cands);
      assert b in multiset(c.selected) || b in multiset(c.deferred);
    }
  }

  lemma {:induction false} InBag(a: seq<BlockMeta>, b: seq<BlockMeta>, cands: seq<BlockMeta>, n: nat, x: BlockMeta)
    requires n <= |cands| && multiset(a) + multiset(b) == multiset(cands[..n])
    ensures x in cands[..n] <==> x in a || x in b
  {
    assert x in cands[..n] <==> x in multiset(a) + multiset(b);
  }

  lemma {:induction false} ReachedBefore(cands: seq<BlockMeta>, n: nat, j: nat)
    requires n <= |cands| && j < |cands| && cands[j] in cands[..n] && cands[j] !in cands[..j]
    ensures j < n
  {
    var m :| 0 <= m < n && cands[..n][m] == cands[j];
    forall l | 0 <= l < j ensures cands[l] != cands[j] { assert cands[..j][l] == cands[l]; }
  }

  /** Victims go in order: an unguarded block that comes before a chosen one is chosen too or would breach a floor. */
  lemma {:induction false} VictimsGoInOrder(blocks: seq<BlockMeta>, current: nat, t: Thresholds, p: Pressure, i: nat, j: nat)
    requires i < j < |Candidates(blocks, p.requestedAfter)|
    requires Candidates(blocks, p.requestedAfter)[j] !in Candidates(blocks, p.requestedAfter)[..j]
    requires Candidates(blocks, p.requestedAfter)[j] in FirstChoice(blocks, current, t, p).selected
    ensures var cands, c := Candidates(blocks, p.requestedAfter), FirstChoice(blocks, current, t, p);
            cands[i] in c.selected || Breaches(blocks, c.selected, cands[i], p)
    ensures var cands := Candidates(blocks, p.requestedAfter); VictimOrder(p.requestedAfter)(cands[i], cands[j])
  {
    var cands, c := Candidates(blocks, p.requestedAfter), FirstChoice(blocks, current, t, p);
    var n := FirstChoiceOk(blocks, current, t, p);
    InBag(c.selected, c.deferred, cands, n, cands[j]);
    ReachedBefore(cands, n, j);
    assert cands[..n][i] == cands[i];
    InBag(c.selected, c.deferred, cands, n, cands[i]);
    CandidatesInOrder(blocks, p.requestedAfter, i, j);
  }

  lemma {:induction false} CandidatesInOrder(blocks: seq<BlockMeta>, requestedAfter: nat, i: nat, j: nat)
    requires i < j < |Candidates(blocks, requestedAfter)|
    ensures VictimOrder(requestedAfter)(Candidates(blocks, requestedAfter)[i], Candidates(blocks, requestedAfter)[j])
  {
    VictimsAreOrdered(requestedAfter);
    SortSorts(Filter(blocks, Unguarded()), VictimOrder(requestedAfter));
  }

  /** In a sorted list without ties between them, what comes strictly before stands before. */
  lemma {:induction false} StrictlyBefore(blocks: seq<BlockMeta>, requestedAfter: nat, u: BlockMeta, v: BlockMeta) returns (i: nat, j: nat)
    requires u in blocks && v in blocks && !u.guarded && !v.guarded && !VictimOrder(requestedAfter)(v, u)
    ensures var cands := Candidates(blocks, requestedAfter);
            i < j < |cands| && cands[i] == u && cands[j] == v && v !in cands[..j]
  {
    var cands := Candidates(blocks, requestedAfter);
    VictimsAreOrdered(requestedAfter);
    SortSorts(Filter(blocks, Unguarded()), VictimOrder(requestedAfter));
    SortKeeps(Filter(blocks, Unguarded()), VictimOrder(requestedAfter));
    assert u in cands && v in cands;
    j := FirstAt(cands, v);
    i :| 0 <= i < |cands| && cands[i] == u;
    EitherWay(cands, VictimOrder(requestedAfter), j, i);
  }

  lemma {:induction false} EitherWay(s: seq<BlockMeta>, le: (BlockMeta, BlockMeta) -> bool, j: nat, i: nat)
    requires Sorted(s, le) && Preorder(le) && j < |s| && i < |s|
    ensures le(s[j], s[i]) || i < j
  {
  }

  lemma {:induction false} FirstAt(s: seq<BlockMeta>, x: BlockMeta) returns (j: nat)
    requires x in s
    ensures j < |s| && s[j] == x && x !in s[..j]
  {
    if s[0] == x {
      j := 0;
    } else {
      var k := FirstAt(s[1..], x);
      j := k + 1;
      forall i | 0 <= i < j ensures s[i] != x {
        assert i > 0 ==> s[1..][..k][i - 1] == s[i];
      }
    }
  }

  /**
   * Whom a plan spares longest, in terms of the rows: blocks of channels nobody ever asked for go
   * first, then those last asked for before the time in the policy, then those asked for since, then
   * those always joined; alike in that, by the time they were last asked for, then by their last
   * event, then by id. A block that goes before a chosen one is chosen too or would breach its floor.
   */
  lemma {:induction false} WhoGoesFirst(blocks: seq<BlockMeta>, current: nat, t: Thresholds, p: Pressure, u: BlockMeta, v: BlockMeta)
    requires u in blocks && !u.guarded && v in FirstChoice(blocks, current, t, p).selected
    requires || (!u.alwaysJoin && u.lastRequested == 0 && (v.alwaysJoin || v.lastRequested > 0))
             || (!u.alwaysJoin && u.lastRequested < p.requestedAfter && (v.alwaysJoin || v.lastRequested >= p.requestedAfter) && v.lastRequested > 0)
             || (!u.alwaysJoin && v.alwaysJoin)
             || (u.alwaysJoin == v.alwaysJoin
                 && (u.lastRequested < v.lastRequested || (u.lastRequested == v.lastRequested
                 && (u.lastEvent < v.lastEvent || (u.lastEvent == v.lastEvent && u.id < v.id)))))
    ensures var chosen := FirstChoice(blocks, current, t, p).selected;
            u in chosen || CountIn(blocks, u.channel) - CountIn(chosen, u.channel) - u.count < FloorOf(blocks, u.channel, p)
  {
    var c := FirstChoice(blocks, current, t, p);
    var n := FirstSplit(blocks, current, t, p);
    var cands := Candidates(blocks, p.requestedAfter);
    InBag(c.selected, c.deferred, cands, n, v);
    assert v in cands[..n] && v in cands;
    SortKeeps(Filter(blocks, Unguarded()), VictimOrder(p.requestedAfter));
    var i, j := StrictlyBefore(blocks, p.requestedAfter, u, v);
    VictimsGoInOrder(blocks, current, t, p, i, j);
  }

  /** What a floor is: the policy's for a channel with a block always joined or asked for since, nothing for others. */
  lemma {:induction false} FloorByRows(blocks: seq<BlockMeta>, channel: string, p: Pressure)
    ensures FloorOf(blocks, channel, p)
         == if exists b <- blocks :: b.channel == channel && (b.alwaysJoin || (b.lastRequested > 0 && b.lastRequested >= p.requestedAfter))
            then p.floor else 0
  {
    if Requested(blocks, channel, p.requestedAfter) {
      var b :| b in blocks && b.channel == channel && Tier(b, p.requestedAfter) >= 2;
      assert b.alwaysJoin || (b.lastRequested > 0 && b.lastRequested >= p.requestedAfter);
    } else {
      forall b | b in blocks && b.channel == channel ensures !(b.alwaysJoin || (b.lastRequested > 0 && b.lastRequested >= p.requestedAfter)) {
        assert Tier(b, p.requestedAfter) < 2;
      }
    }
  }

  /** The thresholds are the whole bytes of these shares of the budget. */
  lemma {:induction false} ThresholdsAreShares(p: Pressure)
    requires ThresholdsOf(p).Some?
    ensures var t := ThresholdsOf(p).value; var max := p.effectiveMax as real;
            && t.target as real <= max * p.ratios.target < t.target as real + 1.0
            && t.highWater as real <= max * p.ratios.highWater < t.highWater as real + 1.0
            && t.emergency as real <= max * p.ratios.emergency < t.emergency as real + 1.0
  {
    WholePart(p.effectiveMax, p.ratios.target);
    WholePart(p.effectiveMax, p.ratios.highWater);
    WholePart(p.effectiveMax, p.ratios.emergency);
  }

  lemma {:induction false} WholePart(max: nat, ratio: real)
    requires 0.0 <= ratio
    ensures Share(max, ratio) as real <= max as real * ratio < Share(max, ratio) as real + 1.0
  {
    MulNonNegative(max as real, ratio);
  }

  /** Below high water nothing is planned; from there on a plan is one for high water, or for an emergency from its threshold on. */
  lemma {:induction false} ModeBySize(blocks: seq<BlockMeta>, current: nat, p: Pressure)
    requires PlanOf(blocks, current, p).Planned?
    ensures var plan, t := PlanOf(blocks, current, p).plan, ThresholdsOf(p).value;
            && plan.bytesBefore == current
            && (current < t.highWater ==> plan.ids == [] && plan.bytesAfter == current && plan.mode == Normal)
            && (t.highWater <= current < t.emergency ==> plan.mode == HighWater)
            && (t.highWater <= current && t.emergency <= current ==> plan.mode == Emergency)
  {
  }

  /* ---------- the planner ---------- */

  /** The counters of the loop: what each channel keeps when the selected blocks go. */
  ghost predicate Tracks(retained: map<string, nat>, blocks: seq<BlockMeta>, selected: seq<BlockMeta>) {
    && (forall b <- blocks :: b.channel in retained)
    && forall ch <- retained :: retained[ch] == Kept(blocks, selected, ch)
  }

  /** Messages of every channel, over all blocks. */
  method CountChannels(blocks: seq<BlockMeta>) returns (retained: map<string, nat>)
    ensures Tracks(retained, blocks, [])
  {
    retained := map[];
    for i := 0 to |blocks|
      invariant forall j :: 0 <= j < i ==> blocks[j].channel in retained
      invariant forall ch: string :: (if ch in retained then retained[ch] else 0) == CountIn(blocks[..i], ch)
    {
      assert blocks[..i + 1] == blocks[..i] + [blocks[i]];
      forall ch: string ensures CountIn(blocks[..i + 1], ch) == CountIn(blocks[..i], ch) + CountOf(ch)(blocks[i]) {
        SumPush(blocks[..i], blocks[i], CountOf(ch));
      }
      var c := blocks[i].channel;
      retained := retained[c := (if c in retained then retained[c] else 0) + blocks[i].count];
    }
    assert blocks[..|blocks|] == blocks;
  }

  method RequestedChannels(blocks: seq<BlockMeta>, requestedAfter: nat) returns (requested: set<string>)
    ensures forall ch :: ch in requested <==> Requested(blocks, ch, requestedAfter)
  {
    requested := {};
    for i := 0 to |blocks|
      invariant forall ch :: ch in requested <==> exists j :: 0 <= j < i && blocks[j].channel == ch && Tier(blocks[j], requestedAfter) >= 2
    {
      if Tier(blocks[i], requestedAfter) >= 2 {
        requested := requested + {blocks[i].channel};
      }
    }
    forall ch ensures ch in requested <==> Requested(blocks, ch, requestedAfter) {
      if ch in requested {
        var j :| 0 <= j < |blocks| && blocks[j].channel == ch && Tier(blocks[j], requestedAfter) >= 2;
        assert blocks[j] in blocks;
      }
    }
  }

  lemma {:induction false} CandidateFits(blocks: seq<BlockMeta>, p: Pressure, k: nat, c: Choice)
    requires k < |Candidates(blocks, p.requestedAfter)| && Split(Candidates(blocks, p.requestedAfter), k, c)
    ensures var b := Candidates(blocks, p.requestedAfter)[k]; b in blocks && b.count <= Kept(blocks, c.selected, b.channel)
  {
    var cands := Candidates(blocks, p.requestedAfter);
    var b := cands[k];
    SortKeeps(Filter(blocks, Unguarded()), VictimOrder(p.requestedAfter));
    assert b in cands;
    CandidateSums(blocks, p.requestedAfter, CountOf(b.channel));
    SumPrefix(cands, k, CountOf(b.channel));
  }

  lemma {:induction false} TrackNext(retained: map<string, nat>, blocks: seq<BlockMeta>, selected: seq<BlockMeta>, b: BlockMeta)
    requires Tracks(retained, blocks, selected) && b in blocks && b.count <= Kept(blocks, selected, b.channel)
    ensures Tracks(retained[b.channel := retained[b.channel] - b.count], blocks, selected + [b])
  {
    forall ch <- retained ensures Kept(blocks, selected + [b], ch) == Kept(blocks, selected, ch) - CountOf(ch)(b) {
      SumPush(selected, b, CountOf(ch));
    }
  }

  lemma {:induction false} LeftNext(current: nat, selected: seq<BlockMeta>, b: BlockMeta)
    ensures Left(current, selected + [b]) == if b.bytes >= Left(current, selected) then 0 else Left(current, selected) - b.bytes
  {
    SumPush(selected, b, Bytes());
  }

  /** The loop over the candidates stands at candidate `k` with these counters. */
  ghost predicate Standing(blocks: seq<BlockMeta>, current: nat, t: Thresholds, p: Pressure, k: nat, c: Choice, retained: map<string, nat>)
    requires k <= |Candidates(blocks, p.requestedAfter)|
  {
    && Split(Candidates(blocks, p.requestedAfter), k, c) && Tracks(retained, blocks, c.selected)
    && FirstPass(blocks, current, t.target, p, Candidates(blocks, p.requestedAfter)[k..], c) == FirstChoice(blocks, current, t, p)
  }

  function Lowered(retained: map<string, nat>, b: BlockMeta): map<string, nat>
    requires b.channel in retained && b.count <= retained[b.channel]
  {
    retained[b.channel := retained[b.channel] - b.count]
  }

  /** The counters tell whether the next candidate breaches a floor. */
  lemma {:induction false} CountersTell(blocks: seq<BlockMeta>, p: Pressure, k: nat, c: Choice, retained: map<string, nat>, requested: set<string>)
    requires k < |Candidates(blocks, p.requestedAfter)|
    requires Split(Candidates(blocks, p.requestedAfter), k, c) && Tracks(retained, blocks, c.selected)
    requires forall ch :: ch in requested <==> Requested(blocks, ch, p.requestedAfter)
    ensures var b := Candidates(blocks, p.requestedAfter)[k];
            && b.channel in retained && b.count <= retained[b.channel]
            && (retained[b.channel] - b.count < (if b.channel in requested then p.floor else 0) <==> Breaches(blocks, c.selected, b, p))
  {
    CandidateFits(blocks, p, k, c);
  }

  lemma {:induction false} StandingNext(blocks: seq<BlockMeta>, current: nat, t: Thresholds, p: Pressure, k: nat, c: Choice,
                                        retained: map<string, nat>)
    requires k < |Candidates(blocks, p.requestedAfter)| && Standing(blocks, current, t, p, k, c, retained)
    requires Left(current, c.selected) > t.target
    ensures var b := Candidates(blocks, p.requestedAfter)[k];
            && b.channel in retained && b.count <= retained[b.channel]
            && Standing(blocks, current, t, p, k + 1, Considered(blocks, p, b, c),
                        if Breaches(blocks, c.selected, b, p) then retained else Lowered(retained, b))
  {
    var cands := Candidates(blocks, p.requestedAfter);
    CandidateFits(blocks, p, k, c);
    FirstPassStep(blocks, current, t.target, p, cands, k, c);
    if Breaches(blocks, c.selected, cands[k], p) {
      DeferSplits(cands, k, c);
    } else {
      SelectSplits(cands, k, c);
      TrackNext(retained, blocks, c.selected, cands[k]);
    }
  }

  lemma {:induction false} StandingStarts(blocks: seq<BlockMeta>, current: nat, t: Thresholds, p: Pressure, retained: map<string, nat>)
    requires Tracks(retained, blocks, [])
    ensures Standing(blocks, current, t, p, 0, Choice([], []), retained)
    ensures Left(current, []) == current
  {
    var cands := Candidates(blocks, p.requestedAfter);
    assert cands[..0] == [] && cands[0..] == cands;
  }

  lemma {:induction false} StandingEnds(blocks: seq<BlockMeta>, current: nat, t: Thresholds, p: Pressure, k: nat, c: Choice, retained: map<string, nat>)
    requires k <= |Candidates(blocks, p.requestedAfter)| && Standing(blocks, current, t, p, k, c, retained)
    requires k == |Candidates(blocks, p.requestedAfter)| || Left(current, c.selected) <= t.target
    ensures c == FirstChoice(blocks, current, t, p)
  {
    FirstPassStep(blocks, current, t.target, p, Candidates(blocks, p.requestedAfter), k, c);
  }

  /** One turn of the loop. */
  method Consider(blocks: seq<BlockMeta>, current: nat, p: Pressure, ghost k: nat, b: BlockMeta, c0: Choice, bytes0: nat,
                  retained0: map<string, nat>, requested: set<string>)
    returns (bytesAfter: nat, c: Choice, retained: map<string, nat>)
    requires k < |Candidates(blocks, p.requestedAfter)| && b == Candidates(blocks, p.requestedAfter)[k]
    requires Split(Candidates(blocks, p.requestedAfter), k, c0) && Tracks(retained0, blocks, c0.selected)
    requires forall ch :: ch in requested <==> Requested(blocks, ch, p.requestedAfter)
    requires bytes0 == Left(current, c0.selected)
    ensures b.channel in retained0 && b.count <= retained0[b.channel]
    ensures c == Considered(blocks, p, b, c0) && bytesAfter == Left(current, c.selected)
    ensures retained == if Breaches(blocks, c0.selected, b, p) then retained0 else Lowered(retained0, b)
  {
    CountersTell(blocks, p, k, c0, retained0, requested);
    bytesAfter, c, retained := bytes0, c0, retained0;
    var floor := if b.channel in requested then p.floor else 0;
    if retained[b.channel] - b.count < floor {
      c := c.(deferred := c.deferred + [b]);
    } else {
      LeftNext(current, c.selected, b);
      retained := Lowered(retained, b);
      bytesAfter := if b.bytes >= bytesAfter then 0 else bytesAfter - b.bytes;
      c := c.(selected := c.selected + [b]);
    }
  }

  /** The loop over the candidates. */
  method ChooseVictims(blocks: seq<BlockMeta>, current: nat, t: Thresholds, p: Pressure)
    returns (bytesAfter: nat, c: Choice)
    ensures c == FirstChoice(blocks, current, t, p) && bytesAfter == Left(current, c.selected)
  {
    var candidates := Candidates(blocks, p.requestedAfter);
    var retained: map<string, nat> := CountChannels(blocks);
    var requested := RequestedChannels(blocks, p.requestedAfter);
    bytesAfter, c := current, Choice([], []);
    var k := 0;
    StandingStarts(blocks, current, t, p, retained);
    while k < |candidates| && bytesAfter > t.target
      invariant k <= |candidates| && bytesAfter == Left(current, c.selected)
      invariant Standing(blocks, current, t, p, k, c, retained)
      decreases |candidates| - k
    {
      StandingNext(blocks, current, t, p, k, c, retained);
      bytesAfter, c, retained := Consider(blocks, current, p, k, candidates[k], c, bytesAfter, retained, requested);
      k := k + 1;
    }
    StandingEnds(blocks, current, t, p, k, c, retained);
  }

  /** plan_pressure_eviction. */
  method PlanPressureEviction(blocks: seq<BlockMeta>, current: nat, p: Pressure) returns (r: Planned)
    ensures r == PlanOf(blocks, current, p)
  {
    var thresholds := ThresholdsOf(p);
    if thresholds.None? {
      return Unplanned(InvalidPolicy);
    }
    var t := thresholds.value;
    if current < t.highWater {
      return Planned(Plan(Normal, [], current, current, false));
    }
    var mode := if current >= t.emergency then Emergency else HighWater;
    var bytesAfter, c := ChooseVictims(blocks, current, t, p);
    var selected, deferred := c.selected, c.deferred;
    var crossed := false;
    if bytesAfter > t.target && mode == Emergency {
      crossed := true;
      ghost var first := selected;
      var k := 0;
      assert deferred[0..] == deferred;
      while k < |deferred| && bytesAfter > t.target
        invariant k <= |deferred| && bytesAfter == Left(current, selected)
        invariant SecondPass(current, t.target, deferred[k..], selected) == SecondPass(current, t.target, deferred, first)
        decreases |deferred| - k
      {
        assert deferred[k..][0] == deferred[k] && deferred[k..][1..] == deferred[k + 1..];
        LeftNext(current, selected, deferred[k]);
        bytesAfter := if deferred[k].bytes >= bytesAfter then 0 else bytesAfter - deferred[k].bytes;
        selected := selected + [deferred[k]];
        k := k + 1;
      }
    }
    if bytesAfter > t.target {
      return Unplanned(TargetUnreachable);
    }
    return Planned(Plan(mode, Ids(selected), current, bytesAfter, crossed));
  }

  /* ---------- overhead ---------- */

  /** Every block gets an equal part of the bytes no block accounts for, the first ones one more. */
  function WithShare(b: BlockMeta, i: nat, each: nat, remainder: nat): BlockMeta {
    b.(bytes := b.bytes + each + if i < remainder then 1 else 0)
  }

  function Overhead(blocks: seq<BlockMeta>, physical: nat): nat {
    if BytesIn(blocks) >= physical then 0 else physical - BytesIn(blocks)
  }

  function Distributed(blocks: seq<BlockMeta>, physical: nat): (r: seq<BlockMeta>)
    ensures |r| == |blocks|
  {
    if blocks == [] then []
    else
      var o := Overhead(blocks, physical);
      seq(|blocks|, i requires 0 <= i < |blocks| => WithShare(blocks[i], i, o / |blocks|, o % |blocks|))
  }

  lemma {:induction false} SharesAddUp(blocks: seq<BlockMeta>, out: seq<BlockMeta>, each: nat, remainder: nat, n: nat)
    requires |out| == |blocks| && n <= |blocks|
    requires forall i :: 0 <= i < |blocks| ==> out[i] == WithShare(blocks[i], i, each, remainder)
    ensures BytesIn(out[..n]) == BytesIn(blocks[..n]) + n * each + if n < remainder then n else remainder
  {
    if n > 0 {
      SharesAddUp(blocks, out, each, remainder, n - 1);
      assert blocks[..n] == blocks[..n - 1] + [blocks[n - 1]] && out[..n] == out[..n - 1] + [out[n - 1]];
      SumPush(blocks[..n - 1], blocks[n - 1], Bytes());
      SumPush(out[..n - 1], out[n - 1], Bytes());
      Times(n, each);
    }
  }

  lemma {:induction false} Times(n: nat, each: nat)
    requires n > 0
    ensures n * each == (n - 1) * each + each
  {
  }

  /** After distribution the blocks account for all physical bytes, or for what they did if that was more. */
  lemma {:induction false} DistributionIsExact(blocks: seq<BlockMeta>, physical: nat)
    requires blocks != []
    ensures BytesIn(Distributed(blocks, physical)) == if BytesIn(blocks) > physical then BytesIn(blocks) else physical
  {
    var o, out := Overhead(blocks, physical), Distributed(blocks, physical);
    SharesAddUp(blocks, out, o / |blocks|, o % |blocks|, |blocks|);
    assert blocks[..|blocks|] == blocks && out[..|blocks|] == out;
  }

  /** So an emergency over unguarded blocks never fails. */
  lemma {:induction false} EmergencySucceedsAfterDistribution(blocks: seq<BlockMeta>, physical: nat, p: Pressure)
    requires blocks != [] && forall b <- blocks :: !b.guarded
    requires ThresholdsOf(p).Some? && ModeOf(ThresholdsOf(p).value, physical) == Emergency
    ensures PlanOf(Distributed(blocks, physical), physical, p).Planned?
  {
    var out := Distributed(blocks, physical);
    forall b | b in out ensures !b.guarded {
      var i :| 0 <= i < |out| && out[i] == b;
      assert blocks[i] in blocks;
    }
    SumFilter(out, Unguarded(), Bytes());
    DistributionIsExact(blocks, physical);
    EmergencyFailsExactly(out, physical, p);
  }

  /** The bytes the blocks account for. */
  method Attributed(blocks: array<BlockMeta>) returns (attributed: nat)
    ensures attributed == BytesIn(blocks[..])
  {
    attributed := 0;
    for i := 0 to blocks.Length
      invariant attributed == BytesIn(blocks[..i])
    {
      assert blocks[..i + 1] == blocks[..i] + [blocks[i]];
      SumPush(blocks[..i], blocks[i], Bytes());
      attributed := attributed + blocks[i].bytes;
    }
    assert blocks[..blocks.Length] == blocks[..];
  }

  method AddShares(blocks: array<BlockMeta>, each: nat, all: nat)
    modifies blocks
    ensures forall j :: 0 <= j < blocks.Length ==> blocks[j] == WithShare(old(blocks[j]), j, each, all)
  {
    var remainder := all;
    for i := 0 to blocks.Length
      invariant remainder == if i < all then all - i else 0
      invariant forall j :: 0 <= j < i ==> blocks[j] == WithShare(old(blocks[j]), j, each, all)
      invariant forall j :: i <= j < blocks.Length ==> blocks[j] == old(blocks[j])
    {
      var b := blocks[i];
      b := b.(bytes := b.bytes + each);
      if remainder > 0 {
        b := b.(bytes := b.bytes + 1);
        remainder := remainder - 1;
      }
      blocks[i] := b;
    }
  }

  /** distribute_physical_overhead, in place. */
  method DistributePhysicalOverhead(blocks: array<BlockMeta>, physical: nat)
    modifies blocks
    ensures blocks[..] == Distributed(old(blocks[..]), physical)
  {
    if blocks.Length == 0 {
      return;
    }
    var attributed := Attributed(blocks);
    var overhead := if attributed >= physical then 0 else physical - attributed;
    AddShares(blocks, overhead / blocks.Length, overhead % blocks.Length);
    assert blocks[..] == Distributed(old(blocks[..]), physical);
  }
}
