/** Merging answers that were truncated: what peers, sealed blocks and the open tail say together. */
module Merge {
  import opened Ordering
  import opened Records
  import opened Invariants
  import opened Queries

  /** merge_records: one copy per event, sorted, the newest `limit`. */
  function Merged(local: seq<Record>, peer: seq<Record>, limit: nat): seq<Record> {
    Newest(Sort(Fresh(local + peer, {}), AnswerOrder()), limit)
  }

  /** When events were received and happened: copies of an event agree on both. */
  datatype Times = Times(received: EventKey -> int, event: EventKey -> int)

  ghost predicate Timed(rs: seq<Record>, t: Times) {
    forall r <- rs :: r.receivedAt == t.received(r.key) && r.eventAt == t.event(r.key)
  }

  /** Event `j` is newer than event `k`. */
  predicate Before(t: Times, k: EventKey, j: EventKey) {
    t.received(k) < t.received(j) || (t.received(k) == t.received(j) &&
    (t.event(k) < t.event(j) || (t.event(k) == t.event(j) && k < j)))
  }

  function NewerIn(t: Times, k: EventKey, s: set<EventKey>): set<EventKey> {
    set j <- s | Before(t, k, j)
  }

  function Newer(t: Times, k: EventKey, rs: seq<Record>): set<EventKey> {
    NewerIn(t, k, Keys(rs))
  }

  /** The events with fewer than `limit` newer ones. */
  function Top(t: Times, s: set<EventKey>, limit: nat): set<EventKey> {
    set k <- s | |NewerIn(t, k, s)| < limit
  }

  /** No copy in `all` beats the copy in `some` of the same event. */
  ghost predicate Best(some: seq<Record>, all: seq<Record>) {
    forall u <- all, r <- some :: u.key == r.key ==> u.fidelity.Rank() <= r.fidelity.Rank()
  }

  /**
   * `r` is the answer to ask of `all`: sorted, one best copy per event, and exactly the events that
   * have fewer than `limit` newer ones.
   */
  ghost predicate IsNewest(t: Times, r: seq<Record>, all: seq<Record>, limit: nat) {
    && Sorted(r, AnswerOrder()) && DistinctKeys(r)
    && (forall x <- r :: x in all)
    && Best(r, all)
    && Keys(r) == Top(t, Keys(all), limit)
  }

  /** A copy of the event of `u` in `some` is at least as good as `u`. */
  ghost predicate Matched(some: seq<Record>, u: Record) {
    exists r <- some :: r.key == u.key && r.fidelity.Rank() >= u.fidelity.Rank()
  }

  /** `some` may stand for `all`: what it lacks has `limit` newer events in it. */
  ghost predicate Suffices(t: Times, some: seq<Record>, all: seq<Record>, limit: nat) {
    && (forall x <- some :: x in all)
    && (forall u <- all :: Matched(some, u) || |Newer(t, u.key, some)| >= limit)
  }

  lemma {:induction false} SubsetCard<T>(a: set<T>, b: set<T>)
    requires a <= b
    ensures |a| <= |b|
  {
    var rest := b - a;
    assert a + rest == b;
  }

  lemma {:induction false} KeysWithin(some: seq<Record>, all: seq<Record>)
    requires forall x <- some :: x in all
    ensures Keys(some) <= Keys(all)
  {
  }

  lemma {:induction false} Oldest(t: Times, s: set<EventKey>) returns (k: EventKey)
    requires s != {}
    ensures k in s && forall j <- s - {k} :: Before(t, k, j)
    decreases |s|
  {
    k :| k in s;
    if s != {k} {
      var j := Oldest(t, s - {k});
      var first := if Before(t, k, j) then k else j;
      forall x | x in s - {first} ensures Before(t, first, x) {
        assert x == k || x == j || x in s - {k} - {j};
      }
      k := first;
    }
  }

  /** Some `limit` events of a set, each with fewer than `limit` newer ones in it. */
  lemma {:induction false} TopOf(t: Times, s: set<EventKey>, limit: nat) returns (top: set<EventKey>)
    requires |s| >= limit
    ensures top <= s && |top| == limit
    ensures forall j <- top :: |NewerIn(t, j, s)| < limit
    decreases |s|
  {
    if |s| == limit {
      top := s;
      forall j | j in top ensures |NewerIn(t, j, s)| < limit {
        SubsetCard(NewerIn(t, j, s), s - {j});
      }
    } else {
      var least := Oldest(t, s);
      top := TopOf(t, s - {least}, limit);
      forall j | j in top ensures |NewerIn(t, j, s)| < limit {
        assert Before(t, least, j);
        assert NewerIn(t, j, s) == NewerIn(t, j, s - {least});
      }
    }
  }

  /** The `limit` newest of the events newer than `k` are themselves among the newest. */
  lemma {:induction false} CrowdStays(t: Times, r: seq<Record>, all: seq<Record>, limit: nat, k: EventKey)
    requires IsNewest(t, r, all, limit) && k in Keys(all) && k !in Keys(r)
    ensures |Newer(t, k, r)| >= limit
  {
    var crowd := Newer(t, k, all);
    var top := TopOf(t, crowd, limit);
    forall j | j in top ensures j in Newer(t, k, r) {
      assert NewerIn(t, j, Keys(all)) == NewerIn(t, j, crowd);
      assert j in Top(t, Keys(all), limit);
    }
    SubsetCard(top, Newer(t, k, r));
  }

  /** The newest of an answer may stand for the whole of it. */
  lemma {:induction false} NewestSuffices(t: Times, r: seq<Record>, all: seq<Record>, limit: nat)
    requires IsNewest(t, r, all, limit)
    ensures Suffices(t, r, all, limit)
  {
    forall u | u in all ensures Matched(r, u) || |Newer(t, u.key, r)| >= limit {
      if u.key in Keys(r) {
        var x :| x in r && x.key == u.key;
        assert x.fidelity.Rank() >= u.fidelity.Rank();
      } else {
        CrowdStays(t, r, all, limit, u.key);
      }
    }
  }

  lemma {:induction false} Together(t: Times, a: seq<Record>, allA: seq<Record>, b: seq<Record>, allB: seq<Record>, limit: nat)
    requires Suffices(t, a, allA, limit) && Suffices(t, b, allB, limit)
    ensures Suffices(t, a + b, allA + allB, limit)
  {
    KeysWithin(a, a + b);
    KeysWithin(b, a + b);
    forall u | u in allA + allB ensures Matched(a + b, u) || |Newer(t, u.key, a + b)| >= limit {
      SubsetCard(Newer(t, u.key, a), Newer(t, u.key, a + b));
      SubsetCard(Newer(t, u.key, b), Newer(t, u.key, a + b));
    }
  }

  /** An event of `all` that `some` lacks has `limit` newer ones in `some`. */
  lemma {:induction false} Crowded(t: Times, some: seq<Record>, all: seq<Record>, limit: nat, k: EventKey)
    requires Suffices(t, some, all, limit) && k in Keys(all) && k !in Keys(some)
    ensures |Newer(t, k, some)| >= limit
  {
    var u :| u in all && u.key == k;
    assert !Matched(some, u);
  }

  lemma {:induction false} TopOfEnough(t: Times, some: seq<Record>, all: seq<Record>, limit: nat, k: EventKey)
    requires Suffices(t, some, all, limit) && k in Keys(all)
    ensures k in Top(t, Keys(some), limit) <==> |Newer(t, k, all)| < limit
  {
    KeysWithin(some, all);
    SubsetCard(Newer(t, k, some), Newer(t, k, all));
    if k !in Keys(some) {
      Crowded(t, some, all, limit, k);
    } else if |Newer(t, k, some)| < limit {
      NewerSame(t, some, all, limit, k);
    }
  }

  /** What is newer than an event with few newer ones in `some` is not missing from `some`. */
  lemma {:induction false} NewerSame(t: Times, some: seq<Record>, all: seq<Record>, limit: nat, k: EventKey)
    requires Suffices(t, some, all, limit) && |Newer(t, k, some)| < limit
    ensures Newer(t, k, all) == Newer(t, k, some)
  {
    KeysWithin(some, all);
    forall j | j in Newer(t, k, all) ensures j in Newer(t, k, some) {
      if j !in Keys(some) {
        Crowded(t, some, all, limit, j);
        BeforeOn(t, k, j, Keys(some));
        SubsetCard(Newer(t, j, some), Newer(t, k, some));
      }
    }
  }

  lemma {:induction false} BeforeOn(t: Times, k: EventKey, j: EventKey, s: set<EventKey>)
    requires Before(t, k, j)
    ensures NewerIn(t, j, s) <= NewerIn(t, k, s)
  {
  }

  /** The newest of what may stand for `all` are the newest of `all`. */
  lemma {:induction false} NewestOfEnough(t: Times, r: seq<Record>, some: seq<Record>, all: seq<Record>, limit: nat)
    requires IsNewest(t, r, some, limit) && Suffices(t, some, all, limit)
    ensures IsNewest(t, r, all, limit)
  {
    KeysWithin(some, all);
    BestOfEnough(t, r, some, all, limit);
    assert Keys(r) == Top(t, Keys(all), limit) by {
      TopSame(t, some, all, limit);
    }
  }

  lemma {:induction false} TopSame(t: Times, some: seq<Record>, all: seq<Record>, limit: nat)
    requires Suffices(t, some, all, limit)
    ensures Top(t, Keys(some), limit) == Top(t, Keys(all), limit)
  {
    KeysWithin(some, all);
    forall k | k in Keys(all) ensures k in Top(t, Keys(some), limit) <==> k in Top(t, Keys(all), limit) {
      TopOfEnough(t, some, all, limit, k);
    }
  }

  lemma {:induction false} BestOfEnough(t: Times, r: seq<Record>, some: seq<Record>, all: seq<Record>, limit: nat)
    requires IsNewest(t, r, some, limit) && Suffices(t, some, all, limit)
    ensures Best(r, all)
  {
    forall u, x | u in all && x in r && u.key == x.key ensures u.fidelity.Rank() <= x.fidelity.Rank() {
      assert x.key in Keys(some) && x.key in Keys(r);
      assert Matched(some, u);
    }
  }

  /** Sorted by AnswerOrder means: later positions hold newer events. */
  lemma {:induction false} NewerFollow(t: Times, rs: seq<Record>, i: nat)
    requires Timed(rs, t) && Sorted(rs, AnswerOrder()) && DistinctKeys(rs) && i < |rs|
    ensures |Newer(t, rs[i].key, rs)| == |rs| - 1 - i
  {
    var later := rs[i + 1..];
    forall j | 0 <= j < |rs| ensures rs[j].key in Newer(t, rs[i].key, rs) <==> i < j {
      assert j < i ==> AnswerOrder()(rs[j], rs[i]);
      assert i < j ==> AnswerOrder()(rs[i], rs[j]);
    }
    forall k ensures k in Keys(later) <==> k in Newer(t, rs[i].key, rs) {
      if k in Keys(later) {
        var j :| 0 <= j < |later| && later[j].key == k;
        assert later[j] == rs[i + 1 + j];
      }
      if k in Newer(t, rs[i].key, rs) {
        var j :| 0 <= j < |rs| && rs[j].key == k;
        assert rs[j] == later[j - i - 1];
      }
    }
    assert Keys(later) == Newer(t, rs[i].key, rs);
    KeysCount(later);
  }

  lemma {:induction false} KeysPush(front: seq<Record>, r: Record)
    ensures Keys(front + [r]) == Keys(front) + {r.key}
  {
    KeysConcat(front, [r]);
    assert Keys([r]) == {r.key};
  }

  lemma {:induction false} LastIsNew(rs: seq<Record>)
    requires DistinctKeys(rs) && rs != []
    ensures DistinctKeys(rs[..|rs| - 1]) && rs[|rs| - 1].key !in Keys(rs[..|rs| - 1])
  {
    var front := rs[..|rs| - 1];
    forall i | 0 <= i < |front| ensures front[i].key != rs[|rs| - 1].key {
      assert front[i] == rs[i];
    }
  }

  lemma {:induction false} KeysCount(rs: seq<Record>)
    requires DistinctKeys(rs)
    ensures |Keys(rs)| == |rs|
  {
    if rs != [] {
      var front, r := rs[..|rs| - 1], rs[|rs| - 1];
      LastIsNew(rs);
      KeysCount(front);
      KeysPush(front, r);
      assert rs == front + [r];
    }
  }

  /** Truncating sorted, distinct records keeps exactly those with few newer ones. */
  lemma {:induction false} CutKeepsNewest(t: Times, sorted: seq<Record>, limit: nat, k: EventKey)
    requires Timed(sorted, t) && Sorted(sorted, AnswerOrder()) && DistinctKeys(sorted) && k in Keys(sorted)
    ensures k in Keys(Newest(sorted, limit)) <==> |Newer(t, k, sorted)| < limit
  {
    var i :| 0 <= i < |sorted| && sorted[i].key == k;
    NewerFollow(t, sorted, i);
    var cut := if |sorted| > limit then |sorted| - limit else 0;
    var out := sorted[cut..];
    assert Newest(sorted, limit) == out;
    assert i >= cut ==> out[i - cut] == sorted[i];
    if k in Keys(out) {
      var j :| 0 <= j < |out| && out[j].key == k;
      assert sorted[cut + j].key == sorted[i].key;
    }
  }

  lemma {:induction false} OnlyOnce(rs: seq<Record>, x: Record)
    requires DistinctKeys(rs)
    ensures multiset(rs)[x] <= 1
  {
    if rs != [] {
      var front, r := rs[..|rs| - 1], rs[|rs| - 1];
      assert rs == front + [r];
      OnlyOnce(front, x);
      forall i | 0 <= i < |front| ensures front[i] != r {
        assert rs[i].key != rs[|rs| - 1].key;
      }
    }
  }

  lemma {:induction false} SortDistinct(rs: seq<Record>)
    requires DistinctKeys(rs)
    ensures DistinctKeys(Sort(rs, AnswerOrder()))
  {
    var s := Sort(rs, AnswerOrder());
    SortKeeps(rs, AnswerOrder());
    forall i, j | 0 <= i < j < |s| ensures s[i].key != s[j].key {
      if s[i].key == s[j].key {
        SameKeySame(rs, s[i], s[j]);
        assert s == s[..i] + [s[i]] + s[i + 1..j] + [s[j]] + s[j + 1..];
        OnlyOnce(rs, s[i]);
        assert false;
      }
    }
  }

  lemma {:induction false} SameKeySame(rs: seq<Record>, x: Record, y: Record)
    requires DistinctKeys(rs) && x in rs && y in rs && x.key == y.key
    ensures x == y
  {
  }

  /** Truncating sorted distinct best copies gives the newest of them. */
  lemma {:induction false} CutIsNewest(t: Times, sorted: seq<Record>, all: seq<Record>, limit: nat)
    requires Sorted(sorted, AnswerOrder()) && DistinctKeys(sorted)
    requires Timed(all, t) && Keys(sorted) == Keys(all) && Best(sorted, all) && forall x <- sorted :: x in all
    ensures IsNewest(t, Newest(sorted, limit), all, limit)
  {
    KeysWithin(Newest(sorted, limit), sorted);
    forall k | k in Keys(all) ensures k in Keys(Newest(sorted, limit)) <==> k in Top(t, Keys(all), limit) {
      CutKeepsNewest(t, sorted, limit, k);
    }
  }

  /** So does sorting and truncating them. */
  lemma {:induction false} TruncationIsNewest(t: Times, rs: seq<Record>, all: seq<Record>, limit: nat)
    requires Timed(all, t) && DistinctKeys(rs) && Keys(rs) == Keys(all) && Best(rs, all) && forall x <- rs :: x in all
    ensures IsNewest(t, Newest(Sort(rs, AnswerOrder()), limit), all, limit)
  {
    SortKeeps(rs, AnswerOrder());
    OrdersAreTotal();
    SortSorts(rs, AnswerOrder());
    SortDistinct(rs);
    CutIsNewest(t, Sort(rs, AnswerOrder()), all, limit);
  }

  /** One copy per event, and no copy in the input is better. */
  lemma {:induction false} FreshIsBest(rs: seq<Record>)
    ensures Best(Fresh(rs, {}), rs)
  {
    var firsts := Firsts(rs, {});
    forall u, x | u in rs && x in Fresh(rs, {}) && u.key == x.key ensures u.fidelity.Rank() <= x.fidelity.Rank() {
      var i :| 0 <= i < |firsts| && Absorb(firsts, rs)[i] == x;
      ChampionWins(firsts[i], rs);
    }
  }

  /** A merge is the answer to ask of both inputs together. */
  lemma {:induction false} MergeIsNewest(t: Times, a: seq<Record>, b: seq<Record>, limit: nat)
    requires Timed(a + b, t)
    ensures IsNewest(t, Merged(a, b, limit), a + b, limit)
  {
    FreshFacts(a + b, {});
    FreshIsBest(a + b);
    TruncationIsNewest(t, Fresh(a + b, {}), a + b, limit);
  }

  lemma {:induction false} TimedParts(t: Times, some: seq<Record>, all: seq<Record>)
    requires Timed(all, t) && forall x <- some :: x in all
    ensures Timed(some, t)
  {
  }

  /** Merging answers that may stand for more is as good as merging everything. */
  lemma {:induction false} MergeOfEnough(t: Times, a: seq<Record>, allA: seq<Record>, b: seq<Record>, allB: seq<Record>, limit: nat)
    requires Timed(allA + allB, t)
    requires Suffices(t, a, allA, limit) && Suffices(t, b, allB, limit)
    ensures IsNewest(t, Merged(a, b, limit), allA + allB, limit)
  {
    Together(t, a, allA, b, allB, limit);
    TimedParts(t, a + b, allA + allB);
    MergeIsNewest(t, a, b, limit);
    NewestOfEnough(t, Merged(a, b, limit), a + b, allA + allB, limit);
  }

  /** The folding loop of fetch_local, over the answers in their order of arrival. */
  function Folded(answers: seq<seq<Record>>, limit: nat): seq<Record>
    requires answers != []
  {
    if |answers| == 1 then answers[0]
    else Merged(Folded(answers[..|answers| - 1], limit), answers[|answers| - 1], limit)
  }

  function Pooled(held: seq<seq<Record>>): seq<Record> {
    if held == [] then [] else Pooled(held[..|held| - 1]) + held[|held| - 1]
  }

  /** Each peer answered from what it holds, possibly truncated. */
  ghost predicate Answers(t: Times, answers: seq<seq<Record>>, held: seq<seq<Record>>, limit: nat) {
    |answers| == |held| && forall i :: 0 <= i < |answers| ==> Suffices(t, answers[i], held[i], limit)
  }

  lemma {:induction false} FoldedSuffices(t: Times, answers: seq<seq<Record>>, held: seq<seq<Record>>, limit: nat)
    requires answers != [] && Answers(t, answers, held, limit) && Timed(Pooled(held), t)
    ensures Suffices(t, Folded(answers, limit), Pooled(held), limit)
    ensures |answers| > 1 ==> IsNewest(t, Folded(answers, limit), Pooled(held), limit)
  {
    var n := |answers| - 1;
    if n == 0 {
      assert held[..0] == [];
      assert Pooled(held) == held[0];
    } else {
      TimedParts(t, Pooled(held[..n]), Pooled(held));
      FoldedSuffices(t, answers[..n], held[..n], limit);
      MergeOfEnough(t, Folded(answers[..n], limit), Pooled(held[..n]), answers[n], held[n], limit);
      NewestSuffices(t, Folded(answers, limit), Pooled(held), limit);
    }
  }

  /** The same events in the same order, at the same fidelity. */
  ghost predicate SameEvents(a: seq<Record>, b: seq<Record>) {
    |a| == |b| && forall i :: 0 <= i < |a| ==> a[i].key == b[i].key && a[i].fidelity == b[i].fidelity
  }

  /** There is one answer to ask for, up to which of several equally good copies it holds. */
  lemma {:induction false} NewestIsUnique(t: Times, a: seq<Record>, b: seq<Record>, allA: seq<Record>, allB: seq<Record>, limit: nat)
    requires Timed(allA, t) && IsNewest(t, a, allA, limit) && IsNewest(t, b, allB, limit)
    requires forall x :: x in allA <==> x in allB
    ensures SameEvents(a, b)
  {
    assert Keys(allA) == Keys(allB);
    KeysCount(a);
    KeysCount(b);
    TimedParts(t, a, allA);
    TimedParts(t, b, allA);
    forall i | 0 <= i < |a| ensures a[i].key == b[i].key {
      SamePlace(t, a, b, i);
    }
    forall i | 0 <= i < |a| ensures a[i].fidelity == b[i].fidelity {
      assert a[i] in allB && b[i] in allA;
      SameRank(a[i].fidelity, b[i].fidelity);
    }
  }

  lemma {:induction false} SamePlace(t: Times, a: seq<Record>, b: seq<Record>, i: nat)
    requires Timed(a, t) && Sorted(a, AnswerOrder()) && DistinctKeys(a)
    requires Timed(b, t) && Sorted(b, AnswerOrder()) && DistinctKeys(b)
    requires Keys(a) == Keys(b) && |a| == |b| && i < |a|
    ensures a[i].key == b[i].key
  {
    assert a[i].key in Keys(a);
    var j :| 0 <= j < |b| && b[j].key == a[i].key;
    NewerFollow(t, a, i);
    NewerFollow(t, b, j);
  }

  lemma {:induction false} SameRank(a: Fidelity, b: Fidelity)
    requires a.Rank() <= b.Rank() && b.Rank() <= a.Rank()
    ensures a == b
  {
  }

  lemma {:induction false} PooledHolds(held: seq<seq<Record>>, x: Record)
    ensures x in Pooled(held) <==> exists rs <- held :: x in rs
  {
    if held != [] {
      var n := |held| - 1;
      PooledHolds(held[..n], x);
      assert held == held[..n] + [held[n]];
    }
  }

  /** Truncating at every step loses nothing, in whatever order the answers arrive. */
  lemma {:induction false} ArrivalOrderDoesNotMatter(t: Times,
      answers: seq<seq<Record>>, held: seq<seq<Record>>, answers': seq<seq<Record>>, held': seq<seq<Record>>, limit: nat)
    requires |answers| > 1 && Answers(t, answers, held, limit) && Timed(Pooled(held), t)
    requires |answers'| > 1 && Answers(t, answers', held', limit)
    requires multiset(held) == multiset(held')
    ensures SameEvents(Folded(answers, limit), Folded(answers', limit))
  {
    forall x ensures x in Pooled(held) <==> x in Pooled(held') {
      PooledHolds(held, x);
      PooledHolds(held', x);
      assert forall rs :: rs in held <==> rs in multiset(held);
      assert forall rs :: rs in held' <==> rs in multiset(held');
    }
    TimedParts(t, Pooled(held'), Pooled(held));
    FoldedSuffices(t, answers, held, limit);
    FoldedSuffices(t, answers', held', limit);
    NewestIsUnique(t, Folded(answers, limit), Folded(answers', limit), Pooled(held), Pooled(held'), limit);
  }
}
