/** The order of new events in what a channel holds, and which of them retention takes first. */
module BlockOrder {
  import opened Ordering
  import opened Records
  import opened Tables
  import opened Lists
  import opened Invariants
  import opened Appending

  /** First copies stand in the order of their first occurrence. */
  lemma {:induction false} FirstsSpread(rs: seq<Record>, known: set<EventKey>, m: nat, n: nat) returns (i: nat, j: nat)
    requires m < |Firsts(rs, known)| && n < |Firsts(rs, known)|
    ensures m < n ==> i < j < |rs| && rs[i] == Firsts(rs, known)[m] && rs[j] == Firsts(rs, known)[n]
    ensures m < n ==> Firsts(rs, known)[n].key !in Keys(rs[..j])
  {
    i, j := 0, 0;
    var front, r := rs[..|rs| - 1], rs[|rs| - 1];
    var before := Firsts(front, known);
    if m < n < |before| {
      i, j := FirstsSpread(front, known, m, n);
      assert front[..j] == rs[..j];
    } else if m < n {
      FirstsAreFirst(front, known);
      assert before[m] in before && before[m] in front;
      i :| 0 <= i < |front| && front[i] == before[m];
      j := |front|;
      assert rs[..j] == front;
    }
  }

  /** In sorted input, an event with a copy before all copies of another has its first copy first. */
  lemma {:induction false} FirstsInOrder(rs: seq<Record>, known: set<EventKey>, a: Record, k: EventKey, m: nat, n: nat)
    requires Sorted(rs, EventOrder()) && a in rs && a.key != k
    requires forall y <- rs :: y.key == k ==> !EventOrder()(y, a)
    requires m < |Firsts(rs, known)| && n < |Firsts(rs, known)| && Firsts(rs, known)[m].key == a.key && Firsts(rs, known)[n].key == k
    ensures m < n
  {
    var i, j := FirstsSpread(rs, known, n, m);
    var p: nat :| p < |rs| && rs[p] == a;
    NotBefore(rs, j, p);
    SortedSpread(rs, i, p);
  }

  /** A copy of an event that has none before `j` is not before `j` itself. */
  lemma {:induction false} NotBefore(rs: seq<Record>, j: nat, p: nat)
    requires p < |rs|
    ensures j <= |rs| ==> rs[p].key in Keys(rs[..j]) || j <= p
  {
    if p < j <= |rs| {
      assert rs[..j][p] == rs[p];
    }
  }

  lemma {:induction false} SortedSpread(rs: seq<Record>, i: nat, p: nat)
    requires Sorted(rs, EventOrder()) && p < |rs|
    ensures i < p ==> EventOrder()(rs[i], rs[p])
  {
  }

  /** Of the records that were not turned away, the second comes strictly after the first, by event time, receipt and key. */
  ghost predicate AllAfter(cutoffs: map<string, int>, channel: string, rs: seq<Record>, a: Record, k: EventKey) {
    forall y <- rs :: y.key == k && (channel in cutoffs ==> y.receivedAt > cutoffs[channel]) ==>
      a.eventAt < y.eventAt || (a.eventAt == y.eventAt && (a.receivedAt < y.receivedAt || (a.receivedAt == y.receivedAt && a.key < y.key)))
  }

  /** The event comes first wherever both are held. */
  ghost predicate StandsBefore(held: seq<Record>, k: EventKey, l: EventKey) {
    forall i, j :: 0 <= i < |held| && 0 <= j < |held| && held[i].key == k && held[j].key == l ==> i < j
  }

  lemma {:induction false} NovelInOrder(s: Store, channel: string, kept: seq<Record>, a: Record, k: EventKey)
    requires a in kept && a.key != k && forall y <- kept :: y.key == k ==> !EventOrder()(y, a)
    ensures StandsBefore(Novel(s, channel, kept), a.key, k)
  {
    var sorted, known := Sort(kept, EventOrder()), Keys(Held(s.blocks, channel));
    OrdersAreTotal();
    SortSorts(kept, EventOrder());
    SortKeeps(kept, EventOrder());
    var firsts := Firsts(sorted, known);
    AbsorbKeeps(firsts, sorted);
    forall i, j | 0 <= i < |firsts| && 0 <= j < |firsts| && firsts[i].key == a.key && firsts[j].key == k ensures i < j {
      FirstsInOrder(sorted, known, a, k, i, j);
    }
  }

  lemma {:induction false} NotHeld(held: seq<Record>, novel: seq<Record>, k: EventKey, i: nat)
    requires k !in Keys(held) && i < |held + novel|
    ensures (held + novel)[i].key == k ==> |held| <= i && novel[i - |held|].key == k
  {
    if i < |held| {
      assert held[i] in held;
    }
  }

  lemma {:induction false} BehindHeld(held: seq<Record>, novel: seq<Record>, k: EventKey, l: EventKey)
    requires StandsBefore(novel, k, l) && k !in Keys(held) && l !in Keys(held)
    ensures StandsBefore(held + novel, k, l)
  {
    var all := held + novel;
    forall i, j | 0 <= i < |all| && 0 <= j < |all| && all[i].key == k && all[j].key == l ensures i < j {
      NotHeld(held, novel, k, i);
      NotHeld(held, novel, l, j);
    }
  }

  /** What is left after dropping from the front keeps its order, and never lacks the later of two it holds the earlier of. */
  lemma {:induction false} RestInOrder(gone: seq<Record>, rest: seq<Record>, k: EventKey, l: EventKey)
    requires StandsBefore(gone + rest, k, l) && l in Keys(gone + rest)
    ensures StandsBefore(rest, k, l) && (k in Keys(rest) ==> l in Keys(rest))
  {
    var all := gone + rest;
    forall i, j | 0 <= i < |rest| && 0 <= j < |rest| && rest[i].key == k && rest[j].key == l ensures i < j {
      assert all[|gone| + i] == rest[i] && all[|gone| + j] == rest[j];
    }
    if k in Keys(rest) {
      var i :| 0 <= i < |rest| && rest[i].key == k;
      assert all[|gone| + i] == rest[i];
      var j :| 0 <= j < |all| && all[j].key == l;
      assert all[j] == rest[j - |gone|];
    }
  }

  lemma {:induction false} FilledInOrder(s: Store, cfg: Config, channel: string, kept: seq<Record>, stamp: EventKey -> int, a: Record, k: EventKey)
    requires StoreInv(s, cfg, stamp) && Admissible(kept, channel, s.cutoffs, stamp)
    requires a in kept && a.key != k && k in Keys(kept) && a.key !in Keys(Held(s.blocks, channel)) && k !in Keys(Held(s.blocks, channel))
    requires forall y <- kept :: y.key == k ==> !EventOrder()(y, a)
    ensures var held := Held(Filled(s, cfg, channel, kept).blocks, channel); StandsBefore(held, a.key, k) && a.key in Keys(held) && k in Keys(held)
  {
    assert ChannelInv(s, cfg, channel, stamp);
    FilledList(s, cfg, channel, kept, stamp);
    var old_, sorted := Held(s.blocks, channel), Sort(kept, EventOrder());
    SortKeeps(kept, EventOrder());
    AbsorbKeeps(old_, sorted);
    FreshFacts(sorted, Keys(old_));
    NovelInOrder(s, channel, kept, a, k);
    BehindHeld(Absorb(old_, sorted), Novel(s, channel, kept), a.key, k);
    InSecond(Absorb(old_, sorted), Novel(s, channel, kept), a.key);
    InSecond(Absorb(old_, sorted), Novel(s, channel, kept), k);
  }

  lemma {:induction false} InSecond(a: seq<Record>, b: seq<Record>, k: EventKey)
    requires k in Keys(b)
    ensures k in Keys(a + b)
  {
    var x :| x in b && x.key == k;
    assert x in a + b;
  }

  /** Retention keeps the order, and never lacks the later of two events it holds the earlier of. */
  lemma {:induction false} RetainInOrder(blocks: seq<Block>, cfg: Config, channel: string, k: EventKey, l: EventKey)
    requires cfg.Valid() && StandsBefore(Held(blocks, channel), k, l) && l in Keys(Held(blocks, channel))
    ensures var after := Held(Retain(blocks, channel, cfg.Allowed()), channel);
            StandsBefore(after, k, l) && (k in Keys(after) ==> l in Keys(after))
  {
    var list := BlocksOf(blocks, channel);
    var n := RetainList(blocks, channel, cfg.Allowed(), channel);
    RecordsOfConcat(list[..n], list[n..]);
    assert list[..n] + list[n..] == list;
    RestInOrder(RecordsOf(list[..n]), RecordsOf(list[n..]), k, l);
  }

  /** With a new event among what was not turned away, the channel is filled, then retained. */
  lemma {:induction false} AppendHolds(s: Store, cfg: Config, channel: string, rs: seq<Record>)
    requires cfg.Valid() && channel !in s.blocked && AfterCutoff(s.cutoffs, channel, rs) != []
    requires !(Keys(AfterCutoff(s.cutoffs, channel, rs)) <= Keys(Held(s.blocks, channel)))
    ensures Held(Append(s, cfg, channel, rs).blocks, channel)
         == Held(Retain(Filled(s, cfg, channel, AfterCutoff(s.cutoffs, channel, rs)).blocks, channel, cfg.Allowed()), channel)
  {
  }

  /**
   * New events of a batch are stored oldest first: of two, the one with a copy before every copy of
   * the other, by event time, then receipt, then key, stands before it. Retention drops from the
   * front, so it never takes the later one and leaves the earlier.
   */
  lemma {:induction false} NewEventsInOrder(s: Store, cfg: Config, channel: string, rs: seq<Record>, stamp: EventKey -> int, a: Record, b: Record)
    requires StoreInv(s, cfg, stamp) && AllIn(rs, channel) && Stamped(rs, stamp) && channel !in s.blocked
    requires a in rs && b in rs && a.key != b.key
    requires channel in s.cutoffs ==> a.receivedAt > s.cutoffs[channel] && b.receivedAt > s.cutoffs[channel]
    requires a.key !in Keys(Held(s.blocks, channel)) && b.key !in Keys(Held(s.blocks, channel))
    requires AllAfter(s.cutoffs, channel, rs, a, b.key)
    ensures var filled := Held(Filled(s, cfg, channel, AfterCutoff(s.cutoffs, channel, rs)).blocks, channel);
            StandsBefore(filled, a.key, b.key) && a.key in Keys(filled) && b.key in Keys(filled)
    ensures var after := Held(Append(s, cfg, channel, rs).blocks, channel);
            StandsBefore(after, a.key, b.key) && (a.key in Keys(after) ==> b.key in Keys(after))
  {
    var kept := AfterCutoff(s.cutoffs, channel, rs);
    AdmissibleAfterCutoff(s, channel, rs, stamp);
    assert a in kept && b in kept;
    assert a.key in Keys(kept) && b.key in Keys(kept);
    FilledInOrder(s, cfg, channel, kept, stamp, a, b.key);
    AppendHolds(s, cfg, channel, rs);
    RetainInOrder(Filled(s, cfg, channel, kept).blocks, cfg, channel, a.key, b.key);
  }

  /**
   * Of two new events of the batch, one with a copy before every copy of the other, by event time, then
   * receipt, then key, stands before the other and does not outlive it.
   */
  ghost predicate LaterOutlive(before: Store, after: Store, channel: string, rs: seq<Record>) {
    forall a <- rs, b <- rs ::
      && a.key != b.key && AllAfter(before.cutoffs, channel, rs, a, b.key)
      && (channel in before.cutoffs ==> a.receivedAt > before.cutoffs[channel] && b.receivedAt > before.cutoffs[channel])
      && a.key !in Keys(Held(before.blocks, channel)) && b.key !in Keys(Held(before.blocks, channel))
      ==> StandsBefore(Held(after.blocks, channel), a.key, b.key)
          && (a.key in Keys(Held(after.blocks, channel)) ==> b.key in Keys(Held(after.blocks, channel)))
  }

  lemma {:induction false} AppendOutlives(s: Store, cfg: Config, channel: string, rs: seq<Record>, stamp: EventKey -> int)
    requires StoreInv(s, cfg, stamp) && AllIn(rs, channel) && Stamped(rs, stamp)
    ensures channel !in s.blocked ==> LaterOutlive(s, Append(s, cfg, channel, rs), channel, rs)
  {
    forall a, b | channel !in s.blocked && a in rs && b in rs && a.key != b.key && AllAfter(s.cutoffs, channel, rs, a, b.key)
                  && (channel in s.cutoffs ==> a.receivedAt > s.cutoffs[channel] && b.receivedAt > s.cutoffs[channel])
                  && a.key !in Keys(Held(s.blocks, channel)) && b.key !in Keys(Held(s.blocks, channel))
      ensures var held := Held(Append(s, cfg, channel, rs).blocks, channel);
              StandsBefore(held, a.key, b.key) && (a.key in Keys(held) ==> b.key in Keys(held))
    {
      NewEventsInOrder(s, cfg, channel, rs, stamp, a, b);
    }
  }
}
