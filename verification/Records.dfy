/** Canonical chat records, fidelity, and how copies of one event replace each other. */
module Records {
  import opened Ordering

  /** A 32-byte digest, read as a number: numeric order is its byte order. */
  type EventKey = nat

  datatype Fidelity = Unknown | Reconstructed | DirectIrc {
    function Rank(): nat {
      match this
      case Unknown => 0
      case Reconstructed => 1
      case DirectIrc => 2
    }
  }

  datatype Record = Record(
    channel: string,
    eventAt: int,
    receivedAt: int,
    key: EventKey,
    source: string,
    fidelity: Fidelity,
    raw: seq<bv8>)
  {
    /** The incoming record is the same event at a strictly higher fidelity. */
    predicate ShouldReplace(retained: Record) {
      key == retained.key && fidelity.Rank() > retained.fidelity.Rank()
    }
  }

  /** An unknown copy gives way to any known one, a reconstructed one to one seen on the wire, and nothing else does. */
  lemma {:induction false} ReplacesExactly(incoming: Record, retained: Record)
    ensures incoming.ShouldReplace(retained) <==>
              incoming.key == retained.key && ((retained.fidelity == Unknown && incoming.fidelity != Unknown)
                                               || (retained.fidelity == Reconstructed && incoming.fidelity == DirectIrc))
  {
  }

  /** Order of records inside a block: by event time, receipt, key. */
  function EventOrder(): (Record, Record) -> bool {
    (a: Record, b: Record) =>
      a.eventAt < b.eventAt || (a.eventAt == b.eventAt &&
      (a.receivedAt < b.receivedAt || (a.receivedAt == b.receivedAt && a.key <= b.key)))
  }

  /** Order of records in an answer: by receipt, event time, key. */
  function AnswerOrder(): (Record, Record) -> bool {
    (a: Record, b: Record) =>
      a.receivedAt < b.receivedAt || (a.receivedAt == b.receivedAt &&
      (a.eventAt < b.eventAt || (a.eventAt == b.eventAt && a.key <= b.key)))
  }

  lemma {:induction false} OrdersAreTotal()
    ensures Preorder(EventOrder()) && Preorder(AnswerOrder())
  {
  }

  function Keys(rs: seq<Record>): set<EventKey> {
    set r <- rs :: r.key
  }

  lemma {:induction false} SameKeysByIndex(a: seq<Record>, b: seq<Record>)
    requires |a| == |b| && forall n :: 0 <= n < |a| ==> a[n].key == b[n].key
    ensures Keys(a) == Keys(b)
  {
    forall k | k in Keys(a) ensures k in Keys(b) {
      var n :| 0 <= n < |a| && a[n].key == k;
      assert b[n].key == k;
    }
    forall k | k in Keys(b) ensures k in Keys(a) {
      var n :| 0 <= n < |b| && b[n].key == k;
      assert a[n].key == k;
    }
  }

  /** No event key occurs twice. */
  ghost predicate DistinctKeys(rs: seq<Record>) {
    forall i, j :: 0 <= i < j < |rs| ==> rs[i].key != rs[j].key
  }

  /** Some copy of the event of `r` in `rs` has at least its fidelity. */
  ghost predicate Covers(rs: seq<Record>, r: Record) {
    exists x <- rs :: x.key == r.key && x.channel == r.channel && x.fidelity.Rank() >= r.fidelity.Rank()
  }

  ghost predicate AllIn(rs: seq<Record>, channel: string) {
    forall r <- rs :: r.channel == channel
  }

  /** The event key determines the event time: identities carry a source-stable timestamp. */
  ghost predicate Stamped(rs: seq<Record>, stamp: EventKey -> int) {
    forall r <- rs :: r.eventAt == stamp(r.key)
  }

  function Upgrade(x: Record, r: Record): Record {
    if r.ShouldReplace(x) then r else x
  }

  /** What is left of the retained record `x` after the copies in `rs` came by. */
  function Champion(x: Record, rs: seq<Record>): Record {
    if rs == [] then x else Upgrade(Champion(x, rs[..|rs| - 1]), rs[|rs| - 1])
  }

  /** Every retained record, after the copies in `rs` came by. */
  function Absorb(held: seq<Record>, rs: seq<Record>): (r: seq<Record>)
    ensures |r| == |held|
    ensures forall i :: 0 <= i < |held| ==> r[i] == Champion(held[i], rs)
  {
    seq(|held|, i requires 0 <= i < |held| => Champion(held[i], rs))
  }

  /** First copies of the events in `rs` whose key is not in `known`. */
  function Firsts(rs: seq<Record>, known: set<EventKey>): seq<Record> {
    if rs == [] then []
    else
      var before := Firsts(rs[..|rs| - 1], known);
      var r := rs[|rs| - 1];
      if r.key in known || r.key in Keys(before) then before else before + [r]
  }

  /** The incoming events not known yet, each at the highest fidelity it came in. */
  function Fresh(rs: seq<Record>, known: set<EventKey>): seq<Record> {
    Absorb(Firsts(rs, known), rs)
  }

  /** A record keeps its key; it ends as itself or as a copy that came by, and no copy beats it. */
  lemma {:induction false} ChampionWins(x: Record, rs: seq<Record>)
    ensures Champion(x, rs).key == x.key
    ensures Champion(x, rs) == x || (Champion(x, rs) in rs && Champion(x, rs).fidelity.Rank() > x.fidelity.Rank())
    ensures Champion(x, rs).fidelity.Rank() >= x.fidelity.Rank()
    ensures forall r <- rs :: r.key == x.key ==> Champion(x, rs).fidelity.Rank() >= r.fidelity.Rank()
  {
    if rs != [] {
      var front := rs[..|rs| - 1];
      ChampionWins(x, front);
      assert rs == front + [rs[|rs| - 1]];
    }
  }

  lemma {:induction false} FirstsAreFirst(rs: seq<Record>, known: set<EventKey>)
    ensures DistinctKeys(Firsts(rs, known))
    ensures Keys(Firsts(rs, known)) == Keys(rs) - known
    ensures forall r <- Firsts(rs, known) :: r in rs
  {
    if rs != [] {
      var front, r := rs[..|rs| - 1], rs[|rs| - 1];
      FirstsAreFirst(front, known);
      assert rs == front + [r];
      assert Keys(rs) == Keys(front) + {r.key};
      var before := Firsts(front, known);
      assert Keys(before + [r]) == Keys(before) + {r.key};
    }
  }

  lemma {:induction false} AbsorbKeeps(held: seq<Record>, rs: seq<Record>)
    ensures Keys(Absorb(held, rs)) == Keys(held)
    ensures DistinctKeys(held) ==> DistinctKeys(Absorb(held, rs))
    ensures forall r <- Absorb(held, rs) :: r in held || r in rs
    ensures forall i :: 0 <= i < |held| ==> Absorb(held, rs)[i].key == held[i].key
  {
    var out := Absorb(held, rs);
    forall i | 0 <= i < |held| ensures out[i].key == held[i].key && (out[i] in held || out[i] in rs) {
      ChampionWins(held[i], rs);
    }
    forall k | k in Keys(held) ensures k in Keys(out) {
      var i :| 0 <= i < |held| && held[i].key == k;
      assert out[i].key == k;
    }
    forall k | k in Keys(out) ensures k in Keys(held) {
      var i :| 0 <= i < |out| && out[i].key == k;
      assert held[i].key == k;
    }
  }

  /** Absorbing covers what was held and every incoming copy of a held event. */
  lemma {:induction false} AbsorbCovers(held: seq<Record>, rs: seq<Record>, channel: string, r: Record)
    requires AllIn(held, channel) && AllIn(rs, channel) && r.channel == channel
    requires Covers(held, r) || (r in rs && r.key in Keys(held))
    ensures Covers(Absorb(held, rs), r)
  {
    var out := Absorb(held, rs);
    AbsorbKeeps(held, rs);
    var i :| 0 <= i < |held| && held[i].key == r.key &&
             (r in rs || held[i].fidelity.Rank() >= r.fidelity.Rank());
    ChampionWins(held[i], rs);
    assert out[i] in out;
  }

  /** Fresh records: one per unknown event, drawn from the input, covering every copy of it. */
  lemma {:induction false} FreshFacts(rs: seq<Record>, known: set<EventKey>)
    ensures DistinctKeys(Fresh(rs, known)) && Keys(Fresh(rs, known)) == Keys(rs) - known
    ensures forall r <- Fresh(rs, known) :: r in rs
  {
    FirstsAreFirst(rs, known);
    AbsorbKeeps(Firsts(rs, known), rs);
  }

  lemma {:induction false} FreshCovers(rs: seq<Record>, known: set<EventKey>, channel: string, r: Record)
    requires AllIn(rs, channel) && r in rs && r.key !in known
    ensures Covers(Fresh(rs, known), r)
  {
    FirstsAreFirst(rs, known);
    AbsorbCovers(Firsts(rs, known), rs, channel, r);
  }

  lemma {:induction false} CoversMonotone(a: seq<Record>, b: seq<Record>, r: Record)
    requires Covers(a, r)
    requires forall x <- a :: x in b
    ensures Covers(b, r)
  {
  }
}
