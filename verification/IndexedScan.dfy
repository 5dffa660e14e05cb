/** Why looking only at blocks that overlap in event time finds every stored copy. */
module IndexedScan {
  import opened Ordering
  import opened Records
  import opened Tables
  import opened Lists
  import opened Invariants
  import opened Appending
  import opened Accounting
  import opened Scanning

  lemma {:induction false} OverlappingSound(l: seq<Block>, lo: int, hi: int)
    ensures forall b :: b in Overlapping(l, lo, hi) <==> b in l && b.last >= lo && b.first <= hi
    ensures DistinctKeys(RecordsOf(l)) ==> DistinctKeys(RecordsOf(Overlapping(l, lo, hi)))
    ensures forall r <- RecordsOf(Overlapping(l, lo, hi)) :: r in RecordsOf(l)
    ensures (forall i, j :: 0 <= i < j < |l| ==> l[i].id < l[j].id) ==>
              forall i, j :: 0 <= i < j < |Overlapping(l, lo, hi)| ==> Overlapping(l, lo, hi)[i].id < Overlapping(l, lo, hi)[j].id
  {
    if l != [] {
      var b, t := l[0], l[1..];
      assert l == [b] + t;
      OverlappingSound(t, lo, hi);
      var o := Overlapping(t, lo, hi);
      DistinctConcat(b.records, RecordsOf(t));
      DistinctConcat(b.records, RecordsOf(o));
      assert forall r <- RecordsOf(o) :: r.key in Keys(RecordsOf(t));
      assert ([b] + o)[1..] == o;
    }
  }

  /** A stored copy of an incoming event sits in a block that overlaps the batch in event time. */
  lemma {:induction false} OverlapFindsCopies(l: seq<Block>, cfg: Config, stamp: EventKey -> int, channel: string, rs: seq<Record>, b: Block, r: Record)
    requires Sane(l, channel, cfg) && Stamped(RecordsOf(l), stamp) && Stamped(rs, stamp) && rs != []
    requires b in l && r in rs && r.key in Keys(b.records)
    ensures b in Overlapping(l, MinEvent(rs), MaxEvent(rs))
  {
    OverlappingSound(l, MinEvent(rs), MaxEvent(rs));
    EventBounds(rs);
    EventBounds(b.records);
    RecordsOfSound(l);
    var x :| x in b.records && x.key == r.key;
    assert x in RecordsOf(l);
    assert x.eventAt == r.eventAt;
  }

  lemma {:induction false} BlocksDisjoint(rows: seq<Block>, i: nat, j: nat)
    requires DistinctKeys(RecordsOf(rows)) && i < |rows| && j < |rows|
    ensures DistinctKeys(rows[i].records)
    ensures i != j ==> Keys(rows[i].records) !! Keys(rows[j].records)
  {
    var t := rows[1..];
    DistinctConcat(rows[0].records, RecordsOf(t));
    RecordsOfSound(t);
    if i > 0 && j > 0 {
      BlocksDisjoint(t, i - 1, j - 1);
    } else {
      if i > 0 {
        BlocksDisjoint(t, i - 1, i - 1);
        InRest(t, rows[i], rows[0].records);
      }
      if j > 0 {
        InRest(t, rows[j], rows[0].records);
      }
    }
  }

  lemma {:induction false} InRest(t: seq<Block>, b: Block, rs: seq<Record>)
    requires b in t && Keys(rs) !! Keys(RecordsOf(t))
    ensures Keys(rs) !! Keys(b.records)
  {
    RecordsOfSound(t);
    assert forall x <- b.records :: x in RecordsOf(t);
  }

  lemma {:induction false} LoadedDistinct(rows: seq<Block>, held: seq<Loaded>)
    requires DistinctKeys(RecordsOf(rows)) && |held| == |rows|
    requires forall j :: 0 <= j < |rows| ==> held[j].records == rows[j].records
    ensures NoRepeats(held)
  {
    forall p: Place, q: Place, k | At(held, p, k) && At(held, q, k) ensures p == q {
      BlocksDisjoint(rows, p.block, q.block);
      var a, b := rows[p.block].records, rows[q.block].records;
      assert a[p.slot].key in Keys(a);
      assert b[q.slot].key in Keys(b);
    }
  }

  lemma {:induction false} LoadedRecords(rows: seq<Block>, j: nat, n: nat)
    requires j < |rows| && n < |rows[j].records|
    ensures rows[j].records[n] in RecordsOf(rows) && rows[j].records[n].key in Keys(RecordsOf(rows))
  {
    RecordsOfSound(rows);
    assert rows[j] in rows;
  }

  lemma {:induction false} WhereLoaded(rows: seq<Block>, k: EventKey) returns (p: Place)
    requires k in Keys(RecordsOf(rows))
    ensures p.block < |rows| && p.slot < |rows[p.block].records| && rows[p.block].records[p.slot].key == k
  {
    RecordsOfSound(rows);
    var x :| x in RecordsOf(rows) && x.key == k;
    var b :| b in rows && x in b.records;
    var j :| 0 <= j < |rows| && rows[j] == b;
    var n :| 0 <= n < |b.records| && b.records[n] == x;
    p := Place(j, n);
  }

  lemma {:induction false} IndexKeys(rows: seq<Block>, held: seq<Loaded>, index: map<EventKey, Place>)
    requires |held| == |rows| && Indexed(held, index)
    requires forall j :: 0 <= j < |rows| ==> held[j].records == rows[j].records
    ensures index.Keys == Keys(RecordsOf(rows))
  {
    forall k | k in index ensures k in Keys(RecordsOf(rows)) {
      assert At(held, index[k], k);
      LoadedRecords(rows, index[k].block, index[k].slot);
    }
    forall k | k in Keys(RecordsOf(rows)) ensures k in index {
      var p := WhereLoaded(rows, k);
      assert At(held, p, k);
    }
  }

  lemma {:induction false} FirstsSame(rs: seq<Record>, known: set<EventKey>, all: set<EventKey>)
    requires forall r <- rs :: r.key in known <==> r.key in all
    ensures Firsts(rs, known) == Firsts(rs, all)
  {
    if rs != [] {
      var front := rs[..|rs| - 1];
      assert forall r <- front :: r in rs;
      assert rs[|rs| - 1] in rs;
      FirstsSame(front, known, all);
    }
  }

  /** An upgrade with copies of other events changes nothing. */
  lemma {:induction false} AbsorbStrangers(h: seq<Record>, rs: seq<Record>)
    requires Keys(h) !! Keys(rs)
    ensures Absorb(h, rs) == h
  {
    forall i | 0 <= i < |h| ensures Champion(h[i], rs) == h[i] {
      ChampionWins(h[i], rs);
      if Champion(h[i], rs) in rs {
        assert Champion(h[i], rs).key in Keys(rs);
        assert h[i].key in Keys(h);
      }
    }
  }

  /** The block after the dirty loaded blocks were written back. */
  function Patch(b: Block, held: seq<Loaded>, cfg: Config): Block {
    if held == [] then b
    else
      var l := held[|held| - 1];
      if l.dirty && l.id == b.id && l.records != [] then Encode(b.id, b.channel, b.sequence, l.records, cfg)
      else Patch(b, held[..|held| - 1], cfg)
  }

  function PatchAll(blocks: seq<Block>, held: seq<Loaded>, cfg: Config): seq<Block> {
    seq(|blocks|, i requires 0 <= i < |blocks| => Patch(blocks[i], held, cfg))
  }

  lemma {:induction false} PatchSkips(b: Block, held: seq<Loaded>, cfg: Config)
    requires forall l <- held :: l.id == b.id ==> !l.dirty
    ensures Patch(b, held, cfg) == b
  {
    if held != [] {
      assert held[|held| - 1] in held;
      PatchSkips(b, held[..|held| - 1], cfg);
    }
  }

  lemma {:induction false} PatchHits(b: Block, held: seq<Loaded>, cfg: Config, j: nat)
    requires j < |held| && held[j].id == b.id && held[j].dirty && held[j].records != []
    requires forall i :: 0 <= i < |held| && i != j ==> held[i].id != b.id
    ensures Patch(b, held, cfg) == Encode(b.id, b.channel, b.sequence, held[j].records, cfg)
  {
    if j < |held| - 1 {
      PatchHits(b, held[..|held| - 1], cfg, j);
    }
  }

  /** Writing the dirty blocks back upgrades every block of the channel, and no other. */
  lemma {:induction false} PatchUpgrades(s: Store, cfg: Config, stamp: EventKey -> int, channel: string, rs: seq<Record>,
                      rows: seq<Block>, before: seq<Loaded>, held: seq<Loaded>)
    requires cfg.Valid() && AscendingIds(s.blocks) && ChannelInv(s, cfg, channel, stamp)
    requires AllIn(rs, channel) && Stamped(rs, stamp) && rs != []
    requires rows == Overlapping(BlocksOf(s.blocks, channel), MinEvent(rs), MaxEvent(rs))
    requires |before| == |rows| && forall j :: 0 <= j < |rows| ==> before[j] == Loaded(rows[j].id, rows[j].records, false)
    requires Absorbed(before, held, rs)
    ensures PatchAll(s.blocks, held, cfg) == UpgradeBlocks(s.blocks, channel, rs, cfg)
  {
    UpgradeAt(s.blocks, channel, rs, cfg);
    forall q | 0 <= q < |s.blocks| ensures Patch(s.blocks[q], held, cfg) == UpgradeBlock(s.blocks[q], channel, rs, cfg) {
      PatchUpgradesOne(s, cfg, stamp, channel, rs, rows, before, held, s.blocks[q]);
    }
  }

  lemma {:induction false} PatchUpgradesOne(s: Store, cfg: Config, stamp: EventKey -> int, channel: string, rs: seq<Record>,
                         rows: seq<Block>, before: seq<Loaded>, held: seq<Loaded>, b: Block)
    requires cfg.Valid() && AscendingIds(s.blocks) && ChannelInv(s, cfg, channel, stamp) && b in s.blocks
    requires AllIn(rs, channel) && Stamped(rs, stamp) && rs != []
    requires rows == Overlapping(BlocksOf(s.blocks, channel), MinEvent(rs), MaxEvent(rs))
    requires |before| == |rows| && forall j :: 0 <= j < |rows| ==> before[j] == Loaded(rows[j].id, rows[j].records, false)
    requires Absorbed(before, held, rs)
    ensures Patch(b, held, cfg) == UpgradeBlock(b, channel, rs, cfg)
  {
    var l := BlocksOf(s.blocks, channel);
    BlocksOfSound(s.blocks, channel);
    OverlappingSound(l, MinEvent(rs), MaxEvent(rs));
    ListAscends(s.blocks, channel);
    if b in rows {
      PatchLoaded(cfg, channel, rs, rows, before, held, b);
    } else {
      forall i | 0 <= i < |rows| ensures rows[i].id != b.id {
        assert rows[i] in rows;
        if rows[i].id == b.id { IdIsKey(s.blocks, rows[i], b); }
      }
      if b.channel == channel {
        assert forall r <- rs :: r.key !in Keys(b.records) by {
          forall r <- rs ensures r.key !in Keys(b.records) {
            if r.key in Keys(b.records) { OverlapFindsCopies(l, cfg, stamp, channel, rs, b, r); }
          }
        }
      }
      PatchOther(cfg, channel, rs, rows, before, held, b);
    }
  }

  lemma {:induction false} PatchOther(cfg: Config, channel: string, rs: seq<Record>,
                                      rows: seq<Block>, before: seq<Loaded>, held: seq<Loaded>, b: Block)
    requires forall i :: 0 <= i < |rows| ==> rows[i].id != b.id
    requires |before| == |rows| && forall j :: 0 <= j < |rows| ==> before[j] == Loaded(rows[j].id, rows[j].records, false)
    requires Absorbed(before, held, rs)
    requires b.channel == channel ==> Encoded(b, cfg) && forall r <- rs :: r.key !in Keys(b.records)
    ensures Patch(b, held, cfg) == UpgradeBlock(b, channel, rs, cfg)
  {
    PatchSkips(b, held, cfg);
    if b.channel == channel {
      AbsorbStrangers(b.records, rs);
    }
  }

  lemma {:induction false} PatchLoaded(cfg: Config, channel: string, rs: seq<Record>,
                                       rows: seq<Block>, before: seq<Loaded>, held: seq<Loaded>, b: Block)
    requires b in rows && b.channel == channel && Encoded(b, cfg)
    requires forall i, j :: 0 <= i < j < |rows| ==> rows[i].id < rows[j].id
    requires |before| == |rows| && forall j :: 0 <= j < |rows| ==> before[j] == Loaded(rows[j].id, rows[j].records, false)
    requires Absorbed(before, held, rs)
    ensures Patch(b, held, cfg) == UpgradeBlock(b, channel, rs, cfg)
  {
    var j :| 0 <= j < |rows| && rows[j] == b;
    forall i | 0 <= i < |held| && i != j ensures held[i].id != b.id {
      assert rows[i].id < rows[j].id || rows[j].id < rows[i].id;
    }
    if held[j].dirty {
      PatchHits(b, held, cfg, j);
    } else {
      PatchSkips(b, held, cfg);
    }
  }

  lemma {:induction false} IdIsKey(blocks: seq<Block>, a: Block, b: Block)
    requires AscendingIds(blocks) && a in blocks && b in blocks && a.id == b.id
    ensures a == b
  {
  }

  lemma {:induction false} ListAscends(blocks: seq<Block>, channel: string)
    requires AscendingIds(blocks)
    ensures forall i, j :: 0 <= i < j < |BlocksOf(blocks, channel)| ==> BlocksOf(blocks, channel)[i].id < BlocksOf(blocks, channel)[j].id
  {
    if blocks != [] {
      var t := blocks[1..];
      assert blocks == [blocks[0]] + t;
      ListAscends(t, channel);
      BlocksOfSound(t, channel);
      assert forall b <- BlocksOf(t, channel) :: blocks[0].id < b.id;
    }
  }

  /** The scan finds the same known events as all blocks would. */
  lemma {:induction false} ScanKnowsEnough(s: Store, cfg: Config, stamp: EventKey -> int, channel: string, rs: seq<Record>, rows: seq<Block>)
    requires cfg.Valid() && ChannelInv(s, cfg, channel, stamp)
    requires AllIn(rs, channel) && Stamped(rs, stamp) && rs != []
    requires rows == Overlapping(BlocksOf(s.blocks, channel), MinEvent(rs), MaxEvent(rs))
    ensures Fresh(rs, Keys(RecordsOf(rows))) == Fresh(rs, Keys(Held(s.blocks, channel)))
  {
    var l := BlocksOf(s.blocks, channel);
    OverlappingSound(l, MinEvent(rs), MaxEvent(rs));
    RecordsOfSound(l);
    RecordsOfSound(rows);
    forall r | r in rs && r.key in Keys(RecordsOf(l)) ensures r.key in Keys(RecordsOf(rows)) {
      var x :| x in RecordsOf(l) && x.key == r.key;
      var b :| b in l && x in b.records;
      OverlapFindsCopies(l, cfg, stamp, channel, rs, b, r);
      assert x in RecordsOf(rows);
    }
    FirstsSame(rs, Keys(RecordsOf(rows)), Keys(RecordsOf(l)));
  }
}
