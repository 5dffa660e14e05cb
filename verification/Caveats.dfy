/** Where two sound steps do not add up, with the exact conditions. */
module Caveats {
  import opened Ordering
  import opened Records
  import opened Tables
  import opened Lists
  import opened Invariants
  import opened Appending
  import opened Machine
  import opened MachineInvariant

  /* ---------- copies of one event on both sides of a purge ---------- */

  lemma {:induction false} NovelOfOne(r: Record)
    ensures Sort([r], EventOrder()) == [r] && Fresh([r], {}) == [r] && Absorb([], [r]) == []
  {
    assert [r][..|[r]| - 1] == [] && [r][1..] == [];
    assert Firsts([], {}) == [] && Champion(r, []) == r;
    assert Firsts([r], {}) == [r] && Champion(r, [r]) == Upgrade(r, r) == r;
  }

  lemma {:induction false} OneFilled(s: Store, cfg: Config, stamp: EventKey -> int, r: Record)
    requires cfg.Valid() && AscendingIds(s.blocks) && ChannelInv(s, cfg, r.channel, stamp)
    requires Stamped([r], stamp) && BlocksOf(s.blocks, r.channel) == []
    requires r.channel in s.cutoffs ==> r.receivedAt > s.cutoffs[r.channel]
    ensures Held(Filled(s, cfg, r.channel, [r]).blocks, r.channel) == [r]
    ensures Sane(BlocksOf(Filled(s, cfg, r.channel, [r]).blocks, r.channel), r.channel, cfg)
  {
    FilledList(s, cfg, r.channel, [r], stamp);
    NovelInEmpty(s, r);
  }

  lemma {:induction false} NovelInEmpty(s: Store, r: Record)
    requires BlocksOf(s.blocks, r.channel) == []
    ensures Novel(s, r.channel, [r]) == [r] && Absorb(Held(s.blocks, r.channel), Sort([r], EventOrder())) == []
  {
    NovelOfOne(r);
    assert Held(s.blocks, r.channel) == [] && Keys(Held(s.blocks, r.channel)) == {};
  }

  lemma {:induction false} OneStays(blocks: seq<Block>, cfg: Config, channel: string, r: Record)
    requires cfg.Valid() && Sane(BlocksOf(blocks, channel), channel, cfg) && Held(blocks, channel) == [r]
    ensures Retain(blocks, channel, cfg.Allowed()) == blocks
  {
    MessagesAreRecords(BlocksOf(blocks, channel));
  }

  /** A one-record batch is all that an empty channel then holds, unless the cutoff turns it away. */
  lemma {:induction false} AloneInChannel(s: Store, cfg: Config, stamp: EventKey -> int, r: Record)
    requires StoreInv(s, cfg, stamp) && Stamped([r], stamp) && r.channel !in s.blocked && BlocksOf(s.blocks, r.channel) == []
    ensures Held(Append(s, cfg, r.channel, [r]).blocks, r.channel)
         == if r.channel in s.cutoffs && r.receivedAt <= s.cutoffs[r.channel] then [] else [r]
  {
    if r.channel in s.cutoffs && r.receivedAt <= s.cutoffs[r.channel] {
      assert AfterCutoff(s.cutoffs, r.channel, [r]) == [];
    } else {
      assert AfterCutoff(s.cutoffs, r.channel, [r]) == [r];
      assert ChannelInv(s, cfg, r.channel, stamp);
      OneFilled(s, cfg, stamp, r);
      OneStays(Filled(s, cfg, r.channel, [r]).blocks, cfg, r.channel, r);
    }
  }

  /** The open tail after these records were pushed, one after another. */
  function PutAll(tail: Tail, rs: seq<Record>): Tail {
    if rs == [] then tail else TailPut(PutAll(tail, rs[..|rs| - 1]), rs[|rs| - 1])
  }

  /** The first of the best copies of its event: none is better, none before it is as good. */
  ghost predicate FirstOfBest(rs: seq<Record>, i: nat)
    requires i < |rs|
  {
    forall j :: 0 <= j < |rs| && rs[j].key == rs[i].key ==>
      rs[j].fidelity.Rank() <= rs[i].fidelity.Rank() && (j < i ==> rs[j].fidelity.Rank() < rs[i].fidelity.Rank())
  }

  lemma {:induction false} TailHasAll(w: World, rs: seq<Record>, c: string)
    requires AllIn(rs, c) && Stamped(rs, w.stamp)
    ensures var tail := PutAll(map[], rs);
            TailOk(w, tail) && Keys(TailOf(tail, c)) == Keys(rs) && forall x <- TailOf(tail, c) :: x in rs
  {
    if rs != [] {
      var front, r := rs[..|rs| - 1], rs[|rs| - 1];
      assert rs == front + [r];
      assert Keys(rs) == Keys(front) + {r.key};
      TailHasAll(w, front, c);
      var list := TailOf(PutAll(map[], front), c);
      PutKeeps(w, PutAll(map[], front), r);
      AbsorbKeeps(list, [r]);
      assert Keys(list + [r]) == Keys(list) + {r.key};
    }
  }

  /** Of the copies of an event that came, the tail keeps the first of the best. */
  lemma {:induction false} TailKeepsBest(w: World, rs: seq<Record>, c: string, i: nat)
    requires AllIn(rs, c) && Stamped(rs, w.stamp) && i < |rs| && FirstOfBest(rs, i)
    ensures rs[i] in TailOf(PutAll(map[], rs), c)
  {
    var front, r := rs[..|rs| - 1], rs[|rs| - 1];
    assert rs == front + [r];
    TailHasAll(w, front, c);
    var list := TailOf(PutAll(map[], front), c);
    if i < |front| {
      assert FirstOfBest(front, i);
      TailKeepsBest(w, front, c, i);
      if r.key in Keys(list) {
        AbsorbOne(list, r, rs[i]);
      }
    } else {
      BetterOneStays(rs, list, r);
    }
  }

  /** A last copy better than all before it takes its place in the list. */
  lemma {:induction false} BetterOneStays(rs: seq<Record>, list: seq<Record>, r: Record)
    requires rs != [] && rs[|rs| - 1] == r && FirstOfBest(rs, |rs| - 1)
    requires forall x <- list :: x in rs[..|rs| - 1]
    ensures r in if r.key in Keys(list) then Absorb(list, [r]) else list + [r]
  {
    if r.key in Keys(list) {
      var x :| x in list && x.key == r.key;
      var j :| 0 <= j < |rs| - 1 && rs[j] == x;
      AbsorbOne(list, r, x);
    }
  }

  lemma {:induction false} AbsorbOne(list: seq<Record>, r: Record, x: Record)
    requires x in list
    ensures Upgrade(x, r) in Absorb(list, [r])
  {
    var n :| 0 <= n < |list| && list[n] == x;
    assert [r][..|[r]| - 1] == [] && Champion(x, []) == x;
    assert Absorb(list, [r])[n] == Champion(x, [r]) == Upgrade(x, r);
  }

  lemma {:induction false} PassesCutoff(cutoffs: map<string, int>, c: string, batch: seq<Record>, x: Record)
    requires DistinctKeys(batch) && x in batch
    ensures x.key in Keys(AfterCutoff(cutoffs, c, batch)) <==> c !in cutoffs || x.receivedAt > cutoffs[c]
  {
    var kept := AfterCutoff(cutoffs, c, batch);
    if x.key in Keys(kept) {
      var y :| y in kept && y.key == x.key;
      OneCopy(batch, x, y);
    }
  }

  lemma {:induction false} KeysOfBoth(a: seq<Record>, b: seq<Record>)
    ensures Keys(a + b) == Keys(a) + Keys(b)
  {
  }

  lemma {:induction false} FilledKeys(s: Store, cfg: Config, c: string, kept: seq<Record>, stamp: EventKey -> int)
    requires StoreInv(s, cfg, stamp) && Admissible(kept, c, s.cutoffs, stamp)
    ensures Keys(Held(Filled(s, cfg, c, kept).blocks, c)) == Keys(Held(s.blocks, c)) + Keys(kept)
  {
    assert ChannelInv(s, cfg, c, stamp);
    FilledList(s, cfg, c, kept, stamp);
    var held, sorted := Held(s.blocks, c), Sort(kept, EventOrder());
    SortKeeps(kept, EventOrder());
    AbsorbKeeps(held, sorted);
    FreshFacts(sorted, Keys(held));
    KeysOfBoth(Absorb(held, sorted), Novel(s, c, kept));
    assert Keys(sorted) == Keys(kept);
  }

  lemma {:induction false} RetainedKeys(blocks: seq<Block>, c: string, allowed: nat)
    ensures Keys(Held(Retain(blocks, c, allowed), c)) <= Keys(Held(blocks, c))
  {
    var l := BlocksOf(blocks, c);
    var k := RetainList(blocks, c, allowed, c);
    RecordsOfConcat(l[..k], l[k..]);
    assert l[..k] + l[k..] == l;
  }

  /** The events a channel holds after an append: what it held and what passed the cutoff, less what retention took. */
  lemma {:induction false} KeysAfterAppend(s: Store, cfg: Config, stamp: EventKey -> int, c: string, batch: seq<Record>)
    requires StoreInv(s, cfg, stamp) && AllIn(batch, c) && Stamped(batch, stamp) && c !in s.blocked
    ensures Keys(Held(Append(s, cfg, c, batch).blocks, c))
         == Keys(Held(s.blocks, c)) + Keys(AfterCutoff(s.cutoffs, c, batch)) - RetentionLoss(s, cfg, c, batch)
  {
    var kept := AfterCutoff(s.cutoffs, c, batch);
    AdmissibleAfterCutoff(s, c, batch, stamp);
    if kept != [] {
      FilledKeys(s, cfg, c, kept, stamp);
      RetainedKeys(Filled(s, cfg, c, kept).blocks, c, cfg.Allowed());
    }
  }

  /**
   * Copies of an event on both sides of a purge wait in the open tail after a replay. The tail keeps
   * the first of the best, so unless the channel holds the event already it survives sealing exactly
   * when that one copy was received after the cutoff, whatever later copies were; retention apart.
   */
  lemma {:induction false} CopiesAcrossAPurge(w: World, s: Store, c: string, copies: seq<Record>, i: nat)
    requires StoreInv(s, w.cfg, w.stamp) && AllIn(copies, c) && Stamped(copies, w.stamp) && c !in s.blocked
    requires i < |copies| && FirstOfBest(copies, i)
    ensures var sealed := TailOf(PutAll(map[], copies), c);
            copies[i].key in Keys(Held(Append(s, w.cfg, c, sealed).blocks, c)) <==>
              && (copies[i].key in Keys(Held(s.blocks, c)) || c !in s.cutoffs || copies[i].receivedAt > s.cutoffs[c])
              && copies[i].key !in RetentionLoss(s, w.cfg, c, sealed)
  {
    TailHasAll(w, copies, c);
    TailKeepsBest(w, copies, c, i);
    var sealed := TailOf(PutAll(map[], copies), c);
    KeysAfterAppend(s, w.cfg, w.stamp, c, sealed);
    PassesCutoff(s.cutoffs, c, sealed, copies[i]);
  }

  /**
   * So a copy received after the purge does get lost: when it arrives second and is not strictly
   * better than the copy from before the purge, or first and that one is strictly better.
   */
  lemma {:induction false} TwoCopiesAcrossAPurge(w: World, s: Store, early: Record, late: Record)
    requires StoreInv(s, w.cfg, w.stamp) && Stamped([early, late], w.stamp)
    requires early.key == late.key && early.channel == late.channel && late.channel !in s.blocked
    requires BlocksOf(s.blocks, late.channel) == [] && late.channel in s.cutoffs
    requires early.receivedAt <= s.cutoffs[late.channel] < late.receivedAt
    ensures var c := late.channel;
            && (late.key in Keys(Held(Append(s, w.cfg, c, TailOf(PutAll(map[], [early, late]), c)).blocks, c)) <==> late.ShouldReplace(early))
            && (late.key in Keys(Held(Append(s, w.cfg, c, TailOf(PutAll(map[], [late, early]), c)).blocks, c)) <==> !early.ShouldReplace(late))
  {
    TwoWait(early, late);
    TwoWait(late, early);
    AloneInChannel(s, w.cfg, w.stamp, Upgrade(early, late));
    AloneInChannel(s, w.cfg, w.stamp, Upgrade(late, early));
  }

  lemma {:induction false} TwoWait(a: Record, b: Record)
    requires a.key == b.key && a.channel == b.channel
    ensures TailOf(PutAll(map[], [a, b]), a.channel) == [Upgrade(a, b)]
  {
    assert [a, b][..|[a, b]| - 1] == [a];
    OneWaits(a);
    CopyWaits(PutAll(map[], [a]), a, b);
  }

  lemma {:induction false} OneWaits(a: Record)
    ensures TailOf(PutAll(map[], [a]), a.channel) == [a]
  {
    assert [a][..|[a]| - 1] == [];
    assert PutAll(map[], []) == map[] && TailOf(map[], a.channel) == [];
    assert a.key !in Keys([]) && [] + [a] == [a];
  }

  lemma {:induction false} CopyWaits(tail: Tail, a: Record, b: Record)
    requires TailOf(tail, a.channel) == [a] && a.key == b.key && a.channel == b.channel
    ensures TailOf(TailPut(tail, b), a.channel) == [Upgrade(a, b)]
  {
    assert a in [a];
    assert b.key in Keys([a]);
    assert [b][..|[b]| - 1] == [] && Champion(a, []) == a;
    assert Absorb([a], [b]) == [Upgrade(a, b)];
  }

  /* ---------- ids of deleted blocks ---------- */

  /** The id of the newest block is given out again once that block is deleted. */
  lemma {:induction false} IdsAreReused(blocks: seq<Block>)
    requires AscendingIds(blocks) && |blocks| > 1
    ensures NextId(blocks[..|blocks| - 1]) <= blocks[|blocks| - 1].id
    ensures NextId(blocks[..|blocks| - 1]) == blocks[|blocks| - 1].id <==> blocks[|blocks| - 2].id + 1 == blocks[|blocks| - 1].id
  {
  }

  /** A record stored alone in a database without blocks is in block 1. */
  lemma {:induction false} OnlyBlock(s: Store, cfg: Config, r: Record)
    requires cfg.Valid() && s.blocks == [] && r.channel !in s.blocked && r.channel !in s.cutoffs
    ensures var out := Append(s, cfg, r.channel, [r]).blocks; |out| == 1 && out[0].id == 1
  {
    NovelInEmpty(s, r);
    assert AfterCutoff(s.cutoffs, r.channel, [r]) == [r] && Upgraded(s, cfg, r.channel, [r]) == [];
    var next := RowOf(s, r.channel).next;
    var block := FirstChunk([], r.channel, next, [r], cfg);
    OneChunk(r, next, cfg);
    assert Filled(s, cfg, r.channel, [r]).blocks == [block];
    assert [block][1..] == [] && BlocksOf([block], r.channel) == [block];
    assert Messages([block]) == block.count + Messages([]);
    assert Retain([block], r.channel, cfg.Allowed()) == [block];
  }

  lemma {:induction false} OneChunk(r: Record, next: int, cfg: Config)
    requires cfg.Valid()
    ensures var block := FirstChunk([], r.channel, next, [r], cfg);
            AddChunks([], r.channel, next, [r], cfg).0 == [block] && block.count == 1 && block.channel == r.channel && block.id == 1
  {
    assert [r][..ChunkSize([r], cfg)] == [r] && [r][ChunkSize([r], cfg)..] == [];
    var block := FirstChunk([], r.channel, next, [r], cfg);
    assert [] + [block] == [block];
    assert AddChunks([block], r.channel, next + 1, [], cfg) == ([block], next + 1);
  }
}
