/** Appending a channel batch: what it keeps, what it stores and what it may drop. */
module Appending {
  import opened Ordering
  import opened Records
  import opened Tables
  import opened Lists
  import opened Invariants

  /** What holds of one channel's list of blocks, apart from its size. */
  ghost predicate ListInv(l: seq<Block>, channel: string, next: int, cfg: Config, cutoffs: map<string, int>, stamp: EventKey -> int) {
    && Sane(l, channel, cfg)
    && Sequenced(l, next)
    && DistinctKeys(RecordsOf(l))
    && Stamped(RecordsOf(l), stamp)
    && (channel in cutoffs ==> forall r <- RecordsOf(l) :: r.receivedAt > cutoffs[channel])
  }

  /** A batch of one channel whose records may be stored there. */
  ghost predicate Admissible(rs: seq<Record>, channel: string, cutoffs: map<string, int>, stamp: EventKey -> int) {
    && AllIn(rs, channel)
    && Stamped(rs, stamp)
    && (channel in cutoffs ==> forall r <- rs :: r.receivedAt > cutoffs[channel])
  }

  lemma {:induction false} UpgradeKeeps(l: seq<Block>, channel: string, next: int, rs: seq<Record>, cfg: Config, cutoffs: map<string, int>, stamp: EventKey -> int)
    requires ListInv(l, channel, next, cfg, cutoffs, stamp) && Admissible(rs, channel, cutoffs, stamp)
    ensures ListInv(UpgradeBlocks(l, channel, rs, cfg), channel, next, cfg, cutoffs, stamp)
    ensures RecordsOf(UpgradeBlocks(l, channel, rs, cfg)) == Absorb(RecordsOf(l), rs)
    ensures Messages(UpgradeBlocks(l, channel, rs, cfg)) == Messages(l)
  {
    UpgradeRecords(l, channel, rs, cfg);
    UpgradedSane(l, channel, next, rs, cfg);
    AbsorbedAdmissible(RecordsOf(l), rs, channel, cutoffs, stamp);
  }

  lemma {:induction false} UpgradedSane(l: seq<Block>, channel: string, next: int, rs: seq<Record>, cfg: Config)
    requires Sane(l, channel, cfg) && Sequenced(l, next) && AllIn(rs, channel)
    ensures Sane(UpgradeBlocks(l, channel, rs, cfg), channel, cfg) && Sequenced(UpgradeBlocks(l, channel, rs, cfg), next)
  {
    UpgradeAt(l, channel, rs, cfg);
    forall i | 0 <= i < |l|
      ensures var u := UpgradeBlock(l[i], channel, rs, cfg);
              Encoded(u, cfg) && u.channel == channel && |u.records| == |l[i].records| && u.sequence == l[i].sequence
    {
      UpgradedBlockOk(l[i], channel, rs, cfg);
    }
  }

  lemma {:induction false} AbsorbedAdmissible(held: seq<Record>, rs: seq<Record>, channel: string, cutoffs: map<string, int>, stamp: EventKey -> int)
    requires DistinctKeys(held) && Stamped(held, stamp) && Admissible(rs, channel, cutoffs, stamp)
    requires channel in cutoffs ==> forall r <- held :: r.receivedAt > cutoffs[channel]
    ensures DistinctKeys(Absorb(held, rs)) && Stamped(Absorb(held, rs), stamp)
    ensures channel in cutoffs ==> forall r <- Absorb(held, rs) :: r.receivedAt > cutoffs[channel]
  {
    AbsorbKeeps(held, rs);
  }

  lemma {:induction false} UpgradedBlockOk(b: Block, channel: string, rs: seq<Record>, cfg: Config)
    requires Encoded(b, cfg) && b.channel == channel && AllIn(rs, channel)
    ensures var u := UpgradeBlock(b, channel, rs, cfg);
            Encoded(u, cfg) && u.channel == channel && |u.records| == |b.records|
  {
    AbsorbKeeps(b.records, rs);
  }

  lemma {:induction false} ChunksKeep(blocks: seq<Block>, channel: string, next: int, rs: seq<Record>, cfg: Config,
                                      cutoffs: map<string, int>, stamp: EventKey -> int)
    requires cfg.Valid() && AscendingIds(blocks)
    requires ListInv(BlocksOf(blocks, channel), channel, next, cfg, cutoffs, stamp) && Admissible(rs, channel, cutoffs, stamp)
    requires DistinctKeys(Held(blocks, channel) + rs)
    ensures var (out, next') := AddChunks(blocks, channel, next, rs, cfg);
            AscendingIds(out) && ListInv(BlocksOf(out, channel), channel, next', cfg, cutoffs, stamp)
    decreases |rs|
  {
    if rs != [] {
      var n := ChunkSize(rs, cfg);
      var more := blocks + [FirstChunk(blocks, channel, next, rs, cfg)];
      ChunkStep(blocks, channel, next, rs, cfg, cutoffs, stamp);
      ChunksKeep(more, channel, next + 1, rs[n..], cfg, cutoffs, stamp);
      AddOneChunk(blocks, channel, next, rs, cfg);
    }
  }

  lemma {:induction false} AddOneChunk(blocks: seq<Block>, channel: string, next: int, rs: seq<Record>, cfg: Config)
    requires cfg.Valid() && rs != []
    ensures AddChunks(blocks, channel, next, rs, cfg)
         == AddChunks(blocks + [FirstChunk(blocks, channel, next, rs, cfg)], channel, next + 1, rs[ChunkSize(rs, cfg)..], cfg)
  {
  }

  /** The first chunk goes in, the rest may still follow. */
  lemma {:induction false} ChunkStep(blocks: seq<Block>, channel: string, next: int, rs: seq<Record>, cfg: Config,
                                     cutoffs: map<string, int>, stamp: EventKey -> int)
    requires cfg.Valid() && AscendingIds(blocks) && rs != []
    requires ListInv(BlocksOf(blocks, channel), channel, next, cfg, cutoffs, stamp) && Admissible(rs, channel, cutoffs, stamp)
    requires DistinctKeys(Held(blocks, channel) + rs)
    ensures var n, more := ChunkSize(rs, cfg), blocks + [FirstChunk(blocks, channel, next, rs, cfg)];
            && AscendingIds(more) && ListInv(BlocksOf(more, channel), channel, next + 1, cfg, cutoffs, stamp)
            && Admissible(rs[n..], channel, cutoffs, stamp) && DistinctKeys(Held(more, channel) + rs[n..])
  {
    var n := ChunkSize(rs, cfg);
    var b := FirstChunk(blocks, channel, next, rs, cfg);
    var l := BlocksOf(blocks, channel);
    OneMore(blocks, b, channel);
    assert Held(blocks + [b], channel) == Held(blocks, channel) + rs[..n];
    Regroup(Held(blocks, channel), rs, n);
    DistinctConcat(Held(blocks, channel) + rs[..n], rs[n..]);
    AdmissibleParts(rs, n, channel, cutoffs, stamp);
    OneMoreInList(l, b, channel, next, cfg, cutoffs, stamp);
  }

  lemma {:induction false} AdmissibleParts(rs: seq<Record>, n: nat, channel: string, cutoffs: map<string, int>, stamp: EventKey -> int)
    requires n <= |rs| && Admissible(rs, channel, cutoffs, stamp)
    ensures Admissible(rs[..n], channel, cutoffs, stamp) && Admissible(rs[n..], channel, cutoffs, stamp)
  {
  }

  lemma {:induction false} OneMoreInList(l: seq<Block>, b: Block, channel: string, next: int, cfg: Config, cutoffs: map<string, int>, stamp: EventKey -> int)
    requires ListInv(l, channel, next, cfg, cutoffs, stamp) && Admissible(b.records, channel, cutoffs, stamp)
    requires Encoded(b, cfg) && b.channel == channel && |b.records| <= cfg.blockMessages && b.sequence == next
    requires DistinctKeys(RecordsOf(l) + b.records) && RecordsOf(l + [b]) == RecordsOf(l) + b.records
    ensures ListInv(l + [b], channel, next + 1, cfg, cutoffs, stamp)
  {
    var more := l + [b];
    forall x | x in more ensures Encoded(x, cfg) && x.channel == channel && |x.records| <= cfg.blockMessages && x.sequence < next + 1 {
      assert x in l || x == b;
    }
  }

  lemma {:induction false} UpgradedList(s: Store, cfg: Config, channel: string, kept: seq<Record>, stamp: EventKey -> int)
    requires cfg.Valid() && AscendingIds(s.blocks) && Admissible(kept, channel, s.cutoffs, stamp)
    requires ListInv(BlocksOf(s.blocks, channel), channel, RowOf(s, channel).next, cfg, s.cutoffs, stamp)
    ensures var up := Upgraded(s, cfg, channel, kept);
            && AscendingIds(up)
            && ListInv(BlocksOf(up, channel), channel, RowOf(s, channel).next, cfg, s.cutoffs, stamp)
            && Held(up, channel) == Absorb(Held(s.blocks, channel), Sort(kept, EventOrder()))
            && Messages(BlocksOf(up, channel)) == Messages(BlocksOf(s.blocks, channel))
            && forall c :: c != channel ==> BlocksOf(up, c) == BlocksOf(s.blocks, c)
  {
    var sorted := Sort(kept, EventOrder());
    SortKeeps(kept, EventOrder());
    UpgradeAt(s.blocks, channel, sorted, cfg);
    UpgradeList(s.blocks, channel, sorted, cfg, channel);
    UpgradeKeeps(BlocksOf(s.blocks, channel), channel, RowOf(s, channel).next, sorted, cfg, s.cutoffs, stamp);
    forall c | c != channel ensures BlocksOf(Upgraded(s, cfg, channel, kept), c) == BlocksOf(s.blocks, c) {
      UpgradeList(s.blocks, channel, sorted, cfg, c);
    }
  }

  lemma {:induction false} NovelFacts(s: Store, channel: string, kept: seq<Record>, stamp: EventKey -> int)
    requires Admissible(kept, channel, s.cutoffs, stamp) && DistinctKeys(Held(s.blocks, channel))
    ensures var novel := Novel(s, channel, kept);
            && Admissible(novel, channel, s.cutoffs, stamp)
            && DistinctKeys(Absorb(Held(s.blocks, channel), Sort(kept, EventOrder())) + novel)
            && (novel == [] <==> Keys(kept) <= Keys(Held(s.blocks, channel)))
  {
    var sorted, held := Sort(kept, EventOrder()), Held(s.blocks, channel);
    SortKeeps(kept, EventOrder());
    assert Keys(sorted) == Keys(kept);
    var novel := Novel(s, channel, kept);
    FreshFacts(sorted, Keys(held));
    AbsorbKeeps(held, sorted);
    DistinctConcat(Absorb(held, sorted), novel);
    if novel != [] {
      assert novel[0].key in Keys(novel);
    } else {
      assert Keys(sorted) - Keys(held) == {};
      assert forall k <- Keys(kept) :: k in Keys(sorted) && k !in Keys(sorted) - Keys(held);
    }
  }

  /** The list of the channel before and after upgrades and new blocks. */
  lemma {:induction false} FilledList(s: Store, cfg: Config, channel: string, kept: seq<Record>, stamp: EventKey -> int)
    requires cfg.Valid() && AscendingIds(s.blocks) && Admissible(kept, channel, s.cutoffs, stamp)
    requires ListInv(BlocksOf(s.blocks, channel), channel, RowOf(s, channel).next, cfg, s.cutoffs, stamp)
    ensures var f := Filled(s, cfg, channel, kept);
            && AscendingIds(f.blocks)
            && ListInv(BlocksOf(f.blocks, channel), channel, RowOf(f, channel).next, cfg, s.cutoffs, stamp)
            && Held(f.blocks, channel)
               == Absorb(Held(s.blocks, channel), Sort(kept, EventOrder())) + Novel(s, channel, kept)
            && (Keys(kept) <= Keys(Held(s.blocks, channel)) ==>
                  Messages(BlocksOf(f.blocks, channel)) == Messages(BlocksOf(s.blocks, channel)))
            && forall c :: c != channel ==> BlocksOf(f.blocks, c) == BlocksOf(s.blocks, c)
  {
    UpgradedList(s, cfg, channel, kept, stamp);
    NovelFacts(s, channel, kept, stamp);
    var up, novel, next := Upgraded(s, cfg, channel, kept), Novel(s, channel, kept), RowOf(s, channel).next;
    ChunksKeep(up, channel, next, novel, cfg, s.cutoffs, stamp);
    ChunksAppend(up, channel, next, novel, cfg);
    forall c | c != channel ensures BlocksOf(Filled(s, cfg, channel, kept).blocks, c) == BlocksOf(s.blocks, c) {
      ChunksElsewhere(up, channel, next, novel, cfg, c);
    }
  }

  lemma {:induction false} RetainAscends(blocks: seq<Block>, channel: string, allowed: nat)
    requires AscendingIds(blocks)
    ensures AscendingIds(Retain(blocks, channel, allowed))
    decreases |blocks|
  {
    if Messages(BlocksOf(blocks, channel)) > allowed {
      DropFirstAscends(blocks, channel);
      RetainAscends(DropFirst(blocks, channel), channel, allowed);
    }
  }

  lemma {:induction false} DropFirstAscends(blocks: seq<Block>, channel: string)
    requires AscendingIds(blocks)
    ensures AscendingIds(DropFirst(blocks, channel))
  {
    if blocks != [] && blocks[0].channel != channel {
      var rest := DropFirst(blocks[1..], channel);
      DropFirstAscends(blocks[1..], channel);
      DropFirstList(blocks[1..], channel, channel);
      forall b | b in rest ensures blocks[0].id < b.id {
        var k :| 0 <= k < |blocks[1..]| && blocks[1..][k] == b;
        assert blocks[k + 1] == b;
      }
      assert blocks[0] in blocks;
      HeadAscends(blocks[0], rest);
    }
  }

  lemma {:induction false} AdmissibleAfterCutoff(s: Store, channel: string, rs: seq<Record>, stamp: EventKey -> int)
    requires AllIn(rs, channel) && Stamped(rs, stamp)
    ensures Admissible(AfterCutoff(s.cutoffs, channel, rs), channel, s.cutoffs, stamp)
    ensures forall r <- rs :: r in AfterCutoff(s.cutoffs, channel, rs) || (channel in s.cutoffs && r.receivedAt <= s.cutoffs[channel])
  {
  }

  /** A channel whose list, row and restrictions did not change. */
  lemma {:induction false} Untouched(s: Store, s': Store, cfg: Config, c: string, stamp: EventKey -> int)
    requires cfg.Valid() && ChannelInv(s, cfg, c, stamp)
    requires BlocksOf(s'.blocks, c) == BlocksOf(s.blocks, c) && RowOf(s', c) == RowOf(s, c)
    requires s'.cutoffs == s.cutoffs && s'.blocked == s.blocked && s.channels.Keys <= s'.channels.Keys
    ensures ChannelInv(s', cfg, c, stamp)
  {
  }

  lemma {:induction false} AppendKeepsChannel(s: Store, cfg: Config, channel: string, rs: seq<Record>, stamp: EventKey -> int, c: string)
    requires StoreInv(s, cfg, stamp) && AllIn(rs, channel) && Stamped(rs, stamp)
    requires channel !in s.blocked && AfterCutoff(s.cutoffs, channel, rs) != []
    ensures ChannelInv(Append(s, cfg, channel, rs), cfg, c, stamp)
    ensures AscendingIds(Append(s, cfg, channel, rs).blocks)
  {
    var kept := AfterCutoff(s.cutoffs, channel, rs);
    AdmissibleAfterCutoff(s, channel, rs, stamp);
    assert ChannelInv(s, cfg, channel, stamp);
    FilledList(s, cfg, channel, kept, stamp);
    var f := Filled(s, cfg, channel, kept);
    RetainAscends(f.blocks, channel, cfg.Allowed());
    if c == channel {
      RetainKeepsChannel(f, cfg, channel, stamp);
    } else {
      assert ChannelInv(s, cfg, c, stamp);
      var _ := RetainList(f.blocks, channel, cfg.Allowed(), c);
      Untouched(s, Append(s, cfg, channel, rs), cfg, c, stamp);
    }
  }

  /** Appending a batch keeps every invariant of the block tables. */
  lemma {:induction false} AppendKeeps(s: Store, cfg: Config, channel: string, rs: seq<Record>, stamp: EventKey -> int)
    requires StoreInv(s, cfg, stamp) && AllIn(rs, channel) && Stamped(rs, stamp)
    ensures StoreInv(Append(s, cfg, channel, rs), cfg, stamp)
  {
    if channel !in s.blocked && AfterCutoff(s.cutoffs, channel, rs) != [] {
      AppendKeepsChannel(s, cfg, channel, rs, stamp, channel);
      forall c ensures ChannelInv(Append(s, cfg, channel, rs), cfg, c, stamp) {
        AppendKeepsChannel(s, cfg, channel, rs, stamp, c);
      }
    }
  }

  lemma {:induction false} RetainKeepsChannel(f: Store, cfg: Config, channel: string, stamp: EventKey -> int)
    requires cfg.Valid() && channel in f.channels && channel !in f.blocked
    requires ListInv(BlocksOf(f.blocks, channel), channel, RowOf(f, channel).next, cfg, f.cutoffs, stamp)
    ensures ChannelInv(f.(blocks := Retain(f.blocks, channel, cfg.Allowed())), cfg, channel, stamp)
  {
    var k := RetainList(f.blocks, channel, cfg.Allowed(), channel);
    SuffixKeeps(BlocksOf(f.blocks, channel), k, RowOf(f, channel).next);
  }

  /** Keys that retention deletes when `rs` arrives. */
  function RetentionLoss(s: Store, cfg: Config, channel: string, rs: seq<Record>): set<EventKey>
    requires cfg.Valid()
  {
    var kept := AfterCutoff(s.cutoffs, channel, rs);
    if channel in s.blocked || kept == [] then {}
    else Keys(Held(Filled(s, cfg, channel, kept).blocks, channel)) - Keys(Held(Append(s, cfg, channel, rs).blocks, channel))
  }

  /** Events of the batch that blocking or the purge cutoff turns away, and events retention deletes. */
  function AppendLoss(s: Store, cfg: Config, channel: string, rs: seq<Record>): set<(string, EventKey)>
    requires cfg.Valid()
  {
    if channel in s.blocked then set r <- rs :: (channel, r.key)
    else
      (set r <- rs | channel in s.cutoffs && r.receivedAt <= s.cutoffs[channel] :: (channel, r.key))
      + (set k <- RetentionLoss(s, cfg, channel, rs) :: (channel, k))
  }

  /** Every copy stored or arriving is stored afterwards at no lower fidelity, unless it is named as lost. */
  lemma {:induction false} AppendCovers(s: Store, cfg: Config, channel: string, rs: seq<Record>, stamp: EventKey -> int, r: Record)
    requires StoreInv(s, cfg, stamp) && AllIn(rs, channel) && Stamped(rs, stamp)
    requires Covers(Held(s.blocks, r.channel), r) || Covers(rs, r)
    ensures Covers(Held(Append(s, cfg, channel, rs).blocks, r.channel), r)
         || (r.channel, r.key) in AppendLoss(s, cfg, channel, rs)
  {
    var kept := AfterCutoff(s.cutoffs, channel, rs);
    var s' := Append(s, cfg, channel, rs);
    if channel in s.blocked {
    } else if kept == [] {
      if Covers(rs, r) {
        var x :| x in rs && x.key == r.key && x.channel == r.channel;
        AdmissibleAfterCutoff(s, channel, rs, stamp);
        assert (channel, x.key) in AppendLoss(s, cfg, channel, rs);
      }
    } else {
      AdmissibleAfterCutoff(s, channel, rs, stamp);
      assert ChannelInv(s, cfg, channel, stamp);
      FilledList(s, cfg, channel, kept, stamp);
      var f := Filled(s, cfg, channel, kept);
      if r.channel != channel {
        var _ := RetainList(f.blocks, channel, cfg.Allowed(), r.channel);
      } else if (forall x <- rs :: x.key == r.key ==> x in kept) || Covers(Held(s.blocks, channel), r) {
        FilledCovers(s, cfg, channel, kept, stamp, r);
        RetainedCovers(f, cfg, channel, stamp, r);
        if !Covers(Held(s'.blocks, channel), r) {
          assert r.key in RetentionLoss(s, cfg, channel, rs);
        }
      } else {
        var x :| x in rs && x.key == r.key && x !in kept;
        assert (channel, x.key) in AppendLoss(s, cfg, channel, rs);
      }
    }
  }

  lemma {:induction false} FilledCovers(s: Store, cfg: Config, channel: string, kept: seq<Record>, stamp: EventKey -> int, r: Record)
    requires StoreInv(s, cfg, stamp) && channel !in s.blocked && r.channel == channel
    requires Admissible(kept, channel, s.cutoffs, stamp)
    requires Covers(Held(s.blocks, channel), r) || Covers(kept, r)
    ensures Covers(Held(Filled(s, cfg, channel, kept).blocks, channel), r)
  {
    var held := Held(s.blocks, channel);
    var sorted := Sort(kept, EventOrder());
    SortKeeps(kept, EventOrder());
    assert ChannelInv(s, cfg, channel, stamp);
    FilledList(s, cfg, channel, kept, stamp);
    HeldIn(s, cfg, channel, stamp);
    var out := Absorb(held, sorted) + Novel(s, channel, kept);
    if Covers(held, r) {
      AbsorbCovers(held, sorted, channel, r);
      CoversMonotone(Absorb(held, sorted), out, r);
    } else {
      var x :| x in kept && x.key == r.key && x.channel == r.channel && x.fidelity.Rank() >= r.fidelity.Rank();
      if x.key in Keys(held) {
        AbsorbCovers(held, sorted, channel, x);
        CoversMonotone(Absorb(held, sorted), out, x);
      } else {
        FreshCovers(sorted, Keys(held), channel, x);
        CoversMonotone(Fresh(sorted, Keys(held)), out, x);
      }
    }
  }

  lemma {:induction false} HeldIn(s: Store, cfg: Config, channel: string, stamp: EventKey -> int)
    requires cfg.Valid() && ChannelInv(s, cfg, channel, stamp)
    ensures AllIn(Held(s.blocks, channel), channel)
  {
    RecordsOfSound(BlocksOf(s.blocks, channel));
  }

  lemma {:induction false} RetainedCovers(f: Store, cfg: Config, channel: string, stamp: EventKey -> int, r: Record)
    requires cfg.Valid() && Covers(Held(f.blocks, channel), r) && DistinctKeys(Held(f.blocks, channel))
    ensures Covers(Held(Retain(f.blocks, channel, cfg.Allowed()), channel), r)
         || r.key !in Keys(Held(Retain(f.blocks, channel, cfg.Allowed()), channel))
  {
    var l := BlocksOf(f.blocks, channel);
    var k := RetainList(f.blocks, channel, cfg.Allowed(), channel);
    SuffixKeeps(l, k, 0);
    var x :| x in RecordsOf(l) && x.key == r.key && x.channel == r.channel && x.fidelity.Rank() >= r.fidelity.Rank();
    var after := RecordsOf(l[k..]);
    if r.key in Keys(after) {
      var y :| y in after && y.key == r.key;
      assert y in RecordsOf(l);
      OneCopy(RecordsOf(l), x, y);
    }
  }

  lemma {:induction false} OneCopy(rs: seq<Record>, x: Record, y: Record)
    requires DistinctKeys(rs) && x in rs && y in rs && x.key == y.key
    ensures x == y
  {
  }

  /** Nothing is stored that was neither stored before nor in the batch. */
  lemma {:induction false} AppendInventsNothing(s: Store, cfg: Config, channel: string, rs: seq<Record>, stamp: EventKey -> int, c: string)
    requires StoreInv(s, cfg, stamp) && AllIn(rs, channel) && Stamped(rs, stamp)
    ensures forall r <- Held(Append(s, cfg, channel, rs).blocks, c) :: r in Held(s.blocks, c) || (c == channel && r in rs)
  {
    var kept := AfterCutoff(s.cutoffs, channel, rs);
    if channel !in s.blocked && kept != [] {
      AdmissibleAfterCutoff(s, channel, rs, stamp);
      assert ChannelInv(s, cfg, channel, stamp);
      FilledList(s, cfg, channel, kept, stamp);
      var f := Filled(s, cfg, channel, kept);
      var sorted := Sort(kept, EventOrder());
      SortKeeps(kept, EventOrder());
      var k := RetainList(f.blocks, channel, cfg.Allowed(), c);
      SuffixKeeps(BlocksOf(f.blocks, channel), k, 0);
      FreshFacts(sorted, Keys(Held(s.blocks, channel)));
      AbsorbKeeps(Held(s.blocks, channel), sorted);
    }
  }
}
