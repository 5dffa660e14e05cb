/** The indexed store holds what the reference store holds, and answers alike. */
module Refinement {
  import opened Ordering
  import opened Records
  import opened Tables
  import opened Lists
  import opened Invariants
  import opened Appending
  import opened Batches
  import opened Queries
  import opened MemoryStore
  import opened MachineSteps

  function RecordLists(l: seq<Block>): seq<seq<Record>> {
    if l == [] then [] else [l[0].records] + RecordLists(l[1..])
  }

  function HeldBy(m: map<string, seq<seq<Record>>>, channel: string): seq<seq<Record>> {
    if channel in m then m[channel] else []
  }

  /** The reference store after a sequence of batches. */
  function MemoryRun(cfg: Config, batches: seq<seq<Record>>): map<string, seq<seq<Record>>>
    requires cfg.Valid()
  {
    if batches == [] then map[]
    else
      var before, rs := MemoryRun(cfg, batches[..|batches| - 1]), batches[|batches| - 1];
      if rs == [] then before else before[rs[0].channel := Pushed(HeldBy(before, rs[0].channel), cfg, rs)]
  }

  ghost predicate Pairwise(a: seq<Record>, b: seq<Record>, rel: (Record, Record) -> bool) {
    |a| == |b| && forall i :: 0 <= i < |a| ==> rel(a[i], b[i])
  }

  /** Block by block and position by position, related records. */
  ghost predicate Alike(a: seq<seq<Record>>, b: seq<seq<Record>>, rel: (Record, Record) -> bool) {
    |a| == |b| && forall i :: 0 <= i < |a| ==> Pairwise(a[i], b[i], rel)
  }

  /** The relation keeps keys apart and survives the upgrades a batch causes. */
  ghost predicate Survives(rel: (Record, Record) -> bool, rs: seq<Record>) {
    && (forall x, y :: rel(x, y) ==> x.key == y.key && rel(Champion(x, rs), y))
    && (forall x <- rs :: rel(Champion(x, rs), x))
  }

  lemma {:induction false} AlikeFlat(a: seq<seq<Record>>, b: seq<seq<Record>>, rel: (Record, Record) -> bool)
    requires Alike(a, b, rel)
    ensures Pairwise(Flat(a), Flat(b), rel)
  {
    if a != [] {
      assert Pairwise(a[0], b[0], rel);
      AlikeFlat(a[1..], b[1..], rel);
    }
  }

  lemma {:induction false} PairwiseKeys(a: seq<Record>, b: seq<Record>, rel: (Record, Record) -> bool)
    requires Pairwise(a, b, rel) && forall x, y :: rel(x, y) ==> x.key == y.key
    ensures Keys(a) == Keys(b)
  {
    forall k | k in Keys(a) ensures k in Keys(b) {
      var i :| 0 <= i < |a| && a[i].key == k;
      assert rel(a[i], b[i]) && b[i] in b;
    }
    forall k | k in Keys(b) ensures k in Keys(a) {
      var i :| 0 <= i < |b| && b[i].key == k;
      assert rel(a[i], b[i]) && a[i] in a;
    }
  }

  lemma {:induction false} FlatLists(l: seq<Block>)
    ensures Flat(RecordLists(l)) == RecordsOf(l)
    ensures |RecordLists(l)| == |l|
    ensures forall i :: 0 <= i < |l| ==> RecordLists(l)[i] == l[i].records
  {
    if l != [] {
      FlatLists(l[1..]);
    }
  }

  lemma {:induction false} ChunksAlike(a: seq<Record>, b: seq<Record>, cfg: Config, rel: (Record, Record) -> bool)
    requires cfg.Valid() && Pairwise(a, b, rel)
    ensures Alike(Chunks(a, cfg), Chunks(b, cfg), rel)
    decreases |a|
  {
    if a != [] {
      var n := ChunkSize(a, cfg);
      ChunksAlike(a[n..], b[n..], cfg, rel);
      assert Pairwise(a[..n], b[..n], rel);
    }
  }

  lemma {:induction false} ConcatAlike(a: seq<seq<Record>>, b: seq<seq<Record>>, c: seq<seq<Record>>, d: seq<seq<Record>>, rel: (Record, Record) -> bool)
    requires Alike(a, b, rel) && Alike(c, d, rel)
    ensures Alike(a + c, b + d, rel)
  {
  }

  lemma {:induction false} PopAlike(a: seq<seq<Record>>, b: seq<seq<Record>>, allowed: nat, rel: (Record, Record) -> bool)
    requires Alike(a, b, rel)
    ensures Alike(PopFront(a, allowed), PopFront(b, allowed), rel)
  {
    AlikeFlat(a, b, rel);
    if a != [] && |Flat(a)| > allowed {
      PopAlike(a[1..], b[1..], allowed, rel);
    }
  }

  /** The blocks that AddChunks appends hold the chunks of the reference store. */
  lemma {:induction false} AddedChunks(blocks: seq<Block>, channel: string, next: int, rs: seq<Record>, cfg: Config)
    requires cfg.Valid()
    ensures RecordLists(BlocksOf(AddChunks(blocks, channel, next, rs, cfg).0, channel))
         == RecordLists(BlocksOf(blocks, channel)) + Chunks(rs, cfg)
    decreases |rs|
  {
    if rs == [] {
      assert RecordLists(BlocksOf(blocks, channel)) + [] == RecordLists(BlocksOf(blocks, channel));
    } else {
      var b := FirstChunk(blocks, channel, next, rs, cfg);
      var n := ChunkSize(rs, cfg);
      AddedChunks(blocks + [b], channel, next + 1, rs[n..], cfg);
      OneMore(blocks, b, channel);
      ListsOneMore(BlocksOf(blocks, channel), b);
      ListsRegroup(RecordLists(BlocksOf(blocks, channel)), rs[..n], Chunks(rs[n..], cfg));
    }
  }

  lemma {:induction false} ListsRegroup(a: seq<seq<Record>>, x: seq<Record>, b: seq<seq<Record>>)
    ensures a + [x] + b == a + ([x] + b)
  {
  }

  lemma {:induction false} ListsOneMore(l: seq<Block>, b: Block)
    ensures RecordLists(l + [b]) == RecordLists(l) + [b.records]
  {
    if l != [] {
      assert (l + [b])[1..] == l[1..] + [b];
      ListsOneMore(l[1..], b);
    } else {
      assert RecordLists([b]) == [b.records] + RecordLists([]);
    }
  }

  lemma {:induction false} UpgradedAlike(l: seq<Block>, channel: string, rs: seq<Record>, cfg: Config, m: seq<seq<Record>>, rel: (Record, Record) -> bool)
    requires Sane(l, channel, cfg) && Survives(rel, rs) && Alike(RecordLists(l), m, rel)
    ensures Alike(RecordLists(UpgradeBlocks(l, channel, rs, cfg)), m, rel)
  {
    var u := UpgradeBlocks(l, channel, rs, cfg);
    UpgradeAt(l, channel, rs, cfg);
    FlatLists(l);
    FlatLists(u);
    forall i | 0 <= i < |l| ensures Pairwise(u[i].records, m[i], rel) {
      assert l[i] in l;
      assert Pairwise(l[i].records, m[i], rel);
    }
  }

  /** A batch keeps the stores alike. */
  lemma {:induction false} AppendAlike(s: Store, cfg: Config, stamp: EventKey -> int, rs: seq<Record>, m: seq<seq<Record>>, rel: (Record, Record) -> bool)
    requires StoreInv(s, cfg, stamp) && Batch(rs, stamp) && s.blocked == {} && s.cutoffs == map[]
    requires Survives(rel, Sort(rs, EventOrder())) && Alike(RecordLists(BlocksOf(s.blocks, rs[0].channel)), m, rel)
    ensures Alike(RecordLists(BlocksOf(Append(s, cfg, rs[0].channel, rs).blocks, rs[0].channel)), Pushed(m, cfg, rs), rel)
  {
    var channel := rs[0].channel;
    assert ChannelInv(s, cfg, channel, stamp);
    var l := BlocksOf(s.blocks, channel);
    var sorted := Sort(rs, EventOrder());
    FlatLists(l);
    AlikeFlat(RecordLists(l), m, rel);
    PairwiseKeys(Held(s.blocks, channel), Flat(m), rel);
    UpgradedAlike(l, channel, sorted, cfg, m, rel);
    UpgradeList(s.blocks, channel, sorted, cfg, channel);
    var up := Upgraded(s, cfg, channel, rs);
    var novel, firsts := Novel(s, channel, rs), Firsts(sorted, Keys(Flat(m)));
    FirstsAreFirst(sorted, Keys(Flat(m)));
    assert Pairwise(novel, firsts, rel);
    ChunksAlike(novel, firsts, cfg, rel);
    AddedChunks(up, channel, RowOf(s, channel).next, novel, cfg);
    ConcatAlike(RecordLists(BlocksOf(up, channel)), m, Chunks(novel, cfg), Chunks(firsts, cfg), rel);
    RetentionAlike(s, cfg, stamp, rs, m + Chunks(firsts, cfg), rel);
  }

  lemma {:induction false} RetentionAlike(s: Store, cfg: Config, stamp: EventKey -> int, rs: seq<Record>, full: seq<seq<Record>>, rel: (Record, Record) -> bool)
    requires StoreInv(s, cfg, stamp) && Batch(rs, stamp) && s.blocked == {} && s.cutoffs == map[]
    requires var c := rs[0].channel; Alike(RecordLists(BlocksOf(Filled(s, cfg, c, rs).blocks, c)), full, rel)
    ensures Alike(RecordLists(BlocksOf(Append(s, cfg, rs[0].channel, rs).blocks, rs[0].channel)), PopFront(full, cfg.Allowed()), rel)
  {
    var channel := rs[0].channel;
    var f := Filled(s, cfg, channel, rs).blocks;
    var l := BlocksOf(f, channel);
    FilledFacts(s, cfg, stamp, rs);
    OpenAppend(s, cfg, rs);
    PopAlike(RecordLists(l), full, cfg.Allowed(), rel);
    if Keys(rs) <= Keys(Held(s.blocks, channel)) {
      NothingToPop(l, cfg.Allowed());
    } else {
      RetainListPops(f, channel, cfg);
    }
  }

  lemma {:induction false} FilledFacts(s: Store, cfg: Config, stamp: EventKey -> int, rs: seq<Record>)
    requires StoreInv(s, cfg, stamp) && Batch(rs, stamp) && s.cutoffs == map[]
    ensures var channel := rs[0].channel; var l := BlocksOf(Filled(s, cfg, channel, rs).blocks, channel);
            && Sane(l, channel, cfg) && (forall b <- l :: b.count == |b.records|)
            && (Keys(rs) <= Keys(Held(s.blocks, channel)) ==> Messages(l) <= cfg.Allowed())
  {
    assert ChannelInv(s, cfg, rs[0].channel, stamp);
    FilledList(s, cfg, rs[0].channel, rs, stamp);
  }

  lemma {:induction false} OpenAppend(s: Store, cfg: Config, rs: seq<Record>)
    requires cfg.Valid() && rs != [] && s.blocked == {} && s.cutoffs == map[]
    ensures var channel := rs[0].channel; var f := Filled(s, cfg, channel, rs).blocks;
            Append(s, cfg, channel, rs).blocks == if Keys(rs) <= Keys(Held(s.blocks, channel)) then f else Retain(f, channel, cfg.Allowed())
  {
  }

  lemma {:induction false} NothingToPop(l: seq<Block>, allowed: nat)
    requires Messages(l) <= allowed && forall b <- l :: b.count == |b.records|
    ensures PopFront(RecordLists(l), allowed) == RecordLists(l)
  {
    FlatLists(l);
    MessagesAreRecords(l);
  }

  /** Retention pops the blocks the reference store pops. */
  lemma {:induction false} RetainListPops(blocks: seq<Block>, channel: string, cfg: Config)
    requires cfg.Valid() && Sane(BlocksOf(blocks, channel), channel, cfg)
    ensures RecordLists(BlocksOf(Retain(blocks, channel, cfg.Allowed()), channel))
         == PopFront(RecordLists(BlocksOf(blocks, channel)), cfg.Allowed())
    decreases |blocks|
  {
    var l := BlocksOf(blocks, channel);
    FlatLists(l);
    MessagesAreRecords(l);
    if Messages(l) > cfg.Allowed() {
      DropFirstList(blocks, channel, channel);
      RetainListPops(DropFirst(blocks, channel), channel, cfg);
    }
  }

  /** After any batches of one channel each, both stores hold blocks alike in every channel. */
  lemma {:induction false} RunsAlike(cfg: Config, stamp: EventKey -> int, batches: seq<seq<Record>>, rel: (Record, Record) -> bool, c: string)
    requires cfg.Valid() && Batched(batches, stamp)
    requires forall rs <- batches :: Survives(rel, Sort(rs, EventOrder()))
    ensures Alike(RecordLists(BlocksOf(AppendAll(EMPTY, cfg, batches).blocks, c)), HeldBy(MemoryRun(cfg, batches), c), rel)
  {
    if batches != [] {
      var front, rs := batches[..|batches| - 1], batches[|batches| - 1];
      assert rs in batches;
      RunsAlike(cfg, stamp, front, rel, c);
      var before := AppendAll(EMPTY, cfg, front);
      EmptySound(cfg, stamp);
      AppendAllKeeps(EMPTY, cfg, front, stamp);
      AppendAllFrame(EMPTY, cfg, front);
      if c == rs[0].channel {
        AppendAlike(before, cfg, stamp, rs, HeldBy(MemoryRun(cfg, front), c), rel);
      } else {
        assert ChannelInv(before, cfg, rs[0].channel, stamp);
        FilledList(before, cfg, rs[0].channel, rs, stamp);
        var _ := RetainList(Filled(before, cfg, rs[0].channel, rs).blocks, rs[0].channel, cfg.Allowed(), c);
      }
    }
  }

  lemma {:induction false} EmptySound(cfg: Config, stamp: EventKey -> int)
    requires cfg.Valid()
    ensures StoreInv(EMPTY, cfg, stamp)
  {
    assert forall c :: ChannelInv(EMPTY, cfg, c, stamp);
  }

  /** Whatever the fidelities, both stores hold the same events in the same blocks, in the same order. */
  lemma {:induction false} SameEvents(cfg: Config, stamp: EventKey -> int, batches: seq<seq<Record>>, c: string)
    requires cfg.Valid() && Batched(batches, stamp)
    ensures Alike(RecordLists(BlocksOf(AppendAll(EMPTY, cfg, batches).blocks, c)), HeldBy(MemoryRun(cfg, batches), c),
                  (x: Record, y: Record) => x.key == y.key)
  {
    var rel := (x: Record, y: Record) => x.key == y.key;
    forall rs | rs in batches ensures Survives(rel, Sort(rs, EventOrder())) {
      forall x: Record ensures Champion(x, Sort(rs, EventOrder())).key == x.key { ChampionWins(x, Sort(rs, EventOrder())); }
    }
    RunsAlike(cfg, stamp, batches, rel, c);
  }

  /** With one fidelity throughout, they hold the same records and answer every query alike. */
  lemma {:induction false} SameAnswers(cfg: Config, stamp: EventKey -> int, batches: seq<seq<Record>>, f: Fidelity, request: QueryRequest)
    requires cfg.Valid() && Batched(batches, stamp)
    requires forall rs <- batches, r <- rs :: r.fidelity == f
    ensures var c := request.channel;
            var indexed, simple := AppendAll(EMPTY, cfg, batches), HeldBy(MemoryRun(cfg, batches), c);
            && RecordLists(BlocksOf(indexed.blocks, c)) == simple
            && Answer(Held(indexed.blocks, c), request) == Answer(Flat(simple), request)
  {
    var rel := (x: Record, y: Record) => x == y && x.fidelity == f;
    forall rs | rs in batches ensures Survives(rel, Sort(rs, EventOrder())) {
      var sorted := Sort(rs, EventOrder());
      SortKeeps(rs, EventOrder());
      forall x: Record | x.fidelity == f ensures Champion(x, sorted) == x { ChampionWins(x, sorted); }
    }
    var c := request.channel;
    RunsAlike(cfg, stamp, batches, rel, c);
    var a, b := RecordLists(BlocksOf(AppendAll(EMPTY, cfg, batches).blocks, c)), HeldBy(MemoryRun(cfg, batches), c);
    forall i | 0 <= i < |a| ensures a[i] == b[i] { assert Pairwise(a[i], b[i], rel); }
    FlatLists(BlocksOf(AppendAll(EMPTY, cfg, batches).blocks, c));
  }
}
