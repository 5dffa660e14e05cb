/** How the channel view of the block table follows insertions, upgrades and deletions. */
module Lists {
  import opened Ordering
  import opened Records
  import opened Tables

  lemma {:induction false} EventBounds(rs: seq<Record>)
    requires rs != []
    ensures forall r <- rs :: MinEvent(rs) <= r.eventAt <= MaxEvent(rs)
    ensures exists r <- rs :: r.eventAt == MinEvent(rs)
    ensures exists r <- rs :: r.eventAt == MaxEvent(rs)
  {
    if |rs| > 1 {
      EventBounds(rs[1..]);
      assert rs == [rs[0]] + rs[1..];
    }
    assert rs[0] in rs;
  }

  lemma {:induction false} BlocksOfConcat(a: seq<Block>, b: seq<Block>, channel: string)
    ensures BlocksOf(a + b, channel) == BlocksOf(a, channel) + BlocksOf(b, channel)
  {
    if a == [] {
      assert a + b == b;
    } else {
      assert (a + b)[1..] == a[1..] + b;
      BlocksOfConcat(a[1..], b, channel);
    }
  }

  lemma {:induction false} RecordsOfConcat(a: seq<Block>, b: seq<Block>)
    ensures RecordsOf(a + b) == RecordsOf(a) + RecordsOf(b)
    ensures Messages(a + b) == Messages(a) + Messages(b)
  {
    if a == [] {
      assert a + b == b;
    } else {
      assert (a + b)[1..] == a[1..] + b;
      RecordsOfConcat(a[1..], b);
    }
  }

  lemma {:induction false} BlocksOfSound(blocks: seq<Block>, channel: string)
    ensures forall b :: b in BlocksOf(blocks, channel) <==> b in blocks && b.channel == channel
  {
    if blocks != [] {
      BlocksOfSound(blocks[1..], channel);
      assert blocks == [blocks[0]] + blocks[1..];
    }
  }

  lemma {:induction false} RecordsOfSound(blocks: seq<Block>)
    ensures forall r :: r in RecordsOf(blocks) <==> exists b <- blocks :: r in b.records
  {
    if blocks != [] {
      RecordsOfSound(blocks[1..]);
      assert blocks == [blocks[0]] + blocks[1..];
    }
  }

  /** A channel's list without its first block; the other channels keep theirs. */
  lemma {:induction false} DropFirstList(blocks: seq<Block>, channel: string, other: string)
    ensures BlocksOf(DropFirst(blocks, channel), other)
         == if other == channel && BlocksOf(blocks, channel) != [] then BlocksOf(blocks, channel)[1..] else BlocksOf(blocks, other)
    ensures forall b <- DropFirst(blocks, channel) :: b in blocks
  {
    if blocks == [] {
    } else if blocks[0].channel == channel {
    } else {
      DropFirstList(blocks[1..], channel, other);
    }
  }

  lemma {:induction false} WithoutList(blocks: seq<Block>, drop: Block -> bool, channel: string)
    ensures BlocksOf(Without(blocks, drop), channel) == Without(BlocksOf(blocks, channel), drop)
  {
    if blocks != [] {
      var b, t := blocks[0], blocks[1..];
      WithoutList(t, drop, channel);
      assert ([b] + Without(t, drop))[1..] == Without(t, drop);
      assert ([b] + BlocksOf(t, channel))[1..] == BlocksOf(t, channel);
    }
  }

  lemma {:induction false} UpgradeList(blocks: seq<Block>, channel: string, rs: seq<Record>, cfg: Config, other: string)
    ensures BlocksOf(UpgradeBlocks(blocks, channel, rs, cfg), other)
         == if other == channel then UpgradeBlocks(BlocksOf(blocks, channel), channel, rs, cfg) else BlocksOf(blocks, other)
  {
    if blocks != [] {
      var b, t := blocks[0], blocks[1..];
      UpgradeList(t, channel, rs, cfg, other);
      var u := UpgradeBlock(b, channel, rs, cfg);
      assert ([u] + UpgradeBlocks(t, channel, rs, cfg))[1..] == UpgradeBlocks(t, channel, rs, cfg);
      assert ([b] + BlocksOf(t, channel))[1..] == BlocksOf(t, channel);
    }
  }

  lemma {:induction false} UpgradeAt(blocks: seq<Block>, channel: string, rs: seq<Record>, cfg: Config)
    ensures |UpgradeBlocks(blocks, channel, rs, cfg)| == |blocks|
    ensures forall i :: 0 <= i < |blocks| ==> UpgradeBlocks(blocks, channel, rs, cfg)[i] == UpgradeBlock(blocks[i], channel, rs, cfg)
  {
    if blocks != [] {
      UpgradeAt(blocks[1..], channel, rs, cfg);
    }
  }

  lemma {:induction false} UpgradeRecords(blocks: seq<Block>, channel: string, rs: seq<Record>, cfg: Config)
    requires forall b <- blocks :: b.channel == channel && b.records != [] && b.count == |b.records|
    ensures RecordsOf(UpgradeBlocks(blocks, channel, rs, cfg)) == Absorb(RecordsOf(blocks), rs)
    ensures Messages(UpgradeBlocks(blocks, channel, rs, cfg)) == Messages(blocks)
  {
    if blocks != [] {
      UpgradeRecords(blocks[1..], channel, rs, cfg);
      assert Absorb(RecordsOf(blocks), rs) == Absorb(blocks[0].records, rs) + Absorb(RecordsOf(blocks[1..]), rs);
    }
  }

  lemma {:induction false} MessagesAreRecords(blocks: seq<Block>)
    requires forall b <- blocks :: b.count == |b.records|
    ensures Messages(blocks) == |RecordsOf(blocks)|
  {
    if blocks != [] {
      MessagesAreRecords(blocks[1..]);
    }
  }

  lemma {:induction false} OneMore(blocks: seq<Block>, b: Block, other: string)
    ensures BlocksOf(blocks + [b], other) == BlocksOf(blocks, other) + (if b.channel == other then [b] else [])
    ensures Held(blocks + [b], other) == Held(blocks, other) + (if b.channel == other then b.records else [])
  {
    BlocksOfConcat(blocks, [b], other);
    RecordsOfConcat(BlocksOf(blocks, other), BlocksOf([b], other));
    assert RecordsOf([b]) == b.records + RecordsOf([]);
  }

  /** New chunks leave the other channels alone. */
  lemma {:induction false} ChunksElsewhere(blocks: seq<Block>, channel: string, next: int, rs: seq<Record>, cfg: Config, other: string)
    requires cfg.Valid() && other != channel
    ensures BlocksOf(AddChunks(blocks, channel, next, rs, cfg).0, other) == BlocksOf(blocks, other)
    decreases |rs|
  {
    if rs != [] {
      var b := FirstChunk(blocks, channel, next, rs, cfg);
      ChunksElsewhere(blocks + [b], channel, next + 1, rs[ChunkSize(rs, cfg)..], cfg, other);
      OneMore(blocks, b, other);
    }
  }

  /** New chunks hold exactly the given records, after what the channel held. */
  lemma {:induction false} ChunksAppend(blocks: seq<Block>, channel: string, next: int, rs: seq<Record>, cfg: Config)
    requires cfg.Valid()
    ensures Held(AddChunks(blocks, channel, next, rs, cfg).0, channel) == Held(blocks, channel) + rs
    decreases |rs|
  {
    if rs == [] {
      assert Held(blocks, channel) + rs == Held(blocks, channel);
    } else {
      var n := ChunkSize(rs, cfg);
      var b := FirstChunk(blocks, channel, next, rs, cfg);
      ChunksAppend(blocks + [b], channel, next + 1, rs[n..], cfg);
      OneMore(blocks, b, channel);
      Regroup(Held(blocks, channel), rs, n);
    }
  }

  lemma {:induction false} Regroup(a: seq<Record>, rs: seq<Record>, n: nat)
    requires n <= |rs|
    ensures a + rs[..n] + rs[n..] == a + rs
  {
  }

  /** Retention leaves a suffix of the channel's list and the other channels alone. */
  lemma {:induction false} RetainList(blocks: seq<Block>, channel: string, allowed: nat, other: string) returns (k: nat)
    ensures k <= |BlocksOf(blocks, channel)|
    ensures BlocksOf(Retain(blocks, channel, allowed), channel) == BlocksOf(blocks, channel)[k..]
    ensures other != channel ==> BlocksOf(Retain(blocks, channel, allowed), other) == BlocksOf(blocks, other)
    ensures Messages(BlocksOf(Retain(blocks, channel, allowed), channel)) <= allowed
    ensures k > 0 ==> Messages(BlocksOf(blocks, channel)[k - 1..]) > allowed
    ensures forall b <- Retain(blocks, channel, allowed) :: b in blocks
    decreases |blocks|
  {
    var l := BlocksOf(blocks, channel);
    if Messages(l) > allowed {
      DropFirstList(blocks, channel, channel);
      DropFirstList(blocks, channel, other);
      var j := RetainList(DropFirst(blocks, channel), channel, allowed, other);
      k := j + 1;
      assert l[1..][j..] == l[k..];
      assert j > 0 ==> l[1..][j - 1..] == l[k - 1..];
      assert l[0..] == l;
    } else {
      k := 0;
      assert l[0..] == l;
    }
  }
}
