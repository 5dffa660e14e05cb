/** What every transaction keeps true of the block tables. */
module Invariants {
  import opened Ordering
  import opened Records
  import opened Tables
  import opened Lists

  ghost predicate AscendingIds(blocks: seq<Block>) {
    && (forall i, j :: 0 <= i < j < |blocks| ==> blocks[i].id < blocks[j].id)
    && (forall b <- blocks :: b.id > 0)
  }

  /** Block sequences rise and stay below the channel's next one. */
  ghost predicate Sequenced(l: seq<Block>, next: int) {
    && (forall i, j :: 0 <= i < j < |l| ==> l[i].sequence < l[j].sequence)
    && (forall b <- l :: b.sequence < next)
  }

  ghost predicate Sane(l: seq<Block>, channel: string, cfg: Config) {
    forall b <- l :: Encoded(b, cfg) && b.channel == channel && |b.records| <= cfg.blockMessages
  }

  ghost predicate ChannelInv(s: Store, cfg: Config, channel: string, stamp: EventKey -> int)
    requires cfg.Valid()
  {
    var l := BlocksOf(s.blocks, channel);
    && Sane(l, channel, cfg)
    && (l != [] ==> channel in s.channels && channel !in s.blocked)
    && Sequenced(l, RowOf(s, channel).next)
    && DistinctKeys(RecordsOf(l))
    && Stamped(RecordsOf(l), stamp)
    && Messages(l) <= cfg.Allowed()
    && (channel in s.cutoffs ==> forall r <- RecordsOf(l) :: r.receivedAt > s.cutoffs[channel])
  }

  /**
   * Ids rise, and in each channel: blocks are well formed, sequences rise below the next one, an
   * event is stored once, retention holds, and nothing purged or blocked is stored.
   */
  ghost predicate StoreInv(s: Store, cfg: Config, stamp: EventKey -> int) {
    && cfg.Valid()
    && AscendingIds(s.blocks)
    && forall c :: ChannelInv(s, cfg, c, stamp)
  }

  lemma {:induction false} DistinctConcat(a: seq<Record>, b: seq<Record>)
    ensures DistinctKeys(a + b) <==> DistinctKeys(a) && DistinctKeys(b) && Keys(a) !! Keys(b)
  {
    var c := a + b;
    if DistinctKeys(c) {
      forall i, j | 0 <= i < j < |a| ensures a[i].key != a[j].key { assert c[i] == a[i] && c[j] == a[j]; }
      forall i, j | 0 <= i < j < |b| ensures b[i].key != b[j].key {
        assert c[|a| + i] == b[i] && c[|a| + j] == b[j];
      }
      forall i, j | 0 <= i < |a| && 0 <= j < |b| ensures a[i].key != b[j].key {
        assert c[i] == a[i] && c[|a| + j] == b[j];
      }
    }
    if DistinctKeys(a) && DistinctKeys(b) && Keys(a) !! Keys(b) {
      forall i, j | 0 <= i < j < |c| ensures c[i].key != c[j].key {
        if i < |a| <= j {
          assert a[i].key in Keys(a) && b[j - |a|].key in Keys(b);
        }
      }
    }
  }

  lemma {:induction false} KeysConcat(a: seq<Record>, b: seq<Record>)
    ensures Keys(a + b) == Keys(a) + Keys(b)
  {
  }

  lemma {:induction false} WithoutSequenced(l: seq<Block>, drop: Block -> bool, next: int)
    requires Sequenced(l, next)
    ensures Sequenced(Without(l, drop), next)
    ensures Messages(Without(l, drop)) <= Messages(l)
  {
    if l != [] {
      var rest := Without(l[1..], drop);
      WithoutSequenced(l[1..], drop, next);
      forall b | b in rest ensures l[0].sequence < b.sequence < next {
        var k :| 0 <= k < |l[1..]| && l[1..][k] == b;
        assert l[k + 1] == b;
      }
      if !drop(l[0]) {
        HeadSequenced(l[0], rest, next);
        assert ([l[0]] + rest)[1..] == rest;
      }
    }
  }

  lemma {:induction false} HeadSequenced(b: Block, rest: seq<Block>, next: int)
    requires Sequenced(rest, next) && b.sequence < next && forall x <- rest :: b.sequence < x.sequence
    ensures Sequenced([b] + rest, next)
  {
    var l := [b] + rest;
    forall i, j | 0 <= i < j < |l| ensures l[i].sequence < l[j].sequence {
      assert l[j] == rest[j - 1];
      assert i > 0 ==> l[i] == rest[i - 1];
    }
  }

  lemma {:induction false} HeadAscends(b: Block, rest: seq<Block>)
    requires AscendingIds(rest) && b.id > 0 && forall x <- rest :: b.id < x.id
    ensures AscendingIds([b] + rest)
  {
    var l := [b] + rest;
    forall i, j | 0 <= i < j < |l| ensures l[i].id < l[j].id {
      assert l[j] == rest[j - 1];
      assert i > 0 ==> l[i] == rest[i - 1];
    }
  }

  /** Dropping blocks keeps no copy twice and brings in none. */
  lemma {:induction false} WithoutDistinct(l: seq<Block>, drop: Block -> bool)
    requires DistinctKeys(RecordsOf(l))
    ensures DistinctKeys(RecordsOf(Without(l, drop)))
    ensures forall r <- RecordsOf(Without(l, drop)) :: r in RecordsOf(l)
  {
    if l != [] {
      var b, t := l[0], l[1..];
      DistinctConcat(b.records, RecordsOf(t));
      WithoutDistinct(t, drop);
      var w := Without(t, drop);
      assert forall r <- RecordsOf(w) :: r.key in Keys(RecordsOf(t));
      DistinctConcat(b.records, RecordsOf(w));
      assert ([b] + w)[1..] == w;
    }
  }

  lemma {:induction false} WithoutAscends(blocks: seq<Block>, drop: Block -> bool)
    ensures AscendingIds(blocks) ==> AscendingIds(Without(blocks, drop))
  {
    if blocks != [] && AscendingIds(blocks) {
      var rest := Without(blocks[1..], drop);
      WithoutAscends(blocks[1..], drop);
      forall b | b in rest ensures blocks[0].id < b.id {
        var k :| 0 <= k < |blocks[1..]| && blocks[1..][k] == b;
        assert blocks[k + 1] == b;
      }
      if !drop(blocks[0]) {
        assert blocks[0] in blocks;
        HeadAscends(blocks[0], rest);
      }
    }
  }

  lemma {:induction false} SuffixKeeps(l: seq<Block>, k: nat, next: int)
    requires k <= |l|
    ensures Sequenced(l, next) ==> Sequenced(l[k..], next)
    ensures DistinctKeys(RecordsOf(l)) ==> DistinctKeys(RecordsOf(l[k..]))
    ensures forall r <- RecordsOf(l[k..]) :: r in RecordsOf(l)
    ensures forall r <- RecordsOf(l) :: r in RecordsOf(l[..k]) || r in RecordsOf(l[k..])
  {
    assert l == l[..k] + l[k..];
    RecordsOfConcat(l[..k], l[k..]);
    DistinctConcat(RecordsOf(l[..k]), RecordsOf(l[k..]));
  }

  /** A transaction that only removes blocks, rows of emptied channels, or lifts restrictions. */
  lemma {:induction false} RemovalKeeps(s: Store, s': Store, cfg: Config, stamp: EventKey -> int, drop: Block -> bool)
    requires StoreInv(s, cfg, stamp)
    requires s'.blocks == Without(s.blocks, drop)
    requires forall c :: BlocksOf(s'.blocks, c) != [] ==>
               && c in s'.channels && c in s.channels && c !in s'.blocked
               && s'.channels[c].next == s.channels[c].next
               && (c in s'.cutoffs ==> c in s.cutoffs && s'.cutoffs[c] == s.cutoffs[c])
    ensures StoreInv(s', cfg, stamp)
  {
    WithoutAscends(s.blocks, drop);
    forall c ensures ChannelInv(s', cfg, c, stamp) {
      assert ChannelInv(s, cfg, c, stamp);
      WithoutList(s.blocks, drop, c);
      WithoutSequenced(BlocksOf(s.blocks, c), drop, RowOf(s, c).next);
      WithoutDistinct(BlocksOf(s.blocks, c), drop);
    }
  }

  lemma {:induction false} PurgeKeeps(s: Store, cfg: Config, stamp: EventKey -> int, channel: string, receivedAt: int)
    requires StoreInv(s, cfg, stamp)
    ensures StoreInv(Purge(s, channel, receivedAt), cfg, stamp)
  {
    var drop := (b: Block) => b.channel == channel;
    RestKeeps(s, Purge(s, channel, receivedAt).blocks, cfg, stamp, drop, {channel});
    RemovalKeeps(s, Purge(s, channel, receivedAt), cfg, stamp, drop);
  }

  /** Emptied channels have no list; the others still have a row and are not blocked. */
  lemma {:induction false} RestKeeps(s: Store, blocks: seq<Block>, cfg: Config, stamp: EventKey -> int, drop: Block -> bool, gone: set<string>)
    requires StoreInv(s, cfg, stamp) && blocks == Without(s.blocks, drop)
    requires forall b: Block :: b.channel in gone ==> drop(b)
    ensures forall c :: BlocksOf(blocks, c) != [] ==> c !in gone && c in s.channels && c !in s.blocked
  {
    forall c | BlocksOf(blocks, c) != [] ensures c !in gone && c in s.channels && c !in s.blocked {
      assert ChannelInv(s, cfg, c, stamp);
      WithoutList(s.blocks, drop, c);
      var b := BlocksOf(blocks, c)[0];
      assert b in Without(BlocksOf(s.blocks, c), drop);
      BlocksOfSound(s.blocks, c);
    }
  }

  lemma {:induction false} SetBlockedKeeps(s: Store, cfg: Config, stamp: EventKey -> int, channel: string, blocked: bool)
    requires StoreInv(s, cfg, stamp)
    ensures StoreInv(SetBlocked(s, channel, blocked), cfg, stamp)
  {
    var s' := SetBlocked(s, channel, blocked);
    if blocked {
      var drop := (b: Block) => b.channel == channel;
      RestKeeps(s, s'.blocks, cfg, stamp, drop, {channel});
      RemovalKeeps(s, s', cfg, stamp, drop);
    } else {
      forall c ensures ChannelInv(s', cfg, c, stamp) { assert ChannelInv(s, cfg, c, stamp); }
    }
  }

  lemma {:induction false} SyncBlockedKeeps(s: Store, cfg: Config, stamp: EventKey -> int, listed: seq<string>)
    requires StoreInv(s, cfg, stamp)
    ensures StoreInv(SyncBlocked(s, listed), cfg, stamp)
  {
    var drop := (b: Block) => b.channel in listed;
    RestKeeps(s, SyncBlocked(s, listed).blocks, cfg, stamp, drop, set c <- listed);
    RemovalKeeps(s, SyncBlocked(s, listed), cfg, stamp, drop);
  }

  lemma {:induction false} EvictKeeps(s: Store, cfg: Config, stamp: EventKey -> int, ids: seq<nat>)
    requires StoreInv(s, cfg, stamp)
    ensures StoreInv(Evict(s, ids), cfg, stamp)
  {
    var drop := InIds(ids);
    RestKeeps(s, Evict(s, ids).blocks, cfg, stamp, drop, {});
    RemovalKeeps(s, Evict(s, ids), cfg, stamp, drop);
  }

  lemma {:induction false} DropIdleKeeps(s: Store, cfg: Config, stamp: EventKey -> int, cutoff: int)
    requires StoreInv(s, cfg, stamp)
    ensures StoreInv(DropIdle(s, cutoff), cfg, stamp)
  {
    var s' := DropIdle(s, cutoff);
    forall c ensures ChannelInv(s', cfg, c, stamp) { assert ChannelInv(s, cfg, c, stamp); }
  }

  lemma {:induction false} TouchKeeps(s: Store, cfg: Config, stamp: EventKey -> int, channel: string, requestedAt: int, coalesceBefore: int)
    requires StoreInv(s, cfg, stamp)
    ensures StoreInv(Touch(s, channel, requestedAt, coalesceBefore), cfg, stamp)
  {
    var s' := Touch(s, channel, requestedAt, coalesceBefore);
    forall c ensures ChannelInv(s', cfg, c, stamp) { assert ChannelInv(s, cfg, c, stamp); }
  }
}
