/** Several channel batches in one transaction, and what retention leaves. */
module Batches {
  import opened Ordering
  import opened Records
  import opened Tables
  import opened Lists
  import opened Invariants
  import opened Appending

  /** A sealed batch: records of one channel, at least one. */
  ghost predicate Batch(rs: seq<Record>, stamp: EventKey -> int) {
    rs != [] && AllIn(rs, rs[0].channel) && Stamped(rs, stamp)
  }

  ghost predicate Batched(batches: seq<seq<Record>>, stamp: EventKey -> int) {
    forall rs <- batches :: Batch(rs, stamp)
  }

  function AppendAllLoss(s: Store, cfg: Config, batches: seq<seq<Record>>): set<(string, EventKey)>
    requires cfg.Valid()
  {
    if batches == [] then {}
    else
      var front, rs := batches[..|batches| - 1], batches[|batches| - 1];
      AppendAllLoss(s, cfg, front)
      + (if rs == [] then {} else AppendLoss(AppendAll(s, cfg, front), cfg, rs[0].channel, rs))
  }

  lemma {:induction false} AppendAllKeeps(s: Store, cfg: Config, batches: seq<seq<Record>>, stamp: EventKey -> int)
    requires StoreInv(s, cfg, stamp) && Batched(batches, stamp)
    ensures StoreInv(AppendAll(s, cfg, batches), cfg, stamp)
  {
    if batches != [] {
      var front, rs := batches[..|batches| - 1], batches[|batches| - 1];
      assert rs in batches;
      AppendAllKeeps(s, cfg, front, stamp);
      AppendKeeps(AppendAll(s, cfg, front), cfg, rs[0].channel, rs, stamp);
    }
  }

  lemma {:induction false} AppendAllCovers(s: Store, cfg: Config, batches: seq<seq<Record>>, stamp: EventKey -> int, r: Record)
    requires StoreInv(s, cfg, stamp) && Batched(batches, stamp)
    requires Covers(Held(s.blocks, r.channel), r) || exists rs <- batches :: Covers(rs, r)
    ensures Covers(Held(AppendAll(s, cfg, batches).blocks, r.channel), r) || (r.channel, r.key) in AppendAllLoss(s, cfg, batches)
  {
    if batches != [] {
      var front, rs := batches[..|batches| - 1], batches[|batches| - 1];
      assert batches == front + [rs] && rs in batches;
      var mid := AppendAll(s, cfg, front);
      AppendAllKeeps(s, cfg, front, stamp);
      if Covers(Held(s.blocks, r.channel), r) || exists b <- front :: Covers(b, r) {
        AppendAllCovers(s, cfg, front, stamp, r);
      }
      if Covers(Held(mid.blocks, r.channel), r) || Covers(rs, r) {
        AppendCovers(mid, cfg, rs[0].channel, rs, stamp, r);
      }
    }
  }

  lemma {:induction false} AppendAllInventsNothing(s: Store, cfg: Config, batches: seq<seq<Record>>, stamp: EventKey -> int, c: string)
    requires StoreInv(s, cfg, stamp) && Batched(batches, stamp)
    ensures forall r <- Held(AppendAll(s, cfg, batches).blocks, c) :: r in Held(s.blocks, c) || exists rs <- batches :: r in rs
  {
    if batches != [] {
      var front, rs := batches[..|batches| - 1], batches[|batches| - 1];
      assert batches == front + [rs] && rs in batches;
      AppendAllKeeps(s, cfg, front, stamp);
      AppendAllInventsNothing(s, cfg, front, stamp, c);
      AppendInventsNothing(AppendAll(s, cfg, front), cfg, rs[0].channel, rs, stamp, c);
    }
  }

  lemma {:induction false} AppendAllFrame(s: Store, cfg: Config, batches: seq<seq<Record>>)
    requires cfg.Valid()
    ensures var s' := AppendAll(s, cfg, batches);
            s'.journal == s.journal && s'.offsets == s.offsets && s'.cutoffs == s.cutoffs && s'.blocked == s.blocked
  {
    if batches != [] {
      AppendAllFrame(s, cfg, batches[..|batches| - 1]);
    }
  }

  /** The channel's list grows by no more than the batch. */
  lemma {:induction false} FilledSize(s: Store, cfg: Config, channel: string, kept: seq<Record>, stamp: EventKey -> int)
    requires cfg.Valid() && AscendingIds(s.blocks) && Admissible(kept, channel, s.cutoffs, stamp)
    requires ListInv(BlocksOf(s.blocks, channel), channel, RowOf(s, channel).next, cfg, s.cutoffs, stamp)
    ensures Messages(BlocksOf(Filled(s, cfg, channel, kept).blocks, channel)) <= Messages(BlocksOf(s.blocks, channel)) + |kept|
  {
    FilledList(s, cfg, channel, kept, stamp);
    MessagesAreRecords(BlocksOf(s.blocks, channel));
    MessagesAreRecords(BlocksOf(Filled(s, cfg, channel, kept).blocks, channel));
    SortKeeps(kept, EventOrder());
    FirstsShrink(Sort(kept, EventOrder()), Keys(Held(s.blocks, channel)));
  }

  /** A batch that nothing turns away and that fits the allowance loses nothing. */
  lemma {:induction false} RoomLosesNothing(s: Store, cfg: Config, channel: string, rs: seq<Record>, stamp: EventKey -> int)
    requires StoreInv(s, cfg, stamp) && AllIn(rs, channel) && Stamped(rs, stamp)
    requires channel !in s.blocked
    requires channel in s.cutoffs ==> forall r <- rs :: r.receivedAt > s.cutoffs[channel]
    requires Messages(BlocksOf(s.blocks, channel)) + |rs| <= cfg.Allowed()
    ensures AppendLoss(s, cfg, channel, rs) == {}
  {
    var kept := AfterCutoff(s.cutoffs, channel, rs);
    AdmissibleAfterCutoff(s, channel, rs, stamp);
    assert ChannelInv(s, cfg, channel, stamp);
    FilledSize(s, cfg, channel, kept, stamp);
  }

  lemma {:induction false} FirstsShrink(rs: seq<Record>, known: set<EventKey>)
    ensures |Firsts(rs, known)| <= |rs|
  {
    if rs != [] {
      FirstsShrink(rs[..|rs| - 1], known);
    }
  }

  lemma {:induction false} RetainFloor(blocks: seq<Block>, channel: string, cfg: Config) returns (k: nat)
    requires cfg.Valid() && Sane(BlocksOf(blocks, channel), channel, cfg)
    ensures k <= |BlocksOf(blocks, channel)|
    ensures BlocksOf(Retain(blocks, channel, cfg.Allowed()), channel) == BlocksOf(blocks, channel)[k..]
    ensures k == 0 || Messages(BlocksOf(blocks, channel)[k..]) >= cfg.target
  {
    var full := BlocksOf(blocks, channel);
    k := RetainList(blocks, channel, cfg.Allowed(), channel);
    if k > 0 {
      assert full[k - 1..] == [full[k - 1]] + full[k..];
      assert full[k - 1] in full;
    }
  }

  /** Retention drops whole oldest blocks only, and never below the target. */
  lemma {:induction false} RetentionFloor(s: Store, cfg: Config, channel: string, rs: seq<Record>, stamp: EventKey -> int)
    requires StoreInv(s, cfg, stamp) && AllIn(rs, channel) && Stamped(rs, stamp)
    requires channel !in s.blocked && AfterCutoff(s.cutoffs, channel, rs) != []
    ensures var full := BlocksOf(Filled(s, cfg, channel, AfterCutoff(s.cutoffs, channel, rs)).blocks, channel);
            var left := BlocksOf(Append(s, cfg, channel, rs).blocks, channel);
            && Messages(left) <= cfg.Allowed()
            && (exists k :: 0 <= k <= |full| && left == full[k..])
            && (left == full || Messages(left) >= cfg.target)
  {
    var kept := AfterCutoff(s.cutoffs, channel, rs);
    AdmissibleAfterCutoff(s, channel, rs, stamp);
    AppendKeepsChannel(s, cfg, channel, rs, stamp, channel);
    assert ChannelInv(s, cfg, channel, stamp);
    FilledList(s, cfg, channel, kept, stamp);
    var f := Filled(s, cfg, channel, kept);
    var full := BlocksOf(f.blocks, channel);
    assert full[0..] == full;
    var k := RetainFloor(f.blocks, channel, cfg);
  }
}
