/** The invariant of durable ingest and its preservation by every step. */
module MachineInvariant {
  import opened Ordering
  import opened Records
  import opened Tables
  import opened Lists
  import opened Invariants
  import opened Appending
  import opened Journal
  import opened Batches
  import opened Machine

  ghost predicate Covered(s: Store, r: Record) {
    Covers(Held(s.blocks, r.channel), r)
  }

  ghost predicate InRows(rows: seq<JournalRow>, r: Record) {
    exists row <- rows :: r in row.payload
  }

  /** A copy of the event, of no lower fidelity, is in memory on its way to a block. */
  ghost predicate Afloat(m: Mem, r: Record) {
    || Covers(m.todo, r)
    || Covers(TailOf(m.tail, r.channel), r)
    || exists rs <- m.flight :: Covers(rs, r)
  }

  ghost predicate StoreOk(w: World, s: Store) {
    && StoreInv(s, w.cfg, w.stamp)
    && JournalInv(s, w.cfg)
    && forall row <- s.journal :: Stamped(row.payload, w.stamp)
  }

  ghost predicate TailOk(w: World, tail: Tail) {
    forall c <- tail :: tail[c] != [] && AllIn(tail[c], c) && DistinctKeys(tail[c]) && Stamped(tail[c], w.stamp)
  }

  ghost predicate MemOk(w: World, m: Mem) {
    Stamped(m.todo, w.stamp) && TailOk(w, m.tail) && Batched(m.flight, w.stamp)
  }

  /** Every pending row is still to be replayed, being materialised, or materialised. */
  ghost predicate RowsTracked(journal: seq<JournalRow>, m: Mem) {
    && (forall row <- m.replay :: row in journal)
    && forall row <- journal ::
         || row in m.replay
         || m.current == Some((row.stream, row.last))
         || (row.stream in m.through && row.last <= m.through[row.stream])
  }

  /** Nothing is anywhere that did not arrive. */
  ghost predicate AllSeen(s: State) {
    && (forall row <- s.store.journal, r <- row.payload :: r in s.ledger.seen)
    && (forall b <- s.store.blocks, r <- b.records :: r in s.ledger.seen)
    && (s.mem.Some? ==>
          && (forall r <- s.mem.value.todo :: r in s.ledger.seen)
          && (forall c <- s.mem.value.tail, r <- s.mem.value.tail[c] :: r in s.ledger.seen)
          && (forall rs <- s.mem.value.flight, r <- rs :: r in s.ledger.seen))
    && (forall r <- s.ledger.owed :: r in s.ledger.seen)
    && (forall r <- s.ledger.seen :: r in s.ledger.owed || (r.channel, r.key) in s.ledger.lost)
  }

  ghost predicate RangeCovers(ranges: set<(Stream, int, int)>, stream: Stream, n: int) {
    exists g <- ranges :: g.0 == stream && g.1 <= n <= g.2
  }

  /** Every sequence between the base of a stream and its offset was in an accepted batch. */
  ghost predicate AckOk(s: State) {
    && (forall row <- s.store.journal :: (row.stream, row.first, row.last) in s.ledger.ranges)
    && forall stream <- s.store.offsets ::
         && stream in s.ledger.bases && s.ledger.bases[stream] <= s.store.offsets[stream]
         && forall n: int :: s.ledger.bases[stream] < n <= s.store.offsets[stream] ==> RangeCovers(s.ledger.ranges, stream, n)
  }

  /** What is owed is durable: in a pending row or in a block. */
  ghost predicate Safe(s: State) {
    forall r <- s.ledger.owed :: InRows(s.store.journal, r) || Covered(s.store, r)
  }

  /** What is owed is still to be replayed, on its way, or in a block. */
  ghost predicate Live(s: State, m: Mem) {
    forall r <- s.ledger.owed :: InRows(m.replay, r) || Afloat(m, r) || Covered(s.store, r)
  }

  ghost predicate Inv(w: World, s: State) {
    && StoreOk(w, s.store)
    && AckOk(s)
    && AllSeen(s)
    && Safe(s)
    && (s.mem.Some? ==> MemOk(w, s.mem.value) && RowsTracked(s.store.journal, s.mem.value) && Live(s, s.mem.value))
  }

  /** Different payloads have different checksums. */
  ghost predicate Collisionless(w: World) {
    forall a, b :: w.cfg.digest(a) == w.cfg.digest(b) ==> a == b
  }

  /* ---------- the tail ---------- */

  lemma {:induction false} PutKeeps(w: World, tail: Tail, r: Record)
    requires TailOk(w, tail) && r.eventAt == w.stamp(r.key)
    ensures TailOk(w, TailPut(tail, r))
    ensures forall c <- TailPut(tail, r), x <- TailPut(tail, r)[c] :: x == r || (c in tail && x in tail[c])
  {
    var list := TailOf(tail, r.channel);
    AbsorbKeeps(list, [r]);
    DistinctConcat(list, [r]);
  }

  lemma {:induction false} PutCovers(w: World, tail: Tail, r: Record, x: Record)
    requires TailOk(w, tail)
    requires x == r || Covers([r], x) || Covers(TailOf(tail, x.channel), x)
    ensures Covers(TailOf(TailPut(tail, r), x.channel), x)
  {
    var list := TailOf(tail, r.channel);
    var put := TailOf(TailPut(tail, r), x.channel);
    if x.channel == r.channel {
      if r.key in Keys(list) {
        if Covers(list, x) {
          AbsorbCovers(list, [r], r.channel, x);
        } else {
          assert r in [r];
          AbsorbCovers(list, [r], r.channel, r);
        }
      } else if Covers(list, x) {
        CoversMonotone(list, put, x);
      } else {
        assert r in put;
      }
    }
  }

  lemma {:induction false} SealKeeps(w: World, tail: Tail, seals: seq<string>)
    requires TailOk(w, tail) && Sealable(tail, seals)
    ensures TailOk(w, TailWithout(tail, seals)) && Batched(SealedBatches(tail, seals), w.stamp)
    ensures forall rs <- SealedBatches(tail, seals), r <- rs :: exists c <- tail :: r in tail[c]
  {
    var out := SealedBatches(tail, seals);
    forall rs <- out ensures Batch(rs, w.stamp) && exists c <- tail :: rs == tail[c] {
      var i :| 0 <= i < |out| && out[i] == rs;
      assert seals[i] in seals;
    }
  }

  /** What the tail covered is covered by the rest of it or by a sealed batch. */
  lemma {:induction false} SealCovers(tail: Tail, seals: seq<string>, r: Record)
    requires Sealable(tail, seals) && Covers(TailOf(tail, r.channel), r)
    ensures Covers(TailOf(TailWithout(tail, seals), r.channel), r) || exists rs <- SealedBatches(tail, seals) :: Covers(rs, r)
  {
    if r.channel in seals {
      var i :| 0 <= i < |seals| && seals[i] == r.channel;
      assert SealedBatches(tail, seals)[i] == tail[r.channel];
      assert tail[r.channel] in SealedBatches(tail, seals);
    }
  }

  /* ---------- removals ---------- */

  /** A removal only drops blocks: what stays covered and what is named as lost. */
  lemma {:induction false} RemovalCovers(s: Store, after: Store, cfg: Config, stamp: EventKey -> int, drop: Block -> bool, r: Record)
    requires StoreInv(s, cfg, stamp) && after.blocks == Without(s.blocks, drop)
    requires Covered(s, r)
    ensures Covered(after, r) || (r.channel, r.key) in Events(s.blocks) - Events(after.blocks)
  {
    var l := BlocksOf(s.blocks, r.channel);
    var l' := BlocksOf(after.blocks, r.channel);
    assert ChannelInv(s, cfg, r.channel, stamp);
    WithoutList(s.blocks, drop, r.channel);
    WithoutDistinct(l, drop);
    var x :| x in RecordsOf(l) && x.key == r.key && x.channel == r.channel && x.fidelity.Rank() >= r.fidelity.Rank();
    RecordsOfSound(l);
    BlocksOfSound(s.blocks, r.channel);
    var b :| b in l && x in b.records;
    assert (b.channel, x.key) in Events(s.blocks);
    if (r.channel, r.key) in Events(after.blocks) {
      var b', y :| b' in after.blocks && y in b'.records && b'.channel == r.channel && y.key == r.key;
      BlocksOfSound(after.blocks, r.channel);
      RecordsOfSound(l');
      assert y in RecordsOf(l');
      OneCopy(RecordsOf(l), x, y);
    }
  }

  predicate IsRemoval(act: Act) {
    act.PurgeChannel? || act.BlockChannel? || act.SyncBlockedChannels? || act.EvictBlocks?
  }

  function AfterRemoval(s: Store, act: Act): Store
    requires IsRemoval(act)
  {
    match act
    case PurgeChannel(channel, receivedAt) => Purge(s, channel, receivedAt)
    case BlockChannel(channel, blocked) => SetBlocked(s, channel, blocked)
    case SyncBlockedChannels(listed) => SyncBlocked(s, listed)
    case EvictBlocks(ids) => Evict(s, ids)
  }

  function Dropped(act: Act): Block -> bool
    requires IsRemoval(act)
  {
    match act
    case PurgeChannel(channel, _) => ((b: Block) => b.channel == channel)
    case BlockChannel(channel, blocked) => ((b: Block) => blocked && b.channel == channel)
    case SyncBlockedChannels(listed) => ((b: Block) => b.channel in listed)
    case EvictBlocks(ids) => InIds(ids)
  }

  lemma {:induction false} WithoutNothing(blocks: seq<Block>, drop: Block -> bool)
    requires forall b <- blocks :: !drop(b)
    ensures Without(blocks, drop) == blocks
  {
    if blocks != [] {
      WithoutNothing(blocks[1..], drop);
    }
  }

  lemma {:induction false} WithoutSame(blocks: seq<Block>, p: Block -> bool, q: Block -> bool)
    requires forall b <- blocks :: p(b) == q(b)
    ensures Without(blocks, p) == Without(blocks, q)
  {
    if blocks != [] {
      WithoutSame(blocks[1..], p, q);
    }
  }

  lemma {:induction false} RemovalDrops(s: Store, act: Act)
    requires IsRemoval(act)
    ensures AfterRemoval(s, act).blocks == Without(s.blocks, Dropped(act))
    ensures AfterRemoval(s, act).journal == s.journal && AfterRemoval(s, act).offsets == s.offsets
  {
    match act
    case PurgeChannel(channel, _) =>
      WithoutSame(s.blocks, (b: Block) => b.channel == channel, Dropped(act));
    case BlockChannel(channel, blocked) =>
      if blocked {
        WithoutSame(s.blocks, (b: Block) => b.channel == channel, Dropped(act));
      } else {
        WithoutNothing(s.blocks, Dropped(act));
      }
    case SyncBlockedChannels(listed) =>
      WithoutSame(s.blocks, (b: Block) => b.channel in listed, Dropped(act));
    case EvictBlocks(ids) =>
      WithoutSame(s.blocks, InIds(ids), Dropped(act));
  }

  lemma {:induction false} RemovalStoreOk(w: World, s: Store, act: Act)
    requires StoreOk(w, s) && IsRemoval(act)
    ensures StoreOk(w, AfterRemoval(s, act))
  {
    match act
    case PurgeChannel(channel, receivedAt) => PurgeKeeps(s, w.cfg, w.stamp, channel, receivedAt);
    case BlockChannel(channel, blocked) => SetBlockedKeeps(s, w.cfg, w.stamp, channel, blocked);
    case SyncBlockedChannels(listed) => SyncBlockedKeeps(s, w.cfg, w.stamp, listed);
    case EvictBlocks(ids) => EvictKeeps(s, w.cfg, w.stamp, ids);
  }

  lemma {:induction false} RemovalStep(w: World, s: State, act: Act)
    requires w.cfg.Valid() && IsRemoval(act)
    ensures Step(w, s, act) == Some(Removal(s, AfterRemoval(s.store, act)))
  {
  }

  /** What is owed after a removal was owed before; if a block covered it, one still does. */
  lemma {:induction false} RemovalOwed(w: World, s: State, act: Act, r: Record)
    requires StoreOk(w, s.store) && IsRemoval(act)
    requires r in Removal(s, AfterRemoval(s.store, act)).ledger.owed
    ensures r in s.ledger.owed && (Covered(s.store, r) ==> Covered(AfterRemoval(s.store, act), r))
  {
    RemovalDrops(s.store, act);
    if Covered(s.store, r) {
      RemovalCovers(s.store, AfterRemoval(s.store, act), w.cfg, w.stamp, Dropped(act), r);
    }
  }

  lemma {:induction false} RemovalSeen(s: State, act: Act)
    requires AllSeen(s) && IsRemoval(act)
    ensures AllSeen(Removal(s, AfterRemoval(s.store, act)))
  {
    RemovalDrops(s.store, act);
  }

  lemma {:induction false} RemovalInv(w: World, s: State, act: Act)
    requires Inv(w, s) && IsRemoval(act)
    ensures Step(w, s, act) == Some(Removal(s, AfterRemoval(s.store, act)))
    ensures Inv(w, Removal(s, AfterRemoval(s.store, act)))
  {
    RemovalStep(w, s, act);
    RemovalStoreOk(w, s.store, act);
    RemovalDrops(s.store, act);
    RemovalSeen(s, act);
    var s' := Removal(s, AfterRemoval(s.store, act));
    forall r | r in s'.ledger.owed ensures r in s.ledger.owed && (Covered(s.store, r) ==> Covered(s'.store, r)) {
      RemovalOwed(w, s, act, r);
    }
    StillSafe(s, s');
  }

  /** A step that leaves memory and journal alone and keeps what is owed covered. */
  lemma {:induction false} StillSafe(s: State, s': State)
    requires s'.mem == s.mem && s'.store.journal == s.store.journal
    requires forall r <- s'.ledger.owed :: r in s.ledger.owed && (Covered(s.store, r) ==> Covered(s'.store, r))
    ensures Safe(s) ==> Safe(s')
    ensures s.mem.Some? && Live(s, s.mem.value) ==> Live(s', s'.mem.value)
  {
  }
}
