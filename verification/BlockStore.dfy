/** The methods of the block store. Each keeps `Valid` and says what it makes of the tables. */
module BlockStore {
  import opened Ordering
  import opened Records
  import opened Tables
  import opened Lists
  import opened Invariants
  import opened Appending
  import opened Batches
  import opened Journal
  import opened Accounting
  import opened IndexedScan
  import opened Sqlite
  import opened SqliteStore
  import opened Machine
  import opened MachineInvariant
  import opened MachineSteps
  import opened Queries

  const EXPIRY_BATCH_BLOCKS: nat := 1024

  /** Follow the rows that start where the last one ended. */
  method AdvanceOffset(journal: seq<JournalRow>, stream: Stream, from: I64) returns (r: Result<I64>)
    ensures r == Chase(journal, stream, from)
  {
    var committed := from;
    while true
      invariant Chase(journal, stream, committed) == Chase(journal, stream, from)
      decreases MAX_I64 - committed
    {
      var next := Find(journal, stream, SaturatingNext(committed));
      if next.None? {
        return Ok(committed);
      }
      if next.value.last <= committed {
        return Err(NonAdvancing);
      }
      committed := next.value.last;
    }
  }

  function ById(blocks: seq<Block>, id: nat): (r: Option<Block>)
    ensures r.Some? ==> r.value in blocks && r.value.id == id
    ensures r.None? ==> forall b <- blocks :: b.id != id
  {
    if blocks == [] then None else if blocks[0].id == id then Some(blocks[0]) else ById(blocks[1..], id)
  }

  /** Delete one block and lower its channel's counter. */
  function DeleteOne(tx: Db, b: Block): Db {
    LowerRetained(DeleteBlocks(tx, HasId(b.id)), b.channel, b.count)
  }

  /** The channel loses just the messages of the deleted block. */
  lemma {:induction false} MessagesWithoutOne(l: seq<Block>, b: Block)
    requires b in l && forall i, j :: 0 <= i < j < |l| ==> l[i].id < l[j].id
    ensures Messages(Without(l, HasId(b.id))) == Messages(l) - b.count
  {
    var drop := HasId(b.id);
    if l[0] == b {
      WithoutNothing(l[1..], drop);
    } else {
      MessagesWithoutOne(l[1..], b);
      WithoutSame(l[1..], drop, HasId(b.id));
    }
  }

  lemma {:induction false} DeleteOneExact(tx: Db, b: Block)
    requires Accounted(tx) && AscendingIds(tx.tables.blocks) && b in tx.tables.blocks && b.channel in tx.tables.channels
    ensures Accounted(DeleteOne(tx, b)) && AscendingIds(DeleteOne(tx, b).tables.blocks)
    ensures DeleteOne(tx, b).tables == tx.tables.(blocks := Without(tx.tables.blocks, HasId(b.id)))
  {
    var drop := HasId(b.id);
    var out := DeleteOne(tx, b);
    DeleteExact(tx, drop);
    WithoutAscends(tx.tables.blocks, drop);
    forall c | c in out.tables.channels ensures RetainedExact(out, c) {
      assert RetainedExact(tx, c);
      WithoutList(tx.tables.blocks, drop, c);
      var l := BlocksOf(tx.tables.blocks, c);
      BlocksOfSound(tx.tables.blocks, c);
      if c == b.channel {
        ListAscends(tx.tables.blocks, c);
        MessagesWithoutOne(l, b);
        WithoutSame(l, drop, HasId(b.id));
      } else {
        forall x | x in l ensures !drop(x) { if x.id == b.id { IdIsKey(tx.tables.blocks, x, b); } }
        WithoutNothing(l, drop);
      }
    }
  }

  lemma {:induction false} WithoutTwice(blocks: seq<Block>, p: Block -> bool, q: Block -> bool)
    ensures Without(Without(blocks, p), q) == Without(blocks, (b: Block) => p(b) || q(b))
  {
    if blocks != [] {
      WithoutTwice(blocks[1..], p, q);
      var rest := Without(blocks[1..], p);
      assert !p(blocks[0]) ==> ([blocks[0]] + rest)[1..] == rest;
      WithoutSame(blocks[1..], (b: Block) => p(b) || q(b), (b: Block) => p(b) || q(b));
    }
  }

  /** Channels whose blocks and rows were all deleted. */
  lemma {:induction false} GoneExact(tx: Db, gone: set<string>)
    requires Accounted(tx)
    ensures var out := DeleteChannels(DeleteBlocks(tx, OfChannels(gone)), gone);
            && Accounted(out)
            && out.tables == tx.tables.(blocks := Without(tx.tables.blocks, OfChannels(gone)),
                                        channels := tx.tables.channels - gone)
  {
    var drop := OfChannels(gone);
    var mid := DeleteBlocks(tx, drop);
    DeleteExact(tx, drop);
    var cascade := (b: Block) => b.channel in gone && b.channel in mid.tables.channels;
    NothingToDrop(mid.tables.blocks, cascade, mid.totals);
    var out := DeleteChannels(mid, gone);
    forall c | c in out.tables.channels ensures RetainedExact(out, c) {
      assert RetainedExact(tx, c);
      WithoutList(tx.tables.blocks, drop, c);
      BlocksOfSound(tx.tables.blocks, c);
      WithoutNothing(BlocksOf(tx.tables.blocks, c), drop);
    }
  }

  /** Channel rows with counter zero have no block, so deleting them cascades to nothing. */
  lemma {:induction false} IdleExact(w: World, tx: Db, cutoff: int)
    requires Sound(w, tx)
    ensures forall c <- tx.tables.channels :: tx.retained[c] == 0 <==> BlocksOf(tx.tables.blocks, c) == []
    ensures var gone := set c <- tx.tables.channels | Idle(tx.tables, c, cutoff);
            && Accounted(DeleteChannels(tx, gone))
            && DeleteChannels(tx, gone).tables == DropIdle(tx.tables, cutoff)
  {
    forall c | c in tx.tables.channels ensures tx.retained[c] == 0 <==> BlocksOf(tx.tables.blocks, c) == [] {
      assert RetainedExact(tx, c);
      assert ChannelInv(tx.tables, w.cfg, c, w.stamp);
      var l := BlocksOf(tx.tables.blocks, c);
      if l != [] {
        assert l[0] in l;
      }
    }
    var gone := set c <- tx.tables.channels | Idle(tx.tables, c, cutoff);
    var cascade := (b: Block) => b.channel in gone && b.channel in tx.tables.channels;
    forall b | b in tx.tables.blocks ensures !cascade(b) {
      BlocksOfSound(tx.tables.blocks, b.channel);
    }
    NothingToDrop(tx.tables.blocks, cascade, tx.totals);
    assert tx.tables.channels - gone == DropIdle(tx.tables, cutoff).channels;
    var out := DeleteChannels(tx, gone);
    forall c | c in out.tables.channels ensures RetainedExact(out, c) { assert RetainedExact(tx, c); }
  }

  /** Every block has its channel row. */
  ghost predicate RowsFor(db: Db) {
    forall b <- db.tables.blocks :: b.channel in db.tables.channels
  }

  lemma {:induction false} EvictOneMore(s: Store, ids: seq<nat>, i: nat)
    requires i < |ids|
    ensures Evict(s, ids[..i + 1]) == Evict(s, ids[..i]).(blocks := Without(Evict(s, ids[..i]).blocks, HasId(ids[i])))
  {
    assert ids[..i + 1] == ids[..i] + [ids[i]];
    var p, q := InIds(ids[..i]), HasId(ids[i]);
    WithoutTwice(s.blocks, p, q);
    WithoutSame(s.blocks, (b: Block) => p(b) || q(b), InIds(ids[..i + 1]));
  }

  /** DELETE the block with this id, if there is one, and lower its channel's counter. */
  method EvictOne(tx0: Db, id: nat) returns (tx: Db, removed: nat, messages: nat)
    requires Accounted(tx0) && AscendingIds(tx0.tables.blocks) && RowsFor(tx0)
    ensures Accounted(tx) && AscendingIds(tx.tables.blocks) && RowsFor(tx)
    ensures tx.tables == tx0.tables.(blocks := Without(tx0.tables.blocks, HasId(id)))
    ensures removed == |tx0.tables.blocks| - |tx.tables.blocks|
    ensures messages == Messages(tx0.tables.blocks) - Messages(tx.tables.blocks)
  {
    var block := ById(tx0.tables.blocks, id);
    if block.Some? {
      var b := block.value;
      DeleteOneExact(tx0, b);
      MessagesWithoutOne(tx0.tables.blocks, b);
      DeletedOnce(tx0.tables.blocks, b);
      WithoutSame(tx0.tables.blocks, HasId(b.id), HasId(id));
      return DeleteOne(tx0, b), 1, b.count;
    }
    WithoutNothing(tx0.tables.blocks, HasId(id));
    return tx0, 0, 0;
  }

  lemma {:induction false} EvictNothing(s: Store, ids: seq<nat>)
    ensures Evict(s, ids[..0]) == s
  {
    WithoutNothing(s.blocks, InIds(ids[..0]));
  }

  method EvictEach(tx0: Db, ids: seq<nat>) returns (tx: Db, deleted: nat)
    requires Accounted(tx0) && AscendingIds(tx0.tables.blocks) && RowsFor(tx0)
    ensures Accounted(tx) && tx.tables == Evict(tx0.tables, ids)
    ensures deleted == |tx0.tables.blocks| - |tx.tables.blocks|
  {
    tx, deleted := tx0, 0;
    EvictNothing(tx0.tables, ids);
    for i := 0 to |ids|
      invariant Accounted(tx) && AscendingIds(tx.tables.blocks) && RowsFor(tx)
      invariant tx.tables == Evict(tx0.tables, ids[..i])
      invariant deleted == |tx0.tables.blocks| - |tx.tables.blocks|
    {
      EvictOneMore(tx0.tables, ids, i);
      var removed, messages;
      tx, removed, messages := EvictOne(tx, ids[i]);
      deleted := deleted + removed;
    }
    assert ids[..|ids|] == ids;
  }

  /** DELETE the blocks of the channel, then its row. */
  method ClearChannel(tx0: Db, channel: string) returns (tx: Db)
    requires Accounted(tx0)
    ensures Accounted(tx)
    ensures tx.tables == tx0.tables.(blocks := Without(tx0.tables.blocks, (b: Block) => b.channel == channel),
                                     channels := tx0.tables.channels - {channel})
  {
    GoneExact(tx0, {channel});
    WithoutSame(tx0.tables.blocks, OfChannels({channel}), (b: Block) => b.channel == channel);
    tx := DeleteChannels(DeleteBlocks(tx0, OfChannels({channel})), {channel});
  }

  /** The derived columns depend on blocks and rows only. */
  lemma {:induction false} AccountedAlike(a: Db, b: Db)
    requires Accounted(a) && b.retained == a.retained && b.totals == a.totals
    requires b.tables.blocks == a.tables.blocks && b.tables.channels == a.tables.channels
    ensures Accounted(b)
  {
    forall c | c in b.tables.channels ensures RetainedExact(b, c) { assert RetainedExact(a, c); }
  }

  /** The listed channels that the loop has reached. */
  function Reached(listed: seq<string>, i: nat): set<string>
    requires i <= |listed|
  {
    set j | 0 <= j < i :: listed[j]
  }

  lemma {:induction false} ClearedNext(blocks: seq<Block>, gone: set<string>, c: string)
    ensures Without(Without(blocks, OfChannels(gone)), (b: Block) => b.channel == c) == Without(blocks, OfChannels(gone + {c}))
  {
    WithoutTwice(blocks, OfChannels(gone), (b: Block) => b.channel == c);
    var both := (b: Block) => OfChannels(gone)(b) || ((b: Block) => b.channel == c)(b);
    WithoutSame(blocks, both, OfChannels(gone + {c}));
    WithoutSame(blocks, (b: Block) => OfChannels(gone)(b) || ((b: Block) => b.channel == c)(b), both);
  }

  /** With exactly the channels of `gone` blocked and deleted. */
  function BlockedAll(s: Store, gone: set<string>): Store {
    s.(blocked := gone, blocks := Without(s.blocks, OfChannels(gone)), channels := s.channels - gone)
  }

  lemma {:induction false} BlockedNone(s: Store)
    ensures BlockedAll(s, {}) == s.(blocked := {})
  {
    WithoutNothing(s.blocks, OfChannels({}));
    assert s.channels - {} == s.channels;
  }

  lemma {:induction false} BlockedList(s: Store, listed: seq<string>)
    ensures BlockedAll(s, Reached(listed, |listed|)) == SyncBlocked(s, listed)
  {
    assert Reached(listed, |listed|) == set c <- listed;
    WithoutSame(s.blocks, OfChannels(Reached(listed, |listed|)), (b: Block) => b.channel in listed);
  }

  /** INSERT into blocked_channels, DELETE the blocks and the row. */
  method BlockOne(tx0: Db, channel: string, ghost start: Store, ghost gone: set<string>) returns (tx: Db)
    requires Accounted(tx0) && tx0.tables == BlockedAll(start, gone)
    ensures Accounted(tx) && tx.tables == BlockedAll(start, gone + {channel})
  {
    ClearedNext(start.blocks, gone, channel);
    tx := tx0.(tables := tx0.tables.(blocked := tx0.tables.blocked + {channel}));
    AccountedAlike(tx0, tx);
    tx := ClearChannel(tx, channel);
    assert start.channels - gone - {channel} == start.channels - (gone + {channel});
  }

  /** Block the listed channels one after another; a channel listed twice breaks the primary key. */
  method BlockEach(tx0: Db, listed: seq<string>) returns (ok: bool, tx: Db)
    requires Accounted(tx0)
    ensures ok <==> forall i, j :: 0 <= i < j < |listed| ==> listed[i] != listed[j]
    ensures ok ==> Accounted(tx) && tx.tables == SyncBlocked(tx0.tables, listed)
  {
    tx := tx0.(tables := tx0.tables.(blocked := {}));
    AccountedAlike(tx0, tx);
    BlockedNone(tx0.tables);
    assert Reached(listed, 0) == {};
    for i := 0 to |listed|
      invariant Accounted(tx) && tx.tables == BlockedAll(tx0.tables, Reached(listed, i))
      invariant forall k, j :: 0 <= k < j < i ==> listed[k] != listed[j]
    {
      if listed[i] in tx.tables.blocked {
        return false, tx0;
      }
      tx := BlockOne(tx, listed[i], tx0.tables, Reached(listed, i));
      assert Reached(listed, i + 1) == Reached(listed, i) + {listed[i]};
    }
    BlockedList(tx0.tables, listed);
    return true, tx;
  }

  lemma {:induction false} RowsForAll(w: World, db: Db)
    requires Sound(w, db)
    ensures RowsFor(db)
  {
    forall b | b in db.tables.blocks ensures b.channel in db.tables.channels { HasRow(w, db, b); }
  }

  /** Order of expiry: by last event time, then id. */
  function ExpiryOrder(): (Block, Block) -> bool {
    (a: Block, b: Block) => a.last < b.last || (a.last == b.last && a.id <= b.id)
  }

  function Expired(cutoff: int): Block -> bool {
    (b: Block) => b.last < cutoff
  }

  /** SELECT .. WHERE last_event_at_ms < ? ORDER BY last_event_at_ms, id LIMIT 1024. */
  function ExpiryBatch(blocks: seq<Block>, cutoff: int): (batch: seq<Block>)
    ensures |batch| <= EXPIRY_BATCH_BLOCKS
  {
    var due := Sort(Filter(blocks, Expired(cutoff)), ExpiryOrder());
    if |due| > EXPIRY_BATCH_BLOCKS then due[..EXPIRY_BATCH_BLOCKS] else due
  }

  lemma {:induction false} ExpiryBatchSound(blocks: seq<Block>, cutoff: int)
    ensures forall b <- ExpiryBatch(blocks, cutoff) :: b in blocks && b.last < cutoff
    ensures ExpiryBatch(blocks, cutoff) == [] ==> forall b <- blocks :: b.last >= cutoff
  {
    var due := Filter(blocks, Expired(cutoff));
    var sorted := Sort(due, ExpiryOrder());
    SortKeeps(due, ExpiryOrder());
    forall b | b in ExpiryBatch(blocks, cutoff) ensures b in blocks && b.last < cutoff {
      assert b in sorted;
      assert b in multiset(due);
      assert Expired(cutoff)(b);
    }
    if ExpiryBatch(blocks, cutoff) == [] {
      assert |due| == 0;
      forall b | b in blocks ensures b.last >= cutoff {
        assert Expired(cutoff)(b) ==> b in due;
      }
    }
  }

  /** Deleting some expired blocks leaves the same blocks to survive expiry. */
  lemma {:induction false} ExpiredAnyway(blocks: seq<Block>, b: Block, cutoff: int)
    requires AscendingIds(blocks) && b in blocks && b.last < cutoff
    ensures Without(Without(blocks, HasId(b.id)), Expired(cutoff)) == Without(blocks, Expired(cutoff))
  {
    WithoutTwice(blocks, HasId(b.id), Expired(cutoff));
    forall x | x in blocks && x.id == b.id ensures x.last < cutoff { IdIsKey(blocks, x, b); }
    WithoutSame(blocks, (x: Block) => HasId(b.id)(x) || Expired(cutoff)(x), Expired(cutoff));
  }

  /** One expiry transaction: the rows selected are deleted one by one. */
  method ExpireOnce(tx0: Db, batch: seq<Block>, cutoff: int) returns (tx: Db, messages: nat)
    requires Accounted(tx0) && AscendingIds(tx0.tables.blocks) && RowsFor(tx0)
    requires batch == ExpiryBatch(tx0.tables.blocks, cutoff) && batch != []
    ensures Accounted(tx) && AscendingIds(tx.tables.blocks) && RowsFor(tx)
    ensures tx.tables == tx0.tables.(blocks := tx.tables.blocks)
    ensures exists ids :: tx.tables == Evict(tx0.tables, ids)
    ensures Without(tx.tables.blocks, Expired(cutoff)) == Without(tx0.tables.blocks, Expired(cutoff))
    ensures |tx.tables.blocks| < |tx0.tables.blocks|
    ensures messages == Messages(tx0.tables.blocks) - Messages(tx.tables.blocks)
  {
    ExpiryBatchSound(tx0.tables.blocks, cutoff);
    tx, messages := tx0, 0;
    ghost var ids: seq<nat> := [];
    WithoutNothing(tx.tables.blocks, InIds(ids));
    for i := 0 to |batch|
      invariant Accounted(tx) && AscendingIds(tx.tables.blocks) && RowsFor(tx)
      invariant |ids| == i
      invariant tx.tables == Evict(tx0.tables, ids)
      invariant Without(tx.tables.blocks, Expired(cutoff)) == Without(tx0.tables.blocks, Expired(cutoff))
      invariant messages == Messages(tx0.tables.blocks) - Messages(tx.tables.blocks)
      invariant |tx.tables.blocks| <= |tx0.tables.blocks| && (i > 0 ==> |tx.tables.blocks| < |tx0.tables.blocks|)
    {
      assert batch[i] in batch;
      ExpireStep(tx0.tables, tx.tables, batch[i], ids, cutoff);
      ids := ids + [batch[i].id];
      var removed, count;
      tx, removed, count := EvictOne(tx, batch[i].id);
      messages := messages + count;
    }
  }

  /** One more expired block deleted. */
  lemma {:induction false} ExpireStep(s: Store, t: Store, b: Block, ids: seq<nat>, cutoff: int)
    requires AscendingIds(s.blocks) && AscendingIds(t.blocks) && b in s.blocks && b.last < cutoff && t == Evict(s, ids)
    ensures Evict(s, ids + [b.id]) == t.(blocks := Without(t.blocks, HasId(b.id)))
    ensures Without(Without(t.blocks, HasId(b.id)), Expired(cutoff)) == Without(t.blocks, Expired(cutoff))
    ensures ids == [] ==> |Without(t.blocks, HasId(b.id))| < |s.blocks|
  {
    var more := ids + [b.id];
    assert more[..|ids| + 1] == more && more[..|ids|] == ids;
    EvictOneMore(s, more, |ids|);
    ExpireRest(s, t, b, cutoff);
    if ids == [] {
      WithoutNothing(s.blocks, InIds(ids));
      DeletedOnce(t.blocks, b);
    }
  }

  lemma {:induction false} ExpireRest(s: Store, t: Store, b: Block, cutoff: int)
    requires AscendingIds(s.blocks) && AscendingIds(t.blocks) && b in s.blocks && b.last < cutoff && forall x <- t.blocks :: x in s.blocks
    ensures Without(Without(t.blocks, HasId(b.id)), Expired(cutoff)) == Without(t.blocks, Expired(cutoff))
  {
    if b in t.blocks {
      ExpiredAnyway(t.blocks, b, cutoff);
    } else {
      AbsentId(s.blocks, t.blocks, b);
      WithoutNothing(t.blocks, HasId(b.id));
    }
  }

  lemma {:induction false} AbsentId(all: seq<Block>, some: seq<Block>, b: Block)
    requires AscendingIds(all) && b in all && b !in some && forall x <- some :: x in all
    ensures forall x <- some :: x.id != b.id
  {
    forall x | x in some ensures x.id != b.id { if x.id == b.id { IdIsKey(all, x, b); } }
  }

  lemma {:induction false} EvictedSound(w: World, db: Db, tx: Db, ids: seq<nat>)
    requires Sound(w, db) && Accounted(tx) && tx.tables == Evict(db.tables, ids)
    ensures Sound(w, tx)
  {
    EvictKeeps(db.tables, w.cfg, w.stamp, ids);
  }

  /** When no block is due any more, what is left is what expiry leaves. */
  lemma {:induction false} ExpiryDone(before: Store, s: Store, cutoff: int)
    requires s == before.(blocks := s.blocks)
    requires Without(s.blocks, Expired(cutoff)) == Without(before.blocks, Expired(cutoff))
    requires ExpiryBatch(s.blocks, cutoff) == []
    ensures DropIdle(s, cutoff) == Expire(before, cutoff)
  {
    ExpiryBatchSound(s.blocks, cutoff);
    WithoutNothing(s.blocks, Expired(cutoff));
    WithoutSame(before.blocks, (b: Block) => b.last < cutoff, Expired(cutoff));
  }

  lemma {:induction false} TallyCounts(blocks: seq<Block>)
    ensures Tally(blocks).blocks == |blocks| && Tally(blocks).messages == Messages(blocks)
  {
    if blocks != [] {
      TallyCounts(blocks[1..]);
    }
  }

  /** One channel batch on a sound database leaves it sound. */
  method AppendSound(ghost w: World, cfg: Config, tx0: Db, records: seq<Record>) returns (tx: Db)
    requires Sound(w, tx0) && cfg == w.cfg && records != [] && OneChannel(records) && Stamped(records, w.stamp)
    ensures Sound(w, tx) && tx.tables == Append(tx0.tables, cfg, records[0].channel, records)
  {
    var channel := records[0].channel;
    tx := AppendTransaction(w, cfg, tx0, channel, records);
    AppendKeeps(tx0.tables, cfg, channel, records, w.stamp);
    AppendFrame(tx0.tables, cfg, channel, records);
  }

  /** A batch that can be written: at most one channel. */
  predicate Writable(rs: seq<Record>) {
    rs == [] || OneChannel(rs)
  }

  /** The next batch of a transaction; a batch of two channels fails it. */
  method AppendNext(ghost w: World, cfg: Config, tx0: Db, ghost s: Store, batches: seq<seq<Record>>, i: nat)
    returns (ok: bool, tx: Db)
    requires i < |batches| && Stamped(batches[i], w.stamp)
    requires Sound(w, tx0) && cfg == w.cfg && tx0.tables == AppendAll(s, cfg, batches[..i])
    ensures ok <==> Writable(batches[i])
    ensures ok ==> Sound(w, tx) && tx.tables == AppendAll(s, cfg, batches[..i + 1])
  {
    AppendAllNext(s, cfg, batches, i);
    if batches[i] == [] {
      return true, tx0;
    }
    if !OneChannel(batches[i]) {
      return false, tx0;
    }
    tx := AppendSound(w, cfg, tx0, batches[i]);
    return true, tx;
  }

  lemma {:induction false} AppendAllNext(s: Store, cfg: Config, batches: seq<seq<Record>>, i: nat)
    requires cfg.Valid() && i < |batches|
    ensures AppendAll(s, cfg, batches[..i + 1])
         == var before := AppendAll(s, cfg, batches[..i]);
            if batches[i] == [] then before else Append(before, cfg, batches[i][0].channel, batches[i])
  {
    assert batches[..i + 1][..i] == batches[..i];
  }

  /** Batch after batch in the same transaction, until one has two channels. */
  method AppendEach(ghost w: World, cfg: Config, tx0: Db, batches: seq<seq<Record>>) returns (ok: bool, tx: Db)
    requires Sound(w, tx0) && cfg == w.cfg && forall rs <- batches :: Stamped(rs, w.stamp)
    ensures ok <==> forall rs <- batches :: Writable(rs)
    ensures ok ==> Sound(w, tx) && tx.tables == AppendAll(tx0.tables, cfg, batches)
  {
    tx := tx0;
    for i := 0 to |batches|
      invariant Sound(w, tx) && tx.tables == AppendAll(tx0.tables, cfg, batches[..i])
      invariant forall j :: 0 <= j < i ==> Writable(batches[j])
    {
      assert batches[i] in batches;
      ok, tx := AppendNext(w, cfg, tx, tx0.tables, batches, i);
      if !ok {
        return;
      }
    }
    assert batches[..|batches|] == batches;
    ok := true;
  }

  class SqliteBlockStore {
    const cfg: Config
    ghost const w: World
    var db: Db

    /** The tables are sound and every derived column is exact. */
    ghost predicate Valid()
      reads this
    {
      w.cfg == cfg && Sound(w, db)
    }

    /** A new database. */
    constructor (cfg: Config, ghost stamp: EventKey -> int)
      requires cfg.Valid()
      ensures Valid() && db == EMPTY_DB && this.cfg == cfg && w.stamp == stamp
    {
      this.cfg := cfg;
      this.w := World(cfg, stamp);
      this.db := EMPTY_DB;
      new;
      assert forall c :: ChannelInv(EMPTY, cfg, c, stamp);
    }

    /** All batches in one transaction; a batch of two channels rolls everything back. */
    method AppendChannelBatches(batches: seq<seq<Record>>) returns (r: Outcome<()>)
      requires Valid() && forall rs <- batches :: Stamped(rs, w.stamp)
      modifies this`db
      ensures Valid()
      ensures r.Done? <==> forall rs <- batches :: rs != [] ==> OneChannel(rs)
      ensures r.Done? ==> db.tables == AppendAll(old(db.tables), cfg, batches)
      ensures r.Failed? ==> db == old(db) && r.error == MixedChannelBatch
    {
      var ok, tx := AppendEach(w, cfg, db, batches);
      if !ok {
        return Failed(MixedChannelBatch);
      }
      db := tx;
      return Done(());
    }

    /** One channel's records in a transaction of their own. */
    method AppendBatch(records: seq<Record>) returns (r: Outcome<()>)
      requires Valid() && Stamped(records, w.stamp)
      modifies this`db
      ensures Valid()
      ensures r.Done? <==> records == [] || OneChannel(records)
      ensures r.Done? ==> db.tables == if records == [] then old(db.tables) else Append(old(db.tables), cfg, records[0].channel, records)
      ensures r.Failed? ==> db == old(db) && r.error == MixedChannelBatch
    {
      if records == [] {
        return Done(());
      }
      if !OneChannel(records) {
        return Failed(MixedChannelBatch);
      }
      var tx := AppendSound(w, cfg, db, records);
      db := tx;
      return Done(());
    }

    method AcceptJournalBatch(stream: Stream, first: nat, last: nat, payload: seq<Record>) returns (r: Outcome<nat>)
      requires Valid() && Stamped(payload, w.stamp)
      modifies this`db
      ensures Valid()
      ensures match AcceptJournal(old(db.tables), cfg, stream, first, last, payload)
              case Err(e) => r == Failed(Rejected(e)) && db == old(db)
              case Ok(a) => r == Done(a.through) && db == old(db).(tables := a.store)
    {
      if first > last {
        return Failed(Rejected(InvalidRange));
      }
      if last > MAX_I64 {
        return Failed(Rejected(TooLarge));
      }
      ghost var s := db.tables;
      var tx := db.tables;
      var base := if stream in tx.offsets then tx.offsets[stream] else first - 1;
      var row := JournalRow(stream, first, last, cfg.digest(payload), payload);
      var existing := Find(tx.journal, stream, first);
      if existing.Some? {
        if existing.value.last != last || existing.value.digest != row.digest {
          return Failed(Rejected(Conflict));
        }
      } else {
        tx := tx.(journal := tx.journal + [row]);
      }
      var committed := AdvanceOffset(tx.journal, stream, base);
      if committed.Err? {
        return Failed(Rejected(committed.error));
      }
      AcceptKeeps(s, cfg, stream, first, last, payload);
      tx := tx.(offsets := tx.offsets[stream := committed.value]);
      JournalOnly(s, tx, cfg, w.stamp);
      db := db.(tables := tx);
      assert forall c <- db.tables.channels :: RetainedExact(old(db), c) ==> RetainedExact(db, c);
      return Done(committed.value);
    }

    method RetireJournalThrough(stream: Stream, through: nat) returns (r: Outcome<nat>)
      requires Valid()
      modifies this`db
      ensures Valid()
      ensures if through > MAX_I64 then r == Failed(Rejected(TooLarge)) && db == old(db)
              else db == old(db).(tables := RetireJournal(old(db.tables), stream, through))
                   && r == Done(|old(db.tables.journal)| - |db.tables.journal|)
    {
      if through > MAX_I64 {
        return Failed(Rejected(TooLarge));
      }
      var tx := RetireJournal(db.tables, stream, through);
      var deleted := |db.tables.journal| - |tx.journal|;
      RetireKeeps(db.tables, cfg, stream, through);
      JournalOnly(db.tables, tx, cfg, w.stamp);
      db := db.(tables := tx);
      assert forall c <- db.tables.channels :: RetainedExact(old(db), c) ==> RetainedExact(db, c);
      return Done(deleted);
    }

    /** Pending rows in replay order: by source, stream and first sequence, none lost or repeated. */
    method PendingJournalBatches() returns (rows: seq<JournalRow>)
      requires Valid()
      ensures rows == Pending(db.tables)
      ensures multiset(rows) == multiset(db.tables.journal)
      ensures forall i, j :: 0 <= i < j < |rows| ==>
                && TextLe(rows[i].stream.0, rows[j].stream.0)
                && (rows[i].stream.0 == rows[j].stream.0 ==> TextLe(rows[i].stream.1, rows[j].stream.1))
                && (rows[i].stream == rows[j].stream ==> rows[i].first < rows[j].first)
    {
      rows := Sort(db.tables.journal, ReplayOrder());
      SortKeeps(db.tables.journal, ReplayOrder());
      forall i, j | 0 <= i < j < |rows|
        ensures && TextLe(rows[i].stream.0, rows[j].stream.0)
                && (rows[i].stream.0 == rows[j].stream.0 ==> TextLe(rows[i].stream.1, rows[j].stream.1))
                && (rows[i].stream == rows[j].stream ==> rows[i].first < rows[j].first)
      {
        ReplayRises(db.tables.journal, i, j);
      }
    }

    /** Delete the blocks with these ids; ids of no block are skipped. */
    method EvictBlockIds(ids: seq<nat>) returns (deleted: nat)
      requires Valid()
      modifies this`db
      ensures Valid()
      ensures db.tables == Evict(old(db.tables), ids)
      ensures deleted == |old(db.tables.blocks)| - |db.tables.blocks|
    {
      RowsForAll(w, db);
      EvictKeeps(db.tables, cfg, w.stamp, ids);
      var tx;
      tx, deleted := EvictEach(db, ids);
      db := tx;
    }

    /**
     * Delete blocks whose events are all older than the cutoff, at most 1024 a transaction, then the
     * rows of channels that hold nothing and were not asked for since.
     */
    method ExpireBlocksBefore(cutoff: int) returns (blocks: nat, messages: nat)
      requires Valid()
      modifies this`db
      ensures Valid()
      ensures db.tables == Expire(old(db.tables), cutoff)
      ensures blocks == |old(db.tables.blocks)| - |db.tables.blocks|
      ensures messages == Messages(old(db.tables.blocks)) - Messages(db.tables.blocks)
    {
      blocks, messages := 0, 0;
      while true
        invariant Valid()
        invariant db.tables == old(db.tables).(blocks := db.tables.blocks)
        invariant Without(db.tables.blocks, Expired(cutoff)) == Without(old(db.tables.blocks), Expired(cutoff))
        invariant blocks == |old(db.tables.blocks)| - |db.tables.blocks|
        invariant messages == Messages(old(db.tables.blocks)) - Messages(db.tables.blocks)
        decreases |db.tables.blocks|
      {
        var expired := ExpiryBatch(db.tables.blocks, cutoff);
        if expired == [] {
          ExpiryDone(old(db.tables), db.tables, cutoff);
          DeleteIdleRows(cutoff);
          return;
        }
        var removed, count := ExpireTransaction(expired, cutoff);
        blocks := blocks + removed;
        messages := messages + count;
      }
    }

    /** DELETE FROM channels WHERE retained_messages = 0 AND nobody asked since the cutoff. */
    method DeleteIdleRows(cutoff: int)
      requires Valid()
      modifies this`db
      ensures Valid() && db.tables == DropIdle(old(db.tables), cutoff)
    {
      IdleExact(w, db, cutoff);
      DropIdleKeeps(db.tables, cfg, w.stamp, cutoff);
      var gone := set c <- db.tables.channels |
        db.retained[c] == 0 && (db.tables.channels[c].requested == 0 || db.tables.channels[c].requested < cutoff);
      assert gone == set c <- db.tables.channels | Idle(db.tables, c, cutoff);
      db := DeleteChannels(db, gone);
    }

    /** One transaction of expiry: an eviction of expired blocks. */
    method ExpireTransaction(expired: seq<Block>, cutoff: int) returns (removed: nat, messages: nat)
      requires Valid() && expired == ExpiryBatch(db.tables.blocks, cutoff) && expired != []
      modifies this`db
      ensures Valid() && db.tables == old(db.tables).(blocks := db.tables.blocks)
      ensures exists ids :: db.tables == Evict(old(db.tables), ids)
      ensures Without(db.tables.blocks, Expired(cutoff)) == Without(old(db.tables.blocks), Expired(cutoff))
      ensures removed == |old(db.tables.blocks)| - |db.tables.blocks| > 0
      ensures messages == Messages(old(db.tables.blocks)) - Messages(db.tables.blocks)
    {
      RowsForAll(w, db);
      var tx;
      tx, messages := ExpireOnce(db, expired, cutoff);
      ghost var ids :| tx.tables == Evict(db.tables, ids);
      EvictedSound(w, db, tx, ids);
      removed := |db.tables.blocks| - |tx.tables.blocks|;
      db := tx;
    }

    /** The records of the channel received inside the window, newest `limit` of them. */
    method Query(request: QueryRequest) returns (r: Outcome<LocalResult>)
      requires Valid()
      ensures if request.limit == 0 then r == Failed(InvalidLimit)
              else r == Done(Answer(Held(db.tables.blocks, request.channel), request))
    {
      if request.limit == 0 {
        return Failed(InvalidLimit);
      }
      var rows := BlocksOf(db.tables.blocks, request.channel);
      var records: seq<Record> := [];
      for i := 0 to |rows|
        invariant records == RecordsOf(rows[..i])
      {
        assert rows[..i + 1] == rows[..i] + [rows[i]];
        RecordsOfConcat(rows[..i], [rows[i]]);
        assert RecordsOf([rows[i]]) == rows[i].records + RecordsOf([]);
        records := records + rows[i].records;
      }
      assert rows[..|rows|] == rows;
      records := Sort(records, AnswerOrder());
      var oldest := if records == [] then None else Some(records[0].receivedAt);
      var newest := if records == [] then None else Some(records[|records| - 1].receivedAt);
      records := Filter(records, Window(request));
      if |records| > request.limit {
        records := records[|records| - request.limit..];
      }
      return Done(LocalResult(records, oldest, newest));
    }

    /** Totals kept by triggers are the counts of what is stored. */
    method Stats() returns (channels: nat, blocks: int, messages: int, compressed: int, uncompressed: int)
      requires Valid()
      ensures channels == |db.tables.channels| && blocks == |db.tables.blocks| && messages == Messages(db.tables.blocks)
      ensures Totals(blocks, messages, compressed, uncompressed) == Tally(db.tables.blocks)
    {
      TallyCounts(db.tables.blocks);
      return |db.tables.channels|, db.totals.blocks, db.totals.messages, db.totals.compressed, db.totals.uncompressed;
    }

    /** Raise the channel's cutoff and delete all it holds. */
    method PurgeChannel(channel: string, receivedAt: int) returns (removed: nat)
      requires Valid()
      modifies this`db
      ensures Valid()
      ensures db.tables == Purge(old(db.tables), channel, receivedAt)
      ensures removed == |old(db.tables.blocks)| - |db.tables.blocks|
    {
      var tx := db;
      var cutoffs := tx.tables.cutoffs;
      if channel !in cutoffs || cutoffs[channel] < receivedAt {
        cutoffs := cutoffs[channel := receivedAt];
      }
      tx := ClearChannel(tx, channel);
      removed := |db.tables.blocks| - |tx.tables.blocks|;
      ghost var cleared := tx;
      tx := tx.(tables := tx.tables.(cutoffs := cutoffs));
      AccountedAlike(cleared, tx);
      PurgeKeeps(db.tables, cfg, w.stamp, channel, receivedAt);
      assert cutoffs == Purge(db.tables, channel, receivedAt).cutoffs;
      db := tx;
    }

    /** Block the channel and delete all it holds, or lift the block. */
    method SetChannelBlocked(channel: string, blocked: bool) returns (removed: nat)
      requires Valid()
      modifies this`db
      ensures Valid()
      ensures db.tables == SetBlocked(old(db.tables), channel, blocked)
      ensures removed == |old(db.tables.blocks)| - |db.tables.blocks|
    {
      var tx := db;
      SetBlockedKeeps(db.tables, cfg, w.stamp, channel, blocked);
      removed := 0;
      if blocked {
        tx := ClearChannel(tx, channel);
        removed := |db.tables.blocks| - |tx.tables.blocks|;
      }
      ghost var before := tx;
      var list := if blocked then tx.tables.blocked + {channel} else tx.tables.blocked - {channel};
      tx := tx.(tables := tx.tables.(blocked := list));
      AccountedAlike(before, tx);
      db := tx;
    }

    /** Make exactly the listed channels blocked and delete what they hold. */
    method SyncBlockedChannels(listed: seq<string>) returns (r: Outcome<()>)
      requires Valid()
      modifies this`db
      ensures Valid()
      ensures r.Done? <==> forall i, j :: 0 <= i < j < |listed| ==> listed[i] != listed[j]
      ensures r.Done? ==> db.tables == SyncBlocked(old(db.tables), listed)
      ensures r.Failed? ==> db == old(db) && r.error == DuplicateChannel
    {
      var ok, tx := BlockEach(db, listed);
      if !ok {
        return Failed(DuplicateChannel);
      }
      SyncBlockedKeeps(db.tables, cfg, w.stamp, listed);
      db := tx;
      return Done(());
    }

    /** Record that the channel was asked for, unless that was recorded recently. */
    method TouchChannelRequested(channel: string, requestedAt: int, coalesceBefore: int) returns (changed: bool)
      requires Valid()
      modifies this`db
      ensures Valid()
      ensures db.tables == Touch(old(db.tables), channel, requestedAt, coalesceBefore)
      ensures changed <==> channel !in old(db.tables.channels) || old(db.tables.channels[channel].requested) < coalesceBefore
    {
      TouchKeeps(db.tables, cfg, w.stamp, channel, requestedAt, coalesceBefore);
      if channel !in db.tables.channels {
        assert ChannelInv(db.tables, cfg, channel, w.stamp);
        db := db.(tables := db.tables.(channels := db.tables.channels[channel := Row(0, requestedAt)]), retained := db.retained[channel := 0]);
        changed := true;
      } else if db.tables.channels[channel].requested < coalesceBefore {
        var row := db.tables.channels[channel].(requested := requestedAt);
        db := db.(tables := db.tables.(channels := db.tables.channels[channel := row]));
        changed := true;
      } else {
        changed := false;
      }
      assert forall c <- old(db.tables.channels) :: RetainedExact(old(db), c) ==> RetainedExact(db, c);
    }
  }

  lemma {:induction false} AppendFrame(s: Store, cfg: Config, channel: string, rs: seq<Record>)
    requires cfg.Valid()
    ensures var s' := Append(s, cfg, channel, rs);
            s'.journal == s.journal && s'.offsets == s.offsets && s'.cutoffs == s.cutoffs && s'.blocked == s.blocked
  {
  }

  lemma {:induction false} HasRow(w: World, db: Db, b: Block)
    requires Sound(w, db) && b in db.tables.blocks
    ensures b.channel in db.tables.channels
  {
    assert ChannelInv(db.tables, w.cfg, b.channel, w.stamp);
    BlocksOfSound(db.tables.blocks, b.channel);
  }

  lemma {:induction false} DeletedOnce(blocks: seq<Block>, b: Block)
    requires AscendingIds(blocks) && b in blocks
    ensures |Without(blocks, HasId(b.id))| == |blocks| - 1
  {
    var drop := HasId(b.id);
    if blocks[0] == b {
      WithoutNothing(blocks[1..], drop);
    } else {
      DeletedOnce(blocks[1..], b);
      WithoutSame(blocks[1..], drop, HasId(b.id));
    }
  }
}
