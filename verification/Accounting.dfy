/** The derived columns of the block database: retained_messages and the trigger-kept totals. */
module Accounting {
  import opened Ordering
  import opened Records
  import opened Tables
  import opened Lists
  import opened Invariants

  datatype Totals = Totals(blocks: int, messages: int, compressed: int, uncompressed: int)

  /** The tables, channels.retained_messages and store_totals. */
  datatype Db = Db(tables: Store, retained: map<string, int>, totals: Totals)

  const EMPTY_DB: Db := Db(EMPTY, map[], Totals(0, 0, 0, 0))

  /** The totals as a recount of the table. */
  function Tally(blocks: seq<Block>): (t: Totals)
    ensures t.blocks >= 0 && t.messages >= 0 && t.compressed >= 0 && t.uncompressed >= 0
  {
    if blocks == [] then Totals(0, 0, 0, 0) else AfterInsert(Tally(blocks[1..]), blocks[0])
  }

  /** Row by row: blocks, their messages, the bytes of their payloads and the bytes these unpack to. */
  lemma {:induction false} TallyByRows(b: Block, rest: seq<Block>)
    ensures Tally([]) == Totals(0, 0, 0, 0)
    ensures var t, more := Tally(rest), Tally([b] + rest);
            && more.blocks == t.blocks + 1 && more.messages == t.messages + b.count
            && more.compressed == t.compressed + b.packed.bytes && more.uncompressed == t.uncompressed + b.packed.uncompressed
  {
    assert ([b] + rest)[1..] == rest;
  }

  /* ---------- triggers ---------- */

  function Floor(n: int): int {
    if n < 0 then 0 else n
  }

  function AfterInsert(t: Totals, b: Block): Totals {
    Totals(t.blocks + 1, t.messages + b.count, t.compressed + b.packed.bytes, t.uncompressed + b.packed.uncompressed)
  }

  function AfterUpdate(t: Totals, new_: Block, old_: Block): Totals {
    Totals(t.blocks,
           t.messages + new_.count - old_.count,
           t.compressed + new_.packed.bytes - old_.packed.bytes,
           t.uncompressed + new_.packed.uncompressed - old_.packed.uncompressed)
  }

  function AfterDelete(t: Totals, b: Block): Totals {
    Totals(Floor(t.blocks - 1), Floor(t.messages - b.count),
           Floor(t.compressed - b.packed.bytes), Floor(t.uncompressed - b.packed.uncompressed))
  }

  /** The delete trigger, fired for every deleted row in turn. */
  function AfterDeletes(t: Totals, blocks: seq<Block>, drop: Block -> bool): Totals
    decreases |blocks|
  {
    if blocks == [] then t
    else AfterDeletes(if drop(blocks[0]) then AfterDelete(t, blocks[0]) else t, blocks[1..], drop)
  }

  /* ---------- statements ---------- */

  /** INSERT INTO message_blocks. */
  function InsertBlock(tx: Db, b: Block): Db {
    tx.(tables := tx.tables.(blocks := tx.tables.blocks + [b]), totals := AfterInsert(tx.totals, b))
  }

  function Rewritten(b: Block, id: nat, rs: seq<Record>, cfg: Config): Block
    requires rs != []
  {
    if b.id == id then Encode(b.id, b.channel, b.sequence, rs, cfg) else b
  }

  function UpdatedRows(blocks: seq<Block>, id: nat, rs: seq<Record>, cfg: Config): seq<Block>
    requires rs != []
  {
    seq(|blocks|, i requires 0 <= i < |blocks| => Rewritten(blocks[i], id, rs, cfg))
  }

  function UpdatedTotals(t: Totals, blocks: seq<Block>, id: nat, rs: seq<Record>, cfg: Config): Totals
    requires rs != []
  {
    if blocks == [] then t
    else AfterUpdate(UpdatedTotals(t, blocks[1..], id, rs, cfg), Rewritten(blocks[0], id, rs, cfg), blocks[0])
  }

  /** UPDATE message_blocks SET payload = .. WHERE id = ?. */
  function UpdateBlock(tx: Db, id: nat, rs: seq<Record>, cfg: Config): Db
    requires rs != []
  {
    tx.(tables := tx.tables.(blocks := UpdatedRows(tx.tables.blocks, id, rs, cfg)),
        totals := UpdatedTotals(tx.totals, tx.tables.blocks, id, rs, cfg))
  }

  /** DELETE FROM message_blocks WHERE ... */
  function DeleteBlocks(tx: Db, drop: Block -> bool): Db {
    tx.(tables := tx.tables.(blocks := Without(tx.tables.blocks, drop)),
        totals := AfterDeletes(tx.totals, tx.tables.blocks, drop))
  }

  /** DELETE FROM channels, cascading to the blocks of the deleted rows. */
  function DeleteChannels(tx: Db, gone: set<string>): Db {
    var cascaded := DeleteBlocks(tx, (b: Block) => b.channel in gone && b.channel in tx.tables.channels);
    cascaded.(tables := cascaded.tables.(channels := tx.tables.channels - gone), retained := tx.retained - gone)
  }

  /** UPDATE channels SET retained_messages = MAX(0, retained_messages - ?) WHERE channel_key = ?. */
  function LowerRetained(tx: Db, channel: string, messages: nat): Db {
    if channel in tx.retained then tx.(retained := tx.retained[channel := Floor(tx.retained[channel] - messages)]) else tx
  }

  /* ---------- what the columns say ---------- */

  ghost predicate TotalsExact(db: Db) {
    db.totals == Tally(db.tables.blocks)
  }

  ghost predicate RetainedExact(db: Db, c: string) {
    c in db.retained && db.retained[c] == Messages(BlocksOf(db.tables.blocks, c))
  }

  /** Totals equal the sums and every channel's counter is the sum of its block counts. */
  ghost predicate Accounted(db: Db) {
    && TotalsExact(db)
    && db.retained.Keys == db.tables.channels.Keys
    && forall c <- db.tables.channels :: RetainedExact(db, c)
  }

  lemma {:induction false} TallyAdds(a: seq<Block>, b: seq<Block>)
    ensures Tally(a + b) == Totals(Tally(a).blocks + Tally(b).blocks, Tally(a).messages + Tally(b).messages,
                                   Tally(a).compressed + Tally(b).compressed, Tally(a).uncompressed + Tally(b).uncompressed)
  {
    if a == [] {
      assert a + b == b;
    } else {
      assert (a + b)[1..] == a[1..] + b;
      TallyAdds(a[1..], b);
    }
  }

  lemma {:induction false} InsertExact(tx: Db, b: Block)
    requires TotalsExact(tx)
    ensures TotalsExact(InsertBlock(tx, b))
  {
    TallyAdds(tx.tables.blocks, [b]);
    assert Tally([b]) == AfterInsert(Tally([]), b);
  }

  lemma {:induction false} UpdateTally(blocks: seq<Block>, id: nat, rs: seq<Record>, cfg: Config, extra: Totals)
    requires rs != []
    ensures var old_, new_ := Tally(blocks), Tally(UpdatedRows(blocks, id, rs, cfg));
            && new_.blocks == old_.blocks
            && UpdatedTotals(extra, blocks, id, rs, cfg)
               == Totals(extra.blocks, extra.messages - old_.messages + new_.messages,
                         extra.compressed - old_.compressed + new_.compressed,
                         extra.uncompressed - old_.uncompressed + new_.uncompressed)
  {
    if blocks != [] {
      assert UpdatedRows(blocks, id, rs, cfg)[1..] == UpdatedRows(blocks[1..], id, rs, cfg);
      UpdateTally(blocks[1..], id, rs, cfg, extra);
    }
  }

  lemma {:induction false} UpdateExact(tx: Db, id: nat, rs: seq<Record>, cfg: Config)
    requires TotalsExact(tx) && rs != []
    ensures TotalsExact(UpdateBlock(tx, id, rs, cfg))
  {
    UpdateTally(tx.tables.blocks, id, rs, cfg, tx.totals);
  }

  function Plus(a: Totals, b: Totals): Totals {
    Totals(a.blocks + b.blocks, a.messages + b.messages, a.compressed + b.compressed, a.uncompressed + b.uncompressed)
  }

  /** The MAX(0, ..) of the delete trigger never changes a value: totals stay sums. */
  lemma {:induction false} DeleteTally(blocks: seq<Block>, drop: Block -> bool, rest: Totals)
    requires rest.blocks >= 0 && rest.messages >= 0 && rest.compressed >= 0 && rest.uncompressed >= 0
    ensures AfterDeletes(Plus(Tally(blocks), rest), blocks, drop) == Plus(Tally(Without(blocks, drop)), rest)
    decreases |blocks|
  {
    if blocks != [] {
      var b, t := blocks[0], blocks[1..];
      if drop(b) {
        assert AfterDelete(Plus(Tally(blocks), rest), b) == Plus(Tally(t), rest);
        DeleteTally(t, drop, rest);
      } else {
        assert Plus(Tally(blocks), rest) == Plus(Tally(t), AfterInsert(rest, b));
        DeleteTally(t, drop, AfterInsert(rest, b));
        assert ([b] + Without(t, drop))[1..] == Without(t, drop);
      }
    }
  }

  lemma {:induction false} PlusZero(t: Totals)
    ensures Plus(t, Totals(0, 0, 0, 0)) == t
  {
  }

  lemma {:induction false} DeleteExact(tx: Db, drop: Block -> bool)
    requires TotalsExact(tx)
    ensures TotalsExact(DeleteBlocks(tx, drop))
  {
    var zero := Totals(0, 0, 0, 0);
    PlusZero(Tally(tx.tables.blocks));
    PlusZero(Tally(Without(tx.tables.blocks, drop)));
    DeleteTally(tx.tables.blocks, drop, zero);
  }

  /** Deleting channel rows that have no block deletes no block. */
  lemma {:induction false} NothingToDrop(blocks: seq<Block>, drop: Block -> bool, t: Totals)
    requires forall b <- blocks :: !drop(b)
    ensures Without(blocks, drop) == blocks && AfterDeletes(t, blocks, drop) == t
  {
    if blocks != [] {
      NothingToDrop(blocks[1..], drop, t);
    }
  }
}
