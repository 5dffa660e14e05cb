/** The SQLite block store: every operation is one transaction over a local copy, committed at its end. */
module Sqlite {
  import opened Ordering
  import opened Records
  import opened Tables
  import opened Lists
  import opened Invariants
  import opened Appending
  import opened Batches
  import opened Journal
  import opened Accounting
  import opened Scanning
  import opened IndexedScan
  import opened Machine
  import opened MachineInvariant

  /** Totals are exact, and so is every channel's counter but that of the channel being appended to. */
  ghost predicate AccountedBut(tx: Db, channel: string) {
    && TotalsExact(tx)
    && tx.retained.Keys == tx.tables.channels.Keys
    && forall c <- tx.tables.channels :: c != channel ==> RetainedExact(tx, c)
  }

  /** INSERT OR IGNORE INTO channels. */
  function EnsureRow(tx: Db, channel: string): Db {
    if channel in tx.tables.channels then tx
    else tx.(tables := tx.tables.(channels := tx.tables.channels[channel := Row(0, 0)]),
             retained := tx.retained[channel := 0])
  }

  /** UPDATE channels SET next_block_sequence = ?, retained_messages = ? WHERE channel_key = ?. */
  function SetCounters(tx: Db, channel: string, next: int, retained: int): Db
    requires channel in tx.tables.channels
  {
    tx.(tables := tx.tables.(channels := tx.tables.channels[channel := tx.tables.channels[channel].(next := next)]),
        retained := tx.retained[channel := retained])
  }

  /** SELECT .. ORDER BY block_sequence LIMIT 1. */
  function Oldest(l: seq<Block>): Option<Block> {
    if l == [] then None
    else
      match Oldest(l[1..])
      case None => Some(l[0])
      case Some(b) => if b.sequence < l[0].sequence then Some(b) else Some(l[0])
  }

  lemma {:induction false} OldestIsFirst(l: seq<Block>, next: int)
    requires Sequenced(l, next) && l != []
    ensures Oldest(l) == Some(l[0])
  {
    if |l| > 1 {
      OldestIsFirst(l[1..], next);
    }
  }

  lemma {:induction false} DropFirstIsById(blocks: seq<Block>, channel: string)
    requires AscendingIds(blocks) && BlocksOf(blocks, channel) != []
    ensures Without(blocks, HasId(BlocksOf(blocks, channel)[0].id)) == DropFirst(blocks, channel)
  {
    var id := BlocksOf(blocks, channel)[0].id;
    var drop := HasId(id);
    if blocks[0].channel == channel {
      WithoutNothing(blocks[1..], drop);
    } else {
      BlocksOfSound(blocks[1..], channel);
      DropFirstIsById(blocks[1..], channel);
      WithoutSame(blocks[1..], drop, HasId(BlocksOf(blocks[1..], channel)[0].id));
    }
  }

  /** The row with the lowest sequence is the channel's first; deleting it by id drops that block and no other. */
  lemma {:induction false} OldestGoes(blocks: seq<Block>, channel: string, next: int)
    requires AscendingIds(blocks) && Sequenced(BlocksOf(blocks, channel), next) && BlocksOf(blocks, channel) != []
    ensures var l := BlocksOf(blocks, channel);
            && Oldest(l) == Some(l[0])
            && Without(blocks, HasId(l[0].id)) == DropFirst(blocks, channel)
            && BlocksOf(DropFirst(blocks, channel), channel) == l[1..]
            && Sequenced(l[1..], next) && AscendingIds(DropFirst(blocks, channel))
            && Messages(l[1..]) == Messages(l) - l[0].count
            && |DropFirst(blocks, channel)| < |blocks|
  {
    var l := BlocksOf(blocks, channel);
    OldestIsFirst(l, next);
    DropFirstIsById(blocks, channel);
    DropFirstList(blocks, channel, channel);
    DropFirstAscends(blocks, channel);
    SuffixKeeps(l, 1, next);
  }

  /** Write the replaced blocks back. */
  method WriteUpgrades(tx0: Db, held: seq<Loaded>, cfg: Config) returns (tx: Db)
    requires TotalsExact(tx0) && forall l <- held :: l.records != []
    ensures tx == tx0.(tables := tx0.tables.(blocks := PatchAll(tx0.tables.blocks, held, cfg)), totals := tx.totals)
    ensures TotalsExact(tx)
  {
    tx := tx0;
    assert PatchAll(tx0.tables.blocks, [], cfg) == tx0.tables.blocks;
    for m := 0 to |held|
      invariant tx == tx0.(tables := tx0.tables.(blocks := PatchAll(tx0.tables.blocks, held[..m], cfg)), totals := tx.totals)
      invariant TotalsExact(tx)
    {
      PatchOneMore(tx0.tables.blocks, held, cfg, m);
      if held[m].dirty {
        UpdateExact(tx, held[m].id, held[m].records, cfg);
        tx := UpdateBlock(tx, held[m].id, held[m].records, cfg);
      }
    }
    assert held[..|held|] == held;
  }

  lemma {:induction false} PatchKeepsRow(b: Block, held: seq<Loaded>, cfg: Config)
    ensures Patch(b, held, cfg).id == b.id && Patch(b, held, cfg).channel == b.channel && Patch(b, held, cfg).sequence == b.sequence
  {
    if held != [] {
      PatchKeepsRow(b, held[..|held| - 1], cfg);
    }
  }

  lemma {:induction false} PatchOneMore(blocks: seq<Block>, held: seq<Loaded>, cfg: Config, m: nat)
    requires m < |held| && held[m].records != []
    ensures var before := PatchAll(blocks, held[..m], cfg);
            PatchAll(blocks, held[..m + 1], cfg)
            == if held[m].dirty then UpdatedRows(before, held[m].id, held[m].records, cfg) else before
  {
    assert held[..m + 1][..m] == held[..m];
    forall i | 0 <= i < |blocks|
      ensures Patch(blocks[i], held[..m + 1], cfg)
           == if held[m].dirty then Rewritten(Patch(blocks[i], held[..m], cfg), held[m].id, held[m].records, cfg)
              else Patch(blocks[i], held[..m], cfg)
    {
      PatchKeepsRow(blocks[i], held[..m], cfg);
    }
  }

  /** Insert the new records in chunks of a block each. */
  method InsertChunks(tx0: Db, channel: string, novel: seq<Record>, next0: int, cfg: Config)
    returns (tx: Db, next: int, retained: int)
    requires cfg.Valid() && TotalsExact(tx0)
    ensures var (blocks, n) := AddChunks(tx0.tables.blocks, channel, next0, novel, cfg);
            tx == tx0.(tables := tx0.tables.(blocks := blocks), totals := tx.totals) && next == n
    ensures TotalsExact(tx)
    ensures retained == Messages(BlocksOf(tx.tables.blocks, channel)) - Messages(BlocksOf(tx0.tables.blocks, channel))
  {
    tx, next, retained := tx0, next0, 0;
    var rest := novel;
    while rest != []
      invariant tx == tx0.(tables := tx0.tables.(blocks := tx.tables.blocks), totals := tx.totals)
      invariant AddChunks(tx.tables.blocks, channel, next, rest, cfg) == AddChunks(tx0.tables.blocks, channel, next0, novel, cfg)
      invariant TotalsExact(tx)
      invariant retained == Messages(BlocksOf(tx.tables.blocks, channel)) - Messages(BlocksOf(tx0.tables.blocks, channel))
      decreases |rest|
    {
      var b := FirstChunk(tx.tables.blocks, channel, next, rest, cfg);
      InsertExact(tx, b);
      OneMore(tx.tables.blocks, b, channel);
      RecordsOfConcat(BlocksOf(tx.tables.blocks, channel), [b]);
      assert Messages([b]) == b.count + Messages([]);
      tx := InsertBlock(tx, b);
      rest := rest[ChunkSize(rest, cfg)..];
      next := next + 1;
      retained := retained + b.count;
    }
  }

  /** Delete the channel's oldest block. */
  method DeleteOldest(tx0: Db, channel: string, oldest: Block, ghost next: int) returns (tx: Db)
    requires TotalsExact(tx0) && AscendingIds(tx0.tables.blocks) && Sequenced(BlocksOf(tx0.tables.blocks, channel), next)
    requires Oldest(BlocksOf(tx0.tables.blocks, channel)) == Some(oldest)
    ensures tx == tx0.(tables := tx0.tables.(blocks := DropFirst(tx0.tables.blocks, channel)), totals := tx.totals)
    ensures TotalsExact(tx)
  {
    OldestGoes(tx0.tables.blocks, channel, next);
    var id := oldest.id;
    DeleteExact(tx0, HasId(id));
    WithoutSame(tx0.tables.blocks, HasId(id), HasId(BlocksOf(tx0.tables.blocks, channel)[0].id));
    tx := DeleteBlocks(tx0, HasId(id));
  }

  /** Delete the oldest blocks until the channel is within its allowance. */
  method EnforceRetention(tx0: Db, channel: string, retained0: int, ghost next: int, cfg: Config) returns (tx: Db, retained: int)
    requires cfg.Valid() && TotalsExact(tx0) && AscendingIds(tx0.tables.blocks)
    requires Sequenced(BlocksOf(tx0.tables.blocks, channel), next)
    requires retained0 == Messages(BlocksOf(tx0.tables.blocks, channel))
    ensures tx == tx0.(tables := tx0.tables.(blocks := Retain(tx0.tables.blocks, channel, cfg.Allowed())), totals := tx.totals)
    ensures TotalsExact(tx) && retained == Messages(BlocksOf(tx.tables.blocks, channel))
  {
    tx, retained := tx0, retained0;
    while retained > cfg.Allowed()
      invariant tx == tx0.(tables := tx0.tables.(blocks := tx.tables.blocks), totals := tx.totals)
      invariant Retain(tx.tables.blocks, channel, cfg.Allowed()) == Retain(tx0.tables.blocks, channel, cfg.Allowed())
      invariant TotalsExact(tx) && AscendingIds(tx.tables.blocks)
      invariant Sequenced(BlocksOf(tx.tables.blocks, channel), next)
      invariant retained == Messages(BlocksOf(tx.tables.blocks, channel))
      decreases |tx.tables.blocks|
    {
      var oldest := Oldest(BlocksOf(tx.tables.blocks, channel));
      if oldest.None? {
        break;
      }
      OldestGoes(tx.tables.blocks, channel, next);
      tx := DeleteOldest(tx, channel, oldest.value, next);
      retained := retained - oldest.value.count;
    }
  }
}
