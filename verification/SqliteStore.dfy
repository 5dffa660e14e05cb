/** The block store as a class: `db` is what is committed. */
module SqliteStore {
  import opened Ordering
  import opened Records
  import opened Tables
  import opened Lists
  import opened Invariants
  import opened Appending
  import opened Batches
  import opened Journal
  import opened Accounting
  import opened Scanning
  import opened IndexedScan
  import opened Sqlite
  import opened Machine
  import opened MachineInvariant
  import opened BlockOrder

  datatype StoreError = MixedChannelBatch | InvalidLimit | DuplicateChannel | Backend | Rejected(reason: JournalError)

  datatype Outcome<T> = Done(value: T) | Failed(error: StoreError)

  ghost predicate Sound(w: World, db: Db) {
    w.cfg.Valid() && StoreOk(w, db.tables) && Accounted(db)
  }

  predicate OneChannel(rs: seq<Record>) {
    forall r <- rs :: r.channel == rs[0].channel
  }

  lemma {:induction false} EnsureRowKeeps(tx: Db, channel: string)
    requires Accounted(tx) && (BlocksOf(tx.tables.blocks, channel) != [] ==> channel in tx.tables.channels)
    ensures Accounted(EnsureRow(tx, channel))
    ensures EnsureRow(tx, channel).tables == tx.tables.(channels := tx.tables.channels[channel := RowOf(tx.tables, channel)])
  {
    var tx' := EnsureRow(tx, channel);
    if channel !in tx.tables.channels {
      forall c | c in tx'.tables.channels ensures RetainedExact(tx', c) {
        assert c != channel ==> RetainedExact(tx, c);
      }
    } else {
      assert tx.tables.channels == tx.tables.channels[channel := RowOf(tx.tables, channel)];
    }
  }

  /** After the counters of the channel are written, all of them are exact again. */
  lemma {:induction false} CountersExact(tx: Db, before: Db, channel: string, next: int, retained: int)
    requires AccountedBut(before, channel) && channel in before.tables.channels
    requires TotalsExact(tx) && tx.retained == before.retained && tx.tables.channels == before.tables.channels
    requires forall c :: c != channel ==> BlocksOf(tx.tables.blocks, c) == BlocksOf(before.tables.blocks, c)
    requires retained == Messages(BlocksOf(tx.tables.blocks, channel))
    ensures Accounted(SetCounters(tx, channel, next, retained))
  {
    var out := SetCounters(tx, channel, next, retained);
    forall c | c in out.tables.channels ensures RetainedExact(out, c) {
      if c != channel {
        assert RetainedExact(before, c);
      }
    }
  }

  /** One channel batch in a transaction. */
  method AppendTransaction(ghost w: World, cfg: Config, tx0: Db, channel: string, records: seq<Record>) returns (tx: Db)
    requires Sound(w, tx0) && cfg == w.cfg
    requires records != [] && AllIn(records, channel) && Stamped(records, w.stamp)
    ensures tx.tables == Append(tx0.tables, cfg, channel, records)
    ensures channel !in tx0.tables.blocked ==> LaterOutlive(tx0.tables, tx.tables, channel, records)
    ensures Accounted(tx)
  {
    AppendOutlives(tx0.tables, cfg, channel, records, w.stamp);
    if channel in tx0.tables.blocked {
      return tx0;
    }
    var rs := records;
    if channel in tx0.tables.cutoffs {
      rs := AfterCutoff(tx0.tables.cutoffs, channel, rs);
      if rs == [] {
        return tx0;
      }
    }
    AdmissibleAfterCutoff(tx0.tables, channel, records, w.stamp);
    assert ChannelInv(tx0.tables, cfg, channel, w.stamp);
    tx := AppendKept(cfg, tx0, channel, rs, w.stamp);
  }

  /** Load the blocks that overlap the batch in event time and deduplicate the batch against them. */
  method LoadAndDeduplicate(cfg: Config, s: Store, channel: string, kept: seq<Record>, ghost stamp: EventKey -> int)
    returns (held: seq<Loaded>, novel: seq<Record>)
    requires cfg.Valid() && AscendingIds(s.blocks) && ChannelInv(s, cfg, channel, stamp)
    requires kept != [] && Admissible(kept, channel, s.cutoffs, stamp)
    ensures PatchAll(s.blocks, held, cfg) == Upgraded(s, cfg, channel, kept)
    ensures novel == Novel(s, channel, kept)
    ensures forall l <- held :: l.records != []
  {
    var rows := Overlapping(BlocksOf(s.blocks, channel), MinEvent(kept), MaxEvent(kept));
    var before, index := Scan(rows);
    var rs := Sort(kept, EventOrder());
    SortKeeps(kept, EventOrder());
    SortedBounds(kept, rs);
    ScanFits(s, cfg, stamp, channel, rs, rows, before, index);
    held, novel := Deduplicate(before, index, rs);
    PatchUpgrades(s, cfg, stamp, channel, rs, rows, before, held);
    LoadedNonEmpty(s, cfg, stamp, channel, rows, before, held, rs);
  }

  /** Deduplicate and upgrade, insert new blocks and enforce retention. */
  method AppendKept(cfg: Config, tx0: Db, channel: string, kept: seq<Record>, ghost stamp: EventKey -> int) returns (tx: Db)
    requires cfg.Valid() && Accounted(tx0) && AscendingIds(tx0.tables.blocks) && ChannelInv(tx0.tables, cfg, channel, stamp)
    requires kept != [] && Admissible(kept, channel, tx0.tables.cutoffs, stamp)
    ensures Accounted(tx)
    ensures var f := Filled(tx0.tables, cfg, channel, kept);
            tx.tables == if Keys(kept) <= Keys(Held(tx0.tables.blocks, channel)) then f
                         else f.(blocks := Retain(f.blocks, channel, cfg.Allowed()))
  {
    EnsureRowKeeps(tx0, channel);
    tx := EnsureRow(tx0, channel);
    ghost var ready := tx;
    var held, novel := LoadAndDeduplicate(cfg, tx0.tables, channel, kept, stamp);
    tx := WriteUpgrades(tx, held, cfg);
    UpgradedAccounted(tx0.tables, cfg, stamp, channel, kept, ready, tx);
    FilledFrom(tx0.tables, cfg, channel, kept, tx.tables);
    NovelFacts(tx0.tables, channel, kept, stamp);
    UpgradedList(tx0.tables, cfg, channel, kept, stamp);
    if novel == [] {
      return;
    }
    tx := FillAndRetain(cfg, tx, channel, novel, stamp);
  }

  /** The store after upgrades, with its channel row, is what the new blocks are added to. */
  lemma {:induction false} FilledFrom(s: Store, cfg: Config, channel: string, kept: seq<Record>, up: Store)
    requires cfg.Valid()
    requires up == s.(blocks := Upgraded(s, cfg, channel, kept), channels := s.channels[channel := RowOf(s, channel)])
    ensures Novel(s, channel, kept) == [] ==> Filled(s, cfg, channel, kept) == up
    ensures var (blocks, next) := AddChunks(up.blocks, channel, up.channels[channel].next, Novel(s, channel, kept), cfg);
            Filled(s, cfg, channel, kept) == up.(
              blocks := blocks, channels := up.channels[channel := up.channels[channel].(next := next)])
  {
    var (blocks, next) := AddChunks(up.blocks, channel, up.channels[channel].next, Novel(s, channel, kept), cfg);
    var row := RowOf(s, channel);
    assert up.channels[channel := row.(next := next)] == s.channels[channel := row.(next := next)];
    assert row.(next := row.next) == row;
  }

  /** Upgrades change no counter. */
  lemma {:induction false} UpgradedAccounted(s: Store, cfg: Config, stamp: EventKey -> int, channel: string, kept: seq<Record>, ready: Db, tx: Db)
    requires cfg.Valid() && AscendingIds(s.blocks) && ChannelInv(s, cfg, channel, stamp)
    requires Admissible(kept, channel, s.cutoffs, stamp)
    requires Accounted(ready) && ready.tables.blocks == s.blocks && TotalsExact(tx)
    requires tx == ready.(tables := ready.tables.(blocks := Upgraded(s, cfg, channel, kept)), totals := tx.totals)
    ensures Accounted(tx)
  {
    UpgradedList(s, cfg, channel, kept, stamp);
    forall c | c in tx.tables.channels ensures RetainedExact(tx, c) {
      assert RetainedExact(ready, c);
    }
  }

  /** Insert the new blocks, drop the oldest ones over the allowance, write the counters. */
  method FillAndRetain(cfg: Config, up: Db, channel: string, novel: seq<Record>, ghost stamp: EventKey -> int) returns (tx: Db)
    requires cfg.Valid() && AscendingIds(up.tables.blocks) && channel in up.tables.channels && AccountedBut(up, channel)
    requires ListInv(BlocksOf(up.tables.blocks, channel), channel, up.tables.channels[channel].next, cfg, up.tables.cutoffs, stamp)
    requires Admissible(novel, channel, up.tables.cutoffs, stamp)
    requires DistinctKeys(Held(up.tables.blocks, channel) + novel)
    requires RetainedExact(up, channel)
    ensures Accounted(tx)
    ensures var (blocks, next) := AddChunks(up.tables.blocks, channel, up.tables.channels[channel].next, novel, cfg);
            tx.tables == up.tables.(
              blocks := Retain(blocks, channel, cfg.Allowed()),
              channels := up.tables.channels[channel := up.tables.channels[channel].(next := next)])
  {
    var next, retained := up.tables.channels[channel].next, up.retained[channel];
    ChunksKeep(up.tables.blocks, channel, next, novel, cfg, up.tables.cutoffs, stamp);
    ghost var blocks := AddChunks(up.tables.blocks, channel, next, novel, cfg).0;
    forall c | c != channel ensures BlocksOf(Retain(blocks, channel, cfg.Allowed()), c) == BlocksOf(up.tables.blocks, c) {
      ChunksElsewhere(up.tables.blocks, channel, next, novel, cfg, c);
      var _ := RetainList(blocks, channel, cfg.Allowed(), c);
    }
    var added;
    tx, next, added := InsertChunks(up, channel, novel, next, cfg);
    tx, retained := EnforceRetention(tx, channel, retained + added, next, cfg);
    CountersExact(tx, up, channel, next, retained);
    tx := SetCounters(tx, channel, next, retained);
  }

  lemma {:induction false} SortedBounds(rs: seq<Record>, sorted: seq<Record>)
    requires rs != [] && sorted == Sort(rs, EventOrder())
    ensures sorted != [] && MinEvent(sorted) == MinEvent(rs) && MaxEvent(sorted) == MaxEvent(rs)
  {
    SortKeeps(rs, EventOrder());
    EventBounds(rs);
    EventBounds(sorted);
  }

  lemma {:induction false} ScanFits(s: Store, cfg: Config, stamp: EventKey -> int, channel: string, rs: seq<Record>,
                                    rows: seq<Block>, before: seq<Loaded>, index: map<EventKey, Place>)
    requires cfg.Valid() && ChannelInv(s, cfg, channel, stamp)
    requires AllIn(rs, channel) && Stamped(rs, stamp) && rs != []
    requires rows == Overlapping(BlocksOf(s.blocks, channel), MinEvent(rs), MaxEvent(rs))
    requires |before| == |rows| && (forall j :: 0 <= j < |rows| ==> before[j] == Loaded(rows[j].id, rows[j].records, false))
    requires Indexed(before, index)
    ensures NoRepeats(before)
    ensures Fresh(rs, index.Keys) == Fresh(rs, Keys(Held(s.blocks, channel)))
  {
    OverlappingSound(BlocksOf(s.blocks, channel), MinEvent(rs), MaxEvent(rs));
    LoadedDistinct(rows, before);
    IndexKeys(rows, before, index);
    ScanKnowsEnough(s, cfg, stamp, channel, rs, rows);
  }

  lemma {:induction false} LoadedNonEmpty(s: Store, cfg: Config, stamp: EventKey -> int, channel: string,
                                          rows: seq<Block>, before: seq<Loaded>, held: seq<Loaded>, rs: seq<Record>)
    requires cfg.Valid() && ChannelInv(s, cfg, channel, stamp) && rs != []
    requires rows == Overlapping(BlocksOf(s.blocks, channel), MinEvent(rs), MaxEvent(rs))
    requires |before| == |rows| && (forall j :: 0 <= j < |rows| ==> before[j] == Loaded(rows[j].id, rows[j].records, false))
    requires Absorbed(before, held, rs)
    ensures forall l <- held :: l.records != []
  {
    OverlappingSound(BlocksOf(s.blocks, channel), MinEvent(rs), MaxEvent(rs));
    forall j | 0 <= j < |held| ensures held[j].records != [] {
      assert rows[j] in rows;
      assert |held[j].records| == |before[j].records|;
    }
  }
}
