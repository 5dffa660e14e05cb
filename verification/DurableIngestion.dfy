/** The ingest object: a block store, an open tail and what has been materialised of each stream. */
module DurableIngestion {
  import opened Ordering
  import opened Records
  import opened Tables
  import opened Journal
  import opened Batches
  import opened Machine
  import opened MachineInvariant
  import opened MachineSteps
  import opened MachineTheorems
  import opened SqliteStore
  import opened BlockStore
  import opened OpenBlocks
  import opened Ingest

  class DurableIngest {
    const store: SqliteBlockStore
    const open: OpenBlockManager
    var through: map<Stream, nat>
    ghost var run: seq<State>     // the run of the state machine up to now
    ghost var acts: seq<Act>

    ghost predicate Sane()
      reads this, store, open
    {
      && store.Valid() && open.Valid()
      && (forall k <- through :: through[k] <= MAX_I64)
      && Collisionless(store.w) && IsRun(store.w, run, acts)
      && End().store == store.db.tables
    }

    ghost function End(): State
      reads this
      requires |run| > 0
    {
      run[|run| - 1]
    }

    /** The process is alive and holds these parts of its memory in local variables. */
    ghost predicate Holds(todo: seq<Record>, current: Option<(Stream, int)>, flight: seq<seq<Record>>, replay: seq<JournalRow>)
      reads this, store, open
    {
      Sane() && End().mem == Some(Mem(open.View(), todo, current, flight, through, replay))
    }

    /** Between calls, after recovery: nothing is under way. */
    ghost predicate Running()
      reads this, store, open
    {
      Holds([], None, [], [])
    }

    /** Before recovery, or after an error ended the run. */
    ghost predicate Down()
      reads this, store, open
    {
      Sane() && End().mem.None?
    }

    /** A process started over a database that an earlier run left behind. */
    constructor (store: SqliteBlockStore, open: OpenBlockManager, ghost run: seq<State>, ghost acts: seq<Act>)
      requires store.Valid() && open.Valid() && open.blocks == map[]
      requires Collisionless(store.w) && IsRun(store.w, run, acts)
      requires run[|run| - 1].store == store.db.tables && run[|run| - 1].mem.None?
      ensures Down() && this.store == store && this.open == open && through == map[]
    {
      this.store := store;
      this.open := open;
      this.through := map[];
      this.run := run;
      this.acts := acts;
    }

    ghost method Log(act: Act, s: State)
      requires IsRun(store.w, run, acts) && Step(store.w, End(), act) == Some(s)
      modifies this`run, this`acts
      ensures IsRun(store.w, run, acts) && run == old(run) + [s] && End() == s && acts == old(acts) + [act]
    {
      RunGrows(store.w, run, acts, act, s);
      run := run + [s];
      acts := acts + [act];
    }

    /** An error is returned to the caller, which gives up: memory is gone. */
    ghost method Die()
      requires Sane()
      modifies this`run, this`acts
      ensures Down() && old(run) < run && End().ledger == old(End().ledger) && acts == old(acts) + [Crash]
    {
      Log(Crash, End().(mem := None));
    }

    /** Put one record into the tail; what that seals is in flight. It fails if the last append of the channel lies ahead of the clock. */
    method Push(ghost todo: seq<Record>, ghost current: Option<(Stream, int)>, sealed: seq<seq<Record>>, ghost replay: seq<JournalRow>,
                record: Record, now: nat)
      returns (r: Ingested<seq<seq<Record>>>, ghost seals: seq<string>)
      requires Holds(todo, current, sealed, replay) && todo != [] && todo[0] == record
      modifies this`run, this`acts, open
      ensures old(run) <= run && End().ledger == old(End().ledger)
      ensures r.Bad? <==> record.channel in LateOf(old(open.blocks), now)
      ensures r.Bad? ==> r == Bad(Clock) && Down() && acts == old(acts) + [Crash]
      ensures r.Good? ==> Holds(todo[1..], current, r.value, replay) && acts == old(acts) + [Machine.Push(seals)]
      ensures r.Good? ==> LateOf(open.blocks, now) == MapWithout(LateOf(old(open.blocks), now), seals)
      ensures r.Good? && Within(LateOf(old(open.blocks), now), open.limits) ==> LateOf(open.blocks, now) == LateOf(old(open.blocks), now)
    {
      ghost var m := End().mem.value;
      ghost var before := open.blocks;
      var result;
      result, seals := open.Append(record, now);
      if result.ClockMovedBackwards? {
        Die();
        return Bad(Clock), [];
      }
      PushLate(before, open.blocks, open.limits, record, now, seals);
      PushStep(store.w, End(), m, seals);
      Log(Machine.Push(seals), Step(store.w, End(), Machine.Push(seals)).value);
      r := Good(sealed + result.batches);
    }

    /** Write the first batches in flight in one transaction. */
    method FlushSome(ghost todo: seq<Record>, ghost current: Option<(Stream, int)>, sealed: seq<seq<Record>>, ghost replay: seq<JournalRow>,
                     count: nat)
      requires Holds(todo, current, sealed, replay) && 0 < count <= |sealed|
      modifies this`run, this`acts, store
      ensures Holds(todo, current, sealed[count..], replay) && acts == old(acts) + [Flush(count)]
      ensures old(run) <= run && store.db.tables.journal == old(store.db.tables.journal)
    {
      ghost var m := End().mem.value;
      FlightOk(store.w, run, acts, sealed, count);
      FlushStep(store.w, End(), m, count);
      AppendAllFrame(store.db.tables, store.cfg, sealed[..count]);
      var _ := store.AppendChannelBatches(sealed[..count]);
      Log(Flush(count), Step(store.w, End(), Flush(count)).value);
    }

    /** Write every batch in flight in one transaction. */
    method FlushAll(ghost todo: seq<Record>, ghost current: Option<(Stream, int)>, sealed: seq<seq<Record>>, ghost replay: seq<JournalRow>)
      requires Holds(todo, current, sealed, replay) && sealed != []
      modifies this`run, this`acts, store
      ensures Holds(todo, current, [], replay) && acts == old(acts) + [Flush(|sealed|)]
      ensures old(run) <= run && store.db.tables.journal == old(store.db.tables.journal)
    {
      FlushSome(todo, current, sealed, replay, |sealed|);
      assert sealed[|sealed|..] == [];
    }

    /** The batch under way is materialised. */
    method Settle(stream: Stream, last: nat, ghost flight: seq<seq<Record>>, ghost replay: seq<JournalRow>)
      requires Holds([], Some((stream, last)), flight, replay) && last <= MAX_I64
      modifies this`run, this`acts, this`through
      ensures Holds([], None, flight, replay)
      ensures old(run) <= run && acts == old(acts) + [Machine.Settle]
    {
      ghost var m := End().mem.value;
      SettleStep(store.w, End(), m, stream, last);
      Log(Machine.Settle, Step(store.w, End(), Machine.Settle).value);
      var latest := if stream in through && through[stream] > last then through[stream] else last;
      through := through[stream := latest];
    }

    /** The records of a batch go into the tail one by one, until one comes to a channel that is late. */
    method PushAll(ghost current: Option<(Stream, int)>, records: seq<Record>, now: nat)
      returns (r: Ingested<seq<seq<Record>>>, ghost seals: seq<seq<string>>)
      requires Holds(records, current, [], [])
      modifies this`run, this`acts, open
      ensures old(run) <= run
      ensures ClockAllows(LateOf(old(open.blocks), now), records, seals)
      ensures r.Good? ==> Holds([], current, r.value, []) && acts == old(acts) + Pushes(seals) && |seals| == |records|
      ensures r.Bad? ==> r == Bad(Clock) && Down() && acts == old(acts) + Pushes(seals) + [Crash]
      ensures r.Bad? ==> |seals| < |records| && records[|seals|].channel in LateLeft(LateOf(old(open.blocks), now), seals)
      ensures Within(LateOf(old(open.blocks), now), open.limits) ==> (r.Bad? <==> Touches(LateOf(old(open.blocks), now), records))
    {
      var sealed: seq<seq<Record>> := [];
      seals := [];
      ghost var late := LateOf(open.blocks, now);
      assert records[0..] == records;
      PushesMore(acts, [], []);
      PushingStarts(late, open.limits, records);
      for i := 0 to |records|
        invariant Holds(records[i..], current, sealed, [])
        invariant old(run) <= run && acts == old(acts) + Pushes(seals)
        invariant Pushing(late, LateOf(open.blocks, now), open.limits, records, i, seals)
      {
        assert records[i..][1..] == records[i + 1..];
        ghost var left, run0 := LateOf(open.blocks, now), run;
        PushingEnds(late, left, open.limits, records, i, seals);
        ghost var more;
        var pushed;
        pushed, more := Push(records[i..], current, sealed, [], records[i], now);
        GoesOn(old(run), run0, run);
        if pushed.Bad? {
          return Bad(Clock), seals;
        }
        PushesMore(old(acts), seals, more);
        PushingGoesOn(late, left, open.limits, records, i, seals, LateOf(open.blocks, now), more);
        sealed, seals := pushed.value, seals + [more];
      }
      PushingEnds(late, LateOf(open.blocks, now), open.limits, records, |records|, seals);
      assert records[|records|..] == [];
      r := Good(sealed);
    }

    /** Append the records of a batch to the tail, write what that sealed, note the stream's progress. */
    method Materialize(stream: Stream, last: nat, records: seq<Record>, now: nat) returns (r: Ingested<()>, ghost seals: seq<seq<string>>)
      requires Holds(records, Some((stream, last)), [], []) && last <= MAX_I64
      modifies this, store, open
      ensures old(run) <= run && store.db.tables.journal == old(store.db.tables.journal)
      ensures ClockAllows(LateOf(old(open.blocks), now), records, seals)
      ensures r.Good? ==> Running() && |seals| == |records| && Did(old(acts) + Pushes(seals), acts, Materialising)
      ensures r.Bad? ==> r == Bad(Clock) && Down() && store.db == old(store.db) && acts == old(acts) + Pushes(seals) + [Crash]
      ensures r.Bad? ==> |seals| < |records| && records[|seals|].channel in LateLeft(LateOf(old(open.blocks), now), seals)
      ensures Within(LateOf(old(open.blocks), now), open.limits) ==> (r.Bad? <==> Touches(LateOf(old(open.blocks), now), records))
    {
      ghost var current: Option<(Stream, int)> := Some((stream, last));
      var pushed;
      pushed, seals := PushAll(current, records, now);
      if pushed.Bad? {
        return Bad(pushed.error), seals;
      }
      var sealed := pushed.value;
      ghost var run0 := run;
      DidWrite(acts, |sealed|);
      if sealed != [] {
        FlushAll([], current, sealed, []);
      }
      GoesOn(old(run), run0, run);
      run0 := run;
      Settle(stream, last, [], []);
      GoesOn(old(run), run0, run);
      r := Good(());
    }

    /** The journal transaction of a batch; an error ends the run. */
    method JournalBatch(stream: Stream, first: nat, last: nat, records: seq<Record>) returns (accepted: Outcome<nat>)
      requires Running() && Stamped(records, store.w.stamp)
      modifies this`run, this`acts, store
      ensures old(run) < run
      ensures match AcceptJournal(old(store.db.tables), store.cfg, stream, first, last, records)
              case Err(e) => accepted == Failed(Rejected(e)) && store.db == old(store.db) && Down()
              case Ok(a) =>
                && accepted == Done(a.through) && store.db.tables == a.store && acts == old(acts) + [Accept(stream, first, last, records)]
                && Holds(records, Some((stream, last)), [], [])
                && forall x <- records :: x in End().ledger.owed
    {
      ghost var m := End().mem.value;
      ghost var before := End();
      accepted := store.AcceptJournalBatch(stream, first, last, records);
      if accepted.Failed? {
        Die();
        return;
      }
      AcceptStep(store.w, before, m, stream, first, last, records);
      Log(Accept(stream, first, last, records), Step(store.w, before, Accept(stream, first, last, records)).value);
    }

    /**
     * Journal a batch, then materialise it. On success the offset of the stream is returned, and every
     * record is owed; whatever happens, a batch that reached the journal stays there.
     */
    method AcceptBatch(stream: Stream, first: nat, last: nat, records: seq<Record>, now: nat)
      returns (r: Ingested<nat>, ghost seals: seq<seq<string>>)
      requires Running() && Stamped(records, store.w.stamp)
      modifies this, store, open
      ensures old(run) <= run
      ensures r.Good? ==> Running() && Did(old(acts) + [Accept(stream, first, last, records)] + Pushes(seals), acts, Materialising)
      ensures r.Bad? ==> Down()
      ensures BatchOutcome(store.cfg, open.limits, LateOf(old(open.blocks), now), old(store.db.tables), store.db.tables,
                           stream, first, last, records, seals, r)
      ensures AcceptJournal(old(store.db.tables), store.cfg, stream, first, last, records).Ok? ==>
                exists i :: |old(run)| <= i < |run| && forall x <- records :: x in run[i].ledger.owed
    {
      var accepted := JournalBatch(stream, first, last, records);
      if accepted.Failed? {
        return Bad(StoreFailed(accepted.error)), [];
      }
      ghost var at := |run| - 1;
      ghost var owing := run[at];
      AcceptBounds(old(store.db.tables), store.cfg, stream, first, last, records);
      ghost var run0 := run;
      var done;
      done, seals := Materialize(stream, last, records, now);
      GoesOn(old(run), run0, run);
      assert run[at] == owing;
      r := if done.Bad? then Bad(done.error) else Good(accepted.value);
    }

    /** As AcceptBatch, for a batch that must hold one record per sequence. */
    method AcceptSourceBatch(stream: Stream, first: nat, last: nat, records: seq<Record>, now: nat)
      returns (r: Ingested<nat>, ghost seals: seq<seq<string>>)
      requires Running() && Stamped(records, store.w.stamp)
      modifies this, store, open
      ensures r.Good? ==> Running()
      ensures r.Bad? ==> Down()
      ensures first > last || |records| != last - first + 1 ==> r == Bad(InvalidSourceBatch) && store.db == old(store.db)
      ensures first <= last && |records| == last - first + 1 ==>
                BatchOutcome(store.cfg, open.limits, LateOf(old(open.blocks), now), old(store.db.tables), store.db.tables,
                             stream, first, last, records, seals, r)
    {
      if first > last || records == [] || |records| != last - first + 1 {
        Die();
        return Bad(InvalidSourceBatch), [];
      }
      r, seals := AcceptBatch(stream, first, last, records, now);
    }

    /** Write what was sealed so far once it is many batches. */
    method FlushIfMany(ghost todo: seq<Record>, ghost current: Option<(Stream, int)>, sealed: seq<seq<Record>>, ghost replay: seq<JournalRow>)
      returns (left: seq<seq<Record>>)
      requires Holds(todo, current, sealed, replay)
      modifies this`run, this`acts, store
      ensures Holds(todo, current, left, replay) && left == if |sealed| >= RECOVERY_APPEND_BATCHES then [] else sealed
      ensures acts == old(acts) + if |sealed| >= RECOVERY_APPEND_BATCHES then [Flush(|sealed|)] else []
      ensures old(run) <= run && store.db.tables.journal == old(store.db.tables.journal)
    {
      if |sealed| >= RECOVERY_APPEND_BATCHES {
        FlushAll(todo, current, sealed, replay);
        return [];
      }
      return sealed;
    }

    /** The next row is under way. */
    ghost method LogBegin(flight: seq<seq<Record>>, replay: seq<JournalRow>)
      requires Holds([], None, flight, replay) && replay != [] && store.cfg.digest(replay[0].payload) == replay[0].digest
      modifies this`run, this`acts
      ensures Holds(replay[0].payload, Some((replay[0].stream, replay[0].last)), flight, replay[1..])
      ensures old(run) <= run && acts == old(acts) + [Begin]
    {
      var m := End().mem.value;
      BeginStep(store.w, End(), m);
      Log(Begin, Step(store.w, End(), Begin).value);
    }

    /** Replay one pending row into the tail. */
    method ReplayRow(row: JournalRow, sealed0: seq<seq<Record>>, ghost replay: seq<JournalRow>, now: nat) returns (r: Ingested<seq<seq<Record>>>)
      requires Holds([], None, sealed0, replay) && replay != [] && replay[0] == row && row.last >= 0
      modifies this, store, open
      ensures old(run) <= run && store.db.tables.journal == old(store.db.tables.journal)
      ensures r.Bad? ==> Down()
      ensures r.Good? ==> Holds([], None, r.value, replay[1..]) && Did(old(acts), acts, Recovering)
      ensures store.cfg.digest(row.payload) != row.digest <==> r == Bad(Checksum)
      ensures r.Bad? ==> r == Bad(Checksum) || (r == Bad(Clock) && LateOf(old(open.blocks), now) != map[])
      ensures r.Good? && LateOf(old(open.blocks), now) == map[] ==> LateOf(open.blocks, now) == map[]
    {
      if store.cfg.digest(row.payload) != row.digest {
        Die();
        return Bad(Checksum);
      }
      r := ReplayMatching(row, sealed0, replay, now);
    }

    /** A row whose checksum is right. */
    method ReplayMatching(row: JournalRow, sealed0: seq<seq<Record>>, ghost replay: seq<JournalRow>, now: nat) returns (r: Ingested<seq<seq<Record>>>)
      requires Holds([], None, sealed0, replay) && replay != [] && replay[0] == row && row.last >= 0
      requires store.cfg.digest(row.payload) == row.digest
      modifies this, store, open
      ensures old(run) <= run && store.db.tables.journal == old(store.db.tables.journal)
      ensures r.Bad? ==> r == Bad(Clock) && Down() && LateOf(old(open.blocks), now) != map[]
      ensures r.Good? ==> Holds([], None, r.value, replay[1..]) && Did(old(acts), acts, Recovering)
      ensures r.Good? && LateOf(old(open.blocks), now) == map[] ==> LateOf(open.blocks, now) == map[]
    {
      LogBegin(sealed0, replay);
      ghost var run0 := run;
      r := ReplayRecords(row, sealed0, replay[1..], now);
      GoesOn(old(run), run0, run);
      if r.Bad? {
        return;
      }
      DidReplay(old(acts), acts);
      run0 := run;
      Settle(row.stream, row.last, r.value, replay[1..]);
      GoesOn(old(run), run0, run);
    }

    /** The records of the row go into the tail one by one; what that seals is written once it is much. */
    method ReplayRecords(row: JournalRow, sealed0: seq<seq<Record>>, ghost replay: seq<JournalRow>, now: nat) returns (r: Ingested<seq<seq<Record>>>)
      requires Holds(row.payload, Some((row.stream, row.last)), sealed0, replay)
      modifies this, store, open
      ensures old(run) <= run && store.db.tables.journal == old(store.db.tables.journal)
      ensures r.Bad? ==> r == Bad(Clock) && Down() && LateOf(old(open.blocks), now) != map[]
      ensures r.Good? ==> Holds([], Some((row.stream, row.last)), r.value, replay) && Did(old(acts), acts, Recovering)
      ensures r.Good? && LateOf(old(open.blocks), now) == map[] ==> LateOf(open.blocks, now) == map[]
    {
      var records, sealed := row.payload, sealed0;
      ghost var current: Option<(Stream, int)> := Some((row.stream, row.last));
      ghost var late := LateOf(open.blocks, now);
      assert records[0..] == records;
      for i := 0 to |records|
        invariant Holds(records[i..], current, sealed, replay)
        invariant old(run) <= run && store.db.tables.journal == old(store.db.tables.journal) && Did(old(acts), acts, Recovering)
        invariant LateOf(open.blocks, now).Keys <= late.Keys
      {
        assert records[i..][1..] == records[i + 1..];
        ghost var before, left, run0 := acts, LateOf(open.blocks, now), run;
        ghost var seals;
        var pushed;
        pushed, seals := Push(records[i..], current, sealed, replay, records[i], now);
        GoesOn(old(run), run0, run);
        if pushed.Bad? {
          return Bad(Clock);
        }
        LateShrinks(left, LateOf(open.blocks, now), seals);
        DidPush(old(acts), before, seals, |pushed.value|);
        run0 := run;
        sealed := FlushIfMany(records[i + 1..], current, pushed.value, replay);
        GoesOn(old(run), run0, run);
      }
      assert records[|records|..] == [];
      return Good(sealed);
    }

    /** Rebuild the tail from the pending rows, in replay order. This always succeeds. */
    method RecoverPending(now: nat) returns (r: Ingested<nat>)
      requires Down() && open.blocks == map[] && through == map[]
      modifies this, store, open
      ensures r == Good(|old(store.db.tables.journal)|) && Running() && Did(old(acts), acts, Recovering)
      ensures old(run) <= run && store.db.tables.journal == old(store.db.tables.journal)
    {
      var pending := LoadPending();
      var sealed: seq<seq<Record>> := [];
      assert pending[0..] == pending;
      for i := 0 to |pending|
        invariant Holds([], None, sealed, pending[i..]) && LateOf(open.blocks, now) == map[]
        invariant old(run) <= run && store.db.tables.journal == old(store.db.tables.journal) && Did(old(acts), acts, Recovering)
      {
        assert pending[i] in pending && pending[i..][1..] == pending[i + 1..];
        ghost var before, run0 := acts, run;
        var replayed := ReplayRow(pending[i], sealed, pending[i..], now);
        GoesOn(old(run), run0, run);
        DidThen(old(acts), before, acts, Recovering);
        sealed := replayed.value;
      }
      assert pending[|pending|..] == [];
      if sealed != [] {
        ghost var run0 := run;
        FlushAll([], None, sealed, []);
        GoesOn(old(run), run0, run);
      }
      return Good(|pending|);
    }

    /** The process starts: the pending rows are what it has to replay. */
    method LoadPending() returns (pending: seq<JournalRow>)
      requires Down() && open.blocks == map[] && through == map[]
      modifies this`run, this`acts
      ensures Holds([], None, [], pending) && old(run) <= run && acts == old(acts) + [Boot]
      ensures |pending| == |store.db.tables.journal|
      ensures forall row <- pending :: row.last >= 0 && store.cfg.digest(row.payload) == row.digest
    {
      RunEndInv(store.w, run, acts);
      pending := store.PendingJournalBatches();
      SortKeeps(store.db.tables.journal, ReplayOrder());
      assert open.View() == map[];
      Log(Boot, Step(store.w, End(), Boot).value);
    }

    /** What was sealed out of the tail is in flight. */
    ghost method LogSeal(before: Tail, seals: seq<string>, sealed: seq<seq<Record>>)
      requires Sane() && End().mem == Some(Mem(before, [], None, [], through, []))
      requires Sealable(before, seals) && open.View() == TailWithout(before, seals) && sealed == SealedBatches(before, seals)
      modifies this`run, this`acts
      ensures Holds([], None, sealed, []) && old(run) <= run && acts == old(acts) + [Seal(seals)]
    {
      var m := End().mem.value;
      SealStep(store.w, End(), m, seals);
      SealedNone(m.flight, sealed);
      Log(Seal(seals), Step(store.w, End(), Seal(seals)).value);
    }

    /** Seal the blocks that are due and write them: those idle for the idle limit or open for the age limit, and no others. */
    method SealDue(now: nat) returns (count: nat)
      requires Running()
      modifies this`run, this`acts, store, open
      ensures Running() && old(run) <= run && Did(old(acts), acts, Sealing)
      ensures count + open.openMessages == old(open.openMessages)
      ensures DueTaken(old(open.blocks), open.blocks, open.limits, now)
    {
      ghost var before := open.View();
      ghost var all := open.blocks;
      var sealed, seals := open.SealDue(now);
      SealedView(all, seals, open.blocks, sealed);
      LogSeal(before, seals, sealed);
      count := Count(sealed);
      DidSeal(old(acts), seals, |sealed|);
      if sealed != [] {
        ghost var run0 := run;
        FlushAll([], None, sealed, []);
        GoesOn(old(run), run0, run);
      }
    }

    method SealEverything() returns (sealed: seq<seq<Record>>)
      requires Running()
      modifies this`run, this`acts, open
      ensures Holds([], None, sealed, []) && open.blocks == map[] && old(run) <= run
      ensures Count(sealed) == old(open.openMessages) && Did(old(acts), acts, Checkpointing)
    {
      ghost var before := open.View();
      ghost var all := open.blocks;
      ghost var seals;
      sealed, seals := open.SealAll();
      SealedView(all, seals, open.blocks, sealed);
      LogSeal(before, seals, sealed);
    }

    /** Write what was sealed, at most 1024 batches a transaction. */
    method FlushChunks(all: seq<seq<Record>>)
      requires Holds([], None, all, []) && open.blocks == map[]
      modifies this`run, this`acts, store
      ensures Running() && open.blocks == map[] && old(run) <= run && Did(old(acts), acts, Checkpointing)
    {
      var sealed := all;
      while sealed != []
        invariant Holds([], None, sealed, []) && open.blocks == map[]
        invariant old(run) <= run && Did(old(acts), acts, Checkpointing)
        decreases |sealed|
      {
        var n := if |sealed| > RECOVERY_APPEND_BATCHES then RECOVERY_APPEND_BATCHES else |sealed|;
        ghost var run0 := run;
        FlushSome([], None, sealed, [], n);
        GoesOn(old(run), run0, run);
        sealed := sealed[n..];
      }
    }

    method RetireAll()
      requires Running() && open.blocks == map[]
      modifies this, store
      ensures Running() && open.blocks == map[] && through == map[] && old(run) <= run && Did(old(acts), acts, Checkpointing)
    {
      while through != map[]
        invariant Running() && open.blocks == map[]
        invariant old(run) <= run && Did(old(acts), acts, Checkpointing)
        decreases |through|
      {
        var stream :| stream in through;
        ghost var run0 := run;
        RetireStream(stream);
        GoesOn(old(run), run0, run);
      }
    }

    /**
     * Seal everything, write it in chunks, then retire every stream: the journal is empty afterwards,
     * and as many records were written as waited.
     */
    method Checkpoint() returns (count: nat)
      requires Running()
      modifies this, store, open
      ensures Running() && old(run) <= run && Did(old(acts), acts, Checkpointing)
      ensures store.db.tables.journal == [] && open.blocks == map[] && through == map[]
      ensures count == old(open.openMessages)
    {
      var sealed := SealEverything();
      count := Count(sealed);
      ghost var mid, run0 := acts, run;
      FlushChunks(sealed);
      DidThen(old(acts), mid, acts, Checkpointing);
      GoesOn(old(run), run0, run);
      mid, run0 := acts, run;
      RetireAll();
      DidThen(old(acts), mid, acts, Checkpointing);
      GoesOn(old(run), run0, run);
      DrainedJournal();
    }

    /** Delete the rows of a stream that are materialised. */
    method RetireStream(stream: Stream)
      requires Running() && open.blocks == map[] && stream in through
      modifies this, store
      ensures Running() && old(run) <= run && through == old(through) - {stream} && |through| < |old(through)|
      ensures acts == old(acts) + [Retire(stream)]
    {
      ghost var m := End().mem.value;
      assert open.View() == map[];
      RetireStep(store.w, End(), m, stream);
      ghost var s' := Step(store.w, End(), Retire(stream)).value;
      var r := store.RetireJournalThrough(stream, through[stream]);
      Log(Retire(stream), s');
      assert (through - {stream}).Keys == through.Keys - {stream};
      through := through - {stream};
    }

    /** Nothing is under way and no stream has progress left to retire: no row is pending. */
    lemma {:induction false} DrainedJournal()
      requires Running() && through == map[]
      ensures store.db.tables.journal == []
    {
      RunEndInv(store.w, run, acts);
      NothingTracked(store.db.tables.journal, End().mem.value);
    }
  }

  /** A process that replays, materialises and has materialised nothing has nothing pending. */
  lemma {:induction false} NothingTracked(journal: seq<JournalRow>, m: Mem)
    requires RowsTracked(journal, m) && m.replay == [] && m.current.None? && m.through == map[]
    ensures journal == []
  {
    HasOne(journal);
  }

  lemma {:induction false} GoesOn<T>(a: seq<T>, b: seq<T>, c: seq<T>)
    requires a <= b && b <= c
    ensures a <= c
  {
  }

  lemma {:induction false} HasOne<T>(s: seq<T>)
    ensures s != [] ==> exists x :: x in s
  {
    if s != [] {
      assert s[0] in s;
    }
  }

  lemma {:induction false} SealedNone(flight: seq<seq<Record>>, sealed: seq<seq<Record>>)
    requires flight == []
    ensures flight + sealed == sealed
  {
  }

  lemma {:induction false} AcceptBounds(s: Store, cfg: Config, stream: Stream, first: nat, last: nat, payload: seq<Record>)
    requires AcceptJournal(s, cfg, stream, first, last, payload).Ok?
    ensures last <= MAX_I64
  {
  }
}
