/** Every step of durable ingest keeps its invariant. */
module MachineSteps {
  import opened Ordering
  import opened Records
  import opened Tables
  import opened Lists
  import opened Invariants
  import opened Appending
  import opened Journal
  import opened Batches
  import opened Machine
  import opened MachineInvariant

  /** Stored records are those of the blocks, channel by channel. */
  lemma {:induction false} HeldInBlocks(s: Store, c: string, r: Record)
    ensures r in Held(s.blocks, c) <==> exists b <- s.blocks :: b.channel == c && r in b.records
  {
    BlocksOfSound(s.blocks, c);
    RecordsOfSound(BlocksOf(s.blocks, c));
  }

  /** The block tables do not depend on the journal. */
  lemma {:induction false} JournalOnly(s: Store, s': Store, cfg: Config, stamp: EventKey -> int)
    requires StoreInv(s, cfg, stamp) && s' == s.(journal := s'.journal, offsets := s'.offsets)
    ensures StoreInv(s', cfg, stamp)
    ensures forall r :: Covered(s, r) <==> Covered(s', r)
  {
    forall c ensures ChannelInv(s', cfg, c, stamp) {
      assert ChannelInv(s, cfg, c, stamp);
    }
  }

  lemma {:induction false} BootInv(w: World, s: State, s': State)
    requires Inv(w, s) && Step(w, s, Boot) == Some(s')
    ensures Inv(w, s')
  {
    SortKeeps(s.store.journal, ReplayOrder());
  }

  lemma {:induction false} BeginInv(w: World, s: State, s': State)
    requires Inv(w, s) && Step(w, s, Begin) == Some(s')
    ensures Inv(w, s')
  {
    var m, m' := s.mem.value, s'.mem.value;
    var row := m.replay[0];
    assert m.replay == [row] + m.replay[1..] && row in m.replay;
    assert MemOk(w, m');
    forall r | r in s.ledger.owed ensures InRows(m'.replay, r) || Afloat(m', r) || Covered(s.store, r) {
      if InRows(m.replay, r) && r in row.payload {
        assert r in m'.todo;
        assert Covers(m'.todo, r);
      } else if Afloat(m, r) {
        assert Covers(m.todo, r) ==> false;
      }
    }
    assert RowsTracked(s.store.journal, m');
  }

  lemma {:induction false} SettleInv(w: World, s: State, s': State)
    requires Inv(w, s) && Step(w, s, Settle) == Some(s')
    ensures Inv(w, s')
  {
    var m, m' := s.mem.value, s'.mem.value;
    forall r | r in s.ledger.owed && Afloat(m, r) ensures Afloat(m', r) {}
  }

  lemma {:induction false} PushInv(w: World, s: State, s': State, seals: seq<string>)
    requires Inv(w, s) && Step(w, s, Push(seals)) == Some(s')
    ensures Inv(w, s')
  {
    var m, m' := s.mem.value, s'.mem.value;
    assert m.todo == [m.todo[0]] + m.todo[1..];
    PutKeeps(w, m.tail, m.todo[0]);
    SealKeeps(w, TailPut(m.tail, m.todo[0]), seals);
    assert m'.flight == m.flight + SealedBatches(TailPut(m.tail, m.todo[0]), seals);
    forall r | r in s.ledger.owed && Afloat(m, r) ensures Afloat(m', r) {
      PushAfloat(w, m, m', seals, r);
    }
    PushSeen(s, s', seals);
  }

  /** The record goes from the batch to the tail, and the sealed part of the tail to the flight. */
  ghost predicate Moved(m: Mem, m': Mem, seals: seq<string>) {
    && m.todo != [] && Sealable(TailPut(m.tail, m.todo[0]), seals)
    && m'.todo == m.todo[1..] && m'.tail == TailWithout(TailPut(m.tail, m.todo[0]), seals)
    && m'.flight == m.flight + SealedBatches(TailPut(m.tail, m.todo[0]), seals)
  }

  lemma {:induction false} PushAfloat(w: World, m: Mem, m': Mem, seals: seq<string>, r: Record)
    requires MemOk(w, m) && Moved(m, m', seals) && Afloat(m, r)
    ensures Afloat(m', r)
  {
    var r0, rest := m.todo[0], m.todo[1..];
    assert m.todo == [r0] + rest && r0 in m.todo;
    if Covers(rest, r) {
    } else if Covers(m.todo, r) || Covers(TailOf(m.tail, r.channel), r) {
      PutCovers(w, m.tail, r0, r);
      SealCovers(TailPut(m.tail, r0), seals, r);
    }
  }

  lemma {:induction false} PushSeen(s: State, s': State, seals: seq<string>)
    requires AllSeen(s) && s.mem.Some? && s'.mem.Some? && Moved(s.mem.value, s'.mem.value, seals)
    requires s' == s.(mem := s'.mem)
    ensures AllSeen(s')
  {
    var m, m' := s.mem.value, s'.mem.value;
    var tail := TailPut(m.tail, m.todo[0]);
    assert m.todo == [m.todo[0]] + m.todo[1..] && m.todo[0] in m.todo;
    forall c, r | c in tail && r in tail[c] ensures r in s.ledger.seen {
      PutDraws(m.tail, m.todo[0], c, r);
    }
    forall rs, r | rs in m'.flight && r in rs ensures r in s.ledger.seen {
      if rs in SealedBatches(tail, seals) {
        var c :| c in tail && r in tail[c];
      }
    }
  }

  lemma {:induction false} PutDraws(tail: Tail, r0: Record, c: string, r: Record)
    requires c in TailPut(tail, r0) && r in TailPut(tail, r0)[c]
    ensures r == r0 || (c in tail && r in tail[c])
  {
    if c == r0.channel && r0.key in Keys(TailOf(tail, c)) {
      AbsorbKeeps(TailOf(tail, c), [r0]);
    }
  }

  lemma {:induction false} SealInv(w: World, s: State, s': State, seals: seq<string>)
    requires Inv(w, s) && Step(w, s, Seal(seals)) == Some(s')
    ensures Inv(w, s')
  {
    var m, m' := s.mem.value, s'.mem.value;
    SealKeeps(w, m.tail, seals);
    var batches := SealedBatches(m.tail, seals);
    assert m'.flight == m.flight + batches;
    forall r | r in s.ledger.owed && Afloat(m, r) ensures Afloat(m', r) {
      if Covers(TailOf(m.tail, r.channel), r) {
        SealCovers(m.tail, seals, r);
      }
    }
    forall rs, r | rs in m'.flight && r in rs ensures r in s.ledger.seen {
      if rs in batches {
        var c :| c in m.tail && r in m.tail[c];
      }
    }
    assert AllSeen(s');
  }

  lemma {:induction false} PurgeTailInv(w: World, s: State, s': State, channel: string)
    requires Inv(w, s) && Step(w, s, PurgeTail(channel)) == Some(s')
    ensures Inv(w, s')
  {
    var m, m' := s.mem.value, s'.mem.value;
    var list := TailOf(m.tail, channel);
    forall r | r in s'.ledger.owed && Afloat(m, r) ensures Afloat(m', r) {}
  }

  /** Appending batches in a transaction: every owed copy is stored or named as lost. */
  lemma {:induction false} FlushInv(w: World, s: State, s': State, count: nat)
    requires Inv(w, s) && Step(w, s, Flush(count)) == Some(s')
    ensures Inv(w, s')
  {
    var m, m' := s.mem.value, s'.mem.value;
    var now, later := m.flight[..count], m.flight[count..];
    assert m.flight == now + later;
    var cfg := w.cfg;
    AppendAllFrame(s.store, cfg, now);
    AppendAllKeeps(s.store, cfg, now, w.stamp);
    forall r | r in s'.ledger.owed
      ensures Covered(s.store, r) ==> Covered(s'.store, r)
      ensures Afloat(m, r) ==> Afloat(m', r) || Covered(s'.store, r)
    {
      if Covered(s.store, r) || exists rs <- now :: Covers(rs, r) {
        AppendAllCovers(s.store, cfg, now, w.stamp, r);
      }
    }
    StoredSeen(w, s, now, s'.store);
  }

  lemma {:induction false} StoredSeen(w: World, s: State, batches: seq<seq<Record>>, after: Store)
    requires Inv(w, s) && Batched(batches, w.stamp) && after == AppendAll(s.store, w.cfg, batches)
    requires forall rs <- batches, r <- rs :: r in s.ledger.seen
    ensures forall b <- after.blocks, r <- b.records :: r in s.ledger.seen
  {
    forall b, r | b in after.blocks && r in b.records ensures r in s.ledger.seen {
      AppendAllInventsNothing(s.store, w.cfg, batches, w.stamp, b.channel);
      HeldInBlocks(after, b.channel, r);
      HeldInBlocks(s.store, b.channel, r);
    }
  }

  /** What is owed after a repair was owed or in the batch; what a block covered or the batch brought is covered. */
  lemma {:induction false} RepairOwed(w: World, s: State, s': State, batch: seq<Record>, r: Record)
    requires StoreOk(w, s.store) && Step(w, s, Repair(batch)) == Some(s') && r in s'.ledger.owed
    ensures r in s.ledger.owed || r in batch
    ensures Covered(s.store, r) || r in batch ==> Covered(s'.store, r)
  {
    if r in batch {
      assert Covers(batch, r);
    }
    if Covered(s.store, r) || r in batch {
      AppendCovers(s.store, w.cfg, batch[0].channel, batch, w.stamp, r);
    }
  }

  lemma {:induction false} RepairSeen(w: World, s: State, s': State, batch: seq<Record>)
    requires StoreOk(w, s.store) && AllSeen(s) && Step(w, s, Repair(batch)) == Some(s')
    ensures AllSeen(s')
  {
    forall b, r | b in s'.store.blocks && r in b.records ensures r in s'.ledger.seen {
      AppendInventsNothing(s.store, w.cfg, batch[0].channel, batch, w.stamp, b.channel);
      HeldInBlocks(s'.store, b.channel, r);
      HeldInBlocks(s.store, b.channel, r);
    }
  }

  lemma {:induction false} RepairInv(w: World, s: State, s': State, batch: seq<Record>)
    requires Inv(w, s) && Step(w, s, Repair(batch)) == Some(s')
    ensures Inv(w, s')
  {
    AppendKeeps(s.store, w.cfg, batch[0].channel, batch, w.stamp);
    RepairSeen(w, s, s', batch);
    forall r | r in s'.ledger.owed
      ensures (r in s.ledger.owed && (Covered(s.store, r) ==> Covered(s'.store, r))) || Covered(s'.store, r)
    {
      RepairOwed(w, s, s', batch, r);
    }
    StillSafeOrCovered(s, s');
  }

  lemma {:induction false} StillSafeOrCovered(s: State, s': State)
    requires s'.mem == s.mem && s'.store.journal == s.store.journal
    requires forall r <- s'.ledger.owed :: (r in s.ledger.owed && (Covered(s.store, r) ==> Covered(s'.store, r))) || Covered(s'.store, r)
    ensures Safe(s) ==> Safe(s')
    ensures s.mem.Some? && Live(s, s.mem.value) ==> Live(s', s'.mem.value)
  {
  }

  /** When rows are retired memory is empty, so everything owed is in a block. */
  lemma {:induction false} RetireCovered(s: State, m: Mem)
    requires s.mem == Some(m) && Live(s, m) && Quiescent(m) && m.tail == map[] && m.flight == []
    ensures forall r <- s.ledger.owed :: Covered(s.store, r)
  {
    forall r | r in s.ledger.owed ensures Covered(s.store, r) {
      assert TailOf(m.tail, r.channel) == [];
    }
  }

  lemma {:induction false} RetireRows(s: State, m: Mem, stream: Stream)
    requires s.mem == Some(m) && RowsTracked(s.store.journal, m) && Quiescent(m) && stream in m.through
    ensures RowsTracked(Retired(s.store.journal, stream, m.through[stream]), m.(through := m.through - {stream}))
  {
    forall row | row in Retired(s.store.journal, stream, m.through[stream])
      ensures row.stream in m.through - {stream} && row.last <= (m.through - {stream})[row.stream]
    {
      assert row in s.store.journal;
    }
  }

  lemma {:induction false} RetireInv(w: World, s: State, s': State, stream: Stream)
    requires Inv(w, s) && Step(w, s, Retire(stream)) == Some(s')
    ensures Inv(w, s')
  {
    var m := s.mem.value;
    RetireKeeps(s.store, w.cfg, stream, m.through[stream]);
    JournalOnly(s.store, s'.store, w.cfg, w.stamp);
    RetireCovered(s, m);
    RetireRows(s, m, stream);
    assert forall row <- s'.store.journal :: row in s.store.journal;
    assert forall r <- s'.ledger.owed :: Covered(s'.store, r);
  }

  lemma {:induction false} AcceptInv(w: World, s: State, s': State, stream: Stream, first: nat, last: nat, payload: seq<Record>)
    requires Inv(w, s) && Collisionless(w)
    requires Step(w, s, Accept(stream, first, last, payload)) == Some(s')
    ensures Inv(w, s')
  {
    AcceptKeeps(s.store, w.cfg, stream, first, last, payload);
    JournalOnly(s.store, s'.store, w.cfg, w.stamp);
    AcceptAck(w, s, s', stream, first, last, payload);
    AcceptOwed(w, s, s', stream, first, last, payload);
    AcceptRows(w, s, s', stream, first, last, payload);
    assert AllSeen(s');
  }

  /** What was owed stays so; the payload is in a pending row and about to go to the tail. */
  lemma {:induction false} AcceptOwed(w: World, s: State, s': State, stream: Stream, first: nat, last: nat, payload: seq<Record>)
    requires Inv(w, s) && Collisionless(w)
    requires Step(w, s, Accept(stream, first, last, payload)) == Some(s')
    ensures Safe(s') && Live(s', s'.mem.value)
  {
    AcceptKeeps(s.store, w.cfg, stream, first, last, payload);
    JournalOnly(s.store, s'.store, w.cfg, w.stamp);
    var m, m' := s.mem.value, s'.mem.value;
    var row :| row in s'.store.journal && row.digest == w.cfg.digest(payload) && row.stream == stream;
    assert row.payload == payload;
    forall r | r in s'.ledger.owed
      ensures InRows(s'.store.journal, r) || Covered(s'.store, r)
      ensures Afloat(m', r) || Covered(s'.store, r)
    {
      if r in payload {
        assert r in row.payload;
        assert Covers(m'.todo, r);
      } else {
        assert r in s.ledger.owed;
        assert !Covers([], r);
      }
    }
  }

  lemma {:induction false} AcceptRows(w: World, s: State, s': State, stream: Stream, first: nat, last: nat, payload: seq<Record>)
    requires Inv(w, s)
    requires Step(w, s, Accept(stream, first, last, payload)) == Some(s')
    ensures RowsTracked(s'.store.journal, s'.mem.value)
    ensures forall row <- s'.store.journal :: Stamped(row.payload, w.stamp)
  {
    AcceptKeeps(s.store, w.cfg, stream, first, last, payload);
  }

  lemma {:induction false} AcceptAck(w: World, s: State, s': State, stream: Stream, first: nat, last: nat, payload: seq<Record>)
    requires Inv(w, s) && Step(w, s, Accept(stream, first, last, payload)) == Some(s')
    ensures AckOk(s')
  {
    AcceptKeeps(s.store, w.cfg, stream, first, last, payload);
    var ranges := s'.ledger.ranges;
    forall k | k in s'.store.offsets
      ensures k in s'.ledger.bases && s'.ledger.bases[k] <= s'.store.offsets[k]
      ensures forall n: int :: s'.ledger.bases[k] < n <= s'.store.offsets[k] ==> RangeCovers(ranges, k, n)
    {
      forall n: int | s'.ledger.bases[k] < n <= s'.store.offsets[k] ensures RangeCovers(ranges, k, n) {
        if k == stream && n > BaseOf(s.store, stream, first) {
          assert Carried(s'.store.journal, stream, n);
          var row :| row in s'.store.journal && row.stream == stream && row.first <= n <= row.last;
          assert (row.stream, row.first, row.last) in ranges;
        } else {
          assert RangeCovers(s.ledger.ranges, k, n);
        }
      }
    }
  }

  /** Only channel rows changed. */
  lemma {:induction false} RowsOnlyInv(w: World, s: State, after: Store)
    requires Inv(w, s) && StoreInv(after, w.cfg, w.stamp)
    requires after == s.store.(channels := after.channels)
    ensures Inv(w, s.(store := after))
  {
    StillSafe(s, s.(store := after));
  }

  lemma {:induction false} RowStepsInv(w: World, s: State, act: Act, s': State)
    requires Inv(w, s) && (act.DropIdleRows? || act.TouchChannel?) && Step(w, s, act) == Some(s')
    ensures Inv(w, s')
  {
    if act.DropIdleRows? {
      DropIdleKeeps(s.store, w.cfg, w.stamp, act.cutoff);
      RowsOnlyInv(w, s, DropIdle(s.store, act.cutoff));
    } else {
      TouchKeeps(s.store, w.cfg, w.stamp, act.channel, act.requestedAt, act.coalesceBefore);
      RowsOnlyInv(w, s, Touch(s.store, act.channel, act.requestedAt, act.coalesceBefore));
    }
  }

  /** Every step keeps the invariant. */
  lemma {:induction false} StepInv(w: World, s: State, act: Act, s': State)
    requires Inv(w, s) && Collisionless(w) && Step(w, s, act) == Some(s')
    ensures Inv(w, s')
  {
    match act {
      case Boot => BootInv(w, s, s');
      case Begin => BeginInv(w, s, s');
      case Accept(stream, first, last, payload) => AcceptInv(w, s, s', stream, first, last, payload);
      case Push(seals) => PushInv(w, s, s', seals);
      case Flush(count) => FlushInv(w, s, s', count);
      case Settle => SettleInv(w, s, s');
      case Seal(seals) => SealInv(w, s, s', seals);
      case Retire(stream) => RetireInv(w, s, s', stream);
      case Crash =>
      case Repair(batch) => RepairInv(w, s, s', batch);
      case PurgeTail(channel) => PurgeTailInv(w, s, s', channel);
      case DropIdleRows(_) => RowStepsInv(w, s, act, s');
      case TouchChannel(_, _, _) => RowStepsInv(w, s, act, s');
      case _ => RemovalInv(w, s, act);
    }
  }
}
