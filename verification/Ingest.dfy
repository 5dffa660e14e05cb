/** Durable ingest as it runs: each method is a path of the state machine, transaction by transaction. */
module Ingest {
  import opened Ordering
  import opened Records
  import opened Tables
  import opened Journal
  import opened Batches
  import opened Machine
  import opened MachineInvariant
  import opened MachineSteps
  import opened MachineTheorems
  import opened SqliteStore
  import opened BlockStore
  import opened OpenBlocks

  const RECOVERY_APPEND_BATCHES: nat := 1024

  datatype IngestError = StoreFailed(error: StoreError) | Clock | Checksum | InvalidSourceBatch

  datatype Ingested<T> = Good(value: T) | Bad(error: IngestError)

  /** What a call is for. */
  datatype Task = Materialising | Recovering | Sealing | Checkpointing

  /** The steps that belong to a task. */
  predicate Part(act: Act, task: Task) {
    match task
    case Materialising => act.Push? || act.Flush? || act.Settle?
    case Recovering => act.Boot? || act.Begin? || act.Push? || act.Flush? || act.Settle?
    case Sealing => act.Seal? || act.Flush?
    case Checkpointing => act.Seal? || act.Retire? || (act.Flush? && act.count <= RECOVERY_APPEND_BATCHES)
  }

  /** After `before` the process took steps of the task and no others. */
  ghost predicate Did(before: seq<Act>, after: seq<Act>, task: Task) {
    before <= after && forall i :: |before| <= i < |after| ==> Part(after[i], task)
  }

  lemma {:induction false} DidThen(before: seq<Act>, acts: seq<Act>, after: seq<Act>, task: Task)
    requires Did(before, acts, task) && Did(acts, after, task)
    ensures Did(before, after, task)
  {
  }

  lemma {:induction false} DidWrite(before: seq<Act>, count: nat)
    ensures Did(before, before + [Settle], Materialising) && Did(before, before + [Flush(count)] + [Settle], Materialising)
  {
  }

  lemma {:induction false} DidReplay(before: seq<Act>, acts: seq<Act>)
    requires Did(before + [Begin], acts, Recovering)
    ensures Did(before, acts + [Settle], Recovering)
  {
  }

  lemma {:induction false} DidSeal(before: seq<Act>, seals: seq<string>, count: nat)
    ensures Did(before, before + [Seal(seals)], Sealing) && Did(before, before + [Seal(seals)] + [Flush(count)], Sealing)
  {
  }

  function Pushes(seals: seq<seq<string>>): seq<Act> {
    if seals == [] then [] else Pushes(seals[..|seals| - 1]) + [Push(seals[|seals| - 1])]
  }

  lemma {:induction false} PushesMore(acts: seq<Act>, seals: seq<seq<string>>, more: seq<string>)
    ensures acts + Pushes(seals) + [Push(more)] == acts + Pushes(seals + [more])
    ensures acts + Pushes([]) == acts
  {
    assert (seals + [more])[..|seals|] == seals;
  }

  /** The late blocks that no push has sealed. */
  function LateLeft(late: map<string, OpenBlock>, seals: seq<seq<string>>): map<string, OpenBlock> {
    if seals == [] then late else MapWithout(LateLeft(late, seals[..|seals| - 1]), seals[|seals| - 1])
  }

  /** Every record so far was pushed: none came to a channel that was late when its turn came. */
  ghost predicate ClockAllows(late: map<string, OpenBlock>, records: seq<Record>, seals: seq<seq<string>>) {
    seals == [] ||
    (var before := seals[..|seals| - 1];
     |seals| <= |records| && ClockAllows(late, records, before) && records[|before|].channel !in LateLeft(late, before))
  }

  lemma {:induction false} ClockAllowsMore(late: map<string, OpenBlock>, records: seq<Record>, seals: seq<seq<string>>, more: seq<string>)
    requires ClockAllows(late, records, seals) && |seals| < |records| && records[|seals|].channel !in LateLeft(late, seals)
    ensures ClockAllows(late, records, seals + [more])
    ensures LateLeft(late, seals + [more]) == MapWithout(LateLeft(late, seals), more)
  {
    assert (seals + [more])[..|seals|] == seals;
  }

  /** Some record is for a channel whose last append lies ahead of the clock. */
  ghost predicate Touches(late: map<string, OpenBlock>, records: seq<Record>) {
    exists x <- records :: x.channel in late
  }

  /** Between two pushes: `left` are the late blocks now, `late` those at the start. */
  ghost predicate Pushing(late: map<string, OpenBlock>, left: map<string, OpenBlock>, limits: Limits, records: seq<Record>, i: nat, seals: seq<seq<string>>) {
    && i == |seals| <= |records| && ClockAllows(late, records, seals) && left == LateLeft(late, seals)
    && (Within(late, limits) ==> left == late && forall j :: 0 <= j < i ==> records[j].channel !in late)
  }

  lemma {:induction false} PushingStarts(late: map<string, OpenBlock>, limits: Limits, records: seq<Record>)
    ensures Pushing(late, late, limits, records, 0, [])
  {
  }

  lemma {:induction false} PushingGoesOn(late: map<string, OpenBlock>, left: map<string, OpenBlock>, limits: Limits, records: seq<Record>, i: nat, seals: seq<seq<string>>,
                                         after: map<string, OpenBlock>, more: seq<string>)
    requires Pushing(late, left, limits, records, i, seals) && i < |records| && records[i].channel !in left
    requires after == MapWithout(left, more) && (Within(left, limits) ==> after == left)
    ensures Pushing(late, after, limits, records, i + 1, seals + [more])
  {
    ClockAllowsMore(late, records, seals, more);
  }

  /** All were pushed, or the next one is late: as long as the late blocks alone fit, this tells whether any record is for one of them. */
  lemma {:induction false} PushingEnds(late: map<string, OpenBlock>, left: map<string, OpenBlock>, limits: Limits, records: seq<Record>, i: nat, seals: seq<seq<string>>)
    requires Pushing(late, left, limits, records, i, seals)
    ensures ClockAllows(late, records, seals) && |seals| == i && left == LateLeft(late, seals)
    ensures Within(late, limits) ==> (i == |records| ==> !Touches(late, records)) && (i < |records| && records[i].channel in left ==> Touches(late, records))
  {
    if i < |records| && records[i].channel in left {
      assert records[i] in records;
    }
  }

  /** What a push leaves of the late blocks. */
  lemma {:induction false} PushLate(before: map<string, OpenBlock>, after: map<string, OpenBlock>, limits: Limits, r: Record, now: nat, seals: seq<string>)
    requires r.channel !in LateOf(before, now) && Clocked(before, after, r, now)
    requires TailOfBlocks(after) == TailWithout(TailPut(TailOfBlocks(before), r), seals)
    requires seals == [] || SealOrder(before, limits, r, now, seals)
    ensures LateOf(after, now) == MapWithout(LateOf(before, now), seals)
    ensures Within(LateOf(before, now), limits) ==> LateOf(after, now) == LateOf(before, now)
  {
    LateAfter(before, after, r, now, seals);
    if Within(LateOf(before, now), limits) {
      LateUntouched(before, limits, r, now, seals);
    }
  }

  /**
   * A batch in one call: refused by the journal, or journaled and then materialised unless a record
   * comes to a channel whose last append lies ahead of the clock and whose block no earlier record sealed.
   */
  ghost predicate BatchOutcome(cfg: Config, limits: Limits, late: map<string, OpenBlock>, before: Store, after: Store,
                               stream: Stream, first: nat, last: nat, records: seq<Record>, seals: seq<seq<string>>, r: Ingested<nat>)
  {
    match AcceptJournal(before, cfg, stream, first, last, records)
    case Err(e) => r == Bad(StoreFailed(Rejected(e))) && after == before
    case Ok(a) =>
      && after.journal == a.store.journal && ClockAllows(late, records, seals)
      && (r.Good? ==> r.value == a.through && |seals| == |records|)
      && (r.Bad? ==> r == Bad(Clock) && after == a.store && |seals| < |records| && records[|seals|].channel in LateLeft(late, seals))
      && (Within(late, limits) ==> (r.Bad? <==> Touches(late, records)))
  }

  lemma {:induction false} PushStep(w: World, s: State, m: Mem, seals: seq<string>)
    requires w.cfg.Valid() && s.mem == Some(m) && m.todo != [] && Sealable(TailPut(m.tail, m.todo[0]), seals)
    ensures var tail := TailPut(m.tail, m.todo[0]);
            Step(w, s, Push(seals)) == Some(s.(mem := Some(Mem(
              TailWithout(tail, seals), m.todo[1..], m.current, m.flight + SealedBatches(tail, seals), m.through, m.replay))))
  {
  }

  lemma {:induction false} FlushStep(w: World, s: State, m: Mem, n: nat)
    requires w.cfg.Valid() && s.mem == Some(m) && 0 < n <= |m.flight|
    ensures Step(w, s, Flush(n)).Some?
    ensures var s' := Step(w, s, Flush(n)).value;
            s'.store == AppendAll(s.store, w.cfg, m.flight[..n]) && s'.mem == Some(m.(flight := m.flight[n..]))
  {
  }

  lemma {:induction false} SettleStep(w: World, s: State, m: Mem, stream: Stream, last: int)
    requires w.cfg.Valid() && s.mem == Some(m) && m.todo == [] && m.current == Some((stream, last))
    ensures Step(w, s, Settle) == Some(s.(mem := Some(m.(current := None, through := Later(m.through, stream, last)))))
  {
  }

  lemma {:induction false} SealStep(w: World, s: State, m: Mem, seals: seq<string>)
    requires w.cfg.Valid() && s.mem == Some(m) && Quiescent(m) && Sealable(m.tail, seals)
    ensures Step(w, s, Seal(seals))
         == Some(s.(mem := Some(m.(tail := TailWithout(m.tail, seals), flight := m.flight + SealedBatches(m.tail, seals)))))
  {
  }

  lemma {:induction false} RetireStep(w: World, s: State, m: Mem, stream: Stream)
    requires w.cfg.Valid() && s.mem == Some(m) && Quiescent(m) && m.tail == map[] && m.flight == [] && stream in m.through
    ensures Step(w, s, Retire(stream))
         == Some(s.(store := RetireJournal(s.store, stream, m.through[stream]), mem := Some(m.(through := m.through - {stream}))))
  {
  }

  lemma {:induction false} BeginStep(w: World, s: State, m: Mem)
    requires w.cfg.Valid() && s.mem == Some(m) && m.todo == [] && m.current.None? && m.replay != []
    requires w.cfg.digest(m.replay[0].payload) == m.replay[0].digest
    ensures var row := m.replay[0];
            Step(w, s, Begin)
            == Some(s.(mem := Some(m.(todo := row.payload, current := Some((row.stream, row.last)), replay := m.replay[1..]))))
  {
  }

  lemma {:induction false} AcceptStep(w: World, s: State, m: Mem, stream: Stream, first: nat, last: nat, payload: seq<Record>)
    requires w.cfg.Valid() && s.mem == Some(m) && Quiescent(m) && m.flight == [] && Stamped(payload, w.stamp)
    requires AcceptJournal(s.store, w.cfg, stream, first, last, payload).Ok?
    ensures Step(w, s, Accept(stream, first, last, payload)).Some?
    ensures var s' := Step(w, s, Accept(stream, first, last, payload)).value;
            && s'.store == AcceptJournal(s.store, w.cfg, stream, first, last, payload).value.store
            && s'.mem == Some(m.(todo := payload, current := Some((stream, last))))
            && forall r <- payload :: r in s'.ledger.owed
  {
  }

  lemma {:induction false} RunEndInv(w: World, run: seq<State>, acts: seq<Act>)
    requires IsRun(w, run, acts) && Collisionless(w)
    ensures Inv(w, run[|run| - 1])
  {
    RunInv(w, run, acts, |run| - 1);
  }

  /** What is in flight can be appended: every batch is of one channel. */
  lemma {:induction false} FlightOk(w: World, run: seq<State>, acts: seq<Act>, flight: seq<seq<Record>>, n: nat)
    requires IsRun(w, run, acts) && Collisionless(w) && n <= |flight|
    requires run[|run| - 1].mem.Some? && run[|run| - 1].mem.value.flight == flight
    ensures forall rs <- flight[..n] :: Stamped(rs, w.stamp) && (rs != [] ==> OneChannel(rs))
  {
    RunEndInv(w, run, acts);
    assert MemOk(w, run[|run| - 1].mem.value);
    assert forall rs <- flight[..n] :: rs in flight && Batch(rs, w.stamp);
  }

  /** A push, and a write of what is in flight, keep to the task. */
  lemma {:induction false} DidPush(before: seq<Act>, acts: seq<Act>, seals: seq<string>, count: nat)
    requires Did(before, acts, Recovering)
    ensures Did(before, acts + [Push(seals)] + [], Recovering) && Did(before, acts + [Push(seals)] + [Flush(count)], Recovering)
  {
    assert acts + [Push(seals)] + [] == acts + [Push(seals)];
  }

  lemma {:induction false} LateShrinks(late: map<string, OpenBlock>, left: map<string, OpenBlock>, seals: seq<string>)
    requires left == MapWithout(late, seals)
    ensures left.Keys <= late.Keys
  {
  }
}
