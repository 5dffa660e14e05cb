/** Runs from an empty database that reach what the caveats are about. */
module Scenarios {
  import opened Ordering
  import opened Records
  import opened Tables
  import opened Invariants
  import opened Journal
  import opened Batches
  import opened Machine
  import opened MachineInvariant
  import opened MachineTheorems
  import opened Caveats
  import opened StalePlans
  import opened GatedAnswers

  const SOURCE: Stream := ("twitch", "irc")

  /* ---------- a record on its way to a block ---------- */

  function FirstRow(w: World, r: Record): JournalRow {
    JournalRow(SOURCE, 0, 0, w.cfg.digest([r]), [r])
  }

  /** The tables after the first batch, which is this record alone, was accepted. */
  function Journalled(w: World, r: Record): Store {
    EMPTY.(journal := [FirstRow(w, r)], offsets := map[SOURCE := 0])
  }

  function OwedAlone(r: Record): Ledger {
    Ledger({r}, {r}, {}, {(SOURCE, 0, 0)}, map[SOURCE := -1])
  }

  lemma {:induction false} AcceptsFirst(w: World, r: Record)
    ensures AcceptJournal(EMPTY, w.cfg, SOURCE, 0, 0, [r]) == Ok(Accepted(Journalled(w, r), 0))
  {
    var rows := [FirstRow(w, r)];
    assert [] + rows == rows;
    assert Find(rows, SOURCE, 0) == Some(FirstRow(w, r));
    assert rows[1..] == [] && Find(rows, SOURCE, 1).None?;
    assert Chase(rows, SOURCE, 0) == Ok(0);
  }

  /** The process holding this, the first record accepted and nothing stored. */
  function Holding(w: World, r: Record, m: Mem): State {
    State(Journalled(w, r), Some(m), OwedAlone(r))
  }

  function InBatch(r: Record): Mem { Mem(map[], [r], Some((SOURCE, 0)), [], map[], []) }

  function InTail(r: Record): Mem { Mem(map[r.channel := [r]], [], None, [], map[SOURCE := 0], []) }

  function InFlight(r: Record): Mem { Mem(map[], [], None, [[r]], map[SOURCE := 0], []) }

  lemma {:induction false} ArrivesFirst(r: Record)
    ensures Acknowledge(Arrive(START.ledger, [r]), EMPTY, SOURCE, 0, 0) == OwedAlone(r)
  {
    assert (set x <- [r]) == {r};
    assert {} + {r} == {r} && {} + {(SOURCE, 0, 0)} == {(SOURCE, 0, 0)};
    assert map[][SOURCE := -1] == map[SOURCE := -1];
  }

  lemma {:induction false} AcceptStep(w: World, r: Record)
    requires w.cfg.Valid() && r.eventAt == w.stamp(r.key)
    ensures Step(w, START, Boot) == Some(START.(mem := Some(Mem(map[], [], None, [], map[], []))))
    ensures Step(w, START.(mem := Some(Mem(map[], [], None, [], map[], []))), Accept(SOURCE, 0, 0, [r])) == Some(Holding(w, r, InBatch(r)))
  {
    AcceptsFirst(w, r);
    ArrivesFirst(r);
  }

  lemma {:induction false} PushStep(w: World, r: Record)
    requires w.cfg.Valid()
    ensures Step(w, Holding(w, r, InBatch(r)), Push([])) == Some(Holding(w, r, InTail(r).(current := Some((SOURCE, 0)), through := map[])))
  {
    var tail := TailPut(map[], r);
    assert TailOf(map[], r.channel) == [] && r.key !in Keys([]) && [] + [r] == [r];
    assert tail == map[r.channel := [r]];
    var m := InBatch(r);
    assert Sealable(tail, []) && TailWithout(tail, []) == tail && m.flight + SealedBatches(tail, []) == [];
    assert m.todo[1..] == [];
  }

  /** Boot, accept, push, settle: the record waits in the open tail. */
  lemma {:induction false} WaitingRun(w: World, r: Record) returns (states: seq<State>, acts: seq<Act>)
    requires w.cfg.Valid() && r.eventAt == w.stamp(r.key)
    ensures IsRun(w, states, acts) && acts == [Boot, Accept(SOURCE, 0, 0, [r]), Push([]), Settle]
    ensures states[2] == Holding(w, r, InBatch(r)) && states[4] == Holding(w, r, InTail(r))
  {
    AcceptStep(w, r);
    PushStep(w, r);
    var booted := START.(mem := Some(Mem(map[], [], None, [], map[], [])));
    assert IsRun(w, [START], []);
    RunGrows(w, [START], [], Boot, booted);
    RunGrows(w, [START] + [booted], [] + [Boot], Accept(SOURCE, 0, 0, [r]), Holding(w, r, InBatch(r)));
    states := [START] + [booted] + [Holding(w, r, InBatch(r))];
    acts := [] + [Boot] + [Accept(SOURCE, 0, 0, [r])];
    var pushed := Holding(w, r, InTail(r).(current := Some((SOURCE, 0)), through := map[]));
    RunGrows(w, states, acts, Push([]), pushed);
    RunGrows(w, states + [pushed], acts + [Push([])], Settle, Holding(w, r, InTail(r)));
    states, acts := states + [pushed] + [Holding(w, r, InTail(r))], acts + [Push([])] + [Settle];
  }

  /* ---------- answers that miss it ---------- */

  lemma {:induction false} SealStep(w: World, r: Record)
    requires w.cfg.Valid()
    ensures Step(w, Holding(w, r, InTail(r)), Seal([r.channel])) == Some(Holding(w, r, InFlight(r)))
  {
    var s1 := SealOne(w, Holding(w, r, InTail(r)), InTail(r), r.channel);
    assert TailWithout(InTail(r).tail, [r.channel]) == map[];
  }

  lemma {:induction false} FlushStep(w: World, r: Record) returns (s: State)
    requires StoreInv(Journalled(w, r), w.cfg, w.stamp) && r.eventAt == w.stamp(r.key)
    ensures Step(w, Holding(w, r, InFlight(r)), Flush(1)) == Some(s)
    ensures Held(s.store.blocks, r.channel) == [r] && s.mem == Some(InFlight(r).(flight := []))
  {
    s := FlushOne(w, Holding(w, r, InFlight(r)), InFlight(r), [r]);
    assert [[r]][..|[[r]]| - 1] == [];
    assert AppendAll(Journalled(w, r), w.cfg, [[r]]) == Append(Journalled(w, r), w.cfg, r.channel, [r]);
    AloneInChannel(Journalled(w, r), w.cfg, w.stamp, r);
  }

  /** The events that reading the blocks at one moment and the tail at another finds. */
  function Found(states: seq<State>, i: nat, j: nat, c: string): set<EventKey>
    requires i <= j < |states|
  {
    Keys(Held(states[i].store.blocks, c) + WaitingIn(states[j], c))
  }

  /**
   * A run on which an accepted record is missed by readers: by one who comes while its batch is under
   * way (2), by one who comes while it is sealed and not yet written (5), and by one who reads the
   * blocks while it waits (4) and the tail once it is written (6). Reading at once at 4 or 6 finds it.
   */
  lemma {:induction false} MissedRecord(w: World, r: Record) returns (states: seq<State>, acts: seq<Act>)
    requires w.cfg.Valid() && Collisionless(w) && r.eventAt == w.stamp(r.key)
    ensures IsRun(w, states, acts) && |states| == 7
    ensures r in states[2].ledger.owed && r in states[4].ledger.owed && r in states[5].ledger.owed
    ensures r.key !in Found(states, 2, 2, r.channel) && r.key !in Found(states, 5, 5, r.channel) && r.key !in Found(states, 4, 6, r.channel)
    ensures r.key in Found(states, 4, 4, r.channel) && r.key in Found(states, 6, 6, r.channel)
  {
    states, acts := WaitingRun(w, r);
    RunInv(w, states, acts, 4);
    SealStep(w, r);
    var last := FlushStep(w, r);
    RunGrows(w, states, acts, Seal([r.channel]), Holding(w, r, InFlight(r)));
    states, acts := states + [Holding(w, r, InFlight(r))], acts + [Seal([r.channel])];
    RunGrows(w, states, acts, Flush(1), last);
    states, acts := states + [last], acts + [Flush(1)];
    assert r in [r] + [] && r in [] + [r];
    assert Held([], r.channel) == [];
  }

  /* ---------- a purge that drops a later record ---------- */

  /** The record is received after the cutoff of a purge and dropped by it; once the journal is retired no trace is left. */
  lemma {:induction false} PurgeDropsLaterRecord(w: World, r: Record, at: int) returns (states: seq<State>, acts: seq<Act>)
    requires w.cfg.Valid() && r.eventAt == w.stamp(r.key) && r.receivedAt > at
    ensures IsRun(w, states, acts) && |states| == 8 && acts[4] == PurgeChannel(r.channel, at) && acts[5] == PurgeTail(r.channel)
    ensures Brings(acts[1], r) && r in states[4].ledger.owed && r !in states[6].ledger.owed
    ensures states[7].store.journal == [] && states[7].store.blocks == [] && states[7].mem == Some(Mem(map[], [], None, [], map[], []))
  {
    states, acts := WaitingRun(w, r);
    var purged := Purge(Journalled(w, r), r.channel, at);
    var s5 := State(purged, Some(InTail(r)), OwedAlone(r));
    assert Events([]) == {};
    PurgeStep(w, r, at);
    RunGrows(w, states, acts, PurgeChannel(r.channel, at), s5);
    states, acts := states + [s5], acts + [PurgeChannel(r.channel, at)];
    var s6 := ClearStep(w, r, s5);
    RunGrows(w, states, acts, PurgeTail(r.channel), s6);
    states, acts := states + [s6], acts + [PurgeTail(r.channel)];
    var s7 := RetireStep(w, r, s6);
    RunGrows(w, states, acts, Retire(SOURCE), s7);
    states, acts := states + [s7], acts + [Retire(SOURCE)];
  }

  lemma {:induction false} PurgeStep(w: World, r: Record, at: int)
    requires w.cfg.Valid()
    ensures Step(w, Holding(w, r, InTail(r)), PurgeChannel(r.channel, at))
         == Some(State(Purge(Journalled(w, r), r.channel, at), Some(InTail(r)), OwedAlone(r)))
  {
    var after := Purge(Journalled(w, r), r.channel, at);
    assert Events(Journalled(w, r).blocks) - Events(after.blocks) == {};
    assert (set x <- {r} | (x.channel, x.key) !in {}) == {r};
    assert Discharge(OwedAlone(r), {}) == OwedAlone(r);
  }

  lemma {:induction false} ClearStep(w: World, r: Record, s: State) returns (s': State)
    requires w.cfg.Valid() && s.mem == Some(InTail(r))
    ensures Step(w, s, PurgeTail(r.channel)) == Some(s') && s'.store == s.store && r !in s'.ledger.owed
    ensures s'.mem == Some(InTail(r).(tail := map[]))
  {
    s' := Step(w, s, PurgeTail(r.channel)).value;
    assert TailWithout(InTail(r).tail, [r.channel]) == map[];
    assert r in TailOf(InTail(r).tail, r.channel);
    assert (r.channel, r.key) in (set x <- TailOf(InTail(r).tail, r.channel) :: (r.channel, x.key));
  }

  lemma {:induction false} RetireStep(w: World, r: Record, s: State) returns (s': State)
    requires w.cfg.Valid() && s.mem == Some(InTail(r).(tail := map[])) && s.store.journal == [FirstRow(w, r)]
    ensures Step(w, s, Retire(SOURCE)) == Some(s') && s'.store == s.store.(journal := []) && s'.mem == Some(Mem(map[], [], None, [], map[], []))
  {
    s' := Step(w, s, Retire(SOURCE)).value;
    assert map[SOURCE := 0] - {SOURCE} == map[];
    assert [FirstRow(w, r)][1..] == [];
    assert Retired([FirstRow(w, r)], SOURCE, 0) == [];
  }

  /* ---------- a plan that outlives its block ---------- */

  /**
   * Plan to evict the only block at 1, purge its channel, store a record of another channel: at 3 the
   * new block has the planned id, and the plan takes it.
   */
  lemma {:induction false} StalePlanTakesNewBlock(w: World, a: Record, b: Record) returns (states: seq<State>, acts: seq<Act>)
    requires w.cfg.Valid() && Collisionless(w) && a.channel != b.channel
    requires a.eventAt == w.stamp(a.key) && b.eventAt == w.stamp(b.key)
    ensures IsRun(w, states, acts) && |states| == 4
    ensures Held(states[1].store.blocks, a.channel) == [a] && IdsOf(states[1].store.blocks) == {1}
    ensures StoredSince(states, 1, 3, 1) && NextFellTo(states, 1, 3, 1)
    ensures Held(states[3].store.blocks, b.channel) == [b] && Evict(states[3].store, [1]).blocks == []
  {
    var s1, s2;
    states, acts, s1, s2 := StoredThenPurged(w, a);
    RunInv(w, states, acts, 2);
    var s3 := StoresFirst(w, s2, b);
    RunGrows(w, states, acts, Repair([b]), s3);
    states, acts := states + [s3], acts + [Repair([b])];
    assert 1 !in IdsOf(states[2].store.blocks) && NextId(states[2].store.blocks) == 1;
    EvictsOnly(s3.store);
  }

  lemma {:induction false} EvictsOnly(s: Store)
    requires |s.blocks| == 1 && s.blocks[0].id == 1
    ensures Evict(s, [1]).blocks == []
  {
    assert s.blocks[1..] == [];
  }

  lemma {:induction false} StoredThenPurged(w: World, a: Record) returns (states: seq<State>, acts: seq<Act>, s1: State, s2: State)
    requires w.cfg.Valid() && Collisionless(w) && a.eventAt == w.stamp(a.key)
    ensures IsRun(w, states, acts) && states == [START, s1, s2] && acts == [Repair([a]), PurgeChannel(a.channel, 0)]
    ensures Held(s1.store.blocks, a.channel) == [a] && IdsOf(s1.store.blocks) == {1}
    ensures s2.store.blocks == [] && s2.store.blocked == {} && s2.store.cutoffs == map[a.channel := 0]
  {
    assert IsRun(w, [START], []);
    RunInv(w, [START], [], 0);
    s1 := StoresFirst(w, START, a);
    OneBlockOf(s1, a);
    RunGrows(w, [START], [], Repair([a]), s1);
    s2 := PurgesIt(w, s1, a.channel);
    RunGrows(w, [START] + [s1], [] + [Repair([a])], PurgeChannel(a.channel, 0), s2);
    states, acts := [START] + [s1] + [s2], [] + [Repair([a])] + [PurgeChannel(a.channel, 0)];
  }

  lemma {:induction false} PurgesIt(w: World, s: State, channel: string) returns (s': State)
    requires w.cfg.Valid() && Purge(s.store, channel, 0).blocks == [] && s.store.cutoffs == map[]
    ensures Step(w, s, PurgeChannel(channel, 0)) == Some(s') && s'.store == Purge(s.store, channel, 0)
    ensures s'.store.blocks == [] && s'.store.blocked == s.store.blocked && s'.store.cutoffs == map[channel := 0]
  {
    s' := Removal(s, Purge(s.store, channel, 0));
  }

  /** A record stored in a database without blocks, in a channel without cutoff. */
  lemma {:induction false} StoresFirst(w: World, s: State, r: Record) returns (s': State)
    requires Inv(w, s) && s.store.blocks == [] && r.channel !in s.store.blocked && r.channel !in s.store.cutoffs
    requires r.eventAt == w.stamp(r.key)
    ensures Step(w, s, Repair([r])) == Some(s') && Held(s'.store.blocks, r.channel) == [r]
    ensures |s'.store.blocks| == 1 && s'.store.blocks[0].id == 1 && IdsOf(s'.store.blocks) == {1}
    ensures s'.store.blocked == s.store.blocked && s'.store.cutoffs == s.store.cutoffs
  {
    assert Batch([r], w.stamp);
    s' := Step(w, s, Repair([r])).value;
    AloneInChannel(s.store, w.cfg, w.stamp, r);
    OnlyBlock(s.store, w.cfg, r);
    assert s'.store.blocks == [s'.store.blocks[0]];
  }

  /** The only block is of the channel that holds something. */
  lemma {:induction false} OneBlockOf(s: State, r: Record)
    requires |s.store.blocks| == 1 && Held(s.store.blocks, r.channel) == [r]
    ensures s.store.blocks[0].channel == r.channel
    ensures Purge(s.store, r.channel, 0).blocks == []
  {
    var b := s.store.blocks[0];
    assert s.store.blocks[1..] == [];
    assert BlocksOf(s.store.blocks, r.channel) == (if b.channel == r.channel then [b] + [] else []);
    assert RecordsOf([]) == [];
  }
}
