/** What durable ingest promises over every run, with crashes and other writers at any point. */
module MachineTheorems {
  import opened Ordering
  import opened Records
  import opened Tables
  import opened Lists
  import opened Invariants
  import opened Appending
  import opened Journal
  import opened Batches
  import opened Machine
  import opened MachineInvariant
  import opened MachineSteps

  /** `states` is what the acts lead through, from an empty database. */
  ghost predicate IsRun(w: World, states: seq<State>, acts: seq<Act>) {
    && w.cfg.Valid()
    && |states| == |acts| + 1 && states[0] == START
    && forall i: nat :: i < |acts| ==> StepAt(w, states, acts, i)
  }

  ghost predicate StepAt(w: World, states: seq<State>, acts: seq<Act>, i: nat)
    requires w.cfg.Valid() && |states| == |acts| + 1 && i < |acts|
  {
    Step(w, states[i], acts[i]) == Some(states[i + 1])
  }

  lemma {:induction false} RunGrows(w: World, run: seq<State>, acts: seq<Act>, act: Act, s: State)
    requires IsRun(w, run, acts) && Step(w, run[|run| - 1], act) == Some(s)
    ensures IsRun(w, run + [s], acts + [act])
  {
    var more, longer := run + [s], acts + [act];
    forall i: nat | i < |longer| ensures StepAt(w, more, longer, i) {
      if i < |acts| {
        assert StepAt(w, run, acts, i);
      }
    }
  }

  lemma {:induction false} RunInv(w: World, states: seq<State>, acts: seq<Act>, i: nat)
    requires IsRun(w, states, acts) && Collisionless(w) && i < |states|
    ensures Inv(w, states[i])
  {
    if i == 0 {
      assert forall c :: ChannelInv(START.store, w.cfg, c, w.stamp);
    } else {
      RunInv(w, states, acts, i - 1);
      assert StepAt(w, states, acts, i - 1);
      StepInv(w, states[i - 1], acts[i - 1], states[i]);
    }
  }

  /** No owed record is ever lost: at every point of every run it is in a pending row or in a block. */
  lemma {:induction false} NothingOwedIsLost(w: World, states: seq<State>, acts: seq<Act>, i: nat, r: Record)
    requires IsRun(w, states, acts) && Collisionless(w) && i < |states|
    requires r in states[i].ledger.owed
    ensures InRows(states[i].store.journal, r) || Covered(states[i].store, r)
  {
    RunInv(w, states, acts, i);
  }

  /** The events a step removes by name. */
  ghost function Loss(w: World, s: State, act: Act): set<(string, EventKey)>
    requires w.cfg.Valid()
  {
    match act
    case Flush(count) =>
      if s.mem.Some? && count <= |s.mem.value.flight| then AppendAllLoss(s.store, w.cfg, s.mem.value.flight[..count]) else {}
    case Repair(batch) => if batch != [] then AppendLoss(s.store, w.cfg, batch[0].channel, batch) else {}
    case PurgeTail(channel) =>
      if s.mem.Some? then set r <- TailOf(s.mem.value.tail, channel) :: (channel, r.key) else {}
    case _ => if IsRemoval(act) then Events(s.store.blocks) - Events(AfterRemoval(s.store, act).blocks) else {}
  }

  /** Only a named removal loses: accepting, replaying, sealing, retiring the journal and crashing do not. */
  lemma {:induction false} OnlyRemovalsLose(w: World, s: State, act: Act, s': State)
    requires w.cfg.Valid() && Step(w, s, act) == Some(s')
    ensures s'.ledger.lost == s.ledger.lost + Loss(w, s, act)
    ensures act.Boot? || act.Begin? || act.Accept? || act.Push? || act.Settle? || act.Seal? || act.Retire? || act.Crash?
            ==> Loss(w, s, act) == {}
  {
  }

  /** The step brings this copy: a batch accepted into the journal, or one that goes straight to the blocks. */
  predicate Brings(act: Act, r: Record) {
    (act.Accept? && r in act.payload) || (act.Repair? && r in act.batch)
  }

  /** No step of the stretch names the event of this record as lost. */
  ghost predicate Spared(w: World, states: seq<State>, acts: seq<Act>, i: nat, j: nat, r: Record)
    requires w.cfg.Valid() && |states| == |acts| + 1 && i <= j < |states|
  {
    forall k :: i <= k < j ==> (r.channel, r.key) !in Loss(w, states[k], acts[k])
  }

  /** Owed at the start of the stretch or brought in it, and not named as lost from then on. */
  ghost predicate StillOwed(w: World, states: seq<State>, acts: seq<Act>, i: nat, j: nat, r: Record)
    requires w.cfg.Valid() && |states| == |acts| + 1 && i <= j < |states|
  {
    || (r in states[i].ledger.owed && Spared(w, states, acts, i, j, r))
    || exists m :: i <= m < j && Brings(acts[m], r) && Spared(w, states, acts, m, j, r)
  }

  /** One step: what is owed afterwards was owed or is brought by it, and the step does not name its event as lost. */
  lemma {:induction false} StepOwes(w: World, s: State, act: Act, s': State, r: Record)
    requires w.cfg.Valid() && Step(w, s, act) == Some(s')
    ensures r in s'.ledger.owed <==> (r in s.ledger.owed || Brings(act, r)) && (r.channel, r.key) !in Loss(w, s, act)
  {
    if act.Flush? || act.Repair? {
      AppendingOwes(w, s, act, s', r);
    } else if IsRemoval(act) {
      RemovalStep(w, s, act);
    } else {
      OthersOwe(w, s, act, s', r);
    }
  }

  lemma {:induction false} AppendingOwes(w: World, s: State, act: Act, s': State, r: Record)
    requires w.cfg.Valid() && Step(w, s, act) == Some(s') && (act.Flush? || act.Repair?)
    ensures r in s'.ledger.owed <==> (r in s.ledger.owed || Brings(act, r)) && (r.channel, r.key) !in Loss(w, s, act)
  {
  }

  lemma {:induction false} OthersOwe(w: World, s: State, act: Act, s': State, r: Record)
    requires w.cfg.Valid() && Step(w, s, act) == Some(s') && !act.Flush? && !act.Repair? && !IsRemoval(act)
    ensures r in s'.ledger.owed <==> (r in s.ledger.owed || Brings(act, r)) && (r.channel, r.key) !in Loss(w, s, act)
  {
  }

  lemma {:induction false} StillOwedOneMore(w: World, states: seq<State>, acts: seq<Act>, i: nat, j: nat, r: Record)
    requires w.cfg.Valid() && |states| == |acts| + 1 && i < j < |states|
    ensures StillOwed(w, states, acts, i, j, r) <==>
              && (r.channel, r.key) !in Loss(w, states[j - 1], acts[j - 1])
              && (StillOwed(w, states, acts, i, j - 1, r) || Brings(acts[j - 1], r))
  {
    if (r.channel, r.key) !in Loss(w, states[j - 1], acts[j - 1]) {
      forall n | i <= n < j ensures Spared(w, states, acts, n, j, r) <==> Spared(w, states, acts, n, j - 1, r) {}
      if Brings(acts[j - 1], r) {
        assert Spared(w, states, acts, j - 1, j, r);
      }
      if exists m :: i <= m < j - 1 && Brings(acts[m], r) && Spared(w, states, acts, m, j - 1, r) {
        var m :| i <= m < j - 1 && Brings(acts[m], r) && Spared(w, states, acts, m, j - 1, r);
        assert Spared(w, states, acts, m, j, r);
      }
    }
  }

  /** Over every run a record is owed exactly if it was or came, and no step since then named its event as lost. */
  lemma {:induction false} OwedExactly(w: World, states: seq<State>, acts: seq<Act>, i: nat, j: nat, r: Record)
    requires IsRun(w, states, acts) && i <= j < |states|
    ensures r in states[j].ledger.owed <==> StillOwed(w, states, acts, i, j, r)
    decreases j - i
  {
    if i == j {
      assert Spared(w, states, acts, i, i, r);
    } else {
      OwedExactly(w, states, acts, i, j - 1, r);
      assert StepAt(w, states, acts, j - 1);
      StepOwes(w, states[j - 1], acts[j - 1], states[j], r);
      StillOwedOneMore(w, states, acts, i, j, r);
    }
  }

  /**
   * An acknowledged record is durable ever after: at every later point, across any crashes, it is in
   * a pending row or covered by a block, unless some step since then removed its event by name.
   */
  lemma {:induction false} AcceptedIsDurable(w: World, states: seq<State>, acts: seq<Act>, i: nat, j: nat, r: Record)
    requires IsRun(w, states, acts) && Collisionless(w) && i < j < |states| && Brings(acts[i], r)
    ensures || InRows(states[j].store.journal, r) || Covered(states[j].store, r)
            || exists k :: i <= k < j && (r.channel, r.key) in Loss(w, states[k], acts[k])
  {
    RunInv(w, states, acts, j);
    if Spared(w, states, acts, i, j, r) {
      OwedExactly(w, states, acts, i, j, r);
    }
  }

  /** What an append may lose: a blocked channel, a copy received before the cutoff, or the oldest of a full channel. */
  lemma {:induction false} AppendLossIsNamed(s: Store, cfg: Config, channel: string, rs: seq<Record>, stamp: EventKey -> int, e: (string, EventKey))
    requires StoreInv(s, cfg, stamp) && AllIn(rs, channel) && Stamped(rs, stamp)
    requires e in AppendLoss(s, cfg, channel, rs)
    ensures e.0 == channel
    ensures || channel in s.blocked
            || (channel in s.cutoffs && exists r <- rs :: r.key == e.1 && r.receivedAt <= s.cutoffs[channel])
            || Messages(BlocksOf(Append(s, cfg, channel, rs).blocks, channel)) >= cfg.target
  {
    if channel !in s.blocked && e.1 in RetentionLoss(s, cfg, channel, rs) {
      RetentionFloor(s, cfg, channel, rs, stamp);
    }
  }

  /** With an empty journal a copy that is owed is stored, once, at no lower fidelity than any owed copy of its event. */
  lemma {:induction false} StoredCopy(w: World, s: State, c: string, k: EventKey, r: Record) returns (x: Record)
    requires Inv(w, s) && s.store.journal == []
    requires r in s.ledger.owed && r.channel == c && r.key == k
    ensures x in Held(s.store.blocks, c) && x.key == k && x.channel == c && x in s.ledger.seen
    ensures forall y <- s.ledger.owed :: y.channel == c && y.key == k ==> y.fidelity.Rank() <= x.fidelity.Rank()
    ensures forall y <- Held(s.store.blocks, c) :: y.key == k ==> y == x
  {
    assert Covered(s.store, r);
    x :| x in Held(s.store.blocks, c) && x.key == k && x.channel == c;
    HeldInBlocks(s.store, c, x);
    assert ChannelInv(s.store, w.cfg, c, w.stamp);
    forall y | y in s.ledger.owed && y.channel == c && y.key == k ensures y.fidelity.Rank() <= x.fidelity.Rank() {
      assert Covered(s.store, y);
      var z :| z in Held(s.store.blocks, c) && z.key == k && z.fidelity.Rank() >= y.fidelity.Rank();
      OneCopy(Held(s.store.blocks, c), x, z);
    }
    forall y | y in Held(s.store.blocks, c) && y.key == k ensures y == x {
      OneCopy(Held(s.store.blocks, c), x, y);
    }
  }

  /** The copy came at some point of the run, and no step since then named its event as lost. */
  ghost predicate CameSinceLoss(w: World, states: seq<State>, acts: seq<Act>, j: nat, r: Record)
    requires w.cfg.Valid() && |states| == |acts| + 1 && j < |states|
  {
    exists m :: 0 <= m < j && Brings(acts[m], r) && Spared(w, states, acts, m, j, r)
  }

  lemma {:induction false} CameIsOwed(w: World, states: seq<State>, acts: seq<Act>, j: nat, r: Record)
    requires IsRun(w, states, acts) && j < |states|
    ensures CameSinceLoss(w, states, acts, j, r) <==> r in states[j].ledger.owed
  {
    OwedExactly(w, states, acts, 0, j, r);
  }

  /**
   * Exactly once: when the journal has drained, an event of which a copy came since it was last
   * removed by name is stored once in its channel, as a copy that arrived, at no lower fidelity than
   * any copy that came since, whatever crashes, replays and other writers came between.
   */
  lemma {:induction false} ExactlyOnceSinceLoss(w: World, states: seq<State>, acts: seq<Act>, j: nat, r: Record)
    requires IsRun(w, states, acts) && Collisionless(w) && j < |states|
    requires states[j].store.journal == [] && CameSinceLoss(w, states, acts, j, r)
    ensures exists x <- Held(states[j].store.blocks, r.channel) ::
              && x.key == r.key && x in states[j].ledger.seen
              && (forall y: Record :: y.channel == r.channel && y.key == r.key && CameSinceLoss(w, states, acts, j, y)
                                      ==> y.fidelity.Rank() <= x.fidelity.Rank())
              && (forall y <- Held(states[j].store.blocks, r.channel) :: y.key == r.key ==> y == x)
  {
    RunInv(w, states, acts, j);
    CameIsOwed(w, states, acts, j, r);
    var x := StoredCopy(w, states[j], r.channel, r.key, r);
    forall y: Record | y.channel == r.channel && y.key == r.key && CameSinceLoss(w, states, acts, j, y)
      ensures y.fidelity.Rank() <= x.fidelity.Rank()
    {
      CameIsOwed(w, states, acts, j, y);
    }
  }

  /** In particular an event never removed is stored once at the highest fidelity that ever arrived for it. */
  lemma {:induction false} ExactlyOnce(w: World, states: seq<State>, acts: seq<Act>, i: nat, r: Record)
    requires IsRun(w, states, acts) && Collisionless(w) && i < |states|
    requires states[i].store.journal == []
    requires r in states[i].ledger.seen && (r.channel, r.key) !in states[i].ledger.lost
    ensures exists x <- Held(states[i].store.blocks, r.channel) ::
              && x.key == r.key && x in states[i].ledger.seen
              && (forall y <- states[i].ledger.seen :: y.channel == r.channel && y.key == r.key ==> y.fidelity.Rank() <= x.fidelity.Rank())
              && (forall y <- Held(states[i].store.blocks, r.channel) :: y.key == r.key ==> y == x)
  {
    RunInv(w, states, acts, i);
    var x := StoredCopy(w, states[i], r.channel, r.key, r);
    forall y | y in states[i].ledger.seen && y.channel == r.channel && y.key == r.key ensures y.fidelity.Rank() <= x.fidelity.Rank() {
      assert y in states[i].ledger.owed;
    }
  }

  /**
   * Order does not matter: two runs in which the same copies of an event arrived, and in which no
   * named removal took that event, end with it at the same fidelity once drained, in whatever order
   * they accepted and replayed and whatever else was removed.
   */
  lemma {:induction false} OrderDoesNotMatter(w: World, ss: seq<State>, as_: seq<Act>, ts: seq<State>, bs: seq<Act>, c: string, x: Record)
    requires IsRun(w, ss, as_) && IsRun(w, ts, bs) && Collisionless(w)
    requires var s, t := ss[|ss| - 1], ts[|ts| - 1];
             && s.store.journal == [] && t.store.journal == []
             && (forall y: Record :: y.channel == c && y.key == x.key ==> (y in s.ledger.seen <==> y in t.ledger.seen))
             && (c, x.key) !in s.ledger.lost && (c, x.key) !in t.ledger.lost
             && x in Held(s.store.blocks, c)
    ensures exists y <- Held(ts[|ts| - 1].store.blocks, c) :: y.key == x.key && y.fidelity == x.fidelity
  {
    var s, t := ss[|ss| - 1], ts[|ts| - 1];
    RunInv(w, ss, as_, |ss| - 1);
    RunInv(w, ts, bs, |ts| - 1);
    HeldInBlocks(s.store, c, x);
    assert ChannelInv(s.store, w.cfg, c, w.stamp);
    HeldIn(s.store, w.cfg, c, w.stamp);
    assert x in s.ledger.owed && x in t.ledger.owed;
    var x' := StoredCopy(w, s, c, x.key, x);
    var y := StoredCopy(w, t, c, x.key, x);
    assert x' in t.ledger.owed && y in s.ledger.owed;
    assert y.fidelity.Rank() == x.fidelity.Rank();
  }

  /** Purge cutoffs and acknowledged offsets are kept or raised. */
  ghost predicate Rises(s: Store, t: Store) {
    && (forall c <- s.cutoffs :: c in t.cutoffs && t.cutoffs[c] >= s.cutoffs[c])
    && (forall k <- s.offsets :: k in t.offsets && t.offsets[k] >= s.offsets[k])
  }

  lemma {:induction false} AcceptRises(w: World, s: Store, stream: Stream, first: nat, last: nat, payload: seq<Record>)
    requires JournalInv(s, w.cfg) && AcceptJournal(s, w.cfg, stream, first, last, payload).Ok?
    ensures Rises(s, AcceptJournal(s, w.cfg, stream, first, last, payload).value.store)
  {
    AcceptKeeps(s, w.cfg, stream, first, last, payload);
  }

  lemma {:induction false} StepRises(w: World, s: State, act: Act, s': State)
    requires w.cfg.Valid() && JournalInv(s.store, w.cfg) && Step(w, s, act) == Some(s')
    ensures Rises(s.store, s'.store)
  {
    if act.Accept? {
      AcceptRises(w, s.store, act.stream, act.first, act.last, act.payload);
    } else if act.Flush? {
      AppendAllFrame(s.store, w.cfg, s.mem.value.flight[..act.count]);
    } else if !act.PurgeChannel? {
      OthersLeaveCutoffs(w, s, act, s');
    }
  }

  lemma {:induction false} OthersLeaveCutoffs(w: World, s: State, act: Act, s': State)
    requires w.cfg.Valid() && Step(w, s, act) == Some(s') && !act.Accept? && !act.Flush? && !act.PurgeChannel?
    ensures s'.store.cutoffs == s.store.cutoffs && s'.store.offsets == s.store.offsets
  {
  }

  lemma {:induction false} RisesOn(s: Store, t: Store, u: Store)
    requires Rises(s, t) && Rises(t, u)
    ensures Rises(s, u)
  {
  }

  lemma {:induction false} RunStepRises(w: World, states: seq<State>, acts: seq<Act>, i: nat)
    requires IsRun(w, states, acts) && Collisionless(w) && i < |acts|
    ensures Rises(states[i].store, states[i + 1].store)
  {
    RunInv(w, states, acts, i);
    assert StepAt(w, states, acts, i);
    StepRises(w, states[i], acts[i], states[i + 1]);
  }

  /** Purge cutoffs and acknowledged offsets never go back along a run. */
  lemma {:induction false} RunRises(w: World, states: seq<State>, acts: seq<Act>, i: nat, j: nat)
    requires IsRun(w, states, acts) && Collisionless(w) && i <= j < |states|
    ensures Rises(states[i].store, states[j].store)
    decreases j - i
  {
    if i < j {
      RunRises(w, states, acts, i, j - 1);
      RunStepRises(w, states, acts, j - 1);
      RisesOn(states[i].store, states[j - 1].store, states[j].store);
    }
  }

  /** Purged data never comes back: after a purge nothing received up to its cutoff is ever stored again. */
  lemma {:induction false} PurgedStaysGone(w: World, states: seq<State>, acts: seq<Act>, i: nat, j: nat, channel: string, r: Record)
    requires IsRun(w, states, acts) && Collisionless(w) && i < j < |states|
    requires acts[i].PurgeChannel? && acts[i].channel == channel
    requires r in Held(states[j].store.blocks, channel)
    ensures r.receivedAt > acts[i].receivedAt
    ensures channel !in states[j].store.blocked
  {
    RunInv(w, states, acts, j);
    assert StepAt(w, states, acts, i);
    PurgeCuts(w, states[i], states[i + 1], channel, acts[i].receivedAt);
    RunRises(w, states, acts, i + 1, j);
    StoredAfterCutoff(w, states[j].store, channel, r);
  }

  /** A purge of the blocks drops what is stored of the channel, whatever its time of receipt, and nothing else. */
  lemma {:induction false} PurgeStepDrops(w: World, s: State, channel: string, at: int, s': State, r: Record)
    requires Inv(w, s) && Step(w, s, PurgeChannel(channel, at)) == Some(s')
    ensures r in s'.ledger.owed <==> r in s.ledger.owed && !(r.channel == channel && r.key in Keys(Held(s.store.blocks, channel)))
    ensures Held(s'.store.blocks, channel) == []
  {
    PurgeDropsStored(w, s.store, channel, at, r);
    StepOwes(w, s, PurgeChannel(channel, at), s', r);
  }

  /** Clearing the tail drops what waits there of the channel, whatever its time of receipt, and nothing else. */
  lemma {:induction false} ClearStepDrops(w: World, s: State, m: Mem, channel: string, s': State, r: Record)
    requires w.cfg.Valid() && s.mem == Some(m) && Step(w, s, PurgeTail(channel)) == Some(s')
    ensures r in s'.ledger.owed <==> r in s.ledger.owed && !(r.channel == channel && r.key in Keys(TailOf(m.tail, channel)))
    ensures s'.mem == Some(m.(tail := TailWithout(m.tail, [channel])))
  {
    StepOwes(w, s, PurgeTail(channel), s', r);
    assert r.key in Keys(TailOf(m.tail, channel)) <==> (channel, r.key) in (set x <- TailOf(m.tail, channel) :: (channel, x.key));
  }

  /**
   * What applying a purge drops, with any steps between its purge of the blocks and its clearing of
   * the tail. A record of the channel is owed afterwards exactly when it did not wait at the second
   * step, and either was owed and not stored at the first, or came in between, no step in between
   * naming its event as lost. The time of receipt plays no part.
   */
  lemma {:induction false} PurgeDropsExactly(w: World, states: seq<State>, acts: seq<Act>, i: nat, j: nat, channel: string, at: int, r: Record)
    requires IsRun(w, states, acts) && Collisionless(w) && i < j < |acts| && r.channel == channel
    requires acts[i] == PurgeChannel(channel, at) && acts[j] == PurgeTail(channel)
    ensures states[j].mem.Some?
    ensures r in states[j + 1].ledger.owed <==>
              && r.key !in Keys(TailOf(states[j].mem.value.tail, channel))
              && ((r in states[i].ledger.owed && r.key !in Keys(Held(states[i].store.blocks, channel)) && Spared(w, states, acts, i + 1, j, r))
                  || exists m :: i < m < j && Brings(acts[m], r) && Spared(w, states, acts, m, j, r))
  {
    RunInv(w, states, acts, i);
    assert StepAt(w, states, acts, i);
    assert StepAt(w, states, acts, j);
    PurgeStepDrops(w, states[i], channel, at, states[i + 1], r);
    ClearStepDrops(w, states[j], states[j].mem.value, channel, states[j + 1], r);
    OwedExactly(w, states, acts, i + 1, j, r);
    StillOwedAfter(w, states, acts, i, j, r);
  }

  lemma {:induction false} StillOwedAfter(w: World, states: seq<State>, acts: seq<Act>, i: nat, j: nat, r: Record)
    requires w.cfg.Valid() && |states| == |acts| + 1 && i < j < |states|
    ensures StillOwed(w, states, acts, i + 1, j, r) <==>
              || (r in states[i + 1].ledger.owed && Spared(w, states, acts, i + 1, j, r))
              || exists m :: i < m < j && Brings(acts[m], r) && Spared(w, states, acts, m, j, r)
  {
  }

  lemma {:induction false} PurgeDropsStored(w: World, s: Store, channel: string, at: int, r: Record)
    requires StoreInv(s, w.cfg, w.stamp)
    ensures var after := Purge(s, channel, at);
            && Held(after.blocks, channel) == []
            && ((r.channel, r.key) in Events(s.blocks) - Events(after.blocks) <==> r.channel == channel && r.key in Keys(Held(s.blocks, channel)))
  {
    var after := Purge(s, channel, at);
    EventsAreHeld(s.blocks, channel, r.key);
    NoneOf(after.blocks, channel);
    if r.channel != channel && (r.channel, r.key) in Events(s.blocks) {
      var b, x :| b in s.blocks && x in b.records && (b.channel, x.key) == (r.channel, r.key);
      assert b in after.blocks;
    }
    EventsAreHeld(after.blocks, channel, r.key);
  }

  lemma {:induction false} NoneOf(blocks: seq<Block>, channel: string)
    requires forall b <- blocks :: b.channel != channel
    ensures Held(blocks, channel) == []
  {
    if blocks != [] {
      NoneOf(blocks[1..], channel);
    }
  }

  /** The stored events of a channel are the keys it holds. */
  lemma {:induction false} EventsAreHeld(blocks: seq<Block>, channel: string, k: EventKey)
    ensures (channel, k) in Events(blocks) <==> k in Keys(Held(blocks, channel))
  {
    var l := BlocksOf(blocks, channel);
    BlocksOfSound(blocks, channel);
    RecordsOfSound(l);
    if k in Keys(Held(blocks, channel)) {
      var x :| x in RecordsOf(l) && x.key == k;
      var b :| b in l && x in b.records;
      assert (b.channel, x.key) in Events(blocks);
    }
    if (channel, k) in Events(blocks) {
      var b, x :| b in blocks && x in b.records && (b.channel, x.key) == (channel, k);
      assert b in l && x in RecordsOf(l);
    }
  }

  lemma {:induction false} PurgeCuts(w: World, s: State, s': State, channel: string, receivedAt: int)
    requires w.cfg.Valid() && Step(w, s, PurgeChannel(channel, receivedAt)) == Some(s')
    ensures channel in s'.store.cutoffs && s'.store.cutoffs[channel] >= receivedAt
  {
  }

  lemma {:induction false} StoredAfterCutoff(w: World, s: Store, channel: string, r: Record)
    requires StoreInv(s, w.cfg, w.stamp) && r in Held(s.blocks, channel)
    ensures channel !in s.blocked && (channel in s.cutoffs ==> r.receivedAt > s.cutoffs[channel])
  {
    assert ChannelInv(s, w.cfg, channel, w.stamp);
  }

  /**
   * The acknowledged offset of a stream: every sequence from its base up to it was in an accepted
   * batch, and no pending row starts right after it.
   */
  lemma {:induction false} AcknowledgedIsContiguous(w: World, states: seq<State>, acts: seq<Act>, i: nat, stream: Stream, n: int)
    requires IsRun(w, states, acts) && Collisionless(w) && i < |states| && stream in states[i].store.offsets
    ensures stream in states[i].ledger.bases
    ensures states[i].ledger.bases[stream] < n <= states[i].store.offsets[stream] ==> RangeCovers(states[i].ledger.ranges, stream, n)
    ensures forall row <- states[i].store.journal ::
              row.stream == stream ==> row.first as int != states[i].store.offsets[stream] as int + 1
  {
    RunInv(w, states, acts, i);
  }
}
