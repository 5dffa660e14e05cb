/** Answers over runs: what a request past the gate sees, and when an owed record is in an answer. */
module GatedAnswers {
  import opened Ordering
  import opened Records
  import opened Tables
  import opened Invariants
  import opened Journal
  import opened Queries
  import opened Batches
  import opened Machine
  import opened Merge
  import opened Serving
  import MI = MachineInvariant
  import MT = MachineTheorems
  import P = Policy
  import R = Readiness

  /** The answer of query_local_messages from these blocks and this open tail. */
  function Together(all: seq<Record>, waiting: seq<Record>, request: QueryRequest): seq<Record> {
    Merged(Answer(all, request).records, Newest(Sort(Filter(waiting, Window(request)), AnswerOrder()), request.limit), request.limit)
  }

  function WaitingIn(s: State, channel: string): seq<Record> {
    if s.mem.Some? then TailOf(s.mem.value.tail, channel) else []
  }

  /* ---------- past the gate ---------- */

  /**
   * A request that got past the gate reads the blocks at one later moment and the open tail at
   * another. Nothing in its answer was purged by the policy it read: of the blocks because applying
   * cut them, of the tail, to which a replay may bring purged records again, because of the clamp. Only
   * where the clamp cannot express the purge time may the tail show one, and the blocks still do not.
   */
  lemma {:induction false} GatedAnswerHidesPurged(w: World, ns: seq<R.Node>, acts: seq<R.Act>, valid: string -> bool, i: nat, j: nat, k: nat,
                                                  channel: string, policy: P.ChannelPolicy, options: QueryOptions, limit: nat, snapshot: int)
    requires R.IsRun(w, ns, acts, valid) && i < |acts| && ns[i].web.Some? && policy.purgedAt > 0 && i < j <= k < |ns|
    requires var web := ns[i].web.value;
             || (acts[i] == R.Apply(channel, policy, false) && R.InForce(R.Loaded(web.cache, ns[i].applied, channel), channel, policy))
             || (acts[i] == R.Proceed && web.applying.Some? && web.applying.value.stage == R.Recording
                 && web.applying.value.channel == channel && web.applying.value.policy == policy)
    ensures var c := Clamped(options, policy.purgedAt, snapshot);
            var all, waiting := Held(ns[j].ingest.store.blocks, channel), WaitingIn(ns[k].ingest, channel);
            forall x <- Together(all, waiting, QueryRequest(channel, c.after, c.before, limit)) ::
              && x.receivedAt <= snapshot
              && (x.receivedAt > policy.purgedAt || (!Expressible(options.after, policy.purgedAt) && x in waiting && x !in all))
  {
    R.GateHidesPurged(w, ns, acts, valid, i, channel, policy);
    var c := Clamped(options, policy.purgedAt, snapshot);
    var request := QueryRequest(channel, c.after, c.before, limit);
    InsideWindow(Held(ns[j].ingest.store.blocks, channel), WaitingIn(ns[k].ingest, channel), request);
    ClampHidesPurged(options, channel, limit, policy.purgedAt, snapshot);
  }

  /* ---------- reading blocks first and the tail later ---------- */

  /** The step neither seals the channel's records, nor purges them, nor loses the memory. */
  ghost predicate LeavesTail(act: Act, c: string) {
    && !act.Crash? && !(act.PurgeTail? && act.channel == c)
    && !(act.Push? && c in act.seals) && !(act.Seal? && c in act.seals)
  }

  ghost predicate Untouched(acts: seq<Act>, i: nat, j: nat, c: string)
    requires i <= j <= |acts|
  {
    forall n :: i <= n < j ==> LeavesTail(acts[n], c)
  }

  /** The step pushes a copy of the event into the tail. */
  ghost predicate Pushes(s: State, act: Act, c: string, k: EventKey) {
    act.Push? && s.mem.Some? && s.mem.value.todo != [] && s.mem.value.todo[0].channel == c && s.mem.value.todo[0].key == k
  }

  /** The event waited at the first moment, or was pushed since, and the channel's tail was left alone from then on. */
  ghost predicate Waits(states: seq<State>, acts: seq<Act>, i: nat, j: nat, c: string, k: EventKey)
    requires |states| == |acts| + 1 && i <= j < |states|
  {
    || (k in Keys(WaitingIn(states[i], c)) && Untouched(acts, i, j, c))
    || exists m :: i <= m < j && Pushes(states[m], acts[m], c, k) && Untouched(acts, m, j, c)
  }

  lemma {:induction false} KeysOfPut(tail: Tail, r: Record, c: string)
    ensures Keys(TailOf(TailPut(tail, r), c)) == Keys(TailOf(tail, c)) + if r.channel == c then {r.key} else {}
  {
    if r.channel == c {
      var list := TailOf(tail, c);
      AbsorbKeeps(list, [r]);
      assert Keys(list + [r]) == Keys(list) + {r.key};
    }
  }

  lemma {:induction false} PushWaits(w: World, s: State, seals: seq<string>, s': State, c: string, k: EventKey)
    requires w.cfg.Valid() && Step(w, s, Push(seals)) == Some(s')
    ensures k in Keys(WaitingIn(s', c)) <==> c !in seals && (k in Keys(WaitingIn(s, c)) || Pushes(s, Push(seals), c, k))
  {
    var m := s.mem.value;
    KeysOfPut(m.tail, m.todo[0], c);
    assert WaitingIn(s', c) == if c in seals then [] else TailOf(TailPut(m.tail, m.todo[0]), c);
  }

  lemma {:induction false} OthersWait(w: World, s: State, act: Act, s': State, c: string)
    requires w.cfg.Valid() && Step(w, s, act) == Some(s') && !act.Push?
    ensures WaitingIn(s', c) == if LeavesTail(act, c) then WaitingIn(s, c) else []
  {
  }

  /** One step: what waits afterwards was waiting or is pushed by it, and the step leaves the tail alone. */
  lemma {:induction false} StepWaits(w: World, s: State, act: Act, s': State, c: string, k: EventKey)
    requires w.cfg.Valid() && Step(w, s, act) == Some(s')
    ensures k in Keys(WaitingIn(s', c)) <==> LeavesTail(act, c) && (k in Keys(WaitingIn(s, c)) || Pushes(s, act, c, k))
  {
    if act.Push? {
      PushWaits(w, s, act.seals, s', c, k);
    } else {
      OthersWait(w, s, act, s', c);
    }
  }

  lemma {:induction false} WaitsOneMore(states: seq<State>, acts: seq<Act>, i: nat, j: nat, c: string, k: EventKey)
    requires |states| == |acts| + 1 && i < j < |states|
    ensures Waits(states, acts, i, j, c, k) <==>
              LeavesTail(acts[j - 1], c) && (Waits(states, acts, i, j - 1, c, k) || Pushes(states[j - 1], acts[j - 1], c, k))
  {
    if LeavesTail(acts[j - 1], c) {
      forall n | i <= n < j ensures Untouched(acts, n, j, c) <==> Untouched(acts, n, j - 1, c) {}
      if Pushes(states[j - 1], acts[j - 1], c, k) {
        assert Untouched(acts, j - 1, j, c);
      }
      if exists m :: i <= m < j - 1 && Pushes(states[m], acts[m], c, k) && Untouched(acts, m, j - 1, c) {
        var m :| i <= m < j - 1 && Pushes(states[m], acts[m], c, k) && Untouched(acts, m, j - 1, c);
        assert Untouched(acts, m, j, c);
      }
    }
  }

  lemma {:induction false} WaitsNow(states: seq<State>, acts: seq<Act>, i: nat, c: string, k: EventKey)
    requires |states| == |acts| + 1 && i < |states|
    ensures Waits(states, acts, i, i, c, k) <==> k in Keys(WaitingIn(states[i], c))
  {
    assert Untouched(acts, i, i, c);
  }

  /** Over every run, with crashes, replays, seals and other writers: an event waits at the second moment exactly when it `Waits`. */
  lemma {:induction false} WaitsExactly(w: World, states: seq<State>, acts: seq<Act>, i: nat, j: nat, c: string, k: EventKey)
    requires MT.IsRun(w, states, acts) && i <= j < |states|
    ensures k in Keys(WaitingIn(states[j], c)) <==> Waits(states, acts, i, j, c, k)
    decreases j - i
  {
    if i == j {
      WaitsNow(states, acts, i, c, k);
    } else {
      WaitsExactly(w, states, acts, i, j - 1, c, k);
      assert MT.StepAt(w, states, acts, j - 1);
      StepWaits(w, states[j - 1], acts[j - 1], states[j], c, k);
      WaitsOneMore(states, acts, i, j, c, k);
    }
  }

  /**
   * When an event is in an answer that reads the blocks at one moment of a run and the open tail at a
   * later one. A record in the window is answered exactly when it was in the blocks at the first
   * moment, or waits as above, and fewer than the limit read with it are newer.
   */
  lemma {:induction false} AnsweredExactly(w: World, states: seq<State>, acts: seq<Act>, i: nat, j: nat, r: Record, t: Times, request: QueryRequest)
    requires MT.IsRun(w, states, acts) && MI.Collisionless(w) && i <= j < |states|
    requires InWindow(r, request) && r.receivedAt == t.received(r.key)
    requires Timed(Held(states[i].store.blocks, r.channel), t) && Timed(WaitingIn(states[j], r.channel), t)
    ensures var all, waiting := Held(states[i].store.blocks, r.channel), WaitingIn(states[j], r.channel);
            var read := Filter(all + waiting, Window(request));
            && (r.key in Keys(read) <==> r.key in Keys(all) || Waits(states, acts, i, j, r.channel, r.key))
            && (r.key in Keys(Together(all, waiting, request)) <==>
                  && (r.key in Keys(all) || Waits(states, acts, i, j, r.channel, r.key))
                  && |NewerIn(t, r.key, Keys(read))| < request.limit)
            && IsNewest(t, Together(all, waiting, request), read, request.limit)
  {
    var all, waiting := Held(states[i].store.blocks, r.channel), WaitingIn(states[j], r.channel);
    WaitsExactly(w, states, acts, i, j, r.channel, r.key);
    KeyInWindow(all, waiting, r, t, request);
    MT.RunInv(w, states, acts, i);
    MT.RunInv(w, states, acts, j);
    DistinctRecords(w, states[i], r.channel);
    DistinctRecords(w, states[j], r.channel);
    TogetherLikeOne(t, all, waiting, request);
  }

  lemma {:induction false} DistinctRecords(w: World, s: State, channel: string)
    requires MI.Inv(w, s)
    ensures DistinctKeys(Held(s.store.blocks, channel)) && DistinctKeys(WaitingIn(s, channel))
  {
    assert ChannelInv(s.store, w.cfg, channel, w.stamp);
  }

  lemma {:induction false} KeyInWindow(all: seq<Record>, waiting: seq<Record>, r: Record, t: Times, request: QueryRequest)
    requires Timed(all, t) && Timed(waiting, t) && r.receivedAt == t.received(r.key) && InWindow(r, request)
    ensures r.key in Keys(Filter(all + waiting, Window(request))) <==> r.key in Keys(all) || r.key in Keys(waiting)
  {
    if r.key in Keys(all) || r.key in Keys(waiting) {
      var x: Record :| (x in all || x in waiting) && x.key == r.key;
      assert x in all + waiting && InWindow(x, request);
      assert x in Filter(all + waiting, Window(request));
    }
  }

  /* ---------- owed records ---------- */

  /** Everything accepted is in blocks or in the tail: no batch is under way, sealed or waiting for replay. */
  ghost predicate Settled(m: Mem) {
    m.todo == [] && m.flight == [] && m.replay == []
  }

  lemma {:induction false} PushStays(w: World, s: State, seals: seq<string>, s': State, r: Record)
    requires s.mem.Some? && MI.TailOk(w, s.mem.value.tail) && Covers(WaitingIn(s, r.channel), r)
    requires w.cfg.Valid() && Step(w, s, Push(seals)) == Some(s') && r.channel !in seals
    ensures s'.mem.Some? && Covers(WaitingIn(s', r.channel), r)
  {
    var m := s.mem.value;
    MI.PutCovers(w, m.tail, m.todo[0], r);
    assert WaitingIn(s', r.channel) == TailOf(TailPut(m.tail, m.todo[0]), r.channel);
  }

  lemma {:induction false} MemoryStays(w: World, s: State, act: Act, s': State)
    requires w.cfg.Valid() && Step(w, s, act) == Some(s') && s.mem.Some? && !act.Crash?
    ensures s'.mem.Some?
  {
  }

  lemma {:induction false} TailStays(w: World, states: seq<State>, acts: seq<Act>, i: nat, j: nat, r: Record)
    requires MT.IsRun(w, states, acts) && MI.Collisionless(w) && i <= j < |states|
    requires states[i].mem.Some? && Covers(WaitingIn(states[i], r.channel), r) && Untouched(acts, i, j, r.channel)
    ensures states[j].mem.Some? && Covers(WaitingIn(states[j], r.channel), r)
    decreases j - i
  {
    if i < j {
      TailStays(w, states, acts, i, j - 1, r);
      StaysOn(w, states, acts, j - 1, r);
    }
  }

  lemma {:induction false} StaysOn(w: World, states: seq<State>, acts: seq<Act>, i: nat, r: Record)
    requires MT.IsRun(w, states, acts) && MI.Collisionless(w) && i < |acts| && LeavesTail(acts[i], r.channel)
    requires states[i].mem.Some? && Covers(WaitingIn(states[i], r.channel), r)
    ensures states[i + 1].mem.Some? && Covers(WaitingIn(states[i + 1], r.channel), r)
  {
    TailIsOk(w, states, acts, i);
    assert MT.StepAt(w, states, acts, i);
    StepStays(w, states[i], acts[i], states[i + 1], r);
  }

  lemma {:induction false} TailIsOk(w: World, states: seq<State>, acts: seq<Act>, i: nat)
    requires MT.IsRun(w, states, acts) && MI.Collisionless(w) && i < |states|
    ensures states[i].mem.Some? ==> MI.TailOk(w, states[i].mem.value.tail)
  {
    MT.RunInv(w, states, acts, i);
  }

  lemma {:induction false} StepStays(w: World, s: State, act: Act, s': State, r: Record)
    requires s.mem.Some? && MI.TailOk(w, s.mem.value.tail) && Covers(WaitingIn(s, r.channel), r)
    requires w.cfg.Valid() && Step(w, s, act) == Some(s') && LeavesTail(act, r.channel)
    ensures s'.mem.Some? && Covers(WaitingIn(s', r.channel), r)
  {
    if act.Push? {
      PushStays(w, s, act.seals, s', r);
    } else {
      MemoryStays(w, s, act, s');
      OthersWait(w, s, act, s', r.channel);
    }
  }

  /** An owed record is read, at no lower fidelity, if the process had settled and the channel's tail was left alone in between. */
  lemma {:induction false} OwedIsHeld(w: World, states: seq<State>, acts: seq<Act>, i: nat, j: nat, r: Record)
    requires MT.IsRun(w, states, acts) && MI.Collisionless(w) && i <= j < |states|
    requires r in states[i].ledger.owed && states[i].mem.Some? && Settled(states[i].mem.value) && Untouched(acts, i, j, r.channel)
    ensures Covers(Held(states[i].store.blocks, r.channel) + WaitingIn(states[j], r.channel), r)
  {
    MT.RunInv(w, states, acts, i);
    var all, waiting := Held(states[i].store.blocks, r.channel), WaitingIn(states[j], r.channel);
    if Covers(all, r) {
      CoversMonotone(all, all + waiting, r);
    } else {
      assert MI.Afloat(states[i].mem.value, r);
      TailStays(w, states, acts, i, j, r);
      CoversMonotone(waiting, all + waiting, r);
    }
  }

  /**
   * So an owed record inside the window is among what the answer is the newest of, at no lower
   * fidelity, if the process had settled at the first moment and the channel was left alone since.
   */
  lemma {:induction false} OwedIsAnswered(w: World, states: seq<State>, acts: seq<Act>, i: nat, j: nat, r: Record, t: Times, request: QueryRequest)
    requires MT.IsRun(w, states, acts) && MI.Collisionless(w) && i <= j < |states|
    requires r in states[i].ledger.owed && states[i].mem.Some? && Settled(states[i].mem.value) && Untouched(acts, i, j, r.channel)
    requires InWindow(r, request) && r.receivedAt == t.received(r.key)
    requires Timed(Held(states[i].store.blocks, r.channel), t) && Timed(WaitingIn(states[j], r.channel), t)
    ensures var all, waiting := Held(states[i].store.blocks, r.channel), WaitingIn(states[j], r.channel);
            var read := Filter(all + waiting, Window(request));
            && Covers(all + waiting, r) && r.key in Keys(read)
            && (r.key in Keys(Together(all, waiting, request)) <==> |NewerIn(t, r.key, Keys(read))| < request.limit)
            && IsNewest(t, Together(all, waiting, request), read, request.limit)
  {
    OwedIsHeld(w, states, acts, i, j, r);
    AnsweredExactly(w, states, acts, i, j, r, t, request);
    WaitsExactly(w, states, acts, i, j, r.channel, r.key);
  }

  /**
   * Sealing in between does hide a record: it has left the tail and was not yet in the blocks that
   * were read, although it is stored by then or named as lost.
   */
  lemma {:induction false} SealedBetweenIsMissed(w: World, s: State, m: Mem, r: Record) returns (s1: State, s2: State)
    requires MI.Inv(w, s) && s.mem == Some(m) && Quiescent(m) && m.flight == []
    requires r in TailOf(m.tail, r.channel) && r.key !in Keys(Held(s.store.blocks, r.channel))
    ensures Step(w, s, Seal([r.channel])) == Some(s1) && Step(w, s1, Flush(1)) == Some(s2)
    ensures r.key !in Keys(Held(s.store.blocks, r.channel) + WaitingIn(s2, r.channel))
    ensures MI.Covered(s2.store, r) || (r.channel, r.key) in s2.ledger.lost
  {
    var c := r.channel;
    s1 := SealOne(w, s, m, c);
    s2 := FlushOne(w, s1, s1.mem.value, m.tail[c]);
    MI.SealKeeps(w, m.tail, [c]);
    assert [m.tail[c]][0] in SealedBatches(m.tail, [c]);
    WrittenOrLost(w, s, m.tail[c], r);
  }

  lemma {:induction false} SealOne(w: World, s: State, m: Mem, c: string) returns (s1: State)
    requires w.cfg.Valid() && s.mem == Some(m) && Quiescent(m) && m.flight == [] && c in m.tail
    ensures Step(w, s, Seal([c])) == Some(s1) && SealedBatches(m.tail, [c]) == [m.tail[c]]
    ensures s1 == s.(mem := Some(m.(tail := TailWithout(m.tail, [c]), flight := [m.tail[c]])))
  {
    assert Sealable(m.tail, [c]) && SealedBatches(m.tail, [c]) == [m.tail[c]] && [] + [m.tail[c]] == [m.tail[c]];
    s1 := s.(mem := Some(m.(tail := TailWithout(m.tail, [c]), flight := [m.tail[c]])));
  }

  lemma {:induction false} FlushOne(w: World, s: State, m: Mem, batch: seq<Record>) returns (s': State)
    requires w.cfg.Valid() && s.mem == Some(m) && m.flight == [batch]
    ensures Step(w, s, Flush(1)) == Some(s')
    ensures s'.store == AppendAll(s.store, w.cfg, [batch]) && s'.mem == Some(m.(flight := []))
    ensures s'.ledger.lost == s.ledger.lost + AppendAllLoss(s.store, w.cfg, [batch])
  {
    assert [batch][..1] == [batch] && [batch][1..] == [];
    s' := Step(w, s, Flush(1)).value;
  }

  lemma {:induction false} WrittenOrLost(w: World, s: State, batch: seq<Record>, r: Record)
    requires MI.Inv(w, s) && Batch(batch, w.stamp) && r in batch
    ensures var after := AppendAll(s.store, w.cfg, [batch]);
            MI.Covered(after, r) || (r.channel, r.key) in AppendAllLoss(s.store, w.cfg, [batch])
  {
    assert Covers(batch, r);
    AppendAllCovers(s.store, w.cfg, [batch], w.stamp, r);
  }
}
