/** Block ids over runs: when an id is given out again, and what an eviction planned earlier then takes. */
module StalePlans {
  import opened Ordering
  import opened Records
  import opened Tables
  import opened Lists
  import opened Invariants
  import opened Appending
  import opened Batches
  import opened Journal
  import opened Machine
  import opened MachineInvariant
  import opened MachineTheorems

  function IdsOf(blocks: seq<Block>): set<nat> {
    set b <- blocks :: b.id
  }

  lemma {:induction false} IdsBelowNext(blocks: seq<Block>, id: nat)
    requires AscendingIds(blocks) && id in IdsOf(blocks)
    ensures id < NextId(blocks)
  {
    var i :| 0 <= i < |blocks| && blocks[i].id == id;
  }

  /** Every id is an old one or one past all the old ones. */
  ghost predicate NewIdsAreNext(before: seq<Block>, after: seq<Block>) {
    forall id <- IdsOf(after) :: id in IdsOf(before) || id >= NextId(before)
  }

  lemma {:induction false} UpgradeKeepsIds(blocks: seq<Block>, channel: string, rs: seq<Record>, cfg: Config)
    ensures var up := UpgradeBlocks(blocks, channel, rs, cfg);
            |up| == |blocks| && forall i :: 0 <= i < |up| ==> up[i].id == blocks[i].id
  {
    if blocks != [] {
      UpgradeKeepsIds(blocks[1..], channel, rs, cfg);
    }
  }

  lemma {:induction false} ChunksGoOn(blocks: seq<Block>, channel: string, next: int, rs: seq<Record>, cfg: Config)
    requires cfg.Valid()
    ensures var out := AddChunks(blocks, channel, next, rs, cfg).0;
            NewIdsAreNext(blocks, out) && NextId(out) >= NextId(blocks)
    decreases |rs|
  {
    if rs != [] {
      var more := blocks + [FirstChunk(blocks, channel, next, rs, cfg)];
      ChunksGoOn(more, channel, next + 1, rs[ChunkSize(rs, cfg)..], cfg);
      AddOneChunk(blocks, channel, next, rs, cfg);
      forall id | id in IdsOf(more) ensures id in IdsOf(blocks) || id >= NextId(blocks) {
        var b :| b in more && b.id == id;
        assert b in blocks || b == more[|blocks|];
      }
    }
  }

  /** Dropping a channel's first block of several leaves the newest block where it is. */
  lemma {:induction false} DropFirstKeepsNewest(blocks: seq<Block>, channel: string)
    requires |BlocksOf(blocks, channel)| > 1
    ensures var out := DropFirst(blocks, channel);
            out != [] && out[|out| - 1] == blocks[|blocks| - 1] && forall b <- out :: b in blocks
  {
    if blocks[0].channel != channel {
      DropFirstKeepsNewest(blocks[1..], channel);
    } else {
      FewerOf(blocks[1..], channel);
    }
  }

  lemma {:induction false} FewerOf(blocks: seq<Block>, channel: string)
    ensures |BlocksOf(blocks, channel)| <= |blocks|
  {
    if blocks != [] {
      FewerOf(blocks[1..], channel);
    }
  }

  lemma {:induction false} OneBlockFits(l: seq<Block>, allowed: nat)
    requires forall b <- l :: b.count <= allowed
    ensures Messages(l) > allowed ==> |l| > 1
  {
    if |l| == 1 {
      assert l[0] in l && l[1..] == [];
      assert Messages(l) == l[0].count + Messages(l[1..]);
    }
  }

  /** Retention never takes the newest block: one block is always within the allowance. */
  lemma {:induction false} RetainKeepsNewest(blocks: seq<Block>, channel: string, allowed: nat)
    requires forall b <- BlocksOf(blocks, channel) :: b.count <= allowed
    ensures var out := Retain(blocks, channel, allowed);
            && (forall b <- out :: b in blocks) && NextId(out) == NextId(blocks)
    decreases |blocks|
  {
    var l := BlocksOf(blocks, channel);
    if Messages(l) > allowed {
      OneBlockFits(l, allowed);
      DropFirstKeepsNewest(blocks, channel);
      DropFirstList(blocks, channel, channel);
      RetainKeepsNewest(DropFirst(blocks, channel), channel, allowed);
    }
  }

  lemma {:induction false} FilledGoesOn(s: Store, cfg: Config, channel: string, kept: seq<Record>)
    requires cfg.Valid()
    ensures var f := Filled(s, cfg, channel, kept).blocks; NewIdsAreNext(s.blocks, f) && NextId(f) >= NextId(s.blocks)
  {
    var up := Upgraded(s, cfg, channel, kept);
    UpgradeKeepsIds(s.blocks, channel, Sort(kept, EventOrder()), cfg);
    assert NextId(up) == NextId(s.blocks);
    forall id | id in IdsOf(up) ensures id in IdsOf(s.blocks) {
      var i :| 0 <= i < |up| && up[i].id == id;
      assert s.blocks[i] in s.blocks;
    }
    ChunksGoOn(up, channel, RowOf(s, channel).next, Novel(s, channel, kept), cfg);
  }

  /** An append gives new blocks ids past all ids there are, and never makes an id free again. */
  lemma {:induction false} AppendGoesOn(s: Store, cfg: Config, channel: string, rs: seq<Record>, stamp: EventKey -> int)
    requires StoreInv(s, cfg, stamp) && AllIn(rs, channel) && Stamped(rs, stamp)
    ensures var out := Append(s, cfg, channel, rs).blocks; NewIdsAreNext(s.blocks, out) && NextId(out) >= NextId(s.blocks)
  {
    var kept := AfterCutoff(s.cutoffs, channel, rs);
    if channel !in s.blocked && kept != [] {
      AdmissibleAfterCutoff(s, channel, rs, stamp);
      assert ChannelInv(s, cfg, channel, stamp);
      FilledList(s, cfg, channel, kept, stamp);
      FilledGoesOn(s, cfg, channel, kept);
      RetainKeepsNewest(Filled(s, cfg, channel, kept).blocks, channel, cfg.Allowed());
    }
  }

  lemma {:induction false} AppendAllGoesOn(s: Store, cfg: Config, batches: seq<seq<Record>>, stamp: EventKey -> int)
    requires StoreInv(s, cfg, stamp) && Batched(batches, stamp)
    ensures var out := AppendAll(s, cfg, batches).blocks; NewIdsAreNext(s.blocks, out) && NextId(out) >= NextId(s.blocks)
  {
    if batches != [] {
      var front, rs := batches[..|batches| - 1], batches[|batches| - 1];
      assert rs in batches;
      AppendAllGoesOn(s, cfg, front, stamp);
      AppendAllKeeps(s, cfg, front, stamp);
      AppendGoesOn(AppendAll(s, cfg, front), cfg, rs[0].channel, rs, stamp);
    }
  }

  /** Whatever the step, an id that was not in use before is past all ids in use before. */
  lemma {:induction false} StepGivesNextIds(w: World, s: State, act: Act, s': State)
    requires Inv(w, s) && Step(w, s, act) == Some(s')
    ensures NewIdsAreNext(s.store.blocks, s'.store.blocks)
  {
    if act.Repair? {
      AppendGoesOn(s.store, w.cfg, act.batch[0].channel, act.batch, w.stamp);
    } else if act.Flush? {
      AppendAllGoesOn(s.store, w.cfg, s.mem.value.flight[..act.count], w.stamp);
    } else if IsRemoval(act) {
      RemovalStep(w, s, act);
      RemovalDrops(s.store, act);
    } else {
      OthersLeaveBlocks(w, s, act, s');
    }
  }

  lemma {:induction false} OthersLeaveBlocks(w: World, s: State, act: Act, s': State)
    requires w.cfg.Valid() && Step(w, s, act) == Some(s') && !act.Repair? && !act.Flush? && !IsRemoval(act)
    ensures s'.store.blocks == s.store.blocks
  {
  }

  /** Between the two points of the run there was no block with this id: the block that has it now was stored since. */
  ghost predicate StoredSince(states: seq<State>, i: nat, j: nat, id: nat)
    requires i <= j < |states|
  {
    exists k :: i <= k <= j && id !in IdsOf(states[k].store.blocks)
  }

  /** At some point in between the next id to be given out was this one or a lower one. */
  ghost predicate NextFellTo(states: seq<State>, i: nat, j: nat, id: nat)
    requires i <= j < |states|
  {
    exists k :: i <= k <= j && NextId(states[k].store.blocks) <= id
  }

  /** A block in place, counted from a point at which its id was not in use, means that the next id had fallen to its id. */
  lemma {:induction false} GivenOutAgain(w: World, states: seq<State>, acts: seq<Act>, k: nat, j: nat, id: nat)
    requires IsRun(w, states, acts) && Collisionless(w) && k <= j < |states|
    requires id !in IdsOf(states[k].store.blocks) && id in IdsOf(states[j].store.blocks)
    ensures NextFellTo(states, k, j, id)
    decreases j - k
  {
    if id in IdsOf(states[j - 1].store.blocks) {
      GivenOutAgain(w, states, acts, k, j - 1, id);
      var m :| k <= m <= j - 1 && NextId(states[m].store.blocks) <= id;
      assert k <= m <= j;
    } else {
      GivenOutNow(w, states, acts, j - 1, id);
      assert k <= j - 1 <= j;
    }
  }

  lemma {:induction false} GivenOutNow(w: World, states: seq<State>, acts: seq<Act>, i: nat, id: nat)
    requires IsRun(w, states, acts) && Collisionless(w) && i < |acts|
    requires id !in IdsOf(states[i].store.blocks) && id in IdsOf(states[i + 1].store.blocks)
    ensures NextId(states[i].store.blocks) <= id
  {
    RunInv(w, states, acts, i);
    assert StepAt(w, states, acts, i);
    StepGivesNextIds(w, states[i], acts[i], states[i + 1]);
  }

  /** An id in use at both ends of a stretch of a run names a block stored since exactly when the next id fell to it in between. */
  lemma {:induction false} SinceMeansFell(w: World, states: seq<State>, acts: seq<Act>, i: nat, j: nat, id: nat)
    requires IsRun(w, states, acts) && Collisionless(w) && i <= j < |states|
    requires id in IdsOf(states[j].store.blocks)
    ensures StoredSince(states, i, j, id) <==> NextFellTo(states, i, j, id)
  {
    if StoredSince(states, i, j, id) {
      var k :| i <= k <= j && id !in IdsOf(states[k].store.blocks);
      GivenOutAgain(w, states, acts, k, j, id);
      var m :| k <= m <= j && NextId(states[m].store.blocks) <= id;
      assert i <= m <= j;
    }
    if NextFellTo(states, i, j, id) {
      var m :| i <= m <= j && NextId(states[m].store.blocks) <= id;
      RunInv(w, states, acts, m);
      if id in IdsOf(states[m].store.blocks) {
        IdsBelowNext(states[m].store.blocks, id);
      }
    }
  }

  /**
   * An eviction planned at one point of a run and carried out at a later one, whatever happened in
   * between, spares every block stored since exactly when for no planned id still in use the next id
   * fell as low as it in between.
   */
  lemma {:induction false} StalePlan(w: World, states: seq<State>, acts: seq<Act>, i: nat, j: nat, ids: seq<nat>)
    requires IsRun(w, states, acts) && Collisionless(w) && i <= j < |states|
    ensures (forall b <- states[j].store.blocks :: StoredSince(states, i, j, b.id) ==> b in Evict(states[j].store, ids).blocks)
       <==> (forall b <- states[j].store.blocks :: b.id in ids ==> !NextFellTo(states, i, j, b.id))
  {
    forall b | b in states[j].store.blocks ensures StoredSince(states, i, j, b.id) <==> NextFellTo(states, i, j, b.id) {
      assert b.id in IdsOf(states[j].store.blocks);
      SinceMeansFell(w, states, acts, i, j, b.id);
    }
  }

  /** In particular a plan is safe while the next id stays above all it names, which only deleting the newest block can undo. */
  lemma {:induction false} PlanIsSafeAbove(w: World, states: seq<State>, acts: seq<Act>, i: nat, j: nat, ids: seq<nat>)
    requires IsRun(w, states, acts) && Collisionless(w) && i <= j < |states|
    requires forall k, id :: i <= k <= j && id in ids ==> id < NextId(states[k].store.blocks)
    ensures forall b <- states[j].store.blocks :: StoredSince(states, i, j, b.id) ==> b in Evict(states[j].store, ids).blocks
  {
    StalePlan(w, states, acts, i, j, ids);
  }
}
