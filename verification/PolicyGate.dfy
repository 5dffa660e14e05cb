/** Applying channel policies to the stores of a node, step by step under one lock. */
module PolicyGate {
  import opened Tables
  import opened Journal
  import opened Policy
  import opened Readiness
  import opened BlockStore
  import opened OpenBlocks
  import opened Machine
  import opened Cluster

  class AppliedPolicies {
    const store: SqliteBlockStore
    const open: OpenBlockManager?   // absent when the node does not ingest
    var recorded: Policies          // cluster_applied_policy, durable
    var applied: Policies           // in memory

    ghost predicate Valid()
      reads this, store, open
    {
      && store.Valid() && (open != null ==> open.Valid())
      && forall c <- applied :: c in recorded && recorded[c] == applied[c]
    }

    /** After a start nothing is remembered but what was recorded. */
    constructor (store: SqliteBlockStore, open: OpenBlockManager?, recorded: Policies)
      requires store.Valid() && (open != null ==> open.Valid())
      ensures Valid() && this.store == store && this.open == open && this.recorded == recorded && applied == map[]
    {
      this.store := store;
      this.open := open;
      this.recorded := recorded;
      this.applied := map[];
    }

    /** The transactions on the blocks and the purge of the open tail. */
    method BringStores(channel: string, policy: ChannelPolicy, clear: bool)
      requires store.Valid() && (open != null ==> open.Valid())
      modifies store, open
      ensures store.Valid() && (open != null ==> open.Valid())
      ensures var blocked := SetBlocked(old(store.db.tables), channel, policy.ignored);
              store.db.tables == if clear then Tables.Purge(blocked, channel, policy.purgedAt) else blocked
      ensures open != null ==> open.View() == if clear then TailWithout(old(open.View()), [channel]) else old(open.View())
    {
      var _ := store.SetChannelBlocked(channel, policy.ignored);
      if clear {
        var _ := store.PurgeChannel(channel, policy.purgedAt);
        if open != null {
          open.PurgeChannel(channel);
        }
      }
    }

    /** Remember what was recorded for the channel. */
    method Load(channel: string)
      requires Valid()
      modifies this`applied
      ensures Valid()
      ensures channel in applied <==> channel in recorded
      ensures channel in recorded ==> applied[channel] == recorded[channel]
    {
      if channel !in applied && channel in recorded {
        applied := applied[channel := recorded[channel]];
      }
    }

    /** Bring one channel to its policy; a policy with an earlier purge time than the applied one is refused. */
    method Apply(channel: string, policy: ChannelPolicy) returns (ok: bool)
      requires Valid()
      modifies this, store, open
      ensures Valid()
      ensures ok <==> policy.purgedAt >= PurgeOf(old(recorded), channel)
      ensures store.db.tables == Whole(old(store.db.tables), old(recorded), channel, policy)
      ensures recorded == if Advancing(old(recorded), channel, policy) then old(recorded)[channel := policy] else old(recorded)
      ensures channel in recorded ==> channel in applied
      ensures open != null ==>
                open.View() == if Clears(old(recorded), channel, policy) then TailWithout(old(open.View()), [channel]) else old(open.View())
    {
      Load(channel);
      if channel in applied && applied[channel] == policy {
        return true;
      }
      if policy == DEFAULT_POLICY && channel !in applied {
        return true;
      }
      var previous := if channel in applied then applied[channel].purgedAt else 0;
      if policy.purgedAt < previous {
        return false;
      }
      BringStores(channel, policy, policy.ignored || policy.purgedAt > previous);
      recorded := recorded[channel := policy];
      applied := applied[channel := policy];
      return true;
    }

    /** Bring every channel to its policy, in any order; the first refusal ends it. */
    method Synchronize(policies: Policies) returns (ok: bool)
      requires Valid() && AllCut(store.db.tables.cutoffs, recorded)
      modifies this, store, open
      ensures Valid() && AllCut(store.db.tables.cutoffs, recorded)
      ensures ok <==> forall c <- policies :: policies[c].purgedAt >= PurgeOf(old(recorded), c)
      ensures ok ==> AllCut(store.db.tables.cutoffs, policies)
      ensures CutoffsRise(old(store.db.tables.cutoffs), store.db.tables.cutoffs)
      ensures forall c: string :: PurgeOf(recorded, c) == PurgeOf(old(recorded), c) || (c in policies && c in recorded && recorded[c] == policies[c])
    {
      var left := policies.Keys;
      while left != {}
        invariant Valid() && left <= policies.Keys && AllCut(store.db.tables.cutoffs, recorded)
        invariant CutoffsRise(old(store.db.tables.cutoffs), store.db.tables.cutoffs)
        invariant RecordedSoFar(old(recorded), recorded, policies, left)
        invariant forall c <- policies :: c !in left ==>
                    policies[c].purgedAt >= PurgeOf(old(recorded), c) && Cut(store.db.tables.cutoffs, c, policies[c].purgedAt)
        decreases |left|
      {
        var c :| c in left;
        ghost var before, was := store.db.tables, recorded;
        ok := Apply(c, policies[c]);
        WholeKeepsCuts(before, was, c, policies[c]);
        RecordOne(old(recorded), was, recorded, policies, left, c);
        if !ok {
          return;
        }
        CutsRiseOn(before.cutoffs, store.db.tables.cutoffs, policies, left, c);
        left := left - {c};
      }
      ok := true;
    }
  }

  /** Channels still to be done have the purge time recorded before, the others that or their policy. */
  ghost predicate RecordedSoFar(before: Policies, recorded: Policies, policies: Policies, left: set<string>) {
    && (forall c <- left :: PurgeOf(recorded, c) == PurgeOf(before, c))
    && (forall c: string :: PurgeOf(recorded, c) == PurgeOf(before, c) || (c in policies && c in recorded && recorded[c] == policies[c]))
  }

  lemma {:induction false} RecordOne(before: Policies, was: Policies, recorded: Policies, policies: Policies, left: set<string>, c: string)
    requires RecordedSoFar(before, was, policies, left) && c in left && c in policies
    requires recorded == was || recorded == was[c := policies[c]]
    ensures RecordedSoFar(before, recorded, policies, left - {c})
    ensures PurgeOf(was, c) == PurgeOf(before, c)
  {
  }

  /** However an apply ends, cutoffs rise, and what is recorded stays cut. */
  lemma {:induction false} WholeKeepsCuts(s: Store, applied: Policies, channel: string, policy: ChannelPolicy)
    requires AllCut(s.cutoffs, applied)
    ensures var after := Whole(s, applied, channel, policy);
            && CutoffsRise(s.cutoffs, after.cutoffs)
            && AllCut(after.cutoffs, if Advancing(applied, channel, policy) then applied[channel := policy] else applied)
            && (policy.purgedAt >= PurgeOf(applied, channel) ==> Cut(after.cutoffs, channel, policy.purgedAt))
  {
    var after := Whole(s, applied, channel, policy);
    var then_ := if Advancing(applied, channel, policy) then applied[channel := policy] else applied;
    if policy.purgedAt >= PurgeOf(applied, channel) {
      WholeApplies(s, applied, channel, policy);
    }
    forall c: string ensures Cut(after.cutoffs, c, PurgeOf(then_, c)) {
      assert Cut(s.cutoffs, c, PurgeOf(applied, c));
    }
  }

  lemma {:induction false} CutsRiseOn(a: map<string, int>, b: map<string, int>, policies: Policies, left: set<string>, c: string)
    requires CutoffsRise(a, b)
    requires forall d <- policies :: d !in left ==> Cut(a, d, policies[d].purgedAt)
    ensures forall d <- policies :: d !in left ==> Cut(b, d, policies[d].purgedAt)
  {
    forall d | d in policies && d !in left ensures Cut(b, d, policies[d].purgedAt) {
      assert Cut(a, d, policies[d].purgedAt);
    }
  }

  /**
   * accept_snapshot with the applies carried out: receive, bring every channel to its policy, mark
   * ready. A replica whose tables are not behind what it recorded as applied accepts whatever it does
   * not refuse to receive, and ready then means that every purge has reached the blocks.
   */
  method AcceptSnapshot(control: ClusterControl, gate: AppliedPolicies, s: Snapshot, valid: string -> bool) returns (ok: bool)
    requires control.Valid() && !control.owner && gate.Valid()
    requires NonNegative(control.db.channels) && PolicyRises(gate.recorded, control.db.channels)
    requires AllCut(gate.store.db.tables.cutoffs, gate.recorded)
    modifies control`db, gate, gate.store, gate.open
    ensures control.Valid() && gate.Valid()
    ensures ok <==> ReceiptOf(old(control.db), s, valid) != Refused
    ensures SameTables(control.db, Received(old(control.db), s, valid))
    ensures ok ==> control.db.initialized && AllCut(gate.store.db.tables.cutoffs, control.db.channels)
    ensures NonNegative(control.db.channels) && PolicyRises(gate.recorded, control.db.channels)
    ensures AllCut(gate.store.db.tables.cutoffs, gate.recorded)
  {
    var received := control.Receive(s, valid);
    if received.None? {
      return false;
    }
    ReceiveRises(old(control.db), s, valid);
    var policies := control.db.channels;
    NotBehind(gate.recorded, old(control.db).channels, policies);
    ghost var was := gate.recorded;
    ok := gate.Synchronize(policies);
    StillNotBehind(was, gate.recorded, old(control.db).channels, policies);
    if !ok {
      return;
    }
    control.MarkReady();
  }

  lemma {:induction false} StillNotBehind(was: Policies, recorded: Policies, before: Policies, after: Policies)
    requires PolicyRises(was, before) && PolicyRises(before, after)
    requires forall c: string :: PurgeOf(recorded, c) == PurgeOf(was, c) || (c in after && c in recorded && recorded[c] == after[c])
    ensures PolicyRises(recorded, after)
  {
    forall c: string ensures PurgeOf(recorded, c) <= PurgeOf(after, c) {
      assert PurgeOf(was, c) <= PurgeOf(before, c) && PurgeOf(before, c) <= PurgeOf(after, c);
    }
  }

  lemma {:induction false} NotBehind(recorded: Policies, before: Policies, after: Policies)
    requires PolicyRises(recorded, before) && PolicyRises(before, after)
    ensures forall c <- after :: after[c].purgedAt >= PurgeOf(recorded, c)
  {
    forall c | c in after ensures after[c].purgedAt >= PurgeOf(recorded, c) {
      assert PurgeOf(recorded, c) <= PurgeOf(before, c) && PurgeOf(before, c) <= PurgeOf(after, c);
    }
  }
}
