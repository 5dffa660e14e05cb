/**
 * Owner-to-replica replication over a network that loses, delays, duplicates and reorders snapshots:
 * whatever was once taken may arrive at any replica at any later time, any number of times, or never.
 */
module Replication {
  import opened Tables
  import opened Journal
  import opened Policy
  import opened Cluster

  datatype Net = Net(owner: Control, history: History, taken: set<Snapshot>, replicas: seq<Control>)

  datatype Event =
    | Write(op: Mutation, now: I64)      // the owner commits a mutation, whether or not it then reports success
    | Take(s: Snapshot)                  // a push or a pull reads the owner's tables
    | Deliver(i: nat, s: Snapshot)
    | Ready(i: nat)

  /** A snapshot of the tables as they are now, rows in any order. */
  ghost predicate Taken(s: Snapshot, db: Control) {
    && Some(s.epoch) == db.epoch && s.revision as int == db.revision
    && ListsChannels(s.channels, db.channels) && ListsSessions(s.sessions, db.sessions)
  }

  ghost function Next(n: Net, e: Event, valid: string -> bool): Option<Net> {
    match e
    case Write(op, now) =>
      var after := Mutated(n.owner, op, now);
      if after.None? then None
      else Some(n.(owner := after.value, history := n.history[after.value.revision := after.value]))
    case Take(s) => if Taken(s, n.owner) then Some(n.(taken := n.taken + {s})) else None
    case Deliver(i, s) =>
      if i < |n.replicas| && s in n.taken then Some(n.(replicas := n.replicas[i := Received(n.replicas[i], s, valid)])) else None
    case Ready(i) =>
      if i < |n.replicas| then Some(n.(replicas := n.replicas[i := n.replicas[i].(initialized := true)])) else None
  }

  ghost predicate Start(n: Net) {
    && n.owner.epoch.Some? && n.history == map[n.owner.revision := n.owner] && n.taken == {}
    && forall i :: 0 <= i < |n.replicas| ==> n.replicas[i] == BLANK
  }

  ghost predicate IsRun(ns: seq<Net>, es: seq<Event>, valid: string -> bool) {
    && |ns| == |es| + 1 && Start(ns[0])
    && forall i :: 0 <= i < |es| ==> Next(ns[i], es[i], valid) == Some(ns[i + 1])
  }

  ghost predicate NetInv(n: Net) {
    && Recorded(n.owner, n.history)
    && (forall s <- n.taken :: Genuine(s, n.owner, n.history))
    && forall i :: 0 <= i < |n.replicas| ==> PastOf(n.replicas[i], n.owner, n.history)
  }

  lemma {:induction false} NextInv(n: Net, e: Event, valid: string -> bool, n': Net)
    requires NetInv(n) && Next(n, e, valid) == Some(n')
    ensures NetInv(n')
  {
    match e {
      case Write(op, now) => WriteRecorded(n.owner, n.history, op, now);
      case Take(s) =>
      case Deliver(i, s) => ReceiveIsPast(n.replicas[i], s, valid, n.owner, n.history);
      case Ready(i) =>
    }
  }

  lemma {:induction false} RunInv(ns: seq<Net>, es: seq<Event>, valid: string -> bool, i: nat)
    requires IsRun(ns, es, valid) && i < |ns|
    ensures NetInv(ns[i])
  {
    if i > 0 {
      RunInv(ns, es, valid, i - 1);
      NextInv(ns[i - 1], es[i - 1], valid, ns[i]);
    }
  }

  /** Replicas are always a past state of the owner: at revision r they hold the owner's tables of revision r. */
  lemma {:induction false} ReplicaIsPastOwner(ns: seq<Net>, es: seq<Event>, valid: string -> bool, i: nat, k: nat)
    requires IsRun(ns, es, valid) && i < |ns| && k < |ns[i].replicas| && ns[i].replicas[k].epoch.Some?
    ensures var x := ns[i].replicas[k]; x.epoch == ns[i].owner.epoch && x.revision <= ns[i].owner.revision
    ensures var x := ns[i].replicas[k];
            exists j :: 0 <= j <= i && ns[j].owner.revision == x.revision && SameTables(ns[j].owner, x)
  {
    RunInv(ns, es, valid, i);
    var x := ns[i].replicas[k];
    var j := Recording(ns, es, valid, i, x.revision);
    assert SameTables(ns[j].owner, x);
  }

  /** A recorded revision was the owner's at some point of the run. */
  lemma {:induction false} Recording(ns: seq<Net>, es: seq<Event>, valid: string -> bool, i: nat, r: int) returns (j: nat)
    requires IsRun(ns, es, valid) && i < |ns| && r in ns[i].history
    ensures j <= i && ns[j].owner.revision == r && SameTables(ns[j].owner, ns[i].history[r])
  {
    RunInv(ns, es, valid, i);
    if r == ns[i].owner.revision {
      j := i;
    } else {
      assert i > 0;
      assert Next(ns[i - 1], es[i - 1], valid) == Some(ns[i]);
      j := Recording(ns, es, valid, i - 1, r);
    }
  }

  /** One replica between two points of a run: its epoch stays, its revision and purge times do not fall. */
  ghost predicate Advances(a: Control, b: Control) {
    && (a.epoch.Some? ==> b.epoch == a.epoch && a.revision <= b.revision)
    && PolicyRises(a.channels, b.channels)
  }

  lemma {:induction false} NextAdvances(n: Net, e: Event, valid: string -> bool, n': Net, i: nat)
    requires NetInv(n) && Next(n, e, valid) == Some(n') && i < |n.replicas|
    ensures |n'.replicas| == |n.replicas| && Advances(n.replicas[i], n'.replicas[i])
  {
    if e.Deliver? && e.i == i {
      ReceiveRises(n.replicas[i], e.s, valid);
    }
  }

  lemma {:induction false} AdvancesOn(a: Control, b: Control, c: Control)
    requires Advances(a, b) && Advances(b, c)
    ensures Advances(a, c)
  {
    forall ch: string ensures PurgeOf(a.channels, ch) <= PurgeOf(c.channels, ch) {
      assert PurgeOf(a.channels, ch) <= PurgeOf(b.channels, ch);
    }
  }

  /** Along every run revisions and purge times of every replica only rise. */
  lemma {:induction false} ReplicasOnlyAdvance(ns: seq<Net>, es: seq<Event>, valid: string -> bool, i: nat, j: nat, k: nat)
    requires IsRun(ns, es, valid) && i <= j < |ns| && k < |ns[i].replicas|
    ensures |ns[j].replicas| == |ns[i].replicas| && Advances(ns[i].replicas[k], ns[j].replicas[k])
    decreases j - i
  {
    if i < j {
      ReplicasOnlyAdvance(ns, es, valid, i, j - 1, k);
      RunInv(ns, es, valid, j - 1);
      NextAdvances(ns[j - 1], es[j - 1], valid, ns[j], k);
      AdvancesOn(ns[i].replicas[k], ns[j - 1].replicas[k], ns[j].replicas[k]);
    }
  }

  /**
   * A newer snapshot that arrives is installed, however many others were lost or came before it,
   * exactly when its logins are valid and none of its purge times is negative.
   */
  lemma {:induction false} NewerSnapshotIsInstalled(ns: seq<Net>, es: seq<Event>, valid: string -> bool, i: nat, k: nat, s: Snapshot)
    requires IsRun(ns, es, valid) && i < |ns| && k < |ns[i].replicas| && s in ns[i].taken
    requires s.epoch != "" && s.revision >= 0
    requires ns[i].replicas[k].epoch.Some? ==> ns[i].replicas[k].revision < s.revision as int
    ensures s.revision as int in ns[i].history
    ensures Presentable(ns[i].history[s.revision].channels, valid) ==>
              && Received(ns[i].replicas[k], s, valid).revision == s.revision as int
              && SameTables(Received(ns[i].replicas[k], s, valid), ns[i].history[s.revision])
    ensures !Presentable(ns[i].history[s.revision].channels, valid) ==> Received(ns[i].replicas[k], s, valid) == ns[i].replicas[k]
  {
    RunInv(ns, es, valid, i);
    NewerIsTaken(ns[i].replicas[k], s, valid, ns[i].owner, ns[i].history);
  }

  /** Two snapshots in either order leave a replica with the newer one. */
  lemma {:induction false} OrderOfDeliveryDoesNotMatter(n: Net, k: nat, s: Snapshot, t: Snapshot, valid: string -> bool)
    requires NetInv(n) && k < |n.replicas| && s in n.taken && t in n.taken && s.revision < t.revision
    requires s.epoch != "" && s.revision >= 0
    requires Presentable(n.history[s.revision].channels, valid) && Presentable(n.history[t.revision].channels, valid)
    ensures var x := n.replicas[k];
            var st, ts := Received(Received(x, s, valid), t, valid), Received(Received(x, t, valid), s, valid);
            SameTables(st, ts) && st.revision == ts.revision && st.epoch == ts.epoch
  {
    var x := n.replicas[k];
    ReceiveIsPast(x, s, valid, n.owner, n.history);
    ReceiveIsPast(x, t, valid, n.owner, n.history);
    if x.epoch.None? || x.revision < t.revision as int {
      NewerIsTaken(x, t, valid, n.owner, n.history);
      if x.epoch.None? || x.revision < s.revision as int {
        NewerIsTaken(x, s, valid, n.owner, n.history);
      }
      NewerIsTaken(Received(x, s, valid), t, valid, n.owner, n.history);
    }
  }
}
