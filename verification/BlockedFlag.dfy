/**
 * Whether a ready node blocks exactly the channels its tables ignore. Readiness covers purge times
 * only; the blocked flag can disagree with them, and these are the exact conditions.
 */
module BlockedFlag {
  import opened Records
  import opened Tables
  import opened Journal
  import opened Policy
  import opened Readiness
  import M = Machine
  import MI = MachineInvariant
  import MB = Batches
  import Cluster

  /** No writer but the appliers and the start of a process sets blocked flags. */
  ghost predicate OwnWriters(acts: seq<Act>) {
    forall k :: 0 <= k < |acts| ==>
      !(acts[k].Ingest? && (acts[k].act.BlockChannel? || acts[k].act.SyncBlockedChannels?))
  }

  /** The policy whose flag was written last for the channel: by a start, or by the first step of an apply. */
  ghost function LastWritten(ns: seq<Node>, acts: seq<Act>, j: nat, c: string): ChannelPolicy
    requires |ns| == |acts| + 1 && j < |ns|
  {
    if j == 0 then DEFAULT_POLICY
    else Written(ns[j - 1], acts[j - 1], c, LastWritten(ns, acts, j - 1, c))
  }

  ghost function Written(n: Node, act: Act, c: string, before: ChannelPolicy): ChannelPolicy {
    match act
    case Start(_) => PolicyOf(n.control.channels, c)
    case Proceed =>
      if n.web.Some? && n.web.value.applying.Some? && n.web.value.applying.value.stage.Blocking? && n.web.value.applying.value.channel == c
      then n.web.value.applying.value.policy else before
    case _ => before
  }

  ghost predicate ApplyingFlag(applied: Policies, c: string, last: ChannelPolicy, a: Applying) {
    a.channel == c ==> PurgeOf(applied, c) <= a.policy.purgedAt && (a.stage.Blocking? || a.policy == last)
  }

  /** What is left of a job covers the channel, or its purge time is recorded. */
  ghost predicate JobFlag(control: Control, applied: Policies, c: string, job: Job) {
    job.Todo? ==>
      (c in control.channels && (c, control.channels[c]) in job.rows) || PurgeOf(control.channels, c) <= PurgeOf(applied, c)
  }

  /**
   * The flag is that of the policy written last, whose purge time lies between the recorded one and
   * that of the tables; on a ready node these two are the same.
   */
  ghost predicate FlagInv(n: Node, c: string, last: ChannelPolicy) {
    && (c in n.ingest.store.blocked <==> last.ignored)
    && PurgeOf(n.applied, c) <= last.purgedAt <= PurgeOf(n.control.channels, c)
    && (n.control.initialized ==> PurgeOf(n.control.channels, c) <= PurgeOf(n.applied, c))
    && (n.web.Some? && n.web.value.applying.Some? ==> ApplyingFlag(n.applied, c, last, n.web.value.applying.value))
    && (n.web.Some? ==> JobFlag(n.control, n.applied, c, n.web.value.job))
  }

  /* ---------- steps ---------- */

  lemma {:induction false} AppendLeavesBlocked(s: Store, cfg: Config, batches: seq<seq<Record>>)
    requires cfg.Valid()
    ensures AppendAll(s, cfg, batches).blocked == s.blocked
  {
    if batches != [] {
      AppendLeavesBlocked(s, cfg, batches[..|batches| - 1]);
    }
  }

  lemma {:induction false} OthersLeaveBlocked(w: M.World, s: M.State, act: M.Act, s': M.State)
    requires w.cfg.Valid() && M.Step(w, s, act) == Some(s') && !act.BlockChannel? && !act.SyncBlockedChannels?
    ensures s'.store.blocked == s.store.blocked
  {
    if act.Flush? {
      AppendLeavesBlocked(s.store, w.cfg, s.mem.value.flight[..act.count]);
    }
  }

  lemma {:induction false} IngestFlag(w: M.World, n: Node, act: M.Act, s: M.State, c: string, last: ChannelPolicy)
    requires w.cfg.Valid() && M.Step(w, n.ingest, act) == Some(s) && !act.BlockChannel? && !act.SyncBlockedChannels?
    requires FlagInv(n, c, last)
    ensures FlagInv(n.(ingest := s), c, last)
  {
    OthersLeaveBlocked(w, n.ingest, act, s);
  }

  lemma {:induction false} StartFlag(w: M.World, n: Node, listed: seq<string>, n': Node, c: string, last: ChannelPolicy, valid: string -> bool)
    requires NodeInv(w, n) && FlagInv(n, c, last) && Next(w, n, Start(listed), valid) == Some(n')
    ensures FlagInv(n', c, PolicyOf(n.control.channels, c))
  {
    assert n'.ingest.store.blocked == (set x <- listed);
    assert c in n'.ingest.store.blocked <==> c in listed;
  }

  lemma {:induction false} DeliverFlag(w: M.World, n: Node, s: Snapshot, n': Node, c: string, last: ChannelPolicy, valid: string -> bool)
    requires NodeInv(w, n) && FlagInv(n, c, last) && Next(w, n, Deliver(s), valid) == Some(n')
    ensures FlagInv(n', c, last)
  {
    ReceiveRises(n.control, s, valid);
    assert PurgeOf(n.control.channels, c) <= PurgeOf(n'.control.channels, c);
  }

  /** A policy in force has the purge time that is recorded. */
  lemma {:induction false} InForceIsRecorded(cache: Policies, applied: Policies, channel: string, policy: ChannelPolicy)
    requires forall c <- cache :: c in applied && applied[c] == cache[c]
    requires NonNegative(applied) && InForce(Loaded(cache, applied, channel), channel, policy)
    ensures policy.purgedAt == PurgeOf(applied, channel)
  {
  }

  lemma {:induction false} ApplyFlag(w: M.World, n: Node, channel: string, policy: ChannelPolicy, forJob: bool, n': Node,
                                     c: string, last: ChannelPolicy, valid: string -> bool)
    requires NodeInv(w, n) && FlagInv(n, c, last) && Next(w, n, Apply(channel, policy, forJob), valid) == Some(n')
    ensures FlagInv(n', c, last)
  {
    var web := n.web.value;
    if InForce(Loaded(web.cache, n.applied, channel), channel, policy) {
      InForceIsRecorded(web.cache, n.applied, channel, policy);
      if forJob {
        PopFlag(n.control, n.applied, c, web.job, channel, policy);
      }
    } else {
      assert c in Loaded(web.cache, n.applied, c) <==> c in n.applied;
    }
  }

  lemma {:induction false} PopFlag(control: Control, applied: Policies, c: string, job: Job, channel: string, policy: ChannelPolicy)
    requires JobFlag(control, applied, c, job) && job.Todo? && job.rows != [] && job.rows[0] == (channel, policy)
    requires channel == c ==> policy.purgedAt <= PurgeOf(applied, c)
    ensures JobFlag(control, applied, c, Popped(job))
  {
    assert job.rows == [job.rows[0]] + job.rows[1..];
  }

  lemma {:induction false} BlockingFlag(w: M.World, n: Node, a: Applying, n': Node, c: string, last: ChannelPolicy, valid: string -> bool)
    requires NodeInv(w, n) && FlagInv(n, c, last) && Next(w, n, Proceed, valid) == Some(n')
    requires n.web.value.applying == Some(a) && a.stage.Blocking?
    ensures FlagInv(n', c, Written(n, Proceed, c, last))
  {
    assert n'.ingest.store == SetBlocked(n.ingest.store, a.channel, a.policy.ignored);
  }

  lemma {:induction false} MiddleFlag(w: M.World, n: Node, a: Applying, n': Node, c: string, last: ChannelPolicy, valid: string -> bool)
    requires NodeInv(w, n) && FlagInv(n, c, last) && Next(w, n, Proceed, valid) == Some(n')
    requires n.web.value.applying == Some(a) && (a.stage.Purging? || a.stage.Clearing?)
    ensures FlagInv(n', c, last)
  {
    assert n'.ingest.store.blocked == n.ingest.store.blocked;
  }

  lemma {:induction false} RecordingFlag(w: M.World, n: Node, a: Applying, n': Node, c: string, last: ChannelPolicy, valid: string -> bool)
    requires NodeInv(w, n) && FlagInv(n, c, last) && Next(w, n, Proceed, valid) == Some(n')
    requires n.web.value.applying == Some(a) && a.stage.Recording?
    ensures FlagInv(n', c, last)
  {
    var job := n.web.value.job;
    assert PurgeOf(n.applied, c) <= PurgeOf(n'.applied, c);
    assert JobFlag(n.control, n'.applied, c, job);
    if a.forJob {
      PopFlag(n.control, n'.applied, c, job, a.channel, a.policy);
    }
  }

  lemma {:induction false} NextFlag(w: M.World, n: Node, act: Act, n': Node, c: string, last: ChannelPolicy, valid: string -> bool)
    requires NodeInv(w, n) && FlagInv(n, c, last) && Next(w, n, act, valid) == Some(n') && OwnWriters([act])
    ensures FlagInv(n', c, Written(n, act, c, last))
  {
    assert [act][0] == act;
    match act {
      case Crash => IngestFlag(w, n, M.Crash, n'.ingest, c, last);
      case Ingest(a) => IngestFlag(w, n, a, n'.ingest, c, last);
      case Start(listed) => StartFlag(w, n, listed, n', c, last, valid);
      case Deliver(s) => DeliverFlag(w, n, s, n', c, last, valid);
      case Apply(channel, policy, forJob) => ApplyFlag(w, n, channel, policy, forJob, n', c, last, valid);
      case Proceed =>
        var a := n.web.value.applying.value;
        match a.stage {
          case Blocking => BlockingFlag(w, n, a, n', c, last, valid);
          case Recording => RecordingFlag(w, n, a, n', c, last, valid);
          case _ => MiddleFlag(w, n, a, n', c, last, valid);
        }
      case ReadPolicies(rows) => assert c in n.control.channels ==> (c, n.control.channels[c]) in rows;
      case _ =>
    }
  }

  lemma {:induction false} RunFlag(w: M.World, ns: seq<Node>, acts: seq<Act>, valid: string -> bool, j: nat, c: string)
    requires IsRun(w, ns, acts, valid) && OwnWriters(acts) && j < |ns|
    ensures FlagInv(ns[j], c, LastWritten(ns, acts, j, c))
  {
    if j > 0 {
      RunFlag(w, ns, acts, valid, j - 1, c);
      RunInv(w, ns, acts, valid, j - 1);
      assert OwnWriters([acts[j - 1]]);
      NextFlag(w, ns[j - 1], acts[j - 1], ns[j], c, LastWritten(ns, acts, j - 1, c), valid);
    }
  }

  /* ---------- when the flag is right ---------- */

  /**
   * On a ready node the policy written last has the purge time of the tables, and the channel is
   * blocked as the tables say exactly when it also has their ignore flag. So the flag is wrong
   * exactly when what was written last was another policy of equal purge time and other flag: a stale
   * apply, or one that failed before it was recorded.
   */
  lemma {:induction false} ReadyFlag(w: M.World, ns: seq<Node>, acts: seq<Act>, valid: string -> bool, j: nat, c: string)
    requires IsRun(w, ns, acts, valid) && OwnWriters(acts) && j < |ns| && ns[j].control.initialized
    ensures var last, current := LastWritten(ns, acts, j, c), PolicyOf(ns[j].control.channels, c);
            && last.purgedAt == current.purgedAt
            && (Agrees(ns[j].ingest.store, c, current) <==> last.ignored == current.ignored)
  {
    RunFlag(w, ns, acts, valid, j, c);
  }

  /** The tables once held this policy of the channel. */
  ghost predicate Stood(ns: seq<Node>, i: nat, c: string, p: ChannelPolicy)
    requires i < |ns|
  {
    exists k :: 0 <= k <= i && PolicyOf(ns[k].control.channels, c) == p
  }

  /** The policies that are read, applied or written last for the channel are among `past`. */
  ghost predicate ComesFrom(n: Node, c: string, last: ChannelPolicy, past: iset<ChannelPolicy>) {
    && last in past
    && (n.web.Some? ==> forall p: ChannelPolicy :: (c, p) in n.web.value.seen ==> p in past)
    && (n.web.Some? ==> ApplyingFrom(n.web.value.applying, c, past))
  }

  ghost predicate ApplyingFrom(applying: Option<Applying>, c: string, past: iset<ChannelPolicy>) {
    applying.Some? && applying.value.channel == c ==> applying.value.policy in past
  }

  lemma {:induction false} ProceedComesFrom(w: M.World, n: Node, n': Node, c: string, last: ChannelPolicy, past: iset<ChannelPolicy>, valid: string -> bool)
    requires w.cfg.Valid() && ComesFrom(n, c, last, past) && Next(w, n, Proceed, valid) == Some(n')
    ensures ComesFrom(n', c, Written(n, Proceed, c, last), past)
  {
  }

  lemma {:induction false} ApplyComesFrom(w: M.World, n: Node, channel: string, policy: ChannelPolicy, forJob: bool, n': Node,
                                          c: string, last: ChannelPolicy, past: iset<ChannelPolicy>, valid: string -> bool)
    requires NodeInv(w, n) && ComesFrom(n, c, last, past) && Next(w, n, Apply(channel, policy, forJob), valid) == Some(n')
    requires PolicyOf(n.control.channels, c) in past
    ensures ComesFrom(n', c, last, past)
  {
    if forJob && channel == c {
      assert n.web.value.job.rows[0] in n.web.value.job.rows;
      assert PolicyOf(n.control.channels, c) == policy;
    }
  }

  lemma {:induction false} NextComesFrom(w: M.World, n: Node, act: Act, n': Node, c: string, last: ChannelPolicy, past: iset<ChannelPolicy>, valid: string -> bool)
    requires NodeInv(w, n) && ComesFrom(n, c, last, past) && Next(w, n, act, valid) == Some(n')
    requires PolicyOf(n.control.channels, c) in past
    ensures ComesFrom(n', c, Written(n, act, c, last), past)
  {
    match act {
      case Apply(channel, policy, forJob) => ApplyComesFrom(w, n, channel, policy, forJob, n', c, last, past, valid);
      case Proceed => ProceedComesFrom(w, n, n', c, last, past, valid);
      case _ =>
    }
  }

  /** All policies the tables held for the channel up to some point. */
  ghost function Past(ns: seq<Node>, i: nat, c: string): iset<ChannelPolicy>
    requires i < |ns|
  {
    iset p: ChannelPolicy | Stood(ns, i, c, p)
  }

  lemma {:induction false} PastGrows(ns: seq<Node>, i: nat, c: string)
    requires 0 < i < |ns|
    ensures Past(ns, i - 1, c) <= Past(ns, i, c) && PolicyOf(ns[i - 1].control.channels, c) in Past(ns, i - 1, c)
  {
    assert Stood(ns, i - 1, c, PolicyOf(ns[i - 1].control.channels, c));
    forall p | Stood(ns, i - 1, c, p) ensures Stood(ns, i, c, p) {
      var k :| 0 <= k <= i - 1 && PolicyOf(ns[k].control.channels, c) == p;
      assert 0 <= k <= i;
    }
  }

  /** Whatever is written last was a policy of the tables at some time before. */
  lemma {:induction false} RunComesFrom(w: M.World, ns: seq<Node>, acts: seq<Act>, valid: string -> bool, i: nat, c: string)
    requires IsRun(w, ns, acts, valid) && i < |ns|
    ensures ComesFrom(ns[i], c, LastWritten(ns, acts, i, c), Past(ns, i, c))
  {
    if i == 0 {
      assert PolicyOf(ns[0].control.channels, c) == DEFAULT_POLICY;
      assert Stood(ns, 0, c, DEFAULT_POLICY);
    } else {
      RunComesFrom(w, ns, acts, valid, i - 1, c);
      RunInv(w, ns, acts, valid, i - 1);
      PastGrows(ns, i, c);
      NextComesFrom(w, ns[i - 1], acts[i - 1], ns[i], c, LastWritten(ns, acts, i - 1, c), Past(ns, i - 1, c), valid);
    }
  }

  /**
   * As long as the tables never hold two policies of a channel with one purge time and different
   * flags, which is so when opting in or out always moves the purge time, a ready node blocks the
   * channel exactly when its tables ignore it.
   */
  lemma {:induction false} FlagIsRightIfTimesDiffer(w: M.World, ns: seq<Node>, acts: seq<Act>, valid: string -> bool, j: nat, c: string)
    requires IsRun(w, ns, acts, valid) && OwnWriters(acts) && j < |ns| && ns[j].control.initialized
    requires forall h, k :: 0 <= h < k <= j ==>
               var p, q := PolicyOf(ns[h].control.channels, c), PolicyOf(ns[k].control.channels, c);
               p.purgedAt == q.purgedAt ==> p.ignored == q.ignored
    ensures c in ns[j].ingest.store.blocked <==> PolicyOf(ns[j].control.channels, c).ignored
  {
    ReadyFlag(w, ns, acts, valid, j, c);
    RunComesFrom(w, ns, acts, valid, j, c);
    assert Stood(ns, j, c, LastWritten(ns, acts, j, c));
    var h :| 0 <= h <= j && PolicyOf(ns[h].control.channels, c) == LastWritten(ns, acts, j, c);
  }

  /* ---------- runs to a ready node with the wrong flag ---------- */

  /** The tables hold only these policies of the channel along the run. */
  ghost predicate Within(ns: seq<Node>, c: string, past: iset<ChannelPolicy>) {
    forall k :: 0 <= k < |ns| ==> PolicyOf(ns[k].control.channels, c) in past
  }

  ghost predicate Reached(w: M.World, n: Node, valid: string -> bool, c: string, past: iset<ChannelPolicy>) {
    exists ns, acts :: IsRun(w, ns, acts, valid) && OwnWriters(acts) && Within(ns, c, past) && ns[|ns| - 1] == n
  }

  lemma {:induction false} ReachNext(w: M.World, n: Node, act: Act, n': Node, valid: string -> bool, c: string, past: iset<ChannelPolicy>)
    requires Reached(w, n, valid, c, past) && w.cfg.Valid() && Next(w, n, act, valid) == Some(n') && !act.Ingest?
    requires PolicyOf(n'.control.channels, c) in past
    ensures Reached(w, n', valid, c, past)
  {
    var ns: seq<Node>, acts: seq<Act> :| IsRun(w, ns, acts, valid) && OwnWriters(acts) && Within(ns, c, past) && ns[|ns| - 1] == n;
    var more, longer := ns + [n'], acts + [act];
    forall i | 0 <= i < |longer| ensures Next(w, more[i], longer[i], valid) == Some(more[i + 1]) {
      if i < |acts| {
        assert Next(w, ns[i], acts[i], valid) == Some(ns[i + 1]);
      }
    }
    assert IsRun(w, more, longer, valid) && Within(more, c, past) && more[|more| - 1] == n';
  }

  /** The snapshot of a table with one row, at revision `r` of owner "e". */
  function OneChannel(r: I64, c: string, p: ChannelPolicy): Snapshot {
    Snapshot("e", r, [RowFor(c, p)], [])
  }

  ghost predicate HasOnly(control: Control, r: int, c: string, p: ChannelPolicy) {
    control.epoch == Some("e") && control.revision == r && control.channels == map[c := p]
  }

  lemma {:induction false} TakesOneChannel(control: Control, r: I64, c: string, p: ChannelPolicy, valid: string -> bool)
    requires control.epoch.None? || (control.epoch == Some("e") && control.revision < r)
    requires r > 0 && valid(c) && (forall x <- control.channels :: x == c && control.channels[x].purgedAt <= p.purgedAt) && 0 <= p.purgedAt
    ensures ReceiptOf(control, OneChannel(r, c, p), valid) == Installed && HasOnly(Received(control, OneChannel(r, c, p), valid), r, c, p)
  {
    Cluster.OneRow(c, p);
    var s := OneChannel(r, c, p);
    assert Acceptable(s.channels[0], control.channels, valid);
    assert s.channels[0] in s.channels;
  }

  /** From a node without work: it receives a policy of one channel, applies it and is ready. */
  lemma {:induction false} Takes(w: M.World, n: Node, r: I64, c: string, p: ChannelPolicy, valid: string -> bool, past: iset<ChannelPolicy>) returns (n': Node)
    requires Reached(w, n, valid, c, past) && w.cfg.Valid() && valid(c) && 0 < r && 0 <= p.purgedAt && p in past
    requires n.web.Some? && n.web.value.applying.None? && n.web.value.job.Idle? && n.ingest.mem.None?
    requires n.control.epoch.None? || (n.control.epoch == Some("e") && n.control.revision < r)
    requires forall x <- n.control.channels :: x == c && n.control.channels[x].purgedAt <= p.purgedAt
    requires var cache := Loaded(n.web.value.cache, n.applied, c); !InForce(cache, c, p) && PurgeOf(cache, c) <= p.purgedAt
    ensures Reached(w, n', valid, c, past) && n'.web.Some? && n'.web.value.applying.None? && n'.web.value.job.Idle? && n'.ingest.mem.None?
    ensures HasOnly(n'.control, r, c, p) && n'.control.initialized
    ensures n'.web.value.seen == n.web.value.seen && n'.web.value.cache == Loaded(n.web.value.cache, n.applied, c)[c := p]
    ensures n'.applied == n.applied[c := p]
  {
    TakesOneChannel(n.control, r, c, p, valid);
    var web := n.web.value;
    var a := n.(control := Received(n.control, OneChannel(r, c, p), valid), web := Some(web.(job := Reading)));
    ReachNext(w, n, Deliver(OneChannel(r, c, p)), a, valid, c, past);
    var b := a.(web := Some(web.(job := Todo([(c, p)]))));
    ReachNext(w, a, ReadPolicies([(c, p)]), b, valid, c, past);
    n' := AppliesAndMarks(w, b, c, p, valid, past);
  }

  lemma {:induction false} AppliesAndMarks(w: M.World, b: Node, c: string, p: ChannelPolicy, valid: string -> bool, past: iset<ChannelPolicy>) returns (n': Node)
    requires Reached(w, b, valid, c, past) && w.cfg.Valid() && b.ingest.mem.None?
    requires b.web.Some? && b.web.value.applying.None? && b.web.value.job == Todo([(c, p)])
    requires var cache := Loaded(b.web.value.cache, b.applied, c); !InForce(cache, c, p) && PurgeOf(cache, c) <= p.purgedAt
    ensures Reached(w, n', valid, c, past) && n'.ingest.mem.None? && n'.control == b.control.(initialized := true)
    ensures n'.applied == b.applied[c := p]
    ensures n'.web == Some(b.web.value.(cache := Loaded(b.web.value.cache, b.applied, c)[c := p], job := Idle))
  {
    var cache := Loaded(b.web.value.cache, b.applied, c);
    var a := Applying(c, p, PurgeOf(cache, c), Blocking, true);
    var d := b.(web := Some(b.web.value.(cache := cache, applying := Some(a))));
    ReachNext(w, b, Apply(c, p, true), d, valid, c, past);
    var h := Completes(w, d, a, valid, c, past);
    assert [(c, p)][1..] == [];
    n' := h.(control := h.control.(initialized := true), web := Some(h.web.value.(job := Idle)));
    ReachNext(w, h, MarkReady, n', valid, c, past);
  }

  /** An apply of a job goes through all its transactions. */
  lemma {:induction false} Completes(w: M.World, d: Node, a: Applying, valid: string -> bool, c: string, past: iset<ChannelPolicy>) returns (h: Node)
    requires Reached(w, d, valid, c, past) && w.cfg.Valid() && d.web.Some? && d.web.value.applying == Some(a) && d.ingest.mem.None?
    requires a.stage.Blocking? && a.forJob
    ensures Reached(w, h, valid, c, past) && h.ingest.mem.None? && h.control == d.control && h.applied == d.applied[a.channel := a.policy]
    ensures h.web == Some(d.web.value.(cache := d.web.value.cache[a.channel := a.policy], applying := None, job := Popped(d.web.value.job)))
  {
    var e := GoesOn(w, d, valid, c, past);
    if AfterBlocking(a).stage.Purging? {
      var f := GoesOn(w, e, valid, c, past);
      e := GoesOn(w, f, valid, c, past);
    }
    h := GoesOn(w, e, valid, c, past);
  }

  /** The next transaction of an apply never fails without an error. */
  lemma {:induction false} GoesOn(w: M.World, n: Node, valid: string -> bool, c: string, past: iset<ChannelPolicy>) returns (n': Node)
    requires Reached(w, n, valid, c, past) && w.cfg.Valid() && n.web.Some? && n.web.value.applying.Some? && n.ingest.mem.None?
    ensures Proceeded(w, n, n.web.value, n.web.value.applying.value) == Some(n')
    ensures Reached(w, n', valid, c, past) && n'.ingest.mem.None?
    ensures n.web.value.applying.value.stage.Blocking? ==>
              n'.ingest.store == SetBlocked(n.ingest.store, n.web.value.applying.value.channel, n.web.value.applying.value.policy.ignored)
  {
    n' := Proceeded(w, n, n.web.value, n.web.value.applying.value).value;
    ReachNext(w, n, Proceed, n', valid, c, past);
  }

  lemma {:induction false} Started(w: M.World, valid: string -> bool, c: string, past: iset<ChannelPolicy>) returns (n: Node)
    requires w.cfg.Valid() && MI.Collisionless(w) && DEFAULT_POLICY in past
    ensures Reached(w, n, valid, c, past) && n.control == BLANK && n.applied == map[] && n.ingest.mem.None?
    ensures n.web == Some(Web(map[], {}, None, Idle))
  {
    assert PolicyOf(NEW_NODE.control.channels, c) == DEFAULT_POLICY;
    assert IsRun(w, [NEW_NODE], [], valid) && OwnWriters([]) && Within([NEW_NODE], c, past);
    assert Reached(w, NEW_NODE, valid, c, past) by { assert [NEW_NODE][|[NEW_NODE]| - 1] == NEW_NODE; }
    var s := M.Step(w, M.START, M.SyncBlockedChannels([])).value;
    n := NEW_NODE.(ingest := s, web := Some(Web(map[], {}, None, Idle)));
    ReachNext(w, NEW_NODE, Start([]), n, valid, c, past);
  }

  /** A node without work that a request has read `stale` from, and that never held another policy of the channel than the default. */
  lemma {:induction false} HasRead(w: M.World, c: string, stale: ChannelPolicy, valid: string -> bool, past: iset<ChannelPolicy>) returns (n: Node)
    requires w.cfg.Valid() && MI.Collisionless(w) && valid(c) && DEFAULT_POLICY in past && stale in past && 0 <= stale.purgedAt
    ensures Reached(w, n, valid, c, past) && n.ingest.mem.None? && n.web.Some? && n.web.value.applying.None? && n.web.value.job.Idle?
    ensures (c, stale) in n.web.value.seen && PolicyOf(n.control.channels, c) == stale
    ensures n.control == BLANK || HasOnly(n.control, 1, c, stale)
    ensures var cache := Loaded(n.web.value.cache, n.applied, c); if n.control == BLANK then c !in cache else c in cache && cache[c] == stale
    ensures n.control == BLANK ==> stale == DEFAULT_POLICY
  {
    var a := Started(w, valid, c, past);
    if stale != DEFAULT_POLICY {
      a := Takes(w, a, 1, c, stale, valid, past);
    }
    n := a.(web := Some(a.web.value.(seen := a.web.value.seen + {(c, stale)})));
    ReachNext(w, a, GateRead(c), n, valid, c, past);
  }

  /**
   * For any two policies of one purge time and different flags there is a run, without any crash or
   * error, on which the tables hold no others but the default, to a ready node with the wrong flag: a
   * request reads the first, the node takes the second and is ready, the request applies what it read.
   */
  lemma {:induction false} EqualTimesDisagree(w: M.World, c: string, stale: ChannelPolicy, fresher: ChannelPolicy, valid: string -> bool,
                                              past: iset<ChannelPolicy>) returns (n: Node)
    requires w.cfg.Valid() && MI.Collisionless(w) && valid(c) && DEFAULT_POLICY in past && stale in past && fresher in past
    requires 0 <= stale.purgedAt == fresher.purgedAt && stale.ignored != fresher.ignored
    ensures Reached(w, n, valid, c, past) && n.control.initialized && HasOnly(n.control, 2, c, fresher)
    ensures c in n.ingest.store.blocked <==> !fresher.ignored
  {
    var b := HasRead(w, c, stale, valid, past);
    var d := Takes(w, b, 2, c, fresher, valid, past);
    var e := d.(web := Some(d.web.value.(applying := Some(Applying(c, stale, fresher.purgedAt, Blocking, false)))));
    ReachNext(w, d, Apply(c, stale, false), e, valid, c, past);
    n := GoesOn(w, e, valid, c, past);
  }

  /**
   * The exact condition on what the tables of a node ever hold of a channel: every ready node is
   * right about blocking it exactly when no two of these policies have one purge time and different
   * flags.
   */
  lemma {:induction false} FlagIsRightExactly(w: M.World, c: string, valid: string -> bool, past: iset<ChannelPolicy>)
    requires w.cfg.Valid() && MI.Collisionless(w) && valid(c) && DEFAULT_POLICY in past
    ensures (forall n :: Reached(w, n, valid, c, past) && n.control.initialized ==>
                           Agrees(n.ingest.store, c, PolicyOf(n.control.channels, c)))
       <==> (forall p, q :: p in past && q in past && 0 <= p.purgedAt == q.purgedAt ==> p.ignored == q.ignored)
  {
    if forall p, q :: p in past && q in past && 0 <= p.purgedAt == q.purgedAt ==> p.ignored == q.ignored {
      forall n | Reached(w, n, valid, c, past) && n.control.initialized ensures Agrees(n.ingest.store, c, PolicyOf(n.control.channels, c)) {
        RightWithin(w, n, valid, c, past);
      }
    } else {
      var p, q :| p in past && q in past && 0 <= p.purgedAt == q.purgedAt && p.ignored != q.ignored;
      var n := EqualTimesDisagree(w, c, p, q, valid, past);
      assert !Agrees(n.ingest.store, c, PolicyOf(n.control.channels, c));
    }
  }

  lemma {:induction false} RightWithin(w: M.World, n: Node, valid: string -> bool, c: string, past: iset<ChannelPolicy>)
    requires w.cfg.Valid() && Reached(w, n, valid, c, past) && n.control.initialized
    requires forall p, q :: p in past && q in past && 0 <= p.purgedAt == q.purgedAt ==> p.ignored == q.ignored
    ensures Agrees(n.ingest.store, c, PolicyOf(n.control.channels, c))
  {
    var ns: seq<Node>, acts: seq<Act> :| IsRun(w, ns, acts, valid) && OwnWriters(acts) && Within(ns, c, past) && ns[|ns| - 1] == n;
    forall k | 0 <= k < |ns| ensures PolicyOf(ns[k].control.channels, c) in past && PolicyOf(ns[k].control.channels, c).purgedAt >= 0 {
      RunInv(w, ns, acts, valid, k);
    }
    FlagIsRightIfTimesDiffer(w, ns, acts, valid, |ns| - 1, c);
  }

  /**
   * An owner makes such tables by two opt-out mutations at one reading of its clock, and a replica
   * that receives its snapshots ends ready with the wrong flag, in either direction.
   */
  lemma {:induction false} ReadyCanDisagree(w: M.World, c: string, at: I64, ignored: bool, valid: string -> bool) returns (n: Node)
    requires w.cfg.Valid() && MI.Collisionless(w) && valid(c) && Lower(c) == c && at >= 0
    ensures var owner := BLANK.(epoch := Some("e"), initialized := true);
            var first := Mutated(owner, Ignore(c, !ignored), at).value;
            var second := Mutated(first, Ignore(c, ignored), at).value;
            var history := map[0 := owner, 1 := first, 2 := second];
            && Cluster.Recorded(second, history)
            && Cluster.Genuine(OneChannel(1, c, PolicyOf(first.channels, c)), second, history)
            && Cluster.Genuine(OneChannel(2, c, PolicyOf(second.channels, c)), second, history)
            && n.control.channels == second.channels && n.control.revision == second.revision && n.control.epoch == second.epoch
    ensures Reached(w, n, valid, c, iset{DEFAULT_POLICY, ChannelPolicy(!ignored, false, at), ChannelPolicy(ignored, false, at)}) && n.control.initialized
    ensures !Agrees(n.ingest.store, c, PolicyOf(n.control.channels, c)) && PolicyOf(n.control.channels, c).ignored == ignored
  {
    var stale, fresher := ChannelPolicy(!ignored, false, at), ChannelPolicy(ignored, false, at);
    OwnerTables(c, at, ignored);
    n := EqualTimesDisagree(w, c, stale, fresher, valid, iset{DEFAULT_POLICY, ChannelPolicy(!ignored, false, at), ChannelPolicy(ignored, false, at)});
  }

  lemma {:induction false} OwnerTables(c: string, at: I64, ignored: bool)
    requires Lower(c) == c
    ensures var owner := BLANK.(epoch := Some("e"), initialized := true);
            var first := Mutated(owner, Ignore(c, !ignored), at).value;
            var second := Mutated(first, Ignore(c, ignored), at).value;
            var history := map[0 := owner, 1 := first, 2 := second];
            && first.channels == map[c := ChannelPolicy(!ignored, false, at)] && second.channels == map[c := ChannelPolicy(ignored, false, at)]
            && second.revision == 2 && second.epoch == Some("e") && Cluster.Recorded(second, history)
            && Cluster.Genuine(OneChannel(1, c, PolicyOf(first.channels, c)), second, history)
            && Cluster.Genuine(OneChannel(2, c, PolicyOf(second.channels, c)), second, history)
  {
    var owner := BLANK.(epoch := Some("e"), initialized := true);
    var first := Mutated(owner, Ignore(c, !ignored), at).value;
    var second := Mutated(first, Ignore(c, ignored), at).value;
    assert map[c := ChannelPolicy(!ignored, false, at)][c := ChannelPolicy(ignored, false, at)] == map[c := ChannelPolicy(ignored, false, at)];
    Cluster.OneRow(c, ChannelPolicy(!ignored, false, at));
    Cluster.OneRow(c, ChannelPolicy(ignored, false, at));
    Cluster.WriteRecorded(owner, map[0 := owner], Ignore(c, !ignored), at);
    Cluster.WriteRecorded(first, map[0 := owner][1 := first], Ignore(c, ignored), at);
    assert map[0 := owner][1 := first][2 := second] == map[0 := owner, 1 := first, 2 := second];
  }
}
