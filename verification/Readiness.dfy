/**
 * A replica node: three databases (control tables, applied policies, blocks), what the web process
 * keeps in memory, and a crash possible between any two transactions. Marked ready means applied.
 */
module Readiness {
  import opened Records
  import opened Tables
  import opened Invariants
  import opened Journal
  import opened Policy
  import M = Machine
  import MI = MachineInvariant
  import MS = MachineSteps
  import MT = MachineTheorems

  type Policies = map<string, ChannelPolicy>

  /** Where an `apply` stands; it holds the lock of the applied policies all along. */
  datatype Stage = Blocking | Purging | Clearing | Recording

  datatype Applying = Applying(channel: string, policy: ChannelPolicy, previous: I64, stage: Stage, forJob: bool)

  /** The holder of the receive lock: it reads the policies, applies them in turn, marks the node ready. */
  datatype Job = Idle | Reading | Todo(rows: seq<(string, ChannelPolicy)>)

  datatype Web = Web(
    cache: Policies,
    seen: set<(string, ChannelPolicy)>,   // policies that requests have read, perhaps long ago
    applying: Option<Applying>,
    job: Job)

  datatype Node = Node(ingest: M.State, control: Control, applied: Policies, web: Option<Web>)

  datatype Act =
    | Start(listed: seq<string>)     // unblock and block by the replica's tables, then resume a pending state
    | Deliver(s: Snapshot)
    | ReadPolicies(rows: seq<(string, ChannelPolicy)>)
    | GateRead(channel: string)
    | Apply(channel: string, policy: ChannelPolicy, forJob: bool)
    | Proceed
    | Fail                           // an error in the current apply
    | Abandon                        // an error in the current job
    | MarkReady
    | Ingest(act: M.Act)             // any step of durable ingest and of other writers of the blocks
    | Crash

  ghost predicate ListsPolicies(rows: seq<(string, ChannelPolicy)>, channels: Policies) {
    && (forall r <- rows :: r.0 in channels && channels[r.0] == r.1)
    && forall c <- channels :: (c, channels[c]) in rows
  }

  function Loaded(cache: Policies, applied: Policies, channel: string): Policies {
    if channel !in cache && channel in applied then cache[channel := applied[channel]] else cache
  }

  function Popped(job: Job): Job {
    if job.Todo? && job.rows != [] then Todo(job.rows[1..]) else job
  }

  /** Nothing would change: the policy is the applied one, or a default nobody changed. */
  predicate InForce(applied: Policies, channel: string, policy: ChannelPolicy) {
    (channel in applied && applied[channel] == policy) || (policy == DEFAULT_POLICY && channel !in applied)
  }

  /** The start of `apply`: nothing to do, refused as stale, or the first of its transactions is next. */
  function Begun(web: Web, applied: Policies, channel: string, policy: ChannelPolicy, forJob: bool): Web {
    var cache := Loaded(web.cache, applied, channel);
    var w := web.(cache := cache);
    if InForce(cache, channel, policy) then
      if forJob then w.(job := Popped(web.job)) else w
    else if policy.purgedAt < PurgeOf(cache, channel) then
      if forJob then w.(job := Idle) else w
    else w.(applying := Some(Applying(channel, policy, PurgeOf(cache, channel), Blocking, forJob)))
  }

  function AfterBlocking(a: Applying): Applying {
    a.(stage := if a.policy.ignored || a.policy.purgedAt > a.previous then Purging else Recording)
  }

  /** The next transaction of the current apply. */
  ghost function Proceeded(w: M.World, n: Node, web: Web, a: Applying): Option<Node>
    requires w.cfg.Valid()
  {
    match a.stage
    case Blocking =>
      var s := M.Step(w, n.ingest, M.BlockChannel(a.channel, a.policy.ignored));
      if s.Some? then Some(n.(ingest := s.value, web := Some(web.(applying := Some(AfterBlocking(a)))))) else None
    case Purging =>
      var s := M.Step(w, n.ingest, M.PurgeChannel(a.channel, a.policy.purgedAt));
      if s.Some? then Some(n.(ingest := s.value, web := Some(web.(applying := Some(a.(stage := Clearing)))))) else None
    case Clearing =>
      var s := if n.ingest.mem.Some? then M.Step(w, n.ingest, M.PurgeTail(a.channel)) else Some(n.ingest);
      if s.Some? then Some(n.(ingest := s.value, web := Some(web.(applying := Some(a.(stage := Recording)))))) else None
    case Recording =>
      Some(n.(applied := n.applied[a.channel := a.policy],
              web := Some(web.(cache := web.cache[a.channel := a.policy], applying := None,
                               job := if a.forJob then Popped(web.job) else web.job))))
  }

  ghost function Next(w: M.World, n: Node, act: Act, valid: string -> bool): Option<Node>
    requires w.cfg.Valid()
  {
    match act
    case Crash =>
      var s := M.Step(w, n.ingest, M.Crash);
      if s.Some? then Some(n.(ingest := s.value, web := None)) else None
    case Ingest(a) =>
      var s := M.Step(w, n.ingest, a);
      if a != M.Crash && s.Some? then Some(n.(ingest := s.value)) else None
    case Start(listed) =>
      var s := M.Step(w, n.ingest, M.SyncBlockedChannels(listed));
      if n.web.None? && s.Some? && (forall c :: c in listed <==> c in n.control.channels && n.control.channels[c].ignored)
      then Some(n.(ingest := s.value, web := Some(Web(map[], {}, None, if n.control.epoch.Some? then Reading else Idle))))
      else None
    case _ => if n.web.Some? then WebStep(w, n, n.web.value, act, valid) else None
  }

  ghost function WebStep(w: M.World, n: Node, web: Web, act: Act, valid: string -> bool): Option<Node>
    requires w.cfg.Valid()
  {
    match act
    case Deliver(s) =>
      if web.job.Idle? then
        Some(n.(control := Received(n.control, s, valid),
                web := Some(web.(job := if ReceiptOf(n.control, s, valid) == Refused then Idle else Reading))))
      else None
    case ReadPolicies(rows) =>
      if web.job.Reading? && ListsPolicies(rows, n.control.channels) then Some(n.(web := Some(web.(job := Todo(rows))))) else None
    case GateRead(channel) =>
      Some(n.(web := Some(web.(seen := web.seen + {(channel, PolicyOf(n.control.channels, channel))}))))
    case Apply(channel, policy, forJob) =>
      if web.applying.None? && (if forJob then web.job.Todo? && web.job.rows != [] && web.job.rows[0] == (channel, policy)
                                else (channel, policy) in web.seen)
      then Some(n.(web := Some(Begun(web, n.applied, channel, policy, forJob)))) else None
    case Proceed => if web.applying.Some? then Proceeded(w, n, web, web.applying.value) else None
    case Fail =>
      if web.applying.Some? then
        Some(n.(web := Some(web.(applying := None, job := if web.applying.value.forJob then Idle else web.job))))
      else None
    case Abandon => if ForJob(web.applying) then None else Some(n.(web := Some(web.(job := Idle))))
    case MarkReady =>
      if web.job == Todo([]) && !ForJob(web.applying)
      then Some(n.(control := n.control.(initialized := true), web := Some(web.(job := Idle)))) else None
    case _ => None
  }

  predicate ForJob(applying: Option<Applying>) { applying.Some? && applying.value.forJob }

  /* ---------- invariant ---------- */

  /** The block store has a purge cutoff for the channel no earlier than `at`. */
  predicate Cut(cutoffs: map<string, int>, channel: string, at: int) {
    at > 0 ==> channel in cutoffs && cutoffs[channel] >= at
  }

  ghost predicate AllCut(cutoffs: map<string, int>, channels: Policies) {
    forall c: string :: Cut(cutoffs, c, PurgeOf(channels, c))
  }

  /** The current apply: what it purged stays purged, and it never goes back. */
  ghost predicate ApplyingOk(cutoffs: map<string, int>, control: Control, a: Applying, job: Job) {
    && Cut(cutoffs, a.channel, a.previous) && 0 <= a.previous <= a.policy.purgedAt <= PurgeOf(control.channels, a.channel)
    && (a.stage != Blocking && a.stage != Purging ==> Cut(cutoffs, a.channel, a.policy.purgedAt))
    && (a.forJob ==> job.Todo? && job.rows != [] && job.rows[0] == (a.channel, a.policy))
  }

  /** What is left of a job covers every channel whose purge the block store does not have yet. */
  ghost predicate JobOk(cutoffs: map<string, int>, control: Control, job: Job) {
    job.Todo? ==>
      && (forall r <- job.rows :: r.0 in control.channels && control.channels[r.0] == r.1)
      && forall c <- control.channels :: (c, control.channels[c]) in job.rows || Cut(cutoffs, c, control.channels[c].purgedAt)
  }

  ghost predicate WebOk(cutoffs: map<string, int>, control: Control, applied: Policies, web: Web) {
    && (forall c <- web.cache :: c in applied && applied[c] == web.cache[c])
    && (forall r <- web.seen :: r.1.purgedAt <= PurgeOf(control.channels, r.0))
    && (web.applying.Some? ==> ApplyingOk(cutoffs, control, web.applying.value, web.job))
    && JobOk(cutoffs, control, web.job)
  }

  ghost predicate PolicyInv(cutoffs: map<string, int>, control: Control, applied: Policies, web: Option<Web>) {
    && NonNegative(control.channels) && NonNegative(applied)
    && PolicyRises(applied, control.channels)
    && AllCut(cutoffs, applied)
    && (control.initialized ==> AllCut(cutoffs, control.channels))
    && (web.Some? ==> WebOk(cutoffs, control, applied, web.value))
  }

  ghost predicate NodeInv(w: M.World, n: Node) {
    MI.Inv(w, n.ingest) && PolicyInv(n.ingest.store.cutoffs, n.control, n.applied, n.web)
  }

  ghost predicate CutoffsRise(a: map<string, int>, b: map<string, int>) {
    forall c <- a :: c in b && b[c] >= a[c]
  }

  lemma {:induction false} CutsStay(a: map<string, int>, b: map<string, int>, control: Control, applied: Policies, web: Option<Web>)
    requires CutoffsRise(a, b) && PolicyInv(a, control, applied, web)
    ensures PolicyInv(b, control, applied, web)
  {
    forall c: string, at: int | Cut(a, c, at) ensures Cut(b, c, at) {}
  }

  lemma {:induction false} IngestKeeps(w: M.World, n: Node, act: M.Act, s: M.State)
    requires NodeInv(w, n) && MI.Collisionless(w) && M.Step(w, n.ingest, act) == Some(s)
    ensures NodeInv(w, n.(ingest := s))
  {
    MS.StepInv(w, n.ingest, act, s);
    MT.StepRises(w, n.ingest, act, s);
    CutsStay(n.ingest.store.cutoffs, s.store.cutoffs, n.control, n.applied, n.web);
  }

  lemma {:induction false} DeliverKeeps(cutoffs: map<string, int>, control: Control, applied: Policies, web: Web, s: Snapshot, valid: string -> bool)
    requires PolicyInv(cutoffs, control, applied, Some(web)) && web.job.Idle?
    ensures PolicyInv(cutoffs, Received(control, s, valid), applied,
                      Some(web.(job := if ReceiptOf(control, s, valid) == Refused then Idle else Reading)))
  {
    ReceiveRises(control, s, valid);
    var after := Received(control, s, valid);
    forall c: string ensures PurgeOf(applied, c) <= PurgeOf(after.channels, c) {
      assert PurgeOf(applied, c) <= PurgeOf(control.channels, c);
    }
  }

  lemma {:induction false} LoadedOk(cutoffs: map<string, int>, control: Control, applied: Policies, web: Web, channel: string)
    requires PolicyInv(cutoffs, control, applied, Some(web))
    ensures var cache := Loaded(web.cache, applied, channel);
            && WebOk(cutoffs, control, applied, web.(cache := cache))
            && Cut(cutoffs, channel, PurgeOf(cache, channel))
            && PurgeOf(cache, channel) <= PurgeOf(control.channels, channel)
  {
    assert PurgeOf(applied, channel) <= PurgeOf(control.channels, channel);
    assert Cut(cutoffs, channel, PurgeOf(applied, channel));
  }

  lemma {:induction false} PopKeeps(cutoffs: map<string, int>, control: Control, job: Job)
    requires JobOk(cutoffs, control, job) && job.Todo? && job.rows != []
    requires Cut(cutoffs, job.rows[0].0, job.rows[0].1.purgedAt)
    ensures JobOk(cutoffs, control, Popped(job))
  {
    forall c | c in control.channels && (c, control.channels[c]) !in job.rows[1..] ensures Cut(cutoffs, c, control.channels[c].purgedAt) {
      assert job.rows == [job.rows[0]] + job.rows[1..];
    }
  }

  lemma {:induction false} ApplyKeeps(cutoffs: map<string, int>, control: Control, applied: Policies, web: Web,
                                      channel: string, policy: ChannelPolicy, forJob: bool)
    requires PolicyInv(cutoffs, control, applied, Some(web)) && web.applying.None?
    requires if forJob then web.job.Todo? && web.job.rows != [] && web.job.rows[0] == (channel, policy) else (channel, policy) in web.seen
    ensures PolicyInv(cutoffs, control, applied, Some(Begun(web, applied, channel, policy, forJob)))
  {
    LoadedOk(cutoffs, control, applied, web, channel);
    if forJob && Cut(cutoffs, channel, policy.purgedAt) {
      PopKeeps(cutoffs, control, web.job);
    }
    assert forJob ==> (channel, policy) in web.job.rows;
  }

  lemma {:induction false} RecordKeeps(cutoffs: map<string, int>, control: Control, applied: Policies, web: Web, a: Applying)
    requires PolicyInv(cutoffs, control, applied, Some(web)) && web.applying == Some(a) && a.stage == Recording
    ensures PolicyInv(cutoffs, control, applied[a.channel := a.policy],
                      Some(web.(cache := web.cache[a.channel := a.policy], applying := None,
                                job := if a.forJob then Popped(web.job) else web.job)))
  {
    var after := applied[a.channel := a.policy];
    forall c: string ensures Cut(cutoffs, c, PurgeOf(after, c)) && PurgeOf(after, c) <= PurgeOf(control.channels, c) {
      assert Cut(cutoffs, c, PurgeOf(applied, c)) && PurgeOf(applied, c) <= PurgeOf(control.channels, c);
    }
    if a.forJob {
      PopKeeps(cutoffs, control, web.job);
    }
  }

  lemma {:induction false} StageKeeps(cutoffs: map<string, int>, control: Control, applied: Policies, web: Web, a: Applying, next: Stage)
    requires PolicyInv(cutoffs, control, applied, Some(web)) && web.applying == Some(a)
    requires next == Clearing || next == Recording ==> Cut(cutoffs, a.channel, a.policy.purgedAt)
    ensures PolicyInv(cutoffs, control, applied, Some(web.(applying := Some(a.(stage := next)))))
  {
  }

  lemma {:induction false} BlockingKeeps(w: M.World, n: Node, web: Web, a: Applying, n': Node)
    requires NodeInv(w, n) && MI.Collisionless(w) && n.web == Some(web) && web.applying == Some(a)
    requires Proceeded(w, n, web, a) == Some(n') && a.stage.Blocking?
    ensures NodeInv(w, n')
  {
    IngestKeeps(w, n, M.BlockChannel(a.channel, a.policy.ignored), n'.ingest);
    StageKeeps(n'.ingest.store.cutoffs, n.control, n.applied, web, a, AfterBlocking(a).stage);
  }

  lemma {:induction false} PurgingKeeps(w: M.World, n: Node, web: Web, a: Applying, n': Node)
    requires NodeInv(w, n) && MI.Collisionless(w) && n.web == Some(web) && web.applying == Some(a)
    requires Proceeded(w, n, web, a) == Some(n') && a.stage.Purging?
    ensures NodeInv(w, n')
  {
    IngestKeeps(w, n, M.PurgeChannel(a.channel, a.policy.purgedAt), n'.ingest);
    StageKeeps(n'.ingest.store.cutoffs, n.control, n.applied, web, a, Clearing);
  }

  lemma {:induction false} ClearingKeeps(w: M.World, n: Node, web: Web, a: Applying, n': Node)
    requires NodeInv(w, n) && MI.Collisionless(w) && n.web == Some(web) && web.applying == Some(a)
    requires Proceeded(w, n, web, a) == Some(n') && a.stage.Clearing?
    ensures NodeInv(w, n')
  {
    if n.ingest.mem.Some? {
      IngestKeeps(w, n, M.PurgeTail(a.channel), n'.ingest);
    }
    StageKeeps(n'.ingest.store.cutoffs, n.control, n.applied, web, a, Recording);
  }

  lemma {:induction false} ProceedKeeps(w: M.World, n: Node, web: Web, a: Applying, n': Node)
    requires NodeInv(w, n) && MI.Collisionless(w) && n.web == Some(web) && web.applying == Some(a)
    requires Proceeded(w, n, web, a) == Some(n')
    ensures NodeInv(w, n')
  {
    match a.stage {
      case Blocking => BlockingKeeps(w, n, web, a, n');
      case Purging => PurgingKeeps(w, n, web, a, n');
      case Clearing => ClearingKeeps(w, n, web, a, n');
      case Recording => RecordKeeps(n'.ingest.store.cutoffs, n.control, n.applied, web, a);
    }
  }

  /** Steps of the store and its writer. */
  lemma {:induction false} StoreActKeeps(w: M.World, n: Node, act: Act, valid: string -> bool, n': Node)
    requires NodeInv(w, n) && MI.Collisionless(w) && Next(w, n, act, valid) == Some(n')
    requires act.Crash? || act.Ingest? || act.Start?
    ensures NodeInv(w, n')
  {
    match act {
      case Crash => IngestKeeps(w, n, M.Crash, n'.ingest);
      case Ingest(a) => IngestKeeps(w, n, a, n'.ingest);
      case Start(listed) => IngestKeeps(w, n, M.SyncBlockedChannels(listed), n'.ingest);
    }
  }

  lemma {:induction false} NextInv(w: M.World, n: Node, act: Act, valid: string -> bool, n': Node)
    requires NodeInv(w, n) && MI.Collisionless(w) && Next(w, n, act, valid) == Some(n')
    ensures NodeInv(w, n')
  {
    var cutoffs := n.ingest.store.cutoffs;
    match act {
      case Deliver(s) => DeliverKeeps(cutoffs, n.control, n.applied, n.web.value, s, valid);
      case Apply(channel, policy, forJob) => ApplyKeeps(cutoffs, n.control, n.applied, n.web.value, channel, policy, forJob);
      case Proceed => ProceedKeeps(w, n, n.web.value, n.web.value.applying.value, n');
      case MarkReady => AllApplied(cutoffs, n.control, n.web.value.job);
      case Crash => StoreActKeeps(w, n, act, valid, n');
      case Ingest(_) => StoreActKeeps(w, n, act, valid, n');
      case Start(_) => StoreActKeeps(w, n, act, valid, n');
      case _ =>
    }
  }

  /** A job with nothing left has applied every policy. */
  lemma {:induction false} AllApplied(cutoffs: map<string, int>, control: Control, job: Job)
    requires JobOk(cutoffs, control, job) && job == Todo([])
    ensures AllCut(cutoffs, control.channels)
  {
  }

  /* ---------- theorems ---------- */

  const NEW_NODE: Node := Node(M.START, BLANK, map[], None)

  ghost predicate IsRun(w: M.World, ns: seq<Node>, acts: seq<Act>, valid: string -> bool) {
    && w.cfg.Valid() && MI.Collisionless(w)
    && |ns| == |acts| + 1 && ns[0] == NEW_NODE
    && forall i :: 0 <= i < |acts| ==> Next(w, ns[i], acts[i], valid) == Some(ns[i + 1])
  }

  lemma {:induction false} RunInv(w: M.World, ns: seq<Node>, acts: seq<Act>, valid: string -> bool, i: nat)
    requires IsRun(w, ns, acts, valid) && i < |ns|
    ensures NodeInv(w, ns[i])
  {
    if i == 0 {
      MT.RunInv(w, [M.START], [], 0);
    } else {
      RunInv(w, ns, acts, valid, i - 1);
      NextInv(w, ns[i - 1], acts[i - 1], valid, ns[i]);
    }
  }

  lemma {:induction false} CutHides(w: M.World, n: Node, channel: string, at: int, r: Record)
    requires MI.Inv(w, n.ingest) && Cut(n.ingest.store.cutoffs, channel, at) && at > 0
    requires r in Held(n.ingest.store.blocks, channel)
    ensures r.receivedAt > at
  {
    assert ChannelInv(n.ingest.store, w.cfg, channel, w.stamp);
  }

  /**
   * Marked ready means applied, whatever crashed or failed in between: the block store's cutoff of
   * every channel is at least the purge time in the replica's tables, and no purged record is stored.
   */
  lemma {:induction false} ReadyMeansApplied(w: M.World, ns: seq<Node>, acts: seq<Act>, valid: string -> bool, i: nat, channel: string)
    requires IsRun(w, ns, acts, valid) && i < |ns| && ns[i].control.initialized
    ensures var n := ns[i]; var at := PurgeOf(n.control.channels, channel);
            at > 0 ==> && channel in n.ingest.store.cutoffs && n.ingest.store.cutoffs[channel] >= at as int
                       && forall r <- Held(n.ingest.store.blocks, channel) :: r.receivedAt > at as int
  {
    RunInv(w, ns, acts, valid, i);
    var n := ns[i];
    assert Cut(n.ingest.store.cutoffs, channel, PurgeOf(n.control.channels, channel));
    if PurgeOf(n.control.channels, channel) > 0 {
      forall r | r in Held(n.ingest.store.blocks, channel) ensures r.receivedAt > PurgeOf(n.control.channels, channel) as int {
        CutHides(w, n, channel, PurgeOf(n.control.channels, channel), r);
      }
    }
  }

  /** A request that got past the gate sees nothing its policy purged, at whatever time it read that policy. */
  lemma {:induction false} GateHidesPurged(w: M.World, ns: seq<Node>, acts: seq<Act>, valid: string -> bool, i: nat, channel: string, policy: ChannelPolicy)
    requires IsRun(w, ns, acts, valid) && i < |acts| && ns[i].web.Some? && policy.purgedAt > 0
    requires var web := ns[i].web.value;
             || (acts[i] == Apply(channel, policy, false) && InForce(Loaded(web.cache, ns[i].applied, channel), channel, policy))
             || (acts[i] == Proceed && web.applying.Some? && web.applying.value.stage == Recording
                 && web.applying.value.channel == channel && web.applying.value.policy == policy)
    ensures forall j, r :: i < j < |ns| && r in Held(ns[j].ingest.store.blocks, channel) ==> r.receivedAt > policy.purgedAt as int
  {
    RunInv(w, ns, acts, valid, i);
    var cutoffs := ns[i].ingest.store.cutoffs;
    LoadedOk(cutoffs, ns[i].control, ns[i].applied, ns[i].web.value, channel);
    assert Cut(cutoffs, channel, policy.purgedAt);
    forall j, r | i < j < |ns| && r in Held(ns[j].ingest.store.blocks, channel) ensures r.receivedAt > policy.purgedAt as int {
      RunInv(w, ns, acts, valid, j);
      RunCutoffs(w, ns, acts, valid, i, j);
      CutHides(w, ns[j], channel, policy.purgedAt, r);
    }
  }

  lemma {:induction false} NextCutoffs(w: M.World, n: Node, act: Act, valid: string -> bool, n': Node)
    requires NodeInv(w, n) && Next(w, n, act, valid) == Some(n')
    ensures CutoffsRise(n.ingest.store.cutoffs, n'.ingest.store.cutoffs)
  {
    match act {
      case Crash => MT.StepRises(w, n.ingest, M.Crash, n'.ingest);
      case Ingest(a) => MT.StepRises(w, n.ingest, a, n'.ingest);
      case Start(listed) => MT.StepRises(w, n.ingest, M.SyncBlockedChannels(listed), n'.ingest);
      case Proceed =>
        var a := n.web.value.applying.value;
        if a.stage == Blocking {
          MT.StepRises(w, n.ingest, M.BlockChannel(a.channel, a.policy.ignored), n'.ingest);
        } else if a.stage == Purging {
          MT.StepRises(w, n.ingest, M.PurgeChannel(a.channel, a.policy.purgedAt), n'.ingest);
        }
      case _ =>
    }
  }

  lemma {:induction false} RunCutoffs(w: M.World, ns: seq<Node>, acts: seq<Act>, valid: string -> bool, i: nat, j: nat)
    requires IsRun(w, ns, acts, valid) && i <= j < |ns|
    ensures CutoffsRise(ns[i].ingest.store.cutoffs, ns[j].ingest.store.cutoffs)
    decreases j - i
  {
    if i < j {
      RunCutoffs(w, ns, acts, valid, i, j - 1);
      StepCutoffs(w, ns, acts, valid, j - 1);
      CutoffsRiseOn(ns[i].ingest.store.cutoffs, ns[j - 1].ingest.store.cutoffs, ns[j].ingest.store.cutoffs);
    }
  }

  lemma {:induction false} StepCutoffs(w: M.World, ns: seq<Node>, acts: seq<Act>, valid: string -> bool, i: nat)
    requires IsRun(w, ns, acts, valid) && i < |acts|
    ensures CutoffsRise(ns[i].ingest.store.cutoffs, ns[i + 1].ingest.store.cutoffs)
  {
    RunInv(w, ns, acts, valid, i);
    NextCutoffs(w, ns[i], acts[i], valid, ns[i + 1]);
  }

  lemma {:induction false} CutoffsRiseOn(a: map<string, int>, b: map<string, int>, c: map<string, int>)
    requires CutoffsRise(a, b) && CutoffsRise(b, c)
    ensures CutoffsRise(a, c)
  {
  }

  /** Synchronisation never finds a policy older than the one applied: it cannot get stuck on a refusal. */
  lemma {:induction false} JobIsNeverRefused(w: M.World, ns: seq<Node>, acts: seq<Act>, valid: string -> bool, i: nat)
    requires IsRun(w, ns, acts, valid) && i < |acts| && acts[i].Apply? && acts[i].forJob
    ensures ns[i + 1].web.Some? && ns[i + 1].web.value.job.Todo?
  {
    RunInv(w, ns, acts, valid, i);
    assert Next(w, ns[i], acts[i], valid) == Some(ns[i + 1]);
    var n, web := ns[i], ns[i].web.value;
    LoadedOk(n.ingest.store.cutoffs, n.control, n.applied, web, acts[i].channel);
    assert (acts[i].channel, acts[i].policy) in web.job.rows;
  }

  /* ---------- opting out ---------- */

  /** The policy is applied: it is not in force yet, and not older than the one that is. */
  predicate Advancing(applied: Policies, channel: string, policy: ChannelPolicy) {
    !InForce(applied, channel, policy) && policy.purgedAt >= PurgeOf(applied, channel)
  }

  predicate Clears(applied: Policies, channel: string, policy: ChannelPolicy) {
    Advancing(applied, channel, policy) && (policy.ignored || policy.purgedAt > PurgeOf(applied, channel))
  }

  /** The block tables after a whole apply, nothing interrupting it. */
  function Whole(s: Store, applied: Policies, channel: string, policy: ChannelPolicy): Store {
    if !Advancing(applied, channel, policy) then s
    else
      var blocked := SetBlocked(s, channel, policy.ignored);
      if Clears(applied, channel, policy) then Tables.Purge(blocked, channel, policy.purgedAt) else blocked
  }

  ghost predicate Agrees(s: Store, channel: string, policy: ChannelPolicy) {
    channel in s.blocked <==> policy.ignored
  }

  /**
   * A whole apply that is not refused purges. It leaves the channel blocked exactly as its policy
   * says if it had anything to do, or if the flag was right before: a policy in force is not applied
   * again, even when something else has moved the flag since.
   */
  lemma {:induction false} WholeApplies(s: Store, applied: Policies, channel: string, policy: ChannelPolicy)
    requires policy.purgedAt >= PurgeOf(applied, channel) && AllCut(s.cutoffs, applied)
    ensures var after := Whole(s, applied, channel, policy);
            && Cut(after.cutoffs, channel, policy.purgedAt)
            && (Agrees(after, channel, policy) <==> Advancing(applied, channel, policy) || Agrees(s, channel, policy))
  {
    assert Cut(s.cutoffs, channel, PurgeOf(applied, channel));
  }

  /** An apply touches records only to purge: of an ignored channel, or up to a later purge time. It never touches other channels. */
  lemma {:induction false} WholeKeepsRecords(s: Store, applied: Policies, channel: string, policy: ChannelPolicy)
    requires !policy.ignored && policy.purgedAt <= PurgeOf(applied, channel)
    ensures var after := Whole(s, applied, channel, policy); after.blocks == s.blocks && after.channels == s.channels && after.cutoffs == s.cutoffs
  {
  }

  /** Opting out keeps the purge time, which is what lets an older policy pass for current, exactly when the clock is not past it. */
  lemma {:induction false} SamePurgeTime(c: Control, channel: string, ignored: bool, now: I64)
    requires Lower(channel) in c.channels
    ensures var before, after := c.channels, Mutated(c, Ignore(channel, ignored), now).value.channels;
            PurgeOf(after, Lower(channel)) == PurgeOf(before, Lower(channel)) <==> now <= PurgeOf(before, Lower(channel))
  {
  }
}
