/** The storage budget: how much the store may hold, and the passes that bring it back under its high water. */
module Budget {
  import opened Journal
  import opened Tables
  import opened Invariants
  import opened SqliteStore
  import opened BlockStore
  import opened Eviction

  datatype Filesystem = Filesystem(total: nat, available: nat)

  datatype StorageBudget = StorageBudget(
    maxBytes: nat,
    maxPercent: nat,
    minFree: nat,
    walReserve: nat,
    ratios: Ratios,
    floor: nat,
    protectFor: nat,
    passes: nat)
  {
    predicate Valid() {
      maxBytes > 0 && 0 < maxPercent <= 100 && passes > 0 && protectFor > 0 && ValidRatios(ratios)
    }
  }

  datatype BudgetError = InvalidBudget | InconsistentCapacity | Unreachable(error: EvictionError) | Incomplete

  datatype Verdict<T> = Kept(value: T) | Broken(error: BudgetError)

  function Least(a: nat, b: nat): nat { if a < b then a else b }

  function Minus(a: nat, b: nat): nat { if a < b then 0 else a - b }

  /** effective_max_bytes: the strictest of the configured limit, the full of the filesystem and the free space. */
  function EffectiveMax(budget: StorageBudget, current: nat, fs: Filesystem): Verdict<nat> {
    if !budget.Valid() then Broken(InvalidBudget)
    else if fs.total == 0 || fs.available > fs.total then Broken(InconsistentCapacity)
    else
      var percentCap := fs.total * budget.maxPercent / 100;
      var freeCap := Minus(current + fs.available, budget.minFree + budget.walReserve);
      Kept(Least(Least(budget.maxBytes, percentCap), freeCap))
  }

  /** Within the limit the store fits the budget, its full of the disk, and leaves the required space free. */
  lemma {:induction false} EffectiveMaxIsStrictest(budget: StorageBudget, current: nat, fs: Filesystem, size: nat)
    requires EffectiveMax(budget, current, fs).Kept?
    ensures size <= EffectiveMax(budget, current, fs).value <==>
              && size <= budget.maxBytes
              && size * 100 <= fs.total * budget.maxPercent
              && (size == 0 || current + fs.available - size >= budget.minFree + budget.walReserve)
  {
    var product := fs.total * budget.maxPercent;
    assert size <= product / 100 <==> size * 100 <= product;
  }

  /** A row of pressure_blocks: nothing is protected, 384 bytes are added for the row. */
  function MetaOf(s: Store, pinned: set<string>, b: Block): BlockMeta {
    BlockMeta(b.id, b.channel, b.count, b.packed.bytes + 384,
              if b.channel in s.channels && s.channels[b.channel].requested > 0 then s.channels[b.channel].requested else 0,
              if b.last > 0 then b.last else 0, b.channel in pinned, false)
  }

  function PressureBlocks(s: Store, pinned: set<string>): (r: seq<BlockMeta>)
    ensures |r| == |s.blocks| && forall b <- r :: !b.guarded
  {
    seq(|s.blocks|, i requires 0 <= i < |s.blocks| => MetaOf(s, pinned, s.blocks[i]))
  }

  datatype Enforcement = Enforcement(mode: Mode, effective: nat, before: nat, after: nat, evicted: int, passes: nat)

  function AtLeastOne(n: nat): nat { if n == 0 then 1 else n }

  /** What a row offered for eviction says of its block: its payload and 384 bytes for the row, and when its channel was asked for. */
  lemma {:induction false} RowsOffered(s: Store, pinned: set<string>, i: nat)
    requires i < |s.blocks|
    ensures var b, row := s.blocks[i], PressureBlocks(s, pinned)[i];
            && row.id == b.id && row.channel == b.channel && row.count == b.count && row.bytes == b.packed.bytes + 384
            && (row.alwaysJoin <==> b.channel in pinned) && !row.guarded
            && row.lastEvent == (if b.last < 0 then 0 else b.last)
            && row.lastRequested == (if b.channel !in s.channels || s.channels[b.channel].requested < 0 then 0 else s.channels[b.channel].requested)
  {
  }

  /** What one pass measures: the size of the store, the disk, the clock and the pinned channels. */
  datatype Reading = Reading(size: nat, space: Filesystem, now: nat, pinned: set<string>)

  function PolicyAt(budget: StorageBudget, effective: nat, now: nat): Pressure {
    Pressure(AtLeastOne(effective), budget.ratios, budget.floor, Minus(now, budget.protectFor))
  }

  /** The plan of a pass over a store. */
  function PlanAt(s: Store, budget: StorageBudget, effective: nat, m: Reading): Planned {
    PlanOf(Distributed(PressureBlocks(s, m.pinned), m.size), m.size, PolicyAt(budget, effective, m.now))
  }

  function HighWaterOf(budget: StorageBudget, effective: nat): nat
    requires budget.Valid()
  {
    Share(AtLeastOne(effective), budget.ratios.highWater)
  }

  /** What a pass decides: fail, be content, or take the blocks of its plan. */
  datatype Decision = Fail(error: BudgetError) | Content(mode: Mode, effective: nat) | Take(plan: Plan, effective: nat)

  function Decide(s: Store, budget: StorageBudget, m: Reading): Decision
    requires budget.Valid()
  {
    match EffectiveMax(budget, m.size, m.space)
    case Broken(error) => Fail(error)
    case Kept(effective) =>
      if m.size < HighWaterOf(budget, effective) then Content(Normal, effective)
      else match PlanAt(s, budget, effective, m)
        case Unplanned(error) => Fail(Unreachable(error))
        case Planned(plan) => if plan.ids == [] then Content(plan.mode, effective) else Take(plan, effective)
  }

  /**
   * The policy of a pass: the limit, at least one byte, with channels asked for within the protected
   * time as requested.
   */
  lemma {:induction false} PolicyByFields(budget: StorageBudget, limit: nat, now: nat)
    ensures PolicyAt(budget, limit, now) == Pressure(if limit == 0 then 1 else limit, budget.ratios, budget.floor,
                                                     if now < budget.protectFor then 0 else now - budget.protectFor)
  {
  }

  /**
   * A pass under a limit is content below its high water and takes only from there on; what it takes
   * is asked to reach the target of the same limit, with channels asked for within the protected time
   * spared longest.
   */
  lemma {:induction false} DecidesBySize(s: Store, budget: StorageBudget, m: Reading, limit: nat)
    requires budget.Valid() && EffectiveMax(budget, m.size, m.space) == Kept(limit)
    ensures m.size < Share(if limit == 0 then 1 else limit, budget.ratios.highWater) ==> Decide(s, budget, m) == Content(Normal, limit)
    ensures var d := Decide(s, budget, m);
            && (d.Content? || d.Take? ==> d.effective == limit)
            && (d.Take? ==> d.plan.ids != []
                            && Takes(s, m, Pressure(if limit == 0 then 1 else limit, budget.ratios, budget.floor,
                                                    if m.now < budget.protectFor then 0 else m.now - budget.protectFor), d.plan))
  {
    PolicyByFields(budget, limit, m.now);
    TakesPlan(s, budget, limit, m);
  }

  /** Where no limit can be had the pass fails for that reason. */
  lemma {:induction false} FailsWithoutLimit(s: Store, budget: StorageBudget, m: Reading)
    requires budget.Valid() && EffectiveMax(budget, m.size, m.space).Broken?
    ensures Decide(s, budget, m) == Fail(EffectiveMax(budget, m.size, m.space).error)
  {
  }

  /** The plan is what the policy asks for over the blocks of the store. */
  ghost predicate Takes(s: Store, m: Reading, p: Pressure, plan: Plan) {
    PlanOf(Distributed(PressureBlocks(s, m.pinned), m.size), m.size, p) == Planned(plan)
  }

  lemma {:induction false} TakesPlan(s: Store, budget: StorageBudget, limit: nat, m: Reading)
    ensures var planned := PlanAt(s, budget, limit, m); planned.Planned? ==> Takes(s, m, PolicyAt(budget, limit, m.now), planned.plan)
  {
  }

  datatype Passed = Passed(decision: Decision, after: Store)

  /** One pass over a store: decide, and delete the blocks of a plan. */
  function PassOver(s: Store, budget: StorageBudget, m: Reading): Passed
    requires budget.Valid()
  {
    var decision := Decide(s, budget, m);
    Passed(decision, if decision.Take? then Evict(s, decision.plan.ids) else s)
  }

  type Passing = (Store, Reading) -> Passed

  /** These functions are the passes under the budget, and the high water its last check takes. */
  ghost predicate Enforces(step: Passing, full: nat -> nat, budget: StorageBudget) {
    && budget.Valid()
    && (forall s, m {:trigger PassOver(s, budget, m)} :: step(s, m) == PassOver(s, budget, m))
    && (forall e: nat {:trigger Share(e, budget.ratios.highWater)} :: full(e) == Share(e, budget.ratios.highWater))
  }

  function PassesUnder(budget: StorageBudget): Passing
    requires budget.Valid()
  {
    (s: Store, m: Reading) => PassOver(s, budget, m)
  }

  function HighWaterUnder(budget: StorageBudget): nat -> nat
    requires budget.Valid()
  {
    (e: nat) => Share(e, budget.ratios.highWater)
  }

  /** The store after `n` passes, each over the store the pass before left. */
  function AfterPasses(s: Store, step: Passing, readings: seq<Reading>, n: nat): Store
    requires n <= |readings|
  {
    if n == 0 then s else step(AfterPasses(s, step, readings, n - 1), readings[n - 1]).after
  }

  function DecisionAt(s: Store, step: Passing, readings: seq<Reading>, n: nat): Decision
    requires n < |readings|
  {
    step(AfterPasses(s, step, readings, n), readings[n]).decision
  }

  /** Each of the first `n` passes found something to take. */
  predicate AllTake(s: Store, step: Passing, readings: seq<Reading>, n: nat)
    requires n <= |readings|
  {
    forall k :: 0 <= k < n ==> DecisionAt(s, step, readings, k).Take?
  }

  /** What enforcement answers when `taken` passes took something and `gone` blocks went. */
  function Answer(s: Store, step: Passing, full: nat -> nat, readings: seq<Reading>, last: nat, taken: nat, gone: int)
    : Verdict<Enforcement>
    requires 0 < |readings| && taken <= |readings|
  {
    if taken < |readings| then
      match DecisionAt(s, step, readings, taken)
      case Fail(error) => Broken(error)
      case Content(mode, effective) =>
        Kept(Enforcement(mode, effective, readings[0].size, readings[taken].size, gone, taken))
      case Take(_, _) => Broken(Incomplete)
    else
      match DecisionAt(s, step, readings, taken - 1)
      case Take(plan, effective) =>
        if last >= full(effective) then Broken(Incomplete)
        else Kept(Enforcement(plan.mode, effective, readings[0].size, last, gone, taken))
      case _ => Broken(Incomplete)
  }

  method PlanPass(blocks: seq<BlockMeta>, size: nat, p: Pressure) returns (r: Planned)
    ensures r == PlanOf(Distributed(blocks, size), size, p)
  {
    var rows := new BlockMeta[|blocks|](i requires 0 <= i < |blocks| => blocks[i]);
    assert rows[..] == blocks;
    DistributePhysicalOverhead(rows, size);
    r := PlanPressureEviction(rows[..], size, p);
  }

  /** Measure, and plan when at or above high water. */
  method DecidePass(s: Store, budget: StorageBudget, m: Reading) returns (r: Decision)
    requires budget.Valid()
    ensures r == Decide(s, budget, m)
  {
    var limit := EffectiveMax(budget, m.size, m.space);
    if limit.Broken? {
      return Fail(limit.error);
    }
    if m.size < HighWaterOf(budget, limit.value) {
      return Content(Normal, limit.value);
    }
    var planned := PlanPass(PressureBlocks(s, m.pinned), m.size, PolicyAt(budget, limit.value, m.now));
    if planned.Unplanned? {
      return Fail(Unreachable(planned.error));
    }
    r := if planned.plan.ids == [] then Content(planned.plan.mode, limit.value) else Take(planned.plan, limit.value);
  }

  class StorageBudgetEnforcer {
    const store: SqliteBlockStore
    const budget: StorageBudget

    constructor (store: SqliteBlockStore, budget: StorageBudget)
      requires store.Valid() && budget.Valid()
      ensures this.store == store && this.budget == budget
    {
      this.store := store;
      this.budget := budget;
    }

    /** One pass: measure, plan, evict. */
    method Pass(m: Reading, ghost step: Passing, ghost full: nat -> nat) returns (decision: Decision, deleted: int)
      requires store.Valid() && Enforces(step, full, budget)
      modifies store
      ensures store.Valid() && Passed(decision, store.db.tables) == step(old(store.db.tables), m)
      ensures !decision.Take? ==> store.db == old(store.db)
      ensures deleted == |old(store.db.tables.blocks)| - |store.db.tables.blocks|
    {
      deleted := 0;
      decision := DecidePass(store.db.tables, budget, m);
      assert PassOver(store.db.tables, budget, m).decision == decision;
      if decision.Take? {
        deleted := store.EvictBlockIds(decision.plan.ids);
      }
    }

    method AtHighWater(size: nat, effective: nat, ghost step: Passing, ghost full: nat -> nat) returns (over: bool)
      requires Enforces(step, full, budget)
      ensures over == (size >= full(effective))
    {
      over := size >= Share(effective, budget.ratios.highWater);
    }

    /** Up to `passes` passes; `last` is the size measured after the last of them. */
    method Enforce(readings: seq<Reading>, last: nat) returns (r: Verdict<Enforcement>, ghost taken: nat)
      requires store.Valid() && budget.Valid() && |readings| == budget.passes
      modifies store
      ensures store.Valid()
      ensures taken <= |readings| && AllTake(old(store.db.tables), PassesUnder(budget), readings, taken)
      ensures taken < |readings| ==> !DecisionAt(old(store.db.tables), PassesUnder(budget), readings, taken).Take?
      ensures store.db.tables == AfterPasses(old(store.db.tables), PassesUnder(budget), readings, taken)
      ensures r == Answer(old(store.db.tables), PassesUnder(budget), HighWaterUnder(budget), readings, last, taken,
                          |old(store.db.tables.blocks)| - |store.db.tables.blocks|)
    {
      r, taken := EnforceWith(readings, last, PassesUnder(budget), HighWaterUnder(budget));
    }

    /** The loop, for functions that stand for the passes and the last check. */
    method EnforceWith(readings: seq<Reading>, last: nat, ghost step: Passing, ghost full: nat -> nat)
      returns (r: Verdict<Enforcement>, ghost taken: nat)
      requires store.Valid() && Enforces(step, full, budget) && |readings| == budget.passes
      modifies store
      ensures store.Valid()
      ensures taken <= |readings| && AllTake(old(store.db.tables), step, readings, taken)
      ensures taken < |readings| ==> !DecisionAt(old(store.db.tables), step, readings, taken).Take?
      ensures store.db.tables == AfterPasses(old(store.db.tables), step, readings, taken)
      ensures r == Answer(old(store.db.tables), step, full, readings, last, taken,
                          |old(store.db.tables.blocks)| - |store.db.tables.blocks|)
    {
      var evicted, pass := 0, 0;
      var taking := Content(Normal, 0);
      ghost var s0 := store.db.tables;
      while pass < budget.passes
        invariant pass <= budget.passes && store.Valid() && AllTake(s0, step, readings, pass)
        invariant store.db.tables == AfterPasses(s0, step, readings, pass)
        invariant evicted == |s0.blocks| - |store.db.tables.blocks|
        invariant pass > 0 ==> taking == DecisionAt(s0, step, readings, pass - 1)
      {
        var decision, deleted := Pass(readings[pass], step, full);
        evicted := evicted + deleted;
        match decision {
          case Fail(error) => return Broken(error), pass;
          case Content(mode, effective) =>
            return Kept(Enforcement(mode, effective, readings[0].size, readings[pass].size, evicted, pass)), pass;
          case Take(_, _) => taking, pass := decision, pass + 1;
        }
      }
      taken := pass;
      assert DecisionAt(s0, step, readings, taken - 1).Take?;
      var over := AtHighWater(last, taking.effective, step, full);
      r := if over then Broken(Incomplete)
           else Kept(Enforcement(taking.plan.mode, taking.effective, readings[0].size, last, evicted, pass));
    }
  }

  lemma {:induction false} WithoutSome(blocks: seq<Block>, drop: Block -> bool, b: Block)
    requires b in blocks && drop(b)
    ensures |Without(blocks, drop)| < |blocks|
  {
    if !drop(blocks[0]) {
      WithoutSome(blocks[1..], drop, b);
    }
  }

  /** Distribution changes no id, and every row offered stands for a block. */
  lemma {:induction false} OfferedIds(s: Store, pinned: set<string>, size: nat, row: BlockMeta)
    requires row in Distributed(PressureBlocks(s, pinned), size)
    ensures exists b <- s.blocks :: b.id == row.id
  {
    var rows := PressureBlocks(s, pinned);
    var i :| 0 <= i < |rows| && Distributed(rows, size)[i] == row;
    assert rows[i] == MetaOf(s, pinned, s.blocks[i]);
    assert s.blocks[i] in s.blocks;
  }

  /** A plan that names blocks brings the measured size to its target, and deletes at least one block. */
  lemma {:induction false} TakingShrinks(s: Store, pinned: set<string>, size: nat, p: Pressure)
    requires var planned := PlanOf(Distributed(PressureBlocks(s, pinned), size), size, p); planned.Planned? && planned.plan.ids != []
    ensures var plan := PlanOf(Distributed(PressureBlocks(s, pinned), size), size, p).plan;
            && plan.bytesAfter <= ThresholdsOf(p).value.target
            && |Evict(s, plan.ids).blocks| < |s.blocks|
  {
    var rows := Distributed(PressureBlocks(s, pinned), size);
    PlanReachesTarget(rows, size, p);
    var ids, t := PlanOf(rows, size, p).plan.ids, ThresholdsOf(p).value;
    var selected := Selection(rows, size, t, p).0;
    assert ids[0] == selected[0].id && selected[0] in selected;
    OfferedIds(s, pinned, size, selected[0]);
    var b :| b in s.blocks && b.id == ids[0];
    WithoutSome(s.blocks, InIds(ids), b);
  }

  lemma {:induction false} PassShrinks(s: Store, budget: StorageBudget, m: Reading)
    requires budget.Valid()
    ensures var out := PassOver(s, budget, m);
            && out.after == s.(blocks := out.after.blocks)
            && (forall b <- out.after.blocks :: b in s.blocks)
            && (out.decision.Take? ==> |out.after.blocks| < |s.blocks|)
  {
    var limit := EffectiveMax(budget, m.size, m.space);
    if PassOver(s, budget, m).decision.Take? {
      TakingShrinks(s, m.pinned, m.size, PolicyAt(budget, limit.value, m.now));
    }
  }

  /** Enforcement only deletes blocks, at least one in every pass that takes something. */
  lemma {:induction false} EnforcementOnlyEvicts(s: Store, budget: StorageBudget, readings: seq<Reading>, n: nat)
    requires budget.Valid() && n <= |readings|
    ensures var end := AfterPasses(s, PassesUnder(budget), readings, n);
            && end == s.(blocks := end.blocks)
            && (forall b <- end.blocks :: b in s.blocks)
            && (AllTake(s, PassesUnder(budget), readings, n) ==> |end.blocks| + n <= |s.blocks|)
  {
    if n > 0 {
      var step := PassesUnder(budget);
      EnforcementOnlyEvicts(s, budget, readings, n - 1);
      var before := AfterPasses(s, step, readings, n - 1);
      PassShrinks(before, budget, readings[n - 1]);
      if AllTake(s, step, readings, n) {
        assert DecisionAt(s, step, readings, n - 1).Take?;
      }
    }
  }

  /** As long as nothing is guarded, an emergency pass over a store with blocks always finds a plan. */
  lemma {:induction false} EmergencyPassNeverFails(s: Store, pinned: set<string>, size: nat, p: Pressure)
    requires s.blocks != [] && ThresholdsOf(p).Some? && ModeOf(ThresholdsOf(p).value, size) == Emergency
    ensures PlanOf(Distributed(PressureBlocks(s, pinned), size), size, p).Planned?
  {
    EmergencySucceedsAfterDistribution(PressureBlocks(s, pinned), size, p);
  }
}
