/** The open tail: per channel the records waiting to be sealed, bounded in channels and bytes. */
module OpenBlocks {
  import opened Ordering
  import opened Records
  import opened Tables
  import opened Journal
  import opened Machine
  import opened Invariants
  import opened Queries

  datatype Limits = Limits(blockMessages: nat, maxChannels: nat, maxBytes: nat, idleAfter: nat, maxAge: nat) {
    predicate Valid() {
      blockMessages > 0 && maxChannels > 0 && maxBytes > 0 && idleAfter > 0 && maxAge > 0
    }
  }

  datatype OpenBlock = OpenBlock(
    records: seq<Record>,
    indices: map<EventKey, nat>,
    bytes: nat,
    openedAt: nat,
    lastAppendAt: nat)

  /** Estimated memory of a record. */
  function RecordBytes(r: Record): nat {
    |r.raw| + |r.channel| + 128
  }

  function Bytes(rs: seq<Record>): nat {
    if rs == [] then 0 else Bytes(rs[..|rs| - 1]) + RecordBytes(rs[|rs| - 1])
  }

  lemma {:induction false} BytesUpdate(rs: seq<Record>, i: nat, r: Record)
    requires i < |rs|
    ensures Bytes(rs[i := r]) + RecordBytes(rs[i]) == Bytes(rs) + RecordBytes(r)
    decreases |rs|
  {
    var front := rs[..|rs| - 1];
    if i < |front| {
      BytesUpdate(front, i, r);
      assert rs[i := r][..|rs| - 1] == front[i := r];
    } else {
      assert rs[i := r][..|rs| - 1] == front;
    }
  }

  /** How many records the batches hold together. */
  function Count(batches: seq<seq<Record>>): nat {
    if batches == [] then 0 else Count(batches[..|batches| - 1]) + |batches[|batches| - 1]|
  }

  lemma {:induction false} CountPush(batches: seq<seq<Record>>, batch: seq<Record>)
    ensures Count(batches + [batch]) == Count(batches) + |batch|
  {
    assert (batches + [batch])[..|batches|] == batches;
  }

  ghost function SumBytes(blocks: map<string, OpenBlock>): nat {
    if blocks == map[] then 0 else var c :| c in blocks; blocks[c].bytes + SumBytes(blocks - {c})
  }

  ghost function SumMessages(blocks: map<string, OpenBlock>): nat {
    if blocks == map[] then 0 else var c :| c in blocks; |blocks[c].records| + SumMessages(blocks - {c})
  }

  /** The sums do not depend on the order of summation. */
  lemma {:induction false} SumsWithout(blocks: map<string, OpenBlock>, c: string)
    requires c in blocks
    ensures SumBytes(blocks) == blocks[c].bytes + SumBytes(blocks - {c})
    ensures SumMessages(blocks) == |blocks[c].records| + SumMessages(blocks - {c})
    decreases |blocks|
  {
    var d :| d in blocks && SumBytes(blocks) == blocks[d].bytes + SumBytes(blocks - {d});
    if d != c {
      SumsWithout(blocks - {d}, c);
      SumsWithout(blocks - {c}, d);
      assert blocks - {d} - {c} == blocks - {c} - {d};
    }
    var e :| e in blocks && SumMessages(blocks) == |blocks[e].records| + SumMessages(blocks - {e});
    if e != c {
      SumsWithout(blocks - {e}, c);
      SumsWithout(blocks - {c}, e);
      assert blocks - {e} - {c} == blocks - {c} - {e};
    }
  }

  lemma {:induction false} SumsUpdate(blocks: map<string, OpenBlock>, c: string, b: OpenBlock)
    ensures SumBytes(blocks[c := b]) == b.bytes + SumBytes(blocks - {c})
    ensures SumMessages(blocks[c := b]) == |b.records| + SumMessages(blocks - {c})
  {
    SumsWithout(blocks[c := b], c);
    assert blocks[c := b] - {c} == blocks - {c};
  }

  /** What putting one block into the map does to the sums. */
  lemma {:induction false} SumsPut(blocks: map<string, OpenBlock>, c: string, b: OpenBlock)
    ensures SumBytes(blocks[c := b]) == SumBytes(blocks) + b.bytes - (if c in blocks then blocks[c].bytes else 0)
    ensures SumMessages(blocks[c := b]) == SumMessages(blocks) + |b.records| - (if c in blocks then |blocks[c].records| else 0)
  {
    SumsUpdate(blocks, c, b);
    if c in blocks {
      SumsWithout(blocks, c);
    } else {
      assert blocks - {c} == blocks;
    }
  }

  /** An open block: not empty, not full, indexed by key, its bytes counted. */
  ghost predicate BlockOk(b: OpenBlock, channel: string, limits: Limits) {
    && 0 < |b.records| < limits.blockMessages
    && Filed(b, channel)
  }

  ghost predicate AllOk(blocks: map<string, OpenBlock>, limits: Limits) {
    forall c <- blocks :: BlockOk(blocks[c], c, limits)
  }

  /** The index inverts the records. */
  ghost predicate Filed(b: OpenBlock, channel: string) {
    && AllIn(b.records, channel)
    && b.indices.Keys == Keys(b.records)
    && (forall i :: 0 <= i < |b.records| ==> b.records[i].key in b.indices && b.indices[b.records[i].key] == i)
    && b.bytes == Bytes(b.records)
  }

  lemma {:induction false} FiledDistinct(b: OpenBlock, channel: string)
    requires Filed(b, channel)
    ensures DistinctKeys(b.records)
    ensures forall k <- b.indices :: b.indices[k] < |b.records| && b.records[b.indices[k]].key == k
  {
    forall k | k in b.indices ensures b.indices[k] < |b.records| && b.records[b.indices[k]].key == k {
      assert k in Keys(b.records);
      var i :| 0 <= i < |b.records| && b.records[i].key == k;
    }
  }

  /** Least recently appended first, then least recently opened, then by name. */
  predicate ColdLe(a: OpenBlock, c: string, b: OpenBlock, d: string) {
    a.lastAppendAt < b.lastAppendAt || (a.lastAppendAt == b.lastAppendAt &&
    (a.openedAt < b.openedAt || (a.openedAt == b.openedAt && TextLe(c, d))))
  }

  ghost predicate IsColdest(blocks: map<string, OpenBlock>, c: string) {
    c in blocks && forall d <- blocks :: ColdLe(blocks[c], c, blocks[d], d)
  }

  ghost predicate Within(blocks: map<string, OpenBlock>, limits: Limits) {
    |blocks| <= limits.maxChannels && SumBytes(blocks) <= limits.maxBytes
  }

  /** Each channel was sealed while a limit was exceeded, and was the coldest of those left. */
  ghost predicate ColdestFirst(blocks: map<string, OpenBlock>, limits: Limits, seals: seq<string>) {
    seals == [] ||
    (var before := seals[..|seals| - 1];
     var left := MapWithout(blocks, before);
     ColdestFirst(blocks, limits, before) && !Within(left, limits) && IsColdest(left, seals[|seals| - 1]))
  }

  /** Exactly the coldest channels, coldest first, as long as a limit was exceeded. */
  ghost predicate Enforced(blocks: map<string, OpenBlock>, limits: Limits, seals: seq<string>) {
    ColdestFirst(blocks, limits, seals) && Within(MapWithout(blocks, seals), limits)
  }

  function TailOfBlocks(blocks: map<string, OpenBlock>): Tail {
    map c | c in blocks :: blocks[c].records
  }

  function MapWithout(blocks: map<string, OpenBlock>, seals: seq<string>): map<string, OpenBlock> {
    map c | c in blocks && c !in seals :: blocks[c]
  }

  predicate Due(b: OpenBlock, limits: Limits, now: nat) {
    || (now >= b.lastAppendAt && now - b.lastAppendAt >= limits.idleAfter)
    || (now >= b.openedAt && now - b.openedAt >= limits.maxAge)
  }

  /** The blocks whose last append lies ahead of the clock. */
  function LateOf(blocks: map<string, OpenBlock>, now: nat): map<string, OpenBlock> {
    map c | c in blocks && now < blocks[c].lastAppendAt :: blocks[c]
  }

  /**
   * What an append leaves of the clocks: other blocks stay as they are; the channel's own block keeps
   * its times for a copy of a waiting event, and has its last append now for a new one.
   */
  ghost predicate Clocked(before: map<string, OpenBlock>, after: map<string, OpenBlock>, r: Record, now: nat) {
    && (forall c <- after :: c != r.channel ==> c in before && after[c] == before[c])
    && (r.channel in after && r.channel in before ==> after[r.channel].openedAt == before[r.channel].openedAt)
    && (r.channel in after && r.channel !in before ==> after[r.channel].openedAt == now)
    && (r.channel in after ==>
          after[r.channel].lastAppendAt
          == if r.channel in before && r.key in Keys(before[r.channel].records) then before[r.channel].lastAppendAt else now)
  }

  /** Every block is gone that had no append for the idle limit, or was open for the age limit; the others stay as they are. */
  ghost predicate DueTaken(before: map<string, OpenBlock>, after: map<string, OpenBlock>, limits: Limits, now: nat) {
    && (forall c :: c in after <==>
          c in before && now < before[c].lastAppendAt + limits.idleAfter && now < before[c].openedAt + limits.maxAge)
    && forall c <- after :: after[c] == before[c]
  }

  lemma {:induction false} DueGone(blocks: map<string, OpenBlock>, limits: Limits, now: nat, seals: seq<string>)
    requires limits.Valid() && forall c :: c in seals <==> c in blocks && Due(blocks[c], limits, now)
    ensures DueTaken(blocks, MapWithout(blocks, seals), limits, now)
  {
  }

  datatype Appended = Sealed(batches: seq<seq<Record>>) | ClockMovedBackwards

  /** The block of a channel that has none yet. */
  function Opened(now: nat): OpenBlock {
    OpenBlock([], map[], 0, now, now)
  }

  class OpenBlockManager {
    const limits: Limits
    var blocks: map<string, OpenBlock>
    var estimatedBytes: nat
    var openMessages: nat

    ghost predicate Valid()
      reads this
    {
      && limits.Valid()
      && AllOk(blocks, limits)
      && estimatedBytes == SumBytes(blocks)
      && openMessages == SumMessages(blocks)
    }

    ghost function View(): Tail
      reads this
    {
      TailOfBlocks(blocks)
    }

    constructor (limits: Limits)
      requires limits.Valid()
      ensures Valid() && blocks == map[] && this.limits == limits && View() == map[]
    {
      this.limits := limits;
      this.blocks := map[];
      this.estimatedBytes := 0;
      this.openMessages := 0;
    }

    /** Remove a channel's block and uncount it. */
    method TakeBlock(channel: string) returns (records: Option<seq<Record>>)
      requires limits.Valid() && estimatedBytes == SumBytes(blocks) && openMessages == SumMessages(blocks)
      requires channel in blocks ==> Filed(blocks[channel], channel)
      modifies this
      ensures blocks == old(blocks) - {channel}
      ensures estimatedBytes == SumBytes(blocks) && openMessages == SumMessages(blocks)
      ensures records == if channel in old(blocks) then Some(old(blocks)[channel].records) else None
      ensures records.Some? ==> |records.value| + openMessages == old(openMessages)
    {
      if channel !in blocks {
        assert blocks == blocks - {channel};
        return None;
      }
      var block := blocks[channel];
      SumsWithout(blocks, channel);
      blocks := blocks - {channel};
      estimatedBytes := estimatedBytes - block.bytes;
      openMessages := openMessages - |block.records|;
      return Some(block.records);
    }

    /** Take out a channel that is there. */
    method TakeOne(channel: string) returns (records: seq<Record>)
      requires Valid() && channel in blocks
      modifies this
      ensures Valid() && blocks == old(blocks) - {channel} && records == old(blocks)[channel].records
      ensures |records| + openMessages == old(openMessages)
    {
      var taken := TakeBlock(channel);
      return taken.value;
    }

    /** The channel to seal first. */
    method Coldest() returns (coldest: string)
      requires blocks != map[]
      ensures IsColdest(blocks, coldest)
      ensures forall d <- blocks :: blocks[coldest].lastAppendAt <= blocks[d].lastAppendAt
    {
      coldest :| coldest in blocks;
      TextTotal(coldest, coldest);
      var rest := blocks.Keys - {coldest};
      while rest != {}
        invariant coldest in blocks && rest <= blocks.Keys && coldest !in rest
        invariant forall d <- blocks :: d !in rest ==> ColdLe(blocks[coldest], coldest, blocks[d], d)
        decreases rest
      {
        var d :| d in rest;
        TextTotal(d, d);
        TextTotal(d, coldest);
        if !ColdLe(blocks[coldest], coldest, blocks[d], d) {
          forall e | e in blocks && e !in rest ensures ColdLe(blocks[d], d, blocks[e], e) {
            ColdTransitive(blocks[d], d, blocks[coldest], coldest, blocks[e], e);
          }
          coldest := d;
        }
        rest := rest - {d};
      }
    }

    /** Seal the coldest channel. */
    method SealColdest() returns (channel: string, records: seq<Record>)
      requires Valid() && blocks != map[]
      modifies this
      ensures Valid() && IsColdest(old(blocks), channel)
      ensures blocks == old(blocks) - {channel} && records == old(blocks)[channel].records
      ensures |blocks| < |old(blocks)|
    {
      channel := Coldest();
      records := TakeOne(channel);
      assert blocks.Keys == old(blocks).Keys - {channel};
    }

    /** One turn of the loop that enforces the bounds. */
    method SealNext(ghost all: map<string, OpenBlock>, sealed0: seq<seq<Record>>, ghost seals0: seq<string>)
      returns (sealed: seq<seq<Record>>, ghost seals: seq<string>)
      requires Valid() && blocks != map[] && !Within(blocks, limits)
      requires SealedFrom(all, seals0, blocks, sealed0) && ColdestFirst(all, limits, seals0)
      modifies this
      ensures Valid() && |blocks| < |old(blocks)|
      ensures SealedFrom(all, seals, blocks, sealed) && ColdestFirst(all, limits, seals)
    {
      ghost var left := blocks;
      var channel, records := SealColdest();
      SealOneMore(all, left, seals0, sealed0, channel);
      ColdestOneMore(all, limits, seals0, channel);
      sealed, seals := sealed0 + [records], seals0 + [channel];
    }

    /** Seal the coldest channels until both limits hold. */
    method EnforceBounds() returns (sealed: seq<seq<Record>>, ghost seals: seq<string>)
      requires Valid()
      modifies this
      ensures Valid() && Enforced(old(blocks), limits, seals)
      ensures SealedFrom(old(blocks), seals, blocks, sealed)
    {
      sealed, seals := [], [];
      PassStarts(blocks, limits);
      ghost var all := blocks;
      while |blocks| > limits.maxChannels || estimatedBytes > limits.maxBytes
        invariant Valid()
        invariant SealedFrom(all, seals, blocks, sealed) && ColdestFirst(all, limits, seals)
        decreases |blocks|
      {
        NoneFits(limits);
        if blocks == map[] {
          break;
        }
        sealed, seals := SealNext(all, sealed, seals);
      }
      PassEnds(all, limits, seals, blocks, sealed);
    }

    /**
     * A copy of a waiting event may upgrade it. A new event waits at the end of its channel's block,
     * which is sealed when full; then the coldest blocks are sealed until both limits hold.
     */
    method Append(r: Record, now: nat) returns (result: Appended, ghost seals: seq<string>)
      requires Valid()
      modifies this
      ensures Valid()
      ensures result.ClockMovedBackwards? <==> r.channel in old(blocks) && now < old(blocks)[r.channel].lastAppendAt
      ensures result.ClockMovedBackwards? ==> blocks == old(blocks)
      ensures result.Sealed? ==>
                var put := TailPut(old(View()), r);
                Sealable(put, seals) && View() == TailWithout(put, seals) && result.batches == SealedBatches(put, seals)
      ensures result.Sealed? && r.key in Keys(TailOf(old(View()), r.channel)) ==> seals == []
      ensures result.Sealed? && r.key !in Keys(TailOf(old(View()), r.channel)) ==>
                Within(blocks, limits) && SealOrder(old(blocks), limits, r, now, seals)
      ensures result.Sealed? ==> Clocked(old(blocks), blocks, r, now)
    {
      seals := [];
      var block := if r.channel in blocks then blocks[r.channel] else Opened(now);
      if now < block.lastAppendAt {
        return ClockMovedBackwards, [];
      }
      IndexTells(blocks, limits, r);
      if r.key in block.indices {
        AppendCopy(r, now);
        return Sealed([]), [];
      }
      result, seals := AppendNew(r, now);
    }

    /** A copy of a waiting event: nothing is sealed. */
    method AppendCopy(r: Record, ghost now: nat)
      requires Valid() && r.channel in blocks && r.key in blocks[r.channel].indices
      modifies this
      ensures Valid() && r.key in Keys(TailOf(old(View()), r.channel))
      ensures Clocked(old(blocks), blocks, r, now)
      ensures var put := TailPut(old(View()), r);
              Sealable(put, []) && View() == TailWithout(put, []) && SealedBatches(put, []) == []
    {
      UpgradeView(blocks, limits, r);
      UpgradedOk(blocks, limits, r);
      UpgradedClock(blocks, r, now);
      UpgradeIn(r);
      NothingSealed(TailOfBlocks(blocks));
    }

    /** A new event. */
    method AppendNew(r: Record, now: nat) returns (result: Appended, ghost seals: seq<string>)
      requires Valid() && (r.channel in blocks ==> r.key !in blocks[r.channel].indices)
      modifies this
      ensures Valid() && result.Sealed?
      ensures var put := TailPut(old(View()), r);
              Sealable(put, seals) && View() == TailWithout(put, seals) && result.batches == SealedBatches(put, seals)
      ensures Within(blocks, limits) && SealOrder(old(blocks), limits, r, now, seals)
      ensures Clocked(old(blocks), blocks, r, now)
    {
      PushNew(r, now);
      ghost var put := blocks;
      result, seals := SealFullThenEnforce(r.channel);
      GrownClock(old(blocks), r, now, seals);
      SealedView(put, seals, blocks, result.batches);
    }

    /** A copy of a waiting event. */
    method UpgradeIn(r: Record)
      requires r.channel in blocks && BlockOk(blocks[r.channel], r.channel, limits) && r.key in blocks[r.channel].indices
      requires estimatedBytes == SumBytes(blocks) && openMessages == SumMessages(blocks)
      modifies this
      ensures blocks == UpgradedMap(old(blocks), r)
      ensures estimatedBytes == SumBytes(blocks) && openMessages == SumMessages(blocks)
    {
      blocks, estimatedBytes := UpgradeWaiting(blocks, limits, estimatedBytes, r);
    }

    /** Put a new event at the end of its channel's block. */
    method PushNew(r: Record, now: nat)
      requires Valid() && (r.channel in blocks ==> r.key !in blocks[r.channel].indices)
      modifies this
      ensures blocks == old(blocks)[r.channel := Grown(old(blocks), r, now)]
      ensures TailOfBlocks(blocks) == TailPut(old(View()), r)
      ensures estimatedBytes == SumBytes(blocks) && openMessages == SumMessages(blocks)
      ensures Filed(blocks[r.channel], r.channel) && 0 < |blocks[r.channel].records|
    {
      PushResult(blocks, limits, r, now);
      GrownTail(blocks, limits, r, now);
      var block := if r.channel in blocks then blocks[r.channel] else Opened(now);
      block := OpenBlock(block.records + [r], block.indices[r.key := |block.records|], block.bytes + RecordBytes(r), block.openedAt, now);
      assert block == Grown(blocks, r, now);
      blocks, estimatedBytes, openMessages := blocks[r.channel := block], estimatedBytes + RecordBytes(r), openMessages + 1;
    }

    /** Seal the channel's block if it is full, then enforce the bounds. */
    method SealFullThenEnforce(channel: string) returns (result: Appended, ghost seals: seq<string>)
      requires limits.Valid() && channel in blocks
      requires estimatedBytes == SumBytes(blocks) && openMessages == SumMessages(blocks)
      requires 0 < |blocks[channel].records| && Filed(blocks[channel], channel)
      requires forall c <- blocks :: c != channel ==> BlockOk(blocks[c], c, limits)
      modifies this
      ensures Valid() && result.Sealed?
      ensures SealedFrom(old(blocks), seals, blocks, result.batches)
      ensures FullFirst(old(blocks), limits, channel, seals)
      ensures Within(blocks, limits)
    {
      var sealed: seq<seq<Record>> := [];
      ghost var start := blocks;
      if |blocks[channel].records| >= limits.blockMessages {
        var records := TakeBlock(channel);
        sealed := [records.value];
      }
      ghost var mid := blocks;
      var more;
      more, seals := EnforceBounds();
      if |start[channel].records| >= limits.blockMessages {
        FullOneMore(start, channel, seals, blocks, more);
        seals := [channel] + seals;
      } else {
        assert sealed + more == more;
      }
      result := Sealed(sealed + more);
    }

    /** Seal the blocks of these channels. */
    method TakeAll(channels: set<string>) returns (sealed: seq<seq<Record>>, ghost seals: seq<string>)
      requires Valid() && channels <= blocks.Keys
      modifies this
      ensures Valid() && SealedFrom(old(blocks), seals, blocks, sealed)
      ensures forall c :: c in seals <==> c in channels
      ensures Count(sealed) + openMessages == old(openMessages)
    {
      sealed, seals := [], [];
      MapWithoutNothing(blocks);
      var rest := channels;
      while rest != {}
        invariant Valid() && SealedFrom(old(blocks), seals, blocks, sealed)
        invariant Count(sealed) + openMessages == old(openMessages)
        invariant rest <= channels && rest <= blocks.Keys
        invariant forall c :: c in seals <==> c in channels - rest
        decreases rest
      {
        var channel :| channel in rest;
        ghost var left := blocks;
        var records := TakeOne(channel);
        SealOneMore(old(blocks), left, seals, sealed, channel);
        CountPush(sealed, records);
        sealed, seals, rest := sealed + [records], seals + [channel], rest - {channel};
      }
    }

    /** Seal every block that was idle or open for too long, and no other. */
    method SealDue(now: nat) returns (sealed: seq<seq<Record>>, ghost seals: seq<string>)
      requires Valid()
      modifies this
      ensures Valid() && SealedFrom(old(blocks), seals, blocks, sealed)
      ensures DueTaken(old(blocks), blocks, limits, now)
      ensures Count(sealed) + openMessages == old(openMessages)
    {
      var due := set c <- blocks.Keys | Due(blocks[c], limits, now);
      sealed, seals := TakeAll(due);
      DueGone(old(blocks), limits, now, seals);
    }

    /** Seal everything. */
    method SealAll() returns (sealed: seq<seq<Record>>, ghost seals: seq<string>)
      requires Valid()
      modifies this
      ensures Valid() && SealedFrom(old(blocks), seals, blocks, sealed)
      ensures blocks == map[] && View() == map[] && Count(sealed) == old(openMessages)
    {
      sealed, seals := TakeAll(blocks.Keys);
      NothingLeft(old(blocks), seals);
    }

    /** Drop what waits for a channel. */
    method PurgeChannel(channel: string)
      requires Valid()
      modifies this
      ensures Valid() && View() == TailWithout(old(View()), [channel])
    {
      var _ := TakeBlock(channel);
      assert View() == TailWithout(old(View()), [channel]);
    }

    /** The newest waiting records of the channel received inside the window. */
    method Query(request: QueryRequest) returns (records: seq<Record>)
      ensures records == Newest(Sort(Filter(TailOf(View(), request.channel), Window(request)), AnswerOrder()), request.limit)
    {
      records := NewestInWindow(if request.channel in blocks then blocks[request.channel].records else [], request);
    }
  }

  /** Filter, sort, keep the last `limit`. */
  method NewestInWindow(waiting: seq<Record>, request: QueryRequest) returns (records: seq<Record>)
    ensures records == Newest(Sort(Filter(waiting, Window(request)), AnswerOrder()), request.limit)
  {
    records := Filter(waiting, Window(request));
    records := Sort(records, AnswerOrder());
    if |records| > request.limit {
      records := records[|records| - request.limit..];
    }
  }

  /** An event waits exactly if the index of its channel has it. */
  lemma {:induction false} IndexTells(blocks: map<string, OpenBlock>, limits: Limits, r: Record)
    requires r.channel in blocks ==> BlockOk(blocks[r.channel], r.channel, limits)
    ensures r.key in Keys(TailOf(TailOfBlocks(blocks), r.channel)) <==> r.channel in blocks && r.key in blocks[r.channel].indices
  {
  }

  /** The block of the channel with a new record at its end. */
  function Grown(blocks: map<string, OpenBlock>, r: Record, now: nat): OpenBlock {
    var b := if r.channel in blocks then blocks[r.channel] else Opened(now);
    OpenBlock(b.records + [r], b.indices[r.key := |b.records|], b.bytes + RecordBytes(r), b.openedAt, now)
  }

  /** The channel's block first if it is full, then the coldest ones while a limit is exceeded. */
  ghost predicate FullFirst(blocks: map<string, OpenBlock>, limits: Limits, channel: string, seals: seq<string>)
    requires channel in blocks
  {
    if |blocks[channel].records| >= limits.blockMessages then
      seals != [] && seals[0] == channel && Enforced(blocks - {channel}, limits, seals[1..])
    else Enforced(blocks, limits, seals)
  }

  ghost predicate SealOrder(blocks: map<string, OpenBlock>, limits: Limits, r: Record, now: nat, seals: seq<string>) {
    FullFirst(blocks[r.channel := Grown(blocks, r, now)], limits, r.channel, seals)
  }

  lemma {:induction false} GrownIndex(rs: seq<Record>, indices: map<EventKey, nat>, r: Record)
    requires indices.Keys == Keys(rs) && r.key !in indices
    requires forall i :: 0 <= i < |rs| ==> rs[i].key in indices && indices[rs[i].key] == i
    ensures indices[r.key := |rs|].Keys == Keys(rs + [r])
    ensures var more, out := rs + [r], indices[r.key := |rs|];
            forall i :: 0 <= i < |more| ==> more[i].key in out && out[more[i].key] == i
  {
    KeysConcat(rs, [r]);
    assert Keys([r]) == {r.key};
    var more, out := rs + [r], indices[r.key := |rs|];
    forall i | 0 <= i < |more| ensures more[i].key in out && out[more[i].key] == i {
      assert i < |rs| ==> more[i] == rs[i] && rs[i].key != r.key;
    }
  }

  lemma {:induction false} GrownFiled(b: OpenBlock, r: Record, now: nat)
    requires Filed(b, r.channel) && r.key !in b.indices
    ensures Filed(OpenBlock(b.records + [r], b.indices[r.key := |b.records|], b.bytes + RecordBytes(r), b.openedAt, now), r.channel)
  {
    GrownIndex(b.records, b.indices, r);
    BytesPush(b.records, r);
    assert forall x <- b.records + [r] :: x in b.records || x == r;
  }

  lemma {:induction false} BytesPush(rs: seq<Record>, r: Record)
    ensures Bytes(rs + [r]) == Bytes(rs) + RecordBytes(r)
  {
    var more := rs + [r];
    assert more[..|more| - 1] == rs && more[|more| - 1] == r;
  }

  /** What pushing a new event makes of the map of blocks. */
  lemma {:induction false} PushResult(blocks: map<string, OpenBlock>, limits: Limits, r: Record, now: nat)
    requires r.channel in blocks ==> BlockOk(blocks[r.channel], r.channel, limits) && r.key !in blocks[r.channel].indices
    ensures var b := Grown(blocks, r, now);
            && Filed(b, r.channel) && 0 < |b.records|
            && SumBytes(blocks[r.channel := b]) == SumBytes(blocks) + RecordBytes(r)
            && SumMessages(blocks[r.channel := b]) == SumMessages(blocks) + 1
  {
    var b := if r.channel in blocks then blocks[r.channel] else Opened(now);
    assert Filed(b, r.channel);
    GrownFiled(b, r, now);
    SumsPut(blocks, r.channel, Grown(blocks, r, now));
  }

  lemma {:induction false} GrownTail(blocks: map<string, OpenBlock>, limits: Limits, r: Record, now: nat)
    requires r.channel in blocks ==> BlockOk(blocks[r.channel], r.channel, limits) && r.key !in blocks[r.channel].indices
    ensures TailOfBlocks(blocks[r.channel := Grown(blocks, r, now)]) == TailPut(TailOfBlocks(blocks), r)
  {
    var tail := TailOfBlocks(blocks);
    assert r.key !in Keys(TailOf(tail, r.channel));
    var after := TailOfBlocks(blocks[r.channel := Grown(blocks, r, now)]);
    assert after[r.channel] == TailOf(tail, r.channel) + [r];
  }

  /** A waiting copy replaced in place leaves the block filed. */
  lemma {:induction false} UpgradeFiled(b: OpenBlock, channel: string, i: nat, r: Record)
    requires Filed(b, channel) && r.channel == channel && i < |b.records| && b.records[i].key == r.key
    ensures RecordBytes(b.records[i]) <= b.bytes
    ensures Filed(OpenBlock(b.records[i := r], b.indices, b.bytes - RecordBytes(b.records[i]) + RecordBytes(r), b.openedAt, b.lastAppendAt), channel)
  {
    BytesCount(b.records, i);
    BytesUpdate(b.records, i, r);
    SameKeys(b.records, i, r);
    var rs := b.records[i := r];
    forall j | 0 <= j < |rs| ensures rs[j].key in b.indices && b.indices[rs[j].key] == j {
      assert rs[j].key == b.records[j].key;
    }
  }

  lemma {:induction false} UpgradeTail(before: map<string, OpenBlock>, after: map<string, OpenBlock>, r: Record)
    requires r.channel in before && r.key in Keys(before[r.channel].records)
    requires r.channel in after && after == before[r.channel := after[r.channel]]
    requires after[r.channel].records == Absorb(before[r.channel].records, [r])
    ensures TailOfBlocks(after) == TailPut(TailOfBlocks(before), r)
  {
  }

  /** Replace the waiting copy if the incoming one has the higher fidelity. */
  method UpgradeWaiting(blocks: map<string, OpenBlock>, ghost limits: Limits, estimatedBytes: nat, r: Record)
    returns (upgraded: map<string, OpenBlock>, bytes: nat)
    requires r.channel in blocks && BlockOk(blocks[r.channel], r.channel, limits) && r.key in blocks[r.channel].indices
    requires estimatedBytes == SumBytes(blocks)
    ensures upgraded == UpgradedMap(blocks, r)
    ensures bytes == SumBytes(upgraded) && SumMessages(upgraded) == SumMessages(blocks)
  {
    UpgradeResult(blocks, limits, r);
    var block := blocks[r.channel];
    var index := block.indices[r.key];
    var retained := block.records[index];
    if !r.ShouldReplace(retained) {
      return blocks, estimatedBytes;
    }
    var after := OpenBlock(block.records[index := r], block.indices, block.bytes - RecordBytes(retained) + RecordBytes(r), block.openedAt, block.lastAppendAt);
    assert after == UpgradedBlock(block, r);
    return blocks[r.channel := after], estimatedBytes - RecordBytes(retained) + RecordBytes(r);
  }

  function UpgradedBlock(b: OpenBlock, r: Record): OpenBlock {
    if r.key in b.indices && b.indices[r.key] < |b.records| then
      var i := b.indices[r.key];
      if r.ShouldReplace(b.records[i]) && RecordBytes(b.records[i]) <= b.bytes then
        OpenBlock(b.records[i := r], b.indices, b.bytes - RecordBytes(b.records[i]) + RecordBytes(r), b.openedAt, b.lastAppendAt)
      else b
    else b
  }

  function UpgradedMap(blocks: map<string, OpenBlock>, r: Record): map<string, OpenBlock>
    requires r.channel in blocks
  {
    blocks[r.channel := UpgradedBlock(blocks[r.channel], r)]
  }

  lemma {:induction false} UpgradedClock(blocks: map<string, OpenBlock>, r: Record, now: nat)
    requires r.channel in blocks && r.key in Keys(blocks[r.channel].records)
    ensures Clocked(blocks, UpgradedMap(blocks, r), r, now)
  {
  }

  lemma {:induction false} GrownClock(blocks: map<string, OpenBlock>, r: Record, now: nat, seals: seq<string>)
    requires r.channel in blocks ==> r.key !in Keys(blocks[r.channel].records)
    ensures Clocked(blocks, MapWithout(blocks[r.channel := Grown(blocks, r, now)], seals), r, now)
  {
  }

  /** An append that the clock allows seals late blocks or leaves them as they are. */
  lemma {:induction false} LateAfter(before: map<string, OpenBlock>, after: map<string, OpenBlock>, r: Record, now: nat, seals: seq<string>)
    requires r.channel !in LateOf(before, now) && Clocked(before, after, r, now)
    requires TailOfBlocks(after) == TailWithout(TailPut(TailOfBlocks(before), r), seals)
    ensures LateOf(after, now) == MapWithout(LateOf(before, now), seals)
  {
    assert after.Keys == TailOfBlocks(after).Keys;
    assert TailOfBlocks(before).Keys == before.Keys;
    forall c ensures c in LateOf(after, now) <==> c in MapWithout(LateOf(before, now), seals) {
      assert c in TailOfBlocks(after) <==> (c in before || c == r.channel) && c !in seals;
    }
  }

  /** A pass that seals the coldest first does not reach the late blocks as long as these alone fit. */
  lemma {:induction false} LateStays(blocks: map<string, OpenBlock>, limits: Limits, seals: seq<string>, now: nat)
    requires ColdestFirst(blocks, limits, seals) && Within(LateOf(blocks, now), limits)
    ensures forall c <- seals :: c !in LateOf(blocks, now)
  {
    if seals != [] {
      var before, c := seals[..|seals| - 1], seals[|seals| - 1];
      LateStays(blocks, limits, before, now);
      var left := MapWithout(blocks, before);
      assert c in LateOf(blocks, now) ==> left == LateOf(blocks, now);
      forall d | d in seals ensures d !in LateOf(blocks, now) {
        assert d in before || d == c;
      }
    }
  }

  /** The same for a pass that starts by taking out a channel that is not late. */
  lemma {:induction false} LateStaysBehind(blocks: map<string, OpenBlock>, limits: Limits, channel: string, seals: seq<string>, now: nat)
    requires channel !in LateOf(blocks, now) && Within(LateOf(blocks, now), limits)
    requires seals != [] && seals[0] == channel && ColdestFirst(blocks - {channel}, limits, seals[1..])
    ensures forall c <- seals :: c !in LateOf(blocks, now)
  {
    assert LateOf(blocks - {channel}, now) == LateOf(blocks, now);
    LateStays(blocks - {channel}, limits, seals[1..], now);
    forall c | c in seals ensures c !in LateOf(blocks, now) {
      assert c == seals[0] || c in seals[1..];
    }
  }

  lemma {:induction false} FullFirstStays(blocks: map<string, OpenBlock>, limits: Limits, channel: string, seals: seq<string>, now: nat)
    requires channel in blocks && channel !in LateOf(blocks, now) && Within(LateOf(blocks, now), limits)
    requires FullFirst(blocks, limits, channel, seals)
    ensures forall c <- seals :: c !in LateOf(blocks, now)
  {
    if |blocks[channel].records| >= limits.blockMessages {
      LateStaysBehind(blocks, limits, channel, seals, now);
    } else {
      LateStays(blocks, limits, seals, now);
    }
  }

  /** So an append at `now` leaves all late blocks where they are if these alone fit the limits. */
  lemma {:induction false} LateUntouched(before: map<string, OpenBlock>, limits: Limits, r: Record, now: nat, seals: seq<string>)
    requires r.channel !in LateOf(before, now) && Within(LateOf(before, now), limits)
    requires seals == [] || SealOrder(before, limits, r, now, seals)
    ensures MapWithout(LateOf(before, now), seals) == LateOf(before, now)
  {
    if seals != [] {
      var put := before[r.channel := Grown(before, r, now)];
      assert LateOf(put, now) == LateOf(before, now);
      FullFirstStays(put, limits, r.channel, seals, now);
    }
  }

  /** What an upgrade makes of the map of blocks: the tail absorbs the copy and the sums stay exact. */
  lemma {:induction false} UpgradeResult(blocks: map<string, OpenBlock>, limits: Limits, r: Record)
    requires r.channel in blocks && BlockOk(blocks[r.channel], r.channel, limits) && r.key in blocks[r.channel].indices
    ensures var b, after := blocks[r.channel], UpgradedBlock(blocks[r.channel], r);
            var i := b.indices[r.key];
            && i < |b.records| && RecordBytes(b.records[i]) <= b.bytes <= SumBytes(blocks)
            && BlockOk(after, r.channel, limits)
            && SumBytes(UpgradedMap(blocks, r)) == SumBytes(blocks) - b.bytes + after.bytes
            && SumMessages(UpgradedMap(blocks, r)) == SumMessages(blocks)
            && (after == b ==> UpgradedMap(blocks, r) == blocks)
            && (!r.ShouldReplace(b.records[i]) ==> after == b)
  {
    var b := blocks[r.channel];
    FiledDistinct(b, r.channel);
    var i := b.indices[r.key];
    UpgradeFiled(b, r.channel, i, r);
    SumsWithout(blocks, r.channel);
    SumsPut(blocks, r.channel, UpgradedBlock(b, r));
  }

  lemma {:induction false} UpgradedOk(blocks: map<string, OpenBlock>, limits: Limits, r: Record)
    requires AllOk(blocks, limits) && r.channel in blocks && r.key in blocks[r.channel].indices
    ensures AllOk(UpgradedMap(blocks, r), limits)
  {
    UpgradeResult(blocks, limits, r);
    forall c | c in UpgradedMap(blocks, r) ensures BlockOk(UpgradedMap(blocks, r)[c], c, limits) {
      assert c != r.channel ==> BlockOk(blocks[c], c, limits);
    }
  }

  lemma {:induction false} UpgradeView(blocks: map<string, OpenBlock>, limits: Limits, r: Record)
    requires r.channel in blocks && BlockOk(blocks[r.channel], r.channel, limits) && r.key in blocks[r.channel].indices
    ensures TailOfBlocks(UpgradedMap(blocks, r)) == TailPut(TailOfBlocks(blocks), r)
    ensures r.key in Keys(TailOf(TailOfBlocks(blocks), r.channel))
  {
    var b := blocks[r.channel];
    FiledDistinct(b, r.channel);
    var i := b.indices[r.key];
    UpgradeFiled(b, r.channel, i, r);
    OneUpgrade(b.records, i, r);
    assert b.records[i] in b.records;
    UpgradeTail(blocks, UpgradedMap(blocks, r), r);
  }

  lemma {:induction false} FullOneMore(all: map<string, OpenBlock>, c: string, seals: seq<string>, left: map<string, OpenBlock>, sealed: seq<seq<Record>>)
    requires c in all && SealedFrom(all - {c}, seals, left, sealed)
    ensures SealedFrom(all, [c] + seals, left, [all[c].records] + sealed)
  {
    var more := [c] + seals;
    forall d | d in more ensures d in TailOfBlocks(all) {
      assert d == c || d in seals;
    }
    assert forall d <- seals :: d in TailOfBlocks(all - {c});
    forall i, j | 0 <= i < j < |more| ensures more[i] != more[j] {
      assert more[j] in seals;
    }
    forall i | 0 <= i < |more| ensures SealedBatches(TailOfBlocks(all), more)[i] == ([all[c].records] + sealed)[i] {
      if i > 0 {
        assert seals[i - 1] in seals;
      }
    }
  }

  lemma {:induction false} OneUpgrade(rs: seq<Record>, i: nat, r: Record)
    requires DistinctKeys(rs) && i < |rs| && rs[i].key == r.key
    ensures Absorb(rs, [r]) == rs[i := Upgrade(rs[i], r)]
  {
    forall j | 0 <= j < |rs| ensures Absorb(rs, [r])[j] == rs[i := Upgrade(rs[i], r)][j] {
      assert [r][..0] == [];
      assert Champion(rs[j], [r]) == Upgrade(Champion(rs[j], []), r);
    }
  }

  lemma {:induction false} BytesCount(rs: seq<Record>, i: nat)
    requires i < |rs|
    ensures RecordBytes(rs[i]) <= Bytes(rs)
  {
    if i < |rs| - 1 {
      BytesCount(rs[..|rs| - 1], i);
    }
  }

  lemma {:induction false} SameKeys(rs: seq<Record>, i: nat, r: Record)
    requires i < |rs| && rs[i].key == r.key
    ensures Keys(rs[i := r]) == Keys(rs)
  {
    var out := rs[i := r];
    forall k | k in Keys(rs) ensures k in Keys(out) {
      var j :| 0 <= j < |rs| && rs[j].key == k;
      assert out[j].key == k;
    }
    forall k | k in Keys(out) ensures k in Keys(rs) {
      var j :| 0 <= j < |out| && out[j].key == k;
      assert rs[j].key == k;
    }
  }

  /** `seals` were taken out of `all`, in that order, and `left` remain. */
  ghost predicate SealedFrom(all: map<string, OpenBlock>, seals: seq<string>, left: map<string, OpenBlock>, sealed: seq<seq<Record>>) {
    && Sealable(TailOfBlocks(all), seals)
    && left == MapWithout(all, seals)
    && sealed == SealedBatches(TailOfBlocks(all), seals)
  }

  lemma {:induction false} MapWithoutNothing(blocks: map<string, OpenBlock>)
    ensures MapWithout(blocks, []) == blocks
  {
  }

  lemma {:induction false} NoneFits(limits: Limits)
    ensures Within(map[], limits)
  {
  }

  lemma {:induction false} PassStarts(blocks: map<string, OpenBlock>, limits: Limits)
    ensures SealedFrom(blocks, [], blocks, []) && ColdestFirst(blocks, limits, [])
  {
    MapWithoutNothing(blocks);
  }

  lemma {:induction false} PassEnds(all: map<string, OpenBlock>, limits: Limits, seals: seq<string>, left: map<string, OpenBlock>, sealed: seq<seq<Record>>)
    requires SealedFrom(all, seals, left, sealed) && ColdestFirst(all, limits, seals) && Within(left, limits)
    ensures Enforced(all, limits, seals)
  {
  }

  lemma {:induction false} NothingLeft(blocks: map<string, OpenBlock>, seals: seq<string>)
    requires forall c <- blocks :: c in seals
    ensures MapWithout(blocks, seals) == map[] && TailOfBlocks(map[]) == map[] && SumMessages(map[]) == 0
  {
  }

  lemma {:induction false} NothingSealed(tail: Tail)
    ensures Sealable(tail, []) && TailWithout(tail, []) == tail && SealedBatches(tail, []) == []
  {
  }

  lemma {:induction false} SealedView(all: map<string, OpenBlock>, seals: seq<string>, left: map<string, OpenBlock>, sealed: seq<seq<Record>>)
    requires SealedFrom(all, seals, left, sealed)
    ensures TailOfBlocks(left) == TailWithout(TailOfBlocks(all), seals)
    ensures Sealable(TailOfBlocks(all), seals) && sealed == SealedBatches(TailOfBlocks(all), seals)
  {
  }

  lemma {:induction false} SealOneMore(all: map<string, OpenBlock>, left: map<string, OpenBlock>, seals: seq<string>, sealed: seq<seq<Record>>, c: string)
    requires SealedFrom(all, seals, left, sealed) && c in left
    ensures SealedFrom(all, seals + [c], left - {c}, sealed + [left[c].records])
  {
  }

  lemma {:induction false} ColdestOneMore(all: map<string, OpenBlock>, limits: Limits, seals: seq<string>, c: string)
    requires ColdestFirst(all, limits, seals)
    requires var left := MapWithout(all, seals); !Within(left, limits) && IsColdest(left, c)
    ensures ColdestFirst(all, limits, seals + [c])
  {
    assert (seals + [c])[..|seals|] == seals;
  }

  /** Over a whole pass: whatever was there when a block was sealed had its last append no earlier; ties go by opening, then name. */
  lemma {:induction false} ColderSealedFirst(blocks: map<string, OpenBlock>, limits: Limits, seals: seq<string>, i: nat, d: string)
    requires ColdestFirst(blocks, limits, seals) && i < |seals| && d in blocks && d !in seals[..i]
    ensures seals[i] in blocks
    ensures var (s, t) := (blocks[seals[i]], blocks[d]);
            && s.lastAppendAt <= t.lastAppendAt
            && (s.lastAppendAt == t.lastAppendAt ==> s.openedAt <= t.openedAt)
            && (s.lastAppendAt == t.lastAppendAt && s.openedAt == t.openedAt ==> TextLe(seals[i], d))
  {
    var before := seals[..|seals| - 1];
    if i < |before| {
      assert before[..i] == seals[..i];
      ColderSealedFirst(blocks, limits, before, i, d);
    } else {
      assert before == seals[..i] && d in MapWithout(blocks, before);
    }
  }

  lemma {:induction false} ColdTransitive(a: OpenBlock, c: string, b: OpenBlock, d: string, x: OpenBlock, e: string)
    requires ColdLe(a, c, b, d) && ColdLe(b, d, x, e)
    ensures ColdLe(a, c, x, e)
  {
    if TextLe(c, d) && TextLe(d, e) {
      TextTransitive(c, d, e);
    }
  }
}
