/** The segment store: file operations and index statements in the order the code issues them. */
module SegmentStore {
  import opened Ordering
  import opened Records
  import opened Tables
  import opened Lists
  import opened Invariants
  import opened Appending
  import opened Journal
  import opened Queries
  import opened Sqlite
  import opened SqliteStore
  import opened MemoryStore
  import opened Refinement
  import opened MachineInvariant
  import opened Segment

  function CounterOf(x: Index, channel: string): Counter {
    if channel in x.channels then x.channels[channel] else Counter(0, 0)
  }

  /** One channel of the index: its list is sound and its counter exact. */
  ghost predicate ChannelOk(x: Index, cfg: Config, stamp: EventKey -> int, c: string)
    requires cfg.Valid()
  {
    var l := BlocksOf(x.blocks, c);
    && ListInv(l, c, CounterOf(x, c).next, cfg, map[], stamp)
    && CounterOf(x, c).retained == Messages(l) <= cfg.Allowed()
  }

  ghost predicate IndexOk(x: Index, cfg: Config, stamp: EventKey -> int)
    requires cfg.Valid()
  {
    AscendingIds(x.blocks) && forall c :: ChannelOk(x, cfg, stamp, c)
  }

  /** The records of a batch that the channel does not hold, first copies only. */
  function Unseen(x: Index, channel: string, rs: seq<Record>): seq<Record> {
    Firsts(Sort(rs, EventOrder()), Keys(Held(x.blocks, channel)))
  }

  /** The block rows and the next sequence after one channel batch. */
  function Grown(x: Index, cfg: Config, channel: string, rs: seq<Record>): (seq<Block>, int)
    requires cfg.Valid()
  {
    var next := CounterOf(x, channel).next;
    var novel := Unseen(x, channel, rs);
    if novel == [] then (x.blocks, next)
    else
      var (blocks, n) := AddChunks(x.blocks, channel, next, novel, cfg);
      (Retain(blocks, channel, cfg.Allowed()), n)
  }

  /** What the transaction of one channel batch makes of the index, wherever it places the blocks. */
  ghost predicate Appended(x: Index, y: Index, cfg: Config, channel: string, rs: seq<Record>)
    requires cfg.Valid()
  {
    var (blocks, next) := Grown(x, cfg, channel, rs);
    y.blocks == blocks && y.channels == x.channels[channel := Counter(next, Messages(BlocksOf(blocks, channel)))]
  }

  lemma {:induction false} UnseenFacts(x: Index, cfg: Config, stamp: EventKey -> int, channel: string, rs: seq<Record>)
    requires cfg.Valid() && ChannelOk(x, cfg, stamp, channel) && Admissible(rs, channel, map[], stamp)
    ensures var novel := Unseen(x, channel, rs);
            Admissible(novel, channel, map[], stamp) && DistinctKeys(Held(x.blocks, channel) + novel)
  {
    var sorted := Sort(rs, EventOrder());
    SortKeeps(rs, EventOrder());
    FirstsAreFirst(sorted, Keys(Held(x.blocks, channel)));
    DistinctConcat(Held(x.blocks, channel), Unseen(x, channel, rs));
  }

  lemma {:induction false} GrownList(x: Index, cfg: Config, stamp: EventKey -> int, channel: string, rs: seq<Record>)
    requires cfg.Valid() && AscendingIds(x.blocks) && ChannelOk(x, cfg, stamp, channel) && Admissible(rs, channel, map[], stamp)
    ensures var (blocks, next) := Grown(x, cfg, channel, rs);
            && AscendingIds(blocks)
            && ListInv(BlocksOf(blocks, channel), channel, next, cfg, map[], stamp)
            && Messages(BlocksOf(blocks, channel)) <= cfg.Allowed()
            && (forall c :: c != channel ==> BlocksOf(blocks, c) == BlocksOf(x.blocks, c))
  {
    var novel := Unseen(x, channel, rs);
    if novel != [] {
      UnseenFacts(x, cfg, stamp, channel, rs);
      ChunksKeep(x.blocks, channel, CounterOf(x, channel).next, novel, cfg, map[], stamp);
      var (blocks, next) := AddChunks(x.blocks, channel, CounterOf(x, channel).next, novel, cfg);
      RetainAscends(blocks, channel, cfg.Allowed());
      var k := RetainList(blocks, channel, cfg.Allowed(), channel);
      SuffixKeeps(BlocksOf(blocks, channel), k, next);
      forall c | c != channel ensures BlocksOf(Retain(blocks, channel, cfg.Allowed()), c) == BlocksOf(x.blocks, c) {
        ChunksElsewhere(x.blocks, channel, CounterOf(x, channel).next, novel, cfg, c);
        var _ := RetainList(blocks, channel, cfg.Allowed(), c);
      }
    }
  }

  lemma {:induction false} AppendedOk(x: Index, y: Index, cfg: Config, stamp: EventKey -> int, channel: string, rs: seq<Record>)
    requires cfg.Valid() && IndexOk(x, cfg, stamp) && Admissible(rs, channel, map[], stamp) && Appended(x, y, cfg, channel, rs)
    ensures IndexOk(y, cfg, stamp)
  {
    assert ChannelOk(x, cfg, stamp, channel);
    GrownList(x, cfg, stamp, channel, rs);
    forall c ensures ChannelOk(y, cfg, stamp, c) {
      assert ChannelOk(x, cfg, stamp, c);
    }
  }

  /** The segment store keeps just what the reference store keeps. */
  lemma {:induction false} AppendedIsPushed(x: Index, y: Index, cfg: Config, stamp: EventKey -> int, channel: string, rs: seq<Record>)
    requires cfg.Valid() && AscendingIds(x.blocks) && ChannelOk(x, cfg, stamp, channel)
    requires Admissible(rs, channel, map[], stamp) && Appended(x, y, cfg, channel, rs)
    ensures RecordLists(BlocksOf(y.blocks, channel)) == Pushed(RecordLists(BlocksOf(x.blocks, channel)), cfg, rs)
  {
    var l, novel, next := BlocksOf(x.blocks, channel), Unseen(x, channel, rs), CounterOf(x, channel).next;
    FlatLists(l);
    if novel == [] {
      MessagesAreRecords(l);
      assert RecordLists(l) + Chunks(novel, cfg) == RecordLists(l);
    } else {
      UnseenFacts(x, cfg, stamp, channel, rs);
      ChunksKeep(x.blocks, channel, next, novel, cfg, map[], stamp);
      AddedChunks(x.blocks, channel, next, novel, cfg);
      RetainListPops(AddChunks(x.blocks, channel, next, novel, cfg).0, channel, cfg);
    }
  }

  /** A channel of the reference store after a sequence of batches. */
  function PushedAll(lists: seq<seq<Record>>, cfg: Config, batches: seq<seq<Record>>, c: string): seq<seq<Record>>
    requires cfg.Valid()
  {
    if batches == [] then lists
    else
      var before, rs := PushedAll(lists, cfg, batches[..|batches| - 1], c), batches[|batches| - 1];
      if rs == [] || rs[0].channel != c then before else Pushed(before, cfg, rs)
  }

  /** From nothing, that is the reference store itself. */
  lemma {:induction false} PushedFromNothing(cfg: Config, batches: seq<seq<Record>>, c: string)
    requires cfg.Valid()
    ensures PushedAll([], cfg, batches, c) == HeldBy(MemoryRun(cfg, batches), c)
  {
    if batches != [] {
      PushedFromNothing(cfg, batches[..|batches| - 1], c);
    }
  }

  /** The oldest row of a channel, by sequence, is the first of its list; deleting it is DropFirst. */
  lemma {:induction false} OldestRow(x: Index, channel: string, next: int)
    requires AscendingIds(x.blocks) && Sequenced(BlocksOf(x.blocks, channel), next) && BlocksOf(x.blocks, channel) != []
    ensures var l := BlocksOf(x.blocks, channel);
            && Oldest(l) == Some(l[0])
            && Removed(x, l[0].id).blocks == DropFirst(x.blocks, channel)
            && BlocksOf(DropFirst(x.blocks, channel), channel) == l[1..]
            && Sequenced(l[1..], next) && AscendingIds(DropFirst(x.blocks, channel))
            && Messages(l[1..]) == Messages(l) - l[0].count
  {
    OldestGoes(x.blocks, channel, next);
  }

  ghost predicate AllOneChannel(batches: seq<seq<Record>>) {
    forall rs <- batches :: rs != [] ==> OneChannel(rs)
  }

  method CheckChannels(batches: seq<seq<Record>>) returns (ok: bool)
    ensures ok <==> AllOneChannel(batches)
  {
    for i := 0 to |batches|
      invariant forall j :: 0 <= j < i ==> batches[j] != [] ==> OneChannel(batches[j])
    {
      if batches[i] != [] && !OneChannel(batches[i]) {
        assert batches[i] in batches;
        return false;
      }
    }
    return true;
  }

  class SegmentBlockStore {
    const cfg: Config
    const codec: Codec
    ghost const stamp: EventKey -> int
    var s: Seg                    // the data file, the index database and the transaction open on it
    ghost var run: seq<Seg>       // every state they went through
    ghost var acts: seq<Act>

    ghost predicate Logged()
      reads this
    {
      cfg.Valid() && codec.Valid() && IsRun(codec, run, acts) && run[|run| - 1] == s
    }

    ghost predicate Valid()
      reads this
    {
      Logged() && s.phase.Ready? && IndexOk(s.index, cfg, stamp)
    }

    /** In a transaction whose index, so far, is `x`. */
    ghost predicate In(x: Index)
      reads this
    {
      Logged() && s.phase.Writing? && s.phase.tx == x
    }

    /** Attach to the files an earlier process left behind: check their lengths, cut off what no row names. */
    constructor (cfg: Config, codec: Codec, s: Seg, ghost stamp: EventKey -> int, ghost run: seq<Seg>, ghost acts: seq<Act>)
      requires cfg.Valid() && codec.Valid() && IsRun(codec, run, acts) && run[|run| - 1] == s && s.phase.Closed?
      requires IndexOk(s.index, cfg, stamp)
      ensures Valid() && this.s.index == s.index && this.cfg == cfg && this.codec == codec && this.stamp == stamp
      ensures IndexedEnd(this.s.index) == |this.s.data.view|
      ensures run <= this.run
    {
      this.cfg := cfg;
      this.codec := codec;
      this.stamp := stamp;
      this.s := s;
      this.run := run;
      this.acts := acts;
      new;
      OpenNeverFails(codec, run, acts, |run| - 1);
      Do(Open);
      if this.s.phase.Opening? {
        Do(Sync);
      }
    }

    /** One operation on the file or the index. */
    method Do(act: Act)
      requires Logged() && Next(codec, s, act).Some?
      modifies this
      ensures Logged() && s == Next(codec, old(s), act).value
      ensures run == old(run) + [s] && acts == old(acts) + [act]
    {
      s := Next(codec, s, act).value;
      run := run + [s];
      acts := acts + [act];
    }

    /** Since then the log has grown, and the file only at its end; nothing was committed. */
    ghost predicate Onward(before: Seg, log: seq<Seg>)
      reads this
    {
      && log <= run && before.data.view <= s.data.view && s.index == before.index
      && before.phase.Writing? && s.phase.Writing? && s.phase.start == before.phase.start
    }

    /** Write a block's payload at the end of the file and its row into the index. */
    method WriteBlock(b: Block, ghost x: Index)
      requires In(x) && b.id == NextId(x.blocks)
      modifies this
      ensures exists p: Extent :: In(Inserted(x, b, p))
      ensures Onward(old(s), old(run))
    {
      RunInv(codec, run, acts, |run| - 1);
      FitsEnd(codec, x, s.data.view, |s.data.view|);
      var offset := |s.data.view|;
      var payload := codec.write(b.records);
      Do(WriteBytes(payload));
      assert s.data.view[offset..] == payload;
      Do(InsertRow(b, Extent(offset, |payload|)));
    }

    /** Write the chunks of the new records: sequences rise, the counter grows by what is written. */
    method WriteChunks(channel: string, novel: seq<Record>, sequence: int, ghost x: Index) returns (next: int, added: int)
      requires In(x)
      modifies this
      ensures Logged() && s.phase.Writing? && s.phase.tx.channels == x.channels
      ensures (s.phase.tx.blocks, next) == AddChunks(x.blocks, channel, sequence, novel, cfg)
      ensures added == Messages(BlocksOf(s.phase.tx.blocks, channel)) - Messages(BlocksOf(x.blocks, channel))
      ensures Onward(old(s), old(run))
    {
      var rest := novel;
      next, added := sequence, 0;
      while rest != []
        invariant Logged() && s.phase.Writing? && s.phase.tx.channels == x.channels
        invariant AddChunks(s.phase.tx.blocks, channel, next, rest, cfg) == AddChunks(x.blocks, channel, sequence, novel, cfg)
        invariant added == Messages(BlocksOf(s.phase.tx.blocks, channel)) - Messages(BlocksOf(x.blocks, channel))
        invariant Onward(old(s), old(run))
        decreases |rest|
      {
        var n := ChunkSize(rest, cfg);
        ghost var before := s.phase.tx;
        var block := Encode(NextId(s.phase.tx.blocks), channel, next, rest[..n], cfg);
        OneMoreCounted(before.blocks, block, channel);
        WriteBlock(block, before);
        rest, next, added := rest[n..], next + 1, added + block.count;
      }
    }

    /** Delete the row of a channel's oldest block. */
    method DropOne(channel: string, oldest: Block, ghost next: int, ghost x: Index)
      requires In(x) && AscendingIds(x.blocks) && Sequenced(BlocksOf(x.blocks, channel), next)
      requires Oldest(BlocksOf(x.blocks, channel)) == Some(oldest)
      modifies this
      ensures Logged() && s.phase.Writing? && s.phase.tx.channels == x.channels
      ensures s.phase.tx.blocks == DropFirst(x.blocks, channel)
      ensures Onward(old(s), old(run))
    {
      OldestRow(x, channel, next);
      Do(DeleteRow(oldest.id));
    }

    /** Delete the oldest rows until the channel is within its allowance. */
    method DropOldest(channel: string, retained0: int, ghost next: int, ghost x: Index) returns (retained: int)
      requires In(x) && AscendingIds(x.blocks) && Sequenced(BlocksOf(x.blocks, channel), next)
      requires retained0 == Messages(BlocksOf(x.blocks, channel))
      modifies this
      ensures Logged() && s.phase.Writing? && s.phase.tx.channels == x.channels
      ensures s.phase.tx.blocks == Retain(x.blocks, channel, cfg.Allowed())
      ensures retained == Messages(BlocksOf(s.phase.tx.blocks, channel))
      ensures Onward(old(s), old(run))
    {
      retained := retained0;
      while retained > cfg.Allowed()
        invariant Logged() && s.phase.Writing? && s.phase.tx.channels == x.channels
        invariant AscendingIds(s.phase.tx.blocks) && Sequenced(BlocksOf(s.phase.tx.blocks, channel), next)
        invariant Retain(s.phase.tx.blocks, channel, cfg.Allowed()) == Retain(x.blocks, channel, cfg.Allowed())
        invariant retained == Messages(BlocksOf(s.phase.tx.blocks, channel))
        invariant Onward(old(s), old(run))
        decreases |s.phase.tx.blocks|
      {
        var oldest := Oldest(BlocksOf(s.phase.tx.blocks, channel));
        if oldest.None? {
          break;
        }
        OldestGoes(s.phase.tx.blocks, channel, next);
        DropOne(channel, oldest.value, next, s.phase.tx);
        retained := retained - oldest.value.count;
      }
    }

    /** Read a block back from its extent; the index never names one that cannot be read. */
    method ReadBlock(x: Index, b: Block) returns (records: seq<Record>)
      requires Logged() && b in x.blocks && (x == s.index || (s.phase.Writing? && x == s.phase.tx))
      ensures records == b.records
    {
      RunInv(codec, run, acts, |run| - 1);
      assert exists limit: nat :: Placed(codec, x.places, b, s.data.view, limit) by {
        if x == s.index {
          assert Placed(codec, x.places, b, s.data.view, s.data.low);
        } else {
          assert Placed(codec, x.places, b, s.data.view, |s.data.view|);
        }
      }
      var decoded := codec.read(Slice(s.data.view, PlaceOf(x.places, b.id)));
      assert decoded == Some(b.records);
      return decoded.value;
    }

    /** All records of a channel, block after block. */
    method ReadChannel(x: Index, channel: string) returns (records: seq<Record>)
      requires Logged() && (x == s.index || (s.phase.Writing? && x == s.phase.tx))
      ensures records == Held(x.blocks, channel)
    {
      var l := BlocksOf(x.blocks, channel);
      BlocksOfSound(x.blocks, channel);
      records := [];
      for i := 0 to |l|
        invariant records == RecordsOf(l[..i])
      {
        assert l[i] in l;
        var more := ReadBlock(x, l[i]);
        assert l[..i + 1] == l[..i] + [l[i]];
        RecordsOfConcat(l[..i], [l[i]]);
        assert RecordsOf([l[i]]) == l[i].records + RecordsOf([]);
        records := records + more;
      }
      assert l[..|l|] == l;
    }

    /** What of a batch the channel does not hold yet. */
    method ReadUnseen(channel: string, records: seq<Record>, ghost x: Index) returns (kept: seq<Record>)
      requires Logged() && s.phase.Writing? && s.phase.tx.blocks == x.blocks
      ensures kept == Unseen(x, channel, records)
    {
      var held := ReadChannel(s.phase.tx, channel);
      var novel, _ := RetainUnseen(Sort(records, EventOrder()), Keys(held));
      return novel;
    }

    /** Write the new records, enforce retention, write the counter. */
    method WriteKept(channel: string, kept: seq<Record>, ghost y: Index)
      requires In(y) && AscendingIds(y.blocks) && channel in y.channels
      requires ListInv(BlocksOf(y.blocks, channel), channel, y.channels[channel].next, cfg, map[], stamp)
      requires Admissible(kept, channel, map[], stamp) && DistinctKeys(Held(y.blocks, channel) + kept)
      requires y.channels[channel].retained == Messages(BlocksOf(y.blocks, channel))
      modifies this
      ensures Logged() && Onward(old(s), old(run))
      ensures var (blocks, next) := AddChunks(y.blocks, channel, y.channels[channel].next, kept, cfg);
              && s.phase.tx.blocks == Retain(blocks, channel, cfg.Allowed())
              && s.phase.tx.channels == y.channels[channel := Counter(next, Messages(BlocksOf(s.phase.tx.blocks, channel)))]
    {
      var counter := s.phase.tx.channels[channel];
      ChunksKeep(y.blocks, channel, counter.next, kept, cfg, map[], stamp);
      var next, added := WriteChunks(channel, kept, counter.next, y);
      var retained := DropOldest(channel, counter.retained + added, next, s.phase.tx);
      Do(SetCounter(channel, Counter(next, retained)));
    }

    /** INSERT OR IGNORE INTO channels. */
    method EnsureChannel(channel: string, ghost x: Index)
      requires In(x)
      modifies this
      ensures Logged() && Onward(old(s), old(run))
      ensures s.phase.tx.blocks == x.blocks && s.phase.tx.channels == x.channels[channel := CounterOf(x, channel)]
    {
      if channel !in s.phase.tx.channels {
        Do(SetCounter(channel, Counter(0, 0)));
      } else {
        assert x.channels == x.channels[channel := x.channels[channel]];
      }
    }

    /** One channel batch: drop what the channel holds, write the rest in chunks, enforce retention. */
    method AppendTransaction(channel: string, records: seq<Record>, ghost x: Index)
      requires In(x) && AscendingIds(x.blocks) && ChannelOk(x, cfg, stamp, channel) && Admissible(records, channel, map[], stamp)
      modifies this
      ensures Logged() && Onward(old(s), old(run))
      ensures Appended(x, s.phase.tx, cfg, channel, records)
    {
      EnsureChannel(channel, x);
      var kept := ReadUnseen(channel, records, x);
      if kept == [] {
        return;
      }
      UnseenFacts(x, cfg, stamp, channel, records);
      ghost var y := s.phase.tx;
      WriteKept(channel, kept, y);
      assert y.channels[channel] == CounterOf(x, channel);
    }

    /**
     * All batches in one index transaction, the file synced before the commit. An error, here after
     * `healthy` batches or at the commit, rolls the index back and cuts the file to its old length.
     */
    method AppendChannelBatches(batches: seq<seq<Record>>, healthy: nat) returns (r: Outcome<()>)
      requires Valid() && forall rs <- batches :: Stamped(rs, stamp)
      modifies this
      ensures Valid() && old(run) <= run
      ensures r.Done? <==> healthy > |batches| && AllOneChannel(batches)
      ensures r.Done? ==> forall c ::
                RecordLists(BlocksOf(s.index.blocks, c)) == PushedAll(RecordLists(BlocksOf(old(s.index.blocks), c)), cfg, batches, c)
      ensures r.Failed? ==> s.index == old(s.index) && s.data.view == old(s.data.view)
      ensures r == Failed(MixedChannelBatch) <==> !AllOneChannel(batches)
    {
      var unmixed := CheckChannels(batches);
      if !unmixed {
        return Failed(MixedChannelBatch);
      }
      ghost var start := s;
      Do(Begin);
      ghost var begun := s;
      var i := 0;
      while i < |batches| && i < healthy
        invariant i <= |batches| && i <= healthy
        invariant Logged() && Onward(begun, old(run)) && IndexOk(s.phase.tx, cfg, stamp)
        invariant PushedUpTo(start.index, s.phase.tx, batches, i)
        decreases |batches| - i
      {
        AppendOne(batches, i, start.index);
        i := i + 1;
      }
      if healthy > |batches| {
        assert batches[..i] == batches;
        Do(Sync);
        Do(Commit);
        return Done(());
      }
      Abort(begun, start);
      return Failed(Backend);
    }

    /** Every channel is as the reference store has it after the first `n` batches. */
    ghost predicate PushedUpTo(start: Index, x: Index, batches: seq<seq<Record>>, n: nat)
      requires n <= |batches| && cfg.Valid()
    {
      forall c :: RecordLists(BlocksOf(x.blocks, c)) == PushedAll(RecordLists(BlocksOf(start.blocks, c)), cfg, batches[..n], c)
    }

    method AppendOne(batches: seq<seq<Record>>, i: nat, ghost start: Index)
      requires Logged() && s.phase.Writing? && IndexOk(s.phase.tx, cfg, stamp)
      requires i < |batches| && Stamped(batches[i], stamp) && (batches[i] != [] ==> OneChannel(batches[i]))
      requires PushedUpTo(start, s.phase.tx, batches, i)
      modifies this
      ensures Logged() && Onward(old(s), old(run)) && IndexOk(s.phase.tx, cfg, stamp)
      ensures PushedUpTo(start, s.phase.tx, batches, i + 1)
    {
      assert batches[..i + 1][..i] == batches[..i];
      if batches[i] == [] {
        return;
      }
      ghost var x := s.phase.tx;
      var channel := batches[i][0].channel;
      assert ChannelOk(x, cfg, stamp, channel);
      AppendTransaction(channel, batches[i], x);
      AppendedOk(x, s.phase.tx, cfg, stamp, channel, batches[i]);
      AppendedIsPushed(x, s.phase.tx, cfg, stamp, channel, batches[i]);
      GrownList(x, cfg, stamp, channel, batches[i]);
    }

    /** The error path: roll back, cut the file to where the transaction began, sync. */
    method Abort(ghost begun: Seg, ghost start: Seg)
      requires Logged() && Onward(begun, [])
      requires begun.data == start.data && begun.index == start.index && begun.phase == Writing(start.index, |start.data.view|)
      modifies this
      ensures Logged() && s.phase.Ready? && s.index == start.index && s.data.view == start.data.view
      ensures old(run) <= run
    {
      RunInv(codec, run, acts, |run| - 1);
      Do(Rollback);
      Do(Truncate);
      Do(Sync);
    }

    /** The newest records of the channel received inside the window. */
    method Query(request: QueryRequest) returns (r: Outcome<LocalResult>)
      requires Valid()
      ensures if request.limit == 0 then r == Failed(InvalidLimit)
              else r == Done(Answer(Held(s.index.blocks, request.channel), request))
    {
      if request.limit == 0 {
        return Failed(InvalidLimit);
      }
      var records := ReadChannel(s.index, request.channel);
      return Done(Answer(records, request));
    }
  }

  lemma {:induction false} OneMoreCounted(blocks: seq<Block>, b: Block, channel: string)
    requires b.channel == channel
    ensures Messages(BlocksOf(blocks + [b], channel)) == Messages(BlocksOf(blocks, channel)) + b.count
  {
    OneMore(blocks, b, channel);
    RecordsOfConcat(BlocksOf(blocks, channel), [b]);
    assert Messages([b]) == b.count + Messages([]);
  }
}
