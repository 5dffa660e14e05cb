/** The reference store: per channel a queue of blocks and the set of every key in it. */
module MemoryStore {
  import opened Ordering
  import opened Records
  import opened Tables
  import opened Lists
  import opened Invariants
  import opened Queries
  import opened SqliteStore

  datatype ChannelBlocks = ChannelBlocks(blocks: seq<seq<Record>>, seen: set<EventKey>, count: nat)

  const NOTHING: ChannelBlocks := ChannelBlocks([], {}, 0)

  function Flat(blocks: seq<seq<Record>>): seq<Record> {
    if blocks == [] then [] else blocks[0] + Flat(blocks[1..])
  }

  function Chunks(rs: seq<Record>, cfg: Config): seq<seq<Record>>
    requires cfg.Valid()
    decreases |rs|
  {
    if rs == [] then [] else [rs[..ChunkSize(rs, cfg)]] + Chunks(rs[ChunkSize(rs, cfg)..], cfg)
  }

  /** Whole oldest blocks leave while there are too many messages. */
  function PopFront(blocks: seq<seq<Record>>, allowed: nat): seq<seq<Record>> {
    if blocks != [] && |Flat(blocks)| > allowed then PopFront(blocks[1..], allowed) else blocks
  }

  /** What a batch makes of a channel, told from the blocks alone. */
  function Pushed(blocks: seq<seq<Record>>, cfg: Config, rs: seq<Record>): seq<seq<Record>>
    requires cfg.Valid()
  {
    PopFront(blocks + Chunks(Firsts(Sort(rs, EventOrder()), Keys(Flat(blocks))), cfg), cfg.Allowed())
  }

  /** The seen-set and the counter are those of the stored records, and no event is stored twice. */
  ghost predicate Coherent(c: ChannelBlocks) {
    c.seen == Keys(Flat(c.blocks)) && c.count == |Flat(c.blocks)| && DistinctKeys(Flat(c.blocks))
  }

  lemma {:induction false} FlatConcat(a: seq<seq<Record>>, b: seq<seq<Record>>)
    ensures Flat(a + b) == Flat(a) + Flat(b)
  {
    if a == [] {
      assert a + b == b;
    } else {
      assert (a + b)[1..] == a[1..] + b;
      FlatConcat(a[1..], b);
    }
  }

  lemma {:induction false} FlatChunks(rs: seq<Record>, cfg: Config)
    requires cfg.Valid()
    ensures Flat(Chunks(rs, cfg)) == rs
    decreases |rs|
  {
    if rs != [] {
      var n := ChunkSize(rs, cfg);
      FlatChunks(rs[n..], cfg);
      assert Chunks(rs, cfg)[1..] == Chunks(rs[n..], cfg);
      assert rs == rs[..n] + rs[n..];
    }
  }

  class MemoryBlockStore {
    const cfg: Config
    var channels: map<string, ChannelBlocks>

    ghost predicate Valid()
      reads this
    {
      cfg.Valid() && forall c <- channels :: Coherent(channels[c])
    }

    function BlocksHeld(channel: string): seq<seq<Record>>
      reads this
    {
      if channel in channels then channels[channel].blocks else []
    }

    constructor (cfg: Config)
      requires cfg.Valid()
      ensures Valid() && channels == map[] && this.cfg == cfg
    {
      this.cfg := cfg;
      this.channels := map[];
    }

    /** Keep the first copy of every event not seen, push it in chunks, pop the oldest blocks. */
    method AppendBatch(batch: seq<Record>) returns (r: Outcome<()>)
      requires Valid()
      modifies this`channels
      ensures Valid()
      ensures r.Done? <==> batch == [] || OneChannel(batch)
      ensures r.Failed? || batch == [] ==> channels == old(channels)
      ensures r.Done? && batch != [] ==>
                BlocksHeld(batch[0].channel) == Pushed(old(BlocksHeld(batch[0].channel)), cfg, batch)
      ensures r.Done? && batch != [] ==> forall c :: c != batch[0].channel ==> BlocksHeld(c) == old(BlocksHeld(c))
    {
      if batch == [] {
        return Done(());
      }
      if !OneChannel(batch) {
        return Failed(MixedChannelBatch);
      }
      var channel := batch[0].channel;
      var records := Sort(batch, EventOrder());
      var entry := if channel in channels then channels[channel] else NOTHING;
      var kept, seen := RetainUnseen(records, entry.seen);
      KeptFits(entry, records, kept, seen, cfg);
      var pushed := PushChunks(entry.blocks, kept, cfg);
      entry := ChannelBlocks(pushed, seen, entry.count + |kept|);
      entry := EvictOver(entry, cfg.Allowed());
      channels := channels[channel := entry];
      return Done(());
    }

    method Query(request: QueryRequest) returns (r: Outcome<LocalResult>)
      requires Valid()
      ensures if request.limit == 0 then r == Failed(InvalidLimit)
              else r == Done(Answer(Flat(BlocksHeld(request.channel)), request))
    {
      if request.limit == 0 {
        return Failed(InvalidLimit);
      }
      var blocks := if request.channel in channels then channels[request.channel].blocks else [];
      var all: seq<Record> := [];
      for i := 0 to |blocks|
        invariant all == Flat(blocks[..i])
      {
        assert blocks[..i + 1] == blocks[..i] + [blocks[i]];
        FlatConcat(blocks[..i], [blocks[i]]);
        assert Flat([blocks[i]]) == blocks[i] + Flat([]);
        all := all + blocks[i];
      }
      assert blocks[..|blocks|] == blocks;
      return Done(Answer(all, request));
    }
  }

  lemma {:induction false} KeptFits(entry: ChannelBlocks, records: seq<Record>, kept: seq<Record>, seen: set<EventKey>, cfg: Config)
    requires Coherent(entry) && cfg.Valid()
    requires kept == Firsts(records, entry.seen) && seen == entry.seen + Keys(kept)
    ensures Coherent(ChannelBlocks(entry.blocks + Chunks(kept, cfg), seen, entry.count + |kept|))
  {
    FlatConcat(entry.blocks, Chunks(kept, cfg));
    FlatChunks(kept, cfg);
    KeysConcat(Flat(entry.blocks), kept);
    FirstsAreFirst(records, entry.seen);
    DistinctConcat(Flat(entry.blocks), kept);
  }

  /** records.retain(|record| seen.insert(record.event_key)). */
  method RetainUnseen(records: seq<Record>, seen0: set<EventKey>) returns (kept: seq<Record>, seen: set<EventKey>)
    ensures kept == Firsts(records, seen0) && seen == seen0 + Keys(kept)
  {
    kept, seen := [], seen0;
    for i := 0 to |records|
      invariant kept == Firsts(records[..i], seen0)
      invariant seen == seen0 + Keys(kept)
    {
      assert records[..i + 1][..i] == records[..i];
      if records[i].key !in seen {
        KeysConcat(kept, [records[i]]);
        seen := seen + {records[i].key};
        kept := kept + [records[i]];
      }
    }
    assert records[..|records|] == records;
  }

  method PushChunks(blocks: seq<seq<Record>>, kept: seq<Record>, cfg: Config) returns (out: seq<seq<Record>>)
    requires cfg.Valid()
    ensures out == blocks + Chunks(kept, cfg)
  {
    out := blocks;
    var rest := kept;
    while rest != []
      invariant out + Chunks(rest, cfg) == blocks + Chunks(kept, cfg)
      decreases |rest|
    {
      var n := ChunkSize(rest, cfg);
      assert Chunks(rest, cfg) == [rest[..n]] + Chunks(rest[n..], cfg);
      out := out + [rest[..n]];
      rest := rest[n..];
    }
  }

  /** Pop the oldest blocks and forget their keys one record at a time. */
  method EvictOver(entry0: ChannelBlocks, allowed: nat) returns (entry: ChannelBlocks)
    requires Coherent(entry0)
    ensures Coherent(entry) && entry.blocks == PopFront(entry0.blocks, allowed)
  {
    entry := entry0;
    while entry.count > allowed
      invariant Coherent(entry)
      invariant PopFront(entry.blocks, allowed) == PopFront(entry0.blocks, allowed)
      decreases |entry.blocks|
    {
      if entry.blocks == [] {
        break;
      }
      var evicted, rest := entry.blocks[0], entry.blocks[1..];
      var seen, count := entry.seen, entry.count;
      DistinctConcat(evicted, Flat(rest));
      KeysConcat(evicted, Flat(rest));
      for i := 0 to |evicted|
        invariant seen == entry.seen - Keys(evicted[..i])
        invariant count == entry.count - i
      {
        assert evicted[..i + 1] == evicted[..i] + [evicted[i]];
        KeysConcat(evicted[..i], [evicted[i]]);
        seen := seen - {evicted[i].key};
        count := count - 1;
      }
      assert evicted[..|evicted|] == evicted;
      entry := ChannelBlocks(rest, seen, count);
    }
  }
}
