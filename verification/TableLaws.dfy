/** What the statements on the block tables do, row by row and field by field. */
module TableLaws {
  import opened Records
  import opened Tables
  import opened Lists
  import opened Journal

  /** A purge keeps exactly the blocks and rows of other channels and raises the cutoff to the later of the two. */
  lemma {:induction false} PurgeByRows(s: Store, channel: string, at: int)
    ensures var after := Purge(s, channel, at);
            && (forall b :: b in after.blocks <==> b in s.blocks && b.channel != channel)
            && (forall c :: c in after.channels <==> c in s.channels && c != channel)
            && (forall c <- after.channels :: after.channels[c] == s.channels[c])
            && channel in after.cutoffs
            && after.cutoffs[channel] == (if channel in s.cutoffs && s.cutoffs[channel] > at then s.cutoffs[channel] else at)
            && (forall c :: c != channel ==> (c in after.cutoffs <==> c in s.cutoffs))
            && (forall c <- s.cutoffs :: c != channel ==> after.cutoffs[c] == s.cutoffs[c])
            && after.blocked == s.blocked && after.journal == s.journal && after.offsets == s.offsets
  {
  }

  /** Blocking keeps exactly the blocks and rows of other channels; unblocking keeps all. */
  lemma {:induction false} BlockByRows(s: Store, channel: string, blocked: bool)
    ensures var after := SetBlocked(s, channel, blocked);
            && (forall c :: c in after.blocked <==> if c == channel then blocked else c in s.blocked)
            && (forall b :: b in after.blocks <==> b in s.blocks && (blocked ==> b.channel != channel))
            && (forall c :: c in after.channels <==> c in s.channels && (blocked ==> c != channel))
            && (forall c <- after.channels :: after.channels[c] == s.channels[c])
            && after.cutoffs == s.cutoffs && after.journal == s.journal && after.offsets == s.offsets
            && (!blocked ==> after.blocks == s.blocks)
  {
  }

  /** The listed channels are the blocked ones afterwards, and have neither blocks nor rows; others keep theirs. */
  lemma {:induction false} SyncByRows(s: Store, listed: seq<string>)
    ensures var after := SyncBlocked(s, listed);
            && (forall c :: c in after.blocked <==> c in listed)
            && (forall b :: b in after.blocks <==> b in s.blocks && b.channel !in listed)
            && (forall c :: c in after.channels <==> c in s.channels && c !in listed)
            && (forall c <- after.channels :: after.channels[c] == s.channels[c])
            && after.cutoffs == s.cutoffs && after.journal == s.journal && after.offsets == s.offsets
  {
  }

  /** Eviction takes exactly the blocks with these ids. */
  lemma {:induction false} EvictByRows(s: Store, ids: seq<nat>)
    ensures var after := Evict(s, ids);
            (forall b :: b in after.blocks <==> b in s.blocks && b.id !in ids) && after == s.(blocks := after.blocks)
  {
  }

  /**
   * Expiry keeps exactly the blocks with an event at or past the cutoff, and of the rows those of
   * channels that still have a block or were asked for at or after the cutoff.
   */
  lemma {:induction false} ExpireByRows(s: Store, cutoff: int)
    ensures var after := Expire(s, cutoff);
            && (forall b :: b in after.blocks <==> b in s.blocks && b.last >= cutoff)
            && (forall c :: c in after.channels ==> c in s.channels)
            && (forall c <- s.channels :: c in after.channels <==>
                  ((exists b <- after.blocks :: b.channel == c) || (s.channels[c].requested != 0 && s.channels[c].requested >= cutoff)))
            && (forall c <- after.channels :: after.channels[c] == s.channels[c])
            && after.blocked == s.blocked && after.cutoffs == s.cutoffs && after.journal == s.journal && after.offsets == s.offsets
  {
    var after := Expire(s, cutoff);
    forall c ensures BlocksOf(after.blocks, c) == [] <==> forall b <- after.blocks :: b.channel != c {
      BlocksOfSound(after.blocks, c);
      Empty(BlocksOf(after.blocks, c));
    }
  }

  lemma {:induction false} Empty(l: seq<Block>)
    ensures l == [] <==> forall b :: b !in l
  {
    if l != [] {
      assert l[0] in l;
    }
  }

  /**
   * A request is recorded in a new row, or in one whose last request is older than the given time;
   * nothing else changes, so a sequence never starts over.
   */
  lemma {:induction false} TouchByRows(s: Store, channel: string, at: int, before: int)
    ensures var after := Touch(s, channel, at, before);
            && channel in after.channels
            && after.channels[channel].requested == (if channel in s.channels && s.channels[channel].requested >= before
                                                     then s.channels[channel].requested else at)
            && after.channels[channel].next == (if channel in s.channels then s.channels[channel].next else 0)
            && (forall c :: c != channel ==> (c in after.channels <==> c in s.channels))
            && (forall c <- s.channels :: c != channel ==> after.channels[c] == s.channels[c])
            && after == s.(channels := after.channels)
  {
  }

  /** Chunking adds blocks at the end that hold the records in order. */
  lemma {:induction false} ChunksFollow(blocks: seq<Block>, channel: string, next: int, rs: seq<Record>, cfg: Config)
    requires cfg.Valid()
    ensures var out := AddChunks(blocks, channel, next, rs, cfg).0;
            |blocks| <= |out| && out[..|blocks|] == blocks && RecordsOf(out[|blocks|..]) == rs
    decreases |rs|
  {
    var out := AddChunks(blocks, channel, next, rs, cfg).0;
    if rs == [] {
      assert out[|blocks|..] == [];
    } else {
      var n := ChunkSize(rs, cfg);
      var b := FirstChunk(blocks, channel, next, rs, cfg);
      FirstIsFull(blocks, channel, next, rs, cfg, out);
      ChunksFollow(blocks + [b], channel, next + 1, rs[n..], cfg);
      SplitAt(out, blocks, b);
      assert rs == rs[..n] + rs[n..];
    }
  }

  /** Every block that chunking adds is full, but the last, and has the next sequence. */
  lemma {:induction false} ChunksAreFull(blocks: seq<Block>, channel: string, next: int, rs: seq<Record>, cfg: Config, i: nat)
    requires cfg.Valid()
    requires |blocks| <= i < |AddChunks(blocks, channel, next, rs, cfg).0|
    ensures var out := AddChunks(blocks, channel, next, rs, cfg).0;
            && 0 < |out[i].records| <= cfg.blockMessages && out[i].channel == channel && out[i].sequence == next + i - |blocks|
            && (i < |out| - 1 ==> |out[i].records| == cfg.blockMessages)
    decreases |rs|
  {
    var out := AddChunks(blocks, channel, next, rs, cfg).0;
    if rs != [] {
      var b := FirstChunk(blocks, channel, next, rs, cfg);
      FirstIsFull(blocks, channel, next, rs, cfg, out);
      ChunksFollow(blocks + [b], channel, next + 1, rs[ChunkSize(rs, cfg)..], cfg);
      SplitAt(out, blocks, b);
      if i > |blocks| {
        ChunksAreFull(blocks + [b], channel, next + 1, rs[ChunkSize(rs, cfg)..], cfg, i);
      }
    }
  }

  lemma {:induction false} SplitAt(out: seq<Block>, blocks: seq<Block>, b: Block)
    requires |blocks| < |out| && out[..|blocks| + 1] == blocks + [b]
    ensures out[..|blocks|] == blocks && out[|blocks|] == b
    ensures RecordsOf(out[|blocks|..]) == b.records + RecordsOf(out[|blocks| + 1..])
  {
    assert out[..|blocks|] == out[..|blocks| + 1][..|blocks|];
    assert out[|blocks|] == out[..|blocks| + 1][|blocks|];
    assert out[|blocks|..][1..] == out[|blocks| + 1..];
  }

  lemma {:induction false} FirstIsFull(blocks: seq<Block>, channel: string, next: int, rs: seq<Record>, cfg: Config, out: seq<Block>)
    requires cfg.Valid() && rs != [] && out == AddChunks(blocks, channel, next, rs, cfg).0
    ensures var n, b := ChunkSize(rs, cfg), FirstChunk(blocks, channel, next, rs, cfg);
            && b.records == rs[..n] && 0 < n <= cfg.blockMessages && (n < cfg.blockMessages ==> rs[n..] == [])
            && out == AddChunks(blocks + [b], channel, next + 1, rs[n..], cfg).0
            && (rs[n..] == [] ==> out == blocks + [b])
  {
  }

  /** Retiring takes exactly the rows of the stream that end by the sequence, and touches nothing else. */
  lemma {:induction false} RetireByRows(s: Store, stream: Stream, through: int)
    ensures var after := RetireJournal(s, stream, through);
            && (forall row :: row in after.journal <==> row in s.journal && !(row.stream == stream && row.last <= through))
            && after == s.(journal := after.journal)
  {
  }

  /** An accepted batch changes nothing but the journal and the offset of its stream. */
  lemma {:induction false} AcceptTouchesOnly(s: Store, cfg: Config, stream: Stream, first: nat, last: nat, payload: seq<Record>)
    requires AcceptJournal(s, cfg, stream, first, last, payload).Ok?
    ensures var a := AcceptJournal(s, cfg, stream, first, last, payload).value;
            && a.store == s.(journal := a.store.journal, offsets := a.store.offsets)
            && stream in a.store.offsets && a.store.offsets[stream] == a.through
            && (forall t :: t != stream ==> (t in a.store.offsets <==> t in s.offsets))
            && (forall t <- s.offsets :: t != stream ==> a.store.offsets[t] == s.offsets[t])
  {
  }
}
