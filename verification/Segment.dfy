/**
 * Crash consistency of the segment store: blocks in one append-only data file, their extents in an
 * index database. A crash keeps of the file only what was synced and not truncated since.
 */
module Segment {
  import opened Records
  import opened Tables
  import opened Lists
  import opened Invariants
  import opened Journal

  /** How a block's records are written; what is written can be read back. */
  datatype Codec = Codec(write: seq<Record> -> seq<bv8>, read: seq<bv8> -> Option<seq<Record>>) {
    ghost predicate Valid() { forall rs :: read(write(rs)) == Some(rs) }
  }

  datatype Extent = Extent(offset: nat, bytes: nat) {
    function End(): nat { offset + bytes }
  }

  /** next_block_sequence and retained_messages of a channel. */
  datatype Counter = Counter(next: int, retained: int)

  /** The index database: block rows in id order, and where each block lies in the file. */
  datatype Index = Index(blocks: seq<Block>, channels: map<string, Counter>, places: map<nat, Extent>)

  const NO_INDEX: Index := Index([], map[], map[])

  /** The file as the process sees it; its first `low` bytes survive any crash. */
  datatype DataFile = DataFile(view: seq<bv8>, low: nat)

  function Synced(f: DataFile): DataFile { f.(low := |f.view|) }

  function SetLen(f: DataFile, n: nat): DataFile
    requires n <= |f.view|
  {
    DataFile(f.view[..n], if f.low < n then f.low else n)
  }

  /** Every row has a place; the other value does not occur. */
  function PlaceOf(places: map<nat, Extent>, id: nat): Extent {
    if id in places then places[id] else Extent(1, 1)
  }

  /** SELECT COALESCE(MAX(file_offset + payload_bytes), 0). */
  function LastEnd(blocks: seq<Block>, places: map<nat, Extent>): nat {
    if blocks == [] then 0
    else
      var rest, end := LastEnd(blocks[1..], places), PlaceOf(places, blocks[0].id).End();
      if end > rest then end else rest
  }

  function IndexedEnd(x: Index): nat { LastEnd(x.blocks, x.places) }

  /** The bytes of an extent. */
  function Slice(view: seq<bv8>, p: Extent): seq<bv8> {
    if p.End() <= |view| then view[p.offset..p.End()] else []
  }

  datatype Phase =
    | Closed
    | Opening                              // truncated, not yet synced
    | Ready
    | Writing(tx: Index, start: nat)       // a transaction, begun when the file ended at `start`
    | Failing(start: nat)                  // rolled back, the file not yet truncated
    | Repairing                            // truncated, not yet synced

  datatype Seg = Seg(data: DataFile, index: Index, phase: Phase)

  datatype Act =
    | Open
    | Begin
    | WriteBytes(bytes: seq<bv8>)
    | InsertRow(block: Block, place: Extent)
    | DeleteRow(id: nat)
    | SetCounter(channel: string, counter: Counter)
    | Sync
    | Commit
    | Rollback
    | Truncate
    | GiveUp                               // truncating or syncing failed
    | Crash(left: seq<bv8>)

  function Removed(x: Index, id: nat): Index {
    x.(blocks := Without(x.blocks, HasId(id)))
  }

  function Inserted(x: Index, b: Block, p: Extent): Index {
    x.(blocks := x.blocks + [b], places := x.places[b.id := p])
  }

  function Next(codec: Codec, s: Seg, act: Act): Option<Seg> {
    match act
    case Crash(left) =>
      if s.data.low <= |left| && s.data.low <= |s.data.view| && left[..s.data.low] == s.data.view[..s.data.low]
      then Some(Seg(DataFile(left, s.data.low), s.index, Closed)) else None
    case Open =>
      var end := IndexedEnd(s.index);
      if !s.phase.Closed? || |s.data.view| < end then None
      else if |s.data.view| > end then Some(s.(data := SetLen(s.data, end), phase := Opening))
      else Some(s.(phase := Ready))
    case Begin => if s.phase.Ready? then Some(s.(phase := Writing(s.index, |s.data.view|))) else None
    case WriteBytes(bytes) =>
      if s.phase.Writing? then Some(s.(data := s.data.(view := s.data.view + bytes))) else None
    case InsertRow(b, p) =>
      if s.phase.Writing? && b.id == NextId(s.phase.tx.blocks)
         && IndexedEnd(s.phase.tx) <= p.offset && p.End() == |s.data.view| && s.data.view[p.offset..] == codec.write(b.records)
      then Some(s.(phase := s.phase.(tx := Inserted(s.phase.tx, b, p)))) else None
    case DeleteRow(id) => if s.phase.Writing? then Some(s.(phase := s.phase.(tx := Removed(s.phase.tx, id)))) else None
    case SetCounter(c, counter) =>
      if s.phase.Writing?
      then Some(s.(phase := s.phase.(tx := s.phase.tx.(channels := s.phase.tx.channels[c := counter])))) else None
    case Sync =>
      if s.phase.Opening? || s.phase.Repairing? then Some(s.(data := Synced(s.data), phase := Ready))
      else if s.phase.Writing? then Some(s.(data := Synced(s.data))) else None
    case Commit =>
      if s.phase.Writing? && s.data.low == |s.data.view| then Some(s.(index := s.phase.tx, phase := Ready)) else None
    case Rollback => if s.phase.Writing? then Some(s.(phase := Failing(s.phase.start))) else None
    case Truncate =>
      if s.phase.Failing? && s.phase.start <= |s.data.view| then Some(s.(data := SetLen(s.data, s.phase.start), phase := Repairing)) else None
    case GiveUp =>
      if s.phase.Opening? then Some(s.(phase := Closed))
      else if s.phase.Failing? || s.phase.Repairing? then Some(s.(phase := Ready)) else None
  }

  /* ---------- invariant ---------- */

  /** The block lies below `limit` and its extent holds what was written. */
  ghost predicate Placed(codec: Codec, places: map<nat, Extent>, b: Block, view: seq<bv8>, limit: nat) {
    b.id in places && places[b.id].End() <= limit && Slice(view, places[b.id]) == codec.write(b.records)
  }

  /** Extents of live blocks are disjoint: they follow one another in id order. */
  ghost predicate Disjoint(x: Index) {
    forall b <- x.blocks, c <- x.blocks :: b.id < c.id ==> PlaceOf(x.places, b.id).End() <= PlaceOf(x.places, c.id).offset
  }

  ghost predicate Fits(codec: Codec, x: Index, view: seq<bv8>, limit: nat) {
    && limit <= |view| && AscendingIds(x.blocks) && Disjoint(x)
    && forall b <- x.blocks :: Placed(codec, x.places, b, view, limit)
  }

  ghost predicate SegInv(codec: Codec, s: Seg) {
    && s.data.low <= |s.data.view|
    && Fits(codec, s.index, s.data.view, s.data.low)
    && (s.phase.Writing? ==> Fits(codec, s.phase.tx, s.data.view, |s.data.view|)
                             && IndexedEnd(s.index) <= s.phase.start <= |s.data.view|)
    && (s.phase.Failing? ==> IndexedEnd(s.index) <= s.phase.start <= |s.data.view|)
  }

  lemma {:induction false} EndOf(blocks: seq<Block>, places: map<nat, Extent>, b: Block)
    requires b in blocks
    ensures PlaceOf(places, b.id).End() <= LastEnd(blocks, places)
  {
    if b != blocks[0] {
      EndOf(blocks[1..], places, b);
    }
  }

  lemma {:induction false} EndWithin(blocks: seq<Block>, places: map<nat, Extent>, limit: nat)
    requires forall b <- blocks :: PlaceOf(places, b.id).End() <= limit
    ensures LastEnd(blocks, places) <= limit
  {
    if blocks != [] {
      assert blocks[0] in blocks;
      EndWithin(blocks[1..], places, limit);
    }
  }

  lemma {:induction false} FitsEnd(codec: Codec, x: Index, view: seq<bv8>, limit: nat)
    requires Fits(codec, x, view, limit)
    ensures IndexedEnd(x) <= limit
  {
    forall b | b in x.blocks ensures PlaceOf(x.places, b.id).End() <= limit {
      assert Placed(codec, x.places, b, view, limit);
    }
    EndWithin(x.blocks, x.places, limit);
  }

  /** A file that agrees up to an end agrees on extents below it. */
  lemma {:induction false} SliceStill(view: seq<bv8>, view': seq<bv8>, end: nat, p: Extent)
    requires end <= |view| && end <= |view'| && view'[..end] == view[..end] && p.End() <= end
    ensures Slice(view', p) == Slice(view, p)
  {
    assert view'[p.offset..p.End()] == view'[..end][p.offset..p.End()];
    assert view[p.offset..p.End()] == view[..end][p.offset..p.End()];
  }

  /** Blocks stay in place when the file keeps their bytes. */
  lemma {:induction false} FitsStill(codec: Codec, x: Index, view: seq<bv8>, limit: nat, view': seq<bv8>, limit': nat)
    requires Fits(codec, x, view, limit)
    requires IndexedEnd(x) <= limit' <= |view'| && IndexedEnd(x) <= |view|
    requires view'[..IndexedEnd(x)] == view[..IndexedEnd(x)]
    ensures Fits(codec, x, view', limit')
  {
    forall b | b in x.blocks ensures Placed(codec, x.places, b, view', limit') {
      assert Placed(codec, x.places, b, view, limit);
      EndOf(x.blocks, x.places, b);
      SliceStill(view, view', IndexedEnd(x), x.places[b.id]);
    }
  }

  lemma {:induction false} RemovedFits(codec: Codec, x: Index, view: seq<bv8>, limit: nat, id: nat)
    requires Fits(codec, x, view, limit)
    ensures Fits(codec, Removed(x, id), view, limit)
  {
    WithoutAscends(x.blocks, HasId(id));
  }

  lemma {:induction false} NextIdIsNew(blocks: seq<Block>, c: Block)
    requires AscendingIds(blocks) && c in blocks
    ensures c.id < NextId(blocks)
  {
  }

  lemma {:induction false} InsertedFits(codec: Codec, x: Index, view: seq<bv8>, b: Block, p: Extent)
    requires Fits(codec, x, view, |view|) && b.id == NextId(x.blocks)
    requires IndexedEnd(x) <= p.offset && p.End() == |view| && view[p.offset..] == codec.write(b.records)
    ensures Fits(codec, Inserted(x, b, p), view, |view|)
  {
    var y := Inserted(x, b, p);
    forall c | c in x.blocks ensures c.id < b.id && PlaceOf(x.places, c.id).End() <= p.offset && Placed(codec, y.places, c, view, |view|) {
      NextIdIsNew(x.blocks, c);
      EndOf(x.blocks, x.places, c);
      assert Placed(codec, x.places, c, view, |view|);
    }
    assert Slice(view, p) == view[p.offset..];
    InsertedAscends(x.blocks, b);
    InsertedApart(x, b, p);
  }

  /** The new extent lies behind all others. */
  lemma {:induction false} InsertedApart(x: Index, b: Block, p: Extent)
    requires forall c <- x.blocks :: c.id < b.id && PlaceOf(x.places, c.id).End() <= p.offset
    requires forall c, d :: c in x.blocks && d in x.blocks && c.id < d.id ==> PlaceOf(x.places, c.id).End() <= PlaceOf(x.places, d.id).offset
    ensures var y := Inserted(x, b, p);
            forall c, d :: c in y.blocks && d in y.blocks && c.id < d.id ==> PlaceOf(y.places, c.id).End() <= PlaceOf(y.places, d.id).offset
  {
    var y := Inserted(x, b, p);
    forall c, d | c in y.blocks && d in y.blocks && c.id < d.id ensures PlaceOf(y.places, c.id).End() <= PlaceOf(y.places, d.id).offset {
      assert c == b || c in x.blocks;
      assert d == b || d in x.blocks;
    }
  }

  lemma {:induction false} InsertedAscends(blocks: seq<Block>, b: Block)
    requires AscendingIds(blocks) && b.id == NextId(blocks)
    ensures AscendingIds(blocks + [b])
  {
  }

  /** Everything but a commit leaves the index and the bytes it names alone. */
  lemma {:induction false} DataKept(codec: Codec, s: Seg, act: Act, s': Seg)
    requires SegInv(codec, s) && Next(codec, s, act) == Some(s') && !act.Commit?
    ensures s'.index == s.index
    ensures IndexedEnd(s.index) <= s'.data.low <= |s'.data.view|
    ensures s'.data.view[..IndexedEnd(s.index)] == s.data.view[..IndexedEnd(s.index)]
  {
    FitsEnd(codec, s.index, s.data.view, s.data.low);
    PrefixKept(codec, s, act, s', IndexedEnd(s.index));
  }

  lemma {:induction false} PrefixKept(codec: Codec, s: Seg, act: Act, s': Seg, end: nat)
    requires Next(codec, s, act) == Some(s') && end <= s.data.low <= |s.data.view| && end == IndexedEnd(s.index)
    requires s.phase.Failing? ==> end <= s.phase.start
    ensures end <= s'.data.low <= |s'.data.view|
    ensures s'.data.view[..end] == s.data.view[..end]
  {
    if act.Crash? {
      assert act.left[..end] == act.left[..s.data.low][..end];
      assert s.data.view[..end] == s.data.view[..s.data.low][..end];
    }
  }

  /** A transaction begins with the committed index, which fits the longer file too. */
  lemma {:induction false} BegunFits(codec: Codec, s: Seg)
    requires SegInv(codec, s)
    ensures Fits(codec, s.index, s.data.view, |s.data.view|)
  {
    FitsEnd(codec, s.index, s.data.view, s.data.low);
    FitsStill(codec, s.index, s.data.view, s.data.low, s.data.view, |s.data.view|);
  }

  /** Writing behind the end moves no extent. */
  lemma {:induction false} AppendedFits(codec: Codec, x: Index, view: seq<bv8>, more: seq<bv8>)
    requires Fits(codec, x, view, |view|)
    ensures Fits(codec, x, view + more, |view + more|)
  {
    FitsEnd(codec, x, view, |view|);
    assert (view + more)[..IndexedEnd(x)] == view[..IndexedEnd(x)];
    FitsStill(codec, x, view, |view|, view + more, |view + more|);
  }

  lemma {:induction false} WritingKept(codec: Codec, s: Seg, act: Act, s': Seg)
    requires SegInv(codec, s) && Next(codec, s, act) == Some(s') && s'.phase.Writing?
    requires act.Begin? || act.WriteBytes? || act.SetCounter? || act.Sync?
    ensures Fits(codec, s'.phase.tx, s'.data.view, |s'.data.view|)
  {
    if act.Begin? {
      BegunFits(codec, s);
    } else if act.WriteBytes? {
      AppendedFits(codec, s.phase.tx, s.data.view, act.bytes);
    }
  }

  lemma {:induction false} NextInv(codec: Codec, s: Seg, act: Act, s': Seg)
    requires SegInv(codec, s) && Next(codec, s, act) == Some(s')
    ensures SegInv(codec, s')
  {
    if !act.Commit? {
      DataKept(codec, s, act, s');
      FitsEnd(codec, s.index, s.data.view, s.data.low);
      FitsStill(codec, s.index, s.data.view, s.data.low, s'.data.view, s'.data.low);
      if s'.phase.Writing? {
        TxKept(codec, s, act, s');
      }
    }
  }

  lemma {:induction false} TxKept(codec: Codec, s: Seg, act: Act, s': Seg)
    requires SegInv(codec, s) && Next(codec, s, act) == Some(s') && s'.phase.Writing?
    ensures Fits(codec, s'.phase.tx, s'.data.view, |s'.data.view|)
  {
    if act.InsertRow? {
      InsertedFits(codec, s.phase.tx, s.data.view, act.block, act.place);
    } else if act.DeleteRow? {
      RemovedFits(codec, s.phase.tx, s.data.view, |s.data.view|, act.id);
    } else {
      WritingKept(codec, s, act, s');
    }
  }

  /* ---------- theorems ---------- */

  const NEW_SEGMENT: Seg := Seg(DataFile([], 0), NO_INDEX, Closed)

  ghost predicate IsRun(codec: Codec, ss: seq<Seg>, acts: seq<Act>) {
    && |ss| == |acts| + 1 && ss[0] == NEW_SEGMENT
    && forall i :: 0 <= i < |acts| ==> Next(codec, ss[i], acts[i]) == Some(ss[i + 1])
  }

  lemma {:induction false} RunInv(codec: Codec, ss: seq<Seg>, acts: seq<Act>, i: nat)
    requires IsRun(codec, ss, acts) && i < |ss|
    ensures SegInv(codec, ss[i])
  {
    if i > 0 {
      RunInv(codec, ss, acts, i - 1);
      NextInv(codec, ss[i - 1], acts[i - 1], ss[i]);
    }
  }

  /** Opening never finds the file shorter than its index, whatever crashed when. */
  lemma {:induction false} OpenNeverFails(codec: Codec, ss: seq<Seg>, acts: seq<Act>, i: nat)
    requires IsRun(codec, ss, acts) && i < |ss| && ss[i].phase.Closed?
    ensures IndexedEnd(ss[i].index) <= |ss[i].data.view| && Next(codec, ss[i], Open).Some?
  {
    RunInv(codec, ss, acts, i);
    FitsEnd(codec, ss[i].index, ss[i].data.view, ss[i].data.low);
  }

  /** At every moment of a run every committed block can be read back, and live extents do not overlap. */
  lemma {:induction false} CommittedReadsBack(codec: Codec, ss: seq<Seg>, acts: seq<Act>, i: nat, b: Block)
    requires IsRun(codec, ss, acts) && i < |ss| && codec.Valid() && b in ss[i].index.blocks
    ensures var p := PlaceOf(ss[i].index.places, b.id);
            && p.End() <= |ss[i].data.view| && codec.read(ss[i].data.view[p.offset..p.End()]) == Some(b.records)
            && forall c <- ss[i].index.blocks :: c != b ==>
                 var q := PlaceOf(ss[i].index.places, c.id); p.End() <= q.offset || q.End() <= p.offset
  {
    RunInv(codec, ss, acts, i);
    assert Placed(codec, ss[i].index.places, b, ss[i].data.view, ss[i].data.low);
    forall c | c in ss[i].index.blocks && c != b
      ensures PlaceOf(ss[i].index.places, b.id).End() <= PlaceOf(ss[i].index.places, c.id).offset || PlaceOf(ss[i].index.places, c.id).End() <= PlaceOf(ss[i].index.places, b.id).offset
    {
      var m :| 0 <= m < |ss[i].index.blocks| && ss[i].index.blocks[m] == b;
      var n :| 0 <= n < |ss[i].index.blocks| && ss[i].index.blocks[n] == c;
    }
  }

  /** What one commit made of the index stays until the next commit, through crashes, truncation and reopening. */
  lemma {:induction false} CommitsAreDurable(codec: Codec, ss: seq<Seg>, acts: seq<Act>, i: nat, j: nat)
    requires IsRun(codec, ss, acts) && i <= j < |ss|
    requires forall k :: i <= k < j ==> !acts[k].Commit?
    ensures ss[j].index == ss[i].index
    decreases j - i
  {
    if i < j {
      CommitsAreDurable(codec, ss, acts, i, j - 1);
      RunInv(codec, ss, acts, j - 1);
      DataKept(codec, ss[j - 1], acts[j - 1], ss[j]);
    }
  }

  /** What was committed reads back at every later moment until another commit, from the same place, whatever crashed in between. */
  lemma {:induction false} CommittedStaysReadable(codec: Codec, ss: seq<Seg>, acts: seq<Act>, i: nat, j: nat, b: Block)
    requires IsRun(codec, ss, acts) && i <= j < |ss| && codec.Valid() && b in ss[i].index.blocks
    requires forall k :: i <= k < j ==> !acts[k].Commit?
    ensures var p := PlaceOf(ss[i].index.places, b.id);
            p.End() <= |ss[j].data.view| && codec.read(ss[j].data.view[p.offset..p.End()]) == Some(b.records)
  {
    CommitsAreDurable(codec, ss, acts, i, j);
    CommittedReadsBack(codec, ss, acts, j, b);
  }

  /**
   * The repair after a failed commit assumes that the failure was real. If a commit that reported
   * an error became durable after all, the truncated file opens exactly when no row of the
   * transaction needs a byte past the point where it began.
   */
  lemma {:induction false} FailedCommitMustBeVoid(codec: Codec, s: Seg, repaired: Seg)
    requires SegInv(codec, s) && s.phase.Writing?
    requires repaired == Seg(SetLen(s.data, s.phase.start), s.phase.tx, Closed)
    ensures Next(codec, repaired, Open).Some? <==> forall b <- s.phase.tx.blocks :: PlaceOf(s.phase.tx.places, b.id).End() <= s.phase.start
  {
    if Next(codec, repaired, Open).Some? {
      forall b | b in s.phase.tx.blocks ensures PlaceOf(s.phase.tx.places, b.id).End() <= s.phase.start {
        EndOf(s.phase.tx.blocks, s.phase.tx.places, b);
      }
    } else if forall b <- s.phase.tx.blocks :: PlaceOf(s.phase.tx.places, b.id).End() <= s.phase.start {
      EndWithin(s.phase.tx.blocks, s.phase.tx.places, s.phase.start);
    }
  }
}
