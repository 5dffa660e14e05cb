/** The ingest journal: accepting a batch, the acknowledged offset, retirement and replay order. */
module Journal {
  import opened Ordering
  import opened Records
  import opened Tables

  datatype Option<T> = None | Some(value: T)

  datatype JournalError = InvalidRange | TooLarge | Conflict | NonAdvancing

  datatype Result<T> = Ok(value: T) | Err(error: JournalError)

  datatype Accepted = Accepted(store: Store, through: I64)

  function SaturatingNext(n: I64): I64 {
    if n == MAX_I64 then MAX_I64 else n + 1
  }

  /** The row with this primary key, if there is one. */
  function Find(journal: seq<JournalRow>, stream: Stream, first: int): (r: Option<JournalRow>)
    ensures r.Some? ==> r.value in journal && r.value.stream == stream && r.value.first == first
    ensures r.None? ==> forall row <- journal :: row.stream != stream || row.first != first
  {
    if journal == [] then None
    else if journal[0].stream == stream && journal[0].first == first then Some(journal[0])
    else Find(journal[1..], stream, first)
  }

  ghost predicate RowsSane(journal: seq<JournalRow>) {
    forall row <- journal :: 0 <= row.first <= row.last
  }

  /** Follow the rows that start where the last one ended. */
  function Chase(journal: seq<JournalRow>, stream: Stream, committed: I64): Result<I64>
    decreases MAX_I64 - committed
  {
    match Find(journal, stream, SaturatingNext(committed))
    case None => Ok(committed)
    case Some(row) => if row.last <= committed then Err(NonAdvancing) else Chase(journal, stream, row.last)
  }

  /** Some row of the stream covers this sequence. */
  ghost predicate Carried(journal: seq<JournalRow>, stream: Stream, n: int) {
    exists row <- journal :: row.stream == stream && row.first <= n <= row.last
  }

  ghost predicate UniqueRows(journal: seq<JournalRow>) {
    forall i, j :: 0 <= i < j < |journal| ==> journal[i].stream != journal[j].stream || journal[i].first != journal[j].first
  }

  /** The row a batch adds, unless its key is taken already. */
  function WithRow(journal: seq<JournalRow>, row: JournalRow): seq<JournalRow> {
    if Find(journal, row.stream, row.first).Some? then journal else journal + [row]
  }

  function BaseOf(s: Store, stream: Stream, first: nat): I64
    requires first <= MAX_I64
  {
    if stream in s.offsets then s.offsets[stream] else first - 1
  }

  function AcceptJournal(s: Store, cfg: Config, stream: Stream, first: nat, last: nat, payload: seq<Record>): Result<Accepted> {
    if first > last then Err(InvalidRange)
    else if last > MAX_I64 then Err(TooLarge)
    else
      var row := JournalRow(stream, first, last, cfg.digest(payload), payload);
      var existing := Find(s.journal, stream, first);
      if existing.Some? && (existing.value.last != last || existing.value.digest != row.digest) then Err(Conflict)
      else
        var journal := WithRow(s.journal, row);
        match Chase(journal, stream, BaseOf(s, stream, first))
        case Err(e) => Err(e)
        case Ok(through) => Ok(Accepted(s.(journal := journal, offsets := s.offsets[stream := through]), through))
  }

  function Retired(journal: seq<JournalRow>, stream: Stream, through: int): seq<JournalRow> {
    Filter(journal, (row: JournalRow) => !(row.stream == stream && row.last <= through))
  }

  function RetireJournal(s: Store, stream: Stream, through: int): Store {
    s.(journal := Retired(s.journal, stream, through))
  }

  /** Order of replay: by source, stream, first sequence. */
  function ReplayOrder(): (JournalRow, JournalRow) -> bool {
    (a: JournalRow, b: JournalRow) =>
      if a.stream.0 != b.stream.0 then TextLe(a.stream.0, b.stream.0)
      else if a.stream.1 != b.stream.1 then TextLe(a.stream.1, b.stream.1)
      else a.first <= b.first
  }

  function Pending(s: Store): seq<JournalRow> {
    Sort(s.journal, ReplayOrder())
  }

  /**
   * Ranges and checksums of rows are right, primary keys are unique, and no pending row starts
   * right after the offset of its stream: the offset is as far as the rows can carry it.
   */
  ghost predicate JournalInv(s: Store, cfg: Config) {
    && RowsSane(s.journal)
    && (forall row <- s.journal :: row.digest == cfg.digest(row.payload))
    && UniqueRows(s.journal)
    && (forall row <- s.journal :: row.stream in s.offsets)
    && (forall stream <- s.offsets :: 0 <= s.offsets[stream])
    && (forall row <- s.journal :: row.stream in s.offsets && row.first != (s.offsets[row.stream] as int) + 1)
  }

  /** The chase never goes back, is carried by rows without a gap, and stops only where no row starts. */
  lemma {:induction false} ChaseContiguous(journal: seq<JournalRow>, stream: Stream, committed: I64)
    requires RowsSane(journal)
    ensures var c := Chase(journal, stream, committed);
            c.Ok? ==>
              && committed <= c.value
              && (forall n: int :: committed < n <= c.value ==> Carried(journal, stream, n))
              && (forall row <- journal :: row.stream == stream ==> row.first != (c.value as int) + 1)
              && (c.value == committed || exists row <- journal :: row.stream == stream && row.last == c.value)
    decreases MAX_I64 - committed
  {
    var found := Find(journal, stream, SaturatingNext(committed));
    if found.Some? && found.value.last > committed {
      ChaseContiguous(journal, stream, found.value.last);
      var c := Chase(journal, stream, committed);
      if c.Ok? {
        forall n: int | committed < n <= c.value ensures Carried(journal, stream, n) {
          if n <= found.value.last {
            var row := found.value;
            assert row in journal && row.first <= n <= row.last;
          }
        }
      }
    }
  }

  /**
   * The chase fails exactly when a row starts at the largest sequence and the other rows carry the
   * offset to it or to the sequence before it.
   */
  lemma {:induction false} ChaseFailsAtTheTop(journal: seq<JournalRow>, stream: Stream, committed: I64)
    requires RowsSane(journal)
    ensures var others := Filter(journal, (row: JournalRow) => !(row.stream == stream && row.first == MAX_I64));
            && Chase(others, stream, committed).Ok?
            && (Chase(journal, stream, committed).Err? <==>
                  && Find(journal, stream, MAX_I64).Some?
                  && Chase(others, stream, committed).value >= MAX_I64 - 1)
    decreases MAX_I64 - committed
  {
    var p := (row: JournalRow) => !(row.stream == stream && row.first == MAX_I64);
    var others := Filter(journal, p);
    var next := SaturatingNext(committed);
    FindFiltered(journal, stream, next);
    var found := Find(journal, stream, next);
    if next < MAX_I64 {
      if found.Some? {
        ChaseFailsAtTheTop(journal, stream, found.value.last);
      }
    } else if found.Some? {
      assert found.value.last == MAX_I64;
      if committed < MAX_I64 {
        assert Chase(journal, stream, MAX_I64) == Err(NonAdvancing);
      }
    }
  }

  lemma {:induction false} FindFiltered(journal: seq<JournalRow>, stream: Stream, first: int)
    ensures var others := Filter(journal, (row: JournalRow) => !(row.stream == stream && row.first == MAX_I64));
            Find(others, stream, first) == if first == MAX_I64 then None else Find(journal, stream, first)
  {
    if journal != [] {
      FindFiltered(journal[1..], stream, first);
      var p := (row: JournalRow) => !(row.stream == stream && row.first == MAX_I64);
      if p(journal[0]) {
        assert Filter(journal, p)[1..] == Filter(journal[1..], p);
      } else {
        assert Filter(journal, p) == Filter(journal[1..], p);
      }
    }
  }

  /* ---------- when a batch is refused ---------- */

  /** Rows of the stream, each starting right after the one before, the first right after `base`, end on `to`. */
  ghost predicate Chained(chain: seq<JournalRow>, rows: seq<JournalRow>, stream: Stream, base: int, to: int) {
    if chain == [] then to == base
    else chain[0] in rows && chain[0].stream == stream && chain[0].first == base + 1 && Chained(chain[1..], rows, stream, chain[0].last, to)
  }

  ghost predicate Leads(rows: seq<JournalRow>, stream: Stream, base: int, to: int) {
    exists chain: seq<JournalRow> :: Chained(chain, rows, stream, base, to)
  }

  lemma {:induction false} LeadsOn(rows: seq<JournalRow>, stream: Stream, base: int, row: JournalRow, to: int)
    requires row in rows && row.stream == stream && row.first == base + 1 && Leads(rows, stream, row.last, to)
    ensures Leads(rows, stream, base, to)
  {
    var chain: seq<JournalRow> :| Chained(chain, rows, stream, row.last, to);
    assert ([row] + chain)[1..] == chain;
    assert Chained([row] + chain, rows, stream, base, to);
  }

  lemma {:induction false} FoundIsUnique(rows: seq<JournalRow>, stream: Stream, row: JournalRow)
    requires UniqueRows(rows) && row in rows && row.stream == stream
    ensures Find(rows, stream, row.first) == Some(row)
  {
    var found := Find(rows, stream, row.first);
    var i :| 0 <= i < |rows| && rows[i] == row;
    var j :| 0 <= j < |rows| && rows[j] == found.value;
  }

  lemma {:induction false} LeadsBack(rows: seq<JournalRow>, stream: Stream, base: int, to: int) returns (row: JournalRow)
    requires Leads(rows, stream, base, to) && to != base
    ensures row in rows && row.stream == stream && row.first == base + 1 && Leads(rows, stream, row.last, to)
  {
    var chain: seq<JournalRow> :| Chained(chain, rows, stream, base, to);
    row := chain[0];
    assert Chained(chain[1..], rows, stream, row.last, to);
  }

  /** Of the two ways to the top, one ends on it, the other right before a row that starts on it. */
  ghost predicate ReachesTheTop(rows: seq<JournalRow>, stream: Stream, base: int) {
    && (exists top <- rows :: top.stream == stream && top.first == MAX_I64)
    && (Leads(rows, stream, base, MAX_I64 - 1) || Leads(rows, stream, base, MAX_I64))
  }

  lemma {:induction false} TopOnly(rows: seq<JournalRow>, stream: Stream, base: int, to: int)
    requires RowsSane(rows) && base >= MAX_I64 - 1 && to <= MAX_I64 && base <= MAX_I64
    ensures Leads(rows, stream, base, base)
    ensures Leads(rows, stream, base, to) ==> to >= base
    decreases MAX_I64 - base
  {
    assert Chained([], rows, stream, base, base);
    if Leads(rows, stream, base, to) && to != base {
      var row := LeadsBack(rows, stream, base, to);
      TopOnly(rows, stream, row.last, to);
    }
  }

  /** The walk over touching rows fails exactly when a row starts at the largest sequence and touching rows lead up to it. */
  lemma {:induction false} ChaseFailsOn(rows: seq<JournalRow>, stream: Stream, committed: I64)
    requires RowsSane(rows) && UniqueRows(rows)
    ensures Chase(rows, stream, committed).Err? <==> ReachesTheTop(rows, stream, committed)
    decreases MAX_I64 - committed
  {
    var found := Find(rows, stream, SaturatingNext(committed));
    if committed >= MAX_I64 - 1 {
      TopOnly(rows, stream, committed, MAX_I64);
      TopOnly(rows, stream, committed, MAX_I64 - 1);
      if found.Some? && committed < MAX_I64 {
        assert found.value.last == MAX_I64;
        assert Chase(rows, stream, MAX_I64) == Err(NonAdvancing);
      }
    } else {
      if found.Some? {
        ChaseFailsOn(rows, stream, found.value.last);
      }
      forall to: int | to == MAX_I64 || to == MAX_I64 - 1
        ensures Leads(rows, stream, committed, to) <==> found.Some? && Leads(rows, stream, found.value.last, to)
      {
        if Leads(rows, stream, committed, to) {
          var row := LeadsBack(rows, stream, committed, to);
          FoundIsUnique(rows, stream, row);
        }
        if found.Some? && Leads(rows, stream, found.value.last, to) {
          LeadsOn(rows, stream, committed, found.value, to);
        }
      }
    }
  }

  /** A pending row with the same key but another end or checksum. */
  ghost predicate Contradicts(s: Store, stream: Stream, first: int, last: int, digest: nat) {
    exists row <- s.journal :: row.stream == stream && row.first == first && (row.last != last || row.digest != digest)
  }

  /**
   * A batch with a valid range that contradicts no pending row is refused exactly when it or a
   * pending row starts at the largest sequence and, from the offset, pending rows and the batch touch
   * all the way up to that start, or end on it. Below the largest sequence nothing is refused.
   */
  lemma {:induction false} RefusedExactly(s: Store, cfg: Config, stream: Stream, first: nat, last: nat, payload: seq<Record>)
    requires JournalInv(s, cfg)
    ensures AcceptJournal(s, cfg, stream, first, last, payload) == Err(NonAdvancing) <==>
              && first <= last <= MAX_I64 && !Contradicts(s, stream, first, last, cfg.digest(payload))
              && ReachesTheTop(WithRow(s.journal, JournalRow(stream, first, last, cfg.digest(payload), payload)), stream, BaseOf(s, stream, first))
    ensures first <= last < MAX_I64 && (forall row <- s.journal :: row.stream == stream ==> row.first < MAX_I64)
            ==> (AcceptJournal(s, cfg, stream, first, last, payload).Ok? <==> !Contradicts(s, stream, first, last, cfg.digest(payload)))
  {
    if first <= last <= MAX_I64 {
      var row := JournalRow(stream, first, last, cfg.digest(payload), payload);
      var rows := WithRow(s.journal, row);
      WithRowKeeps(s.journal, row);
      ChaseFailsOn(rows, stream, BaseOf(s, stream, first));
      OnlyNonAdvancing(rows, stream, BaseOf(s, stream, first));
      ContradictsFound(s, stream, first, last, row.digest);
    }
  }

  lemma {:induction false} ContradictsFound(s: Store, stream: Stream, first: int, last: int, digest: nat)
    requires UniqueRows(s.journal)
    ensures var found := Find(s.journal, stream, first);
            Contradicts(s, stream, first, last, digest) <==> found.Some? && (found.value.last != last || found.value.digest != digest)
  {
    if Contradicts(s, stream, first, last, digest) {
      var row :| row in s.journal && row.stream == stream && row.first == first && (row.last != last || row.digest != digest);
      FoundIsUnique(s.journal, stream, row);
    }
  }

  lemma {:induction false} OnlyNonAdvancing(rows: seq<JournalRow>, stream: Stream, committed: I64)
    ensures Chase(rows, stream, committed).Err? ==> Chase(rows, stream, committed) == Err(NonAdvancing)
    decreases MAX_I64 - committed
  {
    var found := Find(rows, stream, SaturatingNext(committed));
    if found.Some? && found.value.last > committed {
      OnlyNonAdvancing(rows, stream, found.value.last);
    }
  }

  /** A batch that ends on the largest sequence without starting there is accepted by a fresh stream. */
  lemma {:induction false} LastSequenceIsAccepted(s: Store, cfg: Config, stream: Stream, payload: seq<Record>)
    requires JournalInv(s, cfg) && stream !in s.offsets
    ensures var r := AcceptJournal(s, cfg, stream, MAX_I64 - 1, MAX_I64, payload); r.Ok? && r.value.through == MAX_I64
  {
    var row := JournalRow(stream, MAX_I64 - 1, MAX_I64, cfg.digest(payload), payload);
    assert Find(s.journal, stream, MAX_I64 - 1).None? && Find(s.journal, stream, MAX_I64).None?;
    FindAppended(s.journal, row);
    var rows := WithRow(s.journal, row);
    assert forall x <- rows :: x in s.journal || x == row;
    assert Find(rows, stream, MAX_I64).None?;
    assert Chase(rows, stream, MAX_I64) == Ok(MAX_I64);
  }

  /** A stream whose very first batch is the largest sequence alone can never be accepted. */
  lemma {:induction false} TopBatchIsRefused(s: Store, cfg: Config, stream: Stream, payload: seq<Record>)
    requires JournalInv(s, cfg) && stream !in s.offsets
    ensures AcceptJournal(s, cfg, stream, MAX_I64, MAX_I64, payload) == Err(NonAdvancing)
  {
    var row := JournalRow(stream, MAX_I64, MAX_I64, cfg.digest(payload), payload);
    assert Find(s.journal, stream, MAX_I64).None?;
    var journal := WithRow(s.journal, row);
    FindAppended(s.journal, row);
    assert Chase(journal, stream, MAX_I64 - 1) == Chase(journal, stream, MAX_I64);
    assert Chase(journal, stream, MAX_I64) == Err(NonAdvancing);
  }

  lemma {:induction false} FindAppended(journal: seq<JournalRow>, row: JournalRow)
    requires Find(journal, row.stream, row.first).None?
    ensures Find(journal + [row], row.stream, row.first) == Some(row)
  {
    if journal != [] {
      assert (journal + [row])[1..] == journal[1..] + [row];
      FindAppended(journal[1..], row);
    }
  }

  /** Acceptance keeps the invariant; the offset never falls, and the batch is pending afterwards. */
  lemma {:induction false} AcceptKeeps(s: Store, cfg: Config, stream: Stream, first: nat, last: nat, payload: seq<Record>)
    requires JournalInv(s, cfg)
    requires AcceptJournal(s, cfg, stream, first, last, payload).Ok?
    ensures var a := AcceptJournal(s, cfg, stream, first, last, payload).value;
            && JournalInv(a.store, cfg)
            && 0 <= a.through == a.store.offsets[stream]
            && a.through >= BaseOf(s, stream, first)
            && (forall row <- s.journal :: row in a.store.journal)
            && (exists row <- a.store.journal :: row.stream == stream && row.first == first && row.last == last
                  && row.digest == cfg.digest(payload))
            && (forall row <- a.store.journal :: row in s.journal || row == JournalRow(stream, first, last, cfg.digest(payload), payload))
            && (forall n: int :: BaseOf(s, stream, first) < n <= a.through ==> Carried(a.store.journal, stream, n))
  {
    var row := JournalRow(stream, first, last, cfg.digest(payload), payload);
    var journal := WithRow(s.journal, row);
    WithRowKeeps(s.journal, row);
    assert RowsSane(journal);
    var base := BaseOf(s, stream, first);
    ChaseContiguous(journal, stream, base);
    var a := AcceptJournal(s, cfg, stream, first, last, payload).value;
    assert a.store.journal == journal;
    if stream !in s.offsets {
      assert Find(s.journal, stream, first).None?;
      FindAppended(s.journal, row);
      assert a.through != first - 1;
    }
  }

  lemma {:induction false} WithRowKeeps(journal: seq<JournalRow>, row: JournalRow)
    requires UniqueRows(journal)
    ensures UniqueRows(WithRow(journal, row))
    ensures forall x <- journal :: x in WithRow(journal, row)
    ensures forall x <- WithRow(journal, row) :: x in journal || x == row
    ensures Find(journal, row.stream, row.first).None? ==> row in WithRow(journal, row)
  {
    var out := WithRow(journal, row);
    if Find(journal, row.stream, row.first).None? {
      forall i, j | 0 <= i < j < |out| ensures out[i].stream != out[j].stream || out[i].first != out[j].first {
        assert out[i] in journal;
      }
      assert out[|out| - 1] == row;
    }
  }

  lemma {:induction false} RetireKeeps(s: Store, cfg: Config, stream: Stream, through: int)
    requires JournalInv(s, cfg)
    ensures JournalInv(RetireJournal(s, stream, through), cfg)
  {
    RetiredDistinct(s.journal, stream, through);
  }

  lemma {:induction false} RetiredDistinct(journal: seq<JournalRow>, stream: Stream, through: int)
    requires UniqueRows(journal)
    ensures UniqueRows(Retired(journal, stream, through))
  {
    if journal != [] {
      RetiredDistinct(journal[1..], stream, through);
      var p := (row: JournalRow) => !(row.stream == stream && row.last <= through);
      var rest := Filter(journal[1..], p);
      forall x <- rest ensures x.stream != journal[0].stream || x.first != journal[0].first {
        assert x in journal[1..];
      }
      assert Filter(journal, p) == (if p(journal[0]) then [journal[0]] else []) + rest;
    }
  }

  lemma {:induction false} ReplayOrderIsTotal()
    ensures Preorder(ReplayOrder())
  {
    var le := ReplayOrder();
    forall a, b ensures le(a, b) || le(b, a) {
      TextTotal(a.stream.0, b.stream.0);
      TextTotal(a.stream.1, b.stream.1);
    }
    forall a, b, c | le(a, b) && le(b, c) ensures le(a, c) {
      TextTotal(a.stream.0, b.stream.0);
      TextTotal(b.stream.0, c.stream.0);
      TextTotal(a.stream.1, b.stream.1);
      TextTotal(b.stream.1, c.stream.1);
      if a.stream.0 == b.stream.0 == c.stream.0 {
        if a.stream.1 != b.stream.1 || b.stream.1 != c.stream.1 {
          TextTransitive(a.stream.1, b.stream.1, c.stream.1);
        }
      } else {
        TextTransitive(a.stream.0, b.stream.0, c.stream.0);
      }
    }
  }

  /** Replay goes source by source, stream by stream, and within a stream with rising sequences. */
  lemma {:induction false} ReplayRises(journal: seq<JournalRow>, i: nat, j: nat)
    requires UniqueRows(journal) && i < j < |Sort(journal, ReplayOrder())|
    ensures var rows := Sort(journal, ReplayOrder()); var a, b := rows[i], rows[j];
            && TextLe(a.stream.0, b.stream.0)
            && (a.stream.0 == b.stream.0 ==> TextLe(a.stream.1, b.stream.1))
            && (a.stream == b.stream ==> a.first < b.first)
  {
    var rows := Sort(journal, ReplayOrder());
    ReplayOrderIsTotal();
    SortSorts(journal, ReplayOrder());
    SortKeeps(journal, ReplayOrder());
    DistinctBag(journal, rows);
    var a, b := rows[i], rows[j];
    assert ReplayOrder()(a, b) && a != b;
    TextTotal(a.stream.0, a.stream.0);
    TextTotal(a.stream.1, a.stream.1);
    assert a in journal && b in journal;
    if a.stream == b.stream && a.first == b.first {
      OneRowEach(journal, a, b);
    }
  }

  lemma {:induction false} OneRowEach(journal: seq<JournalRow>, a: JournalRow, b: JournalRow)
    requires UniqueRows(journal) && a in journal && b in journal && a.stream == b.stream && a.first == b.first
    ensures a == b
  {
    FoundIsUnique(journal, a.stream, a);
    FoundIsUnique(journal, b.stream, b);
  }
}
