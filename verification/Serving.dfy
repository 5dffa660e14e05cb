/** Answering a query: local stores, peers, and the clamps on what may be read. */
module Serving {
  import opened Ordering
  import opened Records
  import opened Tables
  import opened Invariants
  import opened Journal
  import opened Queries
  import opened Machine
  import opened Scanning
  import opened SqliteStore
  import opened BlockStore
  import opened OpenBlocks
  import opened Merge
  import Coverage

  /* ---------- merge_records ---------- */

  /** The table holds one copy per event: the ones in `f`. */
  ghost predicate Stored(retained: map<EventKey, Record>, f: seq<Record>) {
    retained.Keys == Keys(f) && forall x <- f :: retained[x.key] == x
  }

  /** One turn of the loop over both inputs. */
  function Retain(retained: map<EventKey, Record>, r: Record): map<EventKey, Record> {
    if r.key !in retained || r.ShouldReplace(retained[r.key]) then retained[r.key := r] else retained
  }

  lemma {:induction false} StoredCopy(retained: map<EventKey, Record>, before: seq<Record>, after: seq<Record>, r: Record)
    requires Stored(retained, before) && r.key in Keys(before) && |after| == |before|
    requires forall n :: 0 <= n < |before| ==> after[n] == Upgrade(before[n], r)
    ensures Stored(Retain(retained, r), after)
  {
    forall n | 0 <= n < |before| ensures after[n].key == before[n].key && Retain(retained, r)[after[n].key] == after[n] {
      assert before[n] in before;
    }
    SameKeysByIndex(before, after);
  }

  lemma {:induction false} StoredNext(retained: map<EventKey, Record>, rs: seq<Record>, i: nat)
    requires i < |rs| && Stored(retained, Fresh(rs[..i], {}))
    ensures Stored(Retain(retained, rs[i]), Fresh(rs[..i + 1], {}))
  {
    FreshNext(rs, i, {});
    if rs[i].key in retained {
      StoredCopy(retained, Fresh(rs[..i], {}), Fresh(rs[..i + 1], {}), rs[i]);
    } else {
      KeysConcat(Fresh(rs[..i], {}), [rs[i]]);
    }
  }

  /** The values of a hash table come out in any order. */
  method IntoValues(retained: map<EventKey, Record>) returns (values: seq<Record>)
    requires forall k <- retained :: retained[k].key == k
    ensures DistinctKeys(values) && Keys(values) == retained.Keys
    ensures forall x <- values :: retained[x.key] == x
  {
    values := [];
    var left := retained.Keys;
    while left != {}
      invariant left <= retained.Keys && left !! Keys(values) && left + Keys(values) == retained.Keys
      invariant DistinctKeys(values) && forall x <- values :: x.key in retained && retained[x.key] == x
      decreases |left|
    {
      var k :| k in left;
      OneMoreValue(values, left, retained[k]);
      values := values + [retained[k]];
      left := left - {k};
    }
  }

  lemma {:induction false} OneMoreValue(values: seq<Record>, left: set<EventKey>, r: Record)
    requires DistinctKeys(values) && left !! Keys(values) && r.key in left
    ensures DistinctKeys(values + [r])
    ensures (left - {r.key}) !! Keys(values + [r]) && (left - {r.key}) + Keys(values + [r]) == left + Keys(values)
  {
    KeysConcat(values, [r]);
    assert Keys([r]) == {r.key};
    forall i | 0 <= i < |values| ensures values[i].key != r.key {
      assert values[i].key in Keys(values);
    }
  }

  lemma {:induction false} SameElementsSameBag(a: seq<Record>, b: seq<Record>)
    requires DistinctKeys(a) && DistinctKeys(b) && forall x :: x in a <==> x in b
    ensures multiset(a) == multiset(b)
  {
    forall x ensures multiset(a)[x] == multiset(b)[x] {
      OnlyOnce(a, x);
      OnlyOnce(b, x);
      assert x in a <==> x in multiset(a);
      assert x in b <==> x in multiset(b);
    }
  }

  /** Two listings of the same records without repeated keys sort alike. */
  lemma {:induction false} SortsAlike(a: seq<Record>, b: seq<Record>)
    requires DistinctKeys(a) && DistinctKeys(b) && forall x :: x in a <==> x in b
    ensures Sort(a, AnswerOrder()) == Sort(b, AnswerOrder())
  {
    SameElementsSameBag(a, b);
    OrdersAreTotal();
    SortSorts(a, AnswerOrder());
    SortSorts(b, AnswerOrder());
    SortKeeps(a, AnswerOrder());
    SortKeeps(b, AnswerOrder());
    forall x, y | x in a && y in a && AnswerOrder()(x, y) && AnswerOrder()(y, x) ensures x == y {
      SameKeySame(a, x, y);
    }
    SortedUnique(Sort(a, AnswerOrder()), Sort(b, AnswerOrder()), AnswerOrder());
  }

  lemma {:induction false} ValuesAreFresh(values: seq<Record>, retained: map<EventKey, Record>, f: seq<Record>)
    requires DistinctKeys(values) && Keys(values) == retained.Keys && forall x <- values :: retained[x.key] == x
    requires DistinctKeys(f) && Stored(retained, f)
    ensures Sort(values, AnswerOrder()) == Sort(f, AnswerOrder())
  {
    forall x ensures x in values <==> x in f {
      if x in values {
        assert x.key in Keys(f);
        var y :| y in f && y.key == x.key;
      }
      if x in f {
        assert x.key in Keys(values);
        var y :| y in values && y.key == x.key;
      }
    }
    SortsAlike(values, f);
  }

  /** merge_records, whatever order the hash table gives its values in. */
  method MergeRecords(local: seq<Record>, peer: seq<Record>, limit: nat) returns (records: seq<Record>)
    ensures records == Merged(local, peer, limit)
  {
    var all := local + peer;
    var retained: map<EventKey, Record> := map[];
    for i := 0 to |all|
      invariant Stored(retained, Fresh(all[..i], {}))
    {
      StoredNext(retained, all, i);
      var r := all[i];
      if r.key in retained {
        if r.ShouldReplace(retained[r.key]) {
          retained := retained[r.key := r];
        }
      } else {
        retained := retained[r.key := r];
      }
    }
    assert all[..|all|] == all;
    FreshFacts(all, {});
    forall k | k in retained ensures retained[k].key == k {
      assert k in Keys(Fresh(all, {}));
    }
    records := IntoValues(retained);
    ValuesAreFresh(records, retained, Fresh(all, {}));
    records := Sort(records, AnswerOrder());
    if |records| > limit {
      records := records[|records| - limit..];
    }
  }

  /* ---------- fetch_local ---------- */

  datatype PeerAnswer = PeerAnswer(
    records: seq<Record>,
    coverage: seq<Coverage.Interval>,
    oldest: Option<int>,
    newest: Option<int>)

  function Arrived(results: seq<Option<PeerAnswer>>): seq<PeerAnswer> {
    if results == [] then []
    else if results[|results| - 1].None? then Arrived(results[..|results| - 1])
    else Arrived(results[..|results| - 1]) + [results[|results| - 1].value]
  }

  function RecordsIn(answers: seq<PeerAnswer>): (r: seq<seq<Record>>)
    ensures |r| == |answers|
  {
    seq(|answers|, i requires 0 <= i < |answers| => answers[i].records)
  }

  function CoverageIn(answers: seq<PeerAnswer>): seq<Coverage.Interval> {
    if answers == [] then [] else CoverageIn(answers[..|answers| - 1]) + answers[|answers| - 1].coverage
  }

  /** What the loop has accumulated from the answers that arrived. */
  ghost predicate Accumulated(a: Option<PeerAnswer>, answers: seq<PeerAnswer>, limit: nat) {
    match a
    case None => answers == []
    case Some(x) =>
      && answers != []
      && x.records == Folded(RecordsIn(answers), limit)
      && Coverage.SamePoints(x.coverage, CoverageIn(answers))
      && (|answers| == 1 ==> x == answers[0])
      && (|answers| > 1 ==> Coverage.Separated(x.coverage))
      && (|answers| > 1 ==> x.oldest == (if x.records == [] then None else Some(x.records[0].receivedAt)))
      && (|answers| > 1 ==> x.newest == (if x.records == [] then None else Some(x.records[|x.records| - 1].receivedAt)))
  }

  lemma {:induction false} FoldedNext(answers: seq<PeerAnswer>, x: PeerAnswer, limit: nat)
    ensures RecordsIn(answers + [x]) == RecordsIn(answers) + [x.records]
    ensures CoverageIn(answers + [x]) == CoverageIn(answers) + x.coverage
    ensures Folded(RecordsIn(answers + [x]), limit)
         == if answers == [] then x.records else Merged(Folded(RecordsIn(answers), limit), x.records, limit)
  {
    assert (answers + [x])[..|answers|] == answers;
    var rs := RecordsIn(answers + [x]);
    assert rs == RecordsIn(answers) + [x.records];
    assert rs[..|rs| - 1] == RecordsIn(answers);
  }

  lemma {:induction false} ArrivedNext(results: seq<Option<PeerAnswer>>, i: nat)
    requires i < |results|
    ensures Arrived(results[..i + 1])
         == if results[i].None? then Arrived(results[..i]) else Arrived(results[..i]) + [results[i].value]
  {
    assert results[..i + 1][..i] == results[..i];
  }

  lemma {:induction false} PointsAdd(a: seq<Coverage.Interval>, b: seq<Coverage.Interval>, m: seq<Coverage.Interval>, more: seq<Coverage.Interval>)
    requires Coverage.SamePoints(a, b) && Coverage.SamePoints(m, a + more)
    ensures Coverage.SamePoints(m, b + more)
  {
    forall t: int ensures Coverage.Covered(m, t) <==> Coverage.Covered(b + more, t) {
      Coverage.CoveredConcat(a, more, t);
      Coverage.CoveredConcat(b, more, t);
    }
  }

  /** One more answer arrived. */
  method FoldIn(accumulated: Option<PeerAnswer>, x: PeerAnswer, limit: nat, ghost before: seq<PeerAnswer>) returns (more: PeerAnswer)
    requires Accumulated(accumulated, before, limit)
    ensures Accumulated(Some(more), before + [x], limit)
  {
    FoldedNext(before, x, limit);
    if accumulated.None? {
      assert CoverageIn([]) + x.coverage == x.coverage;
      return x;
    }
    var previous := accumulated.value;
    var records := MergeRecords(previous.records, x.records, limit);
    var coverage := Coverage.MergeIntervals(previous.coverage + x.coverage);
    PointsAdd(previous.coverage, CoverageIn(before), coverage, x.coverage);
    return PeerAnswer(records, coverage,
      if records == [] then None else Some(records[0].receivedAt),
      if records == [] then None else Some(records[|records| - 1].receivedAt));
  }

  /** Fold the results in their order of arrival; failures are skipped unless all failed. */
  method FetchLocal(results: seq<Option<PeerAnswer>>, limit: nat) returns (accumulated: Option<PeerAnswer>)
    ensures Accumulated(accumulated, Arrived(results), limit)
  {
    accumulated := None;
    for i := 0 to |results|
      invariant Accumulated(accumulated, Arrived(results[..i]), limit)
    {
      ArrivedNext(results, i);
      if results[i].Some? {
        var more := FoldIn(accumulated, results[i].value, limit, Arrived(results[..i]));
        accumulated := Some(more);
      }
    }
    assert results[..|results|] == results;
  }

  /* ---------- query_local_messages ---------- */

  lemma {:induction false} FilterSorted(s: seq<Record>, p: Record -> bool)
    requires Sorted(s, AnswerOrder())
    ensures Sorted(Filter(s, p), AnswerOrder())
  {
    if s != [] {
      FilterSorted(s[1..], p);
      var rest := Filter(s[1..], p);
      forall i | 0 <= i < |rest| ensures AnswerOrder()(s[0], rest[i]) {
        assert rest[i] in s[1..];
      }
    }
  }

  lemma {:induction false} FilterDistinct(s: seq<Record>, p: Record -> bool)
    requires DistinctKeys(s)
    ensures DistinctKeys(Filter(s, p))
  {
    if s != [] {
      FilterDistinct(s[1..], p);
      var rest := Filter(s[1..], p);
      forall i | 0 <= i < |rest| ensures rest[i].key != s[0].key {
        assert rest[i] in s[1..];
      }
    }
  }

  /** What the block store answers is the newest of what it holds in the window. */
  lemma {:induction false} StoredAnswer(t: Times, all: seq<Record>, request: QueryRequest)
    requires DistinctKeys(all) && Timed(all, t)
    ensures IsNewest(t, Answer(all, request).records, Filter(all, Window(request)), request.limit)
  {
    var sorted := Sort(all, AnswerOrder());
    SortKeeps(all, AnswerOrder());
    OrdersAreTotal();
    SortSorts(all, AnswerOrder());
    SortDistinct(all);
    FilterSorted(sorted, Window(request));
    FilterDistinct(sorted, Window(request));
    FilterDistinct(all, Window(request));
    CutIsNewest(t, Filter(sorted, Window(request)), Filter(all, Window(request)), request.limit);
  }

  /** What the open tail answers is the newest of what waits in the window. */
  lemma {:induction false} WaitingAnswer(t: Times, waiting: seq<Record>, request: QueryRequest)
    requires DistinctKeys(waiting) && Timed(waiting, t)
    ensures IsNewest(t, Newest(Sort(Filter(waiting, Window(request)), AnswerOrder()), request.limit),
                     Filter(waiting, Window(request)), request.limit)
  {
    var inside := Filter(waiting, Window(request));
    FilterDistinct(waiting, Window(request));
    assert Timed(inside, t);
    DistinctIsBest(inside);
    TruncationIsNewest(t, inside, inside, request.limit);
  }

  lemma {:induction false} DistinctIsBest(rs: seq<Record>)
    requires DistinctKeys(rs)
    ensures Best(rs, rs)
  {
  }

  /** The two stores together answer like one query over all that either holds. */
  lemma {:induction false} TogetherLikeOne(t: Times, all: seq<Record>, waiting: seq<Record>, request: QueryRequest)
    requires DistinctKeys(all) && DistinctKeys(waiting) && Timed(all, t) && Timed(waiting, t)
    ensures var sealed := Answer(all, request).records;
            var open := Newest(Sort(Filter(waiting, Window(request)), AnswerOrder()), request.limit);
            IsNewest(t, Merged(sealed, open, request.limit), Filter(all + waiting, Window(request)), request.limit)
  {
    var w := Window(request);
    StoredAnswer(t, all, request);
    WaitingAnswer(t, waiting, request);
    var sealed := Answer(all, request).records;
    var open := Newest(Sort(Filter(waiting, w), AnswerOrder()), request.limit);
    NewestSuffices(t, sealed, Filter(all, w), request.limit);
    NewestSuffices(t, open, Filter(waiting, w), request.limit);
    FilterConcat(all, waiting, w);
    MergeOfEnough(t, sealed, Filter(all, w), open, Filter(waiting, w), request.limit);
  }

  datatype QueryOptions = QueryOptions(limit: Option<nat>, after: Option<int>, before: Option<int>)

  function RequestedLimit(options: QueryOptions, bufferSize: nat): nat {
    var limit := if options.limit.Some? then options.limit.value else bufferSize;
    if limit < bufferSize then limit else bufferSize
  }

  /** Every record in an answer was received inside the window. */
  lemma {:induction false} InsideWindow(all: seq<Record>, waiting: seq<Record>, request: QueryRequest)
    ensures var sealed := Answer(all, request).records;
            var open := Newest(Sort(Filter(waiting, Window(request)), AnswerOrder()), request.limit);
            forall x <- Merged(sealed, open, request.limit) :: (x in all || x in waiting) && InWindow(x, request)
  {
    var sealed := Answer(all, request).records;
    var open := Newest(Sort(Filter(waiting, Window(request)), AnswerOrder()), request.limit);
    SortKeeps(all, AnswerOrder());
    SortKeeps(Filter(waiting, Window(request)), AnswerOrder());
    SortKeeps(Fresh(sealed + open, {}), AnswerOrder());
    FreshFacts(sealed + open, {});
    forall x | x in Merged(sealed, open, request.limit) ensures (x in all || x in waiting) && InWindow(x, request) {
      assert x in Fresh(sealed + open, {});
      assert x in sealed || x in open;
    }
  }

  /** The held receipt times reported with an answer are the least and the greatest of all that is held, in the window or not. */
  lemma {:induction false} HeldTimesBound(all: seq<Record>, request: QueryRequest)
    ensures var r := Answer(all, request);
            && (all == [] ==> r.oldest.None? && r.newest.None?)
            && (all != [] ==>
                  && r.oldest.Some? && r.newest.Some?
                  && (forall x <- all :: r.oldest.value <= x.receivedAt <= r.newest.value)
                  && (exists x <- all :: x.receivedAt == r.oldest.value) && (exists x <- all :: x.receivedAt == r.newest.value))
  {
    var sorted := Sort(all, AnswerOrder());
    OrdersAreTotal();
    SortSorts(all, AnswerOrder());
    SortKeeps(all, AnswerOrder());
    if all != [] {
      assert sorted[0] in all && sorted[|sorted| - 1] in all;
      forall x | x in all ensures sorted[0].receivedAt <= x.receivedAt <= sorted[|sorted| - 1].receivedAt {
        assert x in sorted;
        var i :| 0 <= i < |sorted| && sorted[i] == x;
      }
    }
  }

  /** The copy was received later, or with it by event time, or with that by key. */
  predicate IsNewer(x: Record, y: Record) {
    x.receivedAt > y.receivedAt || (x.receivedAt == y.receivedAt &&
    (x.eventAt > y.eventAt || (x.eventAt == y.eventAt && x.key > y.key)))
  }

  /** The event of `y` is in the answer, or the answer is full of newer ones. */
  ghost predicate AnsweredOrFull(records: seq<Record>, y: Record, limit: nat) {
    (exists x <- records :: x.key == y.key) || (|records| == limit && forall x <- records :: IsNewer(x, y))
  }

  lemma {:induction false} AtMostLimit(t: Times, records: seq<Record>, all: seq<Record>, limit: nat)
    requires IsNewest(t, records, all, limit)
    ensures |Keys(records)| == |records| <= limit
  {
    KeysCount(records);
    if records != [] {
      assert records[0].key in Keys(records);
      var o := Oldest(t, Keys(records));
      assert o in Top(t, Keys(all), limit);
      SubsetCard(Keys(records) - {o}, NewerIn(t, o, Keys(all)));
    }
  }

  lemma {:induction false} NewestIsComplete(t: Times, records: seq<Record>, all: seq<Record>, limit: nat, y: Record)
    requires IsNewest(t, records, all, limit) && Timed(all, t) && y in all
    ensures AnsweredOrFull(records, y, limit)
  {
    if y.key !in Keys(records) {
      CrowdStays(t, records, all, limit, y.key);
      AtMostLimit(t, records, all, limit);
      SubsetCard(Newer(t, y.key, records), Keys(records));
      AllOfThem(Newer(t, y.key, records), Keys(records));
      forall x | x in records ensures IsNewer(x, y) {
        assert x.key in Keys(records) && x in all;
      }
    }
  }

  lemma {:induction false} AllOfThem<T>(a: set<T>, b: set<T>)
    requires a <= b && |a| >= |b|
    ensures a == b
  {
    var rest := b - a;
    assert a + rest == b;
  }

  /** query_local_messages over the block store and the open tail. */
  method QueryLocalMessages(store: SqliteBlockStore, open: OpenBlockManager, channel: string, options: QueryOptions, bufferSize: nat, ghost t: Times)
    returns (records: seq<Record>)
    requires store.Valid() && open.Valid()
    ensures var all, waiting := Held(store.db.tables.blocks, channel), TailOf(open.View(), channel);
            var limit := RequestedLimit(options, bufferSize);
            var request := QueryRequest(channel, options.after, options.before, limit);
            Timed(all + waiting, t) ==> IsNewest(t, records, Filter(all + waiting, Window(request)), limit)
    ensures forall x <- records ::
              && (x in Held(store.db.tables.blocks, channel) || x in TailOf(open.View(), channel))
              && (options.after.Some? ==> x.receivedAt > options.after.value)
              && (options.before.Some? ==> x.receivedAt < options.before.value)
    ensures Timed(Held(store.db.tables.blocks, channel) + TailOf(open.View(), channel), t) ==>
              forall y | y in Held(store.db.tables.blocks, channel) + TailOf(open.View(), channel)
                         && (options.after.Some? ==> y.receivedAt > options.after.value)
                         && (options.before.Some? ==> y.receivedAt < options.before.value) ::
                AnsweredOrFull(records, y, if options.limit.Some? && options.limit.value < bufferSize then options.limit.value else bufferSize)
  {
    ghost var all, waiting := Held(store.db.tables.blocks, channel), TailOf(open.View(), channel);
    var limit := RequestedLimit(options, bufferSize);
    var request := QueryRequest(channel, options.after, options.before, limit);
    DistinctStores(store, open, channel);
    if Timed(all + waiting, t) {
      TimedParts(t, all, all + waiting);
      TimedParts(t, waiting, all + waiting);
      TogetherLikeOne(t, all, waiting, request);
      TogetherIsComplete(t, all, waiting, request);
    }
    InsideWindow(all, waiting, request);
    if limit == 0 {
      NoneAreNewest(Answer(all, request).records, Newest(Sort(Filter(waiting, Window(request)), AnswerOrder()), 0));
      return [];
    }
    var sealed := store.Query(request);
    var newest := open.Query(request);
    records := MergeRecords(sealed.value.records, newest, limit);
  }

  lemma {:induction false} TogetherIsComplete(t: Times, all: seq<Record>, waiting: seq<Record>, request: QueryRequest)
    requires DistinctKeys(all) && DistinctKeys(waiting) && Timed(all, t) && Timed(waiting, t)
    ensures var records := Merged(Answer(all, request).records, Newest(Sort(Filter(waiting, Window(request)), AnswerOrder()), request.limit), request.limit);
            forall y | y in all + waiting && (request.after.Some? ==> y.receivedAt > request.after.value)
                                          && (request.before.Some? ==> y.receivedAt < request.before.value) ::
              AnsweredOrFull(records, y, request.limit)
  {
    var records := Merged(Answer(all, request).records, Newest(Sort(Filter(waiting, Window(request)), AnswerOrder()), request.limit), request.limit);
    TogetherLikeOne(t, all, waiting, request);
    var read := Filter(all + waiting, Window(request));
    forall y | y in all + waiting && (request.after.Some? ==> y.receivedAt > request.after.value)
                                  && (request.before.Some? ==> y.receivedAt < request.before.value)
      ensures AnsweredOrFull(records, y, request.limit)
    {
      assert InWindow(y, request) && y in read;
      NewestIsComplete(t, records, read, request.limit, y);
    }
  }

  lemma {:induction false} NoneAreNewest(a: seq<Record>, b: seq<Record>)
    ensures Merged(a, b, 0) == []
  {
  }

  lemma {:induction false} DistinctStores(store: SqliteBlockStore, open: OpenBlockManager, channel: string)
    requires store.Valid() && open.Valid()
    ensures DistinctKeys(Held(store.db.tables.blocks, channel))
    ensures DistinctKeys(TailOf(open.View(), channel))
  {
    assert ChannelInv(store.db.tables, store.w.cfg, channel, store.w.stamp);
    if channel in open.blocks {
      FiledDistinct(open.blocks[channel], channel);
    }
  }

  /* ---------- clamps ---------- */

  /** The milliseconds that a `DateTime<Utc>` of chrono can hold: the years -262143 to 262142. */
  const MIN_TIME: int := -8_334_601_228_800_000
  const MAX_TIME: int := 8_210_266_876_799_999

  predicate IsTime(ms: int) { MIN_TIME <= ms <= MAX_TIME }

  /** The request handler moves `after` up to the purge time, if that is a time at all. */
  function PurgeClamp(after: Option<int>, purgedAt: I64): Option<int> {
    if purgedAt > 0 && (after.None? || after.value < purgedAt)
    then if IsTime(purgedAt) then Some(purgedAt) else None
    else after
  }

  /** and `before` down to just past the moment the request came. */
  function SnapshotClamp(before: Option<int>, snapshot: int): Option<int> {
    if before.None? || before.value > snapshot + 1 then Some(snapshot + 1) else before
  }

  function Clamped(options: QueryOptions, purgedAt: I64, snapshot: int): QueryOptions {
    options.(after := PurgeClamp(options.after, purgedAt), before := SnapshotClamp(options.before, snapshot))
  }

  /** The clamp can express the purge time, or the caller's own bound does. */
  predicate Expressible(after: Option<int>, purgedAt: I64) {
    purgedAt <= MAX_TIME || (after.Some? && after.value >= purgedAt)
  }

  /** The clamped window shuts out everything purged exactly when the purge time is one that the clamp can express. */
  lemma {:induction false} ClampHidesPurged(options: QueryOptions, channel: string, limit: nat, purgedAt: I64, snapshot: int)
    requires purgedAt > 0
    ensures var c := Clamped(options, purgedAt, snapshot);
            var request := QueryRequest(channel, c.after, c.before, limit);
            (forall r: Record :: InWindow(r, request) ==> r.receivedAt > purgedAt) <==> Expressible(options.after, purgedAt)
  {
    var c := Clamped(options, purgedAt, snapshot);
    var request := QueryRequest(channel, c.after, c.before, limit);
    if !Expressible(options.after, purgedAt) {
      var at := if c.before.value <= purgedAt then c.before.value - 1 else purgedAt as int;
      assert InWindow(Record("", 0, at, 0, "", Unknown, []), request);
    }
  }

  /** It does fail: with a purge time one millisecond past what chrono holds, a request without bounds sees all that was purged. */
  lemma {:induction false} FarPurgeHidesNothing(channel: string, limit: nat, snapshot: int, r: Record)
    requires r.receivedAt <= snapshot <= MAX_TIME
    ensures var c := Clamped(QueryOptions(None, None, None), MAX_TIME + 1, snapshot);
            r.receivedAt < MAX_TIME + 1 && InWindow(r, QueryRequest(channel, c.after, c.before, limit))
  {
  }

  /** Received within what was asked for: after the caller's bound and what was purged, before the caller's other bound, not after the request. */
  ghost predicate AskedFor(x: Record, options: QueryOptions, purgedAt: I64, snapshot: int) {
    && (options.after.Some? ==> x.receivedAt > options.after.value) && (purgedAt > 0 ==> x.receivedAt > purgedAt)
    && (options.before.Some? ==> x.receivedAt < options.before.value) && x.receivedAt <= snapshot
  }

  /**
   * With the clamps the answer from blocks and open tail is complete and holds nothing else: each
   * event asked for is in it, unless it is full of newer ones, and nothing it holds was purged, came
   * after the request or lies outside the caller's bounds.
   */
  method QueryClamped(store: SqliteBlockStore, open: OpenBlockManager, channel: string, options: QueryOptions, bufferSize: nat,
                      purgedAt: I64, snapshot: int, ghost t: Times)
    returns (records: seq<Record>)
    requires store.Valid() && open.Valid()
    ensures forall x <- records ::
              && (x in Held(store.db.tables.blocks, channel) || x in TailOf(open.View(), channel))
              && x.receivedAt <= snapshot && (options.before.Some? ==> x.receivedAt < options.before.value)
    ensures Expressible(options.after, purgedAt) ==> forall x <- records :: AskedFor(x, options, purgedAt, snapshot)
    ensures Timed(Held(store.db.tables.blocks, channel) + TailOf(open.View(), channel), t) ==>
              forall y | y in Held(store.db.tables.blocks, channel) + TailOf(open.View(), channel) && AskedFor(y, options, purgedAt, snapshot) ::
                AnsweredOrFull(records, y, if options.limit.Some? && options.limit.value < bufferSize then options.limit.value else bufferSize)
  {
    records := QueryLocalMessages(store, open, channel, Clamped(options, purgedAt, snapshot), bufferSize, t);
  }

  /* ---------- when copies disagree ---------- */

  /**
   * If copies of an event disagree on when it was received, the order of arrival does matter: a
   * better copy `z` of `x`, received before `y`, pushes `y` out or drops out, depending on when it comes.
   */
  lemma {:induction false} DisagreeingCopiesBreakMerging(x: Record, y: Record, z: Record)
    requires x.key == z.key != y.key && z.ShouldReplace(x)
    requires z.receivedAt < y.receivedAt < x.receivedAt
    ensures Folded([[x], [y], [z]], 1) == [z]
    ensures Folded([[x], [z], [y]], 1) == [y]
  {
    FoldThree([x], [y], [z]);
    FoldThree([x], [z], [y]);
    MergeTwo(x, y);
    MergeTwo(x, z);
    MergeTwo(z, y);
  }

  lemma {:induction false} FoldThree(a: seq<Record>, b: seq<Record>, c: seq<Record>)
    ensures Folded([a, b, c], 1) == Merged(Merged(a, b, 1), c, 1)
  {
    var all := [a, b, c];
    assert all[..2] == [a, b] && [a, b][..1] == [a];
    assert Folded([a], 1) == a;
    assert Folded([a, b], 1) == Merged(Folded([a, b][..1], 1), b, 1);
    assert Folded(all, 1) == Merged(Folded(all[..2], 1), c, 1);
  }

  lemma {:induction false} FreshOfCopies(x: Record, y: Record)
    requires x.key == y.key
    ensures Fresh([x, y], {}) == [Upgrade(x, y)]
  {
    var both := [x, y];
    assert both[..|both| - 1] == [x] && [x][..|[x]| - 1] == [];
    assert Firsts([], {}) == [] && Firsts([x], {}) == [x] && Firsts(both, {}) == [x];
    assert Champion(x, []) == x && Champion(x, [x]) == Upgrade(x, x) && Champion(x, both) == Upgrade(x, y);
  }

  lemma {:induction false} FreshOfTwo(x: Record, y: Record)
    requires x.key != y.key
    ensures Fresh([x, y], {}) == [x, y]
  {
    var both := [x, y];
    assert both[..|both| - 1] == [x] && [x][..|[x]| - 1] == [];
    assert Firsts([], {}) == [] && Firsts([x], {}) == [x] && Firsts(both, {}) == [x, y];
    assert Champion(x, []) == x && Champion(x, [x]) == Upgrade(x, x) && Champion(x, both) == Upgrade(x, y);
    assert Champion(y, []) == y && Champion(y, [x]) == Upgrade(y, x) && Champion(y, both) == Upgrade(y, y);
  }

  /** Merging one record with another, one of them to be kept. */
  lemma {:induction false} MergeTwo(x: Record, y: Record)
    ensures Merged([x], [y], 1)
         == if x.key == y.key then [Upgrade(x, y)] else if AnswerOrder()(x, y) then [y] else [x]
  {
    assert [x] + [y] == [x, y];
    if x.key == y.key {
      FreshOfCopies(x, y);
      SortOfSorted([Upgrade(x, y)], AnswerOrder());
    } else {
      FreshOfTwo(x, y);
      assert [x, y][1..] == [y] && [y][1..] == [];
      assert Sort([y], AnswerOrder()) == [y];
      assert Insert(x, [y], AnswerOrder()) == if AnswerOrder()(x, y) then [x] + [y] else [y] + Insert(x, [], AnswerOrder());
    }
  }
}
