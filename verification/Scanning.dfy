/** The loops of one append: the time-overlap scan, deduplication against it, upgrades, chunks, retention. */
module Scanning {
  import opened Ordering
  import opened Records
  import opened Tables
  import opened Lists
  import opened Invariants
  import opened Appending
  import opened Accounting

  /** A block loaded by the scan: its id, its decoded records, whether one was replaced. */
  datatype Loaded = Loaded(id: nat, records: seq<Record>, dirty: bool)

  /** Block and position of a loaded record. */
  datatype Place = Place(block: nat, slot: nat)

  /** Blocks of the channel whose event times overlap lo..hi. */
  function Overlapping(l: seq<Block>, lo: int, hi: int): seq<Block> {
    if l == [] then []
    else if l[0].last >= lo && l[0].first <= hi then [l[0]] + Overlapping(l[1..], lo, hi)
    else Overlapping(l[1..], lo, hi)
  }

  ghost predicate At(held: seq<Loaded>, p: Place, k: EventKey) {
    p.block < |held| && p.slot < |held[p.block].records| && held[p.block].records[p.slot].key == k
  }

  /** Every loaded event is indexed, at a place that holds it. */
  ghost predicate Indexed(held: seq<Loaded>, index: map<EventKey, Place>) {
    && (forall k <- index :: At(held, index[k], k))
    && (forall p: Place, k :: At(held, p, k) ==> k in index)
  }

  /** No event is loaded twice. */
  ghost predicate NoRepeats(held: seq<Loaded>) {
    forall p: Place, q: Place, k :: At(held, p, k) && At(held, q, k) ==> p == q
  }

  /** Index the records of one block. */
  method IndexBlock(index: map<EventKey, Place>, block: nat, decoded: seq<Record>) returns (out: map<EventKey, Place>)
    ensures out.Keys == index.Keys + Keys(decoded)
    ensures forall k <- out ::
              if k in Keys(decoded) then out[k].block == block && out[k].slot < |decoded| && decoded[out[k].slot].key == k
              else out[k] == index[k]
  {
    out := index;
    for n := 0 to |decoded|
      invariant out.Keys == index.Keys + Keys(decoded[..n])
      invariant forall k <- out ::
                  if k in Keys(decoded[..n]) then out[k].block == block && out[k].slot < n && decoded[out[k].slot].key == k
                  else out[k] == index[k]
    {
      assert decoded[..n + 1] == decoded[..n] + [decoded[n]];
      KeysConcat(decoded[..n], [decoded[n]]);
      out := out[decoded[n].key := Place(block, n)];
    }
    assert decoded[..|decoded|] == decoded;
  }

  method Scan(rows: seq<Block>) returns (held: seq<Loaded>, index: map<EventKey, Place>)
    ensures |held| == |rows|
    ensures forall j :: 0 <= j < |rows| ==> held[j] == Loaded(rows[j].id, rows[j].records, false)
    ensures Indexed(held, index)
  {
    held, index := [], map[];
    for j := 0 to |rows|
      invariant |held| == j
      invariant forall i :: 0 <= i < j ==> held[i] == Loaded(rows[i].id, rows[i].records, false)
      invariant Indexed(held, index)
    {
      var decoded := rows[j].records;
      var grown := IndexBlock(index, j, decoded);
      var next := held + [Loaded(rows[j].id, decoded, false)];
      IndexGrows(held, index, next, grown);
      held, index := next, grown;
    }
  }

  lemma {:induction false} IndexGrows(held: seq<Loaded>, index: map<EventKey, Place>, next: seq<Loaded>, grown: map<EventKey, Place>)
    requires Indexed(held, index) && |next| == |held| + 1 && next[..|held|] == held
    requires grown.Keys == index.Keys + Keys(next[|held|].records)
    requires forall k <- grown ::
               if k in Keys(next[|held|].records) then At(next, grown[k], k) else grown[k] == index[k]
    ensures Indexed(next, grown)
  {
    forall k | k in grown ensures At(next, grown[k], k) {
      if k !in Keys(next[|held|].records) {
        assert At(held, index[k], k);
        assert next[index[k].block] == held[index[k].block];
      }
    }
    forall p: Place, k | At(next, p, k) ensures k in grown {
      if p.block < |held| {
        assert next[p.block] == held[p.block];
        assert At(held, p, k);
      }
    }
  }

  function Replace(held: seq<Loaded>, p: Place, r: Record): seq<Loaded>
    requires p.block < |held| && p.slot < |held[p.block].records|
  {
    held[p.block := Loaded(held[p.block].id, held[p.block].records[p.slot := r], true)]
  }

  /** What deduplication has made of the loaded blocks after the copies in `rs`. */
  ghost predicate Absorbed(before: seq<Loaded>, held: seq<Loaded>, rs: seq<Record>) {
    && |held| == |before|
    && forall j :: 0 <= j < |held| ==>
         && held[j].id == before[j].id
         && held[j].records == Absorb(before[j].records, rs)
         && (!held[j].dirty ==> held[j].records == before[j].records)
  }

  lemma {:induction false} AbsorbNext(h: seq<Record>, rs: seq<Record>, i: nat)
    requires i < |rs|
    ensures forall n :: 0 <= n < |h| ==> Absorb(h, rs[..i + 1])[n] == Upgrade(Absorb(h, rs[..i])[n], rs[i])
    ensures rs[i].key !in Keys(h) ==> Absorb(h, rs[..i + 1]) == Absorb(h, rs[..i])
  {
    assert rs[..i + 1][..i] == rs[..i];
    forall n | 0 <= n < |h| ensures Absorb(h, rs[..i + 1])[n] == Upgrade(Absorb(h, rs[..i])[n], rs[i]) {
      assert Champion(h[n], rs[..i + 1]) == Upgrade(Champion(h[n], rs[..i]), rs[i]);
    }
    AbsorbKeeps(h, rs[..i]);
  }

  lemma {:induction false} AbsorbNothing(h: seq<Record>)
    ensures Absorb(h, []) == h
  {
  }

  lemma {:induction false} FreshNext(rs: seq<Record>, i: nat, known: set<EventKey>)
    requires i < |rs|
    ensures var before, after, r := Fresh(rs[..i], known), Fresh(rs[..i + 1], known), rs[i];
            if r.key in known then after == before
            else if r.key in Keys(before) then
              |after| == |before| && forall n :: 0 <= n < |before| ==> after[n] == Upgrade(before[n], r)
            else after == before + [r]
  {
    var front, all, r := rs[..i], rs[..i + 1], rs[i];
    assert all[..i] == front && all[|all| - 1] == r;
    var firsts := Firsts(front, known);
    FirstsAreFirst(front, known);
    AbsorbKeeps(firsts, front);
    AbsorbNext(firsts, rs, i);
    if r.key !in known && r.key !in Keys(firsts) {
      assert r.key !in Keys(front);
      ChampionWins(r, front);
      assert Champion(r, front) == r;
      assert Champion(r, all) == Upgrade(Champion(r, front), r);
      assert Fresh(all, known) == Absorb(firsts + [r], all);
      assert Absorb(firsts + [r], all) == Absorb(firsts, all) + [Champion(r, all)];
    }
  }

  /** Copies of loaded events upgrade them in place; the rest become new records, one per event. */
  method Deduplicate(before: seq<Loaded>, index: map<EventKey, Place>, rs: seq<Record>)
    returns (held: seq<Loaded>, novel: seq<Record>)
    requires Indexed(before, index) && NoRepeats(before)
    ensures Absorbed(before, held, rs)
    ensures novel == Fresh(rs, index.Keys)
  {
    held, novel := before, [];
    var newIndex: map<EventKey, nat> := map[];
    forall j | 0 <= j < |held| { AbsorbNothing(held[j].records); }
    for i := 0 to |rs|
      invariant Absorbed(before, held, rs[..i])
      invariant novel == Fresh(rs[..i], index.Keys)
      invariant NewIndexed(novel, newIndex)
    {
      var r := rs[i];
      if r.key in index {
        var p := index[r.key];
        FreshNext(rs, i, index.Keys);
        PlaceOf(before, held, index, rs[..i], r.key);
        var upgraded := if r.ShouldReplace(held[p.block].records[p.slot]) then Replace(held, p, r) else held;
        KnownStep(before, index, held, rs, i, upgraded);
        held := upgraded;
      } else {
        UnknownStep(before, index, held, rs, i);
        NewIndexGrows(novel, newIndex, r);
        if r.key in newIndex {
          var n := newIndex[r.key];
          var upgraded := if r.ShouldReplace(novel[n]) then novel[n := r] else novel;
          CopyStep(novel, newIndex, rs, i, index.Keys, upgraded);
          novel := upgraded;
        } else {
          FreshNext(rs, i, index.Keys);
          newIndex := newIndex[r.key := |novel|];
          novel := novel + [r];
        }
      }
    }
    assert rs[..|rs|] == rs;
  }

  /** Every new record is indexed, at its position. */
  ghost predicate NewIndexed(novel: seq<Record>, newIndex: map<EventKey, nat>) {
    && newIndex.Keys == Keys(novel)
    && forall k <- newIndex :: newIndex[k] < |novel| && novel[newIndex[k]].key == k
  }

  lemma {:induction false} NewIndexGrows(novel: seq<Record>, newIndex: map<EventKey, nat>, r: Record)
    requires NewIndexed(novel, newIndex)
    ensures NewIndexed(novel + [r], newIndex[r.key := |novel|])
    ensures r.key !in newIndex ==> r.key !in Keys(novel)
  {
    KeysConcat(novel, [r]);
  }

  lemma {:induction false} CopyStep(novel: seq<Record>, newIndex: map<EventKey, nat>, rs: seq<Record>, i: nat, known: set<EventKey>, upgraded: seq<Record>)
    requires i < |rs| && rs[i].key !in known && rs[i].key in newIndex
    requires NewIndexed(novel, newIndex) && novel == Fresh(rs[..i], known)
    requires var n := newIndex[rs[i].key];
             upgraded == if rs[i].ShouldReplace(novel[n]) then novel[n := rs[i]] else novel
    ensures upgraded == Fresh(rs[..i + 1], known)
    ensures NewIndexed(upgraded, newIndex)
  {
    FreshNext(rs, i, known);
    FreshFacts(rs[..i], known);
    OneUpgraded(novel, newIndex[rs[i].key], rs[i], upgraded);
    assert upgraded == Fresh(rs[..i + 1], known);
    SameKeysByIndex(novel, upgraded);
  }

  lemma {:induction false} OneUpgraded(novel: seq<Record>, n: nat, r: Record, upgraded: seq<Record>)
    requires DistinctKeys(novel) && n < |novel| && novel[n].key == r.key
    requires upgraded == if r.ShouldReplace(novel[n]) then novel[n := r] else novel
    ensures |upgraded| == |novel| && forall m :: 0 <= m < |novel| ==> upgraded[m] == Upgrade(novel[m], r) && upgraded[m].key == novel[m].key
  {
    OnlyThere(novel, n);
  }

  lemma {:induction false} KnownStep(before: seq<Loaded>, index: map<EventKey, Place>, held: seq<Loaded>, rs: seq<Record>, i: nat, upgraded: seq<Loaded>)
    requires Indexed(before, index) && NoRepeats(before) && i < |rs| && rs[i].key in index
    requires Absorbed(before, held, rs[..i]) && At(held, index[rs[i].key], rs[i].key)
    requires var p := index[rs[i].key];
             upgraded == if rs[i].ShouldReplace(held[p.block].records[p.slot]) then Replace(held, p, rs[i]) else held
    ensures Absorbed(before, upgraded, rs[..i + 1])
  {
    var r := rs[i];
    var p := index[r.key];
    OthersKeep(before, p, r);
    forall j | 0 <= j < |held| ensures upgraded[j].records == Absorb(before[j].records, rs[..i + 1]) {
      AbsorbNext(before[j].records, rs, i);
      AbsorbKeeps(before[j].records, rs[..i]);
      if j == p.block {
        var h := held[j].records;
        forall n | 0 <= n < |h| && n != p.slot ensures h[n].key != r.key {
          assert before[j].records[n].key != r.key;
        }
      }
    }
    if rs[i].ShouldReplace(held[p.block].records[p.slot]) {
    } else {
      assert upgraded == held;
    }
  }

  lemma {:induction false} UnknownStep(before: seq<Loaded>, index: map<EventKey, Place>, held: seq<Loaded>, rs: seq<Record>, i: nat)
    requires Indexed(before, index) && i < |rs| && rs[i].key !in index
    requires Absorbed(before, held, rs[..i])
    ensures Absorbed(before, held, rs[..i + 1])
  {
    UnknownKeeps(before, index, rs[i]);
    forall j | 0 <= j < |held| ensures held[j].records == Absorb(before[j].records, rs[..i + 1]) {
      AbsorbNext(before[j].records, rs, i);
    }
  }

  lemma {:induction false} PlaceOf(before: seq<Loaded>, held: seq<Loaded>, index: map<EventKey, Place>, rs: seq<Record>, k: EventKey)
    requires Indexed(before, index) && Absorbed(before, held, rs) && k in index
    ensures At(held, index[k], k)
  {
    var p := index[k];
    assert At(before, p, k);
    AbsorbKeeps(before[p.block].records, rs);
  }

  /** Only the record at the indexed place has the key. */
  lemma {:induction false} OthersKeep(before: seq<Loaded>, p: Place, r: Record)
    requires NoRepeats(before) && At(before, p, r.key)
    ensures forall j: nat, n: nat :: j < |before| && n < |before[j].records| && (j != p.block || n != p.slot) ==>
              before[j].records[n].key != r.key
    ensures forall j :: 0 <= j < |before| && j != p.block ==> r.key !in Keys(before[j].records)
  {
    forall j: nat, n: nat | j < |before| && n < |before[j].records| && before[j].records[n].key == r.key
      ensures j == p.block && n == p.slot
    {
      assert At(before, Place(j, n), r.key);
    }
  }

  lemma {:induction false} UnknownKeeps(before: seq<Loaded>, index: map<EventKey, Place>, r: Record)
    requires Indexed(before, index) && r.key !in index
    ensures forall j :: 0 <= j < |before| ==> r.key !in Keys(before[j].records)
  {
    forall j: nat, n: nat | j < |before| && n < |before[j].records| ensures before[j].records[n].key != r.key {
      assert At(before, Place(j, n), before[j].records[n].key);
    }
  }

  lemma {:induction false} OnlyThere(rs: seq<Record>, n: nat)
    requires DistinctKeys(rs) && n < |rs|
    ensures forall m :: 0 <= m < |rs| && m != n ==> rs[m].key != rs[n].key
  {
  }
}
