/** Rendezvous placement: which members keep a channel. */
module Placement {
  import opened Ordering
  import opened Journal
  import Policy

  /** The keyed hash of a member and a channel, read as a number. */
  type Hash = (string, string) -> nat

  datatype CachePlacement = CachePlacement(self: string, members: seq<string>, copies: nat)

  predicate NameChar(c: char) {
    'a' <= c <= 'z' || 'A' <= c <= 'Z' || '0' <= c <= '9' || c == '.' || c == '_' || c == '-'
  }

  predicate MemberName(m: string) {
    0 < |m| <= 64 && forall c <- m :: NameChar(c)
  }

  function NameOrder(): (string, string) -> bool { (a: string, b: string) => TextLe(a, b) }

  /** Configurations that `new` accepts. */
  ghost predicate Acceptable(self: string, members: seq<string>, copies: nat) {
    0 < copies <= |members| && self in members && AllDistinct(members) && forall m <- members :: MemberName(m)
  }

  function New(self: string, members: seq<string>, copies: nat): Option<CachePlacement> {
    var sorted := Sort(members, NameOrder());
    if sorted == [] || copies == 0 || copies > |sorted| || self !in sorted
       || (exists i :: 0 <= i < |sorted| - 1 && sorted[i] == sorted[i + 1])
       || (exists m <- sorted :: !MemberName(m))
    then None
    else Some(CachePlacement(self, sorted, copies))
  }

  /** Highest hash first, equal hashes by name, the later name first. */
  function RankOrder(h: Hash, channel: string): (string, string) -> bool {
    (a: string, b: string) =>
      h(a, channel) > h(b, channel) || (h(a, channel) == h(b, channel) && TextLe(b, a))
  }

  function Ranked(h: Hash, members: seq<string>, channel: string): seq<string> {
    Sort(members, RankOrder(h, Policy.Lower(channel)))
  }

  function Owners(h: Hash, p: CachePlacement, channel: string): (r: seq<string>)
    requires p.copies <= |p.members|
    ensures |r| == p.copies
  {
    SortKeeps(p.members, RankOrder(h, Policy.Lower(channel)));
    Ranked(h, p.members, channel)[..p.copies]
  }

  predicate Retains(h: Hash, p: CachePlacement, channel: string)
    requires p.copies <= |p.members|
  {
    p.self in Owners(h, p, channel)
  }

  lemma {:induction false} NamesAreOrdered()
    ensures Preorder(NameOrder())
  {
    forall a: string, b: string ensures TextLe(a, b) || TextLe(b, a) { TextTotal(a, b); }
    forall a: string, b: string, c: string | TextLe(a, b) && TextLe(b, c) ensures TextLe(a, c) { TextTransitive(a, b, c); }
  }

  lemma {:induction false} RanksAreOrdered(h: Hash, channel: string)
    ensures Preorder(RankOrder(h, channel))
    ensures forall a, b :: RankOrder(h, channel)(a, b) && RankOrder(h, channel)(b, a) ==> a == b
  {
    NamesAreOrdered();
    forall a: string, b: string ensures TextLe(a, b) && TextLe(b, a) ==> a == b { TextTotal(a, b); }
    forall a: string, b: string, c: string | RankOrder(h, channel)(a, b) && RankOrder(h, channel)(b, c)
      ensures RankOrder(h, channel)(a, c)
    {
      assert NameOrder()(c, b) && NameOrder()(b, a) ==> NameOrder()(c, a);
    }
    forall a: string, b: string ensures RankOrder(h, channel)(a, b) || RankOrder(h, channel)(b, a) {
      assert NameOrder()(a, b) || NameOrder()(b, a);
    }
  }

  lemma {:induction false} BagMember(a: seq<string>, b: seq<string>, x: string)
    requires multiset(a) == multiset(b)
    ensures x in a <==> x in b
  {
    assert x in a <==> x in multiset(a);
    assert x in b <==> x in multiset(b);
  }

  /** In a sorted list equal names are neighbours. */
  lemma {:induction false} NeighboursTell(sorted: seq<string>)
    requires Sorted(sorted, NameOrder())
    ensures (exists i :: 0 <= i < |sorted| - 1 && sorted[i] == sorted[i + 1]) <==> !AllDistinct(sorted)
  {
    if !AllDistinct(sorted) {
      var i, j :| 0 <= i < j < |sorted| && sorted[i] == sorted[j];
      assert NameOrder()(sorted[i], sorted[i + 1]);
      assert i + 1 == j || NameOrder()(sorted[i + 1], sorted[j]);
      TextTotal(sorted[i], sorted[i + 1]);
      assert sorted[i] == sorted[i + 1];
    }
  }

  /** `new` accepts exactly the documented configurations, in whatever order the members are listed. */
  lemma {:induction false} NewAcceptsExactly(self: string, members: seq<string>, copies: nat)
    ensures New(self, members, copies).Some? <==> Acceptable(self, members, copies)
  {
    var sorted := Sort(members, NameOrder());
    SortKeeps(members, NameOrder());
    NamesAreOrdered();
    SortSorts(members, NameOrder());
    NeighboursTell(sorted);
    if AllDistinct(members) {
      DistinctBag(members, sorted);
    }
    if AllDistinct(sorted) {
      DistinctBag(sorted, members);
    }
  }

  lemma {:induction false} RankingIgnoresOrder(h: Hash, a: seq<string>, b: seq<string>, channel: string)
    requires multiset(a) == multiset(b)
    ensures Ranked(h, a, channel) == Ranked(h, b, channel)
  {
    var le := RankOrder(h, Policy.Lower(channel));
    RanksAreOrdered(h, Policy.Lower(channel));
    SortKeeps(a, le);
    SortKeeps(b, le);
    SortSorts(a, le);
    SortSorts(b, le);
    SortedUnique(Sort(a, le), Sort(b, le), le);
  }

  /** Members listed in another order are the same placement: every node names the same owners. */
  lemma {:induction false} OwnersIgnoreOrder(h: Hash, self: string, other: string, a: seq<string>, b: seq<string>, copies: nat, channel: string)
    requires multiset(a) == multiset(b) && Acceptable(self, a, copies) && other in a
    ensures New(self, a, copies).Some? && New(other, b, copies).Some?
    ensures New(self, a, copies).value.members == New(other, b, copies).value.members
    ensures Owners(h, New(self, a, copies).value, channel) == Owners(h, New(other, b, copies).value, channel)
  {
    DistinctBag(a, b);
    forall x ensures x in a <==> x in b { BagMember(a, b, x); }
    assert |a| == |multiset(a)| && |b| == |multiset(b)|;
    NewAcceptsExactly(self, a, copies);
    NewAcceptsExactly(other, b, copies);
    NamesAreOrdered();
    SortKeeps(a, NameOrder());
    SortKeeps(b, NameOrder());
    SortSorts(a, NameOrder());
    SortSorts(b, NameOrder());
    forall x: string, y: string ensures TextLe(x, y) && TextLe(y, x) ==> x == y { TextTotal(x, y); }
    SortedUnique(Sort(a, NameOrder()), Sort(b, NameOrder()), NameOrder());
  }

  /** Case does not matter in the channel. */
  lemma {:induction false} OwnersIgnoreCase(h: Hash, p: CachePlacement, channel: string, other: string)
    requires p.copies <= |p.members| && Policy.Lower(channel) == Policy.Lower(other)
    ensures Owners(h, p, channel) == Owners(h, p, other)
  {
  }

  lemma {:induction false} OwnersAreMembers(h: Hash, p: CachePlacement, channel: string)
    requires AllDistinct(p.members) && p.copies <= |p.members|
    ensures |Owners(h, p, channel)| == p.copies && AllDistinct(Owners(h, p, channel))
    ensures forall m <- Owners(h, p, channel) :: m in p.members
  {
    var le := RankOrder(h, Policy.Lower(channel));
    SortKeeps(p.members, le);
    DistinctBag(p.members, Ranked(h, p.members, channel));
    forall m | m in Owners(h, p, channel) ensures m in p.members {
      assert m in Ranked(h, p.members, channel);
    }
  }

  lemma {:induction false} FirstOnes(s: seq<string>, i: nat)
    requires i < |s|
    ensures forall j :: 0 <= j <= i ==> s[j] in s[..i + 1]
  {
    forall j | 0 <= j <= i ensures s[j] in s[..i + 1] {
      assert s[..i + 1][j] == s[j];
    }
  }

  /**
   * Every owner outranks every member left out, and the owners stand by falling rank: by the hash of
   * member and lower-case channel, then by name.
   */
  lemma {:induction false} OwnersOutrank(h: Hash, p: CachePlacement, channel: string, i: nat, m: string)
    requires AllDistinct(p.members) && p.copies <= |p.members| && i < p.copies && m in p.members
    requires m !in Owners(h, p, channel)[..i + 1]
    ensures var o, c := Owners(h, p, channel)[i], Policy.Lower(channel);
            m != o && (h(o, c) > h(m, c) || (h(o, c) == h(m, c) && TextLe(m, o)))
  {
    var c := Policy.Lower(channel);
    var le, ranked := RankOrder(h, c), Ranked(h, p.members, channel);
    SortKeeps(p.members, le);
    RanksAreOrdered(h, c);
    SortSorts(p.members, le);
    assert m in ranked;
    var j :| 0 <= j < |ranked| && ranked[j] == m;
    assert Owners(h, p, channel)[..i + 1] == ranked[..i + 1];
    FirstOnes(ranked, i);
    assert le(ranked[i], ranked[j]);
    assert Owners(h, p, channel)[i] == ranked[i] && ranked[..i + 1][i] == ranked[i];
  }

  function NodesRetaining(h: Hash, p: CachePlacement, channel: string): set<string>
    requires p.copies <= |p.members|
  {
    set m <- p.members | Retains(h, p.(self := m), channel)
  }

  lemma {:induction false} CountDistinct(s: seq<string>)
    requires AllDistinct(s)
    ensures |(set x <- s)| == |s|
  {
    if s != [] {
      var rest := set x <- s[1..];
      forall i, j | 0 <= i < j < |s[1..]| ensures s[1..][i] != s[1..][j] {
        assert s[i + 1] != s[j + 1];
      }
      CountDistinct(s[1..]);
      forall i | 0 <= i < |s[1..]| ensures s[1..][i] != s[0] {
        assert s[i + 1] != s[0];
      }
      assert s[0] !in rest;
      assert s == [s[0]] + s[1..];
      assert (set x <- s) == rest + {s[0]};
    }
  }

  /** Of the nodes of a placement exactly `copies` retain a channel. */
  lemma {:induction false} ExactlyCopiesRetain(h: Hash, p: CachePlacement, channel: string)
    requires AllDistinct(p.members) && p.copies <= |p.members|
    ensures |NodesRetaining(h, p, channel)| == p.copies
  {
    OwnersAreMembers(h, p, channel);
    CountDistinct(Owners(h, p, channel));
    forall m | m in p.members ensures Owners(h, p.(self := m), channel) == Owners(h, p, channel) {}
    assert NodesRetaining(h, p, channel) == set x <- Owners(h, p, channel);
  }

  lemma {:induction false} InsertedAt(x: string, s: seq<string>, le: (string, string) -> bool) returns (i: nat)
    ensures i <= |s| && Insert(x, s, le) == s[..i] + [x] + s[i..]
  {
    if s == [] || le(x, s[0]) {
      i := 0;
    } else {
      var j := InsertedAt(x, s[1..], le);
      i := j + 1;
      assert [s[0]] + (s[1..][..j] + [x] + s[1..][j..]) == s[..i] + [x] + s[i..];
    }
  }

  /** `x` put in at `i`, the last one dropped. */
  function Displaced(owners: seq<string>, i: nat, x: string): seq<string>
    requires i < |owners|
  {
    owners[..i] + [x] + owners[i..|owners| - 1]
  }

  lemma {:induction false} CutAfterInsertion(ranked: seq<string>, i: nat, x: string, copies: nat)
    requires i <= |ranked| && copies <= |ranked|
    ensures (ranked[..i] + [x] + ranked[i..])[..copies] == if i < copies then Displaced(ranked[..copies], i, x) else ranked[..copies]
  {
    var all := ranked[..i] + [x] + ranked[i..];
    if i < copies {
      assert all[..copies] == ranked[..i] + [x] + ranked[i..copies - 1];
      assert ranked[..copies][..i] == ranked[..i] && ranked[..copies][i..copies - 1] == ranked[i..copies - 1];
    } else {
      assert all[..copies] == ranked[..copies];
    }
  }

  /** A new member either changes nothing or takes its place and pushes out the last owner only. */
  lemma {:induction false} NewMemberTakesOnePlace(h: Hash, p: CachePlacement, x: string, channel: string)
    requires p.copies <= |p.members|
    ensures var before := Owners(h, p, channel);
            var after := Owners(h, p.(members := p.members + [x]), channel);
            after == before || exists i: nat :: i < p.copies && after == Displaced(before, i, x)
  {
    var le := RankOrder(h, Policy.Lower(channel));
    SortKeeps(p.members, le);
    RankingIgnoresOrder(h, p.members + [x], [x] + p.members, channel);
    assert ([x] + p.members)[1..] == p.members;
    var ranked := Sort(p.members, le);
    var i := InsertedAt(x, ranked, le);
    CutAfterInsertion(ranked, i, x, p.copies);
  }
}
