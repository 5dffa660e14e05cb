/** Stable sorting, as `sort_by_key` and `ORDER BY` use it, and the byte order of strings. */
module Ordering {

  /** `le` is total and transitive: what a sort key needs. */
  ghost predicate Preorder<T(!new)>(le: (T, T) -> bool) {
    && (forall x, y :: le(x, y) || le(y, x))
    && (forall x, y, z :: le(x, y) && le(y, z) ==> le(x, z))
  }

  ghost predicate Sorted<T>(s: seq<T>, le: (T, T) -> bool) {
    forall i, j :: 0 <= i < j < |s| ==> le(s[i], s[j])
  }

  function Insert<T>(x: T, s: seq<T>, le: (T, T) -> bool): seq<T> {
    if s == [] || le(x, s[0]) then [x] + s else [s[0]] + Insert(x, s[1..], le)
  }

  /** An element goes before the equal ones that followed it, so the sort is stable. */
  function Sort<T>(s: seq<T>, le: (T, T) -> bool): seq<T> {
    if s == [] then [] else Insert(s[0], Sort(s[1..], le), le)
  }

  function Filter<T>(s: seq<T>, p: T -> bool): (r: seq<T>)
    ensures forall x <- r :: x in s && p(x)
    ensures forall x <- s :: p(x) ==> x in r
    ensures |r| <= |s|
  {
    if s == [] then [] else (if p(s[0]) then [s[0]] else []) + Filter(s[1..], p)
  }

  lemma {:induction false} FilterConcat<T>(a: seq<T>, b: seq<T>, p: T -> bool)
    ensures Filter(a + b, p) == Filter(a, p) + Filter(b, p)
  {
    if a == [] {
      assert a + b == b;
    } else {
      assert (a + b)[1..] == a[1..] + b;
      FilterConcat(a[1..], b, p);
    }
  }

  lemma {:induction false} InsertKeeps<T>(x: T, s: seq<T>, le: (T, T) -> bool)
    ensures multiset(Insert(x, s, le)) == multiset{x} + multiset(s)
  {
    if s == [] || le(x, s[0]) {
    } else {
      InsertKeeps(x, s[1..], le);
      assert s == [s[0]] + s[1..];
    }
  }

  /** Sorting loses and invents nothing. */
  lemma {:induction false} SortKeeps<T>(s: seq<T>, le: (T, T) -> bool)
    ensures multiset(Sort(s, le)) == multiset(s)
    ensures |Sort(s, le)| == |s|
    ensures forall x :: x in Sort(s, le) <==> x in s
  {
    if s == [] {
    } else {
      SortKeeps(s[1..], le);
      InsertKeeps(s[0], Sort(s[1..], le), le);
      assert s == [s[0]] + s[1..];
    }
    assert |multiset(Sort(s, le))| == |multiset(s)|;
    forall x ensures x in Sort(s, le) <==> x in s {
      assert x in Sort(s, le) <==> x in multiset(Sort(s, le));
    }
  }

  lemma {:induction false} InsertSorted<T(!new)>(x: T, s: seq<T>, le: (T, T) -> bool)
    requires Preorder(le) && Sorted(s, le)
    ensures Sorted(Insert(x, s, le), le)
  {
    if s == [] || le(x, s[0]) {
    } else {
      InsertSorted(x, s[1..], le);
      InsertKeeps(x, s[1..], le);
      var t := Insert(x, s[1..], le);
      forall i | 0 <= i < |t| ensures le(s[0], t[i]) {
        assert t[i] in multiset(t);
        assert t[i] == x || t[i] in s[1..];
      }
    }
  }

  lemma {:induction false} SortSorts<T(!new)>(s: seq<T>, le: (T, T) -> bool)
    requires Preorder(le)
    ensures Sorted(Sort(s, le), le)
  {
    if s == [] {
    } else {
      SortSorts(s[1..], le);
      InsertSorted(s[0], Sort(s[1..], le), le);
    }
  }

  /** Sorting what is in order already changes nothing. */
  lemma {:induction false} SortOfSorted<T>(s: seq<T>, le: (T, T) -> bool)
    requires Sorted(s, le)
    ensures Sort(s, le) == s
  {
    if s == [] {
    } else {
      SortOfSorted(s[1..], le);
      assert s == [s[0]] + s[1..];
    }
  }

  lemma {:induction false} InsertStable<T(!new)>(x: T, s: seq<T>, le: (T, T) -> bool, a: T)
    requires Preorder(le) && Sorted(s, le)
    ensures var same := y => le(y, a) && le(a, y);
            Filter(Insert(x, s, le), same) == Filter([x] + s, same)
  {
    var same := y => le(y, a) && le(a, y);
    if s == [] || le(x, s[0]) {
    } else {
      InsertStable(x, s[1..], le, a);
      FilterConcat([x], s, same);
      FilterConcat([x], s[1..], same);
      FilterConcat([s[0]], s[1..], same);
      FilterConcat([s[0]], Insert(x, s[1..], le), same);
      assert s == [s[0]] + s[1..];
      assert !(same(x) && same(s[0]));
    }
  }

  /** Records with equal sort keys keep the order they came in. */
  lemma {:induction false} SortIsStable<T(!new)>(s: seq<T>, le: (T, T) -> bool, a: T)
    requires Preorder(le)
    ensures var same := y => le(y, a) && le(a, y); Filter(Sort(s, le), same) == Filter(s, same)
  {
    var same := y => le(y, a) && le(a, y);
    if s == [] {
    } else {
      SortSorts(s[1..], le);
      SortIsStable(s[1..], le, a);
      InsertStable(s[0], Sort(s[1..], le), le, a);
      FilterConcat([s[0]], s[1..], same);
      FilterConcat([s[0]], Sort(s[1..], le), same);
      assert s == [s[0]] + s[1..];
    }
  }

  /** The key separates any two elements of `s`. */
  ghost predicate NoTies<T>(s: seq<T>, le: (T, T) -> bool) {
    forall x, y :: x in s && y in s && le(x, y) && le(y, x) ==> x == y
  }

  lemma {:induction false} LeastIsFirst<T>(a: seq<T>, b: seq<T>, le: (T, T) -> bool)
    requires Sorted(a, le) && Sorted(b, le) && multiset(a) == multiset(b) && a != []
    requires NoTies(a, le)
    ensures b != [] && a[0] == b[0]
  {
    assert a[0] in multiset(b);
    var i :| 0 <= i < |b| && b[i] == a[0];
    assert b[0] in multiset(a);
    var j :| 0 <= j < |a| && a[j] == b[0];
    if i != 0 && j != 0 {
      assert le(b[0], b[i]) && le(a[0], a[j]);
    }
  }

  lemma {:induction false} TailInOrder<T>(a: seq<T>, le: (T, T) -> bool)
    requires a != []
    ensures Sorted(a, le) ==> Sorted(a[1..], le)
    ensures NoTies(a, le) ==> NoTies(a[1..], le)
    ensures multiset(a[1..]) == multiset(a) - multiset{a[0]}
  {
    assert a == [a[0]] + a[1..];
  }

  /** Two orderings of the same elements under a key without ties are the same sequence. */
  lemma {:induction false} SortedUnique<T>(a: seq<T>, b: seq<T>, le: (T, T) -> bool)
    requires Sorted(a, le) && Sorted(b, le) && multiset(a) == multiset(b) && NoTies(a, le)
    ensures a == b
    decreases |a|
  {
    if a == [] {
      assert |b| == |multiset(b)| && |a| == |multiset(a)|;
    } else {
      LeastIsFirst(a, b, le);
      TailInOrder(a, le);
      TailInOrder(b, le);
      SortedUnique(a[1..], b[1..], le);
      assert a == [a[0]] + a[1..] && b == [b[0]] + b[1..];
    }
  }

  ghost predicate AllDistinct<T>(s: seq<T>) {
    forall i, j :: 0 <= i < j < |s| ==> s[i] != s[j]
  }

  lemma {:induction false} DistinctOnce<T>(s: seq<T>, x: T)
    requires AllDistinct(s)
    ensures multiset(s)[x] <= 1
  {
    if s != [] {
      DistinctOnce(s[1..], x);
      assert s == [s[0]] + s[1..];
      forall i | 0 <= i < |s[1..]| ensures s[1..][i] != s[0] {}
      assert s[0] !in multiset(s[1..]);
    }
  }

  lemma {:induction false} TwiceThere<T>(s: seq<T>, i: nat, j: nat)
    requires i < j < |s| && s[i] == s[j]
    ensures multiset(s)[s[i]] >= 2
  {
    assert s == s[..i] + [s[i]] + s[i + 1..j] + [s[j]] + s[j + 1..];
  }

  /** Rearranging keeps elements distinct. */
  lemma {:induction false} DistinctBag<T>(a: seq<T>, b: seq<T>)
    requires AllDistinct(a) && multiset(a) == multiset(b)
    ensures AllDistinct(b)
  {
    forall i, j | 0 <= i < j < |b| ensures b[i] != b[j] {
      if b[i] == b[j] {
        DistinctOnce(a, b[i]);
        TwiceThere(b, i, j);
        assert false;
      }
    }
  }

  /** Byte order of two strings (SQLite's BINARY collation, Rust's `Ord` for `str`). */
  predicate TextLe(a: string, b: string) {
    a == [] || (b != [] && (a[0] < b[0] || (a[0] == b[0] && TextLe(a[1..], b[1..]))))
  }

  lemma {:induction false} TextTotal(a: string, b: string)
    ensures TextLe(a, b) || TextLe(b, a)
    ensures TextLe(a, b) && TextLe(b, a) ==> a == b
  {
    if a != [] && b != [] {
      TextTotal(a[1..], b[1..]);
      assert a == [a[0]] + a[1..] && b == [b[0]] + b[1..];
    }
  }

  lemma {:induction false} TextTransitive(a: string, b: string, c: string)
    requires TextLe(a, b) && TextLe(b, c)
    ensures TextLe(a, c)
  {
    if a != [] && a[0] == b[0] == c[0] {
      TextTransitive(a[1..], b[1..], c[1..]);
    }
  }

  /** Byte order: one text is the other's beginning, or has the lower character at the first difference. */
  lemma {:induction false} TextLeMeans(a: string, b: string)
    ensures TextLe(a, b) <==>
              exists n: nat :: n <= |a| && n <= |b| && a[..n] == b[..n] && (n == |a| || (n < |b| && a[n] < b[n]))
  {
    if a == [] {
      assert a[..0] == b[..0];
    } else if b != [] {
      TextLeMeans(a[1..], b[1..]);
      if TextLe(a, b) {
        var n := TextLeFrom(a, b);
      }
      if n: nat :| n <= |a| && n <= |b| && a[..n] == b[..n] && (n == |a| || (n < |b| && a[n] < b[n])) {
        if n > 0 {
          assert a[0] == a[..n][0] == b[..n][0] == b[0];
          assert a[1..][..n - 1] == a[..n][1..] == b[..n][1..] == b[1..][..n - 1];
        }
      }
    }
  }

  lemma {:induction false} TextLeFrom(a: string, b: string) returns (n: nat)
    requires TextLe(a, b)
    ensures n <= |a| && n <= |b| && a[..n] == b[..n] && (n == |a| || (n < |b| && a[n] < b[n]))
  {
    if a == [] || a[0] < b[0] {
      n := 0;
    } else {
      var m := TextLeFrom(a[1..], b[1..]);
      n := m + 1;
      assert a[..n] == [a[0]] + a[1..][..m] && b[..n] == [b[0]] + b[1..][..m];
    }
  }
}
