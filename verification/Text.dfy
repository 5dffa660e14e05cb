/** Strings split at a separator. */
module Text {

  function Split(s: string, sep: char): (r: seq<string>)
    ensures r != []
  {
    if s == [] then [""]
    else
      var rest := Split(s[1..], sep);
      if s[0] == sep then [""] + rest else [[s[0]] + rest[0]] + rest[1..]
  }

  function Join(parts: seq<string>, sep: char): string
    requires parts != []
  {
    if |parts| == 1 then parts[0] else parts[0] + [sep] + Join(parts[1..], sep)
  }

  /** The parts of two strings put together with the separator between them. */
  lemma {:induction false} SplitJoined(a: string, b: string, sep: char)
    ensures Split(a + [sep] + b, sep) == Split(a, sep) + Split(b, sep)
  {
    if a == [] {
      assert (a + [sep] + b)[1..] == b;
    } else {
      assert (a + [sep] + b)[1..] == a[1..] + [sep] + b;
      SplitJoined(a[1..], b, sep);
    }
  }

  lemma {:induction false} SplitPlain(s: string, sep: char)
    requires sep !in s
    ensures Split(s, sep) == [s]
  {
    if s != [] {
      SplitPlain(s[1..], sep);
      assert s == [s[0]] + s[1..];
    }
  }

  /** No part holds the separator. */
  lemma {:induction false} PartsArePlain(s: string, sep: char)
    ensures forall n <- Split(s, sep) :: sep !in n
  {
    if s != [] {
      PartsArePlain(s[1..], sep);
    }
  }

  /** Splitting undoes joining when no part holds the separator. */
  lemma {:induction false} SplitOfJoin(parts: seq<string>, sep: char)
    requires parts != [] && forall part <- parts :: sep !in part
    ensures Split(Join(parts, sep), sep) == parts
  {
    SplitPlain(parts[0], sep);
    if |parts| > 1 {
      SplitOfJoin(parts[1..], sep);
      SplitJoined(parts[0], Join(parts[1..], sep), sep);
      assert parts == [parts[0]] + parts[1..];
    }
  }

  /** Joining parts without a character gives a string without it. */
  lemma {:induction false} JoinAvoids(parts: seq<string>, sep: char, c: char)
    requires parts != [] && c != sep && forall part <- parts :: c !in part
    ensures c !in Join(parts, sep)
  {
    if |parts| > 1 {
      JoinAvoids(parts[1..], sep, c);
    }
  }

  /** Where a character first occurs. */
  function IndexOf(s: string, c: char): (r: int)
    ensures r < 0 ==> c !in s
    ensures r >= 0 ==> r < |s| && s[r] == c && c !in s[..r]
    ensures -1 <= r
  {
    if s == [] then -1
    else if s[0] == c then 0
    else
      var r := IndexOf(s[1..], c);
      assert s == [s[0]] + s[1..];
      assert r >= 0 ==> s[..r + 1] == [s[0]] + s[1..][..r];
      if r < 0 then -1 else r + 1
  }

  lemma {:induction false} IndexAfter(a: string, c: char, b: string)
    requires c !in a
    ensures IndexOf(a + [c] + b, c) == |a|
  {
    if a == [] {
      assert (a + [c] + b)[0] == c;
    } else {
      assert (a + [c] + b)[1..] == a[1..] + [c] + b;
      IndexAfter(a[1..], c, b);
    }
  }
}
