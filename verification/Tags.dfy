/** Message tags: how the server prints them and the viewer reads them back. */
module Tags {
  import opened Ordering
  import opened Text
  import opened Journal

  type TagMap = map<string, string>

  /* ---------- escaping values ---------- */

  function EncodeChar(c: char): string {
    if c == ';' then "\\:"
    else if c == ' ' then "\\s"
    else if c == '\\' then "\\\\"
    else if c == '\r' then "\\r"
    else if c == '\n' then "\\n"
    else [c]
  }

  function Encode(value: string): string {
    if value == [] then [] else EncodeChar(value[0]) + Encode(value[1..])
  }

  /** What follows a backslash in an escape, if it makes one. */
  function Escaped(c: char): Option<char> {
    if c == 's' then Some(' ')
    else if c == 'n' then Some('\n')
    else if c == 'r' then Some('\r')
    else if c == ':' then Some(';')
    else if c == '\\' then Some('\\')
    else None
  }

  /** decodeTag: replace escapes from left to right, leave every other backslash alone. */
  function Decode(value: string): string {
    if value == [] then []
    else if value[0] == '\\' && |value| > 1 && Escaped(value[1]).Some? then [Escaped(value[1]).value] + Decode(value[2..])
    else [value[0]] + Decode(value[1..])
  }

  lemma {:induction false} EncodePush(s: string, c: char)
    ensures Encode(s + [c]) == Encode(s) + EncodeChar(c)
  {
    if s == [] {
      assert Encode([c]) == EncodeChar(c) + Encode([]);
    } else {
      assert (s + [c])[1..] == s[1..] + [c];
      EncodePush(s[1..], c);
    }
  }

  /** encode_tag_value. */
  method EncodeTagValue(value: string) returns (encoded: string)
    ensures encoded == Encode(value)
  {
    encoded := [];
    for i := 0 to |value|
      invariant encoded == Encode(value[..i])
    {
      assert value[..i + 1] == value[..i] + [value[i]];
      EncodePush(value[..i], value[i]);
      encoded := encoded + EncodeChar(value[i]);
    }
    assert value[..|value|] == value;
  }

  /**
   * The escapes of the IRCv3 Message Tags specification (section "Escaping values"): semicolon, space,
   * backslash, carriage return and line feed have one each, every other character stands for itself.
   */
  lemma {:induction false} EscapesAreStandard(c: char, rest: string)
    ensures Encode([';'] + rest) == ['\\', ':'] + Encode(rest)
    ensures Encode([' '] + rest) == ['\\', 's'] + Encode(rest)
    ensures Encode(['\\'] + rest) == ['\\', '\\'] + Encode(rest)
    ensures Encode(['\r'] + rest) == ['\\', 'r'] + Encode(rest)
    ensures Encode(['\n'] + rest) == ['\\', 'n'] + Encode(rest)
    ensures c != ';' && c != ' ' && c != '\\' && c != '\r' && c != '\n' ==> Encode([c] + rest) == [c] + Encode(rest)
  {
    assert ([';'] + rest)[1..] == ([' '] + rest)[1..] == (['\\'] + rest)[1..] == rest;
    assert (['\r'] + rest)[1..] == (['\n'] + rest)[1..] == ([c] + rest)[1..] == rest;
  }

  /** Decoding undoes encoding, for every string. */
  lemma {:induction false} DecodeOfEncode(value: string)
    ensures Decode(Encode(value)) == value
  {
    if value != [] {
      DecodeOfEncode(value[1..]);
      DecodeStep(value[0], Encode(value[1..]));
      assert value == [value[0]] + value[1..];
    }
  }

  /** An encoded character is decoded by itself. */
  lemma {:induction false} DecodeStep(c: char, rest: string)
    ensures Decode(EncodeChar(c) + rest) == [c] + Decode(rest)
  {
    var code := EncodeChar(c) + rest;
    if |EncodeChar(c)| == 2 {
      assert code[0] == '\\' && code[1] == EncodeChar(c)[1] && code[2..] == rest;
    } else {
      assert code[0] == c && code[1..] == rest;
    }
  }

  /** An encoded value holds no separator, space or line break (section "Escaping values"). */
  lemma {:induction false} EncodedIsClean(value: string)
    ensures forall c <- Encode(value) :: c != ';' && c != ' ' && c != '\r' && c != '\n'
  {
    if value != [] {
      EncodedIsClean(value[1..]);
    }
  }

  /* ---------- printing ---------- */

  function PrintTag(key: string, value: string): string {
    if value == "" then key else key + "=" + Encode(value)
  }

  function PrintAll(keys: seq<string>, tags: TagMap): seq<string>
    requires forall k <- keys :: k in tags
  {
    seq(|keys|, i requires 0 <= i < |keys| => PrintTag(keys[i], tags[keys[i]]))
  }

  /** The keys of the map, in order. */
  ghost predicate Lists(keys: seq<string>, tags: TagMap) {
    && (forall k :: k in keys <==> k in tags)
    && (forall i, j :: 0 <= i < j < |keys| ==> keys[i] != keys[j] && TextLe(keys[i], keys[j]))
  }

  /** Separators that printing does not escape in keys. */
  predicate Plain(key: string) {
    ';' !in key && '=' !in key && ' ' !in key
  }

  function Order(): (string, string) -> bool { (a: string, b: string) => TextLe(a, b) }

  lemma {:induction false} OrderIsTotal()
    ensures Preorder(Order())
  {
    forall a: string, b: string ensures TextLe(a, b) || TextLe(b, a) { TextTotal(a, b); }
    forall a: string, b: string, c: string | TextLe(a, b) && TextLe(b, c) ensures TextLe(a, c) { TextTransitive(a, b, c); }
  }

  /** Drain the hash map and sort by key. */
  method SortedKeys(tags: TagMap) returns (keys: seq<string>)
    ensures Lists(keys, tags)
  {
    var all: seq<string> := [];
    var left := tags.Keys;
    while left != {}
      invariant left <= tags.Keys && forall k :: k in all <==> k in tags && k !in left
      invariant forall i, j :: 0 <= i < j < |all| ==> all[i] != all[j]
      decreases |left|
    {
      var k :| k in left;
      all := all + [k];
      left := left - {k};
    }
    keys := Sort(all, Order());
    SortKeeps(all, Order());
    OrderIsTotal();
    SortSorts(all, Order());
    DistinctBag(all, keys);
    forall i, j | 0 <= i < j < |keys| ensures keys[i] != keys[j] && TextLe(keys[i], keys[j]) {
      assert Order()(keys[i], keys[j]);
    }
  }

  /** stable_raw_irc: tags sorted by key, then the message without tags. */
  method StableRawIrc(tags: TagMap, message: string) returns (raw: string, ghost keys: seq<string>)
    ensures Lists(keys, tags)
    ensures raw == if tags == map[] then message else "@" + Join(PrintAll(keys, tags), ';') + " " + message
  {
    var sorted := SortedKeys(tags);
    keys := sorted;
    if sorted == [] {
      assert forall k :: k !in tags;
      return message, [];
    }
    assert sorted[0] in tags;
    var parts := PrintParts(sorted, tags);
    raw := "@" + Join(parts, ';') + " " + message;
  }

  method PrintParts(keys: seq<string>, tags: TagMap) returns (parts: seq<string>)
    requires forall k <- keys :: k in tags
    ensures parts == PrintAll(keys, tags)
  {
    parts := [];
    for i := 0 to |keys|
      invariant |parts| == i && forall j :: 0 <= j < i ==> parts[j] == PrintTag(keys[j], tags[keys[j]])
    {
      var part := keys[i];
      if tags[keys[i]] != "" {
        var value := EncodeTagValue(tags[keys[i]]);
        part := keys[i] + "=" + value;
      }
      parts := parts + [part];
    }
  }

  /* ---------- parsing ---------- */

  /** The key and the decoded value of one printed tag. */
  function ParseTag(tag: string): (string, string) {
    var separator := IndexOf(tag, '=');
    if separator < 0 then (tag, Decode("")) else (tag[..separator], Decode(tag[separator + 1..]))
  }

  /** A plain object takes no property of this name from an assignment of a string. */
  const PROTO: string := "__proto__"

  function Assign(tags: TagMap, tag: (string, string)): TagMap {
    if tag.0 == PROTO then tags else tags[tag.0 := tag.1]
  }

  function ParseAll(parts: seq<string>): TagMap {
    if parts == [] then map[] else Assign(ParseAll(parts[..|parts| - 1]), ParseTag(parts[|parts| - 1]))
  }

  datatype Parsed = Parsed(tags: TagMap, rest: string)

  /** The tag half of parseMessage; None is a message it gives up on. */
  method ParseTags(raw: string) returns (r: Option<Parsed>)
    ensures r == ParseOf(raw)
  {
    if raw == [] || raw[0] != '@' {
      return Some(Parsed(map[], raw));
    }
    var end := IndexOf(raw, ' ');
    if end < 0 {
      return None;
    }
    var parts := Split(raw[1..end], ';');
    var tags: TagMap := map[];
    for i := 0 to |parts|
      invariant tags == ParseAll(parts[..i])
    {
      assert parts[..i + 1][..i] == parts[..i];
      var tag := parts[i];
      var separator := IndexOf(tag, '=');
      var key := if separator < 0 then tag else tag[..separator];
      var value := Decode(if separator < 0 then "" else tag[separator + 1..]);
      tags := Assign(tags, (key, value));
    }
    assert parts[..|parts|] == parts;
    return Some(Parsed(tags, raw[end + 1..]));
  }

  function ParseOf(raw: string): Option<Parsed> {
    if raw == [] || raw[0] != '@' then Some(Parsed(map[], raw))
    else
      var end := IndexOf(raw, ' ');
      if end < 0 then None else Some(Parsed(ParseAll(Split(raw[1..end], ';')), raw[end + 1..]))
  }

  /* ---------- round trip ---------- */

  lemma {:induction false} PrintIsClean(key: string, value: string)
    requires Plain(key)
    ensures ';' !in PrintTag(key, value) && ' ' !in PrintTag(key, value)
  {
    EncodedIsClean(value);
    if value != "" {
      forall c | c in PrintTag(key, value) ensures c != ';' && c != ' ' {
        assert c in key || c == '=' || c in Encode(value);
      }
    }
  }

  lemma {:induction false} ParseOfPrint(key: string, value: string)
    requires Plain(key)
    ensures ParseTag(PrintTag(key, value)) == (key, value)
  {
    if value == "" {
      assert IndexOf(key, '=') < 0;
    } else {
      var code := Encode(value);
      assert PrintTag(key, value) == key + ['='] + code;
      IndexAfter(key, '=', code);
      Halves(key, '=', code);
      DecodeOfEncode(value);
    }
  }

  lemma {:induction false} Halves(a: string, c: char, b: string)
    ensures (a + [c] + b)[..|a|] == a && (a + [c] + b)[|a| + 1..] == b
  {
  }

  /** What the first `n` keys of a listing are read back as. */
  function ReadBack(keys: seq<string>, tags: TagMap, n: nat): TagMap
    requires n <= |keys|
  {
    map k | k in tags && k in keys[..n] && k != PROTO :: tags[k]
  }

  lemma {:induction false} ReadOneMore(keys: seq<string>, tags: TagMap, n: nat)
    requires n < |keys| && keys[n] in tags && forall i, j :: 0 <= i < j < |keys| ==> keys[i] != keys[j]
    ensures Assign(ReadBack(keys, tags, n), (keys[n], tags[keys[n]])) == ReadBack(keys, tags, n + 1)
  {
    assert keys[..n + 1] == keys[..n] + [keys[n]];
  }

  lemma {:induction false} ParseOfPrintFirst(keys: seq<string>, tags: TagMap, n: nat)
    requires n <= |keys| && forall i :: 0 <= i < |keys| ==> keys[i] in tags && Plain(keys[i])
    requires forall i, j :: 0 <= i < j < |keys| ==> keys[i] != keys[j]
    ensures ParseAll(PrintAll(keys, tags)[..n]) == ReadBack(keys, tags, n)
  {
    var parts := PrintAll(keys, tags);
    if n > 0 {
      ParseOfPrintFirst(keys, tags, n - 1);
      assert parts[..n][..n - 1] == parts[..n - 1];
      ParseOfPrint(keys[n - 1], tags[keys[n - 1]]);
      ReadOneMore(keys, tags, n - 1);
    }
  }

  lemma {:induction false} ParseOfPrintAll(keys: seq<string>, tags: TagMap)
    requires (forall k <- keys :: k in tags && Plain(k)) && forall i, j :: 0 <= i < j < |keys| ==> keys[i] != keys[j]
    ensures ParseAll(PrintAll(keys, tags)) == map k | k in tags && k in keys && k != PROTO :: tags[k]
  {
    ParseOfPrintFirst(keys, tags, |keys|);
    assert keys[..|keys|] == keys && PrintAll(keys, tags)[..|keys|] == PrintAll(keys, tags);
  }

  /**
   * The viewer reads back the tags that were printed, whatever their values hold, except one of the
   * reserved name; the rest of the message follows unchanged.
   */
  lemma {:induction false} RoundTrip(keys: seq<string>, tags: TagMap, message: string)
    requires Lists(keys, tags) && tags != map[] && forall k <- tags :: Plain(k)
    ensures keys != []
    ensures ParseOf("@" + Join(PrintAll(keys, tags), ';') + " " + message) == Some(Parsed(tags - {PROTO}, message))
    ensures (tags - {PROTO} == tags) <==> PROTO !in tags
  {
    SomeKey(keys, tags);
    PrintedSplits(keys, tags);
    ParseOfRaw(Join(PrintAll(keys, tags), ';'), message);
    ParseOfPrintAll(keys, tags);
    AllListed(keys, tags);
  }

  lemma {:induction false} SomeKey(keys: seq<string>, tags: TagMap)
    requires Lists(keys, tags) && tags != map[]
    ensures keys != []
  {
    var k :| k in tags;
    assert k in keys;
  }

  lemma {:induction false} AllListed(keys: seq<string>, tags: TagMap)
    requires Lists(keys, tags)
    ensures (map k | k in tags && k in keys && k != PROTO :: tags[k]) == tags - {PROTO}
    ensures (tags - {PROTO} == tags) <==> PROTO !in tags
  {
  }

  lemma {:induction false} PrintedSplits(keys: seq<string>, tags: TagMap)
    requires keys != [] && forall k <- keys :: k in tags && Plain(k)
    ensures var text := Join(PrintAll(keys, tags), ';'); ' ' !in text && Split(text, ';') == PrintAll(keys, tags)
  {
    var parts := PrintAll(keys, tags);
    forall part | part in parts ensures ';' !in part && ' ' !in part {
      var i :| 0 <= i < |parts| && parts[i] == part;
      PrintIsClean(keys[i], tags[keys[i]]);
    }
    JoinAvoids(parts, ';', ' ');
    SplitOfJoin(parts, ';');
  }

  lemma {:induction false} ParseOfRaw(text: string, message: string)
    requires ' ' !in text
    ensures ParseOf("@" + text + " " + message) == Some(Parsed(ParseAll(Split(text, ';')), message))
  {
    var head, raw := "@" + text, "@" + text + " " + message;
    assert raw == head + [' '] + message;
    IndexAfter(head, ' ', message);
    Halves(head, ' ', message);
    assert raw[1..|head|] == raw[..|head|][1..] == text;
  }

  /** A message without tags is passed on as it is, unless it begins like tags do. */
  lemma {:induction false} NoTags(message: string)
    ensures (ParseOf(message) == Some(Parsed(map[], message))) <==> message == [] || message[0] != '@'
  {
    if message != [] && message[0] == '@' && IndexOf(message, ' ') >= 0 {
      assert |message[IndexOf(message, ' ') + 1..]| < |message|;
    }
  }
}
