/** The response cache: bounded in entries and bytes, first in, first out. */
module ResponseCache {
  import opened Ordering
  import opened Journal

  datatype CacheConfig = CacheConfig(
    maxAge: nat,
    pressureHold: nat,
    enterInflight: nat,
    maxEntries: nat,
    maxBytes: nat,
    maxEntryBytes: nat)
  {
    predicate Valid() {
      maxAge > 0 && pressureHold > 0 && enterInflight > 0 && maxEntries > 0 && maxBytes > 0 && maxEntryBytes > 0
      && maxEntryBytes <= maxBytes
    }
  }

  /** A stored response; times are milliseconds of a clock that does not go back. */
  datatype Cached = Cached(insertedAt: nat, body: seq<bv8>)

  type Entries = map<string, Cached>

  function Size(entries: Entries, key: string): nat {
    if key in entries then |entries[key].body| else 0
  }

  /** Bytes of the bodies of the listed keys. */
  function Total(order: seq<string>, entries: Entries): nat {
    if order == [] then 0 else Size(entries, order[0]) + Total(order[1..], entries)
  }

  function Other(key: string): string -> bool {
    (k: string) => k != key
  }

  predicate Fits(order: seq<string>, entries: Entries, config: CacheConfig) {
    |order| <= config.maxEntries && Total(order, entries) <= config.maxBytes
  }

  /** What is left when the oldest insertions leave until both limits hold. */
  function Trimmed(order: seq<string>, entries: Entries, config: CacheConfig): seq<string> {
    if order == [] || Fits(order, entries, config) then order else Trimmed(order[1..], entries, config)
  }

  function Only(entries: Entries, keys: seq<string>): Entries {
    map k | k in entries && k in keys :: entries[k]
  }

  /** `order` lists the keys once each and `bytes` is the size of the bodies. */
  ghost predicate Coherent(order: seq<string>, entries: Entries, bytes: nat) {
    && AllDistinct(order) && (forall k :: k in order <==> k in entries)
    && bytes == Total(order, entries)
  }

  lemma {:induction false} TotalConcat(a: seq<string>, b: seq<string>, entries: Entries)
    ensures Total(a + b, entries) == Total(a, entries) + Total(b, entries)
  {
    if a == [] {
      assert a + b == b;
    } else {
      assert (a + b)[1..] == a[1..] + b;
      TotalConcat(a[1..], b, entries);
    }
  }

  lemma {:induction false} TotalSame(order: seq<string>, a: Entries, b: Entries)
    requires forall k <- order :: Size(a, k) == Size(b, k)
    ensures Total(order, a) == Total(order, b)
  {
    if order != [] {
      TotalSame(order[1..], a, b);
    }
  }

  lemma {:induction false} WithoutKey(order: seq<string>, entries: Entries, key: string)
    requires AllDistinct(order)
    ensures AllDistinct(Filter(order, Other(key)))
    ensures key in order ==> Total(Filter(order, Other(key)), entries) == Total(order, entries) - Size(entries, key)
    ensures key !in order ==> Filter(order, Other(key)) == order
  {
    if order != [] {
      WithoutKey(order[1..], entries, key);
      var rest := Filter(order[1..], Other(key));
      assert order == [order[0]] + order[1..];
      if order[0] == key {
        assert key !in order[1..];
        assert [] + rest == rest;
      } else {
        assert ([order[0]] + rest)[1..] == rest;
      }
    }
  }

  /** remove_entry keeps the list, the table and the counter together. */
  lemma {:induction false} RemoveCoherent(order: seq<string>, entries: Entries, bytes: nat, key: string)
    requires Coherent(order, entries, bytes)
    ensures bytes >= Size(entries, key)
    ensures Coherent(Filter(order, Other(key)), entries - {key}, bytes - Size(entries, key))
  {
    WithoutKey(order, entries, key);
    TotalSame(Filter(order, Other(key)), entries, entries - {key});
  }

  lemma {:induction false} PushCoherent(order: seq<string>, entries: Entries, bytes: nat, key: string, c: Cached)
    requires Coherent(order, entries, bytes) && key !in entries
    ensures Coherent(order + [key], entries[key := c], bytes + |c.body|)
  {
    TotalConcat(order, [key], entries[key := c]);
    TotalSame(order, entries, entries[key := c]);
    assert Total([key], entries[key := c]) == |c.body| + Total([], entries[key := c]);
  }

  lemma {:induction false} PopCoherent(order: seq<string>, entries: Entries, bytes: nat)
    requires Coherent(order, entries, bytes) && order != []
    ensures order[0] in entries && bytes >= Size(entries, order[0])
    ensures Coherent(order[1..], entries - {order[0]}, bytes - Size(entries, order[0]))
  {
    assert order == [order[0]] + order[1..];
    TotalSame(order[1..], entries, entries - {order[0]});
  }

  lemma {:induction false} TrimmedSame(order: seq<string>, a: Entries, b: Entries, config: CacheConfig)
    requires forall k <- order :: Size(a, k) == Size(b, k)
    ensures Trimmed(order, a, config) == Trimmed(order, b, config)
  {
    TotalSame(order, a, b);
    if order != [] {
      TrimmedSame(order[1..], a, b, config);
    }
  }

  /** The keys that survive are the latest insertions, the newest among them, and no more left than had to. */
  lemma {:induction false} TrimmedKeepsNewest(order: seq<string>, entries: Entries, config: CacheConfig) returns (n: nat)
    requires config.Valid() && order != [] && Size(entries, order[|order| - 1]) <= config.maxEntryBytes
    ensures n < |order| && Trimmed(order, entries, config) == order[n..]
    ensures Fits(order[n..], entries, config)
    ensures n > 0 ==> !Fits(order[n - 1..], entries, config)
  {
    assert order[0..] == order;
    if |order| == 1 {
      assert order[1..] == [];
      assert Total(order, entries) == Size(entries, order[0]) + Total(order[1..], entries);
    }
    if Fits(order, entries, config) {
      n := 0;
    } else {
      var m := TrimmedKeepsNewest(order[1..], entries, config);
      n := m + 1;
      assert order[1..][m..] == order[n..];
      assert m > 0 ==> order[1..][m - 1..] == order[n - 1..];
    }
  }

  /** Pop the oldest insertions until both limits hold. */
  method Trim(order0: seq<string>, entries0: Entries, bytes0: nat, config: CacheConfig)
    returns (order: seq<string>, entries: Entries, bytes: nat)
    requires Coherent(order0, entries0, bytes0)
    ensures order == Trimmed(order0, entries0, config) && entries == Only(entries0, order) && Coherent(order, entries, bytes)
  {
    order, entries, bytes := order0, entries0, bytes0;
    OnlyAll(entries0, order0);
    OrderCount(order, entries);
    while |entries| > config.maxEntries || bytes > config.maxBytes
      invariant Coherent(order, entries, bytes) && |entries| == |order| && entries == Only(entries0, order)
      invariant Trimmed(order, entries, config) == Trimmed(order0, entries0, config)
      decreases |order|
    {
      if order == [] {
        break;
      }
      var oldest := order[0];
      PopCoherent(order, entries, bytes);
      TrimmedSame(order[1..], entries, entries - {oldest}, config);
      OnlyPop(entries0, order);
      bytes := bytes - |entries[oldest].body|;
      order, entries := order[1..], entries - {oldest};
      OrderCount(order, entries);
    }
  }

  class AdaptiveResponseCache {
    const config: CacheConfig
    var entries: Entries
    var order: seq<string>       // insertion_order
    var bytes: nat
    var until: Option<nat>       // end of the pressure that was last seen

    ghost predicate Valid()
      reads this
    {
      config.Valid() && Coherent(order, entries, bytes) && Fits(order, entries, config)
    }

    constructor (config: CacheConfig)
      requires config.Valid()
      ensures Valid() && entries == map[] && order == [] && until == None && this.config == config
    {
      this.config := config;
      entries := map[];
      order := [];
      bytes := 0;
      until := None;
    }

    /** Pressure begins when enough requests are under way and lasts for the hold time after they last were. */
    method PressureActive(active: nat, now: nat) returns (pressed: bool)
      requires config.Valid()
      modifies this`until
      ensures pressed <==> active >= config.enterInflight || (old(until).Some? && old(until).value > now)
      ensures until == if active >= config.enterInflight then Some(now + config.pressureHold)
                       else if pressed then old(until) else None
    {
      if active >= config.enterInflight {
        until := Some(now + config.pressureHold);
      }
      pressed := until.Some? && until.value > now;
      if !pressed {
        until := None;
      }
    }

    method RemoveEntry(key: string)
      requires Coherent(order, entries, bytes)
      modifies this`entries, this`order, this`bytes
      ensures Coherent(order, entries, bytes)
      ensures entries == old(entries) - {key} && order == Filter(old(order), Other(key))
      ensures bytes == old(bytes) - Size(old(entries), key)
    {
      RemoveCoherent(order, entries, bytes, key);
      if key in entries {
        bytes := bytes - |entries[key].body|;
        entries := entries - {key};
      } else {
        assert entries - {key} == entries;
      }
      order := Filter(order, Other(key));
    }

    /** A hit is what was last stored under the key and not older than the maximal age; an older entry goes. */
    method Get(key: string, now: nat) returns (hit: Option<Cached>)
      requires Valid()
      modifies this`entries, this`order, this`bytes
      ensures Valid()
      ensures hit.Some? <==> key in old(entries) && now - old(entries)[key].insertedAt <= config.maxAge
      ensures hit.Some? ==> hit.value == old(entries)[key]
      ensures entries == if hit.Some? || key !in old(entries) then old(entries) else old(entries) - {key}
      ensures order == if hit.Some? || key !in old(entries) then old(order) else Filter(old(order), Other(key))
    {
      if key !in entries {
        return None;
      }
      var entry := entries[key];
      var age := if now > entry.insertedAt then now - entry.insertedAt else 0;
      if age > config.maxAge {
        RemovedFits(order, entries, bytes, key, config);
        RemoveEntry(key);
        return None;
      }
      return Some(entry);
    }

    /** Store a body that is not too large: the key becomes the newest, and the oldest insertions leave until both limits hold. */
    method Insert(key: string, response: Cached)
      requires Valid() && |response.body| <= config.maxEntryBytes
      modifies this`entries, this`order, this`bytes
      ensures Valid()
      ensures var pushed, all := Filter(old(order), Other(key)) + [key], old(entries)[key := response];
              order == Trimmed(pushed, all, config) && entries == Only(all, order)
      ensures key in entries && entries[key] == response
    {
      ghost var all := entries[key := response];
      RemoveEntry(key);
      PushCoherent(order, entries, bytes, key, response);
      assert entries[key := response] == all;
      var pushed, left, size := order + [key], entries[key := response], bytes + |response.body|;
      pushed, left, size := Trim(pushed, left, size, config);
      InsertedFits(order + [key], all, key, config);
      order, entries, bytes := pushed, left, size;
    }
  }

  /** What was inserted last survives, and both limits hold. */
  lemma {:induction false} InsertedFits(pushed: seq<string>, all: Entries, key: string, config: CacheConfig)
    requires config.Valid() && pushed != [] && pushed[|pushed| - 1] == key && key in all && |all[key].body| <= config.maxEntryBytes
    ensures var order := Trimmed(pushed, all, config);
            key in Only(all, order) && Only(all, order)[key] == all[key] && Fits(order, Only(all, order), config)
  {
    var n := TrimmedKeepsNewest(pushed, all, config);
    var order := pushed[n..];
    assert order[|order| - 1] == key;
    forall k | k in order ensures Size(Only(all, order), k) == Size(all, k) {}
    TotalSame(order, all, Only(all, order));
  }

  lemma {:induction false} RemovedFits(order: seq<string>, entries: Entries, bytes: nat, key: string, config: CacheConfig)
    requires Coherent(order, entries, bytes) && Fits(order, entries, config)
    ensures Fits(Filter(order, Other(key)), entries - {key}, config)
  {
    RemoveCoherent(order, entries, bytes, key);
  }

  lemma {:induction false} OnlyAll(all: Entries, order: seq<string>)
    requires forall k <- all :: k in order
    ensures Only(all, order) == all
  {
  }

  lemma {:induction false} OnlyPop(all: Entries, order: seq<string>)
    requires order != [] && AllDistinct(order)
    ensures Only(all, order) - {order[0]} == Only(all, order[1..])
  {
    assert order == [order[0]] + order[1..];
  }

  /** The table has as many entries as the list. */
  lemma {:induction false} OrderCount(order: seq<string>, entries: Entries)
    requires AllDistinct(order) && forall k :: k in order <==> k in entries
    ensures |entries| == |order|
  {
    if order == [] {
      assert entries == map[];
    } else {
      assert order == [order[0]] + order[1..];
      OrderCount(order[1..], entries - {order[0]});
      assert entries.Keys == (entries - {order[0]}).Keys + {order[0]};
    }
  }
}
