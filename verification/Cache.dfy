/** The query result cache as a value: its live entries, most recently used first. */
module LruCache {
  import opened Bytes

  type Key = string

  datatype Entry = Entry(key: Key, value: seq<Byte>, expiresAt: int, tables: seq<string>)

  datatype Cache = Cache(
    items: seq<Entry>,
    max: int,
    defaultTTL: int,
    hits: nat,
    misses: nat,
    evictions: nat)

  datatype Op =
    | Get(key: Key)
    | Set(key: Key, value: seq<Byte>, tables: seq<string>, ttl: int)
    | Delete(key: Key)
    | InvalidateTable(table: string)
    | Clear
    | Cleanup

  function Empty(max: int, defaultTTL: int): Cache {
    Cache([], max, defaultTTL, 0, 0, 0)
  }

  // ----- sequences of entries -----

  function Filter(items: seq<Entry>, p: Entry -> bool): seq<Entry> {
    if items == [] then []
    else (if p(items[0]) then [items[0]] else []) + Filter(items[1..], p)
  }

  lemma {:induction false} FilterMembers(items: seq<Entry>, p: Entry -> bool)
    ensures forall e :: e in Filter(items, p) <==> e in items && p(e)
  {
    if items != [] {
      FilterMembers(items[1..], p);
      assert items == [items[0]] + items[1..];
    }
  }

  lemma {:induction false} FilterSame(items: seq<Entry>, p: Entry -> bool, q: Entry -> bool)
    requires forall e :: e in items ==> p(e) == q(e)
    ensures Filter(items, p) == Filter(items, q)
  {
    if items != [] {
      FilterSame(items[1..], p, q);
    }
  }

  lemma {:induction false} FilterTwice(items: seq<Entry>, p: Entry -> bool, q: Entry -> bool)
    ensures Filter(Filter(items, p), q) == Filter(items, e => p(e) && q(e))
  {
    if items != [] {
      FilterTwice(items[1..], p, q);
      var rest := Filter(items[1..], p);
      assert p(items[0]) ==> Filter(items, p)[1..] == rest;
      assert !p(items[0]) ==> Filter(items, p) == rest;
    }
  }

  lemma {:induction false} FilterAll(items: seq<Entry>, p: Entry -> bool)
    requires forall e :: e in items ==> p(e)
    ensures Filter(items, p) == items
  {
    if items != [] {
      FilterAll(items[1..], p);
      assert items == [items[0]] + items[1..];
    }
  }

  /** Earlier entries stand in relation r to later ones. */
  ghost predicate Pairwise(items: seq<Entry>, r: (Entry, Entry) -> bool) {
    forall i, j :: 0 <= i < j < |items| ==> r(items[i], items[j])
  }

  lemma PairwiseCons(e: Entry, rest: seq<Entry>, r: (Entry, Entry) -> bool)
    requires Pairwise(rest, r) && forall x :: x in rest ==> r(e, x)
    ensures Pairwise([e] + rest, r)
  {
    var items := [e] + rest;
    forall i, j | 0 <= i < j < |items| ensures r(items[i], items[j]) {
      assert items[j] == rest[j - 1];
      if i > 0 {
        assert items[i] == rest[i - 1];
      }
    }
  }

  lemma {:induction false} FilterPairwise(items: seq<Entry>, p: Entry -> bool, r: (Entry, Entry) -> bool)
    requires Pairwise(items, r)
    ensures Pairwise(Filter(items, p), r)
  {
    if items != [] {
      var tail := items[1..];
      forall i, j | 0 <= i < j < |tail| ensures r(tail[i], tail[j]) {
        assert tail[i] == items[i + 1] && tail[j] == items[j + 1];
      }
      FilterPairwise(tail, p, r);
      FilterMembers(tail, p);
      forall x | x in Filter(tail, p) ensures r(items[0], x) {
        var k :| 0 <= k < |tail| && tail[k] == x;
        assert x == items[k + 1];
      }
      PairwiseCons(items[0], Filter(tail, p), r);
      assert [] + Filter(tail, p) == Filter(tail, p);
    }
  }

  ghost predicate DistinctKeys(items: seq<Entry>) {
    Pairwise(items, DifferentKeys)
  }

  predicate DifferentKeys(a: Entry, b: Entry) {
    a.key != b.key
  }

  function Total(items: seq<Entry>): (n: nat) {
    if items == [] then 0 else Total(items[..|items| - 1]) + |items[|items| - 1].value|
  }

  lemma {:induction false} TotalConcat(a: seq<Entry>, b: seq<Entry>)
    ensures Total(a + b) == Total(a) + Total(b)
  {
    if b == [] {
      assert a + b == a;
    } else {
      assert (a + b)[..|a + b| - 1] == a + b[..|b| - 1];
      TotalConcat(a, b[..|b| - 1]);
    }
  }

  lemma {:induction false} FilterTotal(items: seq<Entry>, p: Entry -> bool)
    ensures Total(Filter(items, p)) <= Total(items)
  {
    if items != [] {
      FilterTotal(items[1..], p);
      assert items == [items[0]] + items[1..];
      TotalConcat([items[0]], items[1..]);
      TotalConcat([items[0]], Filter(items[1..], p));
      assert [] + Filter(items[1..], p) == Filter(items[1..], p);
    }
  }

  // ----- operations -----

  function NotKey(key: Key): Entry -> bool {
    (e: Entry) => e.key != key
  }

  function NotOf(table: string): Entry -> bool {
    (e: Entry) => table !in e.tables
  }

  function Lasting(now: int): Entry -> bool {
    (e: Entry) => !Expired(e, now)
  }

  function Others(items: seq<Entry>, key: Key): seq<Entry> {
    Filter(items, NotKey(key))
  }

  function Lookup(items: seq<Entry>, key: Key): Option<Entry> {
    if items == [] then None
    else if items[0].key == key then Some(items[0])
    else Lookup(items[1..], key)
  }

  predicate Expired(e: Entry, now: int) {
    now > e.expiresAt
  }

  /** Drop least recently used entries until the rest fits into room. */
  function Evict(items: seq<Entry>, room: int): (kept: seq<Entry>)
    ensures kept <= items
    decreases |items|
  {
    if items == [] || Total(items) <= room then items else Evict(items[..|items| - 1], room)
  }

  function Answer(c: Cache, key: Key, now: int): Option<seq<Byte>> {
    var found := Lookup(c.items, key);
    if found.None? || Expired(found.value, now) then None else Some(found.value.value)
  }

  function NewEntry(c: Cache, key: Key, value: seq<Byte>, tables: seq<string>, ttl: int, now: int): Entry {
    Entry(key, value, now + (if ttl == 0 then c.defaultTTL else ttl), tables)
  }

  function AfterGet(c: Cache, key: Key, now: int): Cache {
    var found := Lookup(c.items, key);
    if found.None? then c.(misses := c.misses + 1)
    else if Expired(found.value, now) then c.(items := Others(c.items, key), misses := c.misses + 1)
    else c.(items := [found.value] + Others(c.items, key), hits := c.hits + 1)
  }

  function Insert(c: Cache, e: Entry): Cache {
    var others := Others(c.items, e.key);
    var kept := Evict(others, c.max - |e.value|);
    c.(items := [e] + kept, evictions := c.evictions + |others| - |kept|)
  }

  function AfterSet(c: Cache, key: Key, value: seq<Byte>, tables: seq<string>, ttl: int, now: int): Cache {
    if |value| > c.max then c else Insert(c, NewEntry(c, key, value, tables, ttl, now))
  }

  function Step(c: Cache, op: Op, now: int): Cache {
    match op
    case Get(key) => AfterGet(c, key, now)
    case Set(key, value, tables, ttl) => AfterSet(c, key, value, tables, ttl, now)
    case Delete(key) => c.(items := Others(c.items, key))
    case InvalidateTable(table) => c.(items := Filter(c.items, NotOf(table)))
    case Clear => c.(items := [])
    case Cleanup => c.(items := Filter(c.items, Lasting(now)))
  }

  // ----- eviction is exact -----

  /** prefix is the longest prefix of items that fits into room. */
  ghost predicate LongestFitting(prefix: seq<Entry>, items: seq<Entry>, room: int) {
    && prefix <= items && Total(prefix) <= room
    && forall n :: |prefix| < n <= |items| ==> Total(items[..n]) > room
  }

  lemma {:induction false} EvictLongest(items: seq<Entry>, room: int)
    requires room >= 0
    ensures LongestFitting(Evict(items, room), items, room)
    decreases |items|
  {
    if items == [] || Total(items) <= room {
    } else {
      var shorter := items[..|items| - 1];
      EvictLongest(shorter, room);
      forall n | |Evict(items, room)| < n <= |items| ensures Total(items[..n]) > room {
        if n == |items| {
          assert items[..n] == items;
        } else {
          assert items[..n] == shorter[..n];
        }
      }
    }
  }

  /** Nothing else is a longest fitting prefix. */
  lemma LongestUnique(a: seq<Entry>, b: seq<Entry>, items: seq<Entry>, room: int)
    requires LongestFitting(a, items, room) && LongestFitting(b, items, room)
    ensures a == b
  {
    assert a == items[..|a|] && b == items[..|b|];
  }

  /**
   * A successful Set leaves the new entry in front of the longest most-recently-used prefix of the
   * other entries that fits beside it; a Set that is too large changes nothing.
   */
  lemma SetIsExactLru(c: Cache, key: Key, value: seq<Byte>, tables: seq<string>, ttl: int, now: int, prefix: seq<Entry>)
    requires |value| <= c.max
    ensures var c' := AfterSet(c, key, value, tables, ttl, now);
            && (c'.items == [NewEntry(c, key, value, tables, ttl, now)] + prefix
                <==> LongestFitting(prefix, Others(c.items, key), c.max - |value|))
            && Total(c'.items) <= c.max
            && c'.evictions == c.evictions + |Others(c.items, key)| - (|c'.items| - 1)
  {
    var others, e := Others(c.items, key), NewEntry(c, key, value, tables, ttl, now);
    var kept := Evict(others, c.max - |value|);
    EvictLongest(others, c.max - |value|);
    if LongestFitting(prefix, others, c.max - |value|) {
      LongestUnique(prefix, kept, others, c.max - |value|);
    }
    assert ([e] + kept)[1..] == kept && ([e] + prefix)[1..] == prefix;
    TotalConcat([e], kept);
    assert Total([e]) == |value|;
  }

  // ----- what every operation keeps -----

  ghost predicate Valid(c: Cache) {
    DistinctKeys(c.items) && (Total(c.items) <= c.max || c.items == [])
  }

  lemma {:induction false} LookupFinds(items: seq<Entry>, key: Key)
    ensures Lookup(items, key).Some? ==> Lookup(items, key).value in items && Lookup(items, key).value.key == key
    ensures Lookup(items, key).None? ==> forall e :: e in items ==> e.key != key
  {
    if items != [] {
      LookupFinds(items[1..], key);
      assert items == [items[0]] + items[1..];
    }
  }

  lemma FilterKeeps(c: Cache, p: Entry -> bool, c': Cache)
    requires Valid(c) && c'.items == Filter(c.items, p) && c'.max == c.max
    ensures Valid(c')
  {
    FilterPairwise(c.items, p, DifferentKeys);
    FilterTotal(c.items, p);
  }

  lemma {:induction false} OthersTotal(items: seq<Entry>, key: Key)
    requires DistinctKeys(items) && Lookup(items, key).Some?
    ensures Total(Others(items, key)) + |Lookup(items, key).value.value| == Total(items)
  {
    var tail := items[1..];
    assert items == [items[0]] + tail;
    TotalConcat([items[0]], tail);
    assert Total([items[0]]) == |items[0].value|;
    TailDistinct(items);
    if items[0].key == key {
      FilterAll(tail, NotKey(key));
      assert [] + Others(tail, key) == Others(tail, key);
    } else {
      OthersTotal(tail, key);
      TotalConcat([items[0]], Others(tail, key));
    }
  }

  lemma TailDistinct(items: seq<Entry>)
    requires DistinctKeys(items) && items != []
    ensures DistinctKeys(items[1..]) && forall e :: e in items[1..] ==> e.key != items[0].key
  {
    var tail := items[1..];
    forall i, j | 0 <= i < j < |tail| ensures tail[i].key != tail[j].key {
      assert tail[i] == items[i + 1] && tail[j] == items[j + 1];
    }
    forall e | e in tail ensures e.key != items[0].key {
      var k :| 0 <= k < |tail| && tail[k] == e;
      assert e == items[k + 1];
    }
  }

  lemma FrontDistinct(e: Entry, rest: seq<Entry>, items: seq<Entry>)
    requires DistinctKeys(items) && rest <= Others(items, e.key)
    ensures DistinctKeys([e] + rest)
  {
    var r := DifferentKeys;
    var p := NotKey(e.key);
    FilterPairwise(items, p, r);
    FilterMembers(items, p);
    assert Others(items, e.key) == Filter(items, p);
    assert forall x :: x in rest ==> x in Others(items, e.key);
    PairwiseCons(e, rest, r);
  }

  lemma GetKeeps(c: Cache, key: Key, now: int)
    requires Valid(c)
    ensures Valid(AfterGet(c, key, now))
  {
    var found := Lookup(c.items, key);
    LookupFinds(c.items, key);
    if found.Some? {
      var others := Others(c.items, key);
      FilterKeeps(c, NotKey(key), c.(items := others));
      OthersTotal(c.items, key);
      FrontDistinct(found.value, others, c.items);
      TotalConcat([found.value], others);
      assert Total([found.value]) == |found.value.value|;
    }
  }

  lemma SetKeeps(c: Cache, key: Key, value: seq<Byte>, tables: seq<string>, ttl: int, now: int)
    requires Valid(c)
    ensures Valid(AfterSet(c, key, value, tables, ttl, now))
  {
    if |value| <= c.max {
      var others := Others(c.items, key);
      var kept := Evict(others, c.max - |value|);
      EvictLongest(others, c.max - |value|);
      SetIsExactLru(c, key, value, tables, ttl, now, kept);
      FrontDistinct(NewEntry(c, key, value, tables, ttl, now), kept, c.items);
    }
  }

  /** Keys stay distinct and the bytes held stay within the maximum. */
  lemma StepKeepsValid(c: Cache, op: Op, now: int)
    requires Valid(c)
    ensures Valid(Step(c, op, now)) && Step(c, op, now).max == c.max && Step(c, op, now).defaultTTL == c.defaultTTL
  {
    match op
    case Get(key) => GetKeeps(c, key, now);
    case Set(key, value, tables, ttl) => SetKeeps(c, key, value, tables, ttl, now);
    case Delete(key) => FilterKeeps(c, NotKey(key), Step(c, op, now));
    case InvalidateTable(table) => FilterKeeps(c, NotOf(table), Step(c, op, now));
    case Clear =>
    case Cleanup => FilterKeeps(c, Lasting(now), Step(c, op, now));
  }

  /**
   * Invalidation removes exactly the entries that name the table; cleanup exactly those whose time has
   * passed; Delete exactly the key; and Get the key's entry exactly if its time has passed.
   */
  lemma RemovesExactly(c: Cache, e: Entry, key: Key, table: string, now: int)
    requires DistinctKeys(c.items)
    ensures e in Step(c, InvalidateTable(table), now).items <==> e in c.items && table !in e.tables
    ensures e in Step(c, Cleanup, now).items <==> e in c.items && now <= e.expiresAt
    ensures e in Step(c, Delete(key), now).items <==> e in c.items && e.key != key
    ensures e in Step(c, Get(key), now).items <==> e in c.items && (e.key != key || now <= e.expiresAt)
    ensures Step(c, Clear, now).items == []
  {
    FilterMembers(c.items, NotOf(table));
    FilterMembers(c.items, Lasting(now));
    FilterMembers(c.items, NotKey(key));
    LookupFinds(c.items, key);
    if e in c.items && e.key == key {
      SameEntry(c.items, e, Lookup(c.items, key).value);
    }
  }

  lemma SamePlace(items: seq<Entry>, i: nat, j: nat)
    requires DistinctKeys(items) && i < |items| && j < |items|
    ensures i != j ==> items[i].key != items[j].key
  {
    if i < j {
      assert DifferentKeys(items[i], items[j]);
    } else if j < i {
      assert DifferentKeys(items[j], items[i]);
    }
  }

  lemma SameEntry(items: seq<Entry>, a: Entry, b: Entry)
    requires DistinctKeys(items) && a in items && b in items && a.key == b.key
    ensures a == b
  {
    var i :| 0 <= i < |items| && items[i] == a;
    var j :| 0 <= j < |items| && items[j] == b;
    SamePlace(items, i, j);
  }
}
