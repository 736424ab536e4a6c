/** The cache over whole histories of operations, against a plain map that never evicts. */
module CacheHistory {
  import opened Bytes
  import opened LruCache

  datatype Event = Event(op: Op, now: int)

  datatype Setup = Setup(max: int, defaultTTL: int)

  function After(u: Setup, h: seq<Event>): Cache {
    if h == [] then Empty(u.max, u.defaultTTL)
    else Step(After(u, h[..|h| - 1]), h[|h| - 1].op, h[|h| - 1].now)
  }

  /** The last successful Set of key that no Delete, Clear or invalidation of one of its tables has undone. */
  function LastWrite(u: Setup, h: seq<Event>, key: Key): Option<Entry> {
    if h == [] then None
    else
      var before, last := LastWrite(u, h[..|h| - 1], key), h[|h| - 1];
      match last.op
      case Set(k, value, tables, ttl) =>
        if k == key && |value| <= u.max then
          Some(Entry(key, value, last.now + (if ttl == 0 then u.defaultTTL else ttl), tables))
        else before
      case Delete(k) => if k == key then None else before
      case InvalidateTable(table) => if before.Some? && table in before.value.tables then None else before
      case Clear => None
      case Get(_) => before
      case Cleanup => before
  }

  lemma {:induction false} HistoryKeepsValid(u: Setup, h: seq<Event>)
    ensures var c := After(u, h); Valid(c) && c.max == u.max && c.defaultTTL == u.defaultTTL
  {
    if h != [] {
      hide Step, Valid;
      HistoryKeepsValid(u, h[..|h| - 1]);
      StepKeepsValid(After(u, h[..|h| - 1]), h[|h| - 1].op, h[|h| - 1].now);
    } else {
      EmptyValid(u);
    }
  }

  lemma EmptyValid(u: Setup)
    ensures Valid(Empty(u.max, u.defaultTTL))
  {
  }

  // ----- coherence -----

  ghost predicate Coherent(u: Setup, h: seq<Event>, items: seq<Entry>) {
    forall e :: e in items ==> LastWrite(u, h, e.key) == Some(e)
  }

  /** What an operation leaves in the cache was there before, or is what it wrote. */
  lemma StepLeaves(c: Cache, op: Op, now: int, e: Entry)
    requires Valid(c) && e in Step(c, op, now).items
    ensures op.Set? && op.key == e.key && |op.value| <= c.max ==> e == NewEntry(c, op.key, op.value, op.tables, op.ttl, now)
    ensures !(op.Set? && op.key == e.key && |op.value| <= c.max) ==> e in c.items
    ensures op.Delete? ==> op.key != e.key
    ensures op.InvalidateTable? ==> op.table !in e.tables
    ensures !op.Clear?
  {
    match op
    case Get(key) =>
      FilterMembers(c.items, NotKey(key));
      LookupFinds(c.items, key);
    case Set(key, value, tables, ttl) =>
      FilterMembers(c.items, NotKey(key));
      assert |value| <= c.max ==> e == NewEntry(c, key, value, tables, ttl, now) || e in Others(c.items, key);
    case Delete(key) => FilterMembers(c.items, NotKey(key));
    case InvalidateTable(table) => FilterMembers(c.items, NotOf(table));
    case Clear =>
    case Cleanup => FilterMembers(c.items, Lasting(now));
  }

  lemma CoherentStep(u: Setup, h: seq<Event>, c: Cache, e: Entry)
    requires h != [] && Valid(c) && c.max == u.max && c.defaultTTL == u.defaultTTL
    requires Coherent(u, h[..|h| - 1], c.items) && e in Step(c, h[|h| - 1].op, h[|h| - 1].now).items
    ensures LastWrite(u, h, e.key) == Some(e)
  {
    hide Step, Valid, Coherent;
    var last, before := h[|h| - 1], h[..|h| - 1];
    StepLeaves(c, last.op, last.now, e);
    if last.op.Set? && last.op.key == e.key && |last.op.value| <= u.max {
    } else {
      CoherentAt(u, before, c.items, e);
    }
  }

  lemma CoherentAt(u: Setup, h: seq<Event>, items: seq<Entry>, e: Entry)
    requires Coherent(u, h, items) && e in items
    ensures LastWrite(u, h, e.key) == Some(e)
  {
  }

  lemma {:induction false} HistoryCoherent(u: Setup, h: seq<Event>)
    ensures Coherent(u, h, After(u, h).items)
  {
    if h != [] {
      hide Step, Valid, LastWrite, Coherent;
      var before := h[..|h| - 1];
      HistoryCoherent(u, before);
      HistoryKeepsValid(u, before);
      forall e | e in After(u, h).items ensures LastWrite(u, h, e.key) == Some(e) {
        CoherentStep(u, h, After(u, before), e);
      }
    }
  }

  /** Any hit returns the value of the last successful Set of the key, undone by nothing since, and not expired. */
  lemma HitIsLastWrite(u: Setup, h: seq<Event>, key: Key, now: int)
    requires Answer(After(u, h), key, now).Some?
    ensures var w := LastWrite(u, h, key);
            w.Some? && w.value.value == Answer(After(u, h), key, now).value && now <= w.value.expiresAt
  {
    HistoryCoherent(u, h);
    LookupFinds(After(u, h).items, key);
    hide After;
  }

  // ----- without evictions, a plain map -----

  ghost predicate Chronological(h: seq<Event>, now: int) {
    forall i :: 0 <= i < |h| ==> h[i].now <= now && forall j :: i < j < |h| ==> h[i].now <= h[j].now
  }

  /** Every write still standing and not expired at now is in the cache. */
  ghost predicate Complete(u: Setup, h: seq<Event>, items: seq<Entry>, now: int) {
    forall key :: LastWrite(u, h, key).Some? && !Expired(LastWrite(u, h, key).value, now) ==> LastWrite(u, h, key).value in items
  }

  /** Without evictions an operation drops only what is expired or undone. */
  lemma StepDrops(c: Cache, op: Op, now: int, e: Entry)
    requires Valid(c) && e in c.items && !Expired(e, now) && Step(c, op, now).evictions == c.evictions
    requires !(op.Set? && op.key == e.key && |op.value| <= c.max) && !(op.Delete? && op.key == e.key)
    requires !(op.InvalidateTable? && op.table in e.tables) && !op.Clear?
    ensures e in Step(c, op, now).items
  {
    match op
    case Get(key) =>
      FilterMembers(c.items, NotKey(key));
      LookupFinds(c.items, key);
      if e.key == key {
        SameEntry(c.items, e, Lookup(c.items, key).value);
      }
    case Set(key, value, tables, ttl) =>
      FilterMembers(c.items, NotKey(key));
    case Delete(key) => FilterMembers(c.items, NotKey(key));
    case InvalidateTable(table) => FilterMembers(c.items, NotOf(table));
    case Cleanup => FilterMembers(c.items, Lasting(now));
  }

  lemma EvictionsGrow(c: Cache, op: Op, now: int)
    ensures Step(c, op, now).evictions >= c.evictions
  {
  }

  lemma WrittenIsThere(c: Cache, op: Op, now: int)
    requires op.Set? && |op.value| <= c.max
    ensures NewEntry(c, op.key, op.value, op.tables, op.ttl, now) in Step(c, op, now).items
  {
  }

  lemma {:induction false} HistoryComplete(u: Setup, h: seq<Event>, now: int)
    requires Chronological(h, now) && After(u, h).evictions == 0
    ensures Complete(u, h, After(u, h).items, now)
  {
    if h != [] {
      hide Step, Valid;
      var before, last := h[..|h| - 1], h[|h| - 1];
      var c := After(u, before);
      EvictionsGrow(c, last.op, last.now);
      HistoryKeepsValid(u, before);
      assert last.now <= now;
      assert forall i :: 0 <= i < |before| ==> before[i] == h[i];
      HistoryComplete(u, before, now);
      forall key | LastWrite(u, h, key).Some? && !Expired(LastWrite(u, h, key).value, now)
        ensures LastWrite(u, h, key).value in After(u, h).items
      {
        var e := LastWrite(u, h, key).value;
        if last.op.Set? && last.op.key == key && |last.op.value| <= u.max {
          WrittenIsThere(c, last.op, last.now);
        } else {
          WriteKey(u, before, key);
          StepDrops(c, last.op, last.now, e);
        }
      }
    }
  }

  lemma {:induction false} WriteKey(u: Setup, h: seq<Event>, key: Key)
    ensures LastWrite(u, h, key).Some? ==> LastWrite(u, h, key).value.key == key
  {
    if h != [] {
      WriteKey(u, h[..|h| - 1], key);
    }
  }

  /** While nothing has been evicted, the cache answers exactly as the plain map does, up to each write's time plus its lifetime. */
  lemma PlainMapUntilEviction(u: Setup, h: seq<Event>, key: Key, now: int)
    requires Chronological(h, now) && After(u, h).evictions == 0
    ensures var w := LastWrite(u, h, key);
            Answer(After(u, h), key, now) == if w.Some? && now <= w.value.expiresAt then Some(w.value.value) else None
  {
    HistoryComplete(u, h, now);
    HistoryCoherent(u, h);
    WriteKey(u, h, key);
    LookupFinds(After(u, h).items, key);
    hide After, LastWrite;
  }

  // ----- recency -----

  /** The i-th operation used key: a Set that succeeded or a Get that hit. */
  predicate Touches(u: Setup, h: seq<Event>, i: nat, key: Key)
    requires i < |h|
  {
    Uses(After(u, h[..i]), h[i].op, h[i].now) && h[i].op.key == key
  }

  predicate Uses(c: Cache, op: Op, now: int) {
    (op.Set? && |op.value| <= c.max) || (op.Get? && Answer(c, op.key, now).Some?)
  }

  function LastTouch(u: Setup, h: seq<Event>, key: Key): (t: int)
    ensures -1 <= t < |h|
  {
    if h == [] then -1
    else if Touches(u, h, |h| - 1, key) then |h| - 1
    else LastTouch(u, h[..|h| - 1], key)
  }

  ghost function MoreRecent(u: Setup, h: seq<Event>): (Entry, Entry) -> bool {
    (a: Entry, b: Entry) => LastTouch(u, h, a.key) > LastTouch(u, h, b.key)
  }

  lemma PairwiseWeaker(items: seq<Entry>, r: (Entry, Entry) -> bool, r': (Entry, Entry) -> bool)
    requires Pairwise(items, r) && forall a, b :: a in items && b in items && r(a, b) ==> r'(a, b)
    ensures Pairwise(items, r')
  {
  }

  /** An operation on one key leaves it in front or removes it; the others keep their order, as a prefix of themselves. */
  lemma StepOrder(c: Cache, op: Op, now: int) returns (p: Entry -> bool, rest: seq<Entry>)
    ensures rest <= Filter(c.items, p)
    ensures if Uses(c, op, now) then
              |Step(c, op, now).items| > 0 && Step(c, op, now).items == [Step(c, op, now).items[0]] + rest
              && Step(c, op, now).items[0].key == op.key && forall e :: p(e) ==> e.key != op.key
            else Step(c, op, now).items == rest
  {
    match op
    case Get(key) =>
      LookupFinds(c.items, key);
      if Lookup(c.items, key).None? {
        p, rest := (e: Entry) => true, c.items;
        FilterAll(c.items, p);
      } else {
        p, rest := NotKey(key), Others(c.items, key);
      }
    case Set(key, value, tables, ttl) =>
      if |value| > c.max {
        p, rest := (e: Entry) => true, c.items;
        FilterAll(c.items, p);
      } else {
        p, rest := NotKey(key), Evict(Others(c.items, key), c.max - |value|);
      }
    case Delete(key) => p, rest := NotKey(key), Others(c.items, key);
    case InvalidateTable(table) => p, rest := NotOf(table), Step(c, op, now).items;
    case Clear => p, rest := (e: Entry) => true, [];
    case Cleanup => p, rest := Lasting(now), Step(c, op, now).items;
  }

  /** The eviction list is always in order of last use, most recent first, as the history defines last use. */
  lemma {:induction false} RecencyOrder(u: Setup, h: seq<Event>)
    ensures Pairwise(After(u, h).items, MoreRecent(u, h))
  {
    if h != [] {
      var before, last := h[..|h| - 1], h[|h| - 1];
      var c := After(u, before);
      RecencyOrder(u, before);
      HistoryKeepsValid(u, before);
      var p, rest := StepOrder(c, last.op, last.now);
      FilterPairwise(c.items, p, MoreRecent(u, before));
      FilterMembers(c.items, p);
      RecencyStep(u, h, p, rest);
    }
  }

  lemma RecencyStep(u: Setup, h: seq<Event>, p: Entry -> bool, rest: seq<Entry>)
    requires h != []
    requires var before, last := h[..|h| - 1], h[|h| - 1];
             var c, op, items := After(u, before), last.op, After(u, h).items;
             && Pairwise(Filter(c.items, p), MoreRecent(u, before))
             && rest <= Filter(c.items, p)
             && (forall e :: e in Filter(c.items, p) ==> p(e))
             && if Uses(c, op, last.now) then
                  |items| > 0 && items == [items[0]] + rest && items[0].key == op.key && forall e :: p(e) ==> e.key != op.key
                else items == rest
    ensures Pairwise(After(u, h).items, MoreRecent(u, h))
  {
    hide After, Uses;
    var before := h[..|h| - 1];
    var items := After(u, h).items;
    assert Pairwise(rest, MoreRecent(u, before));
    forall e | e in rest ensures LastTouch(u, h, e.key) == LastTouch(u, before, e.key) < |h| - 1 {
      assert p(e);
    }
    PairwiseWeaker(rest, MoreRecent(u, before), MoreRecent(u, h));
    if items != rest {
      forall x | x in rest ensures MoreRecent(u, h)(items[0], x) {
        assert Touches(u, h, |h| - 1, items[0].key);
      }
      PairwiseCons(items[0], rest, MoreRecent(u, h));
    }
  }

  lemma PrefixFirst(items: seq<Entry>, prefix: seq<Entry>, r: (Entry, Entry) -> bool, a: Entry, b: Entry)
    requires Pairwise(items, r) && prefix <= items && a in prefix && b in items && b !in prefix
    ensures r(a, b)
  {
    var i :| 0 <= i < |prefix| && prefix[i] == a;
    var j :| 0 <= j < |items| && items[j] == b;
    assert prefix == items[..|prefix|] && items[i] == a;
  }

  /** Whatever a Set evicts was used less recently than everything it keeps. */
  lemma EvictedAreLeastRecent(u: Setup, h: seq<Event>, put: Op, now: int, kept: Entry, gone: Entry)
    requires put.Set? && kept in Others(After(u, h).items, put.key) && gone in Others(After(u, h).items, put.key)
    requires var items := Step(After(u, h), put, now).items; kept in items && gone !in items
    ensures LastTouch(u, h, kept.key) > LastTouch(u, h, gone.key)
  {
    hide After, LastTouch, Filter, Pairwise, Evict;
    var c := After(u, h);
    var others := Others(c.items, put.key);
    RecencyOrder(u, h);
    FilterPairwise(c.items, NotKey(put.key), MoreRecent(u, h));
    FilterMembers(c.items, NotKey(put.key));
    if |put.value| <= c.max {
      var prefix := Evict(others, c.max - |put.value|);
      assert kept in prefix && gone !in prefix;
      PrefixFirst(others, prefix, MoreRecent(u, h), kept, gone);
    }
  }

  // ----- counters -----

  /** The number of Gets in a history that hit. */
  function Hits(u: Setup, h: seq<Event>): nat {
    if h == [] then 0
    else
      var n := |h| - 1;
      Hits(u, h[..n]) + (if h[n].op.Get? && Answer(After(u, h[..n]), h[n].op.key, h[n].now).Some? then 1 else 0)
  }

  function Gets(h: seq<Event>): nat {
    if h == [] then 0 else Gets(h[..|h| - 1]) + (if h[|h| - 1].op.Get? then 1 else 0)
  }

  /** hits counts the Gets that returned a value, misses the others. */
  lemma {:induction false} CountersMean(u: Setup, h: seq<Event>)
    ensures After(u, h).hits == Hits(u, h) && After(u, h).hits + After(u, h).misses == Gets(h)
  {
    if h != [] {
      CountersMean(u, h[..|h| - 1]);
    }
  }
}
