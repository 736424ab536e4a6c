/** The cache as the source keeps it: a map of entries beside a recency list and a running byte count. */
module CacheStore {
  import opened Bytes
  import opened LruCache

  /** Map and list hold the same keys, once each. */
  ghost predicate Linked(entries: map<Key, Entry>, order: seq<Key>) {
    && (forall k :: k in order <==> k in entries)
    && (forall k :: k in entries ==> entries[k].key == k)
    && (forall i, j :: 0 <= i < j < |order| ==> order[i] != order[j])
  }

  /** The entries in list order. */
  ghost function ItemsOf(entries: map<Key, Entry>, order: seq<Key>): (items: seq<Entry>)
    requires Linked(entries, order)
  {
    seq(|order|, i requires 0 <= i < |order| => entries[order[i]])
  }

  function IndexOf(order: seq<Key>, key: Key): (i: nat)
    requires key in order
    ensures i < |order| && order[i] == key
  {
    if order[0] == key then 0 else 1 + IndexOf(order[1..], key)
  }

  lemma LinkedAt(entries: map<Key, Entry>, order: seq<Key>, i: nat)
    requires Linked(entries, order) && i < |order|
    ensures order[i] in entries && entries[order[i]].key == order[i]
  {
  }

  lemma LinkedMeans(entries: map<Key, Entry>, order: seq<Key>)
    requires Linked(entries, order)
    ensures DistinctKeys(ItemsOf(entries, order))
    ensures forall e :: e in ItemsOf(entries, order) <==> e.key in entries && entries[e.key] == e
  {
    var items := ItemsOf(entries, order);
    forall e: Entry | e.key in entries && entries[e.key] == e ensures e in items {
      var i :| 0 <= i < |order| && order[i] == e.key;
      assert items[i] == e;
    }
  }

  lemma LookupIs(entries: map<Key, Entry>, order: seq<Key>, key: Key)
    requires Linked(entries, order)
    ensures Lookup(ItemsOf(entries, order), key) == if key in entries then Some(entries[key]) else None
  {
    LinkedMeans(entries, order);
    LookupFinds(ItemsOf(entries, order), key);
    hide ItemsOf;
    if key in entries {
      assert entries[key] in ItemsOf(entries, order);
    }
  }

  lemma StillLinked(entries: map<Key, Entry>, order: seq<Key>, i: nat)
    requires Linked(entries, order) && i < |order|
    ensures Linked(entries - {order[i]}, order[..i] + order[i + 1..])
  {
    assert order == order[..i] + [order[i]] + order[i + 1..];
  }

  /** Unlinking one key leaves the other entries in order. */
  lemma Unlinked(entries: map<Key, Entry>, order: seq<Key>, i: nat)
    requires Linked(entries, order) && i < |order|
    ensures var entries', order' := entries - {order[i]}, order[..i] + order[i + 1..];
            Linked(entries', order') && ItemsOf(entries', order') == Others(ItemsOf(entries, order), order[i])
  {
    var key := order[i];
    var entries', order' := entries - {key}, order[..i] + order[i + 1..];
    StillLinked(entries, order, i);
    var items := ItemsOf(entries, order);
    assert items == items[..i] + [items[i]] + items[i + 1..];
    assert ItemsOf(entries', order') == items[..i] + items[i + 1..];
    assert forall e :: e in items[..i] || e in items[i + 1..] ==> e.key != key;
    OthersSplit(items[..i], items[i], items[i + 1..], key);
  }

  lemma OthersSplit(a: seq<Entry>, e: Entry, b: seq<Entry>, key: Key)
    requires e.key == key && forall x :: x in a || x in b ==> x.key != key
    ensures Others(a + [e] + b, key) == a + b
  {
    hide Filter;
    var p := NotKey(key);
    FilterConcat(a + [e], b, p);
    FilterConcat(a, [e], p);
    FilterAll(a, p);
    FilterAll(b, p);
    FilterOne(e, p);
    assert Others(a + [e] + b, key) == a + [] + b;
  }

  lemma FilterOne(e: Entry, p: Entry -> bool)
    ensures Filter([e], p) == if p(e) then [e] else []
  {
  }

  lemma {:induction false} FilterConcat(a: seq<Entry>, b: seq<Entry>, p: Entry -> bool)
    ensures Filter(a + b, p) == Filter(a, p) + Filter(b, p)
  {
    if a == [] {
      assert a + b == b;
    } else {
      assert (a + b)[1..] == a[1..] + b;
      FilterConcat(a[1..], b, p);
    }
  }

  lemma LastDropped(entries: map<Key, Entry>, order: seq<Key>)
    requires Linked(entries, order) && order != []
    ensures var items := ItemsOf(entries, order);
            |items| == |order| && Others(items, order[|order| - 1]) == items[..|items| - 1]
  {
    var items, n := ItemsOf(entries, order), |order| - 1;
    assert items == items[..n] + [items[n]] + [];
    OthersSplit(items[..n], items[n], [], order[n]);
    assert items[..n] + [] == items[..n];
  }

  /** Putting a new key in front. */
  lemma Pushed(entries: map<Key, Entry>, order: seq<Key>, e: Entry)
    requires Linked(entries, order) && e.key !in entries
    ensures var entries', order' := entries[e.key := e], [e.key] + order;
            Linked(entries', order') && ItemsOf(entries', order') == [e] + ItemsOf(entries, order)
  {
    var entries', order' := entries[e.key := e], [e.key] + order;
    assert forall k :: k in order' <==> k == e.key || k in order;
    assert ItemsOf(entries', order') == [e] + ItemsOf(entries, order);
  }

  /** The filter that drops a set of keys. */
  function NotAmong(keys: set<Key>): Entry -> bool {
    (e: Entry) => e.key !in keys
  }

  lemma DropOneMore(items: seq<Entry>, keys: set<Key>, key: Key)
    ensures Others(Filter(items, NotAmong(keys)), key) == Filter(items, NotAmong(keys + {key}))
  {
    FilterTwice(items, NotAmong(keys), NotKey(key));
    FilterSame(items, (e: Entry) => NotAmong(keys)(e) && NotKey(key)(e), NotAmong(keys + {key}));
  }

  lemma SameFilter(entries: map<Key, Entry>, order: seq<Key>, keys: set<Key>, p: Entry -> bool)
    requires Linked(entries, order) && forall k :: k in entries ==> (k in keys <==> !p(entries[k]))
    ensures Filter(ItemsOf(entries, order), NotAmong(keys)) == Filter(ItemsOf(entries, order), p)
  {
    LinkedMeans(entries, order);
    FilterSame(ItemsOf(entries, order), NotAmong(keys), p);
  }

  /** Unlinking a key and linking it again in front. */
  lemma Moved(entries: map<Key, Entry>, order: seq<Key>, i: nat)
    requires Linked(entries, order) && i < |order| && order[i] in entries
    ensures var order', e := [order[i]] + (order[..i] + order[i + 1..]), entries[order[i]];
            && Linked(entries, order') && ItemsOf(entries, order') == [e] + Others(ItemsOf(entries, order), order[i])
            && Total(ItemsOf(entries, order')) == Total(ItemsOf(entries, order))
  {
    hide Linked, ItemsOf, Others;
    var items, key := ItemsOf(entries, order), order[i];
    LinkedAt(entries, order, i);
    Unlinked(entries, order, i);
    LinkedMeans(entries, order);
    LookupIs(entries, order, key);
    OthersTotal(items, key);
    Pushed(entries - {key}, order[..i] + order[i + 1..], entries[key]);
    TotalConcat([entries[key]], Others(items, key));
    assert Total([entries[key]]) == |entries[key].value|;
    assert (entries - {key})[key := entries[key]] == entries;
  }

  class Store {
    var entries: map<Key, Entry>
    var order: seq<Key>
    const maxMemory: int
    var currentMemory: int
    const defaultTTL: int
    var hits: nat
    var misses: nat
    var evictions: nat

    ghost predicate Ok()
      reads this
    {
      Linked(entries, order) && currentMemory == Total(ItemsOf(entries, order))
    }

    ghost function Value(): Cache
      requires Ok()
      reads this
    {
      Cache(ItemsOf(entries, order), maxMemory, defaultTTL, hits, misses, evictions)
    }

    constructor (maxMemory: int, defaultTTL: int)
      ensures Ok() && Value() == Empty(maxMemory, defaultTTL)
    {
      entries := map[];
      order := [];
      this.maxMemory := maxMemory;
      currentMemory := 0;
      this.defaultTTL := defaultTTL;
      hits, misses, evictions := 0, 0, 0;
    }

    method RemoveEntry(key: Key)
      requires Ok() && key in entries
      modifies this`entries, this`order, this`currentMemory
      ensures Ok() && Value() == old(Value()).(items := Others(old(Value()).items, key))
      ensures entries == old(entries) - {key}
    {
      var i := IndexOf(order, key);
      Unlinked(entries, order, i);
      LinkedMeans(entries, order);
      LookupIs(entries, order, key);
      OthersTotal(ItemsOf(entries, order), key);
      hide Linked, ItemsOf, Others;
      var size := |entries[key].value|;
      order := order[..i] + order[i + 1..];
      entries := entries - {key};
      currentMemory := currentMemory - size;
    }

    method EvictOldest()
      requires Ok() && order != []
      modifies this`entries, this`order, this`currentMemory, this`evictions
      ensures Ok()
      ensures var c := old(Value()); Value() == c.(items := c.items[..|c.items| - 1], evictions := c.evictions + 1)
      ensures |order| < old(|order|) && (forall k :: k in entries ==> k in old(entries))
    {
      var key := order[|order| - 1];
      LastDropped(entries, order);
      ghost var was := |order|;
      hide Others, Total;
      RemoveEntry(key);
      evictions := evictions + 1;
    }

    method Get(key: Key, now: int) returns (r: Option<seq<Byte>>)
      requires Ok()
      modifies this
      ensures Ok() && Value() == Step(old(Value()), Op.Get(key), now) && r == Answer(old(Value()), key, now)
    {
      LookupIs(entries, order, key);
      if key !in entries {
        misses := misses + 1;
        return None;
      }
      var entry := entries[key];
      if now > entry.expiresAt {
        RemoveEntry(key);
        misses := misses + 1;
        return None;
      }
      ToFront(key);
      hits := hits + 1;
      return Some(entry.value);
    }

    method ToFront(key: Key)
      requires Ok() && key in entries
      modifies this`order
      ensures Ok() && Value() == old(Value()).(items := [entries[key]] + Others(old(Value()).items, key))
    {
      var i := IndexOf(order, key);
      Moved(entries, order, i);
      hide Linked, ItemsOf, Others;
      order := [key] + (order[..i] + order[i + 1..]);
    }

    /** ok is false when the value is larger than the whole cache. */
    method Set(key: Key, value: seq<Byte>, tables: seq<string>, ttl: int, now: int) returns (ok: bool)
      requires Ok()
      modifies this
      ensures Ok() && Value() == Step(old(Value()), Op.Set(key, value, tables, ttl), now) && ok == (|value| <= maxMemory)
    {
      var life := if ttl == 0 then defaultTTL else ttl;
      var size := |value|;
      if size > maxMemory {
        return false;
      }
      Replace(Entry(key, value, now + life, tables));
      ok := true;
    }

    method Replace(entry: Entry)
      requires Ok() && |entry.value| <= maxMemory
      modifies this`entries, this`order, this`currentMemory, this`evictions
      ensures Ok() && Value() == Insert(old(Value()), entry)
    {
      hide Ok, Others, Evict;
      ForgetOld(entry.key);
      MakeRoom(|entry.value|);
      PushFront(entry);
    }

    method ForgetOld(key: Key)
      requires Ok()
      modifies this`entries, this`order, this`currentMemory
      ensures Ok() && Value() == old(Value()).(items := Others(old(Value()).items, key)) && key !in entries
    {
      if key in entries {
        RemoveEntry(key);
      } else {
        LinkedMeans(entries, order);
        FilterAll(ItemsOf(entries, order), NotKey(key));
      }
    }

    method MakeRoom(size: nat)
      requires Ok()
      modifies this`entries, this`order, this`currentMemory, this`evictions
      ensures Ok() && forall k :: k in entries ==> k in old(entries)
      ensures var c := old(Value()); var kept := Evict(c.items, maxMemory - size);
              Value() == c.(items := kept, evictions := c.evictions + |c.items| - |kept|)
    {
      ghost var c := Value();
      while currentMemory + size > maxMemory && |order| > 0
        invariant Ok() && forall k :: k in entries ==> k in old(entries)
        invariant hits == c.hits && misses == c.misses && |Value().items| <= |c.items|
        invariant evictions == c.evictions + |c.items| - |Value().items|
        invariant Evict(Value().items, maxMemory - size) == Evict(c.items, maxMemory - size)
        decreases |order|
      {
        EvictOldest();
      }
    }

    method PushFront(entry: Entry)
      requires Ok() && entry.key !in entries
      modifies this`entries, this`order, this`currentMemory
      ensures Ok() && Value() == old(Value()).(items := [entry] + old(Value()).items)
    {
      Pushed(entries, order, entry);
      TotalConcat([entry], ItemsOf(entries, order));
      assert Total([entry]) == |entry.value|;
      hide Linked, ItemsOf;
      entries := entries[entry.key := entry];
      order := [entry.key] + order;
      currentMemory := currentMemory + |entry.value|;
    }

    method Delete(key: Key, now: int)
      requires Ok()
      modifies this
      ensures Ok() && Value() == Step(old(Value()), Op.Delete(key), now)
    {
      ForgetOld(key);
    }

    /** Removes the collected entries one by one. */
    method RemoveAll(toRemove: seq<Key>)
      requires Ok() && (forall k :: k in toRemove ==> k in entries)
      requires forall i, j :: 0 <= i < j < |toRemove| ==> toRemove[i] != toRemove[j]
      modifies this`entries, this`order, this`currentMemory
      ensures Ok() && Value() == old(Value()).(items := Filter(old(Value()).items, NotAmong(set k | k in toRemove)))
    {
      hide Linked, ItemsOf, Total, Filter;
      ghost var c := Value();
      ghost var done: set<Key> := {};
      FilterAll(c.items, NotAmong({}));
      for i := 0 to |toRemove|
        invariant Ok() && done == (set k | k in toRemove[..i])
        invariant Value() == c.(items := Filter(c.items, NotAmong(done)))
        invariant forall j :: i <= j < |toRemove| ==> toRemove[j] in entries
      {
        DropOneMore(c.items, done, toRemove[i]);
        assert toRemove[..i + 1] == toRemove[..i] + [toRemove[i]];
        done := done + {toRemove[i]};
        RemoveEntry(toRemove[i]);
      }
      assert toRemove[..|toRemove|] == toRemove;
    }

    /** The keys of the entries that name the table, in whatever order the map is walked. */
    method Naming(table: string) returns (found: seq<Key>)
      requires Ok()
      ensures forall k :: k in found <==> k in entries && table in entries[k].tables
      ensures forall i, j :: 0 <= i < j < |found| ==> found[i] != found[j]
    {
      found := [];
      var left := entries.Keys;
      while left != {}
        invariant left <= entries.Keys
        invariant forall k :: k in found <==> k in entries.Keys - left && table in entries[k].tables
        invariant forall i, j :: 0 <= i < j < |found| ==> found[i] != found[j]
        decreases left
      {
        var k :| k in left;
        left := left - {k};
        if table in entries[k].tables {
          found := found + [k];
        }
      }
    }

    method InvalidateTable(table: string, now: int)
      requires Ok()
      modifies this
      ensures Ok() && Value() == Step(old(Value()), Op.InvalidateTable(table), now)
    {
      var toRemove := Naming(table);
      SameFilter(entries, order, (set k | k in toRemove), NotOf(table));
      hide Linked, ItemsOf, Total, Filter, NotAmong, NotOf;
      RemoveAll(toRemove);
    }

    method InvalidateTables(tables: seq<string>, now: int)
      requires Ok()
      modifies this
      ensures Ok() && Value() == old(Value()).(items := Filter(old(Value()).items, NotOfAny(tables)))
    {
      ghost var c := Value();
      FilterAll(c.items, NotOfAny([]));
      for i := 0 to |tables|
        invariant Ok() && Value() == c.(items := Filter(c.items, NotOfAny(tables[..i])))
      {
        FilterTwice(c.items, NotOfAny(tables[..i]), NotOf(tables[i]));
        assert tables[..i + 1] == tables[..i] + [tables[i]];
        FilterSame(c.items, (e: Entry) => NotOfAny(tables[..i])(e) && NotOf(tables[i])(e), NotOfAny(tables[..i + 1]));
        InvalidateTable(tables[i], now);
      }
      assert tables[..|tables|] == tables;
    }

    method Clear(now: int)
      requires Ok()
      modifies this
      ensures Ok() && Value() == Step(old(Value()), Op.Clear, now)
    {
      entries := map[];
      order := [];
      currentMemory := 0;
    }

    method Outdated(now: int) returns (found: seq<Key>)
      requires Ok()
      ensures forall k :: k in found <==> k in entries && now > entries[k].expiresAt
      ensures forall i, j :: 0 <= i < j < |found| ==> found[i] != found[j]
    {
      found := [];
      var left := entries.Keys;
      while left != {}
        invariant left <= entries.Keys
        invariant forall k :: k in found <==> k in entries.Keys - left && now > entries[k].expiresAt
        invariant forall i, j :: 0 <= i < j < |found| ==> found[i] != found[j]
        decreases left
      {
        var k :| k in left;
        left := left - {k};
        if now > entries[k].expiresAt {
          found := found + [k];
        }
      }
    }

    method CleanupExpired(now: int)
      requires Ok()
      modifies this
      ensures Ok() && Value() == Step(old(Value()), Op.Cleanup, now)
    {
      var toRemove := Outdated(now);
      SameFilter(entries, order, (set k | k in toRemove), Lasting(now));
      hide Linked, ItemsOf, Total, Filter, NotAmong, Lasting;
      RemoveAll(toRemove);
    }
  }

  function NotOfAny(tables: seq<string>): Entry -> bool {
    (e: Entry) => forall t :: t in tables ==> t !in e.tables
  }
}
