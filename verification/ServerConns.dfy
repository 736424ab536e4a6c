/**
 * The table of server connections of internal/pool/pool.go: a slice of idle connections with an
 * inverse index, and the map of active ones.  Connections are values; closing one is recorded.
 */
module ServerConns {
  import opened Bytes

  datatype Conn = Conn(id: nat, backend: Option<string>)

  predicate OfBackend(c: Conn, address: string) {
    c.backend == Some(address)
  }

  function Matching(s: seq<Conn>, address: string): seq<Conn> {
    if s == [] then []
    else
      var c := s[|s| - 1];
      Matching(s[..|s| - 1], address) + (if OfBackend(c, address) then [c] else [])
  }

  function Others(s: seq<Conn>, address: string): seq<Conn> {
    if s == [] then []
    else
      var c := s[|s| - 1];
      Others(s[..|s| - 1], address) + (if OfBackend(c, address) then [] else [c])
  }

  /** The index after the filter: survivors by their new position, the others gone. */
  function IndexAfter(index: map<nat, nat>, s: seq<Conn>, address: string): map<nat, nat> {
    if s == [] then index
    else
      var c, rest := s[|s| - 1], s[..|s| - 1];
      if OfBackend(c, address) then IndexAfter(index, rest, address) - {c.id}
      else IndexAfter(index, rest, address)[c.id := |Others(rest, address)|]
  }

  lemma FilterStep(s: seq<Conn>, i: nat, index: map<nat, nat>, address: string)
    requires i < |s|
    ensures var c, drop := s[i], OfBackend(s[i], address);
            && Matching(s[..i + 1], address) == Matching(s[..i], address) + (if drop then [c] else [])
            && Others(s[..i + 1], address) == Others(s[..i], address) + (if drop then [] else [c])
            && IndexAfter(index, s[..i + 1], address)
               == if drop then IndexAfter(index, s[..i], address) - {c.id}
                  else IndexAfter(index, s[..i], address)[c.id := |Others(s[..i], address)|]
  {
    assert s[..i + 1][..i] == s[..i];
  }

  lemma NothingMatches(s: seq<Conn>, index: map<nat, nat>, address: string)
    ensures Matching(s[..0], address) == [] && Others(s[..0], address) == [] && IndexAfter(index, s[..0], address) == index
  {
  }

  /** The two parts together are the whole, and each part holds what its name says. */
  lemma {:induction false} BackendPartition(s: seq<Conn>, address: string)
    ensures multiset(Matching(s, address)) + multiset(Others(s, address)) == multiset(s)
    ensures forall c :: c in Matching(s, address) <==> c in s && OfBackend(c, address)
    ensures forall c :: c in Others(s, address) <==> c in s && !OfBackend(c, address)
  {
    if s != [] {
      BackendPartition(s[..|s| - 1], address);
      assert s == s[..|s| - 1] + [s[|s| - 1]];
    }
  }

  /** Both parts keep the order. */
  lemma {:induction false} PartsInOrder(s: seq<Conn>, t: seq<Conn>, address: string)
    ensures Matching(s + t, address) == Matching(s, address) + Matching(t, address)
    ensures Others(s + t, address) == Others(s, address) + Others(t, address)
  {
    if t == [] {
      assert s + t == s;
    } else {
      assert (s + t)[..|s + t| - 1] == s + t[..|t| - 1];
      PartsInOrder(s, t[..|t| - 1], address);
    }
  }

  /** Swap with the last element and pop. */
  function SwapRemove(s: seq<Conn>, i: nat): seq<Conn>
    requires i < |s|
  {
    s[i := s[|s| - 1]][..|s| - 1]
  }

  lemma SwapRemoveDropsOne(s: seq<Conn>, i: nat)
    requires i < |s|
    ensures multiset(SwapRemove(s, i)) == multiset(s) - multiset{s[i]}
  {
    var last := s[|s| - 1];
    var t := s[i := last];
    assert multiset(t) == multiset(s) - multiset{s[i]} + multiset{last};
    assert t == t[..|s| - 1] + [last];
    assert multiset(t[..|s| - 1]) == multiset(t) - multiset{last};
  }

  ghost predicate DistinctIds(s: seq<Conn>) {
    forall i, j :: 0 <= i < j < |s| ==> s[i].id != s[j].id
  }

  /** index maps the id of every connection in s to its position, and nothing else. */
  ghost predicate IsInverse(s: seq<Conn>, index: map<nat, nat>) {
    && (forall i :: 0 <= i < |s| ==> s[i].id in index && index[s[i].id] == i)
    && (forall k :: k in index ==> index[k] < |s| && s[index[k]].id == k)
  }

  lemma InverseMeansDistinct(s: seq<Conn>, index: map<nat, nat>)
    requires IsInverse(s, index)
    ensures DistinctIds(s)
  {
    forall i, j | 0 <= i < j < |s| ensures s[i].id != s[j].id {
      assert index[s[i].id] == i && index[s[j].id] == j;
    }
  }

  class ServerConnPool {
    const maxSize: nat
    const store: array<Conn>  // the backing array of the idle slice; its capacity is never exceeded
    var count: nat            // the length of the idle slice
    var idleIndex: map<nat, nat>
    var active: map<nat, Conn>
    var closed: seq<Conn>

    ghost predicate Bounded()
      reads this
    {
      store.Length == maxSize && count <= maxSize
    }

    ghost function Idle(): (s: seq<Conn>)
      reads this, store
      requires Bounded()
      ensures |s| == count
    {
      store[..count]
    }

    /** idleIndex is the exact inverse of the idle slice and no idle connection is active. */
    ghost predicate Valid()
      reads this, store
    {
      && Bounded()
      && IsInverse(Idle(), idleIndex)
      && (forall k :: k in active ==> active[k].id == k && k !in idleIndex)
    }

    constructor (maxSize: nat)
      ensures Valid() && fresh(store) && this.maxSize == maxSize
      ensures Idle() == [] && active == map[] && closed == []
    {
      this.maxSize := maxSize;
      store := new Conn[maxSize](_ => Conn(0, None));
      count, idleIndex, active, closed := 0, map[], map[], [];
    }

    /** acquire: the most recently returned idle connection becomes active. */
    method Acquire() returns (conn: Option<Conn>)
      requires Valid()
      modifies `count, `idleIndex, `active
      ensures Valid()
      ensures conn.None? <==> old(Idle()) == []
      ensures conn.None? ==> Idle() == old(Idle()) && active == old(active)
      ensures conn.Some? ==> old(Idle()) == Idle() + [conn.value] && active == old(active)[conn.value.id := conn.value]
    {
      if count == 0 {
        return None;
      }
      var c := store[count - 1];
      ghost var before := Idle();
      assert before[count - 1] == c;
      count := count - 1;
      idleIndex := idleIndex - {c.id};
      active := active[c.id := c];
      assert before == Idle() + [c];
      conn := Some(c);
    }

    /**
     * release: no longer active; back to the idle slice if there is room and the reset succeeds,
     * closed otherwise.  The table stays consistent exactly when the connection did not already
     * sit in the idle slice it is appended to.
     */
    method Release(conn: Conn, resetOk: bool)
      requires Valid()
      modifies this, store
      ensures Bounded() && active == old(active) - {conn.id}
      ensures var room := |old(Idle())| < maxSize;
              && Idle() == (if room && resetOk then old(Idle()) + [conn] else old(Idle()))
              && closed == (if room && resetOk then old(closed) else old(closed) + [conn])
      ensures Valid() <==> conn.id !in old(idleIndex) || |old(Idle())| == maxSize || !resetOk
    {
      ghost var before := Idle();
      active := active - {conn.id};
      if count < maxSize {
        if !resetOk {
          closed := closed + [conn];
          return;
        }
        idleIndex := idleIndex[conn.id := count];
        store[count] := conn;
        count := count + 1;
        assert Idle() == before + [conn];
        if conn.id in old(idleIndex) {
          assert before[old(idleIndex)[conn.id]].id == conn.id;
          assert Idle()[old(idleIndex)[conn.id]].id == conn.id;
        }
      } else {
        closed := closed + [conn];
      }
    }

    /** addActive keeps the table consistent exactly when the connection is not idle. */
    method AddActive(conn: Conn)
      requires Valid()
      modifies `active
      ensures active == old(active)[conn.id := conn] && Idle() == old(Idle())
      ensures Valid() <==> conn.id !in idleIndex
    {
      active := active[conn.id := conn];
    }

    /** remove: the connection leaves both tables; of the idle slice exactly its own entry goes. */
    method Remove(conn: Conn)
      requires Valid()
      modifies `count, `idleIndex, `active, store
      ensures Valid() && active == old(active) - {conn.id}
      ensures conn.id !in old(idleIndex) ==> Idle() == old(Idle())
      ensures conn.id in old(idleIndex) ==> Idle() == SwapRemove(old(Idle()), old(idleIndex)[conn.id])
    {
      ghost var before := Idle();
      active := active - {conn.id};
      if conn.id in idleIndex {
        var idx := idleIndex[conn.id];
        idleIndex := idleIndex - {conn.id};
        var last := count - 1;
        assert before[idx].id == conn.id && before[last] == store[last];
        if idx != last {
          store[idx] := store[last];
          idleIndex := idleIndex[store[idx].id := idx];
        }
        count := last;
        assert Idle() == SwapRemove(before, idx);
        SwapRemoveInverse(before, old(idleIndex), idx, idleIndex);
      }
    }

    /** closeBackend: filter the idle slice in place; the survivors keep their order. */
    method CloseBackend(address: string) returns (activeCount: nat)
      requires Valid()
      modifies `count, `idleIndex, `closed, store
      ensures Valid() && active == old(active)
      ensures Idle() == Others(old(Idle()), address)
      ensures closed == old(closed) + Matching(old(Idle()), address)
      ensures activeCount == |OnBackend(active, active.Keys, address)|
    {
      activeCount := CountActive(address);
      FilterKeepsInverse(Idle(), idleIndex, address);
      var kept := FilterIdle(address);
      count := kept;
      assert Idle() == store[..kept];
    }

    /** The loop of closeBackend: write the survivors to the front of the array they are read from. */
    method FilterIdle(address: string) returns (kept: nat)
      requires Bounded()
      modifies `idleIndex, `closed, store
      ensures kept <= count && store[..kept] == Others(old(Idle()), address)
      ensures closed == old(closed) + Matching(old(Idle()), address)
      ensures idleIndex == IndexAfter(old(idleIndex), old(Idle()), address)
    {
      hide Matching, Others, IndexAfter, OfBackend;
      ghost var before := Idle();
      NothingMatches(before, old(idleIndex), address);
      kept := 0;
      var i := 0;
      while i < count
        invariant kept <= i <= count <= store.Length && count == |before|
        invariant store[..kept] == Others(before[..i], address)
        invariant forall j :: i <= j < count ==> store[j] == before[j]
        invariant closed == old(closed) + Matching(before[..i], address)
        invariant idleIndex == IndexAfter(old(idleIndex), before[..i], address)
      {
        var conn := store[i];
        FilterStep(before, i, old(idleIndex), address);
        if OfBackend(conn, address) {
          closed := closed + [conn];
          idleIndex := idleIndex - {conn.id};
        } else {
          idleIndex := idleIndex[conn.id := kept];
          ghost var front := store[..kept];
          store[kept] := conn;
          kept := kept + 1;
          assert store[..kept] == front + [conn];
        }
        i := i + 1;
      }
      assert before[..i] == before;
    }

    method CountActive(address: string) returns (n: nat)
      ensures n == |OnBackend(active, active.Keys, address)|
    {
      n := 0;
      var left := active.Keys;
      assert OnBackend(active, active.Keys - left, address) == {};
      while left != {}
        invariant left <= active.Keys
        invariant n == |OnBackend(active, active.Keys - left, address)|
      {
        var k :| k in left;
        CountOne(active, active.Keys - left, k, address);
        assert active.Keys - left + {k} == active.Keys - (left - {k});
        if OfBackend(active[k], address) {
          n := n + 1;
        }
        left := left - {k};
      }
      assert active.Keys - left == active.Keys;
    }
  }

  ghost function OnBackend(active: map<nat, Conn>, keys: set<nat>, address: string): set<nat> {
    set k | k in keys && k in active && OfBackend(active[k], address)
  }

  lemma CountOne(active: map<nat, Conn>, keys: set<nat>, k: nat, address: string)
    requires k in active && k !in keys
    ensures |OnBackend(active, keys + {k}, address)|
         == |OnBackend(active, keys, address)| + (if OfBackend(active[k], address) then 1 else 0)
  {
    var before := OnBackend(active, keys, address);
    assert OnBackend(active, keys + {k}, address) == if OfBackend(active[k], address) then before + {k} else before;
  }

  lemma SwapRemoveInverse(s: seq<Conn>, index: map<nat, nat>, i: nat, index': map<nat, nat>)
    requires IsInverse(s, index) && i < |s|
    requires index' == if i == |s| - 1 then index - {s[i].id} else (index - {s[i].id})[s[|s| - 1].id := i]
    ensures IsInverse(SwapRemove(s, i), index') && index'.Keys == index.Keys - {s[i].id}
  {
    InverseMeansDistinct(s, index);
  }

  ghost function Ids(s: seq<Conn>): set<nat> {
    set i | 0 <= i < |s| :: s[i].id
  }

  lemma IdsSnoc(s: seq<Conn>, c: Conn)
    ensures Ids(s + [c]) == Ids(s) + {c.id}
  {
    forall k | k in Ids(s) ensures k in Ids(s + [c]) {
      var i :| 0 <= i < |s| && s[i].id == k;
      assert (s + [c])[i].id == k;
    }
    assert (s + [c])[|s|].id == c.id;
  }

  lemma IdsFrom(s: seq<Conn>, i: nat)
    requires i < |s| && DistinctIds(s)
    ensures Ids(s[i..]) == {s[i].id} + Ids(s[i + 1..]) && s[i].id !in Ids(s[i + 1..])
  {
    var t, u := s[i..], s[i + 1..];
    forall k | k in Ids(t) ensures k in {s[i].id} + Ids(u) {
      var j :| 0 <= j < |t| && t[j].id == k;
      assert j > 0 ==> u[j - 1].id == k;
    }
    forall k | k in Ids(u) ensures k in Ids(t) && k != s[i].id {
      var j :| 0 <= j < |u| && u[j].id == k;
      assert t[j + 1].id == k && s[i + 1 + j].id == k;
    }
    assert t[0].id == s[i].id;
  }

  /** The index part-way through the filter: the kept ones by new position, the rest still present. */
  ghost predicate FilterIndex(kept: seq<Conn>, rest: seq<Conn>, index: map<nat, nat>) {
    && (forall j :: 0 <= j < |kept| ==> kept[j].id in index && index[kept[j].id] == j)
    && index.Keys == Ids(kept) + Ids(rest)
    && Ids(kept) !! Ids(rest)
  }

  lemma FilterIndexStart(s: seq<Conn>, index: map<nat, nat>)
    requires IsInverse(s, index)
    ensures FilterIndex([], s, index)
  {
    forall k | k in index ensures k in Ids(s) {
      assert s[index[k]].id == k;
    }
  }

  lemma FilterIndexEnd(kept: seq<Conn>, index: map<nat, nat>)
    requires FilterIndex(kept, [], index)
    ensures IsInverse(kept, index)
  {
    forall k | k in index ensures index[k] < |kept| && kept[index[k]].id == k {
      assert k in Ids(kept);
      var i :| 0 <= i < |kept| && kept[i].id == k;
    }
  }

  lemma FilterIndexDrop(kept: seq<Conn>, before: seq<Conn>, i: nat, index: map<nat, nat>)
    requires i < |before| && DistinctIds(before) && FilterIndex(kept, before[i..], index)
    ensures FilterIndex(kept, before[i + 1..], index - {before[i].id})
  {
    IdsFrom(before, i);
    forall j | 0 <= j < |kept| ensures kept[j].id != before[i].id {
      assert kept[j].id in Ids(kept);
    }
  }

  lemma FilterIndexKeep(kept: seq<Conn>, before: seq<Conn>, i: nat, index: map<nat, nat>)
    requires i < |before| && DistinctIds(before) && FilterIndex(kept, before[i..], index)
    ensures FilterIndex(kept + [before[i]], before[i + 1..], index[before[i].id := |kept|])
  {
    IdsFrom(before, i);
    IdsSnoc(kept, before[i]);
    forall j | 0 <= j < |kept| ensures kept[j].id != before[i].id {
      assert kept[j].id in Ids(kept);
    }
  }

  lemma {:induction false} FilterPartWay(s: seq<Conn>, index: map<nat, nat>, address: string, i: nat)
    requires IsInverse(s, index) && DistinctIds(s) && i <= |s|
    ensures FilterIndex(Others(s[..i], address), s[i..], IndexAfter(index, s[..i], address))
  {
    hide FilterIndex, Others, IndexAfter, IsInverse, DistinctIds, OfBackend;
    if i == 0 {
      FilterIndexStart(s, index);
      NothingMatches(s, index, address);
      assert s[0..] == s;
    } else {
      FilterPartWay(s, index, address, i - 1);
      FilterStep(s, i - 1, index, address);
      var kept, part := Others(s[..i - 1], address), IndexAfter(index, s[..i - 1], address);
      if OfBackend(s[i - 1], address) {
        assert kept + [] == kept;
        FilterIndexDrop(kept, s, i - 1, part);
      } else {
        FilterIndexKeep(kept, s, i - 1, part);
      }
    }
  }

  /** The filtered index is again the exact inverse, and mentions no new connection. */
  lemma FilterKeepsInverse(s: seq<Conn>, index: map<nat, nat>, address: string)
    requires IsInverse(s, index)
    ensures IsInverse(Others(s, address), IndexAfter(index, s, address))
    ensures IndexAfter(index, s, address).Keys <= index.Keys
  {
    InverseMeansDistinct(s, index);
    FilterPartWay(s, index, address, |s|);
    assert s[..|s|] == s && s[|s|..] == [];
    var kept, index' := Others(s, address), IndexAfter(index, s, address);
    FilterIndexEnd(kept, index');
    BackendPartition(s, address);
    forall k | k in index' ensures k in index {
      assert kept[index'[k]] in s;
    }
  }
}
