/** The prepared-statement cache object, its maps updated in place and scanned for eviction and cleanup. */
module PreparedCache {
  import opened Bytes
  import opened PreparedStatements

  const DEFAULT_SIZE: nat := 1000
  const DEFAULT_TTL: int := 30 * 60 * 1_000_000_000

  lemma EvictMore(x: Index, done: set<Hash>, h: Hash)
    requires h in x.statements && h !in done
    ensures h in EvictAll(x, done).statements && EvictAll(x, done).statements[h] == x.statements[h]
    ensures Evict(EvictAll(x, done), h) == EvictAll(x, done + {h})
  {
    assert IdsOf(x, done + {h}) == IdsOf(x, done) + {x.statements[h].id};
    assert x.byId - IdsOf(x, done) - {x.statements[h].id} == x.byId - IdsOf(x, done + {h});
    assert x.statements - done - {h} == x.statements - (done + {h});
  }

  lemma EvictNone(x: Index)
    ensures EvictAll(x, {}) == x
  {
    assert IdsOf(x, {}) == {};
    assert x.byId - {} == x.byId && x.statements - {} == x.statements;
  }

  lemma EvictAllLeaves(x: Index, hashes: set<Hash>)
    ensures forall h :: h in EvictAll(x, hashes).statements ==> h in x.statements
    ensures |EvictAll(x, hashes).statements| <= |x.statements|
  {
    Fewer(x.statements, hashes);
  }

  class Cache {
    const hash: string -> Hash
    var statements: map<Hash, Statement>
    var byId: map<Id, Hash>
    const maxSize: nat
    const ttl: int
    var hitCount: nat
    var missCount: nat
    var addCount: nat
    var evictCount: nat

    ghost function Value(): Index
      reads this
    {
      Index(statements, byId, hitCount, missCount, addCount, evictCount)
    }

    /** A hash is never the empty string, which the eviction scan uses for "none". */
    ghost predicate Ok()
      reads this
    {
      && maxSize >= 1
      && (forall q :: hash(q) != "")
      && (forall h :: h in statements ==> h != "")
      && Indexed(Value()) && |statements| <= maxSize
    }

    constructor (hash: string -> Hash, size: int, ttl: int)
      requires forall q :: hash(q) != ""
      ensures Ok() && Value() == NOTHING && this.hash == hash
      ensures maxSize == (if size <= 0 then 1000 else size)
      ensures this.ttl == (if ttl <= 0 then 1_800_000_000_000 else ttl)  // 30 minutes
    {
      this.hash := hash;
      statements := map[];
      byId := map[];
      maxSize := if size <= 0 then DEFAULT_SIZE else size;
      this.ttl := if ttl <= 0 then DEFAULT_TTL else ttl;
      hitCount, missCount, addCount, evictCount := 0, 0, 0, 0;
    }

    method Get(query: string, now: int) returns (r: Option<Statement>)
      requires Ok()
      modifies this`statements, this`hitCount, this`missCount
      ensures Ok() && Value() == AfterGet(old(Value()), hash(query), now)
      ensures r == if hash(query) in statements then Some(statements[hash(query)]) else None
    {
      var h := hash(query);
      if h in statements {
        TouchIndexed(Value(), h, now, AfterGet(Value(), h, now));
        hide Indexed;
        statements := statements[h := Touch(statements[h], now)];
        hitCount := hitCount + 1;
        return Some(statements[h]);
      }
      missCount := missCount + 1;
      return None;
    }

    method GetById(id: Id, now: int) returns (r: Option<Statement>)
      requires Ok()
      modifies this`statements
      ensures Ok() && Value() == AfterGetById(old(Value()), id, now)
      ensures var found := Find(old(Value()), id);
              if found.None? then r == None else found.value in statements && r == Some(statements[found.value])
      ensures r.Some? ==> r.value.id == id
    {
      if id !in byId {
        return None;
      }
      var h := byId[id];
      if h in statements {
        TouchIndexed(Value(), h, now, AfterGetById(Value(), id, now));
        statements := statements[h := Touch(statements[h], now)];
        return Some(statements[h]);
      }
      return None;
    }

    method EvictOldest() returns (ghost victim: Hash)
      requires Ok() && statements != map[]
      modifies this`statements, this`byId, this`evictCount
      ensures Oldest(old(Value()), victim) && Value() == Evict(old(Value()), victim) && Ok()
      ensures |statements| < old(|statements|) && forall h :: h in statements ==> h in old(statements)
    {
      var oldestHash, oldestTime, first := "", 0, true;
      var left := statements.Keys;
      while left != {}
        invariant left <= statements.Keys
        invariant first <==> left == statements.Keys
        invariant !first ==> oldestHash in statements && oldestTime == statements[oldestHash].lastUsed
        invariant !first ==> forall k :: k in statements && k !in left ==> oldestTime <= statements[k].lastUsed
        decreases left
      {
        var h :| h in left;
        left := left - {h};
        var lastUsed := statements[h].lastUsed;
        if first || lastUsed < oldestTime {
          oldestHash, oldestTime, first := h, lastUsed, false;
        }
      }
      victim := oldestHash;
      assert statements.Keys != {};
      if oldestHash != "" {
        EvictIndexed(Value(), oldestHash);
        EvictOne(Value(), oldestHash);
        hide Indexed;
        byId := byId - {statements[oldestHash].id};
        statements := statements - {oldestHash};
        evictCount := evictCount + 1;
      }
    }

    method Rename(id: Id, h: Hash, now: int) returns (r: Statement)
      requires Ok() && h in statements
      modifies this`statements, this`byId
      ensures Ok() && Value() == Renamed(old(Value()), id, h, now)
      ensures h in statements && r == statements[h] && r.id == id && Find(Value(), id) == Some(h)
    {
      RenamedIndexed(Value(), id, h, now);
      hide Indexed;
      r := Touch(statements[h].(id := id), now);
      byId := (byId - {statements[h].id})[id := h];
      statements := statements[h := r];
    }

    method Insert(s: Statement)
      requires Ok() && s.hash !in statements && s.hash != "" && |statements| < maxSize
      modifies this`statements, this`byId, this`addCount
      ensures Ok() && Value() == Inserted(old(Value()), s)
      ensures s.hash in statements && statements[s.hash] == s && Find(Value(), s.id) == Some(s.hash)
    {
      InsertedIndexed(Value(), s);
      hide Indexed;
      statements := statements[s.hash := s];
      byId := byId[s.id := s.hash];
      addCount := addCount + 1;
    }

    method Add(id: Id, query: string, paramTypes: seq<int>, now: int) returns (r: Statement)
      requires Ok()
      modifies this`statements, this`byId, this`addCount, this`evictCount
      ensures Ok() && Next(Setup(hash, maxSize, ttl), old(Value()), Op.Add(id, query, paramTypes), now, Value())
      ensures hash(query) in statements && r == statements[hash(query)] && r.id == id && Find(Value(), id) == Some(hash(query))
    {
      hide Indexed, Next, Oldest, Evict, Renamed, Inserted, Find;
      var h := hash(query);
      ghost var x := Value();
      if h in statements {
        r := Rename(id, h, now);
        AddIsNext(Setup(hash, maxSize, ttl), x, id, query, paramTypes, "", now, Value());
        return;
      }
      ghost var victim: Hash := "";
      if |statements| >= maxSize {
        victim := EvictOldest();
      }
      r := NewStatement(id, query, h, paramTypes, now);
      Insert(r);
      AddIsNext(Setup(hash, maxSize, ttl), x, id, query, paramTypes, victim, now, Value());
    }

    method Remove(id: Id)
      requires Ok()
      modifies this`statements, this`byId
      ensures Ok() && Value() == AfterRemove(old(Value()), id)
    {
      if id !in byId {
        return;
      }
      RemoveIndexed(Value(), id);
      statements := statements - {byId[id]};
      byId := byId - {id};
    }

    method Cleanup(now: int)
      requires Ok()
      modifies this`statements, this`byId, this`evictCount
      ensures Ok() && Value() == AfterCleanup(old(Value()), now, ttl)
    {
      hide EvictAll, Indexed;
      ghost var x := Value();
      EvictNone(x);
      ghost var done: set<Hash> := {};
      var left := statements.Keys;
      while left != {}
        invariant left <= x.statements.Keys && done == Stale(x, now, ttl) - left
        invariant Value() == EvictAll(x, done)
        decreases left
      {
        var h :| h in left;
        left := left - {h};
        EvictMore(x, done, h);
        if now - statements[h].lastUsed > ttl {
          byId := byId - {statements[h].id};
          statements := statements - {h};
          evictCount := evictCount + 1;
          done := done + {h};
        }
      }
      assert done == Stale(x, now, ttl);
      EvictAllIndexed(x, done);
      EvictAllLeaves(x, done);
    }
  }
}
