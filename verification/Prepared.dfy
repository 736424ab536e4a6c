/**
 * The prepared-statement cache: statements by query hash, and a second map from statement ids to
 * hashes that must follow them when ids are reused.
 */
module PreparedStatements {
  import opened Bytes

  type Id = string
  type Hash = string

  datatype Statement = Statement(id: Id, query: string, hash: Hash, paramTypes: seq<int>, createdAt: int, lastUsed: int, uses: nat)

  datatype Index = Index(
    statements: map<Hash, Statement>,
    byId: map<Id, Hash>,
    hits: nat,
    misses: nat,
    added: nat,
    evicted: nat)

  const NOTHING := Index(map[], map[], 0, 0, 0, 0)

  // ----- operations -----

  function Touch(s: Statement, now: int): Statement {
    s.(lastUsed := now, uses := s.uses + 1)
  }

  function TouchAt(x: Index, h: Hash, now: int): Index
    requires h in x.statements
  {
    x.(statements := x.statements[h := Touch(x.statements[h], now)])
  }

  function AfterGet(x: Index, h: Hash, now: int): Index {
    if h in x.statements then TouchAt(x, h, now).(hits := x.hits + 1) else x.(misses := x.misses + 1)
  }

  /** What the two lookups by id find. */
  function Find(x: Index, id: Id): Option<Hash> {
    if id in x.byId && x.byId[id] in x.statements then Some(x.byId[id]) else None
  }

  function AfterGetById(x: Index, id: Id, now: int): Index {
    var found := Find(x, id);
    if found.Some? && found.value in x.statements then TouchAt(x, found.value, now) else x
  }

  ghost predicate Oldest(x: Index, h: Hash) {
    h in x.statements && forall k :: k in x.statements ==> x.statements[h].lastUsed <= x.statements[k].lastUsed
  }

  function Evict(x: Index, h: Hash): Index
    requires h in x.statements
  {
    x.(byId := x.byId - {x.statements[h].id}, statements := x.statements - {h}, evicted := x.evicted + 1)
  }

  function Renamed(x: Index, id: Id, h: Hash, now: int): Index
    requires h in x.statements
  {
    var s := x.statements[h];
    x.(byId := (x.byId - {s.id})[id := h], statements := x.statements[h := Touch(s.(id := id), now)])
  }

  function Inserted(x: Index, s: Statement): Index {
    x.(statements := x.statements[s.hash := s], byId := x.byId[s.id := s.hash], added := x.added + 1)
  }

  function NewStatement(id: Id, query: string, hash: Hash, paramTypes: seq<int>, now: int): Statement {
    Statement(id, query, hash, paramTypes, now, now, 0)
  }

  /** victim is the statement that eviction picks among the oldest. */
  function AfterAdd(x: Index, id: Id, query: string, h: Hash, paramTypes: seq<int>, max: nat, victim: Hash, now: int): Index
    requires h !in x.statements && |x.statements| >= max ==> victim in x.statements
  {
    if h in x.statements then Renamed(x, id, h, now)
    else
      var room := if |x.statements| >= max then Evict(x, victim) else x;
      Inserted(room, NewStatement(id, query, h, paramTypes, now))
  }

  function AfterRemove(x: Index, id: Id): Index {
    if id in x.byId then x.(statements := x.statements - {x.byId[id]}, byId := x.byId - {id}) else x
  }

  function Stale(x: Index, now: int, ttl: int): set<Hash> {
    set h | h in x.statements && now - x.statements[h].lastUsed > ttl
  }

  function IdsOf(x: Index, hashes: set<Hash>): set<Id> {
    set h | h in hashes && h in x.statements :: x.statements[h].id
  }

  function EvictAll(x: Index, hashes: set<Hash>): Index {
    x.(byId := x.byId - IdsOf(x, hashes), statements := x.statements - hashes, evicted := x.evicted + |hashes|)
  }

  function AfterCleanup(x: Index, now: int, ttl: int): Index {
    EvictAll(x, Stale(x, now, ttl))
  }

  // ----- the two maps stay consistent -----

  ghost predicate Indexed(x: Index) {
    && (forall id :: id in x.byId ==> x.byId[id] in x.statements && x.statements[x.byId[id]].id == id)
    && (forall h :: h in x.statements ==> x.statements[h].hash == h)
  }

  lemma EvictIndexed(x: Index, h: Hash)
    requires Indexed(x) && h in x.statements
    ensures Indexed(Evict(x, h))
  {
  }

  lemma EvictAllIndexed(x: Index, hashes: set<Hash>)
    requires Indexed(x)
    ensures Indexed(EvictAll(x, hashes)) && |EvictAll(x, hashes).statements| <= |x.statements|
  {
    Fewer(x.statements, hashes);
    var x' := EvictAll(x, hashes);
    assert forall h :: h in hashes && h in x.statements ==> x.statements[h].id in IdsOf(x, hashes);
    assert forall id :: id in x'.byId ==> id !in IdsOf(x, hashes) && x.byId[id] !in hashes;
  }

  lemma RenamedIndexed(x: Index, id: Id, h: Hash, now: int)
    requires Indexed(x) && h in x.statements
    ensures Indexed(Renamed(x, id, h, now)) && |Renamed(x, id, h, now).statements| == |x.statements|
  {
    var x' := Renamed(x, id, h, now);
    assert x'.statements.Keys == x.statements.Keys;
    assert |x'.statements| == |x'.statements.Keys| && |x.statements| == |x.statements.Keys|;
  }

  lemma InsertedIndexed(x: Index, s: Statement)
    requires Indexed(x) && s.hash !in x.statements
    ensures Indexed(Inserted(x, s)) && |Inserted(x, s).statements| == |x.statements| + 1
  {
  }

  lemma EvictOne(x: Index, h: Hash)
    requires h in x.statements
    ensures |Evict(x, h).statements| == |x.statements| - 1
  {
    assert x.statements == (x.statements - {h})[h := x.statements[h]];
  }

  /** An Add keeps the index consistent and the number of statements within the maximum. */
  lemma AddKeeps(x: Index, id: Id, query: string, h: Hash, paramTypes: seq<int>, max: nat, victim: Hash, now: int)
    requires Indexed(x) && |x.statements| <= max && max >= 1
    requires h !in x.statements && |x.statements| >= max ==> Oldest(x, victim)
    ensures var x' := AfterAdd(x, id, query, h, paramTypes, max, victim, now);
            && Indexed(x') && |x'.statements| <= max
            && id in x'.byId && x'.byId[id] == h && x'.statements[h].id == id
  {
    hide Indexed;
    if h in x.statements {
      RenamedIndexed(x, id, h, now);
    } else {
      if |x.statements| >= max {
        EvictIndexed(x, victim);
        EvictOne(x, victim);
      }
      var room := if |x.statements| >= max then Evict(x, victim) else x;
      InsertedIndexed(room, NewStatement(id, query, h, paramTypes, now));
    }
  }

  // ----- runs -----

  datatype Op =
    | Get(query: string)
    | GetById(id: Id)
    | Add(id: Id, query: string, paramTypes: seq<int>)
    | Remove(id: Id)
    | Cleanup

  datatype Setup = Setup(hash: string -> Hash, max: nat, ttl: int)

  ghost predicate Next(u: Setup, x: Index, op: Op, now: int, x': Index) {
    match op
    case Get(query) => x' == AfterGet(x, u.hash(query), now)
    case GetById(id) => x' == AfterGetById(x, id, now)
    case Add(id, query, paramTypes) =>
      exists victim: Hash ::
        && (u.hash(query) !in x.statements && |x.statements| >= u.max ==> Oldest(x, victim))
        && x' == AfterAdd(x, id, query, u.hash(query), paramTypes, u.max, victim, now)
    case Remove(id) => x' == AfterRemove(x, id)
    case Cleanup => x' == AfterCleanup(x, now, u.ttl)
  }

  lemma AddIsNext(u: Setup, x: Index, id: Id, query: string, paramTypes: seq<int>, victim: Hash, now: int, x': Index)
    requires u.hash(query) !in x.statements && |x.statements| >= u.max ==> Oldest(x, victim)
    requires x' == AfterAdd(x, id, query, u.hash(query), paramTypes, u.max, victim, now)
    ensures Next(u, x, Add(id, query, paramTypes), now, x')
  {
  }

  datatype Event = Event(op: Op, now: int)

  ghost predicate IsRun(u: Setup, states: seq<Index>, events: seq<Event>) {
    && |states| == |events| + 1
    && states[0] == NOTHING
    && forall i :: 0 <= i < |events| ==> Next(u, states[i], events[i].op, events[i].now, states[i + 1])
  }

  /** A statement that an Add drops was used no later than any other, and only a full cache drops one. */
  lemma EvictionIsOldest(u: Setup, x: Index, id: Id, query: string, paramTypes: seq<int>, now: int, x': Index, gone: Hash)
    requires Next(u, x, Add(id, query, paramTypes), now, x') && gone in x.statements && gone !in x'.statements
    ensures u.hash(query) !in x.statements && |x.statements| >= u.max
    ensures forall k :: k in x.statements ==> x.statements[gone].lastUsed <= x.statements[k].lastUsed
    ensures x'.statements.Keys == x.statements.Keys - {gone} + {u.hash(query)}
  {
    var victim: Hash :|
      && (u.hash(query) !in x.statements && |x.statements| >= u.max ==> Oldest(x, victim))
      && x' == AfterAdd(x, id, query, u.hash(query), paramTypes, u.max, victim, now);
    assert gone == victim;
  }

  lemma TouchIndexed(x: Index, h: Hash, now: int, x': Index)
    requires Indexed(x) && h in x.statements && x'.byId == x.byId && x'.statements == TouchAt(x, h, now).statements
    ensures Indexed(x') && |x'.statements| == |x.statements|
  {
    assert x'.statements.Keys == x.statements.Keys;
    assert |x'.statements| == |x'.statements.Keys| && |x.statements| == |x.statements.Keys|;
  }

  lemma RemoveIndexed(x: Index, id: Id)
    requires Indexed(x)
    ensures Indexed(AfterRemove(x, id)) && |AfterRemove(x, id).statements| <= |x.statements|
  {
    Fewer(x.statements, if id in x.byId then {x.byId[id]} else {});
  }

  lemma Fewer(m: map<Hash, Statement>, gone: set<Hash>)
    ensures |m - gone| <= |m|
  {
    var m' := m - gone;
    assert m'.Keys == m.Keys - gone;
    assert |m'| == |m'.Keys| && |m| == |m.Keys|;
    assert |m.Keys| == |m.Keys - gone| + |m.Keys * gone| by {
      assert m.Keys == (m.Keys - gone) + (m.Keys * gone);
    }
  }

  lemma StepKeeps(u: Setup, x: Index, op: Op, now: int, x': Index)
    requires Indexed(x) && |x.statements| <= u.max && u.max >= 1 && Next(u, x, op, now, x')
    ensures Indexed(x') && |x'.statements| <= u.max
  {
    hide Indexed, AfterAdd, EvictAll, AfterRemove;
    match op
    case Get(query) =>
      if u.hash(query) in x.statements {
        TouchIndexed(x, u.hash(query), now, x');
      } else {
        SameMaps(x, x');
      }
    case GetById(id) =>
      if Find(x, id).Some? {
        TouchIndexed(x, Find(x, id).value, now, x');
      }
    case Add(id, query, paramTypes) =>
      var victim: Hash :|
        && (u.hash(query) !in x.statements && |x.statements| >= u.max ==> Oldest(x, victim))
        && x' == AfterAdd(x, id, query, u.hash(query), paramTypes, u.max, victim, now);
      AddKeeps(x, id, query, u.hash(query), paramTypes, u.max, victim, now);
    case Remove(id) => RemoveIndexed(x, id);
    case Cleanup => EvictAllIndexed(x, Stale(x, now, u.ttl));
  }

  lemma SameMaps(x: Index, x': Index)
    requires Indexed(x) && x'.statements == x.statements && x'.byId == x.byId
    ensures Indexed(x')
  {
  }

  /** Over any run: every id names a live statement that bears it, and at most max statements are held. */
  lemma {:induction false} RunKeepsIndex(u: Setup, states: seq<Index>, events: seq<Event>, i: nat)
    requires IsRun(u, states, events) && i <= |events| && u.max >= 1
    ensures Indexed(states[i]) && |states[i].statements| <= u.max
  {
    if i > 0 {
      hide Next, Indexed;
      RunKeepsIndex(u, states, events, i - 1);
      StepKeeps(u, states[i - 1], events[i - 1].op, events[i - 1].now, states[i]);
    }
  }

  /** The hash of the query last added under id, unless id was removed since. */
  function LastAdded(u: Setup, events: seq<Event>, id: Id): Option<Hash> {
    if events == [] then None
    else
      var op, before := events[|events| - 1].op, LastAdded(u, events[..|events| - 1], id);
      if op.Add? && op.id == id then Some(u.hash(op.query))
      else if op.Remove? && op.id == id then None
      else before
  }

  lemma StepAnswers(u: Setup, x: Index, op: Op, now: int, x': Index, id: Id)
    requires Next(u, x, op, now, x') && id in x'.byId
    ensures op.Add? && op.id == id ==> x'.byId[id] == u.hash(op.query)
    ensures !(op.Add? && op.id == id) ==> id in x.byId && x'.byId[id] == x.byId[id] && !(op.Remove? && op.id == id)
  {
  }

  /** Whatever a lookup by id finds over any run is the statement last added under that id. */
  lemma {:induction false} FoundIsLastAdded(u: Setup, states: seq<Index>, events: seq<Event>, i: nat, id: Id)
    requires IsRun(u, states, events) && i <= |events| && Find(states[i], id).Some?
    ensures LastAdded(u, events[..i], id) == Find(states[i], id)
  {
    NamedIsLastAdded(u, states, events, i, id);
  }

  lemma {:induction false} NamedIsLastAdded(u: Setup, states: seq<Index>, events: seq<Event>, i: nat, id: Id)
    requires IsRun(u, states, events) && i <= |events| && id in states[i].byId
    ensures LastAdded(u, events[..i], id) == Some(states[i].byId[id])
  {
    if i > 0 {
      hide Next;
      StepAnswers(u, states[i - 1], events[i - 1].op, events[i - 1].now, states[i], id);
      assert events[..i][..i - 1] == events[..i - 1];
      if !(events[i - 1].op.Add? && events[i - 1].op.id == id) {
        NamedIsLastAdded(u, states, events, i - 1, id);
      }
    }
  }

  // ----- last use, by the history -----

  /** The operation uses the statement h: it adds its query, gets it by query, or finds it by id. */
  predicate Uses(u: Setup, x: Index, op: Op, h: Hash) {
    || AddsQuery(u, op, h)
    || (op.Get? && u.hash(op.query) == h && h in x.statements)
    || (op.GetById? && op.id in x.byId && x.byId[op.id] == h && h in x.statements)
  }

  lemma StepUses(u: Setup, x: Index, op: Op, now: int, x': Index, h: Hash)
    requires Next(u, x, op, now, x') && h in x'.statements
    ensures Uses(u, x, op, h) ==> x'.statements[h].lastUsed == now
    ensures !Uses(u, x, op, h) ==> h in x.statements && x'.statements[h] == x.statements[h]
    ensures h !in x.statements ==> x'.statements[h].uses == 0 && x'.statements[h].createdAt == now
                                   && op.Add? && x'.statements[h].query == op.query && x'.statements[h].paramTypes == op.paramTypes
    ensures h in x.statements && Uses(u, x, op, h) ==>
              x'.statements[h] == x.statements[h].(lastUsed := now, uses := x.statements[h].uses + 1,
                                                   id := if op.Add? then op.id else x.statements[h].id)
  {
  }

  /** When h was last used before the i-th event. */
  function LastUse(u: Setup, states: seq<Index>, events: seq<Event>, i: nat, h: Hash): Option<int>
    requires |states| == |events| + 1 && i <= |events|
  {
    if i == 0 then None
    else if Uses(u, states[i - 1], events[i - 1].op, h) then Some(events[i - 1].now)
    else LastUse(u, states, events, i - 1, h)
  }

  /** Over any run the stored time of a live statement is that of its last use in the history. */
  lemma {:induction false} StoredIsLastUse(u: Setup, states: seq<Index>, events: seq<Event>, i: nat, h: Hash)
    requires IsRun(u, states, events) && i <= |events| && h in states[i].statements
    ensures LastUse(u, states, events, i, h) == Some(states[i].statements[h].lastUsed)
    decreases i
  {
    hide Next, Uses;
    if i > 0 {
      StepUses(u, states[i - 1], events[i - 1].op, events[i - 1].now, states[i], h);
      if !Uses(u, states[i - 1], events[i - 1].op, h) {
        StoredIsLastUse(u, states, events, i - 1, h);
      }
    }
  }

  /** Over any run a statement that an Add drops was used no later than any other live statement. */
  lemma EvictedWasLeastRecent(u: Setup, states: seq<Index>, events: seq<Event>, i: nat, gone: Hash, other: Hash)
    requires IsRun(u, states, events) && i < |events| && events[i].op.Add?
    requires gone in states[i].statements && gone !in states[i + 1].statements && other in states[i].statements
    ensures LastUse(u, states, events, i, gone).Some? && LastUse(u, states, events, i, other).Some?
    ensures LastUse(u, states, events, i, gone).value <= LastUse(u, states, events, i, other).value
  {
    hide Next, LastUse;
    StoredIsLastUse(u, states, events, i, gone);
    StoredIsLastUse(u, states, events, i, other);
    var op := events[i].op;
    EvictionIsOldest(u, states[i], op.id, op.query, op.paramTypes, events[i].now, states[i + 1], gone);
  }

  /** Over any run a cleanup drops exactly the statements whose last use is longer ago than the lifetime. */
  lemma CleanupDropsUnused(u: Setup, states: seq<Index>, events: seq<Event>, i: nat, h: Hash)
    requires IsRun(u, states, events) && i < |events| && events[i].op == Cleanup && h in states[i].statements
    ensures LastUse(u, states, events, i, h).Some?
    ensures h !in states[i + 1].statements <==> events[i].now - LastUse(u, states, events, i, h).value > u.ttl
    ensures h in states[i + 1].statements ==> states[i + 1].statements[h] == states[i].statements[h]
  {
    hide LastUse;
    StoredIsLastUse(u, states, events, i, h);
    assert Next(u, states[i], events[i].op, events[i].now, states[i + 1]);
  }

  lemma AddCounts(x: Index, id: Id, query: string, h: Hash, paramTypes: seq<int>, max: nat, victim: Hash, now: int)
    requires h !in x.statements && |x.statements| >= max ==> victim in x.statements
    ensures var x' := AfterAdd(x, id, query, h, paramTypes, max, victim, now);
            && x'.hits == x.hits && x'.misses == x.misses
            && x'.added == x.added + (if h !in x.statements then 1 else 0)
            && x'.evicted == x.evicted + |x.statements.Keys - x'.statements.Keys|
  {
    var x' := AfterAdd(x, id, query, h, paramTypes, max, victim, now);
    if h !in x.statements && |x.statements| >= max {
      assert x.statements.Keys - x'.statements.Keys == {victim};
    } else {
      assert x.statements.Keys - x'.statements.Keys == {};
    }
  }

  /** What each operation counts: hits and misses of Get, statements inserted, and statements evicted or cleaned up. */
  lemma StepCounts(u: Setup, x: Index, op: Op, now: int, x': Index)
    requires Next(u, x, op, now, x')
    ensures x'.hits == x.hits + (if op.Get? && u.hash(op.query) in x.statements then 1 else 0)
    ensures x'.misses == x.misses + (if op.Get? && u.hash(op.query) !in x.statements then 1 else 0)
    ensures x'.added == x.added + (if op.Add? && u.hash(op.query) !in x.statements then 1 else 0)
    ensures x'.evicted == x.evicted + (if op.Remove? then 0 else |x.statements.Keys - x'.statements.Keys|)
  {
    hide AfterAdd, AfterGet, AfterGetById, AfterCleanup, AfterRemove;
    match op
    case Get(query) => GetCounts(x, u.hash(query), now);
    case GetById(id) => GetByIdCounts(x, id, now);
    case Add(id, query, paramTypes) =>
      var victim: Hash :|
        && (u.hash(query) !in x.statements && |x.statements| >= u.max ==> Oldest(x, victim))
        && x' == AfterAdd(x, id, query, u.hash(query), paramTypes, u.max, victim, now);
      AddCounts(x, id, query, u.hash(query), paramTypes, u.max, victim, now);
    case Remove(id) => RemovalCounts(x, id, now, u.ttl);
    case Cleanup => RemovalCounts(x, "", now, u.ttl);
  }

  lemma GetCounts(x: Index, h: Hash, now: int)
    ensures var x' := AfterGet(x, h, now);
            && x'.hits == x.hits + (if h in x.statements then 1 else 0)
            && x'.misses == x.misses + (if h in x.statements then 0 else 1)
            && x'.added == x.added && x'.evicted == x.evicted && x.statements.Keys - x'.statements.Keys == {}
  {
  }

  lemma GetByIdCounts(x: Index, id: Id, now: int)
    ensures var x' := AfterGetById(x, id, now);
            && x'.hits == x.hits && x'.misses == x.misses && x'.added == x.added && x'.evicted == x.evicted
            && x.statements.Keys - x'.statements.Keys == {}
  {
  }

  lemma RemovalCounts(x: Index, id: Id, now: int, ttl: int)
    ensures var x' := AfterRemove(x, id);
            x'.hits == x.hits && x'.misses == x.misses && x'.added == x.added && x'.evicted == x.evicted
    ensures var x' := AfterCleanup(x, now, ttl);
            && x'.hits == x.hits && x'.misses == x.misses && x'.added == x.added
            && x'.evicted == x.evicted + |x.statements.Keys - x'.statements.Keys|
  {
    assert x.statements.Keys - AfterCleanup(x, now, ttl).statements.Keys == Stale(x, now, ttl);
  }

  /** Which statements and ids a lookup, a removal and a cleanup leave. */
  lemma StepLeaves(u: Setup, x: Index, op: Op, now: int, x': Index)
    requires Next(u, x, op, now, x') && !op.Add?
    ensures op.Get? || op.GetById? ==> x'.statements.Keys == x.statements.Keys && x'.byId == x.byId
    ensures op.Remove? && op.id in x.byId ==> x'.statements == x.statements - {x.byId[op.id]} && x'.byId == x.byId - {op.id}
    ensures op.Remove? && op.id !in x.byId ==> x' == x
    ensures op.Cleanup? ==> forall h :: h in x'.statements <==> h in x.statements && now - x.statements[h].lastUsed <= u.ttl
  {
  }

  /** An Add leaves its query in the cache and, unless the cache is full and the query new, everything else too. */
  lemma AddLeavesOthers(u: Setup, x: Index, op: Op, now: int, x': Index)
    requires op.Add? && Next(u, x, op, now, x')
    ensures u.hash(op.query) in x.statements || |x.statements| < u.max ==>
              x'.statements.Keys == x.statements.Keys + {u.hash(op.query)}
    ensures u.hash(op.query) !in x.statements && |x.statements| >= u.max ==>
              exists gone :: gone in x.statements && x'.statements.Keys == x.statements.Keys - {gone} + {u.hash(op.query)}
  {
    hide AfterAdd;
    var victim: Hash :|
      && (u.hash(op.query) !in x.statements && |x.statements| >= u.max ==> Oldest(x, victim))
      && x' == AfterAdd(x, op.id, op.query, u.hash(op.query), op.paramTypes, u.max, victim, now);
    AddKeys(x, op.id, op.query, u.hash(op.query), op.paramTypes, u.max, victim, now);
    assert u.hash(op.query) !in x.statements && |x.statements| >= u.max ==> victim in x.statements;
  }

  lemma AddKeys(x: Index, id: Id, query: string, h: Hash, paramTypes: seq<int>, max: nat, victim: Hash, now: int)
    requires h !in x.statements && |x.statements| >= max ==> victim in x.statements
    ensures var keys := AfterAdd(x, id, query, h, paramTypes, max, victim, now).statements.Keys;
            if h !in x.statements && |x.statements| >= max then keys == x.statements.Keys - {victim} + {h}
            else keys == x.statements.Keys + {h}
  {
  }

  // ----- when a live statement is found under its id -----

  /** h is found under the id it bears. */
  ghost predicate Found(x: Index, h: Hash)
    requires h in x.statements
  {
    x.statements[h].id in x.byId && x.byId[x.statements[h].id] == h
  }

  predicate AddsQuery(u: Setup, op: Op, h: Hash) {
    op.Add? && u.hash(op.query) == h
  }

  /** g, another statement that bears the id of h, is dropped by the step or given a new id. */
  predicate Sheds(u: Setup, x: Index, op: Op, x': Index, h: Hash, g: Hash)
    requires h in x.statements
  {
    && g != h && g in x.statements && x.statements[g].id == x.statements[h].id
    && (g !in x'.statements || (AddsQuery(u, op, g) && op.id != x.statements[h].id))
  }

  /** The step gives the id of h to another query, or sheds another statement that bears it. */
  ghost predicate Strikes(u: Setup, x: Index, op: Op, x': Index, h: Hash)
    requires h in x.statements
  {
    || (op.Add? && u.hash(op.query) != h && op.id == x.statements[h].id)
    || (exists g :: Sheds(u, x, op, x', h, g))
  }

  /** Dropping statements takes an id away from a live statement exactly when one of them bears it too. */
  lemma EvictAllUnnames(x: Index, hashes: set<Hash>, h: Hash)
    requires Indexed(x) && h in x.statements && h !in hashes
    ensures Found(EvictAll(x, hashes), h) <==>
            Found(x, h) && forall g :: g in hashes && g in x.statements ==> x.statements[g].id != x.statements[h].id
  {
    var id := x.statements[h].id;
    assert id in IdsOf(x, hashes) <==> exists g :: g in hashes && g in x.statements && x.statements[g].id == id;
  }

  lemma EvictUnnames(x: Index, victim: Hash, h: Hash)
    requires Indexed(x) && h in x.statements && victim in x.statements && victim != h
    ensures Found(Evict(x, victim), h) <==> Found(x, h) && x.statements[victim].id != x.statements[h].id
  {
  }

  lemma InsertUnnames(x: Index, s: Statement, h: Hash)
    requires h in x.statements && s.hash != h
    ensures Found(Inserted(x, s), h) <==> Found(x, h) && s.id != x.statements[h].id
  {
  }

  /** Adding a known query again takes an id away from another statement exactly when it takes or bears that id. */
  lemma RenameUnnames(x: Index, id: Id, g: Hash, now: int, h: Hash)
    requires Indexed(x) && g in x.statements && h in x.statements && g != h
    ensures Found(Renamed(x, id, g, now), h) <==>
            Found(x, h) && id != x.statements[h].id && x.statements[g].id != x.statements[h].id
  {
  }

  lemma RemoveUnnames(x: Index, id: Id, h: Hash)
    requires Indexed(x) && h in x.statements && h in AfterRemove(x, id).statements
    ensures Found(AfterRemove(x, id), h) <==> Found(x, h)
  {
  }

  /** What an Add of another query does to h. */
  lemma AddUnnames(u: Setup, x: Index, op: Op, now: int, x': Index, h: Hash)
    requires Indexed(x) && op.Add? && Next(u, x, op, now, x') && u.hash(op.query) != h
    requires h in x.statements && h in x'.statements
    ensures x'.statements[h].id == x.statements[h].id
    ensures Found(x', h) <==> Found(x, h) && !Strikes(u, x, op, x', h)
  {
    hide Indexed;
    var k := u.hash(op.query);
    var victim: Hash :|
      && (k !in x.statements && |x.statements| >= u.max ==> Oldest(x, victim))
      && x' == AfterAdd(x, op.id, op.query, k, op.paramTypes, u.max, victim, now);
    if k in x.statements {
      RenameUnnames(x, op.id, k, now, h);
      RenameSheds(u, x, op, now, x', h);
    } else {
      var s := NewStatement(op.id, op.query, k, op.paramTypes, now);
      if |x.statements| >= u.max {
        EvictUnnames(x, victim, h);
        InsertUnnames(Evict(x, victim), s, h);
        EvictSheds(u, x, op, x', h, victim);
      } else {
        InsertUnnames(x, s, h);
        assert forall g :: !Sheds(u, x, op, x', h, g);
      }
    }
  }

  lemma RenameSheds(u: Setup, x: Index, op: Op, now: int, x': Index, h: Hash)
    requires op.Add? && h in x.statements && u.hash(op.query) in x.statements && u.hash(op.query) != h
    requires x' == Renamed(x, op.id, u.hash(op.query), now)
    ensures Strikes(u, x, op, x', h) <==>
            op.id == x.statements[h].id || x.statements[u.hash(op.query)].id == x.statements[h].id
  {
    var k := u.hash(op.query);
    assert forall g :: Sheds(u, x, op, x', h, g) ==> g == k;
    assert Sheds(u, x, op, x', h, k) <==> x.statements[k].id == x.statements[h].id && op.id != x.statements[h].id;
  }

  lemma EvictSheds(u: Setup, x: Index, op: Op, x': Index, h: Hash, victim: Hash)
    requires op.Add? && h in x.statements && h != victim && victim in x.statements && u.hash(op.query) !in x.statements
    requires x'.statements.Keys == x.statements.Keys - {victim} + {u.hash(op.query)}
    ensures (exists g :: Sheds(u, x, op, x', h, g)) <==> x.statements[victim].id == x.statements[h].id
  {
    assert forall g :: Sheds(u, x, op, x', h, g) ==> g == victim;
    assert Sheds(u, x, op, x', h, victim) <==> x.statements[victim].id == x.statements[h].id;
  }

  lemma CleanupSheds(u: Setup, x: Index, now: int, h: Hash)
    requires h in x.statements && h !in Stale(x, now, u.ttl)
    ensures Strikes(u, x, Cleanup, AfterCleanup(x, now, u.ttl), h) <==>
            exists g :: g in Stale(x, now, u.ttl) && x.statements[g].id == x.statements[h].id
  {
    var x' := AfterCleanup(x, now, u.ttl);
    assert forall g :: Sheds(u, x, Cleanup, x', h, g) <==> g in Stale(x, now, u.ttl) && x.statements[g].id == x.statements[h].id;
  }

  lemma RemoveSheds(u: Setup, x: Index, id: Id, h: Hash)
    requires Indexed(x) && h in x.statements && h in AfterRemove(x, id).statements && Found(x, h)
    ensures !Strikes(u, x, Remove(id), AfterRemove(x, id), h)
  {
    assert forall g :: !Sheds(u, x, Remove(id), AfterRemove(x, id), h, g);
  }

  lemma TouchSheds(u: Setup, x: Index, op: Op, x': Index, h: Hash)
    requires h in x.statements && !op.Add? && x'.statements.Keys == x.statements.Keys
    ensures !Strikes(u, x, op, x', h)
  {
    assert forall g :: !Sheds(u, x, op, x', h, g);
  }

  /** A step that does not add h's own query leaves h found exactly if it was found and is not struck. */
  lemma StepKeepsFound(u: Setup, x: Index, op: Op, now: int, x': Index, h: Hash)
    requires Indexed(x) && Next(u, x, op, now, x') && !AddsQuery(u, op, h)
    requires h in x.statements && h in x'.statements
    ensures x'.statements[h].id == x.statements[h].id
    ensures Found(x', h) <==> Found(x, h) && !Strikes(u, x, op, x', h)
  {
    hide Strikes;
    match op
    case Get(query) => TouchSheds(u, x, op, x', h);
    case GetById(id) => TouchSheds(u, x, op, x', h);
    case Add(id, query, paramTypes) => AddUnnames(u, x, op, now, x', h);
    case Remove(id) =>
      RemoveUnnames(x, id, h);
      if Found(x, h) {
        RemoveSheds(u, x, id, h);
      }
    case Cleanup =>
      EvictAllUnnames(x, Stale(x, now, u.ttl), h);
      CleanupSheds(u, x, now, h);
  }

  lemma AddMakesFound(u: Setup, x: Index, op: Op, now: int, x': Index)
    requires op.Add? && Next(u, x, op, now, x')
    ensures var h := u.hash(op.query); h in x'.statements && x'.statements[h].id == op.id && Found(x', h)
  {
  }

  /** Only an Add brings a statement in. */
  lemma StepBrings(u: Setup, x: Index, op: Op, now: int, x': Index, h: Hash)
    requires Next(u, x, op, now, x') && h in x'.statements && !AddsQuery(u, op, h)
    ensures h in x.statements
  {
  }

  // ----- over runs -----

  /** Where and under which id the query of h was last added. */
  function LastAddOf(u: Setup, events: seq<Event>, h: Hash): (at: Option<nat>)
    ensures at.Some? ==> at.value < |events| && AddsQuery(u, events[at.value].op, h)
  {
    if events == [] then None
    else if AddsQuery(u, events[|events| - 1].op, h) then Some(|events| - 1)
    else LastAddOf(u, events[..|events| - 1], h)
  }

  /** Since the query of h was last added no step has struck it. */
  ghost predicate Unstruck(u: Setup, states: seq<Index>, events: seq<Event>, h: Hash, from: nat, to: nat)
    requires |states| == |events| + 1 && to <= |events|
  {
    forall k :: from <= k < to && h in states[k].statements ==> !Strikes(u, states[k], events[k].op, states[k + 1], h)
  }

  /**
   * Exactly when a live statement is found under the id it was last added with: no step since then
   * gave that id to another query, dropped another statement bearing it, or gave such a one a new id.
   */
  lemma {:induction false} FoundExactly(u: Setup, states: seq<Index>, events: seq<Event>, i: nat, h: Hash)
    requires IsRun(u, states, events) && i <= |events| && u.max >= 1 && h in states[i].statements
    ensures var at := LastAddOf(u, events[..i], h);
            && at.Some? && events[at.value].op.id == states[i].statements[h].id
            && (Find(states[i], events[at.value].op.id) == Some(h) <==> Unstruck(u, states, events, h, at.value + 1, i))
    decreases i
  {
    hide Next, Indexed, Strikes;
    if i > 0 {
      var x, op, now, x' := states[i - 1], events[i - 1].op, events[i - 1].now, states[i];
      assert events[..i][..i - 1] == events[..i - 1];
      if AddsQuery(u, op, h) {
        AddMakesFound(u, x, op, now, x');
      } else {
        StepBrings(u, x, op, now, x', h);
        RunKeepsIndex(u, states, events, i - 1);
        StepKeepsFound(u, x, op, now, x', h);
        FoundExactly(u, states, events, i - 1, h);
        var at := LastAddOf(u, events[..i - 1], h).value;
        assert Unstruck(u, states, events, h, at + 1, i) <==>
               Unstruck(u, states, events, h, at + 1, i - 1) && !Strikes(u, x, op, x', h);
      }
    }
  }

  // ----- ids that are not taken over -----

  /** Every live statement is found under its own id. */
  ghost predicate Reachable(x: Index) {
    forall h :: h in x.statements ==> Found(x, h)
  }

  ghost predicate Evicts(x: Index, h: Hash, max: nat) {
    h !in x.statements && |x.statements| >= max
  }

  /** The Add h leaves k where it is: k keeps a live entry and is not the added statement. */
  ghost predicate Bystander(x: Index, h: Hash, max: nat, victim: Hash, k: Hash) {
    k in x.statements && k != h && !(Evicts(x, h, max) && k == victim)
  }

  /**
   * After an Add every statement is reachable exactly when every bystander was, and bears neither the
   * new id, nor the id the added statement had before, nor that of the statement evicted.
   */
  lemma AddKeepsReachable(x: Index, id: Id, query: string, h: Hash, paramTypes: seq<int>, max: nat, victim: Hash, now: int)
    requires Indexed(x) && (Evicts(x, h, max) ==> Oldest(x, victim))
    ensures Reachable(AfterAdd(x, id, query, h, paramTypes, max, victim, now)) <==>
            forall k :: Bystander(x, h, max, victim, k) ==>
              && Found(x, k) && x.statements[k].id != id
              && (h in x.statements ==> x.statements[k].id != x.statements[h].id)
              && (Evicts(x, h, max) ==> x.statements[k].id != x.statements[victim].id)
  {
    var x' := AfterAdd(x, id, query, h, paramTypes, max, victim, now);
    forall k | Bystander(x, h, max, victim, k)
      ensures k in x'.statements
      ensures Found(x', k) <==>
              && Found(x, k) && x.statements[k].id != id
              && (h in x.statements ==> x.statements[k].id != x.statements[h].id)
              && (Evicts(x, h, max) ==> x.statements[k].id != x.statements[victim].id)
    {
      AddLeaves(x, id, query, h, paramTypes, max, victim, now, k);
    }
    assert Found(x', h);
    assert forall k :: k in x'.statements <==> k == h || Bystander(x, h, max, victim, k);
  }

  lemma AddLeaves(x: Index, id: Id, query: string, h: Hash, paramTypes: seq<int>, max: nat, victim: Hash, now: int, k: Hash)
    requires Indexed(x) && (Evicts(x, h, max) ==> Oldest(x, victim)) && Bystander(x, h, max, victim, k)
    ensures var x' := AfterAdd(x, id, query, h, paramTypes, max, victim, now);
            && k in x'.statements
            && (Found(x', k) <==>
                && Found(x, k) && x.statements[k].id != id
                && (h in x.statements ==> x.statements[k].id != x.statements[h].id)
                && (Evicts(x, h, max) ==> x.statements[k].id != x.statements[victim].id))
  {
    if h in x.statements {
      RenameUnnames(x, id, h, now, k);
    } else {
      var s := NewStatement(id, query, h, paramTypes, now);
      if |x.statements| >= max {
        EvictUnnames(x, victim, k);
        InsertUnnames(Evict(x, victim), s, k);
      } else {
        InsertUnnames(x, s, k);
      }
    }
  }

  /**
   * After a removal every statement is reachable exactly when every remaining one was and, for
   * evictions and cleanup, none of those dropped bears the id of one that remains.
   */
  lemma RemovalsKeepReachable(x: Index, id: Id, hashes: set<Hash>)
    requires Indexed(x)
    ensures Reachable(AfterRemove(x, id)) <==> forall h :: h in AfterRemove(x, id).statements ==> Found(x, h)
    ensures Reachable(EvictAll(x, hashes)) <==>
            forall h :: h in x.statements && h !in hashes ==>
              Found(x, h) && forall g :: g in hashes && g in x.statements ==> x.statements[g].id != x.statements[h].id
  {
    forall h | h in AfterRemove(x, id).statements ensures Found(AfterRemove(x, id), h) <==> Found(x, h) {
      RemoveUnnames(x, id, h);
    }
    forall h | h in x.statements && h !in hashes
      ensures Found(EvictAll(x, hashes), h) <==>
              Found(x, h) && forall g :: g in hashes && g in x.statements ==> x.statements[g].id != x.statements[h].id
    {
      EvictAllUnnames(x, hashes, h);
    }
  }

  /** An Add whose id names another query that stays live. */
  ghost predicate TakesOver(u: Setup, x: Index, op: Op, x': Index) {
    op.Add? && op.id in x.byId && x.byId[op.id] != u.hash(op.query) && x.byId[op.id] in x'.statements
  }

  lemma StepKeepsReachable(u: Setup, x: Index, op: Op, now: int, x': Index)
    requires Indexed(x) && Reachable(x) && Next(u, x, op, now, x')
    ensures Reachable(x') <==> !TakesOver(u, x, op, x')
  {
    if TakesOver(u, x, op, x') {
      var owner := x.byId[op.id];
      AddUnnames(u, x, op, now, x', owner);
      assert !Found(x', owner);
    } else {
      forall h | h in x'.statements ensures Found(x', h) {
        if AddsQuery(u, op, h) {
          AddMakesFound(u, x, op, now, x');
        } else {
          StepBrings(u, x, op, now, x', h);
          StepKeepsFound(u, x, op, now, x', h);
          NotStruck(u, x, op, x', h);
        }
      }
    }
  }

  lemma NotStruck(u: Setup, x: Index, op: Op, x': Index, h: Hash)
    requires Indexed(x) && Reachable(x) && h in x.statements && h in x'.statements
    requires !AddsQuery(u, op, h) && !TakesOver(u, x, op, x')
    ensures !Strikes(u, x, op, x', h)
  {
    assert forall g :: g in x.statements && g != h ==> Found(x, g) && Found(x, h);
    assert forall g :: !Sheds(u, x, op, x', h, g);
  }

  lemma {:induction false} AllReachable(u: Setup, states: seq<Index>, events: seq<Event>, i: nat)
    requires IsRun(u, states, events) && i <= |events| && u.max >= 1
    requires forall k :: 0 <= k < i ==> !TakesOver(u, states[k], events[k].op, states[k + 1])
    ensures Reachable(states[i])
    decreases i
  {
    if i > 0 {
      hide Next, Indexed, Reachable, TakesOver;
      AllReachable(u, states, events, i - 1);
      RunKeepsIndex(u, states, events, i - 1);
      StepKeepsReachable(u, states[i - 1], events[i - 1].op, events[i - 1].now, states[i]);
    }
  }

  /** Over any run in which no Add takes an id over, every live statement is found under the id it was last added with. */
  lemma AllFound(u: Setup, states: seq<Index>, events: seq<Event>, i: nat, h: Hash)
    requires IsRun(u, states, events) && i <= |events| && u.max >= 1 && h in states[i].statements
    requires forall k :: 0 <= k < i ==> !TakesOver(u, states[k], events[k].op, states[k + 1])
    ensures var at := LastAddOf(u, events[..i], h); at.Some? && Find(states[i], events[at.value].op.id) == Some(h)
  {
    hide TakesOver, LastAddOf;
    AllReachable(u, states, events, i);
    FoundExactly(u, states, events, i, h);
  }

  /** In such a run an id finds the live query last added under it, exactly unless that query has since been added under another id. */
  lemma LastAddedIsFound(u: Setup, states: seq<Index>, events: seq<Event>, i: nat, id: Id, h: Hash)
    requires IsRun(u, states, events) && i <= |events| && u.max >= 1
    requires forall k :: 0 <= k < i ==> !TakesOver(u, states[k], events[k].op, states[k + 1])
    requires LastAdded(u, events[..i], id) == Some(h) && h in states[i].statements
    ensures var at := LastAddOf(u, events[..i], h);
            at.Some? && (Find(states[i], id) == Some(h) <==> events[at.value].op.id == id)
  {
    hide TakesOver, LastAddOf, LastAdded;
    AllFound(u, states, events, i, h);
    FoundExactly(u, states, events, i, h);
    RunKeepsIndex(u, states, events, i);
  }

  /** The first Add that takes an id over makes a live statement unreachable. */
  lemma FirstTakeover(u: Setup, states: seq<Index>, events: seq<Event>, i: nat)
    requires IsRun(u, states, events) && i < |events| && u.max >= 1
    requires forall k :: 0 <= k < i ==> !TakesOver(u, states[k], events[k].op, states[k + 1])
    ensures Reachable(states[i + 1]) <==> !TakesOver(u, states[i], events[i].op, states[i + 1])
  {
    hide Next, Indexed, Reachable, TakesOver;
    AllReachable(u, states, events, i);
    RunKeepsIndex(u, states, events, i);
    StepKeepsReachable(u, states[i], events[i].op, events[i].now, states[i + 1]);
  }

  // ----- three ways to lose a statement that is still live -----

  /** Id "a" is given to a second query, then the first query is added as "b": now "a" finds nothing. */
  lemma LiveStatementLost(u: Setup, q1: string, q2: string) returns (states: seq<Index>, events: seq<Event>)
    requires u.hash(q1) != u.hash(q2) && u.max >= 2
    ensures IsRun(u, states, events) && |events| == 3
    ensures LastAdded(u, events, "a") == Some(u.hash(q2)) && u.hash(q2) in states[3].statements
    ensures Find(states[3], "a") == None
  {
    var h1, h2 := u.hash(q1), u.hash(q2);
    events := [Event(Add("a", q1, []), 1), Event(Add("a", q2, []), 2), Event(Add("b", q1, []), 3)];
    var x1 := AfterAdd(NOTHING, "a", q1, h1, [], u.max, "", 1);
    var x2 := AfterAdd(x1, "a", q2, h2, [], u.max, "", 2);
    var x3 := AfterAdd(x2, "b", q1, h1, [], u.max, "", 3);
    states := [NOTHING, x1, x2, x3];
    AddIsNext(u, NOTHING, "a", q1, [], "", 1, x1);
    AddIsNext(u, x1, "a", q2, [], "", 2, x2);
    AddIsNext(u, x2, "b", q1, [], "", 3, x3);
    LastAddedHere(u, q1, q2, events);
    hide Next, AfterAdd, LastAdded;
    assert IsRun(u, states, events);
  }

  lemma LastAddedHere(u: Setup, q1: string, q2: string, events: seq<Event>)
    requires events == [Event(Add("a", q1, []), 1), Event(Add("a", q2, []), 2), Event(Add("b", q1, []), 3)]
    ensures LastAdded(u, events, "a") == Some(u.hash(q2))
  {
    assert events[..2] == [events[0], events[1]];
    assert LastAdded(u, events[..2], "a") == Some(u.hash(q2));
  }

  /** Both queries are live and bear id "a", which finds the second. */
  lemma SharedId(u: Setup, q1: string, q2: string) returns (states: seq<Index>, events: seq<Event>)
    requires u.hash(q1) != u.hash(q2) && u.max >= 2
    ensures IsRun(u, states, events) && events == [Event(Add("a", q1, []), 1), Event(Add("a", q2, []), 2)]
    ensures var x, h1, h2 := states[2], u.hash(q1), u.hash(q2);
            && x.statements == map[h1 := NewStatement("a", q1, h1, [], 1), h2 := NewStatement("a", q2, h2, [], 2)]
            && x.byId == map["a" := h2]
  {
    var h1, h2 := u.hash(q1), u.hash(q2);
    var x1 := AfterAdd(NOTHING, "a", q1, h1, [], u.max, "", 1);
    var x2 := AfterAdd(x1, "a", q2, h2, [], u.max, "", 2);
    states, events := [NOTHING, x1, x2], [Event(Add("a", q1, []), 1), Event(Add("a", q2, []), 2)];
    AddIsNext(u, NOTHING, "a", q1, [], "", 1, x1);
    AddIsNext(u, x1, "a", q2, [], "", 2, x2);
  }

  lemma RunOn(u: Setup, states: seq<Index>, events: seq<Event>, event: Event, x: Index)
    requires IsRun(u, states, events) && Next(u, states[|events|], event.op, event.now, x)
    ensures IsRun(u, states + [x], events + [event])
  {
    hide Next;
    var states', events' := states + [x], events + [event];
    forall i | 0 <= i < |events'| ensures Next(u, states'[i], events'[i].op, events'[i].now, states'[i + 1]) {
      if i < |events| {
        assert states'[i] == states[i] && states'[i + 1] == states[i + 1] && events'[i] == events[i];
      }
    }
  }

  /** A third query under a free id evicts the first statement, and with it the id of the second. */
  lemma LostByEviction(u: Setup, q1: string, q2: string, q3: string) returns (states: seq<Index>, events: seq<Event>)
    requires u.hash(q1) != u.hash(q2) && u.hash(q2) != u.hash(q3) && u.hash(q1) != u.hash(q3) && u.max == 2
    ensures IsRun(u, states, events) && |events| == 3 && events[2].op == Add("b", q3, []) && "b" !in states[2].byId
    ensures Find(states[2], "a") == Some(u.hash(q2)) && Find(states[3], "a") == None
    ensures u.hash(q2) in states[3].statements && states[3].statements[u.hash(q2)].id == "a"
  {
    hide AfterAdd, Next, NewStatement;
    var states2, events2 := SharedId(u, q1, q2);
    var x := states2[2];
    ThirdEvicts(u, q1, q2, q3, x);
    var x' := AfterAdd(x, "b", q3, u.hash(q3), [], u.max, u.hash(q1), 3);
    AddIsNext(u, x, "b", q3, [], u.hash(q1), 3, x');
    RunOn(u, states2, events2, Event(Add("b", q3, []), 3), x');
    states, events := states2 + [x'], events2 + [Event(Add("b", q3, []), 3)];
  }

  lemma ThirdEvicts(u: Setup, q1: string, q2: string, q3: string, x: Index)
    requires u.hash(q1) != u.hash(q2) && u.hash(q2) != u.hash(q3) && u.hash(q1) != u.hash(q3) && u.max == 2
    requires var h1, h2 := u.hash(q1), u.hash(q2);
             && x.statements == map[h1 := NewStatement("a", q1, h1, [], 1), h2 := NewStatement("a", q2, h2, [], 2)]
             && x.byId == map["a" := h2]
    ensures Oldest(x, u.hash(q1)) && Find(x, "a") == Some(u.hash(q2))
    ensures var x' := AfterAdd(x, "b", q3, u.hash(q3), [], u.max, u.hash(q1), 3);
            Find(x', "a") == None && u.hash(q2) in x'.statements && x'.statements[u.hash(q2)].id == "a"
  {
    TwoKeys(x.statements, u.hash(q1), u.hash(q2));
  }

  lemma TwoKeys(m: map<Hash, Statement>, a: Hash, b: Hash)
    requires a != b && m.Keys == {a, b}
    ensures |m| == 2
  {
    assert |m| == |m.Keys|;
  }

  /** Cleaning up the first statement, unused for too long, takes the id of the second along. */
  lemma LostByCleanup(u: Setup, q1: string, q2: string) returns (states: seq<Index>, events: seq<Event>)
    requires u.hash(q1) != u.hash(q2) && u.max >= 2 && u.ttl >= 1
    ensures IsRun(u, states, events) && |events| == 3 && events[2].op == Cleanup
    ensures Find(states[2], "a") == Some(u.hash(q2)) && Find(states[3], "a") == None
    ensures u.hash(q2) in states[3].statements && states[3].statements[u.hash(q2)].id == "a"
  {
    var h1, h2 := u.hash(q1), u.hash(q2);
    var states2, events2 := SharedId(u, q1, q2);
    var x := states2[2];
    var x' := AfterCleanup(x, u.ttl + 2, u.ttl);
    assert Stale(x, u.ttl + 2, u.ttl) == {h1};
    assert IdsOf(x, {h1}) == {"a"};
    RunOn(u, states2, events2, Event(Cleanup, u.ttl + 2), x');
    states, events := states2 + [x'], events2 + [Event(Cleanup, u.ttl + 2)];
  }
}
