/**
 * The connection pool as a whole: any number of client sessions that acquire, wait for, hand over
 * and release server connections through the three strategies.  Every critical section of the
 * source is one step, so all interleavings of them are runs of this machine.
 */
module PoolSystem {
  import opened Bytes
  import opened ServerConns

  type Sid = nat

  datatype Mode = SessionMode | TransactionMode | StatementMode

  /** Where a session stands between two critical sections. */
  datatype Phase =
    | Ready
    // inside Acquire
    | TryIdle
    | CheckSize
    | Creating
    | Adding(conn: Conn)
    | RetryIdle
    | Queueing
    | Waiting
    | Delivered(conn: Conn)
    | TimedOut
    | Got(conn: Conn)
    // inside Release, and before SetServerConn(nil)
    | Signalling(conn: Conn)
    | Returning(conn: Conn)
    | Clearing

  /** held is the session's serverConn field. */
  datatype Client = Client(mode: Mode, held: Option<Conn>, phase: Phase)

  datatype System = System(
    max: nat,
    idle: seq<Conn>,
    active: map<nat, Conn>,
    queue: seq<Sid>,
    clients: map<Sid, Client>,
    nextId: nat)

  datatype Step =
    | Connect(sid: Sid, mode: Mode)
    | BeginAcquire(sid: Sid)
    | TakeIdle(sid: Sid)
    | Check(sid: Sid)
    | Create(sid: Sid, backend: Option<string>, ok: bool)
    | Add(sid: Sid)
    | TakeIdleAgain(sid: Sid)
    | Join(sid: Sid, accepted: bool)
    | Receive(sid: Sid)
    | Expire(sid: Sid)
    | LeaveQueue(sid: Sid)
    | Keep(sid: Sid)
    | BeginRelease(sid: Sid)
    | Signal(sid: Sid)
    | Return(sid: Sid, resetOk: bool)
    | Clear(sid: Sid)
    | CloseBackend(address: string)

  function Initial(max: nat): System {
    System(max, [], map[], [], map[], 1)
  }

  predicate InPhase(s: System, sid: Sid, phase: Phase) {
    sid in s.clients && s.clients[sid].phase == phase
  }

  /**
   * Session and transaction mode acquire only when no connection is held; statement mode acquires
   * for every query.  A strategy releases only the connection it holds.
   */
  predicate Enabled(s: System, step: Step) {
    match step
    case Connect(sid, _) => sid !in s.clients
    case BeginAcquire(sid) => InPhase(s, sid, Ready) && (s.clients[sid].held.None? || s.clients[sid].mode == StatementMode)
    case TakeIdle(sid) => InPhase(s, sid, TryIdle)
    case Check(sid) => InPhase(s, sid, CheckSize)
    case Create(sid, _, _) => InPhase(s, sid, Creating)
    case Add(sid) => sid in s.clients && s.clients[sid].phase.Adding?
    case TakeIdleAgain(sid) => InPhase(s, sid, RetryIdle)
    case Join(sid, _) => InPhase(s, sid, Queueing)
    case Receive(sid) => sid in s.clients && s.clients[sid].phase.Delivered?
    case Expire(sid) => sid in s.clients && (s.clients[sid].phase.Waiting? || s.clients[sid].phase.Delivered?)
    case LeaveQueue(sid) => InPhase(s, sid, TimedOut)
    case Keep(sid) => sid in s.clients && s.clients[sid].phase.Got?
    case BeginRelease(sid) => InPhase(s, sid, Ready) && s.clients[sid].held.Some?
    case Signal(sid) => sid in s.clients && s.clients[sid].phase.Signalling?
    case Return(sid, _) => sid in s.clients && s.clients[sid].phase.Returning?
    case Clear(sid) => InPhase(s, sid, Clearing)
    case CloseBackend(_) => true
  }

  function Move(s: System, sid: Sid, phase: Phase): System
    requires sid in s.clients
  {
    s.(clients := s.clients[sid := s.clients[sid].(phase := phase)])
  }

  /** serverConnPool.acquire: the last idle connection becomes active, or the caller goes on. */
  function PopIdle(s: System, sid: Sid, otherwise: Phase): System
    requires sid in s.clients
  {
    if s.idle == [] then Move(s, sid, otherwise)
    else
      var c := s.idle[|s.idle| - 1];
      Move(s.(idle := s.idle[..|s.idle| - 1], active := s.active[c.id := c]), sid, Got(c))
  }

  function RemoveSid(q: seq<Sid>, sid: Sid): seq<Sid> {
    if q == [] then [] else if q[0] == sid then q[1..] else [q[0]] + RemoveSid(q[1..], sid)
  }

  /** WaitQueue.Signal: a waiter that has already timed out may still be handed the connection, which is then lost. */
  function HandOver(s: System, w: Sid, c: Conn): System {
    if InPhase(s, w, Waiting) then Move(s, w, Delivered(c)) else s
  }

  function Apply(s: System, step: Step): System
    requires Enabled(s, step)
    ensures forall sid :: sid in s.clients ==> sid in Apply(s, step).clients
  {
    match step
    case Connect(sid, mode) => s.(clients := s.clients[sid := Client(mode, None, Ready)])
    case BeginAcquire(sid) => Move(s, sid, TryIdle)
    case TakeIdle(sid) => PopIdle(s, sid, CheckSize)
    case Check(sid) => Move(s, sid, if |s.idle| + |s.active| < s.max then Creating else RetryIdle)
    case Create(sid, backend, ok) =>
      if ok then Move(s.(nextId := s.nextId + 1), sid, Adding(Conn(s.nextId, backend))) else Move(s, sid, Ready)
    case Add(sid) =>
      var c := s.clients[sid].phase.conn;
      Move(s.(active := s.active[c.id := c]), sid, Got(c))
    case TakeIdleAgain(sid) => PopIdle(s, sid, Queueing)
    case Join(sid, accepted) =>
      if accepted then Move(s.(queue := s.queue + [sid]), sid, Waiting) else Move(s, sid, Ready)
    case Receive(sid) => Move(s, sid, Got(s.clients[sid].phase.conn))
    case Expire(sid) => Move(s, sid, TimedOut)
    case LeaveQueue(sid) => Move(s.(queue := RemoveSid(s.queue, sid)), sid, Ready)
    case Keep(sid) =>
      s.(clients := s.clients[sid := s.clients[sid].(held := Some(s.clients[sid].phase.conn), phase := Ready)])
    case BeginRelease(sid) => Move(s, sid, Signalling(s.clients[sid].held.value))
    case Signal(sid) =>
      var c := s.clients[sid].phase.conn;
      if s.queue == [] then Move(s, sid, Returning(c))
      else Move(HandOver(s.(queue := s.queue[1..]), s.queue[0], c), sid, Clearing)
    case Return(sid, resetOk) =>
      var c := s.clients[sid].phase.conn;
      var idle := if |s.idle| < s.max && resetOk then s.idle + [c] else s.idle;
      Move(s.(active := s.active - {c.id}, idle := idle), sid, Clearing)
    case Clear(sid) => s.(clients := s.clients[sid := s.clients[sid].(held := None, phase := Ready)])
    case CloseBackend(address) => s.(idle := Others(s.idle, address))
  }

  // ----- who has a connection -----

  /** The session may use the connection: it is in its hands inside Acquire or Release, or its serverConn. */
  ghost predicate Owns(c: Client, conn: Conn) {
    || (c.phase.Adding? && c.phase.conn == conn)
    || (c.phase.Delivered? && c.phase.conn == conn)
    || (c.phase.Got? && c.phase.conn == conn)
    || (c.phase.Signalling? && c.phase.conn == conn)
    || (c.phase.Returning? && c.phase.conn == conn)
    || (c.held == Some(conn) && !c.phase.Signalling? && !c.phase.Returning? && !c.phase.Clearing?)
  }

  /**
   * Exclusive ownership: a connection is owned by at most one session, never while idle, and
   * idle and active connections are disjoint.
   */
  ghost predicate Exclusive(s: System) {
    && (forall a, b, x, y :: a in s.clients && b in s.clients && Owns(s.clients[a], x) && Owns(s.clients[b], y) && x.id == y.id ==>
          a == b && x == y)
    && (forall a, x, i :: a in s.clients && Owns(s.clients[a], x) && 0 <= i < |s.idle| ==> x.id != s.idle[i].id)
    && DistinctIds(s.idle)
    && (forall i :: 0 <= i < |s.idle| ==> s.idle[i].id !in s.active)
  }

  // ----- the invariant -----

  datatype Place = InIdle | With(sid: Sid) | Lost | Closed

  type Whereabouts = map<nat, Place>

  ghost predicate At(o: Whereabouts, id: nat, place: Place) {
    id in o && o[id] == place
  }

  ghost predicate IdleOk(idle: seq<Conn>, o: Whereabouts) {
    DistinctIds(idle) && forall i :: 0 <= i < |idle| ==> At(o, idle[i].id, InIdle)
  }

  /** What the pool's tables say about one session. */
  ghost predicate ClientOk(sid: Sid, c: Client, active: map<nat, Conn>, o: Whereabouts) {
    && (forall x :: Owns(c, x) ==> At(o, x.id, With(sid)))
    && (forall x :: Owns(c, x) && c.phase != Adding(x) ==> x.id in active && active[x.id] == x)
    && (c.phase.Adding? ==> c.phase.conn.id !in active)
    && ((c.phase.Adding? || c.phase.Got? || c.phase.Delivered?) && c.held.Some? ==> c.phase.conn.id != c.held.value.id)
    && (c.phase.Signalling? || c.phase.Returning? ==> c.held == Some(c.phase.conn))
  }

  ghost predicate ActiveOk(active: map<nat, Conn>, o: Whereabouts) {
    forall k :: k in active ==> active[k].id == k && k in o && (o[k].With? || o[k].Lost?)
  }

  ghost predicate QueueOk(s: System) {
    && Distinct(s.queue)
    && (forall i :: 0 <= i < |s.queue| ==>
          s.queue[i] in s.clients && (s.clients[s.queue[i]].phase == Waiting || s.clients[s.queue[i]].phase == TimedOut))
  }

  ghost predicate Inv(s: System, o: Whereabouts) {
    && IdleOk(s.idle, o)
    && (forall sid :: sid in s.clients ==> ClientOk(sid, s.clients[sid], s.active, o))
    && ActiveOk(s.active, o)
    && (forall k :: k in o ==> k < s.nextId)
    && QueueOk(s)
  }

  ghost function MarkClosed(o: Whereabouts, ids: set<nat>): Whereabouts {
    map k | k in o.Keys + ids :: if k in ids then Closed else o[k]
  }

  /** Where connections are after a step. */
  ghost function After(o: Whereabouts, s: System, step: Step): Whereabouts
    requires Enabled(s, step)
  {
    match step
    case TakeIdle(sid) => if s.idle == [] then o else o[s.idle[|s.idle| - 1].id := With(sid)]
    case TakeIdleAgain(sid) => if s.idle == [] then o else o[s.idle[|s.idle| - 1].id := With(sid)]
    case Create(sid, _, ok) => if ok then o[s.nextId := With(sid)] else o
    case Expire(sid) => if s.clients[sid].phase.Delivered? then o[s.clients[sid].phase.conn.id := Lost] else o
    case Keep(sid) => if s.clients[sid].held.Some? then o[s.clients[sid].held.value.id := Lost] else o
    case Signal(sid) =>
      if s.queue == [] then o
      else if InPhase(s, s.queue[0], Waiting) then o[s.clients[sid].phase.conn.id := With(s.queue[0])]
      else o[s.clients[sid].phase.conn.id := Lost]
    case Return(sid, resetOk) =>
      o[s.clients[sid].phase.conn.id := if |s.idle| < s.max && resetOk then InIdle else Closed]
    case CloseBackend(address) => MarkClosed(o, Ids(Matching(s.idle, address)))
    case _ => o
  }

  lemma InvIsExclusive(s: System, o: Whereabouts)
    requires Inv(s, o)
    ensures Exclusive(s)
  {
    hide QueueOk;
    forall a, b, x, y | a in s.clients && b in s.clients && Owns(s.clients[a], x) && Owns(s.clients[b], y) && x.id == y.id
      ensures a == b && x == y
    {
      assert ClientOk(a, s.clients[a], s.active, o) && ClientOk(b, s.clients[b], s.active, o);
    }
    forall a, x, i | a in s.clients && Owns(s.clients[a], x) && 0 <= i < |s.idle| ensures x.id != s.idle[i].id {
      assert ClientOk(a, s.clients[a], s.active, o);
    }
  }

  // ----- frames -----

  /** The two tables agree except perhaps on one connection. */
  ghost predicate SameBut<V>(m: map<nat, V>, m': map<nat, V>, id: nat) {
    forall k :: k != id ==> (k in m <==> k in m') && (k in m ==> m'[k] == m[k])
  }

  lemma OtherClientKeeps(b: Sid, c: Client, active: map<nat, Conn>, active': map<nat, Conn>,
                         o: Whereabouts, o': Whereabouts, id: nat)
    requires ClientOk(b, c, active, o) && SameBut(active, active', id) && SameBut(o, o', id) && !At(o, id, With(b))
    ensures ClientOk(b, c, active', o')
  {
    forall x | Owns(c, x) ensures At(o', x.id, With(b)) {
      assert At(o, x.id, With(b));
    }
    if c.phase.Adding? {
      assert Owns(c, c.phase.conn);
    }
  }

  lemma IdleKeeps(idle: seq<Conn>, o: Whereabouts, o': Whereabouts, id: nat)
    requires IdleOk(idle, o) && SameBut(o, o', id) && !At(o, id, InIdle)
    ensures IdleOk(idle, o')
  {
  }

  lemma ActiveKeeps(active: map<nat, Conn>, active': map<nat, Conn>, o: Whereabouts, o': Whereabouts, id: nat)
    requires ActiveOk(active, o) && SameBut(active, active', id) && SameBut(o, o', id)
    requires id in active' ==> active'[id].id == id && id in o' && (o'[id].With? || o'[id].Lost?)
    ensures ActiveOk(active', o')
  {
  }

  /** A step of one session that leaves the tables alone. */
  lemma LocalStep(s: System, o: Whereabouts, sid: Sid, c: Client, queue: seq<Sid>)
    requires Inv(s, o)
    requires ClientOk(sid, c, s.active, o)
    requires QueueOk(s.(clients := s.clients[sid := c], queue := queue))
    ensures Inv(s.(clients := s.clients[sid := c], queue := queue), o)
  {
    hide ClientOk, QueueOk, IdleOk, ActiveOk;
  }

  /** A session outside the queue changes its phase without joining it. */
  lemma QueueKeeps(s: System, sid: Sid, c: Client)
    requires QueueOk(s) && (sid !in s.clients || (s.clients[sid].phase != Waiting && s.clients[sid].phase != TimedOut))
    ensures QueueOk(s.(clients := s.clients[sid := c]))
  {
  }

  /** A step that moves one connection into the hands of session sid, or out of them. */
  lemma MovedConnection(s: System, o: Whereabouts, sid: Sid, c: Client, idle: seq<Conn>, active: map<nat, Conn>,
                        o': Whereabouts, id: nat, nextId: nat)
    requires Inv(s, o) && SameBut(o, o', id) && SameBut(s.active, active, id) && nextId >= s.nextId
    requires forall b :: At(o, id, With(b)) ==> b == sid
    requires id in o' && id < nextId
    requires IdleOk(idle, o') && ClientOk(sid, c, active, o')
    requires id in active ==> active[id].id == id && (o'[id].With? || o'[id].Lost?)
    requires QueueOk(s.(clients := s.clients[sid := c]))
    ensures Inv(s.(clients := s.clients[sid := c], idle := idle, active := active, nextId := nextId), o')
  {
    hide ClientOk, IdleOk;
    var s' := s.(clients := s.clients[sid := c], idle := idle, active := active, nextId := nextId);
    forall b | b in s'.clients ensures ClientOk(b, s'.clients[b], active, o') {
      if b != sid {
        OtherClientKeeps(b, s.clients[b], s.active, active, o, o', id);
      }
    }
    ActiveKeeps(s.active, active, o, o', id);
  }

  // ----- the steps -----

  lemma PopIdleKeeps(s: System, o: Whereabouts, sid: Sid, otherwise: Phase)
    requires Inv(s, o) && sid in s.clients
    requires s.clients[sid].phase == TryIdle || s.clients[sid].phase == RetryIdle
    requires otherwise == CheckSize || otherwise == Queueing
    ensures Inv(PopIdle(s, sid, otherwise), if s.idle == [] then o else o[s.idle[|s.idle| - 1].id := With(sid)])
  {
    var c := s.clients[sid];
    if s.idle == [] {
      QueueKeeps(s, sid, c.(phase := otherwise));
      LocalStep(s, o, sid, c.(phase := otherwise), s.queue);
    } else {
      var n := |s.idle| - 1;
      var x := s.idle[n];
      var o', active := o[x.id := With(sid)], s.active[x.id := x];
      QueueKeeps(s, sid, c.(phase := Got(x)));
      assert IdleOk(s.idle[..n], o');
      assert ClientOk(sid, c.(phase := Got(x)), active, o');
      MovedConnection(s, o, sid, c.(phase := Got(x)), s.idle[..n], active, o', x.id, s.nextId);
    }
  }

  lemma CreateKeeps(s: System, o: Whereabouts, sid: Sid, backend: Option<string>)
    requires Inv(s, o) && InPhase(s, sid, Creating)
    ensures Inv(Apply(s, Create(sid, backend, true)), o[s.nextId := With(sid)])
  {
    var c, x := s.clients[sid], Conn(s.nextId, backend);
    var c', o' := c.(phase := Adding(x)), o[s.nextId := With(sid)];
    QueueKeeps(s, sid, c');
    IdleKeeps(s.idle, o, o', x.id);
    assert s.nextId !in s.active;
    assert ClientOk(sid, c', s.active, o');
    MovedConnection(s, o, sid, c', s.idle, s.active, o', x.id, s.nextId + 1);
  }

  lemma AddKeeps(s: System, o: Whereabouts, sid: Sid)
    requires Inv(s, o) && Enabled(s, Add(sid))
    ensures Inv(Apply(s, Add(sid)), o)
  {
    var c := s.clients[sid];
    var x := c.phase.conn;
    assert ClientOk(sid, c, s.active, o) && Owns(c, x);
    var c', active := c.(phase := Got(x)), s.active[x.id := x];
    QueueKeeps(s, sid, c');
    assert ClientOk(sid, c', active, o);
    MovedConnection(s, o, sid, c', s.idle, active, o, x.id, s.nextId);
  }

  lemma KeepKeeps(s: System, o: Whereabouts, sid: Sid)
    requires Inv(s, o) && Enabled(s, Keep(sid))
    ensures Inv(Apply(s, Keep(sid)), After(o, s, Keep(sid)))
  {
    var c := s.clients[sid];
    var x := c.phase.conn;
    var c', o' := c.(held := Some(x), phase := Ready), After(o, s, Keep(sid));
    assert ClientOk(sid, c, s.active, o) && Owns(c, x);
    QueueKeeps(s, sid, c');
    if c.held.Some? {
      var y := c.held.value;
      assert Owns(c, y);
      IdleKeeps(s.idle, o, o', y.id);
      assert ClientOk(sid, c', s.active, o');
      MovedConnection(s, o, sid, c', s.idle, s.active, o', y.id, s.nextId);
    } else {
      LocalStep(s, o, sid, c', s.queue);
    }
  }

  lemma ReturnKeeps(s: System, o: Whereabouts, sid: Sid, resetOk: bool)
    requires Inv(s, o) && Enabled(s, Return(sid, resetOk))
    ensures Inv(Apply(s, Return(sid, resetOk)), After(o, s, Return(sid, resetOk)))
  {
    var c := s.clients[sid];
    var x := c.phase.conn;
    var c', o', active := c.(phase := Clearing), After(o, s, Return(sid, resetOk)), s.active - {x.id};
    assert ClientOk(sid, c, s.active, o) && Owns(c, x);
    QueueKeeps(s, sid, c');
    IdleKeeps(s.idle, o, o', x.id);
    var idle := if |s.idle| < s.max && resetOk then s.idle + [x] else s.idle;
    assert IdleOk(idle, o');
    MovedConnection(s, o, sid, c', idle, active, o', x.id, s.nextId);
  }

  lemma ExpireKeeps(s: System, o: Whereabouts, sid: Sid)
    requires Inv(s, o) && Enabled(s, Expire(sid))
    ensures Inv(Apply(s, Expire(sid)), After(o, s, Expire(sid)))
  {
    var c := s.clients[sid];
    var c', o' := c.(phase := TimedOut), After(o, s, Expire(sid));
    assert ClientOk(sid, c, s.active, o);
    assert QueueOk(s.(clients := s.clients[sid := c']));
    if c.phase.Delivered? {
      var x := c.phase.conn;
      assert Owns(c, x);
      IdleKeeps(s.idle, o, o', x.id);
      assert ClientOk(sid, c', s.active, o');
      MovedConnection(s, o, sid, c', s.idle, s.active, o', x.id, s.nextId);
    } else {
      LocalStep(s, o, sid, c', s.queue);
    }
  }

  lemma SignalKeeps(s: System, o: Whereabouts, sid: Sid)
    requires Inv(s, o) && Enabled(s, Signal(sid)) && s.queue != []
    ensures Inv(Apply(s, Signal(sid)), After(o, s, Signal(sid)))
  {
    var s', o', w, x := Apply(s, Signal(sid)), After(o, s, Signal(sid)), s.queue[0], s.clients[sid].phase.conn;
    assert ClientOk(sid, s.clients[sid], s.active, o) && Owns(s.clients[sid], x);
    assert s.clients[w].phase == Waiting || s.clients[w].phase == TimedOut;
    IdleKeeps(s.idle, o, o', x.id);
    ActiveKeeps(s.active, s.active, o, o', x.id);
    ReceiverOk(s, o, o', sid, w, x);
    forall b | b in s'.clients ensures ClientOk(b, s'.clients[b], s.active, o') {
      if b != sid && b != w {
        OtherClientKeeps(b, s.clients[b], s.active, s.active, o, o', x.id);
      }
    }
    SignalQueue(s, sid);
  }

  /** The waiter that is handed the connection, or that timed out and is not. */
  lemma ReceiverOk(s: System, o: Whereabouts, o': Whereabouts, sid: Sid, w: Sid, x: Conn)
    requires sid in s.clients && w in s.clients && sid != w && ClientOk(w, s.clients[w], s.active, o)
    requires At(o, x.id, With(sid)) && x.id in s.active && s.active[x.id] == x
    requires s.clients[w].phase == Waiting || s.clients[w].phase == TimedOut
    requires o' == o[x.id := if s.clients[w].phase == Waiting then With(w) else Lost]
    ensures ClientOk(w, HandOver(s, w, x).clients[w], s.active, o')
  {
    var c, c' := s.clients[w], HandOver(s, w, x).clients[w];
    forall y | Owns(c', y) && y != x ensures Owns(c, y) && y.id != x.id {
      assert At(o, y.id, With(w));
    }
    if c.held.Some? {
      assert Owns(c, c.held.value);
    }
  }

  lemma SignalQueue(s: System, sid: Sid)
    requires QueueOk(s) && Enabled(s, Signal(sid)) && s.queue != []
    ensures QueueOk(Apply(s, Signal(sid)))
  {
    var s' := Apply(s, Signal(sid));
    forall i | 0 <= i < |s'.queue|
      ensures s'.queue[i] in s'.clients
              && (s'.clients[s'.queue[i]].phase == Waiting || s'.clients[s'.queue[i]].phase == TimedOut)
    {
      assert s'.queue[i] == s.queue[i + 1] && s.queue[i + 1] != s.queue[0];
    }
  }

  /** Filtering keeps ids distinct, and those kept are not those closed. */
  lemma {:induction false} OthersApart(q: seq<Conn>, address: string)
    requires DistinctIds(q)
    ensures DistinctIds(Others(q, address))
    ensures forall i, j :: 0 <= i < |Others(q, address)| && 0 <= j < |Matching(q, address)| ==>
              Others(q, address)[i].id != Matching(q, address)[j].id
  {
    if q != [] {
      var rest, c := q[..|q| - 1], q[|q| - 1];
      OthersApart(rest, address);
      PartsAvoid(rest, address, c.id);
    }
  }

  lemma PartsAvoid(q: seq<Conn>, address: string, id: nat)
    requires forall i :: 0 <= i < |q| ==> q[i].id != id
    ensures forall i :: 0 <= i < |Others(q, address)| ==> Others(q, address)[i].id != id
    ensures forall i :: 0 <= i < |Matching(q, address)| ==> Matching(q, address)[i].id != id
  {
    BackendPartition(q, address);
    var others, out := Others(q, address), Matching(q, address);
    forall i | 0 <= i < |others| ensures others[i].id != id {
      assert others[i] in q;
    }
    forall i | 0 <= i < |out| ensures out[i].id != id {
      assert out[i] in q;
    }
  }

  /** Only idle connections have changed their place. */
  ghost predicate OnlyIdleMoved(o: Whereabouts, o': Whereabouts) {
    forall k :: k in o && o[k] != InIdle ==> k in o' && o'[k] == o[k]
  }

  lemma ClientUnaffected(b: Sid, c: Client, active: map<nat, Conn>, o: Whereabouts, o': Whereabouts)
    requires ClientOk(b, c, active, o) && OnlyIdleMoved(o, o')
    ensures ClientOk(b, c, active, o')
  {
  }

  lemma ActiveUnaffected(active: map<nat, Conn>, o: Whereabouts, o': Whereabouts)
    requires ActiveOk(active, o) && OnlyIdleMoved(o, o')
    ensures ActiveOk(active, o')
  {
  }

  lemma ClosingMoves(s: System, o: Whereabouts, address: string)
    requires IdleOk(s.idle, o)
    ensures var o' := After(o, s, CloseBackend(address));
            OnlyIdleMoved(o, o') && IdleOk(Others(s.idle, address), o') && o'.Keys == o.Keys
  {
    assert DistinctIds(s.idle);
    hide Matching, Others, MarkClosed, OnlyIdleMoved, IdleOk, Splits, DistinctIds;
    SplitByBackend(s.idle, address);
    Marking(s.idle, Others(s.idle, address), Matching(s.idle, address), o);
  }

  /** The idle connections, split into those that stay and those that are closed. */
  ghost predicate Splits(idle: seq<Conn>, rest: seq<Conn>, out: seq<Conn>) {
    && DistinctIds(rest)
    && (forall x :: x in rest ==> x in idle)
    && (forall x :: x in out ==> x in idle)
    && (forall i, j :: 0 <= i < |rest| && 0 <= j < |out| ==> rest[i].id != out[j].id)
  }

  lemma SplitByBackend(idle: seq<Conn>, address: string)
    requires DistinctIds(idle)
    ensures Splits(idle, Others(idle, address), Matching(idle, address))
  {
    OthersApart(idle, address);
    BackendPartition(idle, address);
  }

  lemma Marking(idle: seq<Conn>, rest: seq<Conn>, out: seq<Conn>, o: Whereabouts)
    requires IdleOk(idle, o) && Splits(idle, rest, out)
    ensures var o' := MarkClosed(o, Ids(out));
            OnlyIdleMoved(o, o') && IdleOk(rest, o') && o'.Keys == o.Keys
  {
    hide DistinctIds;
    var o' := MarkClosed(o, Ids(out));
    forall k | k in Ids(out) ensures At(o, k, InIdle) {
      var j :| 0 <= j < |out| && out[j].id == k;
      assert out[j] in idle;
    }
    forall i | 0 <= i < |rest| ensures At(o', rest[i].id, InIdle) {
      assert rest[i] in idle;
    }
  }

  lemma CloseBackendKeeps(s: System, o: Whereabouts, address: string)
    requires Inv(s, o)
    ensures Inv(Apply(s, CloseBackend(address)), After(o, s, CloseBackend(address)))
  {
    hide ClientOk, IdleOk, ActiveOk, Matching, Others, OnlyIdleMoved;
    var o' := After(o, s, CloseBackend(address));
    ClosingMoves(s, o, address);
    ActiveUnaffected(s.active, o, o');
    forall b | b in s.clients ensures ClientOk(b, s.clients[b], s.active, o') {
      ClientUnaffected(b, s.clients[b], s.active, o, o');
    }
  }

  ghost predicate Distinct(q: seq<Sid>) {
    forall i, j :: 0 <= i < j < |q| ==> q[i] != q[j]
  }

  lemma {:induction false} RemoveSidKeeps(q: seq<Sid>, sid: Sid)
    requires Distinct(q)
    ensures Distinct(RemoveSid(q, sid))
    ensures forall x :: x in RemoveSid(q, sid) ==> x in q && x != sid
  {
    if q != [] && q[0] != sid {
      RemoveSidKeeps(q[1..], sid);
      var r := RemoveSid(q[1..], sid);
      assert forall i :: 0 <= i < |r| ==> r[i] in r;
      assert q[0] !in q[1..];
    }
  }

  lemma LeaveKeeps(s: System, o: Whereabouts, sid: Sid)
    requires Inv(s, o) && Enabled(s, LeaveQueue(sid))
    ensures Inv(Apply(s, LeaveQueue(sid)), o)
  {
    var c, q := s.clients[sid].(phase := Ready), RemoveSid(s.queue, sid);
    assert ClientOk(sid, s.clients[sid], s.active, o);
    RemoveSidKeeps(s.queue, sid);
    forall i | 0 <= i < |q| ensures q[i] in s.queue && q[i] != sid {
      assert q[i] in q;
    }
    LocalStep(s, o, sid, c, q);
  }

  lemma JoinKeeps(s: System, o: Whereabouts, sid: Sid)
    requires Inv(s, o) && InPhase(s, sid, Queueing)
    ensures Inv(Apply(s, Join(sid, true)), o)
  {
    var c := s.clients[sid].(phase := Waiting);
    assert ClientOk(sid, s.clients[sid], s.active, o);
    var s' := s.(clients := s.clients[sid := c], queue := s.queue + [sid]);
    forall i | 0 <= i < |s.queue| ensures s.queue[i] != sid {
      assert s.clients[s.queue[i]].phase == Waiting || s.clients[s.queue[i]].phase == TimedOut;
    }
    assert QueueOk(s');
    LocalStep(s, o, sid, c, s.queue + [sid]);
  }

  /** The steps that only move their own session on. */
  predicate Plain(s: System, step: Step) {
    match step
    case Connect(_, _) => true
    case BeginAcquire(_) => true
    case Check(_) => true
    case Create(_, _, ok) => !ok
    case Join(_, accepted) => !accepted
    case Receive(_) => true
    case BeginRelease(_) => true
    case Signal(_) => s.queue == []
    case Clear(_) => true
    case _ => false
  }

  lemma PlainKeeps(s: System, o: Whereabouts, step: Step)
    requires Inv(s, o) && Enabled(s, step) && Plain(s, step)
    ensures Inv(Apply(s, step), After(o, s, step)) && After(o, s, step) == o
  {
    var sid, c := step.sid, Apply(s, step).clients[step.sid];
    if step.Connect? {
      assert Apply(s, step) == s.(clients := s.clients[sid := c], queue := s.queue);
    } else {
      assert ClientOk(sid, s.clients[sid], s.active, o);
      PlainClient(s, o, step);
      assert Apply(s, step) == s.(clients := s.clients[sid := c], queue := s.queue);
    }
    QueueKeeps(s, sid, c);
    LocalStep(s, o, sid, c, s.queue);
  }

  lemma PlainClient(s: System, o: Whereabouts, step: Step)
    requires Enabled(s, step) && Plain(s, step) && !step.Connect?
    requires ClientOk(step.sid, s.clients[step.sid], s.active, o)
    ensures ClientOk(step.sid, Apply(s, step).clients[step.sid], s.active, o)
    ensures s.clients[step.sid].phase != Waiting && s.clients[step.sid].phase != TimedOut
  {
    var c, c' := s.clients[step.sid], Apply(s, step).clients[step.sid];
    forall x | Owns(c', x) ensures Owns(c, x) && (c.phase == Adding(x) ==> c'.phase == Adding(x)) {
    }
  }

  /** Every step of every session keeps the invariant. */
  lemma StepKeeps(s: System, o: Whereabouts, step: Step)
    requires Inv(s, o) && Enabled(s, step)
    ensures Inv(Apply(s, step), After(o, s, step))
  {
    hide Inv;
    if Plain(s, step) {
      PlainKeeps(s, o, step);
    } else {
      match step {
        case TakeIdle(sid) => PopIdleKeeps(s, o, sid, CheckSize);
        case TakeIdleAgain(sid) => PopIdleKeeps(s, o, sid, Queueing);
        case Create(sid, backend, _) => CreateKeeps(s, o, sid, backend);
        case Add(sid) => AddKeeps(s, o, sid);
        case Join(sid, _) => JoinKeeps(s, o, sid);
        case Expire(sid) => ExpireKeeps(s, o, sid);
        case LeaveQueue(sid) => LeaveKeeps(s, o, sid);
        case Keep(sid) => KeepKeeps(s, o, sid);
        case Signal(sid) => SignalKeeps(s, o, sid);
        case Return(sid, resetOk) => ReturnKeeps(s, o, sid, resetOk);
        case CloseBackend(address) => CloseBackendKeeps(s, o, address);
      }
    }
  }

  // ----- runs -----

  ghost predicate IsRun(states: seq<System>, steps: seq<Step>, max: nat) {
    && |states| == |steps| + 1
    && states[0] == Initial(max)
    && forall i :: 0 <= i < |steps| ==> Enabled(states[i], steps[i]) && states[i + 1] == Apply(states[i], steps[i])
  }

  ghost function WhereaboutsAt(states: seq<System>, steps: seq<Step>, max: nat, i: nat): Whereabouts
    requires IsRun(states, steps, max) && i <= |steps|
  {
    if i == 0 then map[] else After(WhereaboutsAt(states, steps, max, i - 1), states[i - 1], steps[i - 1])
  }

  lemma InitialOk(max: nat)
    ensures Inv(Initial(max), map[])
  {
  }

  lemma {:induction false} RunKeeps(states: seq<System>, steps: seq<Step>, max: nat, i: nat)
    requires IsRun(states, steps, max) && i <= |steps|
    ensures Inv(states[i], WhereaboutsAt(states, steps, max, i))
  {
    hide Inv, After, Apply, Enabled;
    if i == 0 {
      InitialOk(max);
    } else {
      RunKeeps(states, steps, max, i - 1);
      StepKeeps(states[i - 1], WhereaboutsAt(states, steps, max, i - 1), steps[i - 1]);
    }
  }

  /** Exclusive ownership holds in every state of every run. */
  lemma ExclusiveOwnership(states: seq<System>, steps: seq<Step>, max: nat, i: nat)
    requires IsRun(states, steps, max) && i <= |steps|
    ensures Exclusive(states[i])
  {
    hide Inv, Exclusive;
    RunKeeps(states, steps, max, i);
    InvIsExclusive(states[i], WhereaboutsAt(states, steps, max, i));
  }
}
