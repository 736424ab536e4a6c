/**
 * Where the paths through Acquire and Release end when nothing interferes: who then holds what, and
 * what the pool's tables and queue are.
 */
module PoolPaths {
  import opened Bytes
  import opened ServerConns
  import opened PoolSystem

  /** The steps are enabled one after the other, and lead from s to s'. */
  ghost predicate Leads(s: System, steps: seq<Step>, s': System)
    decreases |steps|
  {
    if steps == [] then s == s'
    else Enabled(s, steps[0]) && Leads(Apply(s, steps[0]), steps[1..], s')
  }

  ghost predicate Goes(s: System, step: Step, s': System) {
    Enabled(s, step) && Apply(s, step) == s'
  }

  lemma LeadsOn(s: System, step: Step, s1: System, steps: seq<Step>, s': System)
    requires Goes(s, step, s1) && Leads(s1, steps, s')
    ensures Leads(s, [step] + steps, s')
  {
    hide Enabled, Apply;
    assert ([step] + steps)[1..] == steps;
  }

  lemma Stops(s: System)
    ensures Leads(s, [], s)
  {
  }

  ghost function WithClient(s: System, sid: Sid, held: Option<Conn>, phase: Phase): System
    requires sid in s.clients
  {
    s.(clients := s.clients[sid := Client(s.clients[sid].mode, held, phase)])
  }

  /** A session that may acquire. */
  ghost predicate MayAcquire(s: System, sid: Sid) {
    InPhase(s, sid, Ready) && (s.clients[sid].held.None? || s.clients[sid].mode == StatementMode)
  }

  // ----- acquiring -----

  /** The connection that was returned last. */
  function Newest(s: System): Conn
    requires s.idle != []
  {
    s.idle[|s.idle| - 1]
  }

  lemma TakesIdleStates(s: System, sid: Sid) returns (s1: System, s2: System, s3: System)
    requires MayAcquire(s, sid) && s.idle != []
    ensures Goes(s, BeginAcquire(sid), s1) && Goes(s1, TakeIdle(sid), s2) && Goes(s2, Keep(sid), s3)
    ensures s3 == WithClient(s, sid, Some(Newest(s)), Ready).(idle := s.idle[..|s.idle| - 1], active := s.active[Newest(s).id := Newest(s)])
  {
    s1 := Apply(s, BeginAcquire(sid));
    s2 := Apply(s1, TakeIdle(sid));
    s3 := Apply(s2, Keep(sid));
  }

  /** With a connection idle, the session ends up holding the one returned last, and it is active. */
  lemma TakesIdle(s: System, sid: Sid)
    requires MayAcquire(s, sid) && s.idle != []
    ensures Leads(s, [BeginAcquire(sid)] + ([TakeIdle(sid)] + ([Keep(sid)] + [])),
                  WithClient(s, sid, Some(Newest(s)), Ready).(idle := s.idle[..|s.idle| - 1], active := s.active[Newest(s).id := Newest(s)]))
  {
    hide Goes, Leads, InPhase;
    var s1, s2, s3 := TakesIdleStates(s, sid);
    Stops(s3);
    LeadsOn(s2, Keep(sid), s3, [], s3);
    LeadsOn(s1, TakeIdle(sid), s2, [Keep(sid)] + [], s3);
    LeadsOn(s, BeginAcquire(sid), s1, [TakeIdle(sid)] + ([Keep(sid)] + []), s3);
  }

  /** What the check of the pool's size decides. */
  lemma CheckDecides(s: System, sid: Sid)
    requires InPhase(s, sid, CheckSize)
    ensures Apply(s, Check(sid)) ==
            WithClient(s, sid, s.clients[sid].held, if |s.idle| + |s.active| < s.max then Creating else RetryIdle)
  {
  }

  lemma CreatesStates(s: System, sid: Sid, backend: Option<string>) returns (s1: System, s2: System, s3: System)
    requires InPhase(s, sid, Creating)
    ensures Goes(s, Create(sid, backend, true), s1) && Goes(s1, Add(sid), s2) && Goes(s2, Keep(sid), s3)
    ensures s3 == WithClient(s, sid, Some(Conn(s.nextId, backend)), Ready).(active := s.active[s.nextId := Conn(s.nextId, backend)], nextId := s.nextId + 1)
  {
    s1 := Apply(s, Create(sid, backend, true));
    s2 := Apply(s1, Add(sid));
    s3 := Apply(s2, Keep(sid));
  }

  /** Below the maximum a new connection is made, with an id never used before; it is active and held. */
  lemma Creates(s: System, sid: Sid, backend: Option<string>)
    requires InPhase(s, sid, Creating)
    ensures Leads(s, [Create(sid, backend, true)] + ([Add(sid)] + ([Keep(sid)] + [])),
                  WithClient(s, sid, Some(Conn(s.nextId, backend)), Ready).(active := s.active[s.nextId := Conn(s.nextId, backend)], nextId := s.nextId + 1))
  {
    hide Goes, Leads, InPhase;
    var s1, s2, s3 := CreatesStates(s, sid, backend);
    Stops(s3);
    LeadsOn(s2, Keep(sid), s3, [], s3);
    LeadsOn(s1, Add(sid), s2, [Keep(sid)] + [], s3);
    LeadsOn(s, Create(sid, backend, true), s1, [Add(sid)] + ([Keep(sid)] + []), s3);
  }

  lemma CreationFails(s: System, sid: Sid, backend: Option<string>)
    requires InPhase(s, sid, Creating)
    ensures Apply(s, Create(sid, backend, false)) == WithClient(s, sid, s.clients[sid].held, Ready)
  {
  }

  lemma FullPoolWaitsStates(s: System, sid: Sid, accepted: bool) returns (s1: System, s2: System, s3: System)
    requires InPhase(s, sid, CheckSize) && s.idle == [] && |s.active| >= s.max
    ensures Goes(s, Check(sid), s1) && Goes(s1, TakeIdleAgain(sid), s2) && Goes(s2, Join(sid, accepted), s3)
    ensures s3 == if accepted then WithClient(s, sid, s.clients[sid].held, Waiting).(queue := s.queue + [sid])
                  else WithClient(s, sid, s.clients[sid].held, Ready)
  {
    s1 := Apply(s, Check(sid));
    s2 := Apply(s1, TakeIdleAgain(sid));
    s3 := Apply(s2, Join(sid, accepted));
  }

  /** A session that finds the pool full and nothing idle goes to the end of the queue, or is sent away. */
  lemma FullPoolWaits(s: System, sid: Sid, accepted: bool)
    requires InPhase(s, sid, CheckSize) && s.idle == [] && |s.active| >= s.max
    ensures Leads(s, [Check(sid)] + ([TakeIdleAgain(sid)] + ([Join(sid, accepted)] + [])),
                  if accepted then WithClient(s, sid, s.clients[sid].held, Waiting).(queue := s.queue + [sid])
                  else WithClient(s, sid, s.clients[sid].held, Ready))
  {
    hide Goes, Leads, InPhase;
    var s1, s2, s3 := FullPoolWaitsStates(s, sid, accepted);
    Stops(s3);
    LeadsOn(s2, Join(sid, accepted), s3, [], s3);
    LeadsOn(s1, TakeIdleAgain(sid), s2, [Join(sid, accepted)] + [], s3);
    LeadsOn(s, Check(sid), s1, [TakeIdleAgain(sid)] + ([Join(sid, accepted)] + []), s3);
  }

  lemma ReceiverHoldsStates(s: System, sid: Sid) returns (s1: System, s2: System)
    requires sid in s.clients && s.clients[sid].phase.Delivered?
    ensures Goes(s, Receive(sid), s1) && Goes(s1, Keep(sid), s2)
    ensures s2 == WithClient(s, sid, Some(s.clients[sid].phase.conn), Ready)
  {
    s1 := Apply(s, Receive(sid));
    s2 := Apply(s1, Keep(sid));
  }

  /** A delivered connection ends up held by its waiter, and nothing else changes. */
  lemma ReceiverHolds(s: System, sid: Sid)
    requires sid in s.clients && s.clients[sid].phase.Delivered?
    ensures Leads(s, [Receive(sid)] + ([Keep(sid)] + []),
                  WithClient(s, sid, Some(s.clients[sid].phase.conn), Ready))
  {
    hide Goes, Leads, InPhase;
    var s1, s2 := ReceiverHoldsStates(s, sid);
    Stops(s2);
    LeadsOn(s1, Keep(sid), s2, [], s2);
    LeadsOn(s, Receive(sid), s1, [Keep(sid)] + [], s2);
  }

  lemma GivesUpStates(s: System, sid: Sid, before: seq<Sid>, after: seq<Sid>) returns (s1: System, s2: System)
    requires InPhase(s, sid, Waiting) && s.queue == before + [sid] + after && sid !in before
    ensures Goes(s, Expire(sid), s1) && Goes(s1, LeaveQueue(sid), s2)
    ensures s2 == WithClient(s, sid, s.clients[sid].held, Ready).(queue := before + after)
  {
    RemovesOne(before, sid, after);
    s1 := Apply(s, Expire(sid));
    s2 := Apply(s1, LeaveQueue(sid));
  }

  /** A waiter whose time is up leaves the queue, which keeps everyone else in order, and holds nothing new. */
  lemma GivesUp(s: System, sid: Sid, before: seq<Sid>, after: seq<Sid>)
    requires InPhase(s, sid, Waiting) && s.queue == before + [sid] + after && sid !in before
    ensures Leads(s, [Expire(sid)] + ([LeaveQueue(sid)] + []),
                  WithClient(s, sid, s.clients[sid].held, Ready).(queue := before + after))
  {
    hide Goes, Leads, InPhase;
    var s1, s2 := GivesUpStates(s, sid, before, after);
    Stops(s2);
    LeadsOn(s1, LeaveQueue(sid), s2, [], s2);
    LeadsOn(s, Expire(sid), s1, [LeaveQueue(sid)] + [], s2);
  }

  lemma {:induction false} RemovesOne(before: seq<Sid>, sid: Sid, after: seq<Sid>)
    requires sid !in before
    ensures RemoveSid(before + [sid] + after, sid) == before + after
  {
    var q := before + [sid] + after;
    if before == [] {
      assert q == [sid] + after && before + after == after;
    } else {
      assert q[1..] == before[1..] + [sid] + after;
      RemovesOne(before[1..], sid, after);
      assert [before[0]] + (before[1..] + after) == before + after;
    }
  }

  // ----- releasing -----

  ghost predicate MayRelease(s: System, sid: Sid) {
    InPhase(s, sid, Ready) && s.clients[sid].held.Some?
  }

  lemma ReturnsToPoolStates(s: System, sid: Sid, resetOk: bool) returns (s1: System, s2: System, s3: System, s4: System)
    requires MayRelease(s, sid) && s.queue == []
    ensures Goes(s, BeginRelease(sid), s1) && Goes(s1, Signal(sid), s2) && Goes(s2, Return(sid, resetOk), s3) && Goes(s3, Clear(sid), s4)
    ensures s4 == WithClient(s, sid, None, Ready).(active := s.active - {s.clients[sid].held.value.id},
                       idle := if |s.idle| < s.max && resetOk then s.idle + [s.clients[sid].held.value] else s.idle)
  {
    s1 := Apply(s, BeginRelease(sid));
    s2 := Apply(s1, Signal(sid));
    s3 := Apply(s2, Return(sid, resetOk));
    s4 := Apply(s3, Clear(sid));
  }

  /** With no one waiting, a released connection becomes idle if there is room and it could be reset, and is closed otherwise. */
  lemma ReturnsToPool(s: System, sid: Sid, resetOk: bool)
    requires MayRelease(s, sid) && s.queue == []
    ensures Leads(s, [BeginRelease(sid)] + ([Signal(sid)] + ([Return(sid, resetOk)] + ([Clear(sid)] + []))),
                  WithClient(s, sid, None, Ready).(active := s.active - {s.clients[sid].held.value.id},
                       idle := if |s.idle| < s.max && resetOk then s.idle + [s.clients[sid].held.value] else s.idle))
  {
    hide Goes, Leads, InPhase;
    var s1, s2, s3, s4 := ReturnsToPoolStates(s, sid, resetOk);
    Stops(s4);
    LeadsOn(s3, Clear(sid), s4, [], s4);
    LeadsOn(s2, Return(sid, resetOk), s3, [Clear(sid)] + [], s4);
    LeadsOn(s1, Signal(sid), s2, [Return(sid, resetOk)] + ([Clear(sid)] + []), s4);
    LeadsOn(s, BeginRelease(sid), s1, [Signal(sid)] + ([Return(sid, resetOk)] + ([Clear(sid)] + [])), s4);
  }

  lemma HandedOverStates(s: System, sid: Sid, w: Sid) returns (s1: System, s2: System, s3: System, s4: System, s5: System)
    requires MayRelease(s, sid) && s.queue != [] && s.queue[0] == w && InPhase(s, w, Waiting)
    ensures Goes(s, BeginRelease(sid), s1) && Goes(s1, Signal(sid), s2) && Goes(s2, Clear(sid), s3) && Goes(s3, Receive(w), s4) && Goes(s4, Keep(w), s5)
    ensures s5 == WithClient(WithClient(s, sid, None, Ready), w, Some(s.clients[sid].held.value), Ready).(queue := s.queue[1..])
  {
    s1 := Apply(s, BeginRelease(sid));
    s2 := Apply(s1, Signal(sid));
    s3 := Apply(s2, Clear(sid));
    s4 := Apply(s3, Receive(w));
    s5 := Apply(s4, Keep(w));
  }

  /** With someone waiting, the one at the head of the queue ends up holding the released connection, and it stays active. */
  lemma HandedOver(s: System, sid: Sid, w: Sid)
    requires MayRelease(s, sid) && s.queue != [] && s.queue[0] == w && InPhase(s, w, Waiting)
    ensures Leads(s, [BeginRelease(sid)] + ([Signal(sid)] + ([Clear(sid)] + ([Receive(w)] + ([Keep(w)] + [])))),
                  WithClient(WithClient(s, sid, None, Ready), w, Some(s.clients[sid].held.value), Ready).(queue := s.queue[1..]))
  {
    hide Goes, Leads, InPhase;
    var s1, s2, s3, s4, s5 := HandedOverStates(s, sid, w);
    Stops(s5);
    LeadsOn(s4, Keep(w), s5, [], s5);
    LeadsOn(s3, Receive(w), s4, [Keep(w)] + [], s5);
    LeadsOn(s2, Clear(sid), s3, [Receive(w)] + ([Keep(w)] + []), s5);
    LeadsOn(s1, Signal(sid), s2, [Clear(sid)] + ([Receive(w)] + ([Keep(w)] + [])), s5);
    LeadsOn(s, BeginRelease(sid), s1, [Signal(sid)] + ([Clear(sid)] + ([Receive(w)] + ([Keep(w)] + []))), s5);
  }

  /** A connection delivered to a waiter whose time is up is left active, and the waiter goes without it. */
  lemma DeliveryMissed(s: System, sid: Sid)
    requires sid in s.clients && s.clients[sid].phase.Delivered?
    ensures Goes(s, Expire(sid), WithClient(s, sid, s.clients[sid].held, TimedOut))
  {
  }

  /** A connection released to a waiter whose time is already up is left active too, and no longer held by the releaser. */
  lemma SignalsTooLate(s: System, sid: Sid)
    requires sid in s.clients && s.clients[sid].phase.Signalling? && s.queue != [] && !InPhase(s, s.queue[0], Waiting)
    ensures Goes(s, Signal(sid), WithClient(s, sid, s.clients[sid].held, Clearing).(queue := s.queue[1..]))
  {
  }

  /** Closing a backend takes exactly its idle connections out of the pool. */
  lemma ClosesBackend(s: System, address: string)
    ensures var s' := Apply(s, CloseBackend(address));
            s' == s.(idle := s'.idle) && multiset(s.idle) == multiset(s'.idle) + multiset(Matching(s.idle, address))
    ensures forall c :: c in Apply(s, CloseBackend(address)).idle ==> c.backend != Some(address)
  {
    hide Others, Matching, OfBackend, Apply;
    BackendPartition(s.idle, address);
    CloseIs(s, address);
    NotOf(s.idle, address);
  }

  lemma CloseIs(s: System, address: string)
    ensures Apply(s, CloseBackend(address)) == s.(idle := Others(s.idle, address))
  {
  }

  lemma NotOf(idle: seq<Conn>, address: string)
    ensures forall c :: c in Others(idle, address) ==> c.backend != Some(address)
  {
    BackendPartition(idle, address);
  }
}
