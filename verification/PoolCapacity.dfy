/**
 * How far concurrent acquirers can push the pool past MaxServerConnections: the capacity check and
 * addActive are separate critical sections, so every acquirer between them may add one connection.
 */
module PoolCapacity {
  import opened Bytes
  import opened ServerConns
  import opened PoolSystem

  /** The sessions between a passed capacity check and addActive. */
  ghost function InFlight(s: System): set<Sid> {
    set sid | sid in s.clients && (s.clients[sid].phase.Creating? || s.clients[sid].phase.Adding?)
  }

  function Size(s: System): nat {
    |s.idle| + |s.active|
  }

  ghost predicate Within(s: System, c: nat) {
    Size(s) + |InFlight(s)| < s.max + c
  }

  lemma InFlightIgnores(s: System, s': System)
    requires s'.clients == s.clients
    ensures InFlight(s') == InFlight(s)
  {
  }

  lemma PopIdleSize(s: System, o: Whereabouts, sid: Sid, otherwise: Phase)
    requires Inv(s, o) && sid in s.clients && sid !in InFlight(s) && (otherwise == CheckSize || otherwise == Queueing)
    ensures Size(PopIdle(s, sid, otherwise)) == Size(s)
    ensures InFlight(PopIdle(s, sid, otherwise)) == InFlight(s)
  {
    if s.idle != [] {
      var x := s.idle[|s.idle| - 1];
      assert At(o, x.id, InIdle);
      assert x.id !in s.active;
      assert |s.active[x.id := x]| == |s.active| + 1;
    }
  }

  lemma AddSize(s: System, o: Whereabouts, sid: Sid)
    requires Inv(s, o) && Enabled(s, Add(sid))
    ensures Size(Apply(s, Add(sid))) + |InFlight(Apply(s, Add(sid)))| == Size(s) + |InFlight(s)|
  {
    var x := s.clients[sid].phase.conn;
    assert ClientOk(sid, s.clients[sid], s.active, o);
    assert |s.active[x.id := x]| == |s.active| + 1;
    assert InFlight(Apply(s, Add(sid))) == InFlight(s) - {sid};
  }

  lemma ReturnSize(s: System, o: Whereabouts, sid: Sid, resetOk: bool)
    requires Inv(s, o) && Enabled(s, Return(sid, resetOk))
    ensures Size(Apply(s, Return(sid, resetOk))) <= Size(s)
    ensures InFlight(Apply(s, Return(sid, resetOk))) == InFlight(s)
  {
    var x := s.clients[sid].phase.conn;
    assert ClientOk(sid, s.clients[sid], s.active, o) && Owns(s.clients[sid], x);
    assert s.active == (s.active - {x.id})[x.id := x];
    assert |s.active| == |s.active - {x.id}| + 1;
  }

  lemma SignalSize(s: System, sid: Sid)
    requires Enabled(s, Signal(sid))
    ensures Size(Apply(s, Signal(sid))) == Size(s) && InFlight(Apply(s, Signal(sid))) == InFlight(s)
  {
  }

  lemma {:induction false} OthersShorter(q: seq<Conn>, address: string)
    ensures |Others(q, address)| <= |q|
  {
    if q != [] {
      OthersShorter(q[..|q| - 1], address);
    }
  }

  lemma StandingSize(s: System, step: Step)
    requires Enabled(s, step) && (step.Check? || step.Connect? || step.BeginAcquire? || step.Join? || step.Receive?
                                  || step.Expire? || step.LeaveQueue? || step.Keep? || step.BeginRelease? || step.Clear?)
    ensures Size(Apply(s, step)) == Size(s)
    ensures !step.Check? ==> InFlight(Apply(s, step)) == InFlight(s)
  {
  }

  lemma CloseSize(s: System, address: string)
    ensures Size(Apply(s, CloseBackend(address))) <= Size(s)
    ensures InFlight(Apply(s, CloseBackend(address))) == InFlight(s)
  {
    OthersShorter(s.idle, address);
    InFlightIgnores(s, Apply(s, CloseBackend(address)));
  }

  lemma CreateSize(s: System, sid: Sid, backend: Option<string>, ok: bool)
    requires Enabled(s, Create(sid, backend, ok))
    ensures Size(Apply(s, Create(sid, backend, ok))) == Size(s)
    ensures |InFlight(Apply(s, Create(sid, backend, ok)))| <= |InFlight(s)|
  {
    assert InFlight(Apply(s, Create(sid, backend, ok))) == if ok then InFlight(s) else InFlight(s) - {sid};
  }

  /** Steps other than the capacity check never grow size and in-flight sessions together. */
  lemma QuietSize(s: System, o: Whereabouts, step: Step)
    requires Inv(s, o) && Enabled(s, step) && !step.Check?
    ensures Size(Apply(s, step)) + |InFlight(Apply(s, step))| <= Size(s) + |InFlight(s)|
  {
    hide Inv;
    match step {
      case TakeIdle(sid) => PopIdleSize(s, o, sid, CheckSize);
      case TakeIdleAgain(sid) => PopIdleSize(s, o, sid, Queueing);
      case Add(sid) => AddSize(s, o, sid);
      case Return(sid, resetOk) => ReturnSize(s, o, sid, resetOk);
      case Signal(sid) => SignalSize(s, sid);
      case CloseBackend(address) =>
        CloseSize(s, address);
      case Create(sid, backend, ok) => CreateSize(s, sid, backend, ok);
      case _ =>
        StandingSize(s, step);
    }
  }

  lemma StepWithin(s: System, o: Whereabouts, step: Step, c: nat)
    requires Inv(s, o) && Enabled(s, step) && Within(s, c) && |InFlight(Apply(s, step))| <= c
    ensures Within(Apply(s, step), c)
  {
    if step.Check? {
      hide Inv;
      if Size(s) < s.max {
      } else {
        assert InFlight(Apply(s, step)) == InFlight(s);
      }
    } else {
      QuietSize(s, o, step);
      MaxStays(s, step);
    }
  }

  lemma MaxStays(s: System, step: Step)
    requires Enabled(s, step)
    ensures Apply(s, step).max == s.max
  {
  }

  lemma InitialWithin(max: nat, c: nat)
    requires c >= 1
    ensures Within(Initial(max), c) && Initial(max).max == max
  {
    assert InFlight(Initial(max)) == {};
  }

  lemma {:induction false} RunWithin(states: seq<System>, steps: seq<Step>, max: nat, c: nat, i: nat)
    requires IsRun(states, steps, max) && i <= |steps| && c >= 1
    requires forall j :: 0 <= j <= |steps| ==> |InFlight(states[j])| <= c
    ensures Within(states[i], c) && states[i].max == max
  {
    hide Inv, Enabled, Apply, InFlight, Within, WhereaboutsAt;
    if i == 0 {
      InitialWithin(max, c);
    } else {
      RunWithin(states, steps, max, c, i - 1);
      RunKeeps(states, steps, max, i - 1);
      assert states[i] == Apply(states[i - 1], steps[i - 1]) && |InFlight(states[i])| <= c;
      StepWithin(states[i - 1], WhereaboutsAt(states, steps, max, i - 1), steps[i - 1], c);
      MaxStays(states[i - 1], steps[i - 1]);
    }
  }

  /** With at most c acquirers in flight at any time, the pool never exceeds its maximum by more than c - 1. */
  lemma CapacityUnderRaces(states: seq<System>, steps: seq<Step>, max: nat, c: nat, i: nat)
    requires IsRun(states, steps, max) && i <= |steps| && c >= 1
    requires forall j :: 0 <= j <= |steps| ==> |InFlight(states[j])| <= c
    ensures |states[i].idle| + |states[i].active| <= max - 1 + c
  {
    hide InFlight, IsRun;
    RunWithin(states, steps, max, c, i);
  }

  // ----- the bound is reached -----

  /** n sessions: the first g have got a connection, the next p have passed the check, the rest are ready. */
  ghost function Crowd(max: nat, n: nat, g: nat, p: nat): System {
    System(max, [], Numbered(g), [], Crowded(n, g, p), g + 1)
  }

  ghost function Numbered(g: nat): (m: map<nat, Conn>)
    ensures forall k :: k in m <==> 1 <= k <= g
    ensures forall k :: k in m ==> m[k] == Conn(k, None)
    ensures |m| == g
  {
    if g == 0 then map[] else Numbered(g - 1)[g := Conn(g, None)]
  }

  ghost function Crowded(n: nat, g: nat, p: nat): (m: map<Sid, Client>)
    ensures forall i :: i in m <==> 0 <= i < n
    ensures forall i :: i in m ==> m[i] == Client(StatementMode, None, PhaseOf(i, g, p))
  {
    if n == 0 then map[] else Crowded(n - 1, g, p)[n - 1 := Client(StatementMode, None, PhaseOf(n - 1, g, p))]
  }

  function PhaseOf(i: nat, g: nat, p: nat): Phase {
    if i < g then Got(Conn(i + 1, None)) else if i < g + p then Creating else Ready
  }

  ghost function Range(lo: nat, hi: nat): (r: set<nat>)
    requires lo <= hi
    ensures forall i :: i in r <==> lo <= i < hi
    ensures |r| == hi - lo
    decreases hi - lo
  {
    if lo == hi then {} else Range(lo, hi - 1) + {hi - 1}
  }

  lemma CrowdCounts(max: nat, n: nat, g: nat, p: nat)
    requires g + p <= n
    ensures |InFlight(Crowd(max, n, g, p))| == p && Size(Crowd(max, n, g, p)) == g
  {
    hide Numbered, Crowded, Range;
    var s := Crowd(max, n, g, p);
    assert InFlight(s) == Range(g, g + p);
  }

  /** A run to s with at most c acquirers in flight throughout. */
  ghost predicate Leads(states: seq<System>, steps: seq<Step>, max: nat, c: nat, s: System) {
    && IsRun(states, steps, max) && states[|steps|] == s
    && forall j :: 0 <= j <= |steps| ==> |InFlight(states[j])| <= c
  }

  ghost predicate Takes(s: System, step: Step, s': System) {
    Enabled(s, step) && Apply(s, step) == s'
  }

  lemma Extended(states: seq<System>, steps: seq<Step>, max: nat, c: nat, s: System, step: Step, s': System)
    returns (states': seq<System>, steps': seq<Step>)
    requires Leads(states, steps, max, c, s) && Takes(s, step, s') && |InFlight(s')| <= c
    ensures Leads(states', steps', max, c, s')
  {
    hide Apply, Enabled, InFlight;
    states', steps' := states + [s'], steps + [step];
    forall i | 0 <= i < |steps'| ensures Enabled(states'[i], steps'[i]) && states'[i + 1] == Apply(states'[i], steps'[i]) {
      if i < |steps| {
        assert states'[i] == states[i] && states'[i + 1] == states[i + 1] && steps'[i] == steps[i];
      }
    }
    forall j | 0 <= j <= |steps'| ensures |InFlight(states'[j])| <= c {
      assert j <= |steps| ==> states'[j] == states[j];
    }
  }

  /** The crowd with the next session on its way to the capacity check. */
  ghost function Coming(max: nat, n: nat, g: nat, p: nat, phase: Phase): System
    requires g + p < n
  {
    var s := Crowd(max, n, g, p);
    s.(clients := s.clients[g + p := Client(StatementMode, None, phase)])
  }

  lemma ComingCounts(max: nat, n: nat, g: nat, p: nat, phase: Phase)
    requires g + p < n && (phase.TryIdle? || phase.CheckSize?)
    ensures |InFlight(Coming(max, n, g, p, phase))| == p
  {
    hide Numbered, Crowded, Range;
    CrowdCounts(max, n, g, p);
    assert InFlight(Coming(max, n, g, p, phase)) == InFlight(Crowd(max, n, g, p));
  }

  lemma Comes(max: nat, n: nat, g: nat, p: nat)
    requires g + p < n
    ensures var s, s' := Crowd(max, n, g, p), Coming(max, n, g, p, TryIdle);
            Takes(s, BeginAcquire(g + p), s')
  {
    hide Numbered, Crowded;
  }

  lemma FindsNoneIdle(max: nat, n: nat, g: nat, p: nat)
    requires g + p < n
    ensures var s, s' := Coming(max, n, g, p, TryIdle), Coming(max, n, g, p, CheckSize);
            Takes(s, TakeIdle(g + p), s')
  {
    hide Numbered, Crowded;
  }

  lemma PassesCheck(max: nat, n: nat, g: nat, p: nat)
    requires g + p < n && g < max
    ensures var s, s' := Coming(max, n, g, p, CheckSize), Crowd(max, n, g, p + 1);
            Takes(s, Check(g + p), s')
  {
    hide Numbered, Crowded;
    CrowdCounts(max, n, g, p);
    hide InFlight;
    var s := Coming(max, n, g, p, CheckSize);
    assert s.idle == [] && |s.active| < max;
    assert s.clients[g + p := Client(StatementMode, None, Creating)] == Crowd(max, n, g, p + 1).clients;
  }

  /** One more session passes the capacity check. */
  lemma OneMoreChecks(states: seq<System>, steps: seq<Step>, max: nat, c: nat, n: nat, g: nat, p: nat)
    returns (states': seq<System>, steps': seq<Step>)
    requires Leads(states, steps, max, c, Crowd(max, n, g, p)) && g + p < n && g < max && p < c
    ensures Leads(states', steps', max, c, Crowd(max, n, g, p + 1))
  {
    hide Takes, InFlight, Crowd, Coming, Leads;
    var sid, s1, s2 := g + p, Coming(max, n, g, p, TryIdle), Coming(max, n, g, p, CheckSize);
    Comes(max, n, g, p);
    ComingCounts(max, n, g, p, TryIdle);
    states', steps' := Extended(states, steps, max, c, Crowd(max, n, g, p), BeginAcquire(sid), s1);
    FindsNoneIdle(max, n, g, p);
    ComingCounts(max, n, g, p, CheckSize);
    states', steps' := Extended(states', steps', max, c, s1, TakeIdle(sid), s2);
    PassesCheck(max, n, g, p);
    CrowdCounts(max, n, g, p + 1);
    states', steps' := Extended(states', steps', max, c, s2, Check(sid), Crowd(max, n, g, p + 1));
  }

  /** The crowd with the first session in flight holding a new connection it has not added. */
  ghost function Holding(max: nat, n: nat, g: nat, p: nat): System {
    var s := Crowd(max, n, g, p + 1);
    s.(nextId := g + 2, clients := s.clients[g := Client(StatementMode, None, Adding(Conn(g + 1, None)))])
  }

  lemma HoldingCounts(max: nat, n: nat, g: nat, p: nat)
    requires g + p < n
    ensures |InFlight(Holding(max, n, g, p))| == p + 1
  {
    hide Numbered, Crowded, Range;
    CrowdCounts(max, n, g, p + 1);
    assert InFlight(Holding(max, n, g, p)) == InFlight(Crowd(max, n, g, p + 1));
  }

  lemma Creates(max: nat, n: nat, g: nat, p: nat)
    requires g + p < n
    ensures var s, s' := Crowd(max, n, g, p + 1), Holding(max, n, g, p);
            Takes(s, Create(g, None, true), s')
  {
    hide Numbered, Crowded;
  }

  lemma NumberedNext(g: nat)
    ensures Numbered(g)[g + 1 := Conn(g + 1, None)] == Numbered(g + 1)
  {
  }

  lemma CrowdedNext(n: nat, g: nat, p: nat, phase: Phase)
    requires g < n
    ensures Crowded(n, g, p + 1)[g := Client(StatementMode, None, phase)][g := Client(StatementMode, None, Got(Conn(g + 1, None)))]
            == Crowded(n, g + 1, p)
  {
    hide Crowded;
  }

  lemma AddTakes(s: System, sid: Sid, x: Conn, s': System)
    requires sid in s.clients && s.clients[sid].phase == Adding(x)
    requires s' == s.(active := s.active[x.id := x], clients := s.clients[sid := s.clients[sid].(phase := Got(x))])
    ensures Takes(s, Add(sid), s')
  {
  }

  lemma Adds(max: nat, n: nat, g: nat, p: nat)
    requires g + p < n
    ensures var s, s' := Holding(max, n, g, p), Crowd(max, n, g + 1, p);
            Takes(s, Add(g), s')
  {
    NumberedNext(g);
    CrowdedNext(n, g, p, Adding(Conn(g + 1, None)));
    hide Numbered, Crowded, Takes;
    AddTakes(Holding(max, n, g, p), g, Conn(g + 1, None), Crowd(max, n, g + 1, p));
  }

  /** The first of the sessions in flight creates its connection and adds it. */
  lemma OneMoreAdds(states: seq<System>, steps: seq<Step>, max: nat, c: nat, n: nat, g: nat, p: nat)
    returns (states': seq<System>, steps': seq<Step>)
    requires Leads(states, steps, max, c, Crowd(max, n, g, p + 1)) && g + p < n && p < c
    ensures Leads(states', steps', max, c, Crowd(max, n, g + 1, p))
  {
    hide Takes, InFlight, Crowd, Holding, Leads;
    var s1 := Holding(max, n, g, p);
    Creates(max, n, g, p);
    HoldingCounts(max, n, g, p);
    states', steps' := Extended(states, steps, max, c, Crowd(max, n, g, p + 1), Create(g, None, true), s1);
    Adds(max, n, g, p);
    CrowdCounts(max, n, g + 1, p);
    states', steps' := Extended(states', steps', max, c, s1, Add(g), Crowd(max, n, g + 1, p));
  }

  lemma Alone(max: nat, c: nat)
    ensures Leads([Initial(max)], [], max, c, Crowd(max, 0, 0, 0))
  {
    CrowdCounts(max, 0, 0, 0);
    assert Initial(max) == Crowd(max, 0, 0, 0);
  }

  lemma OneMoreConnects(max: nat, n: nat)
    ensures Takes(Crowd(max, n, 0, 0), Connect(n, StatementMode), Crowd(max, n + 1, 0, 0))
  {
    hide Numbered, Crowded;
    assert Crowd(max, n, 0, 0).clients[n := Client(StatementMode, None, Ready)] == Crowd(max, n + 1, 0, 0).clients;
    assert Crowd(max, n, 0, 0).active == Crowd(max, n + 1, 0, 0).active;
  }

  lemma {:induction false} Connected(max: nat, c: nat, n: nat) returns (states: seq<System>, steps: seq<Step>)
    ensures Leads(states, steps, max, c, Crowd(max, n, 0, 0))
  {
    hide Leads, Crowd, Takes, InFlight;
    if n == 0 {
      states, steps := [Initial(max)], [];
      Alone(max, c);
    } else {
      states, steps := Connected(max, c, n - 1);
      OneMoreConnects(max, n - 1);
      CrowdCounts(max, n, 0, 0);
      states, steps := Extended(states, steps, max, c, Crowd(max, n - 1, 0, 0), Connect(n - 1, StatementMode),
                                Crowd(max, n, 0, 0));
    }
  }

  lemma {:induction false} Filled(max: nat, c: nat, n: nat, g: nat) returns (states: seq<System>, steps: seq<Step>)
    requires g < max && g <= n && c >= 1
    ensures Leads(states, steps, max, c, Crowd(max, n, g, 0))
    decreases g
  {
    hide Leads, Crowd;
    if g == 0 {
      states, steps := Connected(max, c, n);
    } else {
      states, steps := Filled(max, c, n, g - 1);
      states, steps := OneMoreChecks(states, steps, max, c, n, g - 1, 0);
      states, steps := OneMoreAdds(states, steps, max, c, n, g - 1, 0);
    }
  }

  lemma {:induction false} Crammed(max: nat, c: nat, n: nat, p: nat) returns (states: seq<System>, steps: seq<Step>)
    requires max >= 1 && c >= 1 && p <= c && max - 1 + c <= n
    ensures Leads(states, steps, max, c, Crowd(max, n, max - 1, p))
    decreases p
  {
    hide Leads, Crowd;
    if p == 0 {
      states, steps := Filled(max, c, n, max - 1);
    } else {
      states, steps := Crammed(max, c, n, p - 1);
      states, steps := OneMoreChecks(states, steps, max, c, n, max - 1, p - 1);
    }
  }

  lemma {:induction false} Overfull(max: nat, c: nat, n: nat, d: nat) returns (states: seq<System>, steps: seq<Step>)
    requires max >= 1 && c >= 1 && d <= c && max - 1 + c <= n
    ensures Leads(states, steps, max, c, Crowd(max, n, max - 1 + d, c - d))
    decreases d
  {
    hide Leads, Crowd;
    if d == 0 {
      states, steps := Crammed(max, c, n, c);
    } else {
      states, steps := Overfull(max, c, n, d - 1);
      states, steps := OneMoreAdds(states, steps, max, c, n, max - 1 + d - 1, c - d);
    }
  }

  /** The bound is exact: for every maximum and every c, some run with at most c in flight reaches it. */
  lemma CapacityBoundReached(max: nat, c: nat) returns (states: seq<System>, steps: seq<Step>)
    requires max >= 1 && c >= 1
    ensures IsRun(states, steps, max) && forall j :: 0 <= j <= |steps| ==> |InFlight(states[j])| <= c
    ensures var s := states[|steps|]; |s.idle| + |s.active| == max - 1 + c
  {
    hide Crowd, InFlight;
    var n := max - 1 + c;
    states, steps := Overfull(max, c, n, c);
    CrowdCounts(max, n, n, 0);
  }
}
