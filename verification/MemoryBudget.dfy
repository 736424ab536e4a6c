/**
 * The global memory budget: any number of goroutines open and close server connections, charging
 * and freeing one shared counter by compare-and-swap loops.  Every atomic access is one step.
 */
module MemoryBudget {
  const ESTIMATE: int := 8192
  const MAX_RETRIES: nat := 3

  /** The life of one connection, from createServerConn to Close. */
  datatype Phase =
    | Start
    | AllocLoad(limit: int)
    | AllocSwap(limit: int, seen: int)
    | Trying(attempt: nat)
    | Open
    | FreeLoad
    | FreeSwap(seen: int)
    | Gone

  datatype State = State(limit: int, used: int, tasks: map<nat, Phase>)

  datatype Step =
    | Spawn(t: nat)
    | NoBackends(t: nat)
    | ReadLimit(t: nat)
    | LoadForAlloc(t: nat)
    | SwapForAlloc(t: nat)
    | NoHealthyBackend(t: nat)
    | CircuitOpen(t: nat)
    | Connect(t: nat, ok: bool)
    | Close(t: nat)
    | LoadForFree(t: nat)
    | SwapForFree(t: nat)
    | SetLimit(limit: int)

  predicate At(s: State, t: nat, phase: Phase) {
    t in s.tasks && s.tasks[t] == phase
  }

  predicate Enabled(s: State, step: Step) {
    match step
    case Spawn(t) => t !in s.tasks
    case NoBackends(t) => At(s, t, Start)
    case ReadLimit(t) => At(s, t, Start)
    case LoadForAlloc(t) => t in s.tasks && s.tasks[t].AllocLoad?
    case SwapForAlloc(t) => t in s.tasks && s.tasks[t].AllocSwap?
    case NoHealthyBackend(t) => t in s.tasks && s.tasks[t].Trying?
    case CircuitOpen(t) => t in s.tasks && s.tasks[t].Trying?
    case Connect(t, _) => t in s.tasks && s.tasks[t].Trying?
    case Close(t) => At(s, t, Open)
    case LoadForFree(t) => At(s, t, FreeLoad)
    case SwapForFree(t) => t in s.tasks && s.tasks[t].FreeSwap?
    case SetLimit(_) => true
  }

  function Put(s: State, t: nat, phase: Phase): State {
    s.(tasks := s.tasks[t := phase])
  }

  function NextAttempt(attempt: nat): Phase {
    if attempt + 1 < MAX_RETRIES then Trying(attempt + 1) else FreeLoad
  }

  function Apply(s: State, step: Step): State
    requires Enabled(s, step)
  {
    match step
    case Spawn(t) => Put(s, t, Start)
    case NoBackends(t) => Put(s, t, Gone)
    case ReadLimit(t) => Put(s, t, if s.limit == 0 then Trying(0) else AllocLoad(s.limit))
    case LoadForAlloc(t) =>
      var l := s.tasks[t].limit;
      Put(s, t, if s.used + ESTIMATE > l then Gone else AllocSwap(l, s.used))
    case SwapForAlloc(t) =>
      var p := s.tasks[t];
      if s.used == p.seen then Put(s.(used := p.seen + ESTIMATE), t, Trying(0)) else Put(s, t, AllocLoad(p.limit))
    case NoHealthyBackend(t) => Put(s, t, FreeLoad)
    case CircuitOpen(t) => Put(s, t, NextAttempt(s.tasks[t].attempt))
    case Connect(t, ok) => Put(s, t, if ok then Open else NextAttempt(s.tasks[t].attempt))
    case Close(t) => Put(s, t, FreeLoad)
    case LoadForFree(t) => Put(s, t, if s.used < ESTIMATE then Gone else FreeSwap(s.used))
    case SwapForFree(t) =>
      var seen := s.tasks[t].seen;
      if s.used == seen then Put(s.(used := seen - ESTIMATE), t, Gone) else Put(s, t, FreeLoad)
    case SetLimit(limit) => s.(limit := limit)
  }

  ghost predicate IsRun(states: seq<State>, steps: seq<Step>, limit: int) {
    && |states| == |steps| + 1
    && states[0] == State(limit, 0, map[])
    && forall i :: 0 <= i < |steps| ==> Enabled(states[i], steps[i]) && states[i + 1] == Apply(states[i], steps[i])
  }

  // ----- conservation -----

  /** Being created, open, or on its way to giving its share back. */
  predicate Charged(phase: Phase) {
    phase.Trying? || phase.Open? || phase.FreeLoad? || phase.FreeSwap?
  }

  ghost function Chargeable(s: State): set<nat> {
    set t | t in s.tasks && Charged(s.tasks[t])
  }

  ghost predicate Conserved(s: State) {
    s.used == ESTIMATE * |Chargeable(s)|
  }

  lemma PutCharges(s: State, t: nat, phase: Phase)
    ensures |Chargeable(Put(s, t, phase))|
            == |Chargeable(s)| + (if Charged(phase) then 1 else 0) - (if t in s.tasks && Charged(s.tasks[t]) then 1 else 0)
  {
    var before, after := Chargeable(s), Chargeable(Put(s, t, phase));
    if Charged(phase) {
      assert after == before + {t};
    } else {
      assert after == before - {t};
    }
  }

  lemma SomeCharged(s: State, t: nat)
    requires t in s.tasks && Charged(s.tasks[t])
    ensures |Chargeable(s)| >= 1
  {
    assert t in Chargeable(s);
    assert |Chargeable(s) - {t}| == |Chargeable(s)| - 1;
  }

  /** An allocation in progress has seen room; a release in progress has seen a full share. */
  ghost predicate Sane(s: State) {
    && (forall t :: t in s.tasks && s.tasks[t].AllocSwap? ==> s.tasks[t].seen + ESTIMATE <= s.tasks[t].limit)
    && (forall t :: t in s.tasks && s.tasks[t].FreeSwap? ==> s.tasks[t].seen >= ESTIMATE)
  }

  lemma StepSane(s: State, step: Step)
    requires Sane(s) && Enabled(s, step)
    ensures Sane(Apply(s, step))
  {
  }

  predicate Unmetered(s: State, step: Step) {
    step.ReadLimit? && s.limit == 0
  }

  /** Every step keeps the equation, exactly unless it lets a connection through while there is no limit. */
  lemma StepConserves(s: State, step: Step)
    requires Conserved(s) && Enabled(s, step)
    ensures Conserved(Apply(s, step)) <==> !Unmetered(s, step)
  {
    hide Chargeable;
    if step.SetLimit? {
      LimitIgnored(s, step.limit);
    } else {
      var s' := Apply(s, step);
      PutCharges(s, step.t, s'.tasks[step.t]);
      SameTasks(Put(s, step.t, s'.tasks[step.t]), s');
      if step.LoadForFree? {
        SomeCharged(s, step.t);
      }
    }
  }

  lemma LimitIgnored(s: State, limit: int)
    ensures Chargeable(s.(limit := limit)) == Chargeable(s)
  {
  }

  lemma SameTasks(s: State, s': State)
    requires s.tasks == s'.tasks
    ensures Chargeable(s) == Chargeable(s')
  {
  }

  lemma Empty(limit: int)
    ensures Conserved(State(limit, 0, map[])) && Sane(State(limit, 0, map[]))
  {
    assert Chargeable(State(limit, 0, map[])) == {};
  }

  /** However creations and closings interleave, the counter is one share for every connection open, in creation or being freed. */
  lemma {:induction false} BudgetConserved(states: seq<State>, steps: seq<Step>, limit: int, i: nat)
    requires IsRun(states, steps, limit) && i <= |steps|
    requires forall k :: 0 <= k < i ==> !Unmetered(states[k], steps[k])
    ensures Conserved(states[i])
    decreases i
  {
    hide Enabled, Apply, Conserved;
    if i == 0 {
      Empty(limit);
    } else {
      BudgetConserved(states, steps, limit, i - 1);
      StepConserves(states[i - 1], steps[i - 1]);
    }
  }

  /** Free never gives up: while the equation holds, a caller of Free always finds at least its own share. */
  lemma FreeAlwaysFrees(s: State, t: nat)
    requires Conserved(s) && At(s, t, FreeLoad)
    ensures Apply(s, LoadForFree(t)).tasks[t] == FreeSwap(s.used)
  {
    SomeCharged(s, t);
  }

  // ----- the limit -----

  /** No limit now in force or already read is above b, and the counter is within it. */
  ghost predicate Bounded(s: State, b: nat) {
    && s.limit <= b && s.used <= b
    && (forall t :: t in s.tasks && s.tasks[t].AllocLoad? ==> s.tasks[t].limit <= b)
    && (forall t :: t in s.tasks && s.tasks[t].AllocSwap? ==> s.tasks[t].limit <= b)
  }

  lemma StepBounded(s: State, step: Step, b: nat)
    requires Sane(s) && Bounded(s, b) && Enabled(s, step) && (step.SetLimit? ==> step.limit <= b)
    ensures Bounded(Apply(s, step), b)
  {
  }

  /** The counter never exceeds the largest limit ever set. */
  lemma {:induction false} BudgetRespected(states: seq<State>, steps: seq<Step>, limit: int, b: nat, i: nat)
    requires IsRun(states, steps, limit) && i <= |steps| && limit <= b
    requires forall k :: 0 <= k < i && steps[k].SetLimit? ==> steps[k].limit <= b
    ensures states[i].used <= b && Sane(states[i]) && Bounded(states[i], b)
    decreases i
  {
    hide Enabled, Apply;
    if i == 0 {
      Empty(limit);
    } else {
      hide Sane;
      BudgetRespected(states, steps, limit, b, i - 1);
      StepSane(states[i - 1], steps[i - 1]);
      StepBounded(states[i - 1], steps[i - 1], b);
    }
  }

  lemma {:induction false} LimitStays(states: seq<State>, steps: seq<Step>, limit: int, i: nat)
    requires IsRun(states, steps, limit) && i <= |steps|
    requires forall k :: 0 <= k < i ==> !steps[k].SetLimit?
    ensures states[i].limit == limit
    decreases i
  {
    if i > 0 {
      LimitStays(states, steps, limit, i - 1);
      assert Enabled(states[i - 1], steps[i - 1]) && states[i] == Apply(states[i - 1], steps[i - 1]);
    }
  }

  /** With one positive limit throughout, the counter is exact and within the limit in every reachable state. */
  lemma BudgetExact(states: seq<State>, steps: seq<Step>, limit: int, i: nat)
    requires limit > 0 && IsRun(states, steps, limit) && i <= |steps|
    requires forall k :: 0 <= k < |steps| ==> !steps[k].SetLimit?
    ensures states[i].used == 8192 * |Chargeable(states[i])| <= limit
  {
    forall k | 0 <= k < i ensures !Unmetered(states[k], steps[k]) {
      LimitStays(states, steps, limit, k);
    }
    BudgetConserved(states, steps, limit, i);
    BudgetRespected(states, steps, limit, limit, i);
  }

  // ----- single allocations -----

  /** TryAlloc is refused exactly when the share does not fit; with no limit it is always granted. */
  lemma AdmittedExactly(s: State, t: nat)
    ensures At(s, t, Start) ==>
              Apply(s, ReadLimit(t)) == s.(tasks := s.tasks[t := if s.limit == 0 then Trying(0) else AllocLoad(s.limit)])
    ensures t in s.tasks && s.tasks[t].AllocLoad? ==>
              var l, s' := s.tasks[t].limit, Apply(s, LoadForAlloc(t));
              (s'.tasks[t] == Gone <==> s.used + 8192 > l) && (s'.tasks[t] != Gone ==> s'.tasks[t] == AllocSwap(l, s.used)) && s'.used == s.used
    ensures t in s.tasks && s.tasks[t].AllocSwap? ==>
              var s' := Apply(s, SwapForAlloc(t));
              if s.used == s.tasks[t].seen then s'.used == s.used + 8192 && s'.tasks[t] == Trying(0)
              else s'.used == s.used && s'.tasks[t] == AllocLoad(s.tasks[t].limit)
  {
  }

  /** Free gives back one share when no one interferes, and otherwise tries again. */
  lemma FreedExactly(s: State, t: nat)
    requires t in s.tasks && s.tasks[t].FreeSwap?
    ensures var s' := Apply(s, SwapForFree(t));
            if s.used == s.tasks[t].seen then s'.used == s.used - 8192 && s'.tasks[t] == Gone
            else s'.used == s.used && s'.tasks[t] == FreeLoad
  {
  }

  /** Whether a connection attempt fails or its circuit is open, the third failure gives the share back. */
  lemma ThreeAttempts(s: State, t: nat, step: Step)
    requires t in s.tasks && s.tasks[t].Trying? && (step == CircuitOpen(t) || step == Connect(t, false))
    ensures Apply(s, step).tasks[t] == (if s.tasks[t].attempt < 2 then Trying(s.tasks[t].attempt + 1) else FreeLoad)
    ensures Apply(s, Connect(t, true)).tasks[t] == Open && Apply(s, NoHealthyBackend(t)).tasks[t] == FreeLoad
    ensures Apply(s, step).used == Apply(s, Connect(t, true)).used == Apply(s, NoHealthyBackend(t)).used == s.used
  {
  }

  // ----- a limit set while connections are open -----

  lemma Further(states: seq<State>, steps: seq<Step>, limit: int, s: State, step: Step, s': State)
    returns (states': seq<State>, steps': seq<Step>)
    requires IsRun(states, steps, limit) && states[|steps|] == s && Enabled(s, step) && Apply(s, step) == s'
    ensures IsRun(states', steps', limit) && |steps'| == |steps| + 1 && states'[|steps'|] == s'
  {
    hide Enabled, Apply;
    states', steps' := states + [s'], steps + [step];
    forall i | 0 <= i < |steps'| ensures Enabled(states'[i], steps'[i]) && states'[i + 1] == Apply(states'[i], steps'[i]) {
      if i < |steps| {
        assert states'[i] == states[i] && states'[i + 1] == states[i + 1] && steps'[i] == steps[i];
      }
    }
  }

  /** Connection 1 is opened while there is no limit; then the limit is set and connection 2 is opened. */
  lemma BothOpen(limit: int) returns (states: seq<State>, steps: seq<Step>)
    requires limit >= ESTIMATE
    ensures IsRun(states, steps, 0) && states[|steps|] == State(limit, ESTIMATE, map[1 := Open, 2 := Open])
  {
    hide IsRun;
    states, steps := Unlimited();
    var s := State(0, 0, map[1 := Open]);
    var s' := State(limit, 0, map[1 := Open]);
    states, steps := Further(states, steps, 0, s, SetLimit(limit), s');
    s, s' := s', State(limit, 0, map[1 := Open, 2 := Start]);
    states, steps := Further(states, steps, 0, s, Spawn(2), s');
    s, s' := s', State(limit, 0, map[1 := Open, 2 := AllocLoad(limit)]);
    states, steps := Further(states, steps, 0, s, ReadLimit(2), s');
    s, s' := s', State(limit, 0, map[1 := Open, 2 := AllocSwap(limit, 0)]);
    states, steps := Further(states, steps, 0, s, LoadForAlloc(2), s');
    s, s' := s', State(limit, ESTIMATE, map[1 := Open, 2 := Trying(0)]);
    states, steps := Further(states, steps, 0, s, SwapForAlloc(2), s');
    s, s' := s', State(limit, ESTIMATE, map[1 := Open, 2 := Open]);
    states, steps := Further(states, steps, 0, s, Connect(2, true), s');
  }

  lemma Unlimited() returns (states: seq<State>, steps: seq<Step>)
    ensures IsRun(states, steps, 0) && states[|steps|] == State(0, 0, map[1 := Open])
  {
    var s := State(0, 0, map[]);
    states, steps := [s], [];
    var s' := State(0, 0, map[1 := Start]);
    states, steps := Further(states, steps, 0, s, Spawn(1), s');
    s, s' := s', State(0, 0, map[1 := Trying(0)]);
    states, steps := Further(states, steps, 0, s, ReadLimit(1), s');
    s, s' := s', State(0, 0, map[1 := Open]);
    states, steps := Further(states, steps, 0, s, Connect(1, true), s');
  }

  /**
   * A connection opened before any limit was set gives back a share it never took: at the end of
   * this run one connection is open and the counter is at zero.
   */
  lemma UnderCounted(limit: int) returns (states: seq<State>, steps: seq<Step>)
    requires limit >= ESTIMATE
    ensures IsRun(states, steps, 0)
    ensures var s := states[|steps|]; s.limit == limit && s.used == 0 && Chargeable(s) == {2} && s.tasks[2] == Open
  {
    hide IsRun;
    states, steps := BothOpen(limit);
    var s := State(limit, ESTIMATE, map[1 := Open, 2 := Open]);
    var s' := State(limit, ESTIMATE, map[1 := FreeLoad, 2 := Open]);
    states, steps := Further(states, steps, 0, s, Close(1), s');
    s, s' := s', State(limit, ESTIMATE, map[1 := FreeSwap(ESTIMATE), 2 := Open]);
    states, steps := Further(states, steps, 0, s, LoadForFree(1), s');
    s, s' := s', State(limit, 0, map[1 := Gone, 2 := Open]);
    states, steps := Further(states, steps, 0, s, SwapForFree(1), s');
  }
}
