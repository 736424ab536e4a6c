/**
 * State machine safety over whole runs: no two nodes ever treat different entries as committed at
 * the same index, in every run in which followers report only what they share with the leader and
 * leaders take confirmations only from their own term.
 */
module RaftStateMachineSafety {
  import opened RaftTypes
  import opened RaftStep
  import opened RaftCluster
  import opened RaftInvariant
  import opened RaftSafety
  import opened RaftTheorems
  import opened RaftEvidence
  import opened RaftCommit
  import opened RaftCommitSteps
  import opened RaftCommitAppend

  /** A follower that confirms a request reports only entries it shares with the leader. */
  ghost predicate SharesReport(c: Cluster, a: Action)
    requires Enabled(c, a)
  {
    a.Deliver? && a.m.body.AppendEntries? ==>
      var n := Stepped(c.nodes[a.m.to], a.m.term);
      Accepts(n, a.m.body) ==> ReportsOnlyShared(n, a.m.body)
  }

  /** A leader counts a confirmation only in the term in which it was given. */
  ghost predicate CountsInTerm(c: Cluster, a: Action)
    requires Enabled(c, a)
  {
    a.Deliver? && a.m.body.AppendResponse? && a.m.body.success ==>
      var n := Stepped(c.nodes[a.m.to], a.m.term);
      n.role == Leader ==> a.m.body.term == n.currentTerm
  }

  ghost predicate ConfirmsSoundly(c: Cluster, a: Action)
    requires Enabled(c, a)
  {
    SharesReport(c, a) && CountsInTerm(c, a)
  }

  ghost predicate IsGuardedRun(states: seq<Cluster>, actions: seq<Action>) {
    && IsTimelyRun(states, actions)
    && forall i :: 0 <= i < |actions| ==> ConfirmsSoundly(states[i], actions[i])
  }

  ghost predicate CommitInv(c: Cluster, h: History, x: Evidence) {
    && EvidenceInv(c.nodes.Keys, h, x)
    && (forall id :: id in c.nodes ==> NodeOk(c.nodes.Keys, c.nodes[id], h, x))
    && (forall m :: m in c.net ==> MessageOk(c.nodes.Keys, m, h, x))
  }

  // ----- one step -----

  lemma MessageCommit(ids: set<Id>, n: NodeData, h: History, x: Evidence, m: Message)
    requires HistoryInv(ids, h) && NodeInv(ids, n, h) && EvidenceInv(ids, h, x) && NodeOk(ids, n, h, x)
    requires MessageInv(ids, m, h) && MessageOk(ids, m, h, x) && m.to == n.id && m.term <= n.currentTerm
    requires m.body.VoteResponse? && m.body.granted && n.role == Candidate ==> m.term == n.currentTerm
    requires m.body.AppendEntries? && Accepts(n, m.body) ==> ReportsOnlyShared(n, m.body)
    requires m.body.AppendResponse? && m.body.success && n.role == Leader ==> m.body.term == n.currentTerm
    requires StepOk(ids, h, OnMessage(n, m))
    ensures CommitStepOk(ids, h, x, OnMessage(n, m))
  {
    hide EvidenceInv, HistoryInv, NodeInv, NodeOk, CommitStepOk, StepOk, Accepts, ReportsOnlyShared;
    match m.body {
      case VoteRequest(_, _, _, _) => VoteRequestCommit(ids, n, h, x, m.from, m.body);
      case VoteResponse(_, _) => VoteResponseCommit(ids, n, h, x, m.from, m.body);
      case AppendEntries(_, _, _, _, _, _) => AppendEntriesCommit(ids, n, h, x, m.from, m.body);
      case AppendResponse(_, _, _) =>
        ResponseNodeInv(ids, n, h, m);
        AppendResponseCommit(ids, n, h, x, m.from, m.body);
    }
  }

  lemma ResponseNodeInv(ids: set<Id>, n: NodeData, h: History, m: Message)
    requires HistoryInv(ids, h) && NodeInv(ids, n, h) && m.body.AppendResponse? && m.body.term <= n.currentTerm
    ensures NodeInv(ids, OnAppendResponse(n, m.from, m.body), h)
  {
    hide HistoryInv, LogOk;
    var n' := OnAppendResponse(n, m.from, m.body);
    forall t: nat | Led(h, t, n'.id)
      ensures t < n.currentTerm || (t == n.currentTerm && n.role == Leader)
    {
      assert Led(h, t, n.id);
    }
  }

  lemma NodeCommit(ids: set<Id>, n: NodeData, h: History, x: Evidence, a: Action)
    requires HistoryInv(ids, h) && NodeInv(ids, n, h) && EvidenceInv(ids, h, x) && NodeOk(ids, n, h, x)
    requires !a.Deliver? && StepOk(ids, h, Run1(n, a))
    ensures CommitStepOk(ids, h, x, Run1(n, a))
  {
    hide EvidenceInv, HistoryInv, NodeInv, NodeOk, CommitStepOk, StepOk;
    match a {
      case Timeout(_) => TimeoutCommit(ids, n, h, x);
      case ProposeAt(_, command) => ProposeCommit(ids, n, h, x, command);
      case Heartbeat(_) => HeartbeatCommit(ids, n, h, x);
    }
  }

  lemma SteppedOk(ids: set<Id>, n: NodeData, h: History, x: Evidence, term: nat)
    requires NodeInv(ids, n, h) && NodeOk(ids, n, h, x)
    ensures NodeInv(ids, Stepped(n, term), h) && NodeOk(ids, Stepped(n, term), h, x)
    ensures Stepped(n, term).id == n.id && term <= Stepped(n, term).currentTerm
  {
    if term > n.currentTerm {
      FollowerKeeps(ids, n, h, term);
      FollowerOk(ids, n, h, x, term);
    }
  }

  lemma SteppedSame(n: NodeData, m: Message)
    ensures OnMessage(n, m) == OnMessage(Stepped(n, m.term), m)
  {
    hide OnVoteRequest, OnVoteResponse, OnAppendEntries, OnAppendResponse;
  }

  lemma DeliverCommit(ids: set<Id>, n: NodeData, h: History, x: Evidence, m: Message)
    requires HistoryInv(ids, h) && NodeInv(ids, n, h) && EvidenceInv(ids, h, x) && NodeOk(ids, n, h, x)
    requires MessageInv(ids, m, h) && MessageOk(ids, m, h, x) && m.to == n.id
    requires m.body.VoteResponse? && m.body.granted && n.role == Candidate ==> m.term >= n.currentTerm
    requires var s := Stepped(n, m.term);
             && (m.body.AppendEntries? && Accepts(s, m.body) ==> ReportsOnlyShared(s, m.body))
             && (m.body.AppendResponse? && m.body.success && s.role == Leader ==> m.body.term == s.currentTerm)
    ensures CommitStepOk(ids, h, x, OnMessage(n, m))
  {
    hide EvidenceInv, HistoryInv, NodeInv, NodeOk, CommitStepOk, StepOk, Accepts, ReportsOnlyShared, OnMessage;
    SteppedOk(ids, n, h, x, m.term);
    SteppedSame(n, m);
    MessageStepOk(ids, n, h, m);
    MessageCommit(ids, Stepped(n, m.term), h, x, m);
  }

  lemma ActorCommit(c: Cluster, h: History, x: Evidence, a: Action)
    requires Inv(c, h) && CommitInv(c, h, x) && Enabled(c, a)
    requires CountsNoStaleVote(c, a) && ConfirmsSoundly(c, a)
    ensures CommitStepOk(c.nodes.Keys, h, x, EffectOf(c, a))
  {
    hide EvidenceInv, HistoryInv, NodeInv, NodeOk, CommitStepOk, StepOk, OnMessage, Accepts, ReportsOnlyShared,
         MessageInv, MessageOk;
    var ids, n := c.nodes.Keys, c.nodes[Actor(a)];
    ActorStepOk(c, h, a);
    if a.Deliver? {
      DeliverCommit(ids, n, h, x, a.m);
    } else {
      NodeCommit(ids, n, h, x, a);
    }
  }

  lemma StepKeepsCommitInv(c: Cluster, h: History, x: Evidence, a: Action)
    requires Inv(c, h) && CommitInv(c, h, x) && Enabled(c, a)
    requires CountsNoStaleVote(c, a) && ConfirmsSoundly(c, a)
    ensures var e := EffectOf(c, a);
            && CommitInv(Apply(c, a), Record(h, e), File(x, h, e))
            && Adds(Actor(a), e.node.currentTerm, x, File(x, h, e))
  {
    hide EvidenceInv, HistoryInv, NodeInv, NodeOk, Extends, Adds, Run1, Record, File, MessageOk, MessageInv, ConfirmsSoundly;
    var c', e, ids := Apply(c, a), EffectOf(c, a), c.nodes.Keys;
    var h', x' := Record(h, e), File(x, h, e);
    ActorCommit(c, h, x, a);
    ActorStepOk(c, h, a);
    StepKeepsInv(c, h, a);
    assert c'.nodes.Keys == ids;
    forall id | id in c'.nodes ensures NodeOk(ids, c'.nodes[id], h', x') {
      if id != Actor(a) {
        OtherNodeStays(ids, Actor(a), e.node.currentTerm, h, h', x, x', c.nodes[id]);
      }
    }
    forall m | m in c'.net ensures MessageOk(ids, m, h', x') {
      if m in c.net {
        MessageStays(ids, Actor(a), e.node.currentTerm, h, h', x, x', m);
      } else {
        var i :| 0 <= i < |e.sent| && e.sent[i] == m;
      }
    }
  }

  // ----- whole runs -----

  ghost function EvidenceAt(states: seq<Cluster>, actions: seq<Action>, i: nat): Evidence
    requires IsRun(states, actions) && i <= |actions|
  {
    if i == 0 then EMPTY_EVIDENCE
    else File(EvidenceAt(states, actions, i - 1), HistoryAt(states, actions, i - 1), EffectOf(states[i - 1], actions[i - 1]))
  }

  lemma InitCommitInv(c: Cluster)
    requires Init(c)
    ensures CommitInv(c, EMPTY_HISTORY, EMPTY_EVIDENCE)
  {
  }

  lemma {:induction false} RunKeepsCommitInv(states: seq<Cluster>, actions: seq<Action>, i: nat)
    requires IsGuardedRun(states, actions) && i <= |actions|
    ensures CommitInv(states[i], HistoryAt(states, actions, i), EvidenceAt(states, actions, i))
  {
    hide CommitInv, Inv, Record, File, Run1, Init;
    if i == 0 {
      InitCommitInv(states[0]);
    } else {
      RunKeepsCommitInv(states, actions, i - 1);
      RunKeepsInv(states, actions, i - 1);
      StepKeepsCommitInv(states[i - 1], HistoryAt(states, actions, i - 1), EvidenceAt(states, actions, i - 1), actions[i - 1]);
    }
  }

  lemma RunAdds(states: seq<Cluster>, actions: seq<Action>, i: nat)
    requires IsGuardedRun(states, actions) && i < |actions|
    ensures Adds(Actor(actions[i]), EffectOf(states[i], actions[i]).node.currentTerm,
                 EvidenceAt(states, actions, i), EvidenceAt(states, actions, i + 1))
  {
    hide CommitInv, Inv, Record, File, Run1, Adds;
    RunKeepsCommitInv(states, actions, i);
    RunKeepsInv(states, actions, i);
    StepKeepsCommitInv(states[i], HistoryAt(states, actions, i), EvidenceAt(states, actions, i), actions[i]);
  }

  /** What was committed stays committed. */
  lemma {:induction false} SoundOverRun(states: seq<Cluster>, actions: seq<Action>, i: nat, j: nat, log: seq<Entry>, c: nat, hi: nat)
    requires IsGuardedRun(states, actions) && i <= j <= |actions|
    requires Sound(states[i].nodes.Keys, HistoryAt(states, actions, i), EvidenceAt(states, actions, i), log, c, hi)
    ensures Sound(states[i].nodes.Keys, HistoryAt(states, actions, j), EvidenceAt(states, actions, j), log, c, hi)
    decreases j
  {
    hide Record, File, Run1, Adds, Extends, Committed;
    if i < j {
      SoundOverRun(states, actions, i, j - 1, log, c, hi);
      RunExtends(states, actions, j - 1);
      RunAdds(states, actions, j - 1);
      SoundStays(states[i].nodes.Keys, Actor(actions[j - 1]), EffectOf(states[j - 1], actions[j - 1]).node.currentTerm,
                 HistoryAt(states, actions, j - 1), HistoryAt(states, actions, j),
                 EvidenceAt(states, actions, j - 1), EvidenceAt(states, actions, j), log, log, c, hi, hi);
    }
  }

  lemma SoundAt(states: seq<Cluster>, actions: seq<Action>, i: nat, j: nat, a: Id)
    requires IsGuardedRun(states, actions) && i <= j <= |actions| && a in states[i].nodes
    ensures var n := states[i].nodes[a];
            Sound(states[0].nodes.Keys, HistoryAt(states, actions, j), EvidenceAt(states, actions, j), n.log, n.commitIndex, n.currentTerm)
  {
    hide Sound, Record, File, Run1, EvidenceInv, Inv;
    RunKeepsCommitInv(states, actions, i);
    RunKeepsInv(states, actions, i);
    var n := states[i].nodes[a];
    assert NodeOk(states[i].nodes.Keys, n, HistoryAt(states, actions, i), EvidenceAt(states, actions, i));
    SoundOverRun(states, actions, i, j, n.log, n.commitIndex, n.currentTerm);
  }

  lemma SoundLogsAgree(ids: set<Id>, h: History, x: Evidence, p: seq<Entry>, c: nat, s: nat, q: seq<Entry>, d: nat, t: nat, k: nat)
    requires HistoryInv(ids, h) && EvidenceInv(ids, h, x)
    requires Sound(ids, h, x, p, c, s) && Sound(ids, h, x, q, d, t) && k < c && k < d
    ensures p[k] == q[k]
  {
    hide HistoryInv, EvidenceInv;
    var u: nat, i: nat :| u <= s && c <= i && Committed(ids, h, x, u, i) && p[..c] == h.logs[u][..c];
    var v: nat, j: nat :| v <= t && d <= j && Committed(ids, h, x, v, j) && q[..d] == h.logs[v][..d];
    assert p[k] == p[..c][k] == h.logs[u][k] && q[k] == q[..d][k] == h.logs[v][k];
    if u < v {
      LeaderCompleteness(ids, h, x, u, i, v);
      assert h.logs[u][..i][k] == h.logs[v][k];
    } else if v < u {
      LeaderCompleteness(ids, h, x, v, j, u);
      assert h.logs[v][..j][k] == h.logs[u][k];
    }
  }

  /**
   * State machine safety: in a guarded run, whenever two nodes, at the same or at different times,
   * have a commit index beyond position k, both logs reach that far and hold the same entry there.
   */
  lemma StateMachineSafety(states: seq<Cluster>, actions: seq<Action>, i: nat, j: nat, a: Id, b: Id, k: nat)
    requires IsGuardedRun(states, actions) && i <= j <= |actions|
    requires a in states[i].nodes && k < states[i].nodes[a].commitIndex
    requires b in states[j].nodes && k < states[j].nodes[b].commitIndex
    ensures k < |states[i].nodes[a].log| && k < |states[j].nodes[b].log|
    ensures states[i].nodes[a].log[k] == states[j].nodes[b].log[k]
  {
    hide EvidenceInv, HistoryInv, NodeInv, NodeOk, Record, File, Run1, Committed, Init;
    var h, x, ids := HistoryAt(states, actions, j), EvidenceAt(states, actions, j), states[0].nodes.Keys;
    SoundAt(states, actions, i, j, a);
    SoundAt(states, actions, j, j, b);
    RunKeepsInv(states, actions, j);
    RunKeepsCommitInv(states, actions, j);
    var m, n := states[i].nodes[a], states[j].nodes[b];
    SoundLogsAgree(ids, h, x, m.log, m.commitIndex, m.currentTerm, n.log, n.commitIndex, n.currentTerm, k);
  }
}
