/** Safety over whole runs: election safety, log matching and follower agreement. */
module RaftTheorems {
  import opened RaftTypes
  import opened RaftLog
  import opened RaftStep
  import opened RaftCluster
  import opened RaftInvariant
  import opened RaftSafety

  // ----- one step of the cluster -----

  /** The node as handleMessage hands it on to the handler of the message. */
  ghost function Stepped(n: NodeData, term: nat): NodeData {
    if term > n.currentTerm then BecomeFollower(n, term) else n
  }

  lemma MessageStepOk(ids: set<Id>, n: NodeData, h: History, m: Message)
    requires HistoryInv(ids, h) && NodeInv(ids, n, h) && MessageInv(ids, m, h) && m.to == n.id
    requires m.body.VoteResponse? && m.body.granted && n.role == Candidate ==> m.term >= n.currentTerm
    ensures StepOk(ids, h, OnMessage(n, m))
  {
    var n1 := if m.term > n.currentTerm then BecomeFollower(n, m.term) else n;
    if m.term > n.currentTerm {
      FollowerKeeps(ids, n, h, m.term);
    }
    match m.body {
      case VoteRequest(_, _, _, _) => VoteRequestKeeps(ids, n1, h, m.from, m.body);
      case VoteResponse(_, _) => VoteResponseKeeps(ids, n1, h, m.from, m.body);
      case AppendEntries(_, _, _, _, _, _) => AppendEntriesKeeps(ids, n1, h, m.from, m.body);
      case AppendResponse(_, _, _) => AppendResponseKeeps(ids, n1, h, m.from, m.body);
    }
  }

  ghost function EffectOf(c: Cluster, a: Action): Effect
    requires Enabled(c, a)
  {
    Run1(c.nodes[Actor(a)], a)
  }

  lemma NodeStepOk(ids: set<Id>, n: NodeData, h: History, a: Action)
    requires HistoryInv(ids, h) && NodeInv(ids, n, h)
    requires a.Deliver? ==> MessageInv(ids, a.m, h) && a.m.to == n.id
    requires a.Deliver? && a.m.body.VoteResponse? && a.m.body.granted && n.role == Candidate ==>
               a.m.term >= n.currentTerm
    ensures StepOk(ids, h, Run1(n, a))
  {
    match a {
      case Deliver(m) => MessageStepOk(ids, n, h, m);
      case Timeout(_) => TimeoutKeeps(ids, n, h);
      case ProposeAt(_, command) => ProposeKeeps(ids, n, h, command);
      case Heartbeat(_) => HeartbeatKeeps(ids, n, h);
    }
  }

  lemma IdStays(n: NodeData, a: Action)
    ensures Run1(n, a).node.id == n.id
  {
    if a.Deliver? {
      var n1 := Stepped(n, a.m.term);
      match a.m.body {
        case VoteRequest(_, _, _, _) => assert OnVoteRequest(n1, a.m.from, a.m.body).node.id == n.id;
        case VoteResponse(_, _) => assert OnVoteResponse(n1, a.m.from, a.m.body).id == n.id;
        case AppendEntries(_, _, _, _, _, _) => assert OnAppendEntries(n1, a.m.from, a.m.body).node.id == n.id;
        case AppendResponse(_, _, _) => assert OnAppendResponse(n1, a.m.from, a.m.body).id == n.id;
      }
    }
  }

  lemma ActorStepOk(c: Cluster, h: History, a: Action)
    requires Inv(c, h) && Enabled(c, a) && CountsNoStaleVote(c, a)
    ensures StepOk(c.nodes.Keys, h, EffectOf(c, a)) && EffectOf(c, a).node.id == Actor(a)
  {
    IdStays(c.nodes[Actor(a)], a);
    NodeStepOk(c.nodes.Keys, c.nodes[Actor(a)], h, a);
  }

  lemma StepKeepsInv(c: Cluster, h: History, a: Action)
    requires Inv(c, h) && Enabled(c, a) && CountsNoStaleVote(c, a)
    ensures Inv(Apply(c, a), Record(h, EffectOf(c, a)))
    ensures Extends(Actor(a), h, Record(h, EffectOf(c, a)))
  {
    var c', e := Apply(c, a), EffectOf(c, a);
    var h', ids := Record(h, e), c.nodes.Keys;
    ActorStepOk(c, h, a);
    assert c'.nodes.Keys == ids;
    forall id | id in c'.nodes ensures c'.nodes[id].id == id && NodeInv(ids, c'.nodes[id], h') {
      if id != Actor(a) {
        OtherNodesKeep(Actor(a), ids, c.nodes[id], h, h');
      }
    }
    forall m | m in c'.net ensures MessageInv(ids, m, h') {
      if m in c.net {
        MessageKeeps(Actor(a), ids, m, h, h');
      } else {
        var i :| 0 <= i < |e.sent| && e.sent[i] == m;
      }
    }
  }

  // ----- whole runs -----

  /** The history a run has left behind when it reaches states[i]. */
  ghost function HistoryAt(states: seq<Cluster>, actions: seq<Action>, i: nat): History
    requires IsRun(states, actions) && i <= |actions|
  {
    if i == 0 then EMPTY_HISTORY
    else Record(HistoryAt(states, actions, i - 1), EffectOf(states[i - 1], actions[i - 1]))
  }

  lemma {:induction false} RunKeepsInv(states: seq<Cluster>, actions: seq<Action>, i: nat)
    requires IsTimelyRun(states, actions) && i <= |actions|
    ensures Inv(states[i], HistoryAt(states, actions, i))
    ensures states[i].nodes.Keys == states[0].nodes.Keys
  {
    if i > 0 {
      RunKeepsInv(states, actions, i - 1);
      StepKeepsInv(states[i - 1], HistoryAt(states, actions, i - 1), actions[i - 1]);
    }
  }

  /** What a later history still says about an earlier one. */
  ghost predicate Grows(h: History, h': History) {
    && (forall t :: t in h.leaders ==> t in h'.leaders && h'.leaders[t] == h.leaders[t])
    && (forall t :: t in h.logs ==> t in h'.logs && h.logs[t] <= h'.logs[t])
  }

  lemma {:induction false} HistoryGrows(states: seq<Cluster>, actions: seq<Action>, i: nat, j: nat)
    requires IsTimelyRun(states, actions) && i <= j <= |actions|
    ensures Grows(HistoryAt(states, actions, i), HistoryAt(states, actions, j))
    decreases j
  {
    if i < j {
      HistoryGrows(states, actions, i, j - 1);
      RunExtends(states, actions, j - 1);
      GrowsThenExtends(Actor(actions[j - 1]), HistoryAt(states, actions, i), HistoryAt(states, actions, j - 1),
                       HistoryAt(states, actions, j));
    }
  }

  lemma GrowsThenExtends(a: Id, h: History, h': History, h'': History)
    requires Grows(h, h') && Extends(a, h', h'')
    ensures Grows(h, h'')
  {
    forall t | t in h.logs ensures t in h''.logs && h.logs[t] <= h''.logs[t] {
      assert h.logs[t] <= h'.logs[t] <= h''.logs[t];
    }
  }

  lemma RunExtends(states: seq<Cluster>, actions: seq<Action>, i: nat)
    requires IsTimelyRun(states, actions) && i < |actions|
    ensures Extends(Actor(actions[i]), HistoryAt(states, actions, i), HistoryAt(states, actions, i + 1))
  {
    RunKeepsInv(states, actions, i);
    StepKeepsInv(states[i], HistoryAt(states, actions, i), actions[i]);
  }

  lemma LogOkGrows(log: seq<Entry>, h: History, h': History)
    requires LogOk(log, h) && Grows(h, h')
    ensures LogOk(log, h')
  {
    forall i | 0 <= i < |log| ensures EntryOk(log, i, h') {
      assert EntryOk(log, i, h);
    }
  }

  lemma NodeAt(states: seq<Cluster>, actions: seq<Action>, i: nat, id: Id)
    requires IsTimelyRun(states, actions) && i <= |actions| && id in states[i].nodes
    ensures var ids, h := states[i].nodes.Keys, HistoryAt(states, actions, i);
            HistoryInv(ids, h) && NodeInv(ids, states[i].nodes[id], h) && states[i].nodes[id].id == id
  {
    RunKeepsInv(states, actions, i);
  }

  /** Election safety: in a timely run no term ever has two leaders, at the same or at different times. */
  lemma ElectionSafety(states: seq<Cluster>, actions: seq<Action>, i: nat, j: nat, a: Id, b: Id)
    requires IsTimelyRun(states, actions) && i <= j <= |actions|
    requires a in states[i].nodes && states[i].nodes[a].role == Leader
    requires b in states[j].nodes && states[j].nodes[b].role == Leader
    requires states[i].nodes[a].currentTerm == states[j].nodes[b].currentTerm
    ensures a == b
  {
    NodeAt(states, actions, i, a);
    NodeAt(states, actions, j, b);
    HistoryGrows(states, actions, i, j);
  }

  /**
   * Log matching: whenever two logs, of any nodes at any times of a timely run, hold an entry with
   * the same index and term, they are identical up to it; and indices always run 1, 2, 3, ...
   */
  lemma LogMatching(states: seq<Cluster>, actions: seq<Action>, i: nat, j: nat, a: Id, b: Id, x: nat, y: nat)
    requires IsTimelyRun(states, actions) && i <= j <= |actions|
    requires a in states[i].nodes && b in states[j].nodes
    requires x < |states[i].nodes[a].log| && y < |states[j].nodes[b].log|
    requires states[i].nodes[a].log[x].index == states[j].nodes[b].log[y].index
    requires states[i].nodes[a].log[x].term == states[j].nodes[b].log[y].term
    ensures x == y && states[i].nodes[a].log[..x + 1] == states[j].nodes[b].log[..x + 1]
    ensures Contiguous(states[i].nodes[a].log) && Contiguous(states[j].nodes[b].log)
  {
    NodeAt(states, actions, i, a);
    NodeAt(states, actions, j, b);
    HistoryGrows(states, actions, i, j);
    LogsMatchOverTime(states[i].nodes[a].log, states[j].nodes[b].log, HistoryAt(states, actions, i),
                      HistoryAt(states, actions, j), x, y);
  }

  lemma LogsMatchOverTime(p: seq<Entry>, q: seq<Entry>, h: History, h': History, x: nat, y: nat)
    requires LogOk(p, h) && LogOk(q, h') && Grows(h, h')
    requires x < |p| && y < |q| && p[x].index == q[y].index && p[x].term == q[y].term
    ensures x == y && p[..x + 1] == q[..x + 1]
    ensures Contiguous(p) && Contiguous(q)
  {
    LogOkContiguous(p, h);
    LogOkContiguous(q, h');
    LogOkGrows(p, h, h');
    LogsMatch(p, q, h', x);
  }

  /** The follower accepts request m in state j, and the sender could have built m in state i. */
  ghost predicate AcceptedFrom(states: seq<Cluster>, i: nat, j: nat, m: Message)
    requires i < |states| && j < |states|
  {
    && m.from in states[i].nodes && m.to in states[j].nodes
    && states[i].nodes[m.from].role == Leader
    && (m in Appends(states[i].nodes[m.from]) || m in Heartbeats(states[i].nodes[m.from]))
    && m.body.AppendEntries? && Accepts(Stepped(states[j].nodes[m.to], m.term), m.body)
  }

  lemma FollowerCoversSender(states: seq<Cluster>, actions: seq<Action>, i: nat, j: nat, m: Message)
    requires IsTimelyRun(states, actions) && i <= j <= |actions|
    requires m in states[j].net && AcceptedFrom(states, i, j, m)
    ensures var log := AppendAll(states[j].nodes[m.to].log, m.body.entries);
            states[i].nodes[m.from].log <= log && LastIndex(log) == |log|
  {
    NodeAt(states, actions, i, m.from);
    NodeAt(states, actions, j, m.to);
    assert MessageInv(states[j].nodes.Keys, m, HistoryAt(states, actions, j)) by {
      RunKeepsInv(states, actions, j);
    }
    HistoryGrows(states, actions, i, j);
    AcceptedCoversSender(states[j].nodes.Keys, states[i].nodes[m.from], Stepped(states[j].nodes[m.to], m.term), m,
                         HistoryAt(states, actions, i), HistoryAt(states, actions, j));
  }

  /**
   * Follower agreement: when a follower answers success to a request, its log starts with the
   * sender's whole log as it stood whenever the sender could have built that request, heartbeats
   * included; and a commit index it newly adopts covers only entries it shares with the sender,
   * whenever the announced commit index lay inside the sender's log.
   */
  lemma FollowerAgreement(states: seq<Cluster>, actions: seq<Action>, i: nat, j: nat, m: Message)
    requires IsTimelyRun(states, actions) && i <= j < |actions|
    requires actions[j] == Deliver(m) && AcceptedFrom(states, i, j, m)
    ensures var sender, after := states[i].nodes[m.from].log, states[j + 1].nodes[m.to];
            && sender <= after.log
            && (after.commitIndex != states[j].nodes[m.to].commitIndex && m.body.leaderCommit <= |sender| ==>
                  after.commitIndex <= |sender| && after.log[..after.commitIndex] == sender[..after.commitIndex])
  {
    assert states[j + 1] == Apply(states[j], actions[j]) && m in states[j].net;
    FollowerCoversSender(states, actions, i, j, m);
    DeliveredAppend(states[j], m);
  }

  // ----- every request was built by a leader -----

  ghost predicate Builds(n: NodeData, m: Message) {
    n.role == Leader && n.id == m.from && (m in Appends(n) || m in Heartbeats(n))
  }

  /** A node that sends an append request leads, and builds the request from the state it is then in. */
  lemma SentRequest(n: NodeData, a: Action, m: Message)
    requires m in Run1(n, a).sent && m.body.AppendEntries?
    ensures Builds(Run1(n, a).node, m)
  {
    hide AppendBody, EntriesBetween;
    match a {
      case Deliver(d) => AnswersAreNoRequests(n, d);
      case Timeout(_) =>
      case ProposeAt(_, command) =>
        var n' := Propose(n, command).node;
        var k :| 0 <= k < |n'.peers| && Appends(n')[k] == m;
      case Heartbeat(_) =>
        var k :| 0 <= k < |n.peers| && Heartbeats(n)[k] == m;
    }
  }

  lemma AnswersAreNoRequests(n: NodeData, d: Message)
    ensures forall m :: m in OnMessage(n, d).sent ==> !m.body.AppendEntries?
  {
    hide Accepts, AppendAll, NewOnes;
  }

  /** Every append request on the network was built by a leader in some earlier state. */
  lemma {:induction false} RequestWasBuilt(states: seq<Cluster>, actions: seq<Action>, j: nat, m: Message) returns (i: nat)
    requires IsTimelyRun(states, actions) && j <= |actions| && m in states[j].net && m.body.AppendEntries?
    ensures i <= j && m.from in states[i].nodes && Builds(states[i].nodes[m.from], m)
    decreases j
  {
    hide Run1, Builds;
    if j > 0 {
      if m in states[j - 1].net {
        i := RequestWasBuilt(states, actions, j - 1, m);
      } else {
        i := j;
        var c, a := states[j - 1], actions[j - 1];
        assert Enabled(c, a) && states[j] == Apply(c, a);
        SentRequest(c.nodes[Actor(a)], a, m);
        NodeAt(states, actions, j - 1, Actor(a));
        IdStays(c.nodes[Actor(a)], a);
        BuiltBy(Run1(c.nodes[Actor(a)], a).node, m);
      }
    }
  }

  lemma BuiltBy(n: NodeData, m: Message)
    requires Builds(n, m)
    ensures n.id == m.from
  {
  }

  ghost predicate AnswersSuccess(n: NodeData, m: Message) {
    var sent := OnMessage(n, m).sent;
    |sent| == 1 && sent[0].body.AppendResponse? && sent[0].body.success
  }

  lemma SuccessMeansAccepted(n: NodeData, m: Message)
    requires AnswersSuccess(n, m)
    ensures m.body.AppendEntries? && Accepts(Stepped(n, m.term), m.body)
  {
    hide Accepts, AppendAll, NewOnes;
  }

  /**
   * Whenever a follower answers success there is a state, not later, in which a leader built the
   * request; the follower's log then starts with that leader's whole log, and a commit index adopted
   * from inside that log covers only shared entries.
   */
  lemma SuccessMeansAgreement(states: seq<Cluster>, actions: seq<Action>, j: nat, m: Message) returns (i: nat)
    requires IsTimelyRun(states, actions) && j < |actions| && actions[j] == Deliver(m)
    requires m.to in states[j].nodes && AnswersSuccess(states[j].nodes[m.to], m)
    ensures i <= j && m.from in states[i].nodes && Builds(states[i].nodes[m.from], m)
    ensures var sender, after := states[i].nodes[m.from].log, states[j + 1].nodes[m.to];
            && sender <= after.log
            && (after.commitIndex != states[j].nodes[m.to].commitIndex && m.body.leaderCommit <= |sender| ==>
                  after.commitIndex <= |sender| && after.log[..after.commitIndex] == sender[..after.commitIndex])
  {
    hide AnswersSuccess, Accepts, Appends, Heartbeats;
    SuccessMeansAccepted(states[j].nodes[m.to], m);
    assert Enabled(states[j], actions[j]);
    i := RequestWasBuilt(states, actions, j, m);
    FollowerAgreement(states, actions, i, j, m);
  }

  lemma DeliveredAppend(c: Cluster, m: Message)
    requires Enabled(c, Deliver(m)) && m.body.AppendEntries? && Accepts(Stepped(c.nodes[m.to], m.term), m.body)
    ensures var log := AppendAll(c.nodes[m.to].log, m.body.entries);
            && Apply(c, Deliver(m)).nodes[m.to].log == log
            && Apply(c, Deliver(m)).nodes[m.to].commitIndex
               == NewCommit(c.nodes[m.to].commitIndex, m.body.leaderCommit, LastIndex(log))
  {
    assert Apply(c, Deliver(m)).nodes[m.to]
        == OnAppendEntries(Stepped(c.nodes[m.to], m.term), m.from, m.body).node;
  }

  lemma AcceptedCoversSender(ids: set<Id>, s: NodeData, n: NodeData, m: Message, h: History, h': History)
    requires HistoryInv(ids, h') && LogOk(n.log, h') && MessageInv(ids, m, h') && Grows(h, h')
    requires LogOk(s.log, h) && LeaderOk(s, h) && s.role == Leader && s.id == m.from
    requires m.body.AppendEntries? && Accepts(n, m.body) && (m in Appends(s) || m in Heartbeats(s))
    ensures s.log <= AppendAll(n.log, m.body.entries)
    ensures LastIndex(AppendAll(n.log, m.body.entries)) == |AppendAll(n.log, m.body.entries)|
  {
    LogOkContiguous(s.log, h);
    RequestCoversLog(s, m);
    AcceptedAgrees(ids, n, h', m.body);
    AcceptedNotProbe(ids, n, h', m.body);
    var log := AppendAll(n.log, m.body.entries);
    AgreePrefix(log, h'.logs[m.term], s.log);
    LogOkContiguous(log, h');
    ContiguousLookup(log, 0);
  }

  lemma AgreePrefix(log: seq<Entry>, leader: seq<Entry>, part: seq<Entry>)
    requires part <= leader && Agree(log, leader, |part|)
    ensures part <= log
  {
    assert part == leader[..|part|] == log[..|part|];
  }

  lemma RequestCoversLog(s: NodeData, m: Message)
    requires Contiguous(s.log) && s.role == Leader
    requires forall p :: p in s.peers ==> p in s.nextIndex && s.nextIndex[p] >= 1
    requires m in Appends(s) || m in Heartbeats(s)
    ensures m.body.AppendEntries? && m.term == m.body.term == s.currentTerm
    ensures m.body.prevLogIndex + |m.body.entries| == |s.log| || (m.body.prevLogIndex > 0 && m.body.prevLogTerm == 0)
  {
    if m in Appends(s) {
      var k :| 0 <= k < |s.peers| && Appends(s)[k] == m;
      assert s.peers[k] in s.peers;
      AppendBodyOk(s, s.peers[k]);
    } else {
      var k :| 0 <= k < |s.peers| && Heartbeats(s)[k] == m;
      HeartbeatBodyOk(s);
    }
  }

  /** A probe past the end of the leader's log is never accepted: no entry has term 0. */
  lemma AcceptedNotProbe(ids: set<Id>, n: NodeData, h: History, req: Body)
    requires HistoryInv(ids, h) && LogOk(n.log, h) && req.AppendEntries? && Accepts(n, req)
    ensures !(req.prevLogIndex > 0 && req.prevLogTerm == 0)
  {
    if req.prevLogIndex > 0 {
      var i :| 0 <= i < |n.log| && n.log[i].index == req.prevLogIndex && n.log[i].term == req.prevLogTerm;
      assert EntryOk(n.log, i, h);
      assert TermOk(ids, h, n.log[i].term);
    }
  }
}
