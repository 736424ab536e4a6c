/**
 * Why timely delivery is needed: handleVoteResponse does not compare the vote's term with the
 * current one, so a vote granted in an earlier term can be counted and two nodes can lead the
 * same term.
 */
module RaftStaleVote {
  import opened RaftTypes
  import opened RaftLog
  import opened RaftStep
  import opened RaftCluster
  import opened RaftInvariant
  import opened RaftTheorems

  /** Every vote the candidate has counted was cast for it in its current term. */
  ghost predicate Genuine(n: NodeData, h: History) {
    forall v :: v in n.votes ==> VotedFor(h, v, n.currentTerm, n.id)
  }

  function Grant(from: Id, to: Id, term: nat): Message {
    Message(from, to, term, VoteResponse(term, true))
  }

  lemma VoteRecorded(n: NodeData, h: History, a: Action, v: Id, t: nat, c: Id)
    requires VotedFor(Record(h, Run1(n, a)), v, t, c) && !VotedFor(h, v, t, c) && v != c
    ensures Grant(v, c, t) in Run1(n, a).sent
  {
    IdStays(n, a);
    var e := Run1(n, a);
    hide OnAppendEntries, OnAppendResponse, OnVoteResponse, Propose, Heartbeats;
    assert |e.sent| == 1 && e.sent[0].body.VoteResponse? && e.sent[0].body.granted && e.sent[0].to == c;
    assert e.node.id == v && e.node.currentTerm == t;
    GrantSent(n, a);
  }

  lemma GrantSent(n: NodeData, a: Action)
    ensures var e := Run1(n, a);
            |e.sent| == 1 && e.sent[0].body.VoteResponse? && e.sent[0].body.granted ==>
              e.sent[0] == Grant(e.node.id, e.sent[0].to, e.node.currentTerm)
  {
    hide Accepts, AppendAll, NewOnes, EntriesBetween;
    match a
    case Deliver(m) => DeliveredGrant(n, m);
    case Timeout(_) =>
    case ProposeAt(_, _) =>
    case Heartbeat(_) =>
  }

  lemma DeliveredGrant(n: NodeData, m: Message)
    ensures var e := OnMessage(n, m);
            |e.sent| == 1 && e.sent[0].body.VoteResponse? && e.sent[0].body.granted ==>
              e.sent[0] == Grant(e.node.id, e.sent[0].to, e.node.currentTerm)
  {
    hide Accepts, AppendAll, NewOnes;
  }

  /** Every vote for another node was sent to it. */
  lemma {:induction false} VoteWasSent(states: seq<Cluster>, actions: seq<Action>, i: nat, v: Id, t: nat, c: Id)
    requires IsRun(states, actions) && i <= |actions| && VotedFor(HistoryAt(states, actions, i), v, t, c) && v != c
    ensures Grant(v, c, t) in states[i].net
    decreases i
  {
    hide Run1, Record;
    if i > 0 {
      var s, a, h := states[i - 1], actions[i - 1], HistoryAt(states, actions, i - 1);
      assert Enabled(s, a) && states[i] == Apply(s, a);
      if VotedFor(h, v, t, c) {
        VoteWasSent(states, actions, i - 1, v, t, c);
      } else {
        VoteRecorded(s.nodes[Actor(a)], h, a, v, t, c);
      }
    }
  }

  /**
   * Counting a granted vote keeps the tally genuine exactly when the voter has sent the candidate a
   * granted vote of its current term; an older vote alone does not.
   */
  lemma CountedVoteGenuine(states: seq<Cluster>, actions: seq<Action>, i: nat, m: Message)
    requires IsTimelyRun(states, actions) && i <= |actions| && m in states[i].net && m.to in states[i].nodes
    requires m.body.VoteResponse? && m.body.granted
    requires states[i].nodes[m.to].role == Candidate && m.term <= states[i].nodes[m.to].currentTerm
    ensures var n, h := states[i].nodes[m.to], HistoryAt(states, actions, i);
            && (Genuine(OnMessage(n, m).node, h) <==> Grant(m.from, m.to, n.currentTerm) in states[i].net)
            && (m.term == n.currentTerm ==> m == Grant(m.from, m.to, n.currentTerm))
  {
    hide Genuine, OnMessage, HistoryAt;
    var c, h := states[i], HistoryAt(states, actions, i);
    var n := c.nodes[m.to];
    RunKeepsInv(states, actions, i);
    VoteCounted(c.nodes.Keys, n, h, m);
    if VotedFor(h, m.from, n.currentTerm, m.to) {
      VoteWasSent(states, actions, i, m.from, n.currentTerm, m.to);
    }
    if Grant(m.from, m.to, n.currentTerm) in c.net {
      VoteCounted(c.nodes.Keys, n, h, Grant(m.from, m.to, n.currentTerm));
    }
  }

  lemma VoteCounted(ids: set<Id>, n: NodeData, h: History, m: Message)
    requires NodeInv(ids, n, h) && MessageInv(ids, m, h) && m.to == n.id
    requires m.body.VoteResponse? && m.body.granted && n.role == Candidate && m.term <= n.currentTerm
    ensures Genuine(OnMessage(n, m).node, h) <==> VotedFor(h, m.from, n.currentTerm, n.id)
    ensures m.term == n.currentTerm ==> VotedFor(h, m.from, n.currentTerm, n.id)
  {
    var n' := OnVoteResponse(n, m.from, m.body);
    assert OnMessage(n, m).node == n';
    assert n'.votes == n.votes + {m.from} && m.from in n'.votes;
    assert !Led(h, n.currentTerm, n.id);
  }

  // ----- a run of three nodes with two leaders of term 2 -----

  function Start(id: Id, p: Id, q: Id): NodeData {
    NodeData(id, [p, q], Follower, 0, NOBODY, NOBODY, [], [], 0, map[], map[], {})
  }

  function Fresh(a: Id, b: Id, c: Id): Cluster {
    Cluster(map[a := Start(a, b, c), b := Start(b, a, c), c := Start(c, a, b)], {})
  }

  lemma FreshRun(a: Id, b: Id, c: Id)
    requires a != b && b != c && a != c && NOBODY !in {a, b, c}
    ensures IsRun([Fresh(a, b, c)], [])
  {
    var s := Fresh(a, b, c);
    assert s.nodes.Keys == {a, b, c} && |{a, b, c}| == 3;
    assert PeersOk({a, b, c}, s.nodes[a]) && PeersOk({a, b, c}, s.nodes[b]) && PeersOk({a, b, c}, s.nodes[c]);
  }

  function Ask(from: Id, to: Id, term: nat): Message {
    Message(from, to, term, VoteRequest(term, from, 0, 0))
  }

  /** s' differs from s in one node, and only adds messages. */
  ghost predicate OneNode(s: Cluster, s': Cluster, id: Id, n: NodeData) {
    && s'.nodes.Keys == s.nodes.Keys && s.net <= s'.net
    && id in s'.nodes && s'.nodes[id] == n
    && forall x :: x in s.nodes && x != id ==> s'.nodes[x] == s.nodes[x]
  }

  function Running(n: NodeData): NodeData {
    n.(currentTerm := n.currentTerm + 1, role := Candidate, votedFor := n.id, leaderId := NOBODY, votes := {})
  }

  /** A node with an empty log starts an election and asks a peer for its vote. */
  lemma Campaigns(r: seq<Cluster>, acts: seq<Action>, id: Id, peer: Id) returns (s: Cluster, act: Action)
    requires IsRun(r, acts) && id in Last(r).nodes && Last(r).nodes[id].id == id
    requires Last(r).nodes[id].role != Leader && Last(r).nodes[id].log == [] && peer in Last(r).nodes[id].peers
    ensures IsRun(r + [s], acts + [act]) && OneNode(Last(r), s, id, Running(Last(r).nodes[id]))
    ensures Ask(id, peer, Last(r).nodes[id].currentTerm + 1) in s.net
  {
    act := Timeout(id);
    s := Apply(Last(r), act);
    RunExtended(r, acts, act);
    var n := Last(r).nodes[id];
    var i :| 0 <= i < |n.peers| && n.peers[i] == peer;
    assert BecomeCandidate(n).sent[i] == Ask(id, peer, n.currentTerm + 1);
  }

  lemma Grants(r: seq<Cluster>, acts: seq<Action>, from: Id, to: Id, term: nat) returns (s: Cluster, act: Action)
    requires IsRun(r, acts) && to in Last(r).nodes && Last(r).nodes[to].id == to && Last(r).nodes[to].log == []
    requires Ask(from, to, term) in Last(r).net && term > Last(r).nodes[to].currentTerm
    ensures IsRun(r + [s], acts + [act]) && Grant(to, from, term) in s.net
    ensures OneNode(Last(r), s, to, BecomeFollower(Last(r).nodes[to], term).(votedFor := from))
  {
    act := Deliver(Ask(from, to, term));
    s := Apply(Last(r), act);
    RunExtended(r, acts, act);
    assert OnMessage(Last(r).nodes[to], act.m).sent[0] == Grant(to, from, term);
  }

  /** In a cluster of three, one granted vote is enough, whatever its term. */
  lemma Wins(r: seq<Cluster>, acts: seq<Action>, voter: Id, to: Id, term: nat) returns (s: Cluster, act: Action)
    requires IsRun(r, acts) && to in Last(r).nodes && Last(r).nodes[to].role == Candidate
    requires Last(r).nodes[to].votes == {} && |Last(r).nodes[to].peers| == 2
    requires Grant(voter, to, term) in Last(r).net && term <= Last(r).nodes[to].currentTerm
    ensures IsRun(r + [s], acts + [act])
    ensures OneNode(Last(r), s, to, BecomeLeader(Last(r).nodes[to].(votes := {voter})))
  {
    act := Deliver(Grant(voter, to, term));
    s := Apply(Last(r), act);
    RunExtended(r, acts, act);
    assert {} + {voter} == {voter};
  }

  /** a campaigns in term 1 and b votes for it. */
  lemma FirstVote(a: Id, b: Id, c: Id) returns (r: seq<Cluster>, acts: seq<Action>)
    requires a != b && b != c && a != c && NOBODY !in {a, b, c}
    ensures IsRun(r, acts) && Last(r).nodes.Keys == {a, b, c} && Grant(b, a, 1) in Last(r).net
    ensures Last(r).nodes[a] == Running(Start(a, b, c))
    ensures Last(r).nodes[b] == Start(b, a, c).(currentTerm := 1, votedFor := a)
    ensures Last(r).nodes[c] == Start(c, a, b)
  {
    FreshRun(a, b, c);
    var s0 := Fresh(a, b, c);
    assert s0.nodes.Keys == {a, b, c};
    assert s0.nodes[a] == Start(a, b, c) && s0.nodes[b] == Start(b, a, c) && s0.nodes[c] == Start(c, a, b);
    r, acts := [s0], [];
    var s, act := Campaigns(r, acts, a, b);
    r, acts := r + [s], acts + [act];
    s, act := Grants(r, acts, a, b, 1);
    r, acts := r + [s], acts + [act];
  }

  /** a campaigns again, in term 2, and only then gets b's vote of term 1. */
  lemma StaleWin(a: Id, b: Id, c: Id) returns (r: seq<Cluster>, acts: seq<Action>)
    requires a != b && b != c && a != c && NOBODY !in {a, b, c}
    ensures IsRun(r, acts) && Last(r).nodes.Keys == {a, b, c}
    ensures Last(r).nodes[a].role == Leader && Last(r).nodes[a].currentTerm == 2
    ensures Last(r).nodes[b] == Start(b, a, c).(currentTerm := 1, votedFor := a)
    ensures Last(r).nodes[c] == Start(c, a, b)
  {
    r, acts := FirstVote(a, b, c);
    var s, act := Campaigns(r, acts, a, b);
    r, acts := r + [s], acts + [act];
    s, act := Wins(r, acts, b, a, 1);
    r, acts := r + [s], acts + [act];
  }

  /**
   * Without timely delivery election safety fails in every cluster of three: some run ends with
   * two leaders of term 2.
   */
  lemma TwoLeadersOfOneTerm(a: Id, b: Id, c: Id) returns (r: seq<Cluster>, acts: seq<Action>)
    requires a != b && b != c && a != c && NOBODY !in {a, b, c}
    ensures IsRun(r, acts) && a in Last(r).nodes && c in Last(r).nodes
    ensures Last(r).nodes[a].role == Leader && Last(r).nodes[c].role == Leader
    ensures Last(r).nodes[a].currentTerm == Last(r).nodes[c].currentTerm == 2
  {
    r, acts := StaleWin(a, b, c);
    var s, act := Campaigns(r, acts, c, b);
    r, acts := r + [s], acts + [act];
    s, act := Campaigns(r, acts, c, b);
    r, acts := r + [s], acts + [act];
    s, act := Grants(r, acts, c, b, 2);
    r, acts := r + [s], acts + [act];
    s, act := Wins(r, acts, b, c, 2);
    r, acts := r + [s], acts + [act];
  }
}
