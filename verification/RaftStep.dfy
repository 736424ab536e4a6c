/**
 * What each handler of a Raft node does to its state and which messages it sends, as functions.
 * Every handler runs as one step; sending cannot fail here, a message that is never delivered
 * stands for a lost one.
 */
module RaftStep {
  import opened RaftTypes
  import opened RaftLog
  import opened RaftQuorum

  datatype Effect = Effect(node: NodeData, sent: seq<Message>)

  /** sendMessage: the envelope repeats the sender's current term. */
  function Reply(n: NodeData, to: Id, body: Body): Message {
    Message(n.id, to, n.currentTerm, body)
  }

  function Broadcast(n: NodeData, body: Body): seq<Message> {
    seq(|n.peers|, i requires 0 <= i < |n.peers| => Reply(n, n.peers[i], body))
  }

  function BecomeFollower(n: NodeData, term: nat): NodeData {
    n.(currentTerm := term, role := Follower, votedFor := NOBODY, leaderId := NOBODY, votes := {})
  }

  function BecomeCandidate(n: NodeData): Effect {
    var n' := n.(currentTerm := n.currentTerm + 1, role := Candidate, votedFor := n.id, leaderId := NOBODY, votes := {});
    Effect(n', Broadcast(n', VoteRequest(n'.currentTerm, n'.id, LastIndex(n'.log), LastTerm(n'.log))))
  }

  /** The table after storing v for every peer. */
  function SetAll(table: map<Id, nat>, peers: seq<Id>, v: nat): (r: map<Id, nat>)
    decreases |peers|
  {
    if peers == [] then table else SetAll(table[peers[0] := v], peers[1..], v)
  }

  lemma {:induction false} SetAllMeaning(table: map<Id, nat>, peers: seq<Id>, v: nat)
    ensures SetAll(table, peers, v).Keys == table.Keys + set p | p in peers
    ensures forall p :: p in SetAll(table, peers, v) ==>
              SetAll(table, peers, v)[p] == if p in peers then v else table[p]
    decreases |peers|
  {
    if peers != [] {
      SetAllMeaning(table[peers[0] := v], peers[1..], v);
      assert forall p :: p in peers <==> p == peers[0] || p in peers[1..];
    }
  }

  function BecomeLeader(n: NodeData): NodeData {
    n.(role := Leader,
       nextIndex := SetAll(n.nextIndex, n.peers, LastIndex(n.log) + 1),
       matchIndex := SetAll(n.matchIndex, n.peers, 0))
  }

  function OnElectionTimeout(n: NodeData): Effect {
    if n.role == Leader then Effect(n, []) else BecomeCandidate(n)
  }

  /** The candidate's log is at least as up to date as this one. */
  predicate UpToDate(req: Body, log: seq<Entry>)
    requires req.VoteRequest?
  {
    || req.lastLogTerm > LastTerm(log)
    || (req.lastLogTerm == LastTerm(log) && req.lastLogIndex >= LastIndex(log))
  }

  function OnVoteRequest(n: NodeData, from: Id, req: Body): Effect
    requires req.VoteRequest?
  {
    var grant := req.term >= n.currentTerm && (n.votedFor == NOBODY || n.votedFor == req.candidate)
                 && UpToDate(req, n.log);
    var n' := if grant then n.(votedFor := req.candidate) else n;
    Effect(n', [Reply(n', from, VoteResponse(n'.currentTerm, grant))])
  }

  /** A granted vote counts without comparing its term with the current one. */
  function OnVoteResponse(n: NodeData, from: Id, resp: Body): NodeData
    requires resp.VoteResponse?
  {
    if n.role != Candidate then n
    else if resp.term > n.currentTerm then BecomeFollower(n, resp.term)
    else if !resp.granted then n
    else
      var n' := n.(votes := n.votes + {from});
      if |n'.votes| + 1 > (|n'.peers| + 1) / 2 then BecomeLeader(n') else n'
  }

  ghost predicate Accepts(n: NodeData, req: Body)
    requires req.AppendEntries?
  {
    req.term >= n.currentTerm && (req.prevLogIndex == 0 || HasEntry(n.log, req.prevLogIndex, req.prevLogTerm))
  }

  function NewCommit(commit: nat, leaderCommit: nat, last: nat): nat {
    if leaderCommit <= commit then commit else if leaderCommit > last then last else leaderCommit
  }

  /** A same-term request overwrites the vote and leaves the role alone. */
  ghost function OnAppendEntries(n: NodeData, from: Id, req: Body): Effect
    requires req.AppendEntries?
  {
    var n1 := if req.term >= n.currentTerm then n.(votedFor := req.leader, leaderId := req.leader) else n;
    var log := AppendAll(n.log, req.entries);
    var n2 := if Accepts(n, req) then
                n1.(log := log, journal := n.journal + NewOnes(n.log, req.entries),
                    commitIndex := NewCommit(n.commitIndex, req.leaderCommit, LastIndex(log)))
              else n1;
    Effect(n2, [Reply(n2, from, AppendResponse(n2.currentTerm, Accepts(n, req), LastIndex(n2.log)))])
  }

  /** Move the commit index to the quorum index when that is an advance to an entry of the current term. */
  ghost function AdvanceCommit(n: NodeData): NodeData {
    var q := QuorumIndex(LastIndex(n.log), n.matchIndex);
    if q > n.commitIndex && TermAt(n.log, q) == n.currentTerm then n.(commitIndex := q) else n
  }

  ghost function OnAppendResponse(n: NodeData, from: Id, resp: Body): NodeData
    requires resp.AppendResponse?
  {
    if n.role != Leader then n
    else if resp.term > n.currentTerm then BecomeFollower(n, resp.term)
    else if resp.success then
      AdvanceCommit(n.(matchIndex := n.matchIndex[from := resp.index],
                       nextIndex := n.nextIndex[from := resp.index + 1]))
    else if from in n.nextIndex && n.nextIndex[from] > 1 then
      n.(nextIndex := n.nextIndex[from := n.nextIndex[from] - 1])
    else n
  }

  ghost function OnMessage(n: NodeData, m: Message): Effect {
    var n1 := if m.term > n.currentTerm then BecomeFollower(n, m.term) else n;
    match m.body
    case VoteRequest(_, _, _, _) => OnVoteRequest(n1, m.from, m.body)
    case VoteResponse(_, _) => Effect(OnVoteResponse(n1, m.from, m.body), [])
    case AppendEntries(_, _, _, _, _, _) => OnAppendEntries(n1, m.from, m.body)
    case AppendResponse(_, _, _) => Effect(OnAppendResponse(n1, m.from, m.body), [])
  }

  function HeartbeatBody(n: NodeData): Body {
    AppendEntries(n.currentTerm, n.id, LastIndex(n.log), LastTerm(n.log), [], n.commitIndex)
  }

  function Heartbeats(n: NodeData): seq<Message> {
    if n.role == Leader then Broadcast(n, HeartbeatBody(n)) else []
  }

  /** A peer without a next index reads as 0. */
  function NextIndex(n: NodeData, peer: Id): nat {
    if peer in n.nextIndex then n.nextIndex[peer] else 0
  }

  /** nextIdx - 1 in uint64 arithmetic. */
  function PrevIndex(n: NodeData, peer: Id): nat {
    if NextIndex(n, peer) > 0 then NextIndex(n, peer) - 1 else 0xFFFF_FFFF_FFFF_FFFF
  }

  function AppendBody(n: NodeData, peer: Id): Body {
    var prev := PrevIndex(n, peer);
    AppendEntries(n.currentTerm, n.id, prev, if prev > 0 then TermAt(n.log, prev) else 0,
                  EntriesBetween(n.log, NextIndex(n, peer), LastIndex(n.log)), n.commitIndex)
  }

  function Appends(n: NodeData): seq<Message> {
    seq(|n.peers|, i requires 0 <= i < |n.peers| => Reply(n, n.peers[i], AppendBody(n, n.peers[i])))
  }

  function Propose(n: NodeData, command: string): Effect {
    if n.role != Leader then Effect(n, [])
    else
      var e := Entry(n.currentTerm, LastIndex(n.log) + 1, command);
      var n' := n.(log := n.log + [e], journal := n.journal + [e]);
      Effect(n', Appends(n'))
  }

  /** A leader's commit index only moves up, and only to an entry of its current term that a strict majority reports. */
  lemma CommitOnlyAdvances(n: NodeData, from: Id, resp: Body)
    requires resp.AppendResponse?
    ensures var n' := OnAppendResponse(n, from, resp);
            && n'.commitIndex >= n.commitIndex
            && (n'.commitIndex > n.commitIndex ==>
                  && n'.role == Leader && TermAt(n'.log, n'.commitIndex) == n'.currentTerm
                  && MajorityReached(LastIndex(n'.log), n'.matchIndex, n'.commitIndex)
                  && !MajorityReached(LastIndex(n'.log), n'.matchIndex, n'.commitIndex + 1))
  {
    if n.role == Leader && resp.term <= n.currentTerm && resp.success {
      var matchIndex := n.matchIndex[from := resp.index];
      var q := QuorumIndex(LastIndex(n.log), matchIndex);
      assert MajorityReached(LastIndex(n.log), matchIndex, q);
    }
  }
}
