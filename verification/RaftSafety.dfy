/** Every handler keeps the invariant, whatever the node's state and the message. */
module RaftSafety {
  import opened RaftTypes
  import opened RaftLog
  import opened RaftStep
  import opened RaftInvariant

  ghost predicate StepOk(ids: set<Id>, h: History, e: Effect) {
    var h' := Record(h, e);
    && Extends(e.node.id, h, h')
    && HistoryInv(ids, h')
    && NodeInv(ids, e.node, h')
    && forall i :: 0 <= i < |e.sent| ==> MessageInv(ids, e.sent[i], h')
  }

  // ----- recording -----

  lemma AddVoteKeeps(ids: set<Id>, h: History, v: Id, t: nat, c: Id)
    requires HistoryInv(ids, h)
    ensures Extends(v, h, AddVote(h, v, t, c)) && HistoryInv(ids, AddVote(h, v, t, c))
  {
    var h' := AddVote(h, v, t, c);
    AddVoteExtends(h, v, t, c);
    forall u | u in h'.leaders ensures TermOk(ids, h', u) {
      OldTermKeeps(v, ids, h, h', u);
    }
  }

  lemma AddVoteExtends(h: History, v: Id, t: nat, c: Id)
    ensures Extends(v, h, AddVote(h, v, t, c))
  {
  }

  /** Nothing new to record: a leader that already led with this log, a candidate that already voted. */
  lemma RecordNothing(ids: set<Id>, h: History, e: Effect)
    requires NodeInv(ids, e.node, h)
    requires |e.sent| != 1 || !(e.sent[0].body.VoteResponse? && e.sent[0].body.granted)
    ensures Record(h, e) == h
  {
    if e.node.role == Leader {
      assert h.leaders[e.node.currentTerm := e.node.id] == h.leaders;
      assert h.logs[e.node.currentTerm := e.node.log] == h.logs;
    }
  }

  lemma QuietStep(ids: set<Id>, h: History, e: Effect)
    requires HistoryInv(ids, h) && NodeInv(ids, e.node, h)
    requires |e.sent| != 1 || !(e.sent[0].body.VoteResponse? && e.sent[0].body.granted)
    requires forall i :: 0 <= i < |e.sent| ==> MessageInv(ids, e.sent[i], h)
    ensures StepOk(ids, h, e)
  {
    RecordNothing(ids, h, e);
  }

  // ----- elections -----

  lemma FollowerKeeps(ids: set<Id>, n: NodeData, h: History, term: nat)
    requires NodeInv(ids, n, h) && term > n.currentTerm
    ensures NodeInv(ids, BecomeFollower(n, term), h)
  {
    var n' := BecomeFollower(n, term);
    forall t: nat | Led(h, t, n'.id) ensures t < n'.currentTerm {
      assert Led(h, t, n.id);
    }
  }

  lemma TimeoutKeeps(ids: set<Id>, n: NodeData, h: History)
    requires HistoryInv(ids, h) && NodeInv(ids, n, h)
    ensures StepOk(ids, h, OnElectionTimeout(n))
  {
    var e := OnElectionTimeout(n);
    if n.role == Leader {
      QuietStep(ids, h, e);
    } else {
      var h' := AddVote(h, n.id, n.currentTerm + 1, n.id);
      AddVoteKeeps(ids, h, n.id, n.currentTerm + 1, n.id);
      LogOkExtends(n.id, n.log, h, h');
      assert Record(h, e) == h';
      forall t: nat | Led(h', t, n.id) ensures t < n.currentTerm + 1 {
        assert Led(h, t, n.id);
      }
      forall i | 0 <= i < |e.sent| ensures MessageInv(ids, e.sent[i], h') {
        assert n.peers[i] in n.peers;
      }
    }
  }

  lemma VoteRequestKeeps(ids: set<Id>, n: NodeData, h: History, from: Id, req: Body)
    requires HistoryInv(ids, h) && NodeInv(ids, n, h)
    requires req.VoteRequest? && req.candidate == from && req.term <= n.currentTerm
    requires from in ids && from != n.id && from != NOBODY
    ensures StepOk(ids, h, OnVoteRequest(n, from, req))
  {
    var e := OnVoteRequest(n, from, req);
    if !e.sent[0].body.granted {
      QuietStep(ids, h, e);
    } else {
      var h' := AddVote(h, n.id, n.currentTerm, from);
      AddVoteKeeps(ids, h, n.id, n.currentTerm, from);
      LogOkExtends(n.id, n.log, h, h');
      GrantKeeps(ids, n, h, from);
      assert e.node == n.(votedFor := from);
      assert RecordVote(h, e) == h';
      assert RecordLeader(h', e.node) == h' by {
        RecordNothing(ids, h', Effect(e.node, []));
      }
    }
  }

  lemma GrantKeeps(ids: set<Id>, n: NodeData, h: History, c: Id)
    requires NodeInv(ids, n, h) && HistoryInv(ids, h) && c != NOBODY
    requires n.votedFor == NOBODY || n.votedFor == c
    ensures NodeInv(ids, n.(votedFor := c), AddVote(h, n.id, n.currentTerm, c))
    ensures var h' := AddVote(h, n.id, n.currentTerm, c);
            VotedFor(h', n.id, n.currentTerm, c) || Led(h', n.currentTerm, c)
  {
    var h' := AddVote(h, n.id, n.currentTerm, c);
    AddVoteKeeps(ids, h, n.id, n.currentTerm, c);
    LogOkExtends(n.id, n.log, h, h');
    forall t: nat | Led(h', t, n.id)
      ensures t < n.currentTerm || (t == n.currentTerm && n.role == Leader)
    {
      assert Led(h, t, n.id);
    }
  }

  /** Two candidates of one term cannot both have a majority of first votes. */
  lemma OneMajority(ids: set<Id>, h: History, t: nat, c: Id, d: Id)
    requires 2 * |Voters(ids, h, t, c)| > |ids| && 2 * |Voters(ids, h, t, d)| > |ids|
    ensures c == d
  {
    var a, b := Voters(ids, h, t, c), Voters(ids, h, t, d);
    if c != d {
      DisjointSize(a, b, ids);
    }
  }

  lemma TallyIsMajority(ids: set<Id>, n: NodeData, h: History)
    requires NodeInv(ids, n, h) && n.role == Candidate
    requires |n.votes| + 1 > (|n.peers| + 1) / 2
    ensures 2 * |Voters(ids, h, n.currentTerm, n.id)| > |ids|
  {
    SubsetSize(n.votes + {n.id}, Voters(ids, h, n.currentTerm, n.id));
  }

  /** A candidate with a majority is the first winner of its term. */
  lemma TermIsOpen(ids: set<Id>, n: NodeData, h: History)
    requires HistoryInv(ids, h) && NodeInv(ids, n, h) && n.role == Candidate
    requires |n.votes| + 1 > (|n.peers| + 1) / 2
    ensures n.currentTerm !in h.leaders && n.currentTerm !in h.logs
  {
    TallyIsMajority(ids, n, h);
    if n.currentTerm in h.leaders {
      assert TermOk(ids, h, n.currentTerm);
      OneMajority(ids, h, n.currentTerm, n.id, h.leaders[n.currentTerm]);
      assert Led(h, n.currentTerm, n.id);
    }
  }

  lemma NewTermExtends(n: NodeData, h: History)
    requires n.role == Leader && n.currentTerm !in h.leaders && n.currentTerm !in h.logs
    ensures Extends(n.id, h, RecordLeader(h, n))
  {
  }

  lemma NewTermKeeps(ids: set<Id>, n: NodeData, h: History)
    requires HistoryInv(ids, h) && NodeInv(ids, n, h) && n.role == Candidate
    requires |n.votes| + 1 > (|n.peers| + 1) / 2
    ensures var h' := RecordLeader(h, BecomeLeader(n));
            Extends(n.id, h, h') && HistoryInv(ids, h') && LogOk(n.log, h')
  {
    var h' := RecordLeader(h, BecomeLeader(n));
    TermIsOpen(ids, n, h);
    NewTermExtends(BecomeLeader(n), h);
    LogOkExtends(n.id, n.log, h, h');
    forall u | u in h'.leaders ensures TermOk(ids, h', u) {
      if u != n.currentTerm {
        OldTermKeeps(n.id, ids, h, h', u);
      } else {
        TallyIsMajority(ids, n, h);
        MoreVoters(n.id, ids, h, h', u, n.id);
      }
    }
  }

  lemma NewLeaderKeeps(ids: set<Id>, n: NodeData, h: History, h': History)
    requires NodeInv(ids, n, h) && n.role == Candidate && LogOk(n.log, h') && n.currentTerm !in h.leaders
    requires h' == RecordLeader(h, BecomeLeader(n))
    ensures NodeInv(ids, BecomeLeader(n), h')
  {
    SetAllMeaning(n.nextIndex, n.peers, LastIndex(n.log) + 1);
    forall u: nat | Led(h', u, n.id) ensures u <= n.currentTerm {
      assert u == n.currentTerm || Led(h, u, n.id);
    }
  }

  /** Winning an election opens a new term in the history. */
  lemma ElectionKeeps(ids: set<Id>, n: NodeData, h: History)
    requires HistoryInv(ids, h) && NodeInv(ids, n, h) && n.role == Candidate
    requires |n.votes| + 1 > (|n.peers| + 1) / 2
    ensures StepOk(ids, h, Effect(BecomeLeader(n), []))
  {
    var h' := RecordLeader(h, BecomeLeader(n));
    TermIsOpen(ids, n, h);
    NewTermKeeps(ids, n, h);
    NewLeaderKeeps(ids, n, h, h');
    assert Record(h, Effect(BecomeLeader(n), [])) == h';
  }

  lemma VoteResponseKeeps(ids: set<Id>, n: NodeData, h: History, from: Id, resp: Body)
    requires HistoryInv(ids, h) && NodeInv(ids, n, h)
    requires resp.VoteResponse? && resp.term <= n.currentTerm && from in ids && from != n.id
    requires resp.granted ==> VotedFor(h, from, resp.term, n.id) || Led(h, resp.term, n.id)
    requires resp.granted && n.role == Candidate ==> resp.term == n.currentTerm
    ensures StepOk(ids, h, Effect(OnVoteResponse(n, from, resp), []))
  {
    var e := Effect(OnVoteResponse(n, from, resp), []);
    if n.role == Candidate && resp.granted {
      var n1 := n.(votes := n.votes + {from});
      assert !Led(h, resp.term, n.id);
      assert NodeInv(ids, n1, h);
      if |n1.votes| + 1 > (|n1.peers| + 1) / 2 {
        ElectionKeeps(ids, n1, h);
      } else {
        QuietStep(ids, h, e);
      }
    } else {
      QuietStep(ids, h, e);
    }
  }

  // ----- log replication -----

  lemma LogOkContiguous(log: seq<Entry>, h: History)
    requires LogOk(log, h)
    ensures Contiguous(log)
  {
    forall i | 0 <= i < |log| ensures log[i].index == i + 1 {
      assert EntryOk(log, i, h);
    }
  }

  lemma LogOkPrefix(log: seq<Entry>, h: History, k: nat)
    requires LogOk(log, h) && k <= |log|
    ensures LogOk(log[..k], h)
  {
    forall i | 0 <= i < k ensures EntryOk(log[..k], i, h) {
      assert EntryOk(log, i, h);
      assert log[..k][..i + 1] == log[..i + 1];
    }
  }

  /** Log matching: two logs with the same term at one position are equal up to there. */
  lemma LogsMatch(a: seq<Entry>, b: seq<Entry>, h: History, i: nat)
    requires LogOk(a, h) && LogOk(b, h) && i < |a| && i < |b| && a[i].term == b[i].term
    ensures a[..i + 1] == b[..i + 1]
  {
    assert EntryOk(a, i, h) && EntryOk(b, i, h);
  }

  ghost predicate Agree(a: seq<Entry>, b: seq<Entry>, k: nat) {
    k <= |a| && k <= |b| && a[..k] == b[..k]
  }

  lemma AppendOneKeeps(log: seq<Entry>, leader: seq<Entry>, h: History, k: nat)
    requires LogOk(log, h) && LogOk(leader, h) && Agree(log, leader, k) && k < |leader|
    ensures LogOk(AppendOne(log, leader[k]), h)
    ensures Agree(AppendOne(log, leader[k]), leader, k + 1)
  {
    hide LogOk;
    LogOkContiguous(log, h);
    LogOkContiguous(leader, h);
    ContiguousLookup(log, k + 1);
    if k < |log| && log[k].term == leader[k].term {
      LogsMatch(log, leader, h, k);
    } else {
      assert AppendOne(log, leader[k]) == leader[..k + 1];
      LogOkPrefix(leader, h, k + 1);
    }
  }

  lemma {:induction false} AppendAllKeeps(log: seq<Entry>, leader: seq<Entry>, h: History, k: nat, es: seq<Entry>)
    requires LogOk(log, h) && LogOk(leader, h) && Agree(log, leader, k)
    requires k + |es| <= |leader| && es == leader[k..k + |es|]
    ensures LogOk(AppendAll(log, es), h)
    ensures Agree(AppendAll(log, es), leader, k + |es|)
    decreases |es|
  {
    if es != [] {
      assert es[0] == leader[k] && es[1..] == leader[k + 1..k + 1 + |es[1..]|];
      AppendOneKeeps(log, leader, h, k);
      AppendAllKeeps(AppendOne(log, leader[k]), leader, h, k + 1, es[1..]);
    }
  }

  /** An accepted request leaves the follower agreeing with everything the request covers. */
  lemma AcceptedAgrees(ids: set<Id>, n: NodeData, h: History, req: Body)
    requires HistoryInv(ids, h) && LogOk(n.log, h) && req.AppendEntries? && req.term in h.leaders
    requires RequestOk(h.logs[req.term], req) && Accepts(n, req)
    ensures LogOk(AppendAll(n.log, req.entries), h)
    ensures Agree(AppendAll(n.log, req.entries), h.logs[req.term], req.prevLogIndex + |req.entries|)
  {
    assert TermOk(ids, h, req.term);
    PrevAgrees(ids, n, h, req);
    AppendAllKeeps(n.log, h.logs[req.term], h, req.prevLogIndex, req.entries);
  }

  lemma PrevAgrees(ids: set<Id>, n: NodeData, h: History, req: Body)
    requires HistoryInv(ids, h) && LogOk(n.log, h) && req.AppendEntries? && req.term in h.leaders
    requires RequestOk(h.logs[req.term], req) && Accepts(n, req)
    ensures Agree(n.log, h.logs[req.term], req.prevLogIndex)
    ensures req.prevLogIndex + |req.entries| <= |h.logs[req.term]|
    ensures req.entries == h.logs[req.term][req.prevLogIndex..req.prevLogIndex + |req.entries|]
  {
    var leader, prev := h.logs[req.term], req.prevLogIndex;
    if prev > 0 {
      var i :| 0 <= i < |n.log| && n.log[i].index == prev && n.log[i].term == req.prevLogTerm;
      assert EntryOk(n.log, i, h);
      assert TermOk(ids, h, req.term) && TermOk(ids, h, n.log[i].term);
      LogsMatch(n.log, leader, h, i);
    }
  }

  lemma AppendEntriesKeeps(ids: set<Id>, n: NodeData, h: History, from: Id, req: Body)
    requires HistoryInv(ids, h) && NodeInv(ids, n, h)
    requires req.AppendEntries? && req.leader == from && req.term <= n.currentTerm
    requires from in ids && from != n.id && from != NOBODY
    requires Led(h, req.term, from) && RequestOk(h.logs[req.term], req)
    ensures StepOk(ids, h, OnAppendEntries(n, from, req))
  {
    hide HistoryInv, LogOk, Agree, AppendAll, RequestOk;
    var e := OnAppendEntries(n, from, req);
    if Accepts(n, req) {
      AcceptedAgrees(ids, n, h, req);
    }
    forall t: nat | Led(h, t, e.node.id)
      ensures t < n.currentTerm || (t == n.currentTerm && n.role == Leader)
    {
      assert Led(h, t, n.id);
    }
    QuietStep(ids, h, e);
  }

  lemma AppendResponseKeeps(ids: set<Id>, n: NodeData, h: History, from: Id, resp: Body)
    requires HistoryInv(ids, h) && NodeInv(ids, n, h)
    requires resp.AppendResponse? && resp.term <= n.currentTerm
    ensures StepOk(ids, h, Effect(OnAppendResponse(n, from, resp), []))
  {
    hide HistoryInv, LogOk;
    var n' := OnAppendResponse(n, from, resp);
    assert n'.id == n.id && n'.votes == n.votes && n'.votedFor == n.votedFor && n'.log == n.log;
    forall t: nat | Led(h, t, n'.id)
      ensures t < n.currentTerm || (t == n.currentTerm && n.role == Leader)
    {
      assert Led(h, t, n.id);
    }
    QuietStep(ids, h, Effect(n', []));
  }

  /** What a leader sends to a peer: its log from the peer's next index on, or a probe past its end. */
  lemma AppendBodyOk(n: NodeData, peer: Id)
    requires Contiguous(n.log) && peer in n.nextIndex && n.nextIndex[peer] >= 1
    ensures RequestOk(n.log, AppendBody(n, peer))
    ensures var b := AppendBody(n, peer);
            if b.prevLogIndex <= |n.log| then b.prevLogIndex + |b.entries| == |n.log|
            else b.prevLogTerm == 0
  {
    AppendBodyFields(n, peer);
    var b := AppendBody(n, peer);
    if b.prevLogIndex < |n.log| {
      assert n.log[b.prevLogIndex..] == n.log[b.prevLogIndex..b.prevLogIndex + |b.entries|];
    }
  }

  lemma AppendBodyFields(n: NodeData, peer: Id)
    requires Contiguous(n.log) && peer in n.nextIndex && n.nextIndex[peer] >= 1
    ensures var b := AppendBody(n, peer);
            var prev := n.nextIndex[peer] - 1;
            && b.prevLogIndex == prev
            && b.prevLogTerm == TermOfPosition(n.log, prev)
            && b.entries == if prev < |n.log| then n.log[prev..] else []
  {
    var prev := n.nextIndex[peer] - 1;
    TermByPosition(n.log, prev);
    ContiguousSuffix(n.log, prev + 1, |n.log|);
    assert LastIndex(n.log) == |n.log|;
  }

  /** The term of the k-th entry, counting from 1, or 0 when there is none. */
  ghost function TermOfPosition(log: seq<Entry>, k: nat): nat {
    if 1 <= k <= |log| then log[k - 1].term else 0
  }

  lemma TermByPosition(log: seq<Entry>, k: nat)
    requires Contiguous(log)
    ensures TermAt(log, k) == TermOfPosition(log, k)
  {
    ContiguousLookup(log, k);
  }

  lemma HeartbeatBodyOk(n: NodeData)
    requires Contiguous(n.log)
    ensures RequestOk(n.log, HeartbeatBody(n)) && HeartbeatBody(n).prevLogIndex == |n.log|
  {
    ContiguousLookup(n.log, 0);
  }

  lemma HeartbeatKeeps(ids: set<Id>, n: NodeData, h: History)
    requires HistoryInv(ids, h) && NodeInv(ids, n, h)
    ensures StepOk(ids, h, Effect(n, Heartbeats(n)))
  {
    if n.role == Leader {
      LogOkContiguous(n.log, h);
      HeartbeatBodyOk(n);
      forall i | 0 <= i < |n.peers| ensures MessageInv(ids, Heartbeats(n)[i], h) {
        assert n.peers[i] in n.peers;
      }
    }
    QuietStep(ids, h, Effect(n, Heartbeats(n)));
  }

  lemma ProposalExtends(ids: set<Id>, n: NodeData, h: History, n': NodeData, e: Entry)
    requires HistoryInv(ids, h) && NodeInv(ids, n, h) && n.role == Leader
    requires e.term == n.currentTerm && n' == n.(log := n.log + [e], journal := n'.journal)
    ensures Extends(n.id, h, RecordLeader(h, n'))
  {
    assert n.log <= n'.log && OnlyTermFrom(n'.log, |n.log|, n.currentTerm);
  }

  lemma ProposalLogOk(n: NodeData, h: History, n': NodeData, e: Entry)
    requires LogOk(n.log, h) && LeaderOk(n, h) && n.role == Leader
    requires e.term == n.currentTerm && e.index == |n.log| + 1
    requires n' == n.(log := n.log + [e], journal := n'.journal)
    ensures LogOk(n'.log, RecordLeader(h, n'))
  {
    var h' := RecordLeader(h, n');
    forall i | 0 <= i < |n'.log| ensures EntryOk(n'.log, i, h') {
      if i < |n.log| {
        assert EntryOk(n.log, i, h);
        assert n'.log[..i + 1] == n.log[..i + 1];
      }
    }
  }

  lemma ProposalHistory(ids: set<Id>, n: NodeData, h: History, n': NodeData)
    requires HistoryInv(ids, h) && LeaderOk(n, h) && n.role == Leader
    requires n' == n.(log := n'.log, journal := n'.journal)
    requires Extends(n.id, h, RecordLeader(h, n')) && LogOk(n'.log, RecordLeader(h, n'))
    ensures HistoryInv(ids, RecordLeader(h, n'))
  {
    var h' := RecordLeader(h, n');
    forall t | t in h'.leaders ensures TermOk(ids, h', t) {
      if t != n.currentTerm {
        OldTermKeeps(n.id, ids, h, h', t);
      } else {
        assert TermOk(ids, h, t);
        MoreVoters(n.id, ids, h, h', t, n.id);
      }
    }
  }

  lemma ProposeKeeps(ids: set<Id>, n: NodeData, h: History, command: string)
    requires HistoryInv(ids, h) && NodeInv(ids, n, h)
    ensures StepOk(ids, h, Propose(n, command))
  {
    var e := Propose(n, command);
    if n.role == Leader {
      var h' := RecordLeader(h, e.node);
      var entry := Entry(n.currentTerm, LastIndex(n.log) + 1, command);
      LogOkContiguous(n.log, h);
      ContiguousLookup(n.log, 0);
      ProposalExtends(ids, n, h, e.node, entry);
      ProposalLogOk(n, h, e.node, entry);
      ProposalHistory(ids, n, h, e.node);
      ProposeNodeKeeps(ids, n, h, e.node, h');
      AppendsOk(ids, e.node, h');
      assert Record(h, e) == h';
    } else {
      QuietStep(ids, h, e);
    }
  }

  lemma AppendsOk(ids: set<Id>, n: NodeData, h: History)
    requires NodeInv(ids, n, h) && n.role == Leader
    ensures forall i :: 0 <= i < |Appends(n)| ==> MessageInv(ids, Appends(n)[i], h)
  {
    LogOkContiguous(n.log, h);
    forall i | 0 <= i < |Appends(n)| ensures MessageInv(ids, Appends(n)[i], h) {
      assert n.peers[i] in n.peers;
      AppendBodyOk(n, n.peers[i]);
    }
  }

  lemma ProposeNodeKeeps(ids: set<Id>, n: NodeData, h: History, n': NodeData, h': History)
    requires HistoryInv(ids, h) && NodeInv(ids, n, h) && n.role == Leader
    requires n' == n.(log := n'.log, journal := n'.journal)
    requires h' == RecordLeader(h, n') && LogOk(n'.log, h')
    ensures NodeInv(ids, n', h')
  {
    forall t: nat | Led(h', t, n'.id) ensures t <= n.currentTerm {
      assert Led(h, t, n.id);
    }
  }
}
