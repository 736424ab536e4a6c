/** Every handler keeps the commit invariant. */
module RaftCommitSteps {
  import opened RaftTypes
  import opened RaftLog
  import opened RaftStep
  import opened RaftCluster
  import opened RaftInvariant
  import opened RaftSafety
  import opened RaftEvidence
  import opened RaftCommit

  ghost predicate CommitStepOk(ids: set<Id>, h: History, x: Evidence, e: Effect) {
    var h', x' := Record(h, e), File(x, h, e);
    && Adds(e.node.id, e.node.currentTerm, x, x')
    && EvidenceInv(ids, h', x')
    && NodeOk(ids, e.node, h', x')
    && forall i :: 0 <= i < |e.sent| ==> MessageOk(ids, e.sent[i], h', x')
  }

  lemma AddsNothing(a: Id, ct: nat, x: Evidence)
    ensures Adds(a, ct, x, x)
  {
  }

  /** A leader's own confirmation never changes while its log does not. */
  lemma LeaderAckKnown(ids: set<Id>, n: NodeData, h: History, x: Evidence)
    requires n.role == Leader && LeaderOk(n, h) && EvidenceInv(ids, h, x) && MatchOk(ids, n, x)
    ensures Ack(x, n.id, n.currentTerm, |n.log|) == x
  {
    var k := (n.id, n.currentTerm);
    assert x.acks[k] == |n.log|;
    assert x.acks[k := |n.log|] == x.acks;
  }

  lemma QuietCommitStep(ids: set<Id>, h: History, x: Evidence, e: Effect)
    requires Record(h, e) == h && LeaderOk(e.node, h) && EvidenceInv(ids, h, x) && NodeOk(ids, e.node, h, x)
    requires |e.sent| != 1 || !(e.sent[0].body.AppendResponse? && e.sent[0].body.success)
    requires forall i :: 0 <= i < |e.sent| ==> MessageOk(ids, e.sent[i], h, x)
    ensures CommitStepOk(ids, h, x, e)
  {
    if e.node.role == Leader {
      LeaderAckKnown(ids, e.node, h, x);
    }
    assert File(x, h, e) == x;
    AddsNothing(e.node.id, e.node.currentTerm, x);
  }

  lemma HoldsWider(h: History, x: Evidence, v: Id, log: seq<Entry>, below: nat, hi: nat, below': nat, hi': nat)
    requires Holds(h, x, v, log, below, hi) && hi <= hi'
    requires forall t: nat :: (v, t) in x.acks ==> t < below
    ensures Holds(h, x, v, log, below', hi')
  {
    forall t: nat, i: nat | Acked(x, v, t, i) && t < below'
      ensures t in h.logs && i <= |h.logs[t]| && Kept(h, log, t, h.logs[t][..i], hi')
    {
      assert Kept(h, log, t, h.logs[t][..i], hi);
    }
  }

  lemma FollowerOk(ids: set<Id>, n: NodeData, h: History, x: Evidence, term: nat)
    requires NodeOk(ids, n, h, x) && term > n.currentTerm
    ensures NodeOk(ids, BecomeFollower(n, term), h, x)
  {
    HoldsWider(h, x, n.id, n.log, n.currentTerm + 1, n.currentTerm, term + 1, term);
  }

  // ----- elections -----

  /** The first vote of a term without leader, filed with the voter's log. */
  ghost function Filed(x: Evidence, v: Id, t: nat, log: seq<Entry>): Evidence {
    x.(ballots := x.ballots[(v, t) := log])
  }

  lemma FiledAdds(ids: set<Id>, h: History, x: Evidence, v: Id, t: nat, log: seq<Entry>)
    requires EvidenceInv(ids, h, x) && (v, t) !in h.votes
    ensures Adds(v, t, x, Filed(x, v, t, log)) && (v, t) !in x.ballots
  {
  }

  /** Filing a ballot keeps the evidence consistent. */
  lemma FilingOk(ids: set<Id>, h: History, x: Evidence, v: Id, t: nat, c: Id, log: seq<Entry>)
    requires HistoryInv(ids, h) && EvidenceInv(ids, h, x) && (v, t) !in h.votes && t >= 1
    requires forall u: nat :: u > t ==> (v, u) !in h.votes
    requires forall u: nat :: (v, u) in x.acks ==> u <= t && (u == t ==> t in h.logs)
    requires LogOk(log, h) && TermsUpTo(log, t - 1) && Holds(h, x, v, log, t, t - 1)
    requires c == v || ((c, t) in x.ballots && NotOlder(x.ballots[(c, t)], log))
    ensures EvidenceInv(ids, AddVote(h, v, t, c), Filed(x, v, t, log))
  {
    var h', x' := AddVote(h, v, t, c), Filed(x, v, t, log);
    AddVoteExtends(h, v, t, c);
    FiledAdds(ids, h, x, v, t, log);
    LogOkExtends(v, log, h, h');
    HoldsStays(ids, v, t, h, h', x, x', v, log, t, t - 1);
    assert BallotLogOk(h', x', v, t);
    EvidenceStays(ids, v, t, h, h', x, x');
  }

  lemma VoteWithoutBallotOk(ids: set<Id>, h: History, x: Evidence, v: Id, t: nat, c: Id)
    requires HistoryInv(ids, h) && EvidenceInv(ids, h, x) && t in h.leaders
    requires forall u: nat :: u > t ==> (v, u) !in h.votes
    requires (v, t) in x.acks ==> t in h.logs && x.acks[(v, t)] <= |h.logs[t]|
    ensures EvidenceInv(ids, AddVote(h, v, t, c), x)
  {
    AddVoteExtends(h, v, t, c);
    AddsNothing(v, t, x);
    EvidenceStays(ids, v, t, h, AddVote(h, v, t, c), x, x);
  }

  lemma TimeoutRecords(ids: set<Id>, n: NodeData, h: History, x: Evidence)
    requires BallotOk(n, h) && n.role != Leader
    ensures var e := BecomeCandidate(n);
            var u := n.currentTerm + 1;
            && Record(h, e) == AddVote(h, n.id, u, n.id)
            && File(x, h, e) == if u in h.leaders then x else Filed(x, n.id, u, n.log)
  {
  }

  lemma TimeoutEvidence(ids: set<Id>, n: NodeData, h: History, x: Evidence, h': History, x': Evidence)
    requires HistoryInv(ids, h) && BallotOk(n, h) && LogOk(n.log, h) && EvidenceInv(ids, h, x) && NodeOk(ids, n, h, x)
    requires h' == AddVote(h, n.id, n.currentTerm + 1, n.id)
    requires x' == if n.currentTerm + 1 in h.leaders then x else Filed(x, n.id, n.currentTerm + 1, n.log)
    ensures EvidenceInv(ids, h', x') && Adds(n.id, n.currentTerm + 1, x, x') && Extends(n.id, h, h')
  {
    var u := n.currentTerm + 1;
    AddVoteExtends(h, n.id, u, n.id);
    if u in h.leaders {
      VoteWithoutBallotOk(ids, h, x, n.id, u, n.id);
      AddsNothing(n.id, u, x);
    } else {
      FilingOk(ids, h, x, n.id, u, n.id, n.log);
      FiledAdds(ids, h, x, n.id, u, n.log);
    }
  }

  /** A node that only moves to a later term or another role, with its log and commit index unchanged. */
  lemma SameLogOk(ids: set<Id>, n: NodeData, n': NodeData, h: History, h': History, x: Evidence, x': Evidence)
    requires HistoryInv(ids, h) && EvidenceInv(ids, h, x) && NodeOk(ids, n, h, x)
    requires Extends(n.id, h, h') && Adds(n.id, n'.currentTerm, x, x')
    requires x'.acks == x.acks && n'.currentTerm >= n.currentTerm
    requires n'.id == n.id && n'.log == n.log && n'.commitIndex == n.commitIndex
    requires CandidateOk(n', h', x') && MatchOk(ids, n', x')
    ensures NodeOk(ids, n', h', x')
  {
    hide EvidenceInv, HistoryInv, Extends, Holds, Committed;
    var t := n'.currentTerm;
    HoldsSame(ids, n, h, h', x, x', t);
    HoldsWider(h', x', n.id, n.log, n.currentTerm + 1, n.currentTerm, t + 1, t);
    SoundStays(ids, n.id, t, h, h', x, x', n.log, n.log, n.commitIndex, n.currentTerm, t);
  }

  lemma HoldsSame(ids: set<Id>, n: NodeData, h: History, h': History, x: Evidence, x': Evidence, ct: nat)
    requires HistoryInv(ids, h) && EvidenceInv(ids, h, x) && NodeOk(ids, n, h, x)
    requires Extends(n.id, h, h') && x'.acks == x.acks
    ensures Holds(h', x', n.id, n.log, n.currentTerm + 1, n.currentTerm)
  {
    forall t: nat, i: nat | Acked(x', n.id, t, i) && t < n.currentTerm + 1
      ensures t in h'.logs && i <= |h'.logs[t]| && Kept(h', n.log, t, h'.logs[t][..i], n.currentTerm)
    {
      assert Acked(x, n.id, t, i);
      PartTerms(ids, h, x, t, i);
      KeptStays(n.id, h, h', n.log, t, h.logs[t][..i], n.currentTerm);
      assert h.logs[t][..i] == h'.logs[t][..i];
    }
  }

  lemma TimeoutMessagesOk(ids: set<Id>, n: NodeData, h: History, x: Evidence)
    requires Contiguous(n.log)
    requires n.currentTerm + 1 in h.leaders
             || ((n.id, n.currentTerm + 1) in x.ballots && x.ballots[(n.id, n.currentTerm + 1)] == n.log)
    ensures var e := BecomeCandidate(n);
            forall i :: 0 <= i < |e.sent| ==> MessageOk(ids, e.sent[i], h, x)
  {
    ContiguousLookup(n.log, 0);
  }

  lemma TimeoutNode(ids: set<Id>, n: NodeData, h: History, x: Evidence, h': History, x': Evidence)
    requires NodeOk(ids, n, h, x) && h' == AddVote(h, n.id, n.currentTerm + 1, n.id)
    requires x' == if n.currentTerm + 1 in h.leaders then x else Filed(x, n.id, n.currentTerm + 1, n.log)
    ensures var n' := BecomeCandidate(n).node; CandidateOk(n', h', x') && MatchOk(ids, n', x')
  {
    hide Holds, Sound;
  }

  lemma CandidateCommit(ids: set<Id>, n: NodeData, h: History, x: Evidence)
    requires HistoryInv(ids, h) && EvidenceInv(ids, h, x) && NodeOk(ids, n, h, x)
    requires BallotOk(n, h) && LogOk(n.log, h) && n.role != Leader
    ensures CommitStepOk(ids, h, x, BecomeCandidate(n))
  {
    hide EvidenceInv, HistoryInv, Extends, Adds, NodeOk, CandidateOk, MatchOk, MessageOk, BallotOk, LogOk, Record, File;
    var e := BecomeCandidate(n);
    var h', x' := Record(h, e), File(x, h, e);
    TimeoutRecords(ids, n, h, x);
    TimeoutEvidence(ids, n, h, x, h', x');
    TimeoutNode(ids, n, h, x, h', x');
    SameLogOk(ids, n, e.node, h, h', x, x');
    LogOkContiguous(n.log, h);
    TimeoutMessagesOk(ids, n, h', x');
  }

  lemma TimeoutCommit(ids: set<Id>, n: NodeData, h: History, x: Evidence)
    requires HistoryInv(ids, h) && NodeInv(ids, n, h) && EvidenceInv(ids, h, x) && NodeOk(ids, n, h, x)
    ensures CommitStepOk(ids, h, x, OnElectionTimeout(n))
  {
    hide EvidenceInv, HistoryInv, NodeOk, CommitStepOk, Record;
    if n.role == Leader {
      RecordNothing(ids, h, OnElectionTimeout(n));
      QuietCommitStep(ids, h, x, OnElectionTimeout(n));
    } else {
      CandidateCommit(ids, n, h, x);
    }
  }

  // ----- granting a vote -----

  /** A log seen while the term has no leader was written entirely in earlier terms. */
  lemma EarlierTerms(ids: set<Id>, n: NodeData, h: History, x: Evidence)
    requires LogOk(n.log, h) && NodeOk(ids, n, h, x) && n.currentTerm !in h.logs && n.currentTerm >= 1
    ensures TermsUpTo(n.log, n.currentTerm - 1)
    ensures Holds(h, x, n.id, n.log, n.currentTerm, n.currentTerm - 1)
  {
    forall i | 0 <= i < |n.log| ensures n.log[i].term <= n.currentTerm - 1 {
      assert EntryOk(n.log, i, h);
    }
    forall t: nat, i: nat | Acked(x, n.id, t, i) && t < n.currentTerm
      ensures t in h.logs && i <= |h.logs[t]| && Kept(h, n.log, t, h.logs[t][..i], n.currentTerm - 1)
    {
      assert Kept(h, n.log, t, h.logs[t][..i], n.currentTerm);
    }
  }

  lemma GrantEvidence(ids: set<Id>, n: NodeData, h: History, x: Evidence, from: Id, req: Body, x': Evidence)
    requires HistoryInv(ids, h) && NodeInv(ids, n, h) && EvidenceInv(ids, h, x) && NodeOk(ids, n, h, x)
    requires req.VoteRequest? && UpToDate(req, n.log)
    requires n.currentTerm in h.leaders
             || ((from, n.currentTerm) in x.ballots && req.lastLogIndex == |x.ballots[(from, n.currentTerm)]|
                 && req.lastLogTerm == LastTerm(x.ballots[(from, n.currentTerm)]))
    requires x' == if (n.id, n.currentTerm) in h.votes || n.currentTerm in h.leaders then x
                   else Filed(x, n.id, n.currentTerm, n.log)
    ensures EvidenceInv(ids, AddVote(h, n.id, n.currentTerm, from), x')
    ensures Adds(n.id, n.currentTerm, x, x')
  {
    var t := n.currentTerm;
    if (n.id, t) in h.votes {
      AddsNothing(n.id, t, x);
    } else if t in h.leaders {
      AddsNothing(n.id, t, x);
      VoteWithoutBallotOk(ids, h, x, n.id, t, from);
    } else {
      FiledAdds(ids, h, x, n.id, t, n.log);
      assert BallotLogOk(h, x, from, t);
      EarlierTerms(ids, n, h, x);
      LogOkContiguous(n.log, h);
      ContiguousLookup(n.log, 0);
      assert NotOlder(x.ballots[(from, t)], n.log);
      FilingOk(ids, h, x, n.id, t, from, n.log);
    }
  }

  lemma GrantRecords(ids: set<Id>, n: NodeData, h: History, x: Evidence, from: Id, req: Body)
    requires NodeInv(ids, n, h) && req.VoteRequest? && OnVoteRequest(n, from, req).sent[0].body.granted
    requires EvidenceInv(ids, h, x) && NodeOk(ids, n, h, x) && req.candidate == from
    ensures var e := OnVoteRequest(n, from, req);
            && e.node == n.(votedFor := from)
            && Record(h, e) == AddVote(h, n.id, n.currentTerm, from)
            && File(x, h, e) == if (n.id, n.currentTerm) in h.votes || n.currentTerm in h.leaders then x
                                else Filed(x, n.id, n.currentTerm, n.log)
  {
    var e := OnVoteRequest(n, from, req);
    assert RecordVote(h, e) == AddVote(h, n.id, n.currentTerm, from);
    if n.role == Leader {
      assert h.leaders[n.currentTerm := n.id] == h.leaders && h.logs[n.currentTerm := n.log] == h.logs;
      LeaderAckKnown(ids, n, h, x);
    }
  }

  lemma VoteRequestCommit(ids: set<Id>, n: NodeData, h: History, x: Evidence, from: Id, req: Body)
    requires HistoryInv(ids, h) && NodeInv(ids, n, h) && EvidenceInv(ids, h, x) && NodeOk(ids, n, h, x)
    requires req.VoteRequest? && req.candidate == from && req.term <= n.currentTerm
    requires req.term in h.leaders
             || ((from, req.term) in x.ballots && req.lastLogIndex == |x.ballots[(from, req.term)]|
                 && req.lastLogTerm == LastTerm(x.ballots[(from, req.term)]))
    ensures CommitStepOk(ids, h, x, OnVoteRequest(n, from, req))
  {
    hide EvidenceInv, HistoryInv, Extends, Adds, Holds, Sound, Record, File;
    var e := OnVoteRequest(n, from, req);
    if !e.sent[0].body.granted {
      RecordNothing(ids, h, e);
      QuietCommitStep(ids, h, x, e);
    } else {
      var h', x' := Record(h, e), File(x, h, e);
      GrantRecords(ids, n, h, x, from, req);
      GrantEvidence(ids, n, h, x, from, req, x');
      AddVoteExtends(h, n.id, n.currentTerm, from);
      AcksUnchanged(x, n, x');
      RoleStays(ids, n, from, h, h', x, x');
      SameLogOk(ids, n, e.node, h, h', x, x');
    }
  }

  lemma RoleStays(ids: set<Id>, n: NodeData, vote: Id, h: History, h': History, x: Evidence, x': Evidence)
    requires CandidateOk(n, h, x) && MatchOk(ids, n, x) && Extends(n.id, h, h') && Adds(n.id, n.currentTerm, x, x')
    ensures CandidateOk(n.(votedFor := vote), h', x') && MatchOk(ids, n.(votedFor := vote), x')
  {
  }

  lemma AcksUnchanged(x: Evidence, n: NodeData, x': Evidence)
    requires x' == x || x' == Filed(x, n.id, n.currentTerm, n.log)
    ensures x'.acks == x.acks
  {
  }

  // ----- becoming and being leader -----

  lemma AckAdds(x: Evidence, v: Id, t: nat, i: nat)
    ensures Adds(v, t, x, Ack(x, v, t, i)) && Acked(Ack(x, v, t, i), v, t, i)
  {
  }

  lemma HoldsBelow(h: History, x: Evidence, v: Id, log: seq<Entry>, log': seq<Entry>, below: nat, below': nat, hi: nat)
    requires Holds(h, x, v, log, below, hi) && below' <= below && log <= log'
    ensures Holds(h, x, v, log', below', hi)
  {
    forall t: nat, i: nat | Acked(x, v, t, i) && t < below'
      ensures t in h.logs && i <= |h.logs[t]| && Kept(h, log', t, h.logs[t][..i], hi)
    {
      assert Kept(h, log, t, h.logs[t][..i], hi);
    }
  }

  /** Confirmations of the current term join those of earlier terms. */
  lemma HoldsCurrent(h: History, x: Evidence, v: Id, log: seq<Entry>, ct: nat)
    requires Holds(h, x, v, log, ct, ct)
    requires (v, ct) in x.acks ==> ct in h.logs && x.acks[(v, ct)] <= |h.logs[ct]| && h.logs[ct][..x.acks[(v, ct)]] <= log
    ensures Holds(h, x, v, log, ct + 1, ct)
  {
    forall t: nat, i: nat | Acked(x, v, t, i) && t < ct + 1
      ensures t in h.logs && i <= |h.logs[t]| && Kept(h, log, t, h.logs[t][..i], ct)
    {
      if t == ct {
        assert h.logs[ct][..i] == h.logs[ct][..x.acks[(v, ct)]][..i];
      }
    }
  }

  /** The holdings of a leader whose log grows from log to log' in its term. */
  lemma LeaderHolds(ids: set<Id>, n: NodeData, log': seq<Entry>, h: History, h': History, x: Evidence, x': Evidence)
    requires HistoryInv(ids, h) && EvidenceInv(ids, h, x) && NodeOk(ids, n, h, x)
    requires Extends(n.id, h, h') && Adds(n.id, n.currentTerm, x, x')
    requires n.currentTerm in h'.logs && h'.logs[n.currentTerm] == log' && n.log <= log'
    requires (n.id, n.currentTerm) in x'.acks && x'.acks[(n.id, n.currentTerm)] == |log'|
    ensures Holds(h', x', n.id, log', n.currentTerm + 1, n.currentTerm)
  {
    hide EvidenceInv, HistoryInv, Extends, Adds, Holds;
    var ct := n.currentTerm;
    HoldsBelow(h, x, n.id, n.log, n.log, ct + 1, ct, ct);
    HoldsStays(ids, n.id, ct, h, h', x, x', n.id, n.log, ct, ct);
    HoldsBelow(h', x', n.id, n.log, log', ct, ct, ct);
    assert log'[..|log'|] == log';
    HoldsCurrent(h', x', n.id, log', ct);
  }

  lemma WinnersBackers(ids: set<Id>, n: NodeData, h: History, x: Evidence, h': History, x': Evidence)
    requires NodeInv(ids, n, h) && EvidenceInv(ids, h, x) && n.role == Candidate && n.currentTerm !in h.leaders
    requires |n.votes| + 1 > (|n.peers| + 1) / 2 && h'.votes == h.votes && x'.ballots == x.ballots
    ensures 2 * |Backers(ids, h', x', n.currentTerm, n.id)| > |ids|
  {
    SubsetSize(n.votes + {n.id}, Backers(ids, h', x', n.currentTerm, n.id));
  }

  lemma ElectionEvidence(ids: set<Id>, n: NodeData, h: History, x: Evidence, h': History, x': Evidence)
    requires HistoryInv(ids, h) && NodeInv(ids, n, h) && EvidenceInv(ids, h, x) && NodeOk(ids, n, h, x)
    requires n.role == Candidate && |n.votes| + 1 > (|n.peers| + 1) / 2 && n.currentTerm !in h.leaders && n.currentTerm !in h.logs
    requires h' == RecordLeader(h, BecomeLeader(n)) && x' == Ack(x, n.id, n.currentTerm, |n.log|)
    ensures EvidenceInv(ids, h', x') && Adds(n.id, n.currentTerm, x, x') && Extends(n.id, h, h')
    ensures x'.acks[(n.id, n.currentTerm)] == |n.log|
  {
    AckAdds(x, n.id, n.currentTerm, |n.log|);
    NewTermExtends(BecomeLeader(n), h);
    WinnersBackers(ids, n, h, x, h', x');
    assert ElectedOk(ids, h', x', n.currentTerm);
    assert x'.acks[(n.id, n.currentTerm)] == |n.log|;
    EvidenceStays(ids, n.id, n.currentTerm, h, h', x, x');
  }

  lemma NewLeaderMatch(ids: set<Id>, n: NodeData, x: Evidence)
    requires PeersOk(ids, n) && n.matchIndex.Keys <= ids - {n.id} && Acked(x, n.id, n.currentTerm, |n.log|)
    ensures MatchOk(ids, BecomeLeader(n), x)
  {
    SetAllMeaning(n.matchIndex, n.peers, 0);
  }

  lemma ElectionCommit(ids: set<Id>, n: NodeData, h: History, x: Evidence)
    requires HistoryInv(ids, h) && NodeInv(ids, n, h) && EvidenceInv(ids, h, x) && NodeOk(ids, n, h, x)
    requires n.role == Candidate && |n.votes| + 1 > (|n.peers| + 1) / 2
    ensures CommitStepOk(ids, h, x, Effect(BecomeLeader(n), []))
  {
    hide EvidenceInv, HistoryInv, Extends, Adds, Holds, Sound, Record, File;
    var h', x' := RecordLeader(h, BecomeLeader(n)), Ack(x, n.id, n.currentTerm, |n.log|);
    ElectionRecords(n, h, x);
    TermIsOpen(ids, n, h);
    ElectionEvidence(ids, n, h, x, h', x');
    LeaderHolds(ids, n, n.log, h, h', x, x');
    NewLeaderMatch(ids, n, x');
    AcksOwnTerm(ids, n, x, x');
    SoundLonger(ids, n, n.log, h, h', x, x');
  }

  lemma ElectionRecords(n: NodeData, h: History, x: Evidence)
    ensures Record(h, Effect(BecomeLeader(n), [])) == RecordLeader(h, BecomeLeader(n))
    ensures File(x, h, Effect(BecomeLeader(n), [])) == Ack(x, n.id, n.currentTerm, |n.log|)
  {
  }

  lemma AcksOwnTerm(ids: set<Id>, n: NodeData, x: Evidence, x': Evidence)
    requires forall t: nat :: (n.id, t) in x.acks ==> t <= n.currentTerm
    requires Adds(n.id, n.currentTerm, x, x')
    ensures forall t: nat :: (n.id, t) in x'.acks ==> t <= n.currentTerm
  {
  }

  lemma VoteResponseCommit(ids: set<Id>, n: NodeData, h: History, x: Evidence, from: Id, resp: Body)
    requires HistoryInv(ids, h) && NodeInv(ids, n, h) && EvidenceInv(ids, h, x) && NodeOk(ids, n, h, x)
    requires resp.VoteResponse? && resp.term <= n.currentTerm && from in ids && from != n.id
    requires resp.granted ==> VotedFor(h, from, resp.term, n.id) || Led(h, resp.term, n.id)
    requires resp.granted && n.role == Candidate ==> resp.term == n.currentTerm
    ensures CommitStepOk(ids, h, x, Effect(OnVoteResponse(n, from, resp), []))
  {
    hide EvidenceInv, HistoryInv, Extends, Adds, Holds, Sound, Record, File;
    var e := Effect(OnVoteResponse(n, from, resp), []);
    if n.role == Candidate && resp.granted {
      var n1 := n.(votes := n.votes + {from});
      assert !Led(h, resp.term, n.id);
      assert NodeInv(ids, n1, h);
      assert NodeOk(ids, n1, h, x);
      if |n1.votes| + 1 > (|n1.peers| + 1) / 2 {
        ElectionCommit(ids, n1, h, x);
      } else {
        RecordNothing(ids, h, e);
        QuietCommitStep(ids, h, x, e);
      }
    } else {
      RecordNothing(ids, h, e);
      QuietCommitStep(ids, h, x, e);
    }
  }

  // ----- proposals and heartbeats -----

  lemma ProposalEvidence(ids: set<Id>, n: NodeData, n': NodeData, h: History, x: Evidence, h': History, x': Evidence)
    requires HistoryInv(ids, h) && NodeInv(ids, n, h) && EvidenceInv(ids, h, x) && NodeOk(ids, n, h, x)
    requires n.role == Leader && n' == n.(log := n'.log, journal := n'.journal) && n.log <= n'.log
    requires h' == RecordLeader(h, n') && x' == Ack(x, n.id, n.currentTerm, |n'.log|) && Extends(n.id, h, h')
    ensures EvidenceInv(ids, h', x') && Adds(n.id, n.currentTerm, x, x')
    ensures x'.acks[(n.id, n.currentTerm)] == |n'.log|
  {
    AckAdds(x, n.id, n.currentTerm, |n'.log|);
    assert x.acks[(n.id, n.currentTerm)] <= |n.log|;
    EvidenceStays(ids, n.id, n.currentTerm, h, h', x, x');
  }

  lemma LeaderTerms(log: seq<Entry>, log': seq<Entry>, t: nat)
    requires TermsUpTo(log, t) && log <= log' && OnlyTermFrom(log', |log|, t)
    ensures TermsUpTo(log', t)
  {
    forall i | 0 <= i < |log'| ensures log'[i].term <= t {
      assert i < |log| ==> log[i] == log'[i];
    }
  }

  lemma LeaderMessagesOk(ids: set<Id>, n: NodeData, h: History, x: Evidence)
    requires LeaderOk(n, h) && n.role == Leader && Sound(ids, h, x, n.log, n.commitIndex, n.currentTerm)
    ensures forall i :: 0 <= i < |Appends(n)| ==> MessageOk(ids, Appends(n)[i], h, x)
    ensures forall i :: 0 <= i < |Heartbeats(n)| ==> MessageOk(ids, Heartbeats(n)[i], h, x)
  {
    hide Sound;
  }

  lemma ProposeCommit(ids: set<Id>, n: NodeData, h: History, x: Evidence, command: string)
    requires HistoryInv(ids, h) && NodeInv(ids, n, h) && EvidenceInv(ids, h, x) && NodeOk(ids, n, h, x)
    requires StepOk(ids, h, Propose(n, command))
    ensures CommitStepOk(ids, h, x, Propose(n, command))
  {
    hide EvidenceInv, HistoryInv, Extends, Adds, Holds, Sound, Record, File, Appends;
    var e := Propose(n, command);
    if n.role != Leader {
      RecordNothing(ids, h, e);
      QuietCommitStep(ids, h, x, e);
    } else {
      var n', ct := e.node, n.currentTerm;
      var h', x' := RecordLeader(h, n'), Ack(x, n.id, ct, |n'.log|);
      ProposeRecords(n, h, x, command);
      ProposalEvidence(ids, n, n', h, x, h', x');
      LeaderHolds(ids, n, n'.log, h, h', x, x');
      AcksOwnTerm(ids, n, x, x');
      LeaderTerms(n.log, n'.log, ct);
      AckAdds(x, n.id, ct, |n'.log|);
      MatchStays(ids, n, n', x, x');
      SoundLonger(ids, n, n'.log, h, h', x, x');
      LeaderMessagesOk(ids, n', h', x');
    }
  }

  lemma ProposeRecords(n: NodeData, h: History, x: Evidence, command: string)
    requires n.role == Leader
    ensures var e := Propose(n, command);
            && Record(h, e) == RecordLeader(h, e.node)
            && File(x, h, e) == Ack(x, n.id, n.currentTerm, |e.node.log|)
            && n.log <= e.node.log && OnlyTermFrom(e.node.log, |n.log|, n.currentTerm)
  {
  }

  lemma MatchStays(ids: set<Id>, n: NodeData, n': NodeData, x: Evidence, x': Evidence)
    requires MatchOk(ids, n, x) && n.role == Leader && n' == n.(log := n'.log, journal := n'.journal)
    requires Adds(n.id, n.currentTerm, x, x') && Acked(x', n.id, n.currentTerm, |n'.log|)
    ensures MatchOk(ids, n', x')
  {
  }

  lemma SoundLonger(ids: set<Id>, n: NodeData, log': seq<Entry>, h: History, h': History, x: Evidence, x': Evidence)
    requires Extends(n.id, h, h') && Adds(n.id, n.currentTerm, x, x') && n.log <= log'
    requires Sound(ids, h, x, n.log, n.commitIndex, n.currentTerm)
    ensures Sound(ids, h', x', log', n.commitIndex, n.currentTerm)
  {
    assert log'[..n.commitIndex] == n.log[..n.commitIndex];
    SoundStays(ids, n.id, n.currentTerm, h, h', x, x', n.log, log', n.commitIndex, n.currentTerm, n.currentTerm);
  }

  lemma HeartbeatCommit(ids: set<Id>, n: NodeData, h: History, x: Evidence)
    requires HistoryInv(ids, h) && NodeInv(ids, n, h) && EvidenceInv(ids, h, x) && NodeOk(ids, n, h, x)
    ensures CommitStepOk(ids, h, x, Effect(n, Heartbeats(n)))
  {
    hide EvidenceInv, HistoryInv, Holds, Sound, Record, File;
    if n.role == Leader {
      LeaderMessagesOk(ids, n, h, x);
    }
    RecordNothing(ids, h, Effect(n, Heartbeats(n)));
    QuietCommitStep(ids, h, x, Effect(n, Heartbeats(n)));
  }
}
