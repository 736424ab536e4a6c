/** Replication keeps the commit invariant: accepting a request, and taking a confirmation. */
module RaftCommitAppend {
  import opened RaftTypes
  import opened RaftLog
  import opened RaftQuorum
  import opened RaftStep
  import opened RaftInvariant
  import opened RaftSafety
  import opened RaftEvidence
  import opened RaftCommit
  import opened RaftCommitSteps

  /**
   * The log the follower reports as confirmed ends where the request ends, or ends with an entry of
   * the request's term.  The follower can check this; the source does not, and reports its last
   * index in any case.
   */
  ghost predicate ReportsOnlyShared(n: NodeData, req: Body)
    requires req.AppendEntries?
  {
    var log := AppendAll(n.log, req.entries);
    |log| == req.prevLogIndex + |req.entries| || LastTerm(log) == req.term
  }

  /** The reported index is covered by the leader's log exactly when the guard holds. */
  lemma ReportIsShared(ids: set<Id>, n: NodeData, h: History, req: Body)
    requires HistoryInv(ids, h) && LogOk(n.log, h) && req.AppendEntries? && req.term in h.leaders
    requires RequestOk(h.logs[req.term], req) && Accepts(n, req)
    ensures ReportsOnlyShared(n, req) <==> AppendAll(n.log, req.entries) <= h.logs[req.term]
  {
    hide LogOk, RequestOk, Accepts, TermOk;
    AcceptedAgrees(ids, n, h, req);
    AcceptedSlice(ids, n, h, req);
    TermPositive(ids, h, req.term);
    SharedExactly(AppendAll(n.log, req.entries), h, req.term, req.prevLogIndex + |req.entries|);
  }

  lemma TermPositive(ids: set<Id>, h: History, t: nat)
    requires HistoryInv(ids, h) && t in h.leaders
    ensures t >= 1
  {
    assert TermOk(ids, h, t);
  }

  lemma SharedExactly(log: seq<Entry>, h: History, t: nat, k: nat)
    requires t >= 1 && t in h.logs && LogOk(log, h) && Agree(log, h.logs[t], k) && OnlyTermFrom(h.logs[t], k, t)
    ensures |log| == k || LastTerm(log) == t <==> log <= h.logs[t]
  {
    if log != [] && LastTerm(log) == t {
      LastTermPrefix(log, h);
    }
    if log <= h.logs[t] && |log| > k {
      assert log[|log| - 1] == h.logs[t][|log| - 1];
    }
    if |log| == k {
      assert log[..k] == log;
    }
  }

  lemma AcceptedSlice(ids: set<Id>, n: NodeData, h: History, req: Body)
    requires HistoryInv(ids, h) && LogOk(n.log, h) && req.AppendEntries? && req.term in h.leaders
    requires RequestOk(h.logs[req.term], req) && Accepts(n, req)
    ensures OnlyTermFrom(h.logs[req.term], req.prevLogIndex + |req.entries|, req.term)
  {
    if req.prevLogIndex > 0 {
      var i :| 0 <= i < |n.log| && n.log[i].index == req.prevLogIndex && n.log[i].term == req.prevLogTerm;
      assert EntryOk(n.log, i, h);
      assert TermOk(ids, h, n.log[i].term);
    }
  }

  // ----- what the overwrite rule keeps -----

  lemma PartSurvivesOne(log: seq<Entry>, leader: seq<Entry>, h: History, k: nat, p: seq<Entry>)
    requires LogOk(log, h) && LogOk(leader, h) && Agree(log, leader, k) && k < |leader|
    requires p <= log && p <= leader
    ensures p <= AppendOne(log, leader[k])
  {
    LogOkContiguous(log, h);
    LogOkContiguous(leader, h);
    ContiguousLookup(log, k + 1);
    if k < |log| && log[k].term != leader[k].term {
      if |p| > k {
        NotInBoth(log, leader, k, p);
      }
      assert p <= log[..k];
    }
  }

  lemma NotInBoth(log: seq<Entry>, leader: seq<Entry>, k: int, p: seq<Entry>)
    requires 0 <= k < |log| && k < |leader| && log[k] != leader[k] && p <= log && |p| > k
    ensures !(p <= leader)
  {
    assert p[k] == log[k];
  }

  /** A prefix shared with the leader survives the appending of the leader's entries. */
  lemma {:induction false} PartSurvives(log: seq<Entry>, leader: seq<Entry>, h: History, k: nat, es: seq<Entry>, p: seq<Entry>)
    requires LogOk(log, h) && LogOk(leader, h) && Agree(log, leader, k)
    requires k + |es| <= |leader| && es == leader[k..k + |es|] && p <= log && p <= leader
    ensures p <= AppendAll(log, es)
    decreases |es|
  {
    if es != [] {
      assert es[0] == leader[k] && es[1..] == leader[k + 1..k + 1 + |es[1..]|];
      PartSurvivesOne(log, leader, h, k, p);
      AppendOneKeeps(log, leader, h, k);
      PartSurvives(AppendOne(log, leader[k]), leader, h, k + 1, es[1..], p);
    }
  }

  lemma SharedSurvives(ids: set<Id>, n: NodeData, h: History, req: Body, p: seq<Entry>)
    requires HistoryInv(ids, h) && LogOk(n.log, h) && req.AppendEntries? && req.term in h.leaders
    requires RequestOk(h.logs[req.term], req) && Accepts(n, req) && p <= n.log && p <= h.logs[req.term]
    ensures p <= AppendAll(n.log, req.entries)
  {
    assert TermOk(ids, h, req.term);
    PrevAgrees(ids, n, h, req);
    PartSurvives(n.log, h.logs[req.term], h, req.prevLogIndex, req.entries, p);
  }

  /** Accepting a request of the current term, with the guard. */
  ghost predicate Accepting(ids: set<Id>, n: NodeData, h: History, req: Body, log': seq<Entry>) {
    && HistoryInv(ids, h) && LogOk(n.log, h) && req.AppendEntries? && req.term == n.currentTerm
    && req.term in h.leaders && req.term in h.logs && RequestOk(h.logs[req.term], req) && Accepts(n, req)
    && log' == AppendAll(n.log, req.entries) && log' <= h.logs[req.term]
  }

  lemma AcceptKeepsPart(ids: set<Id>, n: NodeData, h: History, req: Body, log': seq<Entry>, t: nat, p: seq<Entry>)
    requires Accepting(ids, n, h, req, log') && Kept(h, n.log, t, p, n.currentTerm) && t < n.currentTerm
    ensures Kept(h, log', t, p, n.currentTerm)
  {
    if p <= n.log {
      if p <= h.logs[req.term] {
        SharedSurvives(ids, n, h, req, p);
      } else {
        assert Drops(h, req.term, p);
      }
    }
  }

  lemma AcceptHoldsOld(ids: set<Id>, n: NodeData, h: History, x: Evidence, req: Body, log': seq<Entry>)
    requires Accepting(ids, n, h, req, log') && Holds(h, x, n.id, n.log, n.currentTerm + 1, n.currentTerm)
    ensures Holds(h, x, n.id, log', n.currentTerm, n.currentTerm)
  {
    hide Accepting;
    forall t: nat, i: nat | Acked(x, n.id, t, i) && t < n.currentTerm
      ensures t in h.logs && i <= |h.logs[t]| && Kept(h, log', t, h.logs[t][..i], n.currentTerm)
    {
      AcceptKeepsPart(ids, n, h, req, log', t, h.logs[t][..i]);
    }
  }

  lemma OldAckWithin(ids: set<Id>, n: NodeData, h: History, x: Evidence, req: Body, log': seq<Entry>)
    requires Accepting(ids, n, h, req, log') && Holds(h, x, n.id, n.log, n.currentTerm + 1, n.currentTerm)
    requires (n.id, n.currentTerm) in x.acks
    ensures x.acks[(n.id, n.currentTerm)] <= |log'|
  {
    var t, i := n.currentTerm, x.acks[(n.id, n.currentTerm)];
    assert Acked(x, n.id, t, i);
    assert Kept(h, n.log, t, h.logs[t][..i], t);
    SharedSurvives(ids, n, h, req, h.logs[t][..i]);
  }

  lemma AcceptHolds(ids: set<Id>, n: NodeData, h: History, x: Evidence, req: Body, log': seq<Entry>, x': Evidence)
    requires Accepting(ids, n, h, req, log') && EvidenceInv(ids, h, x)
    requires Holds(h, x, n.id, n.log, n.currentTerm + 1, n.currentTerm)
    requires x' == Ack(x, n.id, n.currentTerm, |log'|)
    ensures Holds(h, x', n.id, log', n.currentTerm + 1, n.currentTerm)
    ensures x'.acks[(n.id, n.currentTerm)] == |log'|
  {
    hide EvidenceInv, Holds, HistoryInv, RequestOk, LogOk;
    var ct := n.currentTerm;
    AcceptHoldsOld(ids, n, h, x, req, log');
    if (n.id, ct) in x.acks {
      OldAckWithin(ids, n, h, x, req, log');
    }
    AckAdds(x, n.id, ct, |log'|);
    ExtendsSame(n.id, h);
    HoldsStays(ids, n.id, ct, h, h, x, x', n.id, log', ct, ct);
    assert h.logs[ct][..|log'|] == log';
    HoldsCurrent(h, x', n.id, log', ct);
  }

  lemma ExtendsSame(a: Id, h: History)
    ensures Extends(a, h, h)
  {
  }

  // ----- commit indices -----

  /** Committed entries are in the log of the current term's leader. */
  lemma SoundInLeader(ids: set<Id>, h: History, x: Evidence, log: seq<Entry>, c: nat, t: nat)
    requires HistoryInv(ids, h) && EvidenceInv(ids, h, x) && Sound(ids, h, x, log, c, t) && t in h.logs
    ensures log[..c] <= h.logs[t]
  {
    hide EvidenceInv, HistoryInv;
    if c > 0 {
      var s: nat, i: nat :| s <= t && c <= i && Committed(ids, h, x, s, i) && log[..c] == h.logs[s][..c];
      if s < t {
        LeaderCompleteness(ids, h, x, s, i, t);
        assert h.logs[s][..c] <= h.logs[s][..i];
      }
    }
  }

  /** Sound carries over to a log with the same committed part. */
  lemma SoundPart(ids: set<Id>, h: History, x: Evidence, log: seq<Entry>, c: nat, log': seq<Entry>, c': nat, t: nat)
    requires Sound(ids, h, x, log, c, t) && c' <= c && c' <= |log'| && log'[..c'] == log[..c']
    ensures Sound(ids, h, x, log', c', t)
  {
    if c' > 0 {
      var s: nat, i: nat :| s <= t && c <= i && Committed(ids, h, x, s, i) && log[..c] == h.logs[s][..c];
      assert log[..c'] == log[..c][..c'] == h.logs[s][..c][..c'] == h.logs[s][..c'];
    }
  }

  lemma AcceptSound(ids: set<Id>, n: NodeData, h: History, x: Evidence, req: Body, log': seq<Entry>)
    requires Accepting(ids, n, h, req, log') && EvidenceInv(ids, h, x)
    requires Sound(ids, h, x, n.log, n.commitIndex, n.currentTerm)
    requires Sound(ids, h, x, h.logs[req.term], req.leaderCommit, req.term)
    ensures Sound(ids, h, x, log', NewCommit(n.commitIndex, req.leaderCommit, |log'|), n.currentTerm)
  {
    hide EvidenceInv, HistoryInv, RequestOk, LogOk, Committed;
    var leader, c, c' := h.logs[req.term], n.commitIndex, NewCommit(n.commitIndex, req.leaderCommit, |log'|);
    if req.leaderCommit <= c {
      SoundInLeader(ids, h, x, n.log, c, req.term);
      SharedSurvives(ids, n, h, req, n.log[..c]);
      SoundPart(ids, h, x, n.log, c, log', c, n.currentTerm);
    } else {
      assert log'[..c'] == leader[..c'];
      SoundPart(ids, h, x, leader, req.leaderCommit, log', c', n.currentTerm);
    }
  }

  // ----- the two handlers -----

  lemma AppendRecordsNothing(ids: set<Id>, n: NodeData, h: History, from: Id, req: Body)
    requires NodeInv(ids, n, h) && req.AppendEntries? && req.term <= n.currentTerm
    requires Led(h, req.term, from) && from != n.id
    ensures Record(h, OnAppendEntries(n, from, req)) == h
    ensures Accepts(n, req) ==> n.role != Leader && req.term == n.currentTerm
  {
    if n.role == Leader {
      assert Led(h, n.currentTerm, n.id);
      assert h.leaders[n.currentTerm := n.id] == h.leaders && h.logs[n.currentTerm := n.log] == h.logs;
    }
  }

  lemma AcceptEvidence(ids: set<Id>, n: NodeData, h: History, x: Evidence, log': seq<Entry>, x': Evidence)
    requires HistoryInv(ids, h) && EvidenceInv(ids, h, x) && BallotOk(n, h)
    requires n.currentTerm in h.logs && log' <= h.logs[n.currentTerm]
    requires x' == Ack(x, n.id, n.currentTerm, |log'|)
    ensures EvidenceInv(ids, h, x') && Adds(n.id, n.currentTerm, x, x')
  {
    AckAdds(x, n.id, n.currentTerm, |log'|);
    ExtendsSame(n.id, h);
    EvidenceStays(ids, n.id, n.currentTerm, h, h, x, x');
  }

  lemma LeaderTermsUpTo(ids: set<Id>, h: History, x: Evidence, t: nat, log: seq<Entry>)
    requires HistoryInv(ids, h) && EvidenceInv(ids, h, x) && t in h.logs && log <= h.logs[t]
    ensures TermsUpTo(log, t)
  {
    assert ElectedOk(ids, h, x, t);
  }

  lemma AcceptedNodeOk(ids: set<Id>, n: NodeData, n': NodeData, h: History, x: Evidence, x': Evidence, req: Body)
    requires Accepting(ids, n, h, req, n'.log) && EvidenceInv(ids, h, x) && BallotOk(n, h) && NodeOk(ids, n, h, x)
    requires n.role != Leader && Sound(ids, h, x, h.logs[req.term], req.leaderCommit, req.term)
    requires n' == n.(votedFor := n'.votedFor, leaderId := n'.leaderId, log := n'.log, journal := n'.journal,
                      commitIndex := NewCommit(n.commitIndex, req.leaderCommit, |n'.log|))
    requires x' == Ack(x, n.id, n.currentTerm, |n'.log|)
    ensures NodeOk(ids, n', h, x') && EvidenceInv(ids, h, x') && Adds(n.id, n.currentTerm, x, x')
  {
    hide EvidenceInv, HistoryInv, Holds, RequestOk, LogOk, Committed, Adds;
    AcceptEvidence(ids, n, h, x, n'.log, x');
    AcceptHolds(ids, n, h, x, req, n'.log, x');
    LeaderTermsUpTo(ids, h, x, n.currentTerm, n'.log);
    AcksOwnTerm(ids, n, x, x');
    AcceptSound(ids, n, h, x, req, n'.log);
    ExtendsSame(n.id, h);
    SoundStays(ids, n.id, n.currentTerm, h, h, x, x', n'.log, n'.log, n'.commitIndex, n.currentTerm, n.currentTerm);
  }

  lemma AppendEntriesCommit(ids: set<Id>, n: NodeData, h: History, x: Evidence, from: Id, req: Body)
    requires HistoryInv(ids, h) && NodeInv(ids, n, h) && EvidenceInv(ids, h, x) && NodeOk(ids, n, h, x)
    requires req.AppendEntries? && req.term <= n.currentTerm && from != n.id
    requires Led(h, req.term, from) && RequestOk(h.logs[req.term], req)
    requires Sound(ids, h, x, h.logs[req.term], req.leaderCommit, req.term)
    requires Accepts(n, req) ==> ReportsOnlyShared(n, req)
    ensures CommitStepOk(ids, h, x, OnAppendEntries(n, from, req))
  {
    hide EvidenceInv, HistoryInv, Holds, RequestOk, LogOk, Sound, Adds, Record, File;
    var e := OnAppendEntries(n, from, req);
    AppendRecordsNothing(ids, n, h, from, req);
    if Accepts(n, req) {
      ReportIsShared(ids, n, h, req);
      var x' := Ack(x, n.id, n.currentTerm, |e.node.log|);
      AcceptedIndex(ids, n, h, req);
      AcceptedNodeOk(ids, n, e.node, h, x, x', req);
      AcceptFiles(h, x, e);
      AckAdds(x, n.id, n.currentTerm, |e.node.log|);
    } else {
      QuietCommitStep(ids, h, x, e);
    }
  }

  lemma AcceptFiles(h: History, x: Evidence, e: Effect)
    requires Record(h, e) == h && e.node.role != Leader && |e.sent| == 1
    requires e.sent[0].body.AppendResponse? && e.sent[0].body.success && e.sent[0].body.index == |e.node.log|
    ensures File(x, h, e) == Ack(x, e.node.id, e.node.currentTerm, |e.node.log|)
  {
  }

  lemma AcceptedIndex(ids: set<Id>, n: NodeData, h: History, req: Body)
    requires HistoryInv(ids, h) && LogOk(n.log, h) && req.AppendEntries? && req.term in h.leaders
    requires RequestOk(h.logs[req.term], req) && Accepts(n, req)
    ensures LastIndex(AppendAll(n.log, req.entries)) == |AppendAll(n.log, req.entries)|
  {
    AcceptedAgrees(ids, n, h, req);
    LogOkContiguous(AppendAll(n.log, req.entries), h);
    ContiguousLookup(AppendAll(n.log, req.entries), 0);
  }

  /** The quorum index of a leader is confirmed by a strict majority. */
  lemma QuorumIsCommitted(ids: set<Id>, n: NodeData, h: History, x: Evidence, q: nat)
    requires NodeInv(ids, n, h) && MatchOk(ids, n, x) && n.role == Leader && EvidenceInv(ids, h, x)
    requires q > 0 && MajorityReached(LastIndex(n.log), n.matchIndex, q) && TermAt(n.log, q) == n.currentTerm
    requires n.currentTerm >= 1
    ensures Committed(ids, h, x, n.currentTerm, q)
  {
    LogOkContiguous(n.log, h);
    ContiguousLookup(n.log, q);
    var a, above := Ackers(ids, x, n.currentTerm, q), Above(n.matchIndex, n.matchIndex.Keys, q);
    assert above <= a && n.id !in above;
    assert n.id in a;
    SubsetSize(above + {n.id}, a);
    assert |n.matchIndex| == |n.matchIndex.Keys|;
    assert ids == n.matchIndex.Keys + {n.id};
  }

  lemma ConfirmationMatch(ids: set<Id>, n: NodeData, x: Evidence, from: Id, index: nat)
    requires MatchOk(ids, n, x) && n.role == Leader && from in ids && from != n.id
    requires Acked(x, from, n.currentTerm, index)
    ensures MatchOk(ids, n.(matchIndex := n.matchIndex[from := index], nextIndex := n.nextIndex[from := index + 1]), x)
  {
  }

  lemma AdvanceSound(ids: set<Id>, n: NodeData, h: History, x: Evidence)
    requires HistoryInv(ids, h) && NodeInv(ids, n, h) && EvidenceInv(ids, h, x) && NodeOk(ids, n, h, x) && n.role == Leader
    ensures NodeOk(ids, AdvanceCommit(n), h, x)
  {
    hide EvidenceInv, HistoryInv, Holds, Committed;
    var q := QuorumIndex(LastIndex(n.log), n.matchIndex);
    if q > n.commitIndex && TermAt(n.log, q) == n.currentTerm {
      TermPositive(ids, h, n.currentTerm);
      assert MajorityReached(LastIndex(n.log), n.matchIndex, q);
      QuorumIsCommitted(ids, n, h, x, q);
      CommittedInRange(ids, h, x, n.currentTerm, q);
      assert Sound(ids, h, x, n.log, q, n.currentTerm);
    }
  }

  lemma CommittedInRange(ids: set<Id>, h: History, x: Evidence, t: nat, i: nat)
    requires Committed(ids, h, x, t, i)
    ensures t in h.logs && 1 <= i <= |h.logs[t]|
  {
  }

  lemma AppendResponseCommit(ids: set<Id>, n: NodeData, h: History, x: Evidence, from: Id, resp: Body)
    requires HistoryInv(ids, h) && NodeInv(ids, n, h) && EvidenceInv(ids, h, x) && NodeOk(ids, n, h, x)
    requires resp.AppendResponse? && resp.term <= n.currentTerm && from in ids && from != n.id
    requires resp.success ==> Acked(x, from, resp.term, resp.index)
    requires resp.success && n.role == Leader ==> resp.term == n.currentTerm
    requires NodeInv(ids, OnAppendResponse(n, from, resp), h)
    ensures CommitStepOk(ids, h, x, Effect(OnAppendResponse(n, from, resp), []))
  {
    hide EvidenceInv, HistoryInv, Holds, Sound, Record, File;
    var e := Effect(OnAppendResponse(n, from, resp), []);
    if n.role == Leader && resp.success {
      var n1 := n.(matchIndex := n.matchIndex[from := resp.index], nextIndex := n.nextIndex[from := resp.index + 1]);
      ConfirmationMatch(ids, n, x, from, resp.index);
      AdvanceSound(ids, n1, h, x);
    }
    RecordNothing(ids, h, e);
    QuietCommitStep(ids, h, x, e);
  }
}
