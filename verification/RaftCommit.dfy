/**
 * Committed entries stay committed: the invariant about commit indices, and how every step keeps
 * it when followers confirm only what they share with the leader and leaders take confirmations
 * only from their own term.
 */
module RaftCommit {
  import opened RaftTypes
  import opened RaftLog
  import opened RaftStep
  import opened RaftInvariant
  import opened RaftEvidence

  /** The first c entries of the log are committed, in a term up to hi. */
  ghost predicate Sound(ids: set<Id>, h: History, x: Evidence, log: seq<Entry>, c: nat, hi: nat) {
    && c <= |log|
    && (c > 0 ==> exists t: nat, i: nat :: t <= hi && c <= i && Committed(ids, h, x, t, i) && log[..c] == h.logs[t][..c])
  }

  ghost predicate MatchOk(ids: set<Id>, n: NodeData, x: Evidence) {
    && n.matchIndex.Keys <= ids - {n.id}
    && (n.role == Leader ==>
          && n.matchIndex.Keys == ids - {n.id}
          && Acked(x, n.id, n.currentTerm, |n.log|)
          && forall p :: p in n.matchIndex && n.matchIndex[p] > 0 ==> Acked(x, p, n.currentTerm, n.matchIndex[p]))
  }

  ghost predicate CandidateOk(n: NodeData, h: History, x: Evidence) {
    n.role == Candidate && n.currentTerm !in h.leaders ==>
      (n.id, n.currentTerm) in x.ballots && x.ballots[(n.id, n.currentTerm)] == n.log
  }

  ghost predicate NodeOk(ids: set<Id>, n: NodeData, h: History, x: Evidence) {
    && (forall t: nat :: (n.id, t) in x.acks ==> t <= n.currentTerm)
    && Holds(h, x, n.id, n.log, n.currentTerm + 1, n.currentTerm)
    && TermsUpTo(n.log, n.currentTerm)
    && CandidateOk(n, h, x)
    && MatchOk(ids, n, x)
    && Sound(ids, h, x, n.log, n.commitIndex, n.currentTerm)
  }

  ghost predicate MessageOk(ids: set<Id>, m: Message, h: History, x: Evidence) {
    match m.body
    case VoteRequest(u, c, index, term) =>
      u in h.leaders || ((c, u) in x.ballots && index == |x.ballots[(c, u)]| && term == LastTerm(x.ballots[(c, u)]))
    case VoteResponse(_, _) => true
    case AppendEntries(t, _, _, _, _, commit) => t in h.logs && Sound(ids, h, x, h.logs[t], commit, t)
    case AppendResponse(t, success, index) => success ==> Acked(x, m.from, t, index)
  }

  // ----- how a step extends the evidence -----

  ghost function Ack(x: Evidence, v: Id, t: nat, i: nat): Evidence {
    x.(acks := x.acks[(v, t) := if (v, t) in x.acks && x.acks[(v, t)] > i then x.acks[(v, t)] else i])
  }

  /** A first vote is filed with the voter's log, as long as the term has no leader. */
  ghost function FileBallot(x: Evidence, h: History, h': History, n: NodeData): Evidence {
    var k := (n.id, n.currentTerm);
    if k in h'.votes && k !in h.votes && n.currentTerm !in h.leaders then x.(ballots := x.ballots[k := n.log]) else x
  }

  /** A leader confirms its own log, a follower what it answers. */
  ghost function FileAck(x: Evidence, e: Effect): Evidence {
    if e.node.role == Leader then Ack(x, e.node.id, e.node.currentTerm, |e.node.log|)
    else if |e.sent| == 1 && e.sent[0].body.AppendResponse? && e.sent[0].body.success then
      Ack(x, e.node.id, e.node.currentTerm, e.sent[0].body.index)
    else x
  }

  ghost function File(x: Evidence, h: History, e: Effect): Evidence {
    FileAck(FileBallot(x, h, Record(h, e), e.node), e)
  }

  ghost predicate Adds(a: Id, ct: nat, x: Evidence, x': Evidence) {
    && (forall k :: k in x.acks ==> k in x'.acks && x.acks[k] <= x'.acks[k])
    && (forall k :: k in x'.acks && k != (a, ct) ==> k in x.acks && x'.acks[k] == x.acks[k])
    && (forall k :: k in x.ballots ==> k in x'.ballots && x'.ballots[k] == x.ballots[k])
    && (forall k :: k in x'.ballots && k !in x.ballots ==> k == (a, ct))
  }

  // ----- old facts survive -----

  /** Entries of term w alone cannot complete a prefix made of earlier terms. */
  lemma PrefixNotGained(p: seq<Entry>, short: seq<Entry>, long: seq<Entry>, t: nat, w: nat)
    requires short <= long && OnlyTermFrom(long, |short|, w) && TermsUpTo(p, t) && t < w && !(p <= short)
    ensures !(p <= long)
  {
    if |p| <= |short| {
      assert long[..|p|] == short[..|p|];
    } else if |long| > |short| {
      assert p[|short|].term < long[|short|].term;
    }
  }

  lemma DropsStays(a: Id, h: History, h': History, t: nat, w: nat, p: seq<Entry>)
    requires Extends(a, h, h') && Drops(h, w, p) && TermsUpTo(p, t) && t < w
    ensures Drops(h', w, p)
  {
    PrefixNotGained(p, h.logs[w], h'.logs[w], t, w);
  }

  lemma KeptStays(a: Id, h: History, h': History, log: seq<Entry>, t: nat, p: seq<Entry>, hi: nat)
    requires Extends(a, h, h') && Kept(h, log, t, p, hi) && TermsUpTo(p, t)
    ensures Kept(h', log, t, p, hi)
  {
    if !(p <= log) {
      var w: nat :| t < w <= hi && Drops(h, w, p);
      DropsStays(a, h, h', t, w, p);
    }
  }

  /** The terms of a leader's log do not exceed its term. */
  lemma PartTerms(ids: set<Id>, h: History, x: Evidence, t: nat, i: nat)
    requires HistoryInv(ids, h) && EvidenceInv(ids, h, x) && t in h.logs && i <= |h.logs[t]|
    ensures TermsUpTo(h.logs[t][..i], t)
  {
    assert ElectedOk(ids, h, x, t);
  }

  lemma HoldsStays(ids: set<Id>, a: Id, ct: nat, h: History, h': History, x: Evidence, x': Evidence,
                   v: Id, log: seq<Entry>, below: nat, hi: nat)
    requires HistoryInv(ids, h) && EvidenceInv(ids, h, x) && Extends(a, h, h') && Adds(a, ct, x, x')
    requires Holds(h, x, v, log, below, hi) && (v != a || below <= ct)
    ensures Holds(h', x', v, log, below, hi)
  {
    forall t: nat, i: nat | Acked(x', v, t, i) && t < below
      ensures t in h'.logs && i <= |h'.logs[t]| && Kept(h', log, t, h'.logs[t][..i], hi)
    {
      assert Acked(x, v, t, i);
      PartTerms(ids, h, x, t, i);
      KeptStays(a, h, h', log, t, h.logs[t][..i], hi);
      assert h.logs[t][..i] == h'.logs[t][..i];
    }
  }

  lemma CommittedStays(ids: set<Id>, a: Id, ct: nat, h: History, h': History, x: Evidence, x': Evidence, t: nat, i: nat)
    requires Extends(a, h, h') && Adds(a, ct, x, x') && Committed(ids, h, x, t, i)
    ensures Committed(ids, h', x', t, i) && h.logs[t][..i] == h'.logs[t][..i]
  {
    assert Ackers(ids, x, t, i) <= Ackers(ids, x', t, i);
    SubsetSize(Ackers(ids, x, t, i), Ackers(ids, x', t, i));
    assert h.logs[t] == h'.logs[t][..|h.logs[t]|];
  }

  lemma SoundStays(ids: set<Id>, a: Id, ct: nat, h: History, h': History, x: Evidence, x': Evidence,
                   log: seq<Entry>, log': seq<Entry>, c: nat, hi: nat, hi': nat)
    requires Extends(a, h, h') && Adds(a, ct, x, x') && Sound(ids, h, x, log, c, hi)
    requires c <= |log'| && log'[..c] == log[..c] && hi <= hi'
    ensures Sound(ids, h', x', log', c, hi')
  {
    if c > 0 {
      var t: nat, i: nat :| t <= hi && c <= i && Committed(ids, h, x, t, i) && log[..c] == h.logs[t][..c];
      CommittedStays(ids, a, ct, h, h', x, x', t, i);
      assert h.logs[t][..c] == h.logs[t][..i][..c] == h'.logs[t][..i][..c] == h'.logs[t][..c];
    }
  }

  lemma BallotStays(ids: set<Id>, a: Id, ct: nat, h: History, h': History, x: Evidence, x': Evidence, v: Id, u: nat)
    requires HistoryInv(ids, h) && EvidenceInv(ids, h, x) && Extends(a, h, h') && Adds(a, ct, x, x')
    requires (v, u) in x.ballots && (v != a || u <= ct)
    ensures BallotLogOk(h', x', v, u)
  {
    assert BallotLogOk(h, x, v, u);
    LogOkExtends(a, x.ballots[(v, u)], h, h');
    HoldsStays(ids, a, ct, h, h', x, x', v, x.ballots[(v, u)], u, u - 1);
  }

  lemma ElectedStays(ids: set<Id>, a: Id, ct: nat, h: History, h': History, x: Evidence, x': Evidence, u: nat)
    requires Extends(a, h, h') && Adds(a, ct, x, x')
    requires u in h.leaders && u in h.logs && ElectedOk(ids, h, x, u)
    ensures u in h'.leaders && u in h'.logs && ElectedOk(ids, h', x', u)
  {
    var c := h.leaders[u];
    assert Backers(ids, h, x, u, c) <= Backers(ids, h', x', u, c);
    SubsetSize(Backers(ids, h, x, u, c), Backers(ids, h', x', u, c));
    assert x.ballots[(c, u)] <= h.logs[u] <= h'.logs[u];
    assert OnlyTermFrom(h'.logs[u], |h.logs[u]|, u);
  }

  lemma OtherNodeStays(ids: set<Id>, a: Id, ct: nat, h: History, h': History, x: Evidence, x': Evidence, n: NodeData)
    requires HistoryInv(ids, h) && EvidenceInv(ids, h, x) && Extends(a, h, h') && Adds(a, ct, x, x')
    requires NodeOk(ids, n, h, x) && n.id != a
    ensures NodeOk(ids, n, h', x')
  {
    HoldsStays(ids, a, ct, h, h', x, x', n.id, n.log, n.currentTerm + 1, n.currentTerm);
    SoundStays(ids, a, ct, h, h', x, x', n.log, n.log, n.commitIndex, n.currentTerm, n.currentTerm);
  }

  lemma MessageStays(ids: set<Id>, a: Id, ct: nat, h: History, h': History, x: Evidence, x': Evidence, m: Message)
    requires Extends(a, h, h') && Adds(a, ct, x, x') && MessageOk(ids, m, h, x)
    ensures MessageOk(ids, m, h', x')
  {
    if m.body.AppendEntries? {
      var t, c := m.body.term, m.body.leaderCommit;
      assert h.logs[t] == h'.logs[t][..|h.logs[t]|];
      SoundStays(ids, a, ct, h, h', x, x', h.logs[t], h'.logs[t], c, t, t);
    }
  }

  lemma BallotsStay(ids: set<Id>, a: Id, ct: nat, h: History, h': History, x: Evidence, x': Evidence)
    requires HistoryInv(ids, h) && EvidenceInv(ids, h, x) && Extends(a, h, h') && Adds(a, ct, x, x')
    requires forall u: nat :: u > ct ==> (a, u) !in h.votes
    requires (a, ct) in x'.ballots && (a, ct) !in x.ballots ==> BallotLogOk(h', x', a, ct)
    ensures forall k :: k in x'.ballots ==> k in h'.votes && BallotLogOk(h', x', k.0, k.1)
  {
    forall k | k in x'.ballots ensures k in h'.votes && BallotLogOk(h', x', k.0, k.1) {
      if k in x.ballots {
        assert BallotLogOk(h, x, k.0, k.1);
        BallotStays(ids, a, ct, h, h', x, x', k.0, k.1);
      }
    }
  }

  lemma ElectionsStay(ids: set<Id>, a: Id, ct: nat, h: History, h': History, x: Evidence, x': Evidence)
    requires HistoryInv(ids, h) && EvidenceInv(ids, h, x) && Extends(a, h, h') && Adds(a, ct, x, x')
    requires forall u :: u in h'.leaders && u in h'.logs && u !in h.leaders ==> ElectedOk(ids, h', x', u)
    ensures forall u :: u in h'.leaders && u in h'.logs ==> ElectedOk(ids, h', x', u)
  {
    forall u | u in h'.leaders && u in h'.logs ensures ElectedOk(ids, h', x', u) {
      if u in h.leaders {
        ElectedStays(ids, a, ct, h, h', x, x', u);
      }
    }
  }

  lemma CountsStay(ids: set<Id>, a: Id, ct: nat, h: History, h': History, x: Evidence, x': Evidence)
    requires EvidenceInv(ids, h, x) && Extends(a, h, h') && Adds(a, ct, x, x')
    requires (a, ct) in x'.acks ==> ct in h'.logs && x'.acks[(a, ct)] <= |h'.logs[ct]|
    requires forall k :: k in h'.votes && k !in h.votes ==> k in x'.ballots || k.1 in h'.leaders
    ensures forall k :: k in x'.acks ==> k.1 in h'.logs && x'.acks[k] <= |h'.logs[k.1]|
    ensures forall k :: k in h'.votes ==> k in x'.ballots || k.1 in h'.leaders
  {
  }

  /** The evidence stays consistent when what the step adds to it is. */
  lemma EvidenceStays(ids: set<Id>, a: Id, ct: nat, h: History, h': History, x: Evidence, x': Evidence)
    requires HistoryInv(ids, h) && EvidenceInv(ids, h, x) && Extends(a, h, h') && Adds(a, ct, x, x')
    requires forall u: nat :: u > ct ==> (a, u) !in h.votes
    requires (a, ct) in x'.acks ==> ct in h'.logs && x'.acks[(a, ct)] <= |h'.logs[ct]|
    requires (a, ct) in x'.ballots && (a, ct) !in x.ballots ==> BallotLogOk(h', x', a, ct)
    requires forall k :: k in h'.votes && k !in h.votes ==> k in x'.ballots || k.1 in h'.leaders
    requires forall u :: u in h'.leaders && u in h'.logs && u !in h.leaders ==> ElectedOk(ids, h', x', u)
    ensures EvidenceInv(ids, h', x')
  {
    BallotsStay(ids, a, ct, h, h', x, x');
    ElectionsStay(ids, a, ct, h, h', x, x');
    CountsStay(ids, a, ct, h, h', x, x');
  }
}
