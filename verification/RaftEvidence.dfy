/**
 * What a run leaves behind about replication: how far each node has confirmed a leader's log in a
 * term, and with which log it cast its first vote in a term.  From this evidence alone every
 * later leader's log contains what was committed before (leader completeness).
 */
module RaftEvidence {
  import opened RaftTypes
  import opened RaftLog
  import opened RaftInvariant

  datatype Evidence = Evidence(acks: map<(Id, nat), nat>, ballots: map<(Id, nat), seq<Entry>>)

  const EMPTY_EVIDENCE := Evidence(map[], map[])

  /** Node v has confirmed the first i entries of the log of term t's leader. */
  ghost predicate Acked(x: Evidence, v: Id, t: nat, i: nat) {
    (v, t) in x.acks && i <= x.acks[(v, t)]
  }

  ghost function Ackers(ids: set<Id>, x: Evidence, t: nat, i: nat): set<Id> {
    set v | v in ids && Acked(x, v, t, i)
  }

  /** Entry i of term t's log is of that term and a strict majority has confirmed it. */
  ghost predicate Committed(ids: set<Id>, h: History, x: Evidence, t: nat, i: nat) {
    && t in h.logs && 1 <= i <= |h.logs[t]| && h.logs[t][i - 1].term == t
    && 2 * |Ackers(ids, x, t, i)| > |ids|
  }

  // ----- keeping a prefix -----

  ghost predicate Drops(h: History, w: nat, p: seq<Entry>) {
    w in h.logs && !(p <= h.logs[w])
  }

  /** Some leader of a term in (t, hi] lacks p. */
  ghost predicate Lost(h: History, t: nat, p: seq<Entry>, hi: nat) {
    exists w: nat :: t < w <= hi && Drops(h, w, p)
  }

  ghost predicate Kept(h: History, log: seq<Entry>, t: nat, p: seq<Entry>, hi: nat) {
    p <= log || Lost(h, t, p, hi)
  }

  /** The log still starts with everything node v has confirmed, unless a later leader lacked it. */
  ghost predicate Holds(h: History, x: Evidence, v: Id, log: seq<Entry>, below: nat, hi: nat) {
    forall t: nat, i: nat :: Acked(x, v, t, i) && t < below ==>
      t in h.logs && i <= |h.logs[t]| && Kept(h, log, t, h.logs[t][..i], hi)
  }

  // ----- ballots -----

  /** The first log is at least as up to date as the second. */
  ghost predicate NotOlder(a: seq<Entry>, b: seq<Entry>) {
    LastTerm(a) > LastTerm(b) || (LastTerm(a) == LastTerm(b) && |a| >= |b|)
  }

  ghost predicate TermsUpTo(log: seq<Entry>, t: nat) {
    forall i :: 0 <= i < |log| ==> log[i].term <= t
  }

  ghost predicate BallotLogOk(h: History, x: Evidence, v: Id, u: nat)
    requires (v, u) in x.ballots
  {
    var log := x.ballots[(v, u)];
    && u >= 1
    && LogOk(log, h) && TermsUpTo(log, u - 1)
    && (v, u) in h.votes
    && (h.votes[(v, u)], u) in x.ballots && NotOlder(x.ballots[(h.votes[(v, u)], u)], log)
    && Holds(h, x, v, log, u, u - 1)
  }

  ghost function Backers(ids: set<Id>, h: History, x: Evidence, u: nat, c: Id): set<Id> {
    set v | v in ids && VotedFor(h, v, u, c) && (v, u) in x.ballots
  }

  ghost predicate ElectedOk(ids: set<Id>, h: History, x: Evidence, u: nat)
    requires u in h.leaders && u in h.logs
  {
    var c := h.leaders[u];
    && (c, u) in x.ballots && x.ballots[(c, u)] <= h.logs[u]
    && TermsUpTo(h.logs[u], u)
    && 2 * |Backers(ids, h, x, u, c)| > |ids|
  }

  ghost predicate EvidenceInv(ids: set<Id>, h: History, x: Evidence) {
    && (forall k :: k in x.acks ==> k.1 in h.logs && x.acks[k] <= |h.logs[k.1]|)
    && (forall k :: k in x.ballots ==> k in h.votes && BallotLogOk(h, x, k.0, k.1))
    && (forall k :: k in h.votes ==> k in x.ballots || k.1 in h.leaders)
    && (forall u :: u in h.leaders && u in h.logs ==> ElectedOk(ids, h, x, u))
  }

  // ----- leader completeness -----

  ghost predicate Ascending(log: seq<Entry>) {
    forall i, j :: 0 <= i <= j < |log| ==> log[i].term <= log[j].term
  }

  /** In a log of a history, terms never decrease. */
  lemma TermsAscend(ids: set<Id>, h: History, x: Evidence, log: seq<Entry>)
    requires HistoryInv(ids, h) && EvidenceInv(ids, h, x) && LogOk(log, h)
    ensures Ascending(log)
  {
    forall i, j | 0 <= i <= j < |log| ensures log[i].term <= log[j].term {
      assert EntryOk(log, j, h);
      var t := log[j].term;
      assert log[i] == log[..j + 1][i] == h.logs[t][..j + 1][i] == h.logs[t][i];
      assert ElectedOk(ids, h, x, t);
    }
  }

  /** A log whose last entry is of term w is a prefix of that term's leader's log. */
  lemma LastTermPrefix(log: seq<Entry>, h: History)
    requires LogOk(log, h) && log != []
    ensures LastTerm(log) in h.logs && log <= h.logs[LastTerm(log)]
  {
    assert EntryOk(log, |log| - 1, h);
    assert log[..|log|] == log;
  }

  /** Of two logs, the one that is not older keeps p if the leaders between keep it. */
  lemma NotOlderKeeps(h: History, a: seq<Entry>, b: seq<Entry>, p: seq<Entry>, t: nat, u: nat)
    requires LogOk(a, h) && LogOk(b, h) && NotOlder(a, b) && Ascending(b)
    requires p != [] && p <= b && p[|p| - 1].term == t >= 1 && u >= 1 && TermsUpTo(a, u - 1)
    requires forall w :: t < w < u && w in h.logs ==> p <= h.logs[w] && Ascending(h.logs[w])
    ensures p <= a
  {
    assert b[|p| - 1] == p[|p| - 1] && LastTerm(b) >= t;
    LastTermPrefix(b, h);
    LastTermPrefix(a, h);
    var w := LastTerm(a);
    if w == LastTerm(b) {
      PrefixOfSame(b, a, h.logs[w]);
      assert p <= b <= a;
    } else {
      assert w == a[|a| - 1].term < u;
      LongerThan(a, p, h.logs[w], w, t);
      PrefixOfSame(p, a, h.logs[w]);
    }
  }

  lemma PrefixOfSame(p: seq<Entry>, q: seq<Entry>, log: seq<Entry>)
    requires p <= log && q <= log && |p| <= |q|
    ensures p <= q
  {
    assert p == log[..|p|] == q[..|p|];
  }

  lemma LongerThan(a: seq<Entry>, p: seq<Entry>, log: seq<Entry>, w: nat, t: nat)
    requires a != [] && a <= log && LastTerm(a) == w && w > t
    requires p != [] && p <= log && p[|p| - 1].term == t
    requires Ascending(log)
    ensures |a| >= |p|
  {
    assert log[|a| - 1] == a[|a| - 1] && log[|p| - 1] == p[|p| - 1];
  }

  /** Two strict majorities share a node. */
  lemma MajoritiesMeet(ids: set<Id>, a: set<Id>, b: set<Id>) returns (v: Id)
    requires a <= ids && b <= ids && 2 * |a| > |ids| && 2 * |b| > |ids|
    ensures v in a && v in b
  {
    if a !! b {
      DisjointSize(a, b, ids);
    }
    v :| v in a && v in b;
  }

  /** A voter that confirmed p still had it when it voted, if no leader in between lacked it. */
  lemma BackerKeeps(h: History, x: Evidence, v: Id, t: nat, i: nat, u: nat)
    requires (v, u) in x.ballots && BallotLogOk(h, x, v, u) && Acked(x, v, t, i) && t < u
    requires t in h.logs && i <= |h.logs[t]|
    requires forall w :: t < w < u && w in h.logs ==> h.logs[t][..i] <= h.logs[w]
    ensures h.logs[t][..i] <= x.ballots[(v, u)]
  {
    assert Kept(h, x.ballots[(v, u)], t, h.logs[t][..i], u - 1);
  }

  /** What an election leaves behind about one of the winner's voters. */
  lemma BackerFacts(ids: set<Id>, h: History, x: Evidence, u: nat, v: Id)
    requires HistoryInv(ids, h) && EvidenceInv(ids, h, x) && u in h.logs
    requires v in Backers(ids, h, x, u, h.leaders[u])
    ensures var c := h.leaders[u];
            && (v, u) in x.ballots && BallotLogOk(h, x, v, u)
            && (c, u) in x.ballots && BallotLogOk(h, x, c, u)
            && NotOlder(x.ballots[(c, u)], x.ballots[(v, u)]) && x.ballots[(c, u)] <= h.logs[u]
            && Ascending(x.ballots[(v, u)])
  {
    assert ElectedOk(ids, h, x, u);
    assert BallotLogOk(h, x, v, u);
    TermsAscend(ids, h, x, x.ballots[(v, u)]);
  }

  lemma BackedLeaderKeeps(h: History, x: Evidence, t: nat, i: nat, u: nat, v: Id, c: Id)
    requires (v, u) in x.ballots && BallotLogOk(h, x, v, u) && Acked(x, v, t, i) && 1 <= t < u
    requires (c, u) in x.ballots && BallotLogOk(h, x, c, u)
    requires NotOlder(x.ballots[(c, u)], x.ballots[(v, u)]) && Ascending(x.ballots[(v, u)])
    requires t in h.logs && 1 <= i <= |h.logs[t]| && h.logs[t][i - 1].term == t
    requires forall w :: t < w < u && w in h.logs ==> h.logs[t][..i] <= h.logs[w] && Ascending(h.logs[w])
    ensures h.logs[t][..i] <= x.ballots[(c, u)]
  {
    BackerKeeps(h, x, v, t, i, u);
    NotOlderKeeps(h, x.ballots[(c, u)], x.ballots[(v, u)], h.logs[t][..i], t, u);
  }

  lemma NextLeaderKeeps(ids: set<Id>, h: History, x: Evidence, t: nat, i: nat, u: nat)
    requires HistoryInv(ids, h) && EvidenceInv(ids, h, x) && Committed(ids, h, x, t, i)
    requires u in h.logs && t < u
    requires forall w :: t < w < u && w in h.logs ==> h.logs[t][..i] <= h.logs[w]
    ensures h.logs[t][..i] <= h.logs[u]
  {
    var c := h.leaders[u];
    assert ElectedOk(ids, h, x, u) && TermOk(ids, h, t);
    var v := MajoritiesMeet(ids, Ackers(ids, x, t, i), Backers(ids, h, x, u, c));
    BackerFacts(ids, h, x, u, v);
    forall w | t < w < u && w in h.logs ensures Ascending(h.logs[w]) {
      assert TermOk(ids, h, w);
      TermsAscend(ids, h, x, h.logs[w]);
    }
    BackedLeaderKeeps(h, x, t, i, u, v, c);
    assert h.logs[t][..i] <= x.ballots[(c, u)] <= h.logs[u];
  }

  /** Leader completeness: what a majority confirmed in term t is in the log of every later leader. */
  lemma {:induction false} LeaderCompleteness(ids: set<Id>, h: History, x: Evidence, t: nat, i: nat, u: nat)
    requires HistoryInv(ids, h) && EvidenceInv(ids, h, x) && Committed(ids, h, x, t, i)
    requires u in h.logs && t < u
    ensures h.logs[t][..i] <= h.logs[u]
    decreases u
  {
    forall w | t < w < u && w in h.logs ensures h.logs[t][..i] <= h.logs[w] {
      LeaderCompleteness(ids, h, x, t, i, w);
    }
    NextLeaderKeeps(ids, h, x, t, i, u);
  }
}
