/**
 * The invariant behind election safety and log matching.  It speaks about a history that a run
 * leaves behind: the first vote each node casts in a term, who led a term, and the log of each
 * term's leader as far as it has grown.
 */
module RaftInvariant {
  import opened RaftTypes
  import opened RaftStep
  import opened RaftCluster

  datatype History = History(votes: map<(Id, nat), Id>, leaders: map<nat, Id>, logs: map<nat, seq<Entry>>)

  const EMPTY_HISTORY := History(map[], map[], map[])

  ghost predicate VotedFor(h: History, v: Id, t: nat, c: Id) {
    (v, t) in h.votes && h.votes[(v, t)] == c
  }

  ghost predicate Led(h: History, t: nat, l: Id) {
    t in h.leaders && t in h.logs && h.leaders[t] == l
  }

  ghost function Voters(ids: set<Id>, h: History, t: nat, c: Id): set<Id> {
    set v | v in ids && VotedFor(h, v, t, c)
  }

  ghost predicate EntryOk(log: seq<Entry>, i: nat, h: History)
    requires i < |log|
  {
    && log[i].index == i + 1
    && log[i].term in h.logs
    && i < |h.logs[log[i].term]|
    && log[..i + 1] == h.logs[log[i].term][..i + 1]
  }

  /** Up to each of its entries, the log is the log of the leader that created the entry. */
  ghost predicate LogOk(log: seq<Entry>, h: History) {
    forall i :: 0 <= i < |log| ==> EntryOk(log, i, h)
  }

  // ----- the parts of the invariant -----

  /** A vote in the current term is the recorded one, or has been overwritten with the term's leader. */
  ghost predicate BallotOk(n: NodeData, h: History) {
    && (forall t: nat :: t > n.currentTerm ==> (n.id, t) !in h.votes)
    && (n.votedFor == NOBODY ==> (n.id, n.currentTerm) !in h.votes)
    && (n.votedFor != NOBODY ==>
          VotedFor(h, n.id, n.currentTerm, n.votedFor) || Led(h, n.currentTerm, n.votedFor))
  }

  ghost predicate TallyOk(ids: set<Id>, n: NodeData, h: History) {
    n.role == Candidate ==>
      && n.currentTerm >= 1
      && VotedFor(h, n.id, n.currentTerm, n.id)
      && forall v :: v in n.votes ==> v in ids && v != n.id && VotedFor(h, v, n.currentTerm, n.id)
  }

  ghost predicate LeaderOk(n: NodeData, h: History) {
    && (forall t: nat :: Led(h, t, n.id) ==> t < n.currentTerm || (t == n.currentTerm && n.role == Leader))
    && (n.role == Leader ==>
          && Led(h, n.currentTerm, n.id) && h.logs[n.currentTerm] == n.log
          && forall p :: p in n.peers ==> p in n.nextIndex && n.nextIndex[p] >= 1)
  }

  ghost predicate NodeInv(ids: set<Id>, n: NodeData, h: History) {
    PeersOk(ids, n) && BallotOk(n, h) && TallyOk(ids, n, h) && LeaderOk(n, h) && LogOk(n.log, h)
  }

  /** From position k on, the log holds only entries of term t. */
  ghost predicate OnlyTermFrom(log: seq<Entry>, k: nat, t: nat) {
    forall i :: k <= i < |log| ==> log[i].term == t
  }

  /**
   * The request carries a slice of the leader's log that reaches to its end when the request was
   * built, so that anything beyond is of the request's term; or it asks about an index past the end.
   */
  ghost predicate RequestOk(log: seq<Entry>, req: Body)
    requires req.AppendEntries?
  {
    var prev := req.prevLogIndex;
    || (&& prev + |req.entries| <= |log|
        && req.entries == log[prev..prev + |req.entries|]
        && (prev > 0 ==> req.prevLogTerm == log[prev - 1].term)
        && OnlyTermFrom(log, prev + |req.entries|, req.term))
    || (prev > 0 && req.prevLogTerm == 0 && req.entries == [])
  }

  ghost predicate MessageInv(ids: set<Id>, m: Message, h: History) {
    && m.from in ids && m.to in ids && m.from != m.to && m.from != NOBODY && m.term == m.body.term
    && match m.body
       case VoteRequest(_, candidate, _, _) => candidate == m.from
       case VoteResponse(t, granted) => granted ==> VotedFor(h, m.from, t, m.to) || Led(h, t, m.to)
       case AppendEntries(t, leader, _, _, _, _) =>
         leader == m.from && Led(h, t, leader) && RequestOk(h.logs[t], m.body)
       case AppendResponse(_, _, _) => true
  }

  ghost predicate TermOk(ids: set<Id>, h: History, t: nat)
    requires t in h.leaders && t in h.logs
  {
    && t >= 1 && h.leaders[t] in ids
    && 2 * |Voters(ids, h, t, h.leaders[t])| > |ids|
    && LogOk(h.logs[t], h)
  }

  ghost predicate HistoryInv(ids: set<Id>, h: History) {
    && h.leaders.Keys == h.logs.Keys
    && forall t :: t in h.leaders ==> TermOk(ids, h, t)
  }

  ghost predicate Inv(c: Cluster, h: History) {
    && HistoryInv(c.nodes.Keys, h)
    && (forall id :: id in c.nodes ==> c.nodes[id].id == id && NodeInv(c.nodes.Keys, c.nodes[id], h))
    && (forall m :: m in c.net ==> MessageInv(c.nodes.Keys, m, h))
  }

  // ----- how a step extends the history -----

  ghost function AddVote(h: History, v: Id, t: nat, c: Id): History {
    if (v, t) in h.votes then h else h.(votes := h.votes[(v, t) := c])
  }

  /** The vote a step casts: for itself when it starts an election, or the one it grants. */
  ghost function RecordVote(h: History, e: Effect): History {
    if e.node.role == Candidate then AddVote(h, e.node.id, e.node.currentTerm, e.node.id)
    else if |e.sent| == 1 && e.sent[0].body.VoteResponse? && e.sent[0].body.granted then
      AddVote(h, e.node.id, e.node.currentTerm, e.sent[0].to)
    else h
  }

  ghost function RecordLeader(h: History, n: NodeData): History {
    if n.role == Leader then
      h.(leaders := h.leaders[n.currentTerm := n.id], logs := h.logs[n.currentTerm := n.log])
    else h
  }

  ghost function Record(h: History, e: Effect): History {
    RecordLeader(RecordVote(h, e), e.node)
  }

  /** h' extends h by what node a alone can add: its own votes, its own election, its own log as leader. */
  ghost predicate Extends(a: Id, h: History, h': History) {
    && (forall k :: k in h.votes ==> k in h'.votes && h'.votes[k] == h.votes[k])
    && (forall k :: k in h'.votes && k !in h.votes ==> k.0 == a)
    && (forall t :: t in h.leaders ==> t in h'.leaders && h'.leaders[t] == h.leaders[t])
    && (forall t :: t in h'.leaders && t !in h.leaders ==> h'.leaders[t] == a)
    && (forall t :: t in h.logs ==> t in h'.logs && h.logs[t] <= h'.logs[t])
    && (forall t :: t in h.logs ==> OnlyTermFrom(h'.logs[t], |h.logs[t]|, t))
    && (forall t :: t in h.logs && t in h.leaders && h'.logs[t] != h.logs[t] ==> h.leaders[t] == a)
  }

  lemma LogOkExtends(a: Id, log: seq<Entry>, h: History, h': History)
    requires LogOk(log, h) && Extends(a, h, h')
    ensures LogOk(log, h')
  {
    forall i | 0 <= i < |log| ensures EntryOk(log, i, h') {
      assert EntryOk(log, i, h);
    }
  }

  lemma OtherNodesKeep(a: Id, ids: set<Id>, n: NodeData, h: History, h': History)
    requires NodeInv(ids, n, h) && HistoryInv(ids, h) && h'.leaders.Keys == h'.logs.Keys
    requires Extends(a, h, h') && n.id != a
    ensures NodeInv(ids, n, h')
  {
    LogOkExtends(a, n.log, h, h');
    forall t: nat | Led(h', t, n.id)
      ensures t < n.currentTerm || (t == n.currentTerm && n.role == Leader)
    {
      assert Led(h, t, n.id);
    }
  }

  lemma MessageKeeps(a: Id, ids: set<Id>, m: Message, h: History, h': History)
    requires MessageInv(ids, m, h) && Extends(a, h, h')
    requires h'.leaders.Keys == h'.logs.Keys
    ensures MessageInv(ids, m, h')
  {
  }

  lemma MoreVoters(a: Id, ids: set<Id>, h: History, h': History, t: nat, c: Id)
    requires Extends(a, h, h')
    ensures |Voters(ids, h, t, c)| <= |Voters(ids, h', t, c)|
  {
    SubsetSize(Voters(ids, h, t, c), Voters(ids, h', t, c));
  }

  lemma {:induction false} SubsetSize<T>(a: set<T>, b: set<T>)
    requires a <= b
    ensures |a| <= |b|
  {
    assert b == a + (b - a);
  }

  lemma DisjointSize<T>(a: set<T>, b: set<T>, all: set<T>)
    requires a !! b && a <= all && b <= all
    ensures |a| + |b| <= |all|
  {
    assert |a + b| == |a| + |b|;
    SubsetSize(a + b, all);
  }

  /** A term that was settled before stays settled. */
  lemma OldTermKeeps(a: Id, ids: set<Id>, h: History, h': History, t: nat)
    requires HistoryInv(ids, h) && t in h.leaders && Extends(a, h, h')
    requires t in h'.leaders && t in h'.logs && h'.logs[t] == h.logs[t]
    ensures TermOk(ids, h', t)
  {
    assert TermOk(ids, h, t);
    MoreVoters(a, ids, h, h', t, h.leaders[t]);
    LogOkExtends(a, h.logs[t], h, h');
  }
}
