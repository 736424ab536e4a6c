/**
 * What every action of a node comes to, field by field and message by message, in terms of the node
 * before it and of the request alone.  Logs number their entries 1, 2, 3, ..., as they do in every
 * timely run.
 */
module RaftOutcomes {
  import opened RaftTypes
  import opened RaftLog
  import opened RaftQuorum
  import opened RaftStep
  import opened RaftCluster
  import opened RaftInvariant
  import opened RaftSafety
  import opened RaftTheorems

  /** A message of a later term first makes its receiver a follower of that term without vote or leader. */
  function Demoted(n: NodeData, term: nat): NodeData {
    NodeData(n.id, n.peers, Follower, term, "", "", n.log, n.journal, n.commitIndex, n.nextIndex, n.matchIndex, {})
  }

  // ----- elections -----

  lemma TimeoutOutcome(n: NodeData)
    requires Contiguous(n.log)
    ensures n.role == Leader ==> Run1(n, Timeout(n.id)) == Effect(n, [])
    ensures n.role != Leader ==>
              var t, e := n.currentTerm + 1, Run1(n, Timeout(n.id));
              && e.node == NodeData(n.id, n.peers, Candidate, t, n.id, "", n.log, n.journal, n.commitIndex, n.nextIndex, n.matchIndex, {})
              && |e.sent| == |n.peers|
              && forall i :: 0 <= i < |n.peers| ==>
                   e.sent[i] == Message(n.id, n.peers[i], t,
                                        VoteRequest(t, n.id, |n.log|, if n.log == [] then 0 else n.log[|n.log| - 1].term))
  {
    ContiguousLookup(n.log, 0);
  }

  /**
   * A vote is granted exactly when the request is not of an earlier term, the node has no vote in that
   * term or has given it to the same candidate, and the candidate's last entry is of a later term, or
   * of the same term and not before the node's own.
   */
  lemma VoteRequestOutcome(n: NodeData, m: Message)
    requires m.body.VoteRequest? && m.body.term == m.term && Contiguous(n.log)
    ensures var last := if n.log == [] then 0 else n.log[|n.log| - 1].term;
            var granted :=
              && (m.term > n.currentTerm
                  || (m.term == n.currentTerm && (n.votedFor == "" || n.votedFor == m.body.candidate)))
              && (m.body.lastLogTerm > last || (m.body.lastLogTerm == last && m.body.lastLogIndex >= |n.log|));
            var n1 := if m.term > n.currentTerm then Demoted(n, m.term) else n;
            Run1(n, Deliver(m)) == Effect(if granted then n1.(votedFor := m.body.candidate) else n1,
                                          [Message(n.id, m.from, n1.currentTerm, VoteResponse(n1.currentTerm, granted))])
  {
    ContiguousLookup(n.log, 0);
  }

  /** A candidate leads as soon as its own vote and those counted are more than half of the cluster. */
  lemma VoteResponseOutcome(n: NodeData, m: Message)
    requires m.body.VoteResponse? && m.body.term == m.term && Contiguous(n.log)
    ensures var e := Run1(n, Deliver(m));
            var votes := n.votes + {m.from};
            && e.sent == []
            && (m.term > n.currentTerm ==> e.node == Demoted(n, m.term))
            && (m.term <= n.currentTerm && !(n.role == Candidate && m.body.granted) ==> e.node == n)
            && (m.term <= n.currentTerm && n.role == Candidate && m.body.granted ==>
                  if 2 * (|votes| + 1) > |n.peers| + 1 then
                    && e.node == n.(role := Leader, votes := votes, nextIndex := e.node.nextIndex, matchIndex := e.node.matchIndex)
                    && Filled(n.nextIndex, e.node.nextIndex, n.peers, |n.log| + 1)
                    && Filled(n.matchIndex, e.node.matchIndex, n.peers, 0)
                  else e.node == n.(votes := votes))
  {
    ContiguousLookup(n.log, 0);
    SetAllMeaning(n.nextIndex, n.peers, |n.log| + 1);
    SetAllMeaning(n.matchIndex, n.peers, 0);
  }

  /** Every peer has value v, and other keys keep theirs. */
  ghost predicate Filled(before: map<Id, nat>, after: map<Id, nat>, peers: seq<Id>, v: nat) {
    && (forall p :: p in after <==> p in before || p in peers)
    && (forall p :: p in after ==> after[p] == if p in peers then v else before[p])
  }

  // ----- replication -----

  /**
   * The entries es, numbered from prev + 1 on, meet the log: up to k they are there already; from the
   * first one on that is missing or of another term, the log is cut and the rest of es appended.
   */
  ghost predicate Meets(log: seq<Entry>, prev: nat, es: seq<Entry>, k: nat) {
    && k <= |es| && prev + k <= |log|
    && (forall i :: 0 <= i < k ==> log[prev + i].term == es[i].term)
    && (k < |es| && prev + k < |log| ==> log[prev + k].term != es[k].term)
  }

  ghost predicate Numbered(es: seq<Entry>, first: nat) {
    forall i :: 0 <= i < |es| ==> es[i].index == first + i
  }

  ghost function Merged(log: seq<Entry>, prev: nat, es: seq<Entry>, k: nat): seq<Entry>
    requires k <= |es| && prev + k <= |log|
  {
    if k == |es| then log else log[..prev + k] + es[k..]
  }

  lemma MergeStep(log: seq<Entry>, prev: nat, es: seq<Entry>)
    requires Contiguous(log) && Numbered(es, prev + 1) && prev <= |log| && es != []
    ensures AppendOne(log, es[0]) == (if prev < |log| && log[prev].term == es[0].term then log else log[..prev] + [es[0]])
    ensures IsNew(log, es[0]) <==> !(prev < |log| && log[prev].term == es[0].term)
    ensures Contiguous(AppendOne(log, es[0])) && prev + 1 <= |AppendOne(log, es[0])| && Numbered(es[1..], prev + 2)
  {
    hide FirstAt;
    ContiguousLookup(log, prev + 1);
    assert log[..|log|] == log;
    NumberedRest(es, prev + 1);
    CutContiguous(log, prev, es[0]);
    hide Contiguous, Numbered;
  }

  lemma NumberedRest(es: seq<Entry>, first: nat)
    requires es != [] && Numbered(es, first)
    ensures es[0].index == first && Numbered(es[1..], first + 1)
  {
  }

  lemma CutContiguous(log: seq<Entry>, prev: nat, e: Entry)
    requires Contiguous(log) && prev <= |log| && e.index == prev + 1
    ensures Contiguous(log[..prev] + [e])
  {
  }

  lemma Unfold(log: seq<Entry>, es: seq<Entry>)
    requires es != []
    ensures AppendAll(log, es) == AppendAll(AppendOne(log, es[0]), es[1..])
    ensures NewOnes(log, es) == (if IsNew(log, es[0]) then [es[0]] else []) + NewOnes(AppendOne(log, es[0]), es[1..])
  {
  }

  lemma Glue(log: seq<Entry>, prev: nat, es: seq<Entry>)
    requires prev <= |log| && es != []
    ensures log[..prev] + [es[0]] + es[1..] == log[..prev] + es && [es[0]] + es[1..] == es && log[..|log|] == log
  {
  }

  lemma NothingToAppend(log: seq<Entry>, es: seq<Entry>)
    requires es == []
    ensures AppendAll(log, es) == log + es == log && NewOnes(log, es) == es
  {
    assert log + es == log;
  }

  /** Once an entry was appended at the end, all that follow are new. */
  lemma {:induction false} AllNew(log: seq<Entry>, es: seq<Entry>)
    requires Contiguous(log) && Numbered(es, |log| + 1)
    ensures AppendAll(log, es) == log + es && NewOnes(log, es) == es
    decreases |es|
  {
    hide AppendAll, NewOnes, AppendOne, IsNew, Contiguous, Numbered;
    if es == [] {
      NothingToAppend(log, es);
    } else {
      MergeStep(log, |log|, es);
      Unfold(log, es);
      AllNew(AppendOne(log, es[0]), es[1..]);
      Glue(log, |log|, es);
    }
  }

  lemma Skips(log: seq<Entry>, prev: nat, es: seq<Entry>, k: nat)
    requires es != [] && prev < |log| && log[prev].term == es[0].term && Meets(log, prev + 1, es[1..], k)
    ensures Meets(log, prev, es, k + 1) && Merged(log, prev, es, k + 1) == Merged(log, prev + 1, es[1..], k)
    ensures es[1..][k..] == es[k + 1..]
  {
    assert forall i :: 0 < i < |es| ==> es[i] == es[1..][i - 1];
  }

  lemma Cuts(log: seq<Entry>, prev: nat, es: seq<Entry>)
    requires Contiguous(log) && Numbered(es, prev + 1) && prev <= |log| && es != []
    requires !(prev < |log| && log[prev].term == es[0].term)
    ensures Meets(log, prev, es, 0) && AppendAll(log, es) == Merged(log, prev, es, 0) && NewOnes(log, es) == es[0..]
  {
    hide AppendAll, NewOnes, AppendOne, IsNew, Contiguous, Numbered;
    MergeStep(log, prev, es);
    Unfold(log, es);
    AllNew(AppendOne(log, es[0]), es[1..]);
    Glue(log, prev, es);
  }

  /** The append loop comes to one cut and one append, and reports exactly the appended entries as new. */
  lemma {:induction false} AppendIsMerge(log: seq<Entry>, prev: nat, es: seq<Entry>) returns (k: nat)
    requires Contiguous(log) && Numbered(es, prev + 1) && prev <= |log|
    ensures Meets(log, prev, es, k)
    ensures AppendAll(log, es) == Merged(log, prev, es, k) && NewOnes(log, es) == es[k..]
    decreases |es|
  {
    if es == [] {
      k := 0;
    } else if prev < |log| && log[prev].term == es[0].term {
      hide AppendAll, NewOnes, AppendOne, IsNew, Meets, Merged;
      MergeStep(log, prev, es);
      Unfold(log, es);
      var j := AppendIsMerge(log, prev + 1, es[1..]);
      Skips(log, prev, es, j);
      k := j + 1;
    } else {
      k := 0;
      Cuts(log, prev, es);
    }
  }

  /** The follower's node after a request it accepts, where k entries of the request were there already. */
  ghost function Replicated(n: NodeData, m: Message, k: nat): NodeData
    requires m.body.AppendEntries? && k <= |m.body.entries| && m.body.prevLogIndex + k <= |n.log|
  {
    var log := Merged(n.log, m.body.prevLogIndex, m.body.entries, k);
    n.(votedFor := m.body.leader, leaderId := m.body.leader, log := log, journal := n.journal + m.body.entries[k..],
       commitIndex := if m.body.leaderCommit <= n.commitIndex then n.commitIndex
                      else if m.body.leaderCommit <= |log| then m.body.leaderCommit else |log|)
  }

  ghost predicate Fits(n: NodeData, m: Message)
    requires m.body.AppendEntries?
  {
    var prev := m.body.prevLogIndex;
    prev == 0 || (prev <= |n.log| && n.log[prev - 1].term == m.body.prevLogTerm)
  }

  /**
   * A request is accepted exactly when it is not of an earlier term and the node has its previous entry;
   * then the log is merged, the new entries are journalled and the commit index moves up to what the
   * leader announced, as far as the log reaches.  The answer carries the index of the last entry.
   */
  lemma AppendEntriesOutcome(n: NodeData, m: Message) returns (k: nat)
    requires m.body.AppendEntries? && m.body.term == m.term && Contiguous(n.log)
    requires Numbered(m.body.entries, m.body.prevLogIndex + 1)
    ensures var e, t := Run1(n, Deliver(m)), if m.term > n.currentTerm then m.term else n.currentTerm;
            var n1 := if m.term > n.currentTerm then Demoted(n, m.term) else n;
            var accepted := m.term >= n.currentTerm && Fits(n, m);
            && e.sent == [Message(n.id, m.from, t, AppendResponse(t, accepted, |e.node.log|))]
            && (accepted ==> Meets(n.log, m.body.prevLogIndex, m.body.entries, k) && e.node == Replicated(n1, m, k))
            && (!accepted && m.term >= n.currentTerm ==> e.node == n1.(votedFor := m.body.leader, leaderId := m.body.leader))
            && (m.term < n.currentTerm ==> e.node == n)
  {
    hide OnAppendEntries, Meets, Contiguous, Numbered;
    k := HandlerOutcome(if m.term > n.currentTerm then Demoted(n, m.term) else n, m);
  }

  /** The same for the handler, which meets a node that is not behind the request. */
  lemma HandlerOutcome(n: NodeData, m: Message) returns (k: nat)
    requires m.body.AppendEntries? && m.body.term == m.term <= n.currentTerm && Contiguous(n.log)
    requires Numbered(m.body.entries, m.body.prevLogIndex + 1)
    ensures var e, accepted := OnAppendEntries(n, m.from, m.body), m.term == n.currentTerm && Fits(n, m);
            && e.sent == [Message(n.id, m.from, n.currentTerm, AppendResponse(n.currentTerm, accepted, |e.node.log|))]
            && (accepted ==> Meets(n.log, m.body.prevLogIndex, m.body.entries, k) && e.node == Replicated(n, m, k))
            && (!accepted && m.term == n.currentTerm ==> e.node == n.(votedFor := m.body.leader, leaderId := m.body.leader))
            && (m.term < n.currentTerm ==> e.node == n)
  {
    hide AppendAll, NewOnes, HasEntry, Contiguous, Numbered;
    HasEntryMeans(n.log, m.body.prevLogIndex, m.body.prevLogTerm);
    ContiguousLookup(n.log, 0);
    k := 0;
    if m.term == n.currentTerm && Fits(n, m) {
      k := AppendIsMerge(n.log, m.body.prevLogIndex, m.body.entries);
      MergedContiguous(n.log, m.body.prevLogIndex, m.body.entries, k);
    }
  }

  lemma HasEntryMeans(log: seq<Entry>, index: nat, term: nat)
    requires Contiguous(log)
    ensures HasEntry(log, index, term) <==> 0 < index <= |log| && log[index - 1].term == term
  {
    if 0 < index <= |log| && log[index - 1].term == term {
      assert log[index - 1].index == index;
    }
  }

  lemma MergedContiguous(log: seq<Entry>, prev: nat, es: seq<Entry>, k: nat)
    requires Contiguous(log) && Numbered(es, prev + 1) && k <= |es| && prev + k <= |log|
    ensures LastIndex(Merged(log, prev, es, k)) == |Merged(log, prev, es, k)|
  {
    assert Contiguous(Merged(log, prev, es, k));
    ContiguousLookup(Merged(log, prev, es, k), 0);
  }

  /** In a timely run every request numbers its entries from the one after the previous entry on. */
  lemma RequestNumbered(states: seq<Cluster>, actions: seq<Action>, j: nat, m: Message)
    requires IsTimelyRun(states, actions) && j <= |actions| && m in states[j].net && m.body.AppendEntries?
    ensures m.body.term == m.term && Numbered(m.body.entries, m.body.prevLogIndex + 1)
  {
    hide HistoryAt, NodeInv, HistoryInv, MessageInv, IsTimelyRun;
    RunKeepsInv(states, actions, j);
    assert IsRun(states, actions) by {
      TimelyIsRun(states, actions);
    }
    var ids, h := states[j].nodes.Keys, HistoryAt(states, actions, j);
    assert MessageInv(ids, m, h);
    RequestSliced(ids, h, m);
  }

  lemma TimelyIsRun(states: seq<Cluster>, actions: seq<Action>)
    requires IsTimelyRun(states, actions)
    ensures IsRun(states, actions)
  {
  }

  lemma RequestSliced(ids: set<Id>, h: History, m: Message)
    requires HistoryInv(ids, h) && MessageInv(ids, m, h) && m.body.AppendEntries?
    ensures m.body.term == m.term && Numbered(m.body.entries, m.body.prevLogIndex + 1)
  {
    hide LogOk;
    assert TermOk(ids, h, m.term);
    LogOkContiguous(h.logs[m.term], h);
  }

  /**
   * What a delivered append request does in a timely run.  In particular, when it is accepted and
   * announces a higher commit index, the follower's becomes the smaller of that and its log's length;
   * in all other cases it stays.
   */
  lemma DeliveredAppendOutcome(states: seq<Cluster>, actions: seq<Action>, j: nat, m: Message) returns (k: nat)
    requires IsTimelyRun(states, actions) && j < |actions| && actions[j] == Deliver(m) && m.body.AppendEntries?
    ensures m in states[j].net && m.to in states[j].nodes && m.to in states[j + 1].nodes
    ensures var n, n' := states[j].nodes[m.to], states[j + 1].nodes[m.to];
            var n1 := if m.term > n.currentTerm then Demoted(n, m.term) else n;
            var accepted := m.term >= n.currentTerm && Fits(n, m);
            && Message(n.id, m.from, n1.currentTerm, AppendResponse(n1.currentTerm, accepted, |n'.log|)) in states[j + 1].net
            && (accepted ==> Meets(n.log, m.body.prevLogIndex, m.body.entries, k) && n' == Replicated(n1, m, k))
            && (!accepted && m.term >= n.currentTerm ==> n' == n1.(votedFor := m.body.leader, leaderId := m.body.leader))
            && (m.term < n.currentTerm ==> n' == n)
    ensures var n, n' := states[j].nodes[m.to], states[j + 1].nodes[m.to];
            n'.commitIndex ==
              if m.term >= n.currentTerm && Fits(n, m) && m.body.leaderCommit > n.commitIndex then
                if m.body.leaderCommit < |n'.log| then m.body.leaderCommit else |n'.log|
              else n.commitIndex
  {
    hide Run1, Meets, Merged;
    assert Enabled(states[j], actions[j]) && states[j + 1] == Apply(states[j], actions[j]);
    NodeAt(states, actions, j, m.to);
    LogOkContiguous(states[j].nodes[m.to].log, HistoryAt(states, actions, j));
    RequestNumbered(states, actions, j, m);
    k := AppendEntriesOutcome(states[j].nodes[m.to], m);
  }

  // ----- what a leader sends and counts -----

  lemma HeartbeatOutcome(n: NodeData)
    requires Contiguous(n.log)
    ensures var e := Run1(n, Heartbeat(n.id));
            && e.node == n && |e.sent| == (if n.role == Leader then |n.peers| else 0)
            && forall i :: 0 <= i < |e.sent| ==>
                 e.sent[i] == Message(n.id, n.peers[i], n.currentTerm,
                                      AppendEntries(n.currentTerm, n.id, |n.log|, if n.log == [] then 0 else n.log[|n.log| - 1].term,
                                                    [], n.commitIndex))
  {
    ContiguousLookup(n.log, 0);
  }

  /** The request for a peer with next index x: everything from x on, behind the entry before it. */
  lemma AppendBodyOutcome(n: NodeData, peer: Id)
    requires Contiguous(n.log)
    ensures var b := AppendBody(n, peer);
            && b.AppendEntries? && b.term == n.currentTerm && b.leader == n.id && b.leaderCommit == n.commitIndex
            && (peer in n.nextIndex && n.nextIndex[peer] >= 1 ==>
                  var prev := n.nextIndex[peer] - 1;
                  && b.prevLogIndex == prev && b.prevLogTerm == (if 1 <= prev <= |n.log| then n.log[prev - 1].term else 0)
                  && b.entries == (if prev <= |n.log| then n.log[prev..] else []))
            && (peer !in n.nextIndex || n.nextIndex[peer] == 0 ==> b.prevLogIndex == 0xFFFF_FFFF_FFFF_FFFF)
  {
    ContiguousLookup(n.log, 0);
    if peer in n.nextIndex && n.nextIndex[peer] >= 1 {
      ContiguousLookup(n.log, n.nextIndex[peer] - 1);
      ContiguousSuffix(n.log, n.nextIndex[peer], |n.log|);
    }
  }

  lemma ProposeOutcome(n: NodeData, command: string)
    requires Contiguous(n.log)
    ensures n.role != Leader ==> Run1(n, ProposeAt(n.id, command)) == Effect(n, [])
    ensures n.role == Leader ==>
              var e, x := Run1(n, ProposeAt(n.id, command)), Entry(n.currentTerm, |n.log| + 1, command);
              && e.node == n.(log := n.log + [x], journal := n.journal + [x])
              && |e.sent| == |n.peers|
              && forall i :: 0 <= i < |n.peers| ==>
                   e.sent[i] == Message(n.id, n.peers[i], n.currentTerm, AppendBody(e.node, n.peers[i]))
  {
    hide AppendBody;
    ContiguousLookup(n.log, 0);
  }

  /** More than half of the leader and its reporting peers have index x. */
  ghost predicate Majority(length: nat, reported: map<Id, nat>, x: nat) {
    2 * (|set p | p in reported && reported[p] >= x| + (if length >= x then 1 else 0)) > |reported| + 1
  }

  lemma MajorityMeans(length: nat, reported: map<Id, nat>, x: nat)
    ensures Majority(length, reported, x) <==> MajorityReached(length, reported, x)
  {
    assert Above(reported, reported.Keys, x) == set p | p in reported && reported[p] >= x;
  }

  /**
   * A leader takes a success report over into its tables and commits the greatest index that a majority
   * has, if that is new and of its own term; on a refusal it steps one back, but not below 1.
   */
  lemma AppendResponseOutcome(n: NodeData, m: Message) returns (q: nat)
    requires m.body.AppendResponse? && m.body.term == m.term && Contiguous(n.log)
    ensures Run1(n, Deliver(m)).sent == []
    ensures m.term > n.currentTerm ==> Run1(n, Deliver(m)).node == Demoted(n, m.term)
    ensures m.term <= n.currentTerm && n.role != Leader ==> Run1(n, Deliver(m)).node == n
    ensures m.term <= n.currentTerm && n.role == Leader && m.body.success ==>
              var reported := n.matchIndex[m.from := m.body.index];
              && Majority(|n.log|, reported, q) && !Majority(|n.log|, reported, q + 1)
              && Run1(n, Deliver(m)).node ==
                 n.(matchIndex := reported, nextIndex := n.nextIndex[m.from := m.body.index + 1],
                    commitIndex := if q > n.commitIndex && (if q <= |n.log| then n.log[q - 1].term else 0) == n.currentTerm then q
                                   else n.commitIndex)
    ensures m.term <= n.currentTerm && n.role == Leader && !m.body.success ==>
              Run1(n, Deliver(m)).node ==
                if m.from in n.nextIndex && n.nextIndex[m.from] > 1 then
                  n.(nextIndex := n.nextIndex[m.from := n.nextIndex[m.from] - 1])
                else n
  {
    hide QuorumIndex, Majority, MajorityReached;
    var reported := n.matchIndex[m.from := m.body.index];
    q := QuorumIndex(|n.log|, reported);
    ContiguousLookup(n.log, q);
    QuorumMeans(|n.log|, reported, q);
  }

  lemma QuorumMeans(length: nat, reported: map<Id, nat>, q: nat)
    requires q == QuorumIndex(length, reported)
    ensures Majority(length, reported, q) && !Majority(length, reported, q + 1)
  {
    hide Majority;
    MajorityMeans(length, reported, q);
    MajorityMeans(length, reported, q + 1);
    assert IsQuorumIndex(length, reported, q);
  }
}
