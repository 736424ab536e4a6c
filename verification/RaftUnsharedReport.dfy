/**
 * Why the guard on reports is needed: a follower answers success with its whole last index, also
 * when its log goes on past what the request covers, and the leader counts all of it as
 * replicated.  In the run below, which delivers every vote in time, a leader commits an entry
 * that only it holds, the next leader lacks it, and finally two nodes have committed different
 * entries at index 1.
 */
module RaftUnsharedReport {
  import opened RaftTypes
  import opened RaftLog
  import opened RaftQuorum
  import opened RaftStep
  import opened RaftCluster
  import opened RaftTheorems
  import opened RaftStaleVote
  import opened RaftStateMachineSafety

  const X := Entry(1, 1, "x")
  const Y := Entry(2, 1, "y")
  const Z := Entry(3, 2, "z")
  const W := Entry(3, 3, "w")

  /** A timely run in which leaders count reports only in the term they were given in. */
  ghost predicate IsPunctualRun(states: seq<Cluster>, actions: seq<Action>) {
    IsTimelyRun(states, actions) && forall i :: 0 <= i < |actions| ==> CountsInTerm(states[i], actions[i])
  }

  /** A punctual run that has reached a cluster with node n. */
  ghost predicate Has(r: seq<Cluster>, acts: seq<Action>, n: NodeData) {
    IsPunctualRun(r, acts) && n.id in Last(r).nodes && Last(r).nodes[n.id] == n
  }

  /** The run went on with a step of one node; the other nodes and all messages are still there. */
  ghost predicate Onward(r: seq<Cluster>, r': seq<Cluster>, id: Id)
    requires r != [] && r' != []
  {
    && Last(r).net <= Last(r').net
    && forall x :: x in Last(r).nodes && x != id ==> x in Last(r').nodes && Last(r').nodes[x] == Last(r).nodes[x]
  }

  lemma PunctualExtended(r: seq<Cluster>, acts: seq<Action>, a: Action)
    requires IsPunctualRun(r, acts) && Enabled(Last(r), a) && CountsNoStaleVote(Last(r), a) && CountsInTerm(Last(r), a)
    ensures IsPunctualRun(r + [Apply(Last(r), a)], acts + [a])
  {
    hide Apply, Enabled, CountsNoStaleVote, CountsInTerm, Init;
    RunExtended(r, acts, a);
    var r', acts' := r + [Apply(Last(r), a)], acts + [a];
    forall i | 0 <= i < |acts'| ensures CountsNoStaleVote(r'[i], acts'[i]) && CountsInTerm(r'[i], acts'[i]) {
      if i < |acts| {
        assert r'[i] == r[i] && acts'[i] == acts[i];
      }
    }
  }

  /** One step: the actor n becomes e.node and e.sent is added to the network. */
  lemma Do(r: seq<Cluster>, acts: seq<Action>, a: Action, n: NodeData) returns (r': seq<Cluster>, acts': seq<Action>)
    requires Has(r, acts, n) && Actor(a) == n.id
    requires a.Deliver? ==> a.m in Last(r).net && (a.m.body.VoteResponse? ==> a.m.term >= n.currentTerm)
    requires a.Deliver? && a.m.body.AppendResponse? && a.m.body.success ==> a.m.term == a.m.body.term == n.currentTerm
    ensures Has(r', acts', Run1(n, a).node) && Onward(r, r', n.id)
    ensures forall m :: m in Run1(n, a).sent ==> m in Last(r').net
  {
    IdStays(n, a);
    hide Run1, Init;
    r', acts' := r + [Apply(Last(r), a)], acts + [a];
    PunctualExtended(r, acts, a);
  }

  lemma StillHas(r: seq<Cluster>, acts: seq<Action>, r': seq<Cluster>, acts': seq<Action>, n: NodeData, mover: NodeData)
    requires Has(r, acts, n) && Has(r', acts', mover) && Onward(r, r', mover.id) && n.id != mover.id
    ensures Has(r', acts', n)
  {
  }

  lemma StillSent(r: seq<Cluster>, acts: seq<Action>, r': seq<Cluster>, acts': seq<Action>, n: NodeData, mover: NodeData, m: Message)
    requires Has(r, acts, n) && Has(r', acts', mover) && Onward(r, r', mover.id) && m in Last(r).net
    ensures m in Last(r').net
  {
  }

  // ----- single steps -----

  function AskFor(n: NodeData, peer: Id): Message {
    Message(n.id, peer, n.currentTerm, VoteRequest(n.currentTerm, n.id, LastIndex(n.log), LastTerm(n.log)))
  }

  lemma Campaign(r: seq<Cluster>, acts: seq<Action>, n: NodeData, peer: Id)
    returns (r': seq<Cluster>, acts': seq<Action>, n': NodeData)
    requires Has(r, acts, n) && n.role != Leader && peer in n.peers
    ensures Has(r', acts', n') && Onward(r, r', n.id) && n' == Running(n) && AskFor(n', peer) in Last(r').net
  {
    hide Has, Onward;
    r', acts' := Do(r, acts, Timeout(n.id), n);
    n' := Running(n);
    var i :| 0 <= i < |n.peers| && n.peers[i] == peer;
    assert OnElectionTimeout(n).sent[i] == AskFor(n', peer);
  }

  lemma Vote(r: seq<Cluster>, acts: seq<Action>, n: NodeData, m: Message)
    returns (r': seq<Cluster>, acts': seq<Action>, n': NodeData)
    requires Has(r, acts, n) && m in Last(r).net && m.to == n.id && m.body.VoteRequest? && m.body.term == m.term
    requires m.term > n.currentTerm && UpToDate(m.body, n.log) && m.body.candidate == m.from
    ensures Has(r', acts', n') && Onward(r, r', n.id)
    ensures n' == BecomeFollower(n, m.term).(votedFor := m.from) && Grant(n.id, m.from, m.term) in Last(r').net
  {
    hide Has, Onward;
    r', acts' := Do(r, acts, Deliver(m), n);
    n' := BecomeFollower(n, m.term).(votedFor := m.from);
    assert OnMessage(n, m).sent[0] == Grant(n.id, m.from, m.term);
  }

  lemma Win(r: seq<Cluster>, acts: seq<Action>, n: NodeData, voter: Id)
    returns (r': seq<Cluster>, acts': seq<Action>, n': NodeData)
    requires Has(r, acts, n) && Grant(voter, n.id, n.currentTerm) in Last(r).net
    requires n.role == Candidate && n.votes == {} && |n.peers| == 2
    ensures Has(r', acts', n') && Onward(r, r', n.id) && n' == BecomeLeader(n.(votes := {voter}))
  {
    hide Has, Onward;
    var m := Grant(voter, n.id, n.currentTerm);
    r', acts' := Do(r, acts, Deliver(m), n);
    n' := BecomeLeader(n.(votes := {voter}));
    assert n.votes + {voter} == {voter};
  }

  lemma Proposes(r: seq<Cluster>, acts: seq<Action>, n: NodeData, command: string, peer: Id)
    returns (r': seq<Cluster>, acts': seq<Action>, n': NodeData)
    requires Has(r, acts, n) && n.role == Leader && peer in n.peers
    ensures Has(r', acts', n') && Onward(r, r', n.id) && n' == Propose(n, command).node
    ensures Reply(n', peer, AppendBody(n', peer)) in Last(r').net
  {
    hide Has, Onward, AppendBody;
    r', acts' := Do(r, acts, ProposeAt(n.id, command), n);
    n' := Propose(n, command).node;
    var i :| 0 <= i < |n.peers| && n.peers[i] == peer;
    assert Appends(n')[i] == Reply(n', peer, AppendBody(n', peer));
  }

  lemma Beats(r: seq<Cluster>, acts: seq<Action>, n: NodeData, peer: Id)
    returns (r': seq<Cluster>, acts': seq<Action>)
    requires Has(r, acts, n) && n.role == Leader && peer in n.peers
    ensures Has(r', acts', n) && Onward(r, r', n.id) && Reply(n, peer, HeartbeatBody(n)) in Last(r').net
  {
    hide Has, Onward;
    r', acts' := Do(r, acts, Heartbeat(n.id), n);
    var i :| 0 <= i < |n.peers| && n.peers[i] == peer;
    assert Heartbeats(n)[i] == Reply(n, peer, HeartbeatBody(n));
  }

  /** A node handles a request of a term that is not behind its own. */
  lemma Appended(r: seq<Cluster>, acts: seq<Action>, n: NodeData, m: Message)
    returns (r': seq<Cluster>, acts': seq<Action>, n': NodeData)
    requires Has(r, acts, n) && m in Last(r).net && m.to == n.id && m.body.AppendEntries? && m.body.term == m.term
    ensures var e := OnAppendEntries(Stepped(n, m.term), m.from, m.body);
            n' == e.node && Has(r', acts', n') && Onward(r, r', n.id) && e.sent[0] in Last(r').net
  {
    hide Has, Onward, OnAppendEntries;
    r', acts' := Do(r, acts, Deliver(m), n);
    n' := OnAppendEntries(Stepped(n, m.term), m.from, m.body).node;
    AnswersOnce(Stepped(n, m.term), m);
  }

  lemma AnswersOnce(n: NodeData, m: Message)
    requires m.body.AppendEntries?
    ensures |OnAppendEntries(n, m.from, m.body).sent| == 1
  {
  }

  lemma Counted(r: seq<Cluster>, acts: seq<Action>, n: NodeData, m: Message)
    returns (r': seq<Cluster>, acts': seq<Action>, n': NodeData)
    requires Has(r, acts, n) && m in Last(r).net && m.to == n.id && m.body.AppendResponse? && m.term <= n.currentTerm
    requires m.body.success ==> m.term == m.body.term == n.currentTerm
    ensures n' == OnAppendResponse(n, m.from, m.body) && Has(r', acts', n') && Onward(r, r', n.id)
  {
    hide Has, Onward, OnAppendResponse;
    r', acts' := Do(r, acts, Deliver(m), n);
    n' := OnAppendResponse(n, m.from, m.body);
  }

  // ----- the run -----

  /** f leads term 1 with g's vote and appends x, which nobody else receives. */
  lemma OldLeader(l: Id, f: Id, g: Id)
    returns (r: seq<Cluster>, acts: seq<Action>, nf: NodeData, ng: NodeData)
    requires l != f && f != g && l != g && NOBODY !in {l, f, g}
    ensures Has(r, acts, Start(l, f, g)) && Has(r, acts, nf) && Has(r, acts, ng)
    ensures nf.id == f && nf.peers == [l, g] && nf.currentTerm == 1 && nf.log == nf.journal == [X] && nf.commitIndex == 0
    ensures nf.matchIndex.Keys == {l, g}
    ensures ng == Start(g, l, f).(currentTerm := 1, votedFor := f)
  {
    hide Has, Onward, Fresh;
    var nl, nf0, ng0 := Start(l, f, g), Start(f, l, g), Start(g, l, f);
    var r0 := [Fresh(l, f, g)];
    FreshHas(l, f, g);
    var r1, acts1, nf1 := Campaign(r0, [], nf0, g);
    StillHas(r0, [], r1, acts1, nl, nf1);
    StillHas(r0, [], r1, acts1, ng0, nf1);
    var r2, acts2, ng2 := Vote(r1, acts1, ng0, AskFor(nf1, g));
    StillHas(r1, acts1, r2, acts2, nl, ng2);
    StillHas(r1, acts1, r2, acts2, nf1, ng2);
    SetAllMeaning(map[], [l, g], 0);
    var r3, acts3, nf3 := Win(r2, acts2, nf1, g);
    StillHas(r2, acts2, r3, acts3, nl, nf3);
    StillHas(r2, acts2, r3, acts3, ng2, nf3);
    var r4, acts4, nf4 := Proposes(r3, acts3, nf3, "x", g);
    StillHas(r3, acts3, r4, acts4, nl, nf4);
    StillHas(r3, acts3, r4, acts4, ng2, nf4);
    return r4, acts4, nf4, ng2;
  }

  lemma FreshHas(l: Id, f: Id, g: Id)
    requires l != f && f != g && l != g && NOBODY !in {l, f, g}
    ensures Has([Fresh(l, f, g)], [], Start(l, f, g))
    ensures Has([Fresh(l, f, g)], [], Start(f, l, g)) && Has([Fresh(l, f, g)], [], Start(g, l, f))
  {
    FreshRun(l, f, g);
  }

  /** l, which has not heard of term 1, leads term 2 with g's vote. */
  lemma NewLeader(l: Id, f: Id, g: Id)
    returns (r: seq<Cluster>, acts: seq<Action>, nl: NodeData, nf: NodeData, ng: NodeData)
    requires l != f && f != g && l != g && NOBODY !in {l, f, g}
    ensures Has(r, acts, nl) && Has(r, acts, nf) && Has(r, acts, ng)
    ensures nl == BecomeLeader(Start(l, f, g).(currentTerm := 2, role := Candidate, votedFor := l, votes := {g}))
    ensures nf.id == f && nf.peers == [l, g] && nf.currentTerm == 1 && nf.log == nf.journal == [X] && nf.commitIndex == 0
    ensures nf.matchIndex.Keys == {l, g}
    ensures ng == Start(g, l, f).(currentTerm := 2, votedFor := l)
  {
    hide Has, Onward;
    r, acts, nf, ng := OldLeader(l, f, g);
    var r1, acts1, nl1 := Campaign(r, acts, Start(l, f, g), g);
    StillHas(r, acts, r1, acts1, nf, nl1);
    StillHas(r, acts, r1, acts1, ng, nl1);
    var r2, acts2, nl2 := Campaign(r1, acts1, nl1, g);
    StillHas(r1, acts1, r2, acts2, nf, nl2);
    StillHas(r1, acts1, r2, acts2, ng, nl2);
    var r3, acts3, ng3 := Vote(r2, acts2, ng, AskFor(nl2, g));
    StillHas(r2, acts2, r3, acts3, nf, ng3);
    StillHas(r2, acts2, r3, acts3, nl2, ng3);
    var r4, acts4, nl4 := Win(r3, acts3, nl2, g);
    StillHas(r3, acts3, r4, acts4, nf, nl4);
    StillHas(r3, acts3, r4, acts4, ng3, nl4);
    return r4, acts4, nl4, nf, ng3;
  }

  /** Of three nodes, the leader's own index and one more report make a majority. */
  lemma OneReportIsEnough(last: nat, table: map<Id, nat>, p: Id, q: Id)
    requires p != q && table.Keys == {p, q} && table[p] == last && table[q] == 0 && last >= 1
    ensures QuorumIndex(last, table) == last
  {
    assert Above(table, table.Keys, last) == {p};
    assert Above(table, table.Keys, last + 1) == {};
    assert |table| == |table.Keys| == 2;
    assert MajorityReached(last, table, last) && !MajorityReached(last, table, last + 1);
  }

  /** Its heartbeat reaches f, which reports index 1; l appends y, counts the report and commits y. */
  lemma FalseCommit(l: Id, f: Id, g: Id)
    returns (r: seq<Cluster>, acts: seq<Action>, nl: NodeData, nf: NodeData, ng: NodeData)
    requires l != f && f != g && l != g && NOBODY !in {l, f, g}
    ensures Has(r, acts, nl) && Has(r, acts, nf) && Has(r, acts, ng)
    ensures nl.id == l && nl.currentTerm == 2 && nl.log == [Y] && nl.commitIndex == 1
    ensures nf.id == f && nf.peers == [l, g] && nf.role == Follower && nf.currentTerm == 2
            && nf.log == [X] && nf.commitIndex == 0 && nf.matchIndex.Keys == {l, g}
    ensures ng == Start(g, l, f).(currentTerm := 2, votedFor := l)
  {
    hide Has, Onward, OnAppendEntries, OnAppendResponse, BecomeLeader;
    r, acts, nl, nf, ng := NewLeader(l, f, g);
    LeaderFields(l, f, g, nl);
    var r1, acts1 := Beats(r, acts, nl, f);
    StillHas(r, acts, r1, acts1, nf, nl);
    StillHas(r, acts, r1, acts1, ng, nl);
    FollowerReports(nf, nl);
    var r2, acts2, nf2 := Appended(r1, acts1, nf, Reply(nl, f, HeartbeatBody(nl)));
    StillHas(r1, acts1, r2, acts2, nl, nf2);
    StillHas(r1, acts1, r2, acts2, ng, nf2);
    var r3, acts3, nl3 := Proposes(r2, acts2, nl, "y", g);
    StillHas(r2, acts2, r3, acts3, nf2, nl3);
    StillHas(r2, acts2, r3, acts3, ng, nl3);
    StillSent(r2, acts2, r3, acts3, nl, nl3, ReportOf(f, l));
    LeaderCounts(nl3, f, g);
    var r4, acts4, nl4 := Counted(r3, acts3, nl3, ReportOf(f, l));
    StillHas(r3, acts3, r4, acts4, nf2, nl4);
    StillHas(r3, acts3, r4, acts4, ng, nl4);
    return r4, acts4, nl4, nf2, ng;
  }

  /** f's answer to l's heartbeat of term 2: success, with the index of its own last entry. */
  function ReportOf(f: Id, l: Id): Message {
    Message(f, l, 2, AppendResponse(2, true, 1))
  }

  lemma LeaderFields(l: Id, f: Id, g: Id, nl: NodeData)
    requires l != f && f != g && l != g
    requires nl == BecomeLeader(Start(l, f, g).(currentTerm := 2, role := Candidate, votedFor := l, votes := {g}))
    ensures nl.id == l && nl.peers == [f, g] && nl.role == Leader && nl.currentTerm == 2 && nl.log == []
    ensures nl.commitIndex == 0 && nl.matchIndex == map[f := 0, g := 0] && nl.nextIndex == map[f := 1, g := 1]
  {
    TablesOf(nl, f, g);
  }

  lemma FollowerReports(nf: NodeData, nl: NodeData)
    requires nf.currentTerm == 1 && nf.log == [X] && nf.commitIndex == 0
    requires nl.currentTerm == 2 && nl.log == [] && nl.commitIndex == 0
    ensures var e := OnAppendEntries(Stepped(nf, 2), nl.id, HeartbeatBody(nl));
            && e.sent == [ReportOf(nf.id, nl.id)]
            && e.node == BecomeFollower(nf, 2).(votedFor := nl.id, leaderId := nl.id, journal := e.node.journal)
  {
    assert AppendAll([X], []) == [X];
  }

  lemma LeaderCounts(nl: NodeData, f: Id, g: Id)
    requires f != g && nl.role == Leader && nl.currentTerm == 2 && nl.log == [Y] && nl.commitIndex == 0
    requires nl.matchIndex == map[f := 0, g := 0]
    ensures var n' := OnAppendResponse(nl, f, AppendResponse(2, true, 1));
            n'.commitIndex == 1 && n'.log == [Y] && n'.currentTerm == 2 && n'.id == nl.id
  {
    OneReportIsEnough(1, nl.matchIndex[f := 1], f, g);
  }

  lemma TablesOf(n: NodeData, p: Id, q: Id)
    requires p != q && n == BecomeLeader(n.(nextIndex := map[], matchIndex := map[])) && n.peers == [p, q]
    ensures n.matchIndex == map[p := 0, q := 0]
    ensures n.nextIndex == map[p := LastIndex(n.log) + 1, q := LastIndex(n.log) + 1]
  {
    SetAllMeaning(map[], n.peers, LastIndex(n.log) + 1);
    SetAllMeaning(map[], n.peers, 0);
  }

  /**
   * Leader completeness fails without the guard: l has committed y at index 1, and f leads the
   * later term 3 with x at index 1.
   */
  lemma CommittedEntryMissing(l: Id, f: Id, g: Id)
    returns (r: seq<Cluster>, acts: seq<Action>, nl: NodeData, nf: NodeData, ng: NodeData)
    requires l != f && f != g && l != g && NOBODY !in {l, f, g}
    ensures Has(r, acts, nl) && Has(r, acts, nf) && Has(r, acts, ng)
    ensures nl.id == l && nl.currentTerm == 2 && nl.log == [Y] && nl.commitIndex == 1
    ensures nf.id == f && nf.peers == [l, g] && nf.role == Leader && nf.currentTerm == 3
            && nf.log == [X] && nf.commitIndex == 0
    ensures g in nf.nextIndex && nf.nextIndex[g] == 2
    ensures nf.matchIndex.Keys == {l, g} && nf.matchIndex[l] == 0
    ensures ng == Start(g, l, f).(currentTerm := 3, votedFor := f)
  {
    hide Has, Onward;
    r, acts, nl, nf, ng := FalseCommit(l, f, g);
    var r1, acts1, nf1 := Campaign(r, acts, nf, g);
    StillHas(r, acts, r1, acts1, nl, nf1);
    StillHas(r, acts, r1, acts1, ng, nf1);
    var r2, acts2, ng2 := Vote(r1, acts1, ng, AskFor(nf1, g));
    StillHas(r1, acts1, r2, acts2, nl, ng2);
    StillHas(r1, acts1, r2, acts2, nf1, ng2);
    SetAllMeaning(nf1.nextIndex, nf1.peers, 2);
    SetAllMeaning(nf1.matchIndex, nf1.peers, 0);
    var r3, acts3, nf3 := Win(r2, acts2, nf1, g);
    StillHas(r2, acts2, r3, acts3, nl, nf3);
    StillHas(r2, acts2, r3, acts3, ng2, nf3);
    return r3, acts3, nl, nf3, ng2;
  }

  function RefusalOf(g: Id, f: Id): Message {
    Message(g, f, 3, AppendResponse(3, false, 0))
  }

  function AcceptanceOf(g: Id, f: Id): Message {
    Message(g, f, 3, AppendResponse(3, true, 3))
  }

  /** f's first request to g starts behind g's empty log and is refused. */
  lemma FirstTry(nf: NodeData, ng: NodeData)
    requires nf.role == Leader && nf.currentTerm == 3 && nf.log == [X, Z] && nf.commitIndex == 0
    requires ng.id in nf.nextIndex && nf.nextIndex[ng.id] == 2
    requires ng.currentTerm == 3 && ng.log == []
    ensures var b := AppendBody(nf, ng.id);
            && b.AppendEntries? && b.term == 3
            && OnAppendEntries(Stepped(ng, 3), nf.id, b)
               == Effect(ng.(votedFor := nf.id, leaderId := nf.id), [RefusalOf(ng.id, nf.id)])
  {
    assert AppendBody(nf, ng.id).prevLogIndex == 1;
    assert !HasEntry([], 1, AppendBody(nf, ng.id).prevLogTerm);
  }

  lemma StepsBack(nf: NodeData, g: Id)
    requires nf.role == Leader && nf.currentTerm == 3 && g in nf.nextIndex && nf.nextIndex[g] == 2
    ensures OnAppendResponse(nf, g, AppendResponse(3, false, 0)) == nf.(nextIndex := nf.nextIndex[g := 1])
  {
  }

  /** The second request starts at the beginning and brings g up to date. */
  lemma SecondTry(nf: NodeData, ng: NodeData)
    requires nf.role == Leader && nf.currentTerm == 3 && nf.log == [X, Z, W] && nf.commitIndex == 0
    requires ng.id in nf.nextIndex && nf.nextIndex[ng.id] == 1
    requires ng.currentTerm == 3 && ng.log == [] && ng.commitIndex == 0
    ensures var b := AppendBody(nf, ng.id);
            && b.AppendEntries? && b.term == 3
            && OnAppendEntries(Stepped(ng, 3), nf.id, b).sent == [AcceptanceOf(ng.id, nf.id)]
            && OnAppendEntries(Stepped(ng, 3), nf.id, b).node.id == ng.id
  {
    assert Contiguous(nf.log);
    ContiguousSuffix(nf.log, 1, 3);
    assert AppendBody(nf, ng.id).entries == [X, Z, W];
    assert AppendBody(nf, ng.id).prevLogIndex == 0;
    ThreeEntries();
    hide AppendAll, NewOnes;
  }

  lemma ThreeEntries()
    ensures AppendAll([], [X, Z, W]) == [X, Z, W]
  {
    assert [X, Z, W][1..] == [Z, W] && [Z, W][1..] == [W] && [W][1..] == [];
    assert AppendOne([], X) == [X] && AppendOne([X], Z) == [X, Z] && AppendOne([X, Z], W) == [X, Z, W];
    assert AppendAll([], [X, Z, W]) == AppendAll([X], [Z, W]) == AppendAll([X, Z], [W]) == AppendAll([X, Z, W], []);
  }

  lemma LeaderCommitsAll(nf: NodeData, l: Id, g: Id)
    requires l != g && nf.role == Leader && nf.currentTerm == 3 && nf.log == [X, Z, W] && nf.commitIndex == 0
    requires nf.matchIndex.Keys == {l, g} && nf.matchIndex[l] == 0
    ensures var n' := OnAppendResponse(nf, g, AppendResponse(3, true, 3));
            n'.commitIndex == 3 && n'.log == [X, Z, W] && n'.id == nf.id
  {
    OneReportIsEnough(3, nf.matchIndex[g := 3], g, l);
    assert Contiguous(nf.log);
    ContiguousLookup(nf.log, 3);
  }

  /**
   * State machine safety fails without the guard on what followers report: in every cluster of three
   * some timely run, with every report counted in its own term, ends with two nodes that have
   * committed different entries at index 1.
   */
  lemma DifferentEntriesCommitted(l: Id, f: Id, g: Id)
    returns (r: seq<Cluster>, acts: seq<Action>, nl: NodeData, nf: NodeData)
    requires l != f && f != g && l != g && NOBODY !in {l, f, g}
    ensures IsPunctualRun(r, acts) && l in Last(r).nodes && f in Last(r).nodes
    ensures Last(r).nodes[l].commitIndex >= 1 && Last(r).nodes[f].commitIndex >= 1
    ensures [Y] <= Last(r).nodes[l].log && [X] <= Last(r).nodes[f].log
  {
    hide Onward, OnAppendEntries, OnAppendResponse, AppendBody;
    var r0, acts0, nl0, nf0, ng0 := CommittedEntryMissing(l, f, g);
    var r1, acts1, nf1 := Proposes(r0, acts0, nf0, "z", g);
    StillHas(r0, acts0, r1, acts1, nl0, nf1);
    StillHas(r0, acts0, r1, acts1, ng0, nf1);
    FirstTry(nf1, ng0);
    var r2, acts2, ng2 := Appended(r1, acts1, ng0, Reply(nf1, g, AppendBody(nf1, g)));
    StillHas(r1, acts1, r2, acts2, nl0, ng2);
    StillHas(r1, acts1, r2, acts2, nf1, ng2);
    StepsBack(nf1, g);
    var r3, acts3, nf3 := Counted(r2, acts2, nf1, RefusalOf(g, f));
    StillHas(r2, acts2, r3, acts3, nl0, nf3);
    StillHas(r2, acts2, r3, acts3, ng2, nf3);
    r, acts, nl, nf := LastSteps(r3, acts3, nl0, nf3, ng2);
  }

  lemma LastSteps(r0: seq<Cluster>, acts0: seq<Action>, nl: NodeData, nf0: NodeData, ng0: NodeData)
    returns (r: seq<Cluster>, acts: seq<Action>, nl': NodeData, nf: NodeData)
    requires Has(r0, acts0, nl) && Has(r0, acts0, nf0) && Has(r0, acts0, ng0)
    requires nl.id != nf0.id && nl.id != ng0.id && nf0.id != ng0.id
    requires nl.log == [Y] && nl.commitIndex == 1
    requires nf0.role == Leader && nf0.currentTerm == 3 && nf0.log == [X, Z] && nf0.commitIndex == 0
    requires ng0.id in nf0.peers && ng0.id in nf0.nextIndex && nf0.nextIndex[ng0.id] == 1
    requires nf0.matchIndex.Keys == {nl.id, ng0.id} && nf0.matchIndex[nl.id] == 0
    requires ng0.currentTerm == 3 && ng0.log == [] && ng0.commitIndex == 0
    ensures Has(r, acts, nl) && Has(r, acts, nf) && nf.id == nf0.id && nl' == nl
    ensures nf.commitIndex == 3 && nf.log == [X, Z, W]
  {
    hide Has, Onward, OnAppendEntries, OnAppendResponse, AppendBody;
    var f, g := nf0.id, ng0.id;
    var r1, acts1, nf1 := Proposes(r0, acts0, nf0, "w", g);
    StillHas(r0, acts0, r1, acts1, nl, nf1);
    StillHas(r0, acts0, r1, acts1, ng0, nf1);
    SecondTry(nf1, ng0);
    var r2, acts2, ng2 := Appended(r1, acts1, ng0, Reply(nf1, g, AppendBody(nf1, g)));
    StillHas(r1, acts1, r2, acts2, nl, ng2);
    StillHas(r1, acts1, r2, acts2, nf1, ng2);
    LeaderCommitsAll(nf1, nl.id, g);
    var r3, acts3, nf3 := Counted(r2, acts2, nf1, AcceptanceOf(g, f));
    StillHas(r2, acts2, r3, acts3, nl, nf3);
    return r3, acts3, nl, nf3;
  }
}
