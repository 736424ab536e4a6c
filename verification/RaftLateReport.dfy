/**
 * Why a leader must count a report only in the term it was given in.  handleAppendEntriesResponse
 * does not compare the report's term with an earlier one, so a report delayed from term 1 can be
 * counted in term 3 for an entry its sender never had.  In the run below every vote arrives in time
 * and every follower reports only entries it shares with the leader, and still two nodes of five
 * commit different entries at index 2.
 */
module RaftLateReport {
  import opened RaftTypes
  import opened RaftLog
  import opened RaftQuorum
  import opened RaftStep
  import opened RaftCluster
  import opened RaftInvariant
  import opened RaftTheorems
  import opened RaftEvidence
  import opened RaftCommit
  import opened RaftCommitAppend
  import opened RaftStateMachineSafety
  import opened RaftStaleVote
  import opened RaftUnsharedReport

  const A1 := Entry(1, 1, "a1")
  const A2 := Entry(1, 2, "a2")
  const B := Entry(2, 1, "b")
  const C := Entry(3, 2, "c")
  const D := Entry(4, 2, "d")

  /** A timely run in which followers report only what they share with the leader. */
  ghost predicate IsSharingRun(states: seq<Cluster>, actions: seq<Action>) {
    IsTimelyRun(states, actions) && forall i :: 0 <= i < |actions| ==> SharesReport(states[i], actions[i])
  }

  /** One node has moved; the others stay, and no message is lost. */
  ghost predicate Moves(c: Cluster, c': Cluster, n': NodeData) {
    n'.id in c.nodes && c'.nodes == c.nodes[n'.id := n'] && c.net <= c'.net
  }

  lemma Act(r: seq<Cluster>, acts: seq<Action>, a: Action, n: NodeData) returns (r': seq<Cluster>, acts': seq<Action>)
    requires IsSharingRun(r, acts) && n.id in Last(r).nodes && Last(r).nodes[n.id] == n && Actor(a) == n.id
    requires a.Deliver? ==> a.m in Last(r).net && (a.m.body.VoteResponse? ==> a.m.term >= n.currentTerm)
    requires a.Deliver? && a.m.body.AppendEntries? && Accepts(Stepped(n, a.m.term), a.m.body) ==>
               ReportsOnlyShared(Stepped(n, a.m.term), a.m.body)
    ensures r' != [] && IsSharingRun(r', acts') && Moves(Last(r), Last(r'), Run1(n, a).node)
    ensures forall m :: m in Run1(n, a).sent ==> m in Last(r').net
  {
    IdStays(n, a);
    hide Run1, Init, Accepts, ReportsOnlyShared;
    assert Enabled(Last(r), a) && CountsNoStaleVote(Last(r), a) && SharesReport(Last(r), a);
    r', acts' := r + [Apply(Last(r), a)], acts + [a];
    SharingExtended(r, acts, a);
  }

  lemma SharingExtended(r: seq<Cluster>, acts: seq<Action>, a: Action)
    requires IsSharingRun(r, acts) && Enabled(Last(r), a) && CountsNoStaleVote(Last(r), a) && SharesReport(Last(r), a)
    ensures IsSharingRun(r + [Apply(Last(r), a)], acts + [a])
  {
    hide Apply, Enabled, CountsNoStaleVote, SharesReport, Init;
    RunExtended(r, acts, a);
    var r', acts' := r + [Apply(Last(r), a)], acts + [a];
    forall i | 0 <= i < |acts'| ensures CountsNoStaleVote(r'[i], acts'[i]) && SharesReport(r'[i], acts'[i]) {
      if i < |acts| {
        assert r'[i] == r[i] && acts'[i] == acts[i];
      }
    }
  }

  // ----- single steps -----

  ghost predicate Present(r: seq<Cluster>, acts: seq<Action>, n: NodeData) {
    r != [] && IsSharingRun(r, acts) && n.id in Last(r).nodes && Last(r).nodes[n.id] == n
  }

  lemma Starts(r: seq<Cluster>, acts: seq<Action>, n: NodeData) returns (r': seq<Cluster>, acts': seq<Action>)
    requires Present(r, acts, n) && n.role != Leader
    ensures r' != [] && IsSharingRun(r', acts') && Moves(Last(r), Last(r'), Running(n))
    ensures forall p :: p in n.peers ==> AskFor(Running(n), p) in Last(r').net
  {
    hide Moves, IsSharingRun;
    r', acts' := Act(r, acts, Timeout(n.id), n);
    forall p | p in n.peers ensures AskFor(Running(n), p) in Last(r').net {
      var i :| 0 <= i < |n.peers| && n.peers[i] == p;
      assert OnElectionTimeout(n).sent[i] == AskFor(Running(n), p);
    }
  }

  function Voted(n: NodeData, term: nat, candidate: Id): NodeData {
    BecomeFollower(n, term).(votedFor := candidate)
  }

  lemma Votes(r: seq<Cluster>, acts: seq<Action>, n: NodeData, m: Message) returns (r': seq<Cluster>, acts': seq<Action>)
    requires Present(r, acts, n) && m in Last(r).net && m.to == n.id && m.body.VoteRequest? && m.body.term == m.term
    requires m.term > n.currentTerm && UpToDate(m.body, n.log) && m.body.candidate == m.from
    ensures r' != [] && IsSharingRun(r', acts') && Moves(Last(r), Last(r'), Voted(n, m.term, m.from))
    ensures Grant(n.id, m.from, m.term) in Last(r').net
  {
    hide Moves, IsSharingRun;
    r', acts' := Act(r, acts, Deliver(m), n);
    assert OnMessage(n, m).sent[0] == Grant(n.id, m.from, m.term);
  }

  /** Of five, a candidate needs two votes besides its own. */
  lemma Tallies(r: seq<Cluster>, acts: seq<Action>, n: NodeData, voter: Id) returns (r': seq<Cluster>, acts': seq<Action>)
    requires Present(r, acts, n) && Grant(voter, n.id, n.currentTerm) in Last(r).net && n.role == Candidate && |n.peers| == 4
    ensures r' != [] && IsSharingRun(r', acts')
    ensures n.votes == {} ==> Moves(Last(r), Last(r'), n.(votes := {voter}))
    ensures |n.votes| == 1 && voter !in n.votes ==> Moves(Last(r), Last(r'), BecomeLeader(n.(votes := n.votes + {voter})))
  {
    hide Moves, IsSharingRun;
    var m := Grant(voter, n.id, n.currentTerm);
    r', acts' := Act(r, acts, Deliver(m), n);
    assert n.votes == {} ==> n.votes + {voter} == {voter};
  }

  lemma Offers(r: seq<Cluster>, acts: seq<Action>, n: NodeData, command: string) returns (r': seq<Cluster>, acts': seq<Action>)
    requires Present(r, acts, n) && n.role == Leader
    ensures r' != [] && IsSharingRun(r', acts') && Moves(Last(r), Last(r'), Propose(n, command).node)
    ensures var n' := Propose(n, command).node; forall p :: p in n.peers ==> Reply(n', p, AppendBody(n', p)) in Last(r').net
  {
    hide Moves, IsSharingRun, AppendBody;
    r', acts' := Act(r, acts, ProposeAt(n.id, command), n);
    var n' := Propose(n, command).node;
    forall p | p in n.peers ensures Reply(n', p, AppendBody(n', p)) in Last(r').net {
      var i :| 0 <= i < |n.peers| && n.peers[i] == p;
      assert Appends(n')[i] == Reply(n', p, AppendBody(n', p));
    }
  }

  function Report(from: Id, to: Id, term: nat, index: nat): Message {
    Message(from, to, term, AppendResponse(term, true, index))
  }

  /** What a node is after accepting a request whose entries end its log. */
  ghost function Took(n: NodeData, m: Message, log: seq<Entry>): NodeData
    requires m.body.AppendEntries?
  {
    Stepped(n, m.term).(votedFor := m.from, leaderId := m.from, log := log, journal := n.journal + NewOnes(n.log, m.body.entries))
  }

  lemma Takes(r: seq<Cluster>, acts: seq<Action>, n: NodeData, m: Message, log: seq<Entry>)
    returns (r': seq<Cluster>, acts': seq<Action>)
    requires Present(r, acts, n) && m in Last(r).net && m.to == n.id && m.body.AppendEntries? && m.body.term == m.term
    requires m.term >= n.currentTerm && m.body.leader == m.from && m.body.leaderCommit == 0
    requires m.body.prevLogIndex == 0 || HasEntry(n.log, m.body.prevLogIndex, m.body.prevLogTerm)
    requires log == AppendAll(n.log, m.body.entries) && |log| == m.body.prevLogIndex + |m.body.entries| == LastIndex(log)
    ensures r' != [] && IsSharingRun(r', acts') && Moves(Last(r), Last(r'), Took(n, m, log))
    ensures Report(n.id, m.from, m.term, |log|) in Last(r').net
  {
    hide Moves, IsSharingRun, HasEntry, AppendAll, NewOnes;
    assert ReportsOnlyShared(Stepped(n, m.term), m.body);
    r', acts' := Act(r, acts, Deliver(m), n);
    assert OnAppendEntries(Stepped(n, m.term), m.from, m.body).sent[0] == Report(n.id, m.from, m.term, |log|);
  }

  /** A leader counts a success report of its own or an earlier term. */
  lemma Counts(r: seq<Cluster>, acts: seq<Action>, n: NodeData, from: Id, term: nat, index: nat)
    returns (r': seq<Cluster>, acts': seq<Action>)
    requires Present(r, acts, n) && Report(from, n.id, term, index) in Last(r).net && term <= n.currentTerm
    ensures r' != [] && IsSharingRun(r', acts') && Moves(Last(r), Last(r'), OnAppendResponse(n, from, AppendResponse(term, true, index)))
  {
    hide Moves, IsSharingRun, OnAppendResponse;
    r', acts' := Act(r, acts, Deliver(Report(from, n.id, term, index)), n);
  }

  // ----- an election -----

  function Elect(n: NodeData, v: Id, w: Id): NodeData {
    BecomeLeader(Running(n).(votes := {v} + {w}))
  }

  lemma ElectId(n: NodeData, v: Id, w: Id)
    ensures Elect(n, v, w).id == n.id
  {
  }

  lemma Elected(r: seq<Cluster>, acts: seq<Action>, n: NodeData, v: NodeData, w: NodeData)
    returns (r': seq<Cluster>, acts': seq<Action>)
    requires Present(r, acts, n) && Present(r, acts, v) && Present(r, acts, w) && n.id != v.id && n.id != w.id && v.id != w.id
    requires n.role != Leader && |n.peers| == 4 && v.id in n.peers && w.id in n.peers
    requires v.currentTerm <= n.currentTerm && w.currentTerm <= n.currentTerm
    requires UpToDate(AskFor(Running(n), v.id).body, v.log) && UpToDate(AskFor(Running(n), w.id).body, w.log)
    ensures r' != [] && IsSharingRun(r', acts') && Last(r).net <= Last(r').net
    ensures var t := n.currentTerm + 1;
            Last(r').nodes == Last(r).nodes[v.id := Voted(v, t, n.id)][w.id := Voted(w, t, n.id)][n.id := Elect(n, v.id, w.id)]
  {
    hide IsSharingRun, UpToDate, BecomeLeader;
    var t, n1 := n.currentTerm + 1, Running(n);
    var r1, acts1 := Starts(r, acts, n);
    var r2, acts2 := Votes(r1, acts1, v, AskFor(n1, v.id));
    var r3, acts3 := Votes(r2, acts2, w, AskFor(n1, w.id));
    var r4, acts4 := Tallies(r3, acts3, n1, v.id);
    var n2 := n1.(votes := {v.id});
    assert |n2.votes| == 1 && w.id !in n2.votes;
    r', acts' := Tallies(r4, acts4, n2, w.id);
    ElectId(n, v.id, w.id);
    LastWins(Last(r).nodes, n.id, v.id, w.id, n1, Voted(v, t, n.id), Voted(w, t, n.id), n2, Elect(n, v.id, w.id));
  }

  lemma LastWins(m: map<Id, NodeData>, n: Id, v: Id, w: Id,
                 n1: NodeData, v1: NodeData, w1: NodeData, n2: NodeData, n3: NodeData)
    requires n != v && n != w
    ensures m[n := n1][v := v1][w := w1][n := n2][n := n3] == m[v := v1][w := w1][n := n3]
  {
  }

  lemma LeaderTables(n: NodeData)
    requires n.matchIndex.Keys <= set p | p in n.peers
    ensures var n' := BecomeLeader(n);
            && n'.matchIndex.Keys == (set p | p in n.peers)
            && forall p :: p in n.peers ==> p in n'.matchIndex && n'.matchIndex[p] == 0
                                            && p in n'.nextIndex && n'.nextIndex[p] == LastIndex(n.log) + 1
  {
    SetAllMeaning(n.nextIndex, n.peers, LastIndex(n.log) + 1);
    SetAllMeaning(n.matchIndex, n.peers, 0);
  }

  // ----- five nodes -----

  ghost predicate FiveIds(ids: seq<Id>) {
    |ids| == 5 && NOBODY !in ids && forall i, j :: 0 <= i < j < 5 ==> ids[i] != ids[j]
  }

  function Peers(ids: seq<Id>, k: nat): seq<Id>
    requires k < |ids|
  {
    ids[..k] + ids[k + 1..]
  }

  /** The run has reached a cluster with these nodes. */
  ghost predicate Stage(r: seq<Cluster>, acts: seq<Action>, cast: seq<NodeData>) {
    && (forall i, j :: 0 <= i < j < |cast| ==> cast[i].id != cast[j].id)
    && (forall i :: 0 <= i < |cast| ==> Present(r, acts, cast[i]))
  }

  lemma OnStage(r: seq<Cluster>, acts: seq<Action>, cast: seq<NodeData>, k: nat)
    requires Stage(r, acts, cast) && k < |cast|
    ensures Present(r, acts, cast[k]) && r != [] && forall i :: 0 <= i < |cast| && i != k ==> cast[i].id != cast[k].id
  {
  }

  lemma StageMoves(r: seq<Cluster>, acts: seq<Action>, r': seq<Cluster>, acts': seq<Action>, cast: seq<NodeData>, k: nat, n': NodeData)
    requires Stage(r, acts, cast) && k < |cast| && n'.id == cast[k].id && r != [] && r' != []
    requires IsSharingRun(r', acts') && Moves(Last(r), Last(r'), n')
    ensures Stage(r', acts', cast[k := n']) && Last(r).net <= Last(r').net
  {
    hide IsSharingRun;
    var cast' := cast[k := n'];
    forall i | 0 <= i < |cast'| ensures Present(r', acts', cast'[i]) {
      assert Present(r, acts, cast[i]);
    }
  }

  lemma StageOffers(r: seq<Cluster>, acts: seq<Action>, cast: seq<NodeData>, k: nat, command: string)
    returns (r': seq<Cluster>, acts': seq<Action>, cast': seq<NodeData>)
    requires Stage(r, acts, cast) && k < |cast| && cast[k].role == Leader && r != []
    ensures r' != [] && Last(r).net <= Last(r').net
    ensures cast' == cast[k := Propose(cast[k], command).node] && Stage(r', acts', cast')
    ensures forall p :: p in cast[k].peers ==> Reply(cast'[k], p, AppendBody(cast'[k], p)) in Last(r').net
  {
    hide Stage, IsSharingRun, Moves, AppendBody;
    OnStage(r, acts, cast, k);
    r', acts' := Offers(r, acts, cast[k], command);
    cast' := cast[k := Propose(cast[k], command).node];
    StageMoves(r, acts, r', acts', cast, k, cast'[k]);
  }

  lemma StageStarts(r: seq<Cluster>, acts: seq<Action>, cast: seq<NodeData>, k: nat)
    returns (r': seq<Cluster>, acts': seq<Action>, cast': seq<NodeData>)
    requires Stage(r, acts, cast) && k < |cast| && cast[k].role != Leader && r != []
    ensures r' != [] && Last(r).net <= Last(r').net && cast' == cast[k := Running(cast[k])] && Stage(r', acts', cast')
  {
    hide Stage, IsSharingRun, Moves;
    OnStage(r, acts, cast, k);
    r', acts' := Starts(r, acts, cast[k]);
    cast' := cast[k := Running(cast[k])];
    StageMoves(r, acts, r', acts', cast, k, cast'[k]);
  }

  lemma StageTakes(r: seq<Cluster>, acts: seq<Action>, cast: seq<NodeData>, k: nat, m: Message, log: seq<Entry>)
    returns (r': seq<Cluster>, acts': seq<Action>, cast': seq<NodeData>)
    requires Stage(r, acts, cast) && k < |cast| && r != []
    requires m in Last(r).net && m.to == cast[k].id && m.body.AppendEntries? && m.body.term == m.term
    requires m.term >= cast[k].currentTerm && m.body.leader == m.from && m.body.leaderCommit == 0
    requires m.body.prevLogIndex == 0 || HasEntry(cast[k].log, m.body.prevLogIndex, m.body.prevLogTerm)
    requires log == AppendAll(cast[k].log, m.body.entries) && |log| == m.body.prevLogIndex + |m.body.entries| == LastIndex(log)
    ensures r' != [] && Last(r).net <= Last(r').net
    ensures cast' == cast[k := Took(cast[k], m, log)] && Stage(r', acts', cast')
    ensures Report(cast[k].id, m.from, m.term, |log|) in Last(r').net
  {
    hide Stage, IsSharingRun, Moves, AppendAll, NewOnes, HasEntry;
    OnStage(r, acts, cast, k);
    r', acts' := Takes(r, acts, cast[k], m, log);
    cast' := cast[k := Took(cast[k], m, log)];
    StageMoves(r, acts, r', acts', cast, k, cast'[k]);
  }

  lemma StageCounts(r: seq<Cluster>, acts: seq<Action>, cast: seq<NodeData>, k: nat, from: Id, term: nat, index: nat)
    returns (r': seq<Cluster>, acts': seq<Action>, cast': seq<NodeData>)
    requires Stage(r, acts, cast) && k < |cast| && r != []
    requires Report(from, cast[k].id, term, index) in Last(r).net && term <= cast[k].currentTerm
    ensures r' != [] && Last(r).net <= Last(r').net
    ensures cast' == cast[k := OnAppendResponse(cast[k], from, AppendResponse(term, true, index))] && Stage(r', acts', cast')
  {
    hide Stage, IsSharingRun, Moves;
    OnStage(r, acts, cast, k);
    r', acts' := Counts(r, acts, cast[k], from, term, index);
    cast' := cast[k := OnAppendResponse(cast[k], from, AppendResponse(term, true, index))];
    StageMoves(r, acts, r', acts', cast, k, cast'[k]);
  }

  lemma StageElects(r: seq<Cluster>, acts: seq<Action>, cast: seq<NodeData>, k: nat, v: nat, w: nat)
    returns (r': seq<Cluster>, acts': seq<Action>, cast': seq<NodeData>)
    requires Stage(r, acts, cast) && k < |cast| && v < |cast| && w < |cast| && k != v && k != w && v != w && r != []
    requires cast[k].role != Leader && |cast[k].peers| == 4 && cast[v].id in cast[k].peers && cast[w].id in cast[k].peers
    requires cast[v].currentTerm <= cast[k].currentTerm && cast[w].currentTerm <= cast[k].currentTerm
    requires UpToDate(AskFor(Running(cast[k]), cast[v].id).body, cast[v].log)
    requires UpToDate(AskFor(Running(cast[k]), cast[w].id).body, cast[w].log)
    ensures r' != [] && Last(r).net <= Last(r').net && Stage(r', acts', cast')
    ensures var t := cast[k].currentTerm + 1;
            cast' == cast[v := Voted(cast[v], t, cast[k].id)][w := Voted(cast[w], t, cast[k].id)]
                         [k := Elect(cast[k], cast[v].id, cast[w].id)]
  {
    hide IsSharingRun, UpToDate, BecomeLeader, Present;
    var t := cast[k].currentTerm + 1;
    OnStage(r, acts, cast, v);
    OnStage(r, acts, cast, w);
    OnStage(r, acts, cast, k);
    r', acts' := Elected(r, acts, cast[k], cast[v], cast[w]);
    ElectId(cast[k], cast[v].id, cast[w].id);
    cast' := cast[v := Voted(cast[v], t, cast[k].id)][w := Voted(cast[w], t, cast[k].id)]
                 [k := Elect(cast[k], cast[v].id, cast[w].id)];
    forall i | 0 <= i < |cast'| ensures Present(r', acts', cast'[i]) {
      PresentAfter(r, acts, r', acts', cast, k, v, w, i);
    }
  }

  lemma PresentAfter(r: seq<Cluster>, acts: seq<Action>, r': seq<Cluster>, acts': seq<Action>, cast: seq<NodeData>,
                     k: nat, v: nat, w: nat, i: nat)
    requires Stage(r, acts, cast) && k < |cast| && v < |cast| && w < |cast| && k != v && k != w && v != w && i < |cast|
    requires r != [] && r' != [] && IsSharingRun(r', acts')
    requires var t := cast[k].currentTerm + 1;
             Last(r').nodes == Last(r).nodes[cast[v].id := Voted(cast[v], t, cast[k].id)]
                                            [cast[w].id := Voted(cast[w], t, cast[k].id)]
                                            [cast[k].id := Elect(cast[k], cast[v].id, cast[w].id)]
    ensures var t := cast[k].currentTerm + 1;
            var cast' := cast[v := Voted(cast[v], t, cast[k].id)][w := Voted(cast[w], t, cast[k].id)]
                             [k := Elect(cast[k], cast[v].id, cast[w].id)];
            Present(r', acts', cast'[i])
  {
    hide IsSharingRun, BecomeLeader;
    ElectId(cast[k], cast[v].id, cast[w].id);
    assert Present(r, acts, cast[i]) && Present(r, acts, cast[k]) && Present(r, acts, cast[v]) && Present(r, acts, cast[w]);
  }

  // ----- what the nodes look like -----

  ghost predicate Looks(n: NodeData, ids: seq<Id>, k: nat, term: nat, log: seq<Entry>)
    requires k < |ids|
  {
    && n.id == ids[k] && n.peers == Peers(ids, k) && n.currentTerm == term && n.log == log && n.commitIndex == 0
    && n.matchIndex.Keys <= set p | p in n.peers
  }

  /** A new leader with empty tables for its four peers. */
  ghost predicate Leads(n: NodeData, ids: seq<Id>, k: nat, term: nat, log: seq<Entry>, next: nat)
    requires k < |ids|
  {
    && Looks(n, ids, k, term, log) && n.role == Leader
    && n.matchIndex.Keys == (set p | p in n.peers)
    && forall p :: p in n.peers ==> p in n.matchIndex && n.matchIndex[p] == 0 && p in n.nextIndex && n.nextIndex[p] == next
  }

  lemma LooksFacts(n: NodeData, ids: seq<Id>, k: nat, term: nat, log: seq<Entry>)
    requires k < |ids| && Looks(n, ids, k, term, log)
    ensures n.id == ids[k] && n.peers == Peers(ids, k) && n.currentTerm == term && n.log == log && n.commitIndex == 0
  {
  }

  lemma LeadsFacts(n: NodeData, ids: seq<Id>, k: nat, term: nat, log: seq<Entry>, next: nat)
    requires k < |ids| && Leads(n, ids, k, term, log, next)
    ensures n.id == ids[k] && n.peers == Peers(ids, k) && n.currentTerm == term && n.log == log && n.commitIndex == 0
    ensures n.role == Leader && Looks(n, ids, k, term, log)
    ensures forall p :: p in n.peers ==> p in n.nextIndex && n.nextIndex[p] == next
  {
  }

  lemma PeerIds(ids: seq<Id>, k: nat)
    requires FiveIds(ids) && k < 5
    ensures |Peers(ids, k)| == 4 && forall i :: 0 <= i < 5 && i != k ==> ids[i] in Peers(ids, k)
    ensures ids[k] !in Peers(ids, k) && forall p :: p in Peers(ids, k) ==> p in ids
  {
    var peers := Peers(ids, k);
    forall i | 0 <= i < 5 && i != k ensures ids[i] in peers {
      assert peers[if i < k then i else i - 1] == ids[i];
    }
    assert forall j :: 0 <= j < 4 ==> peers[j] == ids[if j < k then j else j + 1];
  }

  lemma ElectLeads(n: NodeData, ids: seq<Id>, k: nat, term: nat, log: seq<Entry>, v: Id, w: Id)
    requires k < |ids| && Looks(n, ids, k, term, log)
    ensures Leads(Elect(n, v, w), ids, k, term + 1, log, LastIndex(log) + 1)
  {
    LeaderTables(Running(n).(votes := {v} + {w}));
  }

  lemma VotedLooks(n: NodeData, ids: seq<Id>, k: nat, term: nat, log: seq<Entry>, t: nat, candidate: Id)
    requires k < |ids| && Looks(n, ids, k, term, log)
    ensures Looks(Voted(n, t, candidate), ids, k, t, log)
  {
  }

  lemma TookLooks(n: NodeData, ids: seq<Id>, k: nat, m: Message, log: seq<Entry>)
    requires k < |ids| && Looks(n, ids, k, n.currentTerm, n.log) && m.body.AppendEntries? && m.term >= n.currentTerm
    ensures Looks(Took(n, m, log), ids, k, m.term, log)
    ensures m.term > n.currentTerm ==> Took(n, m, log).role == Follower
  {
  }

  /** A leader whose peers all have next index 1 sends its whole log. */
  lemma WholeLog(n: NodeData, p: Id)
    requires Contiguous(n.log) && p in n.nextIndex && n.nextIndex[p] == 1 && n.commitIndex == 0
    ensures AppendBody(n, p) == AppendEntries(n.currentTerm, n.id, 0, 0, n.log, 0)
  {
    ContiguousSuffix(n.log, 1, |n.log|);
    ContiguousLookup(n.log, 0);
    assert n.log != [] ==> n.log[0..] == n.log;
  }

  /** With next index 2 it sends what follows the first entry. */
  lemma SecondEntry(n: NodeData, p: Id, x: Entry, y: Entry)
    requires n.log == [x, y] && x.index == 1 && y.index == 2 && p in n.nextIndex && n.nextIndex[p] == 2 && n.commitIndex == 0
    ensures AppendBody(n, p) == AppendEntries(n.currentTerm, n.id, 1, x.term, [y], 0)
  {
    assert Contiguous(n.log);
    ContiguousSuffix(n.log, 2, 2);
    ContiguousLookup(n.log, 1);
    assert n.log[1..] == [y];
  }

  lemma Replays()
    ensures AppendAll([], [A1, A2]) == [A1, A2] && AppendAll([A1, A2], [B]) == [B] && AppendAll([], [B]) == [B]
    ensures AppendAll([B], [C]) == [B, C] && AppendAll([B], [D]) == [B, D] && AppendAll([B, C], [D]) == [B, D]
    ensures HasEntry([B], 1, 2) && HasEntry([B, C], 1, 2)
  {
    assert [A1, A2][1..] == [A2] && [A2][1..] == [] && [B][1..] == [] && [C][1..] == [] && [D][1..] == [];
    assert AppendOne([], A1) == [A1] && AppendOne([A1], A2) == [A1, A2];
    assert AppendOne([A1, A2], B) == [B] && AppendOne([], B) == [B];
    assert AppendAll([], [A1, A2]) == AppendAll([A1], [A2]) == AppendAll([A1, A2], []);
    assert AppendOne([B], C) == [B, C] && AppendOne([B], D) == [B, D];
    assert Contiguous([B, C]);
    ContiguousLookup([B, C], 2);
    assert [B, C][..1] == [B] && AppendOne([B, C], D) == [B] + [D];
    assert [B][0].index == 1 && [B, C][0].index == 1;
  }

  // ----- counting reports -----

  /** Two peers of four report index 2: with the leader itself that is a majority. */
  lemma TwoAreEnough(table: map<Id, nat>, a: Id, b: Id)
    requires |table.Keys| == 4 && a in table && b in table && a != b && table[a] == 2 && table[b] == 2
    requires forall p :: p in table && p != a && p != b ==> table[p] == 0
    ensures QuorumIndex(2, table) == 2
  {
    assert |table| == |table.Keys|;
    assert Above(table, table.Keys, 3) == {};
    assert Above(table, table.Keys, 2) == {a, b};
    assert MajorityReached(2, table, 2) && !MajorityReached(2, table, 3);
  }

  lemma OneIsNotEnough(table: map<Id, nat>, a: Id)
    requires |table.Keys| == 4 && a in table && table[a] == 2
    requires forall p :: p in table && p != a ==> table[p] == 0
    ensures QuorumIndex(2, table) == 0
  {
    assert |table| == |table.Keys|;
    assert Above(table, table.Keys, 1) == {a};
    assert Above(table, table.Keys, 0) == table.Keys;
    assert MajorityReached(2, table, 0) && !MajorityReached(2, table, 1);
  }

  ghost predicate Distinct(s: seq<Id>) {
    forall i, j :: 0 <= i < j < |s| ==> s[i] != s[j]
  }

  lemma {:induction false} DistinctSize(s: seq<Id>)
    requires Distinct(s)
    ensures |set x | x in s| == |s|
  {
    if s != [] {
      var n := |s| - 1;
      DistinctSize(s[..n]);
      assert s == s[..n] + [s[n]];
      assert (set x | x in s) == (set x | x in s[..n]) + {s[n]};
    }
  }

  lemma DistinctPeers(ids: seq<Id>, k: nat)
    requires FiveIds(ids) && k < 5
    ensures |set p | p in Peers(ids, k)| == 4
  {
    var peers := Peers(ids, k);
    assert forall j :: 0 <= j < 4 ==> peers[j] == ids[if j < k then j else j + 1];
    DistinctSize(peers);
  }

  lemma FirstReport(n: NodeData, a: Id, s: nat)
    requires n.role == Leader && s <= n.currentTerm && n.commitIndex == 0 && LastIndex(n.log) == 2
    requires |n.matchIndex.Keys| == 4 && a in n.matchIndex && forall p :: p in n.matchIndex ==> n.matchIndex[p] == 0
    ensures OnAppendResponse(n, a, AppendResponse(s, true, 2))
         == n.(matchIndex := n.matchIndex[a := 2], nextIndex := n.nextIndex[a := 3])
  {
    hide QuorumIndex;
    assert n.matchIndex[a := 2].Keys == n.matchIndex.Keys;
    OneIsNotEnough(n.matchIndex[a := 2], a);
  }

  lemma SecondReport(n: NodeData, a: Id, b: Id, t: nat)
    requires n.role == Leader && t <= n.currentTerm && n.commitIndex == 0 && LastIndex(n.log) == 2
    requires TermAt(n.log, 2) == n.currentTerm
    requires |n.matchIndex.Keys| == 4 && a in n.matchIndex && b in n.matchIndex && a != b && n.matchIndex[a] == 2
    requires forall p :: p in n.matchIndex && p != a ==> n.matchIndex[p] == 0
    ensures var n' := OnAppendResponse(n, b, AppendResponse(t, true, 2)); n'.id == n.id && n'.log == n.log && n'.commitIndex == 2
  {
    hide QuorumIndex, TermAt;
    assert n.matchIndex[b := 2].Keys == n.matchIndex.Keys;
    TwoAreEnough(n.matchIndex[b := 2], a, b);
  }

  /** After two reports of index 2 a leader with two entries, the second of its own term, has committed both. */
  lemma TwoReports(n: NodeData, ids: seq<Id>, k: nat, x: Entry, y: Entry, next: nat, a: Id, s: nat, b: Id, t: nat)
    requires FiveIds(ids) && k < 5 && Leads(n, ids, k, y.term, [x, y], next) && x.index == 1 && y.index == 2
    requires a in n.peers && b in n.peers && a != b && s <= y.term && t <= y.term
    ensures var n1 := OnAppendResponse(n, a, AppendResponse(s, true, 2));
            var n2 := OnAppendResponse(n1, b, AppendResponse(t, true, 2));
            n1.id == n2.id == n.id && n1.currentTerm == y.term && n2.log == [x, y] && n2.commitIndex == 2
  {
    hide OnAppendResponse, Peers, FiveIds;
    DistinctPeers(ids, k);
    assert Contiguous(n.log);
    ContiguousLookup(n.log, 2);
    FirstReport(n, a, s);
    var n1 := n.(matchIndex := n.matchIndex[a := 2], nextIndex := n.nextIndex[a := 3]);
    assert n1.matchIndex.Keys == n.matchIndex.Keys;
    SecondReport(n1, a, b, t);
  }

  // ----- the run -----

  function Fresh5(ids: seq<Id>, k: nat): NodeData
    requires k < |ids|
  {
    NodeData(ids[k], Peers(ids, k), Follower, 0, NOBODY, NOBODY, [], [], 0, map[], map[], {})
  }

  /** The cluster before anything has happened. */
  ghost function Curtain(ids: seq<Id>): Cluster {
    Cluster(map id | id in ids :: Fresh5(ids, Place(ids, id)), {})
  }

  ghost function Place(ids: seq<Id>, id: Id): (k: nat)
    requires id in ids
    ensures k < |ids| && ids[k] == id
  {
    var k :| 0 <= k < |ids| && ids[k] == id; k
  }

  lemma PlaceIs(ids: seq<Id>, k: nat)
    requires FiveIds(ids) && k < 5
    ensures Place(ids, ids[k]) == k
  {
  }

  lemma FreshPeers(ids: seq<Id>, k: nat)
    requires FiveIds(ids) && k < 5
    ensures PeersOk((set x | x in ids), Fresh5(ids, k))
  {
    DistinctSize(ids);
    PeerIds(ids, k);
    OthersArePeers(ids, k);
    hide Peers;
  }

  lemma CurtainRun(ids: seq<Id>)
    requires FiveIds(ids)
    ensures IsSharingRun([Curtain(ids)], [])
  {
    hide PeersOk, Peers, Place;
    var c := Curtain(ids);
    assert c.nodes.Keys == set x | x in ids;
    forall id | id in c.nodes ensures PeersOk(c.nodes.Keys, c.nodes[id]) {
      FreshPeers(ids, Place(ids, id));
    }
  }

  lemma OthersArePeers(ids: seq<Id>, k: nat)
    requires FiveIds(ids) && k < 5
    ensures forall p :: p in Peers(ids, k) <==> p in ids && p != ids[k]
  {
    PeerIds(ids, k);
    assert ids == ids[..k] + [ids[k]] + ids[k + 1..];
  }

  lemma Opening(ids: seq<Id>) returns (r: seq<Cluster>, acts: seq<Action>, cast: seq<NodeData>)
    requires FiveIds(ids)
    ensures Stage(r, acts, cast) && |cast| == 5 && r != []
    ensures forall k :: 0 <= k < 5 ==> cast[k] == Fresh5(ids, k)
  {
    hide IsSharingRun, Peers, Place;
    CurtainRun(ids);
    r, acts := [Curtain(ids)], [];
    cast := seq(5, k requires 0 <= k < 5 => Fresh5(ids, k));
    forall k | 0 <= k < 5 ensures Present(r, acts, cast[k]) {
      assert ids[k] in ids;
      PlaceIs(ids, k);
    }
  }

  lemma FreshLooks(ids: seq<Id>, k: nat)
    requires k < |ids|
    ensures Looks(Fresh5(ids, k), ids, k, 0, [])
  {
  }

  lemma FirstElection(ids: seq<Id>) returns (r: seq<Cluster>, acts: seq<Action>, cast: seq<NodeData>)
    requires FiveIds(ids)
    ensures Stage(r, acts, cast) && |cast| == 5 && r != []
    ensures Leads(cast[0], ids, 0, 1, [], 1) && Looks(cast[1], ids, 1, 1, []) && Looks(cast[3], ids, 3, 1, [])
    ensures cast[2] == Fresh5(ids, 2) && cast[4] == Fresh5(ids, 4)
  {
    hide Stage, Elect, Looks, Leads, Peers;
    PeerIds(ids, 0);
    r, acts, cast := Opening(ids);
    FreshLooks(ids, 0);
    FreshLooks(ids, 1);
    FreshLooks(ids, 3);
    VotedLooks(cast[1], ids, 1, 0, [], 1, ids[0]);
    VotedLooks(cast[3], ids, 3, 0, [], 1, ids[0]);
    ElectLeads(cast[0], ids, 0, 0, [], ids[1], ids[3]);
    r, acts, cast := StageElects(r, acts, cast, 0, 1, 3);
  }

  /** A leader appends an entry; its tables stay. */
  lemma OfferLeads(n: NodeData, ids: seq<Id>, k: nat, log: seq<Entry>, next: nat, command: string)
    requires k < |ids| && Leads(n, ids, k, n.currentTerm, log, next)
    ensures Leads(Propose(n, command).node, ids, k, n.currentTerm, log + [Entry(n.currentTerm, LastIndex(log) + 1, command)], next)
  {
  }

  /** Node 0 leads term 1 with the votes of 1 and 3, and only node 1 gets its two entries; the report is on its way. */
  lemma TermOne(ids: seq<Id>) returns (r: seq<Cluster>, acts: seq<Action>, cast: seq<NodeData>)
    requires FiveIds(ids)
    ensures Stage(r, acts, cast) && |cast| == 5 && r != []
    ensures Looks(cast[0], ids, 0, 1, [A1, A2]) && Looks(cast[1], ids, 1, 1, [A1, A2]) && Looks(cast[3], ids, 3, 1, [])
    ensures cast[2] == Fresh5(ids, 2) && cast[4] == Fresh5(ids, 4)
    ensures Report(ids[1], ids[0], 1, 2) in Last(r).net
  {
    hide Stage, AppendBody, AppendAll, NewOnes, Propose, Took, Looks, Leads, Peers, FiveIds, HasEntry;
    PeerIds(ids, 0);
    Replays();
    r, acts, cast := FirstElection(ids);
    LeadsFacts(cast[0], ids, 0, 1, [], 1);
    OfferLeads(cast[0], ids, 0, [], 1, "a1");
    r, acts, cast := StageOffers(r, acts, cast, 0, "a1");
    assert [] + [A1] == [A1];
    LeadsFacts(cast[0], ids, 0, 1, [A1], 1);
    OfferLeads(cast[0], ids, 0, [A1], 1, "a2");
    r, acts, cast := StageOffers(r, acts, cast, 0, "a2");
    assert [A1] + [A2] == [A1, A2] && Contiguous([A1, A2]);
    LeadsFacts(cast[0], ids, 0, 1, [A1, A2], 1);
    LooksFacts(cast[1], ids, 1, 1, []);
    WholeLog(cast[0], ids[1]);
    var m := Reply(cast[0], ids[1], AppendBody(cast[0], ids[1]));
    TookLooks(cast[1], ids, 1, m, [A1, A2]);
    r, acts, cast := StageTakes(r, acts, cast, 1, m, [A1, A2]);
  }

  lemma SecondElection(ids: seq<Id>) returns (r: seq<Cluster>, acts: seq<Action>, cast: seq<NodeData>)
    requires FiveIds(ids)
    ensures Stage(r, acts, cast) && |cast| == 5 && r != []
    ensures Looks(cast[0], ids, 0, 1, [A1, A2]) && Looks(cast[1], ids, 1, 1, [A1, A2])
    ensures Leads(cast[2], ids, 2, 2, [], 1) && Looks(cast[3], ids, 3, 2, []) && Looks(cast[4], ids, 4, 2, [])
    ensures Report(ids[1], ids[0], 1, 2) in Last(r).net
  {
    hide Stage, BecomeLeader;
    PeerIds(ids, 2);
    r, acts, cast := TermOne(ids);
    r, acts, cast := StageStarts(r, acts, cast, 2);
    ElectLeads(cast[2], ids, 2, 1, [], ids[3], ids[4]);
    r, acts, cast := StageElects(r, acts, cast, 2, 3, 4);
  }

  /** Node 2, with the votes of 3 and 4, leads term 2 and replaces the log of node 0; node 1 hears nothing of it. */
  lemma TermTwo(ids: seq<Id>) returns (r: seq<Cluster>, acts: seq<Action>, cast: seq<NodeData>)
    requires FiveIds(ids)
    ensures Stage(r, acts, cast) && |cast| == 5 && r != []
    ensures Looks(cast[0], ids, 0, 2, [B]) && cast[0].role == Follower && Looks(cast[1], ids, 1, 1, [A1, A2])
    ensures Looks(cast[2], ids, 2, 2, [B]) && Looks(cast[3], ids, 3, 2, [B]) && Looks(cast[4], ids, 4, 2, [B])
    ensures Report(ids[1], ids[0], 1, 2) in Last(r).net
  {
    hide Stage, AppendBody, AppendAll, NewOnes, Propose, Took, Looks, Leads, Peers, HasEntry;
    PeerIds(ids, 2);
    Replays();
    r, acts, cast := SecondElection(ids);
    LeadsFacts(cast[2], ids, 2, 2, [], 1);
    LooksFacts(cast[0], ids, 0, 1, [A1, A2]);
    LooksFacts(cast[3], ids, 3, 2, []);
    LooksFacts(cast[4], ids, 4, 2, []);
    OfferLeads(cast[2], ids, 2, [], 1, "b");
    r, acts, cast := StageOffers(r, acts, cast, 2, "b");
    assert [] + [B] == [B] && Contiguous([B]);
    LeadsFacts(cast[2], ids, 2, 2, [B], 1);
    WholeLog(cast[2], ids[0]);
    WholeLog(cast[2], ids[3]);
    WholeLog(cast[2], ids[4]);
    var n := cast[2];
    TookLooks(cast[0], ids, 0, Reply(n, ids[0], AppendBody(n, ids[0])), [B]);
    TookLooks(cast[3], ids, 3, Reply(n, ids[3], AppendBody(n, ids[3])), [B]);
    TookLooks(cast[4], ids, 4, Reply(n, ids[4], AppendBody(n, ids[4])), [B]);
    r, acts, cast := StageTakes(r, acts, cast, 0, Reply(n, ids[0], AppendBody(n, ids[0])), [B]);
    r, acts, cast := StageTakes(r, acts, cast, 3, Reply(n, ids[3], AppendBody(n, ids[3])), [B]);
    r, acts, cast := StageTakes(r, acts, cast, 4, Reply(n, ids[4], AppendBody(n, ids[4])), [B]);
  }

  lemma ThirdElection(ids: seq<Id>) returns (r: seq<Cluster>, acts: seq<Action>, cast: seq<NodeData>)
    requires FiveIds(ids)
    ensures Stage(r, acts, cast) && |cast| == 5 && r != []
    ensures Leads(cast[0], ids, 0, 3, [B], 2) && Looks(cast[1], ids, 1, 1, [A1, A2])
    ensures Looks(cast[2], ids, 2, 3, [B]) && cast[2].role == Follower
    ensures Looks(cast[3], ids, 3, 3, [B]) && Looks(cast[4], ids, 4, 2, [B])
    ensures Report(ids[1], ids[0], 1, 2) in Last(r).net
  {
    hide Stage, Elect, Looks, Leads, Peers;
    PeerIds(ids, 0);
    r, acts, cast := TermTwo(ids);
    LooksFacts(cast[0], ids, 0, 2, [B]);
    LooksFacts(cast[2], ids, 2, 2, [B]);
    LooksFacts(cast[3], ids, 3, 2, [B]);
    VotedLooks(cast[2], ids, 2, 2, [B], 3, ids[0]);
    VotedLooks(cast[3], ids, 3, 2, [B], 3, ids[0]);
    ElectLeads(cast[0], ids, 0, 2, [B], ids[3], ids[2]);
    r, acts, cast := StageElects(r, acts, cast, 0, 3, 2);
  }

  /** Node 0 leads term 3, gets its entry to node 3 only, and with the report of term 1 takes it for committed. */
  lemma TermThree(ids: seq<Id>) returns (r: seq<Cluster>, acts: seq<Action>, cast: seq<NodeData>)
    requires FiveIds(ids)
    ensures Stage(r, acts, cast) && |cast| == 5 && r != []
    ensures cast[0].id == ids[0] && cast[0].log == [B, C] && cast[0].commitIndex == 2 && Looks(cast[1], ids, 1, 1, [A1, A2])
    ensures Looks(cast[2], ids, 2, 3, [B]) && cast[2].role == Follower
    ensures Looks(cast[3], ids, 3, 3, [B, C]) && Looks(cast[4], ids, 4, 2, [B])
  {
    hide Stage, AppendBody, AppendAll, NewOnes, Propose, Took, OnAppendResponse, Looks, Leads, Peers, HasEntry;
    PeerIds(ids, 0);
    Replays();
    r, acts, cast := ThirdElection(ids);
    LeadsFacts(cast[0], ids, 0, 3, [B], 2);
    LooksFacts(cast[3], ids, 3, 3, [B]);
    OfferLeads(cast[0], ids, 0, [B], 2, "c");
    r, acts, cast := StageOffers(r, acts, cast, 0, "c");
    assert [B] + [C] == [B, C];
    LeadsFacts(cast[0], ids, 0, 3, [B, C], 2);
    SecondEntry(cast[0], ids[3], B, C);
    var m := Reply(cast[0], ids[3], AppendBody(cast[0], ids[3]));
    TookLooks(cast[3], ids, 3, m, [B, C]);
    r, acts, cast := StageTakes(r, acts, cast, 3, m, [B, C]);
    TwoReports(cast[0], ids, 0, B, C, 2, ids[1], 1, ids[3], 3);
    r, acts, cast := StageCounts(r, acts, cast, 0, ids[1], 1, 2);
    r, acts, cast := StageCounts(r, acts, cast, 0, ids[3], 3, 2);
  }

  lemma FourthElection(ids: seq<Id>) returns (r: seq<Cluster>, acts: seq<Action>, cast: seq<NodeData>)
    requires FiveIds(ids)
    ensures Stage(r, acts, cast) && |cast| == 5 && r != []
    ensures cast[0].id == ids[0] && cast[0].log == [B, C] && cast[0].commitIndex == 2
    ensures Leads(cast[2], ids, 2, 4, [B], 2) && Looks(cast[3], ids, 3, 3, [B, C]) && Looks(cast[4], ids, 4, 4, [B])
  {
    hide Stage, BecomeLeader;
    PeerIds(ids, 2);
    r, acts, cast := TermThree(ids);
    ElectLeads(cast[2], ids, 2, 3, [B], ids[1], ids[4]);
    r, acts, cast := StageElects(r, acts, cast, 2, 1, 4);
  }

  /**
   * State machine safety fails without the guard on when reports are counted: in every cluster of
   * five some timely run, with every follower reporting only shared entries, ends with two nodes that
   * have committed different entries at index 2.
   */
  lemma LateReportCounted(ids: seq<Id>) returns (r: seq<Cluster>, acts: seq<Action>)
    requires FiveIds(ids)
    ensures IsSharingRun(r, acts) && ids[0] in Last(r).nodes && ids[2] in Last(r).nodes
    ensures var a, b := Last(r).nodes[ids[0]], Last(r).nodes[ids[2]];
            a.commitIndex == 2 && a.log == [B, C] && b.commitIndex == 2 && b.log == [B, D]
  {
    hide Stage, AppendBody, AppendAll, NewOnes, Propose, Took, OnAppendResponse, IsSharingRun, Looks, Leads, Peers, HasEntry;
    PeerIds(ids, 2);
    Replays();
    var cast: seq<NodeData>;
    r, acts, cast := FourthElection(ids);
    LeadsFacts(cast[2], ids, 2, 4, [B], 2);
    LooksFacts(cast[3], ids, 3, 3, [B, C]);
    LooksFacts(cast[4], ids, 4, 4, [B]);
    OfferLeads(cast[2], ids, 2, [B], 2, "d");
    r, acts, cast := StageOffers(r, acts, cast, 2, "d");
    assert [B] + [D] == [B, D];
    LeadsFacts(cast[2], ids, 2, 4, [B, D], 2);
    SecondEntry(cast[2], ids[3], B, D);
    SecondEntry(cast[2], ids[4], B, D);
    var n := cast[2];
    r, acts, cast := StageTakes(r, acts, cast, 3, Reply(n, ids[3], AppendBody(n, ids[3])), [B, D]);
    r, acts, cast := StageTakes(r, acts, cast, 4, Reply(n, ids[4], AppendBody(n, ids[4])), [B, D]);
    TwoReports(cast[2], ids, 2, B, D, 2, ids[3], 4, ids[4], 4);
    r, acts, cast := StageCounts(r, acts, cast, 2, ids[3], 4, 2);
    r, acts, cast := StageCounts(r, acts, cast, 2, ids[4], 4, 2);
    OnStage(r, acts, cast, 0);
    OnStage(r, acts, cast, 2);
  }

  // ----- when counting a report is sound -----

  /** Node v has sent a success report of term t that covers index k. */
  ghost predicate Reported(net: set<Message>, v: Id, t: nat, k: nat) {
    exists m :: m in net && m.from == v && m.body.AppendResponse? && m.body.success && m.body.term == t && m.body.index >= k
  }

  lemma SentReport(n: NodeData, a: Action)
    ensures var e := Run1(n, a);
            |e.sent| == 1 && e.sent[0].body.AppendResponse? ==>
              e.sent[0].from == e.node.id && e.sent[0].body.term == e.node.currentTerm
  {
    match a
    case Deliver(m) => DeliveredReport(n, m);
    case Timeout(_) =>
    case ProposeAt(_, _) =>
    case Heartbeat(_) =>
  }

  lemma DeliveredReport(n: NodeData, m: Message)
    ensures var e := OnMessage(n, m);
            |e.sent| == 1 && e.sent[0].body.AppendResponse? ==>
              e.sent[0].from == e.node.id && e.sent[0].body.term == e.node.currentTerm
  {
    hide Accepts, AppendAll, NewOnes;
  }

  /** What a step newly confirms it reports, unless the node leads the term itself. */
  lemma NewlyAcked(h: History, x: Evidence, e: Effect, v: Id, t: nat, k: nat)
    requires Acked(File(x, h, e), v, t, k) && !Acked(x, v, t, k)
    ensures e.node.id == v && e.node.currentTerm == t
    ensures (e.node.role == Leader && Led(Record(h, e), t, v))
            || (|e.sent| == 1 && e.sent[0].body.AppendResponse? && e.sent[0].body.success && e.sent[0].body.index >= k)
  {
  }

  lemma {:induction false} ReportWasSent(states: seq<Cluster>, actions: seq<Action>, i: nat, v: Id, t: nat, k: nat)
    requires IsTimelyRun(states, actions) && i <= |actions| && Acked(EvidenceAt(states, actions, i), v, t, k)
    ensures Reported(states[i].net, v, t, k) || Led(HistoryAt(states, actions, i), t, v)
    decreases i
  {
    hide Run1, Record, File;
    if i > 0 {
      var c, a, h, x := states[i - 1], actions[i - 1], HistoryAt(states, actions, i - 1), EvidenceAt(states, actions, i - 1);
      assert Enabled(c, a) && states[i] == Apply(c, a);
      var e := EffectOf(c, a);
      if Acked(x, v, t, k) {
        ReportWasSent(states, actions, i - 1, v, t, k);
        RunExtends(states, actions, i - 1);
      } else {
        NewlyAcked(h, x, e, v, t, k);
        SentReport(c.nodes[Actor(a)], a);
        if |e.sent| == 1 && e.sent[0].body.AppendResponse? && e.sent[0].body.success && e.sent[0].body.index >= k {
          assert e.sent[0] in states[i].net;
        }
      }
    }
  }

  lemma CountedMatch(ids: set<Id>, n: NodeData, x: Evidence, from: Id, resp: Body)
    requires MatchOk(ids, n, x) && n.role == Leader && from in ids && from != n.id
    requires resp.AppendResponse? && resp.success && resp.term <= n.currentTerm
    ensures MatchOk(ids, OnAppendResponse(n, from, resp), x) <==> resp.index == 0 || Acked(x, from, n.currentTerm, resp.index)
  {
    hide QuorumIndex;
    var n' := OnAppendResponse(n, from, resp);
    assert n'.matchIndex == n.matchIndex[from := resp.index] && n'.matchIndex.Keys == n.matchIndex.Keys;
    assert n'.matchIndex[from] == resp.index;
  }

  /**
   * A leader that counts a success report keeps its table of what peers have confirmed in its term
   * exactly when the sender has reported that index, or a higher one, in that very term; a report of
   * the current term says so itself.
   */
  lemma CountedReportGenuine(states: seq<Cluster>, actions: seq<Action>, i: nat, m: Message)
    requires IsGuardedRun(states, actions) && i <= |actions| && m in states[i].net && m.to in states[i].nodes
    requires m.body.AppendResponse? && m.body.success
    requires states[i].nodes[m.to].role == Leader && m.term <= states[i].nodes[m.to].currentTerm
    ensures var n, net := states[i].nodes[m.to], states[i].net;
            && (MatchOk(states[i].nodes.Keys, OnMessage(n, m).node, EvidenceAt(states, actions, i)) <==>
                m.body.index == 0 || Reported(net, m.from, n.currentTerm, m.body.index))
            && (m.term == n.currentTerm ==> Reported(net, m.from, n.currentTerm, m.body.index))
  {
    hide MatchOk, OnAppendResponse, CommitInv, Reported, Acked, EvidenceAt, HistoryAt, ConfirmsSoundly, CountsNoStaleVote, Init;
    var c, h, x := states[i], HistoryAt(states, actions, i), EvidenceAt(states, actions, i);
    var n, ids := c.nodes[m.to], c.nodes.Keys;
    LeaderAt(states, actions, i, m);
    CountedMatch(ids, n, x, m.from, m.body);
    if Acked(x, m.from, n.currentTerm, m.body.index) {
      ReportWasSent(states, actions, i, m.from, n.currentTerm, m.body.index);
    }
    ReportedMeansAcked(c, h, x, m.from, n.currentTerm, m.body.index);
    if m.term == n.currentTerm {
      ItReports(c.net, m);
    }
  }

  /** What the invariants say about a leader and a message to it. */
  lemma LeaderAt(states: seq<Cluster>, actions: seq<Action>, i: nat, m: Message)
    requires IsGuardedRun(states, actions) && i <= |actions| && m in states[i].net && m.to in states[i].nodes
    requires states[i].nodes[m.to].role == Leader
    ensures IsTimelyRun(states, actions)
    ensures var c, h, x := states[i], HistoryAt(states, actions, i), EvidenceAt(states, actions, i);
            var n := c.nodes[m.to];
            && CommitInv(c, h, x) && MatchOk(c.nodes.Keys, n, x) && n.id == m.to && Led(h, n.currentTerm, n.id)
            && m.from in c.nodes && m.from != m.to && m.term == m.body.term
  {
    hide EvidenceInv, HistoryInv, MatchOk, Holds, Sound, LogOk, HistoryAt, EvidenceAt, MessageOk;
    RunKeepsInv(states, actions, i);
    RunKeepsCommitInv(states, actions, i);
    var c, h, x := states[i], HistoryAt(states, actions, i), EvidenceAt(states, actions, i);
    assert MessageInv(c.nodes.Keys, m, h) && NodeOk(c.nodes.Keys, c.nodes[m.to], h, x);
    assert NodeInv(c.nodes.Keys, c.nodes[m.to], h);
  }

  lemma ItReports(net: set<Message>, m: Message)
    requires m in net && m.body.AppendResponse? && m.body.success
    ensures Reported(net, m.from, m.body.term, m.body.index)
  {
  }

  lemma ReportedMeansAcked(c: Cluster, h: History, x: Evidence, v: Id, t: nat, k: nat)
    requires CommitInv(c, h, x)
    ensures Reported(c.net, v, t, k) ==> Acked(x, v, t, k)
  {
    hide EvidenceInv, NodeOk;
    if Reported(c.net, v, t, k) {
      var m :| m in c.net && m.from == v && m.body.AppendResponse? && m.body.success && m.body.term == t && m.body.index >= k;
      assert MessageOk(c.nodes.Keys, m, h, x);
    }
  }
}
