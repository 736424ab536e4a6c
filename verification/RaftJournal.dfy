/**
 * Journal faithfulness: replaying what a node has handed to its write-ahead log, through the
 * overwrite rule of appendEntry, rebuilds the in-memory log.
 */
module RaftJournal {
  import opened RaftTypes
  import opened RaftLog
  import opened RaftStep
  import opened RaftCluster
  import opened RaftSafety
  import opened RaftTheorems
  import WalFormat

  ghost predicate JournalOk(n: NodeData) {
    AppendAll([], n.journal) == n.log
  }

  lemma JournalAppends(n: NodeData, req: Body)
    requires JournalOk(n) && req.AppendEntries?
    ensures AppendAll([], n.journal + NewOnes(n.log, req.entries)) == AppendAll(n.log, req.entries)
  {
    AppendAllConcat([], n.journal, NewOnes(n.log, req.entries));
    NewOnesSuffice(n.log, req.entries);
  }

  lemma JournalProposes(n: NodeData, e: Entry)
    requires JournalOk(n) && Contiguous(n.log) && e.index == LastIndex(n.log) + 1
    ensures AppendAll([], n.journal + [e]) == n.log + [e]
  {
    ContiguousLookup(n.log, LastIndex(n.log) + 1);
    AppendAllConcat([], n.journal, [e]);
    assert AppendAll(n.log, [e]) == AppendOne(n.log, e);
  }

  lemma JournalMessage(n: NodeData, m: Message)
    requires JournalOk(n)
    ensures JournalOk(OnMessage(n, m).node)
  {
    var n1 := Stepped(n, m.term);
    match m.body {
      case VoteRequest(_, _, _, _) =>
        assert OnVoteRequest(n1, m.from, m.body).node == n1.(votedFor := OnVoteRequest(n1, m.from, m.body).node.votedFor);
      case VoteResponse(_, _) =>
      case AppendEntries(_, _, _, _, _, _) => JournalAppends(n1, m.body);
      case AppendResponse(_, _, _) =>
    }
  }

  lemma JournalStep(n: NodeData, a: Action)
    requires JournalOk(n) && Contiguous(n.log)
    ensures JournalOk(Run1(n, a).node)
  {
    match a {
      case Deliver(m) => JournalMessage(n, m);
      case Timeout(_) =>
      case ProposeAt(_, command) =>
        JournalProposes(n, Entry(n.currentTerm, LastIndex(n.log) + 1, command));
      case Heartbeat(_) =>
    }
  }

  lemma ContiguousAt(states: seq<Cluster>, actions: seq<Action>, i: nat, id: Id)
    requires IsTimelyRun(states, actions) && i <= |actions| && id in states[i].nodes
    ensures Contiguous(states[i].nodes[id].log)
  {
    NodeAt(states, actions, i, id);
    LogOkContiguous(states[i].nodes[id].log, HistoryAt(states, actions, i));
  }

  lemma {:induction false} RunKeepsJournals(states: seq<Cluster>, actions: seq<Action>, i: nat, id: Id)
    requires IsTimelyRun(states, actions) && i <= |actions| && id in states[i].nodes
    ensures JournalOk(states[i].nodes[id])
  {
    if i > 0 {
      assert states[i] == Apply(states[i - 1], actions[i - 1]);
      RunKeepsJournals(states, actions, i - 1, id);
      ContiguousAt(states, actions, i - 1, id);
      JournalClusterStep(states[i - 1], actions[i - 1], id);
    }
  }

  lemma JournalClusterStep(c: Cluster, a: Action, id: Id)
    requires Enabled(c, a) && id in c.nodes && JournalOk(c.nodes[id]) && Contiguous(c.nodes[id].log)
    ensures JournalOk(Apply(c, a).nodes[id])
  {
    JournalStep(c.nodes[id], a);
  }

  /**
   * At any point of a timely run, decoding a node's WAL bytes and replaying the records gives its
   * in-memory log, however many suffixes conflicts have cut off.
   */
  lemma JournalFaithful(states: seq<Cluster>, actions: seq<Action>, i: nat, id: Id, codec: WalFormat.Codec)
    requires IsTimelyRun(states, actions) && i <= |actions| && id in states[i].nodes && codec.Faithful()
    ensures var scan := WalFormat.ReadAll(codec, WalFormat.EncodeAll(codec, states[i].nodes[id].journal));
            scan.clean && AppendAll([], scan.entries) == states[i].nodes[id].log
  {
    WalFormat.DecodeEncode(codec, states[i].nodes[id].journal);
    RunKeepsJournals(states, actions, i, id);
  }

  // ----- what NewNode does instead -----

  ghost predicate DistinctIndices(es: seq<Entry>) {
    forall i, j :: 0 <= i < j < |es| ==> es[i].index != es[j].index
  }

  lemma {:induction false} ReplayLength(log: seq<Entry>, es: seq<Entry>)
    ensures |AppendAll(log, es)| <= |log| + |es|
    decreases |es|
  {
    if es != [] {
      ReplayLength(AppendOne(log, es[0]), es[1..]);
    }
  }

  lemma {:induction false} ReplayDistinct(log: seq<Entry>, es: seq<Entry>)
    requires DistinctIndices(log)
    ensures AppendAll(log, es) == log + es <==> DistinctIndices(log + es)
    decreases |es|
  {
    if es == [] {
      assert log + es == log;
    } else {
      var log', i := AppendOne(log, es[0]), FirstAt(log, es[0].index);
      assert log + es == (log + [es[0]]) + es[1..];
      if i == |log| {
        ReplayDistinct(log', es[1..]);
      } else {
        ReplayLength(log', es[1..]);
        assert |AppendAll(log, es)| < |log + es|;
        assert (log + es)[i].index == (log + es)[|log|].index;
      }
    }
  }

  /**
   * NewNode takes the WAL records themselves as its log instead of replaying them.  That is the log
   * the node had if and only if no record ever overwrote an earlier index.
   */
  lemma RawRecordsAreTheLog(n: NodeData)
    requires JournalOk(n)
    ensures n.journal == n.log <==> DistinctIndices(n.journal)
  {
    ReplayDistinct([], n.journal);
    assert [] + n.journal == n.journal;
  }
}
