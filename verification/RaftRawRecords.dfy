/**
 * A journal that is not the log: a follower's entry of term 1 is overwritten by a leader of term 2,
 * and the journal keeps both records.
 */
module RaftRawRecords {
  import opened RaftTypes
  import opened RaftLog
  import opened RaftStep
  import opened RaftCluster
  import opened RaftTheorems
  import opened RaftUnsharedReport

  lemma FirstRequest(nl: NodeData, f: Id, g: Id)
    requires f != g && nl.role == Leader && nl.currentTerm == 2 && nl.log == [Y] && nl.commitIndex == 0
    requires f in nl.nextIndex && nl.nextIndex[f] == 1
    ensures AppendBody(nl, f) == AppendEntries(2, nl.id, 0, 0, [Y], 0)
  {
    assert Contiguous(nl.log);
    ContiguousSuffix(nl.log, 1, 1);
  }

  lemma Overwrites(nf: NodeData, l: Id)
    requires nf.currentTerm == 1 && nf.log == nf.journal == [X] && nf.commitIndex == 0
    ensures var n' := OnAppendEntries(Stepped(nf, 2), l, AppendEntries(2, l, 0, 0, [Y], 0)).node;
            n'.id == nf.id && n'.log == [Y] && n'.journal == [X, Y]
  {
    assert AppendOne([X], Y) == [Y] && [Y][1..] == [];
    assert AppendAll([X], [Y]) == AppendAll([Y], []) == [Y];
    assert NewOnes([X], [Y]) == [Y];
  }

  /** In every cluster of three some timely run ends with a node whose journal is not its log. */
  lemma JournalIsNotTheLog(l: Id, f: Id, g: Id) returns (r: seq<Cluster>, acts: seq<Action>)
    requires l != f && f != g && l != g && NOBODY !in {l, f, g}
    ensures IsTimelyRun(r, acts) && f in Last(r).nodes
    ensures Last(r).nodes[f].log == [Y] && Last(r).nodes[f].journal == [X, Y]
  {
    hide Onward, OnAppendEntries, BecomeLeader, AppendBody;
    var r0, acts0, nl0, nf, ng := NewLeader(l, f, g);
    LeaderFields(l, f, g, nl0);
    var r1, acts1, nl1 := Proposes(r0, acts0, nl0, "y", f);
    StillHas(r0, acts0, r1, acts1, nf, nl1);
    FirstRequest(nl1, f, g);
    Overwrites(nf, l);
    var nf2: NodeData;
    r, acts, nf2 := Appended(r1, acts1, nf, Reply(nl1, f, AppendBody(nl1, f)));
  }
}
