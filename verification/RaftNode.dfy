/** The Node object of internal/raft/raft.go: handlers that update its fields, proved against RaftStep. */
module RaftNode {
  import opened RaftTypes
  import opened RaftLog
  import opened RaftQuorum
  import opened RaftStep
  import opened WalFile
  import opened WalFormat

  class Node {
    const id: Id
    const peers: seq<Id>
    const wal: Wal
    var role: Role
    var currentTerm: nat
    var votedFor: Id
    var leaderId: Id
    var logEntries: seq<Entry>
    var commitIndex: nat
    var nextIndex: map<Id, nat>
    var matchIndex: map<Id, nat>
    var votesReceived: set<Id>
    var outbox: seq<Message>  // everything passed to sendMessage, in order

    ghost predicate Valid()
      reads this, wal
    {
      wal.Valid()
    }

    ghost function State(): NodeData
      reads this, wal
    {
      NodeData(id, peers, role, currentTerm, votedFor, leaderId, logEntries, wal.records, commitIndex,
               nextIndex, matchIndex, votesReceived)
    }

    constructor (id: Id, peers: seq<Id>, codec: Codec)
      requires codec.Faithful()
      ensures Valid() && fresh(wal) && outbox == []
      ensures State() == NodeData(id, peers, Follower, 0, NOBODY, NOBODY, [], [], 0, map[], map[], {})
    {
      this.id, this.peers := id, peers;
      wal := new Wal(codec);
      role, currentTerm, votedFor, leaderId := Follower, 0, NOBODY, NOBODY;
      logEntries, commitIndex := [], 0;
      nextIndex, matchIndex, votesReceived, outbox := map[], map[], {}, [];
    }

    method SendMessage(to: Id, body: Body)
      modifies `outbox
      ensures outbox == old(outbox) + [Reply(State(), to, body)]
    {
      outbox := outbox + [Message(id, to, currentTerm, body)];
    }

    method SendToAll(body: Body)
      modifies `outbox
      ensures outbox == old(outbox) + Broadcast(State(), body)
    {
      var i := 0;
      while i < |peers|
        invariant 0 <= i <= |peers|
        invariant outbox == old(outbox) + Broadcast(State(), body)[..i]
      {
        SendMessage(peers[i], body);
        i := i + 1;
      }
      assert Broadcast(State(), body)[..|peers|] == Broadcast(State(), body);
    }

    method BecomeFollowerNow(term: nat)
      modifies `role, `currentTerm, `votedFor, `leaderId, `votesReceived
      ensures State() == BecomeFollower(old(State()), term)
    {
      currentTerm, role, votedFor, leaderId := term, Follower, NOBODY, NOBODY;
      votesReceived := {};
    }

    method OnElectionTimeoutNow()
      modifies `role, `currentTerm, `votedFor, `leaderId, `votesReceived, `outbox
      ensures State() == OnElectionTimeout(old(State())).node
      ensures outbox == old(outbox) + OnElectionTimeout(old(State())).sent
    {
      if role == Leader {
        return;
      }
      currentTerm, role, votedFor, leaderId := currentTerm + 1, Candidate, id, NOBODY;
      votesReceived := {};
      SendToAll(VoteRequest(currentTerm, id, LastIndex(logEntries), LastTerm(logEntries)));
    }

    method BecomeLeaderNow()
      modifies `role, `nextIndex, `matchIndex
      ensures State() == BecomeLeader(old(State()))
    {
      role := Leader;
      var last := LastIndex(logEntries);
      var i := 0;
      assert peers[0..] == peers;
      while i < |peers|
        invariant 0 <= i <= |peers|
        invariant role == Leader
        invariant SetAll(nextIndex, peers[i..], last + 1) == SetAll(old(nextIndex), peers, last + 1)
        invariant SetAll(matchIndex, peers[i..], 0) == SetAll(old(matchIndex), peers, 0)
      {
        assert peers[i..][0] == peers[i] && peers[i..][1..] == peers[i + 1..];
        nextIndex := nextIndex[peers[i] := last + 1];
        matchIndex := matchIndex[peers[i] := 0];
        i := i + 1;
      }
    }

    method HandleVoteRequest(from: Id, req: Body)
      requires req.VoteRequest?
      modifies `votedFor, `outbox
      ensures State() == OnVoteRequest(old(State()), from, req).node
      ensures outbox == old(outbox) + OnVoteRequest(old(State()), from, req).sent
    {
      var voteGranted := false;
      if req.term >= currentTerm {
        if votedFor == NOBODY || votedFor == req.candidate {
          var lastLogIndex, lastLogTerm := LastIndex(logEntries), LastTerm(logEntries);
          if req.lastLogTerm > lastLogTerm
             || (req.lastLogTerm == lastLogTerm && req.lastLogIndex >= lastLogIndex) {
            voteGranted := true;
            votedFor := req.candidate;
          }
        }
      }
      SendMessage(from, VoteResponse(currentTerm, voteGranted));
    }

    method HandleVoteResponse(from: Id, resp: Body)
      requires resp.VoteResponse?
      modifies `role, `currentTerm, `votedFor, `leaderId, `votesReceived, `nextIndex, `matchIndex
      ensures State() == OnVoteResponse(old(State()), from, resp)
    {
      if role != Candidate {
        return;
      }
      if resp.term > currentTerm {
        BecomeFollowerNow(resp.term);
        return;
      }
      if resp.granted {
        votesReceived := votesReceived + {from};
        var voteCount := |votesReceived| + 1;
        var total := |peers| + 1;
        if voteCount > total / 2 {
          BecomeLeaderNow();
        }
      }
    }

    /** appendEntry: scan for the index, cut the log on a conflicting term, or append at the end. */
    method AppendEntry(e: Entry) returns (added: bool)
      modifies `logEntries
      ensures logEntries == AppendOne(old(logEntries), e)
      ensures added == IsNew(old(logEntries), e)
    {
      for i := 0 to |logEntries|
        invariant logEntries == old(logEntries)
        invariant forall j :: 0 <= j < i ==> logEntries[j].index != e.index
      {
        if logEntries[i].index == e.index {
          assert FirstAt(logEntries, e.index) == i;
          if logEntries[i].term != e.term {
            logEntries := logEntries[..i] + [e];
            return true;
          }
          return false;
        }
      }
      logEntries := logEntries + [e];
      return true;
    }

    method AppendEntriesToLog(es: seq<Entry>) returns (added: seq<Entry>)
      modifies `logEntries
      ensures logEntries == AppendAll(old(logEntries), es)
      ensures added == NewOnes(old(logEntries), es)
    {
      added := [];
      ghost var goal := AppendTracking(logEntries, [], es);
      AppendTrackingMeaning(logEntries, [], es);
      var i := 0;
      assert es[0..] == es;
      while i < |es|
        invariant 0 <= i <= |es|
        invariant AppendTracking(logEntries, added, es[i..]) == goal
      {
        assert es[i..][0] == es[i] && es[i..][1..] == es[i + 1..];
        var isNew := AppendEntry(es[i]);
        added := added + (if isNew then [es[i]] else []);
        i := i + 1;
      }
    }

    method HandleAppendEntries(from: Id, req: Body)
      requires req.AppendEntries? && Valid()
      modifies `votedFor, `leaderId, `logEntries, `commitIndex, `outbox, wal
      ensures Valid() && State() == OnAppendEntries(old(State()), from, req).node
      ensures outbox == old(outbox) + OnAppendEntries(old(State()), from, req).sent
    {
      var success := false;
      if req.term >= currentTerm {
        votedFor, leaderId := req.leader, req.leader;
        var found := FindEntry(logEntries, req.prevLogIndex, req.prevLogTerm);
        if req.prevLogIndex == 0 || found {
          success := true;
          var newEntries := AppendEntriesToLog(req.entries);
          if |newEntries| > 0 {
            wal.AppendBatch(newEntries);
          }
          if req.leaderCommit > commitIndex {
            var lastIndex := LastIndex(logEntries);
            commitIndex := if req.leaderCommit > lastIndex then lastIndex else req.leaderCommit;
          }
        }
      }
      SendMessage(from, AppendResponse(currentTerm, success, LastIndex(logEntries)));
    }

    method AdvanceCommitIndex()
      modifies `commitIndex
      ensures State() == AdvanceCommit(old(State()))
    {
      var newCommit := MajorityIndex(LastIndex(logEntries), matchIndex);
      if newCommit <= commitIndex {
        return;
      }
      var entryTerm := LookupTerm(logEntries, newCommit);
      if entryTerm == currentTerm {
        commitIndex := newCommit;
      }
    }

    method HandleAppendResponse(from: Id, resp: Body)
      requires resp.AppendResponse?
      modifies `role, `currentTerm, `votedFor, `leaderId, `votesReceived, `nextIndex, `matchIndex, `commitIndex
      ensures State() == OnAppendResponse(old(State()), from, resp)
    {
      if role != Leader {
        return;
      }
      if resp.term > currentTerm {
        BecomeFollowerNow(resp.term);
        return;
      }
      if resp.success {
        matchIndex := matchIndex[from := resp.index];
        nextIndex := nextIndex[from := resp.index + 1];
        AdvanceCommitIndex();
      } else if from in nextIndex && nextIndex[from] > 1 {
        nextIndex := nextIndex[from := nextIndex[from] - 1];
      }
    }

    method HandleMessage(m: Message)
      requires Valid()
      modifies this, wal
      ensures Valid() && State() == OnMessage(old(State()), m).node
      ensures outbox == old(outbox) + OnMessage(old(State()), m).sent
    {
      if m.term > currentTerm {
        BecomeFollowerNow(m.term);
      }
      match m.body {
        case VoteRequest(_, _, _, _) => HandleVoteRequest(m.from, m.body);
        case VoteResponse(_, _) => HandleVoteResponse(m.from, m.body);
        case AppendEntries(_, _, _, _, _, _) => HandleAppendEntries(m.from, m.body);
        case AppendResponse(_, _, _) => HandleAppendResponse(m.from, m.body);
      }
    }

    method SendHeartbeats()
      modifies `outbox
      ensures outbox == old(outbox) + Heartbeats(State())
    {
      if role != Leader {
        return;
      }
      SendToAll(AppendEntries(currentTerm, id, LastIndex(logEntries), LastTerm(logEntries), [], commitIndex));
    }

    method SendAppendEntries(peer: Id, lastIndex: nat)
      requires lastIndex == LastIndex(logEntries)
      modifies `outbox
      ensures outbox == old(outbox) + [Reply(State(), peer, AppendBody(State(), peer))]
    {
      var nextIdx := if peer in nextIndex then nextIndex[peer] else 0;
      var prevIndex := if nextIdx > 0 then nextIdx - 1 else 0xFFFF_FFFF_FFFF_FFFF;
      var prevTerm := 0;
      if prevIndex > 0 {
        prevTerm := LookupTerm(logEntries, prevIndex);
      }
      var entries := SelectEntries(logEntries, nextIdx, lastIndex);
      SendMessage(peer, AppendEntries(currentTerm, id, prevIndex, prevTerm, entries, commitIndex));
    }

    method SendAppendEntriesToAll()
      modifies `outbox
      ensures outbox == old(outbox) + Appends(State())
    {
      var lastIndex := LastIndex(logEntries);
      var i := 0;
      while i < |peers|
        invariant 0 <= i <= |peers|
        invariant outbox == old(outbox) + Appends(State())[..i]
      {
        SendAppendEntries(peers[i], lastIndex);
        i := i + 1;
      }
      assert Appends(State())[..|peers|] == Appends(State());
    }

    method ProposeNow(command: string) returns (index: nat, ok: bool)
      requires Valid()
      modifies `logEntries, `outbox, wal
      ensures Valid() && State() == Propose(old(State()), command).node
      ensures outbox == old(outbox) + Propose(old(State()), command).sent
      ensures ok <==> role == Leader
      ensures ok ==> index == LastIndex(logEntries)
    {
      if role != Leader {
        return 0, false;
      }
      var e := Entry(currentTerm, LastIndex(logEntries) + 1, command);
      logEntries := logEntries + [e];
      wal.Append(e);
      SendAppendEntriesToAll();
      return e.index, true;
    }
  }
}
