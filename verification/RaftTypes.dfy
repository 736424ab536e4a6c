/**
 * Entries, messages and node state of the Raft implementation in internal/raft, as values.
 *
 * A node's id is also the address its peers dial, so ids identify both.  Terms and indices are
 * unbounded here; the source's uint64 wrap-around is written out where the code can reach it.
 */
module RaftTypes {

  type Id = string

  /** The empty id: no vote cast, or no leader known. */
  const NOBODY: Id := ""

  datatype Role = Follower | Candidate | Leader

  datatype Entry = Entry(term: nat, index: nat, command: string)

  datatype Body =
    | VoteRequest(term: nat, candidate: Id, lastLogIndex: nat, lastLogTerm: nat)
    | VoteResponse(term: nat, granted: bool)
    | AppendEntries(term: nat, leader: Id, prevLogIndex: nat, prevLogTerm: nat,
                    entries: seq<Entry>, leaderCommit: nat)
    | AppendResponse(term: nat, success: bool, index: nat)

  /** The envelope carries its own copy of the sender's term. */
  datatype Message = Message(from: Id, to: Id, term: nat, body: Body)

  /** The fields of Node, with the records handed to its write-ahead log as `journal`. */
  datatype NodeData = NodeData(
    id: Id,
    peers: seq<Id>,
    role: Role,
    currentTerm: nat,
    votedFor: Id,
    leaderId: Id,
    log: seq<Entry>,
    journal: seq<Entry>,
    commitIndex: nat,
    nextIndex: map<Id, nat>,
    matchIndex: map<Id, nat>,
    votes: set<Id>)
}
