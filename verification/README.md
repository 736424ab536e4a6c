# Geryon, modelled and verified in Dafny

Geryon is a database connection proxy. This project models the parts of it whose correctness is
hardest to see from the code, and proves what they promise over every input, every run or every
reachable state. `dafny verify dfyconfig.toml` checks everything. Nothing here executes the proxy.

**Raft consensus** (`Raft*.dfy`). `RaftNode.Node` is the node object: its methods update term, vote,
log, tables and outbox in place and are proved equal to the pure handlers of `RaftStep`, and
`RaftOutcomes` says field by field and message by message what each of them comes to.
`RaftCluster` runs any number of nodes over a network that may delay, drop, duplicate and reorder
messages; every handler is one step. A node's id is its address, and there is no restart, because
term and vote are never written down. The code compares too few terms and indices for the theorems of
Raft to hold of it in every run, so the conditions they need are stated on single steps. Each has its
exact meaning for the step and a run that breaks the theorem when only that condition is dropped:

- a *timely* run hands a candidate no granted vote of an earlier term. Timely runs have election
  safety, log matching and follower agreement. The tally stays genuine exactly when the voter has sent
  a vote of the current term (`RaftStaleVote.CountedVoteGenuine`); without the condition two leaders
  share a term (`RaftStaleVote.TwoLeadersOfOneTerm`).
- a *guarded* run is a timely one in which, first, a follower reports only entries it shares with the
  leader and, second, a leader counts a report only in the term it was given in. Guarded runs have
  State Machine Safety. For the first half see `RaftCommitAppend.ReportIsShared` and, in a run that
  keeps the second half, `RaftUnsharedReport.DifferentEntriesCommitted`; for the second half
  `RaftLateReport.CountedReportGenuine` and, in a run that keeps the first half,
  `RaftLateReport.LateReportCounted`.

**Write-ahead log** (`Wal.dfy`, `WalFile.dfy`, `RaftJournal.dfy`). The file is a sequence of bytes with
one shared offset. JSON and CRC-32 are uninterpreted functions of which only this is used: decoding
undoes encoding. Replaying the decoded records through the overwrite rule rebuilds the in-memory log
in every reachable state.

**Connection pool** (`ServerConns.dfy`, `WaitQueue.dfy`, `PoolSystem.dfy`, `PoolCapacity.dfy`,
`PoolPaths.dfy`, `Session.dfy`, `MemoryBudget.dfy`). The idle slice with its inverse index and the wait queue with head,
holes and lazy compaction are objects proved against plain sequences. `PoolSystem` is a machine with
one step for each critical section, for any number of sessions in the three pooling modes; over all
its interleavings a connection has at most one owner, and the capacity bound under races is proved and
shown to be reached. `PoolPaths` says where each path through it ends. `Session` follows messages through the strategies. `MemoryBudget` takes every
atomic load and compare-and-swap as a step of its own.

**Query cache** (`Cache.dfy`, `CacheStore.dfy`, `CacheHistory.dfy`). The map, recency list and byte count
are an object proved against a list of entries; the list is then proved against a history-defined map
and a history-defined notion of last use. Time is an input.

**Prepared statements** (`Prepared.dfy`, `PreparedCache.dfy`). Two maps that must agree while ids are
reused for different SQL. The query hash is an uninterpreted function into non-empty strings.

**Wildcard matcher and startup messages** (`Glob.dfy`, `Startup.dfy`). The greedy matcher decides the
declarative meaning of a pattern. The startup-message printer and parser (StartupMessage, section 55.7
of the PostgreSQL 16 documentation) round-trip on a stream exactly when the message qualifies.

Where the code and its documentation part ways the model follows the code:

- `Wait` promises to refuse only when maxSize clients wait, but holes left by clients that gave up
  count too (`WaitQueues.RefusedWithRoom`).
- Opening a torn log file tolerates the bad tail, while `ReadEntries` and `Truncate` report an error;
  and a cut right after a checksum or a length goes unnoticed (`WalFormat.TornTail`).
- The records of the log file are the log itself only if nothing was ever overwritten
  (`RaftJournal.RawRecordsAreTheLog`), which a run can do (`RaftRawRecords.JournalIsNotTheLog`); the
  replay rule is what makes them faithful.
- A prepared statement that is still cached can stop being found under its id: when the id is given to
  another query, and also when some other statement that still bears the id is evicted, cleaned up or
  added again (`PreparedStatements.FoundExactly` and the three runs beside it).
- Statement pooling releases its connection after each statement, but not when the write failed
  (`Sessions.StatementModeLoses`).

## Model

| member | source | states |
|---|---|---|
| RaftLog.FindEntry | internal/raft/raft.go:841-851 | true exactly when some entry has that index and term |
| RaftLog.LookupTerm | internal/raft/raft.go:944-956 | the term of the first entry with that index, or 0 |
| RaftLog.SelectEntries | internal/raft/raft.go:958-966 | the entries with index in the range, in log order |
| RaftLog.ContiguousLookup | internal/raft/raft.go:860-870 | in a log contiguous from 1 the scan for an index finds exactly position index - 1 |
| RaftLog.ContiguousSuffix | internal/raft/raft.go:958-966 | in a contiguous log what is sent from nextIndex on is exactly the suffix |
| RaftLog.NewOnesSuffice | internal/raft/raft.go:523-536 | replaying only the entries persisted as new rebuilds the same log as replaying all of them |
| RaftLog.AppendAllConcat | internal/raft/raft.go:855-875 | the overwrite rule applied to two batches is the rule applied to their concatenation |
| RaftQuorum.MedianIsGreatestMajority | internal/raft/raft.go:606-617 | for every length, position len/2 of a descending list is the greatest value a strict majority reaches |
| RaftQuorum.QuorumIndexExists | internal/raft/raft.go:599-617 | for every set of reports some index is the greatest that a strict majority of the nodes has reached |
| RaftQuorum.QuorumIndexUnique | internal/raft/raft.go:599-617 | there is only one such index |
| RaftQuorum.MajorityIndex | internal/raft/raft.go:599-617 | collecting, sorting and picking computes that index, whatever order the map is walked in |
| RaftStep.CommitOnlyAdvances | internal/raft/raft.go:595-638 | a leader's commit index never goes back, and moves only to the greatest majority index and only if that entry is of its term |
| RaftStep.SetAllMeaning | internal/raft/raft.go:686-701 | a new leader's tables give every peer the same value and keep other keys |
| RaftNode.Node.constructor | internal/raft/raft.go:194-256 | a node without saved state starts as a follower in term 0 with empty log, tables and file |
| RaftNode.Node.SendMessage | internal/raft/raft.go:769-785 | one message with the sender's id and current term is put on the network |
| RaftNode.Node.SendToAll | internal/raft/raft.go:763-765 | one message to each peer, in order |
| RaftNode.Node.BecomeFollowerNow | internal/raft/raft.go:641-653 | the whole new state: the term, no vote, no leader, no tally |
| RaftNode.Node.OnElectionTimeoutNow | internal/raft/raft.go:656-711 | a non-leader enters the next term, votes for itself and asks every peer with its last index and term; a leader does nothing |
| RaftNode.Node.BecomeLeaderNow | internal/raft/raft.go:686-701 | the role and both tables, for every peer |
| RaftNode.Node.HandleVoteRequest | internal/raft/raft.go:441-471 | the new vote and the answer, granted exactly under the code's term, vote and log conditions |
| RaftNode.Node.HandleVoteResponse | internal/raft/raft.go:474-503 | only candidates count, a later term demotes, a majority elects |
| RaftNode.Node.AppendEntry | internal/raft/raft.go:855-875 | same index and term: nothing; conflicting term: cut there and append; else append; and whether the entry was new |
| RaftNode.Node.AppendEntriesToLog | internal/raft/raft.go:523-529 | the log after all entries and exactly the entries that were new, in order |
| RaftNode.Node.HandleAppendEntries | internal/raft/raft.go:506-559 | vote and leader, log, journal, commit index and the answer, with the log file holding the journal |
| RaftNode.Node.AdvanceCommitIndex | internal/raft/raft.go:595-638 | the commit index after the quorum rule and the current-term check |
| RaftNode.Node.HandleAppendResponse | internal/raft/raft.go:562-592 | tables and commit index on success, nextIndex one lower but not below 1 on refusal |
| RaftNode.Node.HandleMessage | internal/raft/raft.go:420-438 | a later term demotes first, then the handler of the message's kind runs |
| RaftNode.Node.SendHeartbeats | internal/raft/raft.go:748-766 | a leader tells each peer its last index, last term and commit index |
| RaftNode.Node.SendAppendEntries | internal/raft/raft.go:939-977 | the request for one peer, with the wrap-around of nextIndex 0 |
| RaftNode.Node.SendAppendEntriesToAll | internal/raft/raft.go:934-979 | such a request for each peer, in order |
| RaftNode.Node.ProposeNow | internal/raft/raft.go:898-931 | only a leader appends the next index in its term, journals it and sends it out |
| RaftOutcomes.TimeoutOutcome | internal/raft/raft.go:656-711 | every field and every vote request after an election timeout, from the node before it alone |
| RaftOutcomes.VoteRequestOutcome | internal/raft/raft.go:441-471 | a vote is granted exactly when the request is not of an earlier term, the vote of that term is free or already this candidate's, and the candidate's last entry is not behind; with the whole new node and the answer |
| RaftOutcomes.VoteResponseOutcome | internal/raft/raft.go:474-503 | a candidate leads exactly when its own and the counted votes are more than half, with both tables; a later term demotes; nothing else changes anything |
| RaftOutcomes.AppendIsMerge | internal/raft/raft.go:523-529 | the append loop keeps what is there, cuts at the first entry that is missing or of another term, appends the rest, and reports exactly the rest as new |
| RaftOutcomes.AppendEntriesOutcome | internal/raft/raft.go:506-559 | a request is accepted exactly when it is not of an earlier term and the node has its previous entry; vote, leader, merged log, journal, commit index and answer in each case |
| RaftOutcomes.RequestNumbered | internal/raft/raft.go:934-979 | in a timely run every request numbers its entries from the one after the previous entry on |
| RaftOutcomes.DeliveredAppendOutcome | internal/raft/raft.go:538-545 | the same for the delivered step of a timely run: the commit index becomes the smaller of the announced one and the log's length exactly when the request is accepted and announces a higher one |
| RaftOutcomes.HeartbeatOutcome | internal/raft/raft.go:748-766 | a leader's heartbeat to each peer, field by field; others send none |
| RaftOutcomes.AppendBodyOutcome | internal/raft/raft.go:939-975 | a request carries everything from the peer's next index on, behind the entry before it; next index 0 wraps to 2^64 - 1 |
| RaftOutcomes.ProposeOutcome | internal/raft/raft.go:898-931 | a leader appends and journals one entry of its term with the next index and sends a request to each peer; others do nothing |
| RaftOutcomes.AppendResponseOutcome | internal/raft/raft.go:562-638 | a success goes into both tables and commits the greatest index that more than half have, if new and of the leader's term; a refusal steps next index back by one, not below 1 |
| RaftTheorems.StepKeepsInv | internal/raft/raft.go:420-701 | every enabled timely step of an n-node cluster keeps the global invariant and only adds to the history of votes and leaders' logs |
| RaftTheorems.RunKeepsInv | internal/raft/raft.go:420-979 | the invariant holds in every state of every timely run |
| RaftTheorems.ElectionSafety | internal/raft/raft.go:441-503 | in every timely run no term has two leaders, at one time or at different times, although append entries overwrite the vote within a term |
| RaftTheorems.LogMatching | internal/raft/raft.go:506-529 | same index and term in two logs, even at different times, means identical logs up to there; every log is contiguous from 1 |
| RaftTheorems.FollowerCoversSender | internal/raft/raft.go:519-529 | a request a follower accepts leaves its log starting with the sender's whole log as it stood when the request was built |
| RaftTheorems.FollowerAgreement | internal/raft/raft.go:519-558 | after accepting a request a follower's log starts with the sender's log in any state in which the sender could have built it, and a commit index adopted from inside that log covers only shared entries |
| RaftTheorems.RequestWasBuilt | internal/raft/raft.go:748-766 | every append request on the network was built by a leader, as an append or a heartbeat, in some earlier state |
| RaftTheorems.SuccessMeansAgreement | internal/raft/raft.go:506-559 | whenever a follower answers success, such a state exists, and the agreement and the commit index claim hold for it |
| RaftStaleVote.CountedVoteGenuine | internal/raft/raft.go:490-502 | in any state of a timely run, counting a granted vote keeps the tally genuine exactly when the voter has sent the candidate a granted vote of its current term |
| RaftStaleVote.VoteWasSent | internal/raft/raft.go:441-471 | every vote for another node was sent to it as a granted vote of that term |
| RaftStaleVote.TwoLeadersOfOneTerm | internal/raft/raft.go:490-502 | a run of any three nodes in which a late vote makes a second leader of term 2 |
| RaftEvidence.LeaderCompleteness | internal/raft/raft.go:441-503 | what a strict majority confirmed in a term is in the log of every leader of a later term |
| RaftCommitAppend.ReportIsShared | internal/raft/raft.go:553-558 | the last index a follower reports covers only the leader's entries exactly when its log ends where the request ends or ends with an entry of the request's term |
| RaftCommitAppend.QuorumIsCommitted | internal/raft/raft.go:595-638 | the index the quorum rule picks has really been confirmed by a strict majority |
| RaftStateMachineSafety.RunKeepsCommitInv | internal/raft/raft.go:506-638 | in every state of every guarded run each confirmation, ballot and commit index is backed by evidence |
| RaftStateMachineSafety.StateMachineSafety | internal/raft/raft.go:538-638 | in every guarded run two nodes that have committed an index, at any two times, hold the same entry there |
| RaftUnsharedReport.CommittedEntryMissing | internal/raft/raft.go:553-592 | a timely run in which an entry counts as committed while a later leader's log lacks it |
| RaftUnsharedReport.DifferentEntriesCommitted | internal/raft/raft.go:553-592 | a timely run, with every report counted in its own term, that ends with two nodes having committed different entries at index 1 |
| RaftLateReport.CountedReportGenuine | internal/raft/raft.go:562-584 | in any state of a guarded run, counting a success report keeps the leader's table sound exactly when the sender has reported that index or a higher one in the leader's term |
| RaftLateReport.ReportWasSent | internal/raft/raft.go:553-558 | whatever a node has confirmed in a term it does not itself lead, it has reported in that term |
| RaftLateReport.LateReportCounted | internal/raft/raft.go:573-584 | a timely run of any five nodes, with every report covering only shared entries, in which a report of term 1 counted in term 3 ends with two nodes having committed different entries at index 2 |
| RaftJournal.JournalFaithful | internal/raft/raft.go:523-536 | in every state of every timely run, decoding the journal's bytes and replaying the records gives exactly the in-memory log |
| RaftJournal.RawRecordsAreTheLog | internal/raft/raft.go:226-232 | the records themselves are the log exactly when no index was journalled twice |
| RaftRawRecords.JournalIsNotTheLog | internal/raft/raft.go:523-536 | a timely run of any three nodes after which one has a journal of two records and a log of one |
| WalFormat.ReadEncoded | internal/raft/wal.go:154-186 | a written record followed by anything is read back, leaving the rest |
| WalFormat.DecodeEncode | internal/raft/wal.go:154-289 | scanning what was appended gives the same entries in order and no error |
| WalFormat.EncodeConcat | internal/raft/wal.go:240-267 | appending a batch writes the same bytes as appending its entries one by one |
| WalFormat.TornTail | internal/raft/wal.go:154-186 | cut at any byte, a file yields exactly its whole records, and the cut goes unnoticed exactly on a record boundary, after a checksum or after a length |
| WalFormat.ReadEntryExactly | internal/raft/wal.go:154-186 | for every byte sequence: a record is read exactly when the bytes start with the checksum of some data, its length and the data, and the data decodes to the entry |
| WalFormat.EndOfFileExactly | internal/raft/wal.go:157-171 | for every byte sequence: the end of file is found exactly before a checksum, before a length, or before announced data |
| WalFormat.DamageNoticed | internal/raft/wal.go:173-177 | a file in which one record's data was replaced by data of another checksum scans to exactly the records before it, with an error |
| WalFormat.FromIndexMeans | internal/raft/wal.go:315-317 | exactly the entries from an index on are kept |
| WalFormat.FromIndexConcat | internal/raft/wal.go:315-317 | and they keep their order |
| WalFormat.LatestConcat | internal/raft/wal.go:280-286 | the running last index and term of a concatenation are those of the second part started from the first |
| WalFormat.LatestMeans | internal/raft/wal.go:143-147 | the last index is the greatest one read, with the term of its first occurrence, or stays when none is greater |
| WalFile.Wal.constructor | internal/raft/wal.go:66-112 | a new file holds only the header |
| WalFile.Wal.Append | internal/raft/wal.go:189-237 | the file then holds the old records and the new one, and last index and term are updated |
| WalFile.Wal.AppendBatch | internal/raft/wal.go:240-289 | the same for a batch |
| WalFile.Wal.Recover | internal/raft/wal.go:115-151 | accepts exactly files with this magic and version, and keeps the last index and term of the readable records |
| WalFile.Wal.ScanRecords | internal/raft/wal.go:131-148 | the loop reads the longest readable run of records and says whether it ended in an error |
| WalFile.Wal.ReadEntries | internal/raft/wal.go:292-321 | the records from an index on, or an error when one cannot be read; on an intact file exactly those appended |
| WalFile.Wal.Truncate | internal/raft/wal.go:324-393 | an error, with file and records unchanged, exactly when a record cannot be read; else the file holds exactly the records not before the index |
| WalFile.Filter | internal/raft/wal.go:346-348 | keeps exactly the entries from an index on, in order |
| ServerConns.ServerConnPool.constructor | internal/pool/pool.go:228-237 | an empty, consistent pool |
| ServerConns.ServerConnPool.Acquire | internal/pool/pool.go:240-255 | takes the last idle connection and makes it active, or nothing exactly when none is idle |
| ServerConns.ServerConnPool.Release | internal/pool/pool.go:258-286 | back to idle, or closed when full or not resettable; the index stays the exact inverse exactly when the connection was not already idle, or does not become so |
| ServerConns.ServerConnPool.AddActive | internal/pool/pool.go:289-294 | idle and active stay disjoint exactly when the connection is not idle |
| ServerConns.ServerConnPool.Remove | internal/pool/pool.go:297-315 | the connection leaves both tables and the index stays the exact inverse of the slice |
| ServerConns.ServerConnPool.CloseBackend | internal/pool/pool.go:373-399 | exactly the backend's idle connections are closed, in order; the others stay in order; counts the active ones |
| ServerConns.ServerConnPool.FilterIdle | internal/pool/pool.go:385-396 | the in-place filter leaves the others in the front of the slice and the index of each |
| ServerConns.ServerConnPool.CountActive | internal/pool/pool.go:358-368 | the number of active connections of a backend |
| ServerConns.BackendPartition | internal/pool/pool.go:373-399 | what is closed and what is kept are together exactly the idle connections |
| ServerConns.PartsInOrder | internal/pool/pool.go:385-396 | both parts keep the order |
| ServerConns.SwapRemoveDropsOne | internal/pool/pool.go:297-315 | swap with last removes exactly one connection and no other |
| WaitQueues.WaitQueue.constructor | internal/pool/pool.go:425-435 | empty, of size 1000 when the given size is not positive |
| WaitQueues.WaitQueue.Join | internal/pool/pool.go:451-461 | refused exactly when the slots from head on, holes included, reach maxSize; else last in the queue; never more than maxSize slots |
| WaitQueues.WaitQueue.Leave | internal/pool/pool.go:464-480 | deletes exactly that waiter; everyone else keeps their place |
| WaitQueues.WaitQueue.Signal | internal/pool/pool.go:529-558 | the longest-enqueued remaining waiter gets the connection, once; refused exactly when none remain |
| WaitQueues.WaitQueue.Shrink | internal/pool/pool.go:443-448 | drops the consumed front and nothing else |
| WaitQueues.ClearedSlot | internal/pool/pool.go:466-474 | clearing a slot deletes its waiter from the queue and keeps the order |
| WaitQueues.RefusedWithRoom | internal/pool/pool.go:455-458 | a queue of size 2 that refuses a third client while only one waits |
| WaitQueues.RefusedOnlyWhenFull | internal/pool/pool.go:455-458 | a full queue has maxSize clients waiting exactly when it has no holes |
| PoolSystem.StepKeeps | internal/pool/pool.go:730-801 | every critical section of every acquire, wait, time-out, hand-over and release, of any session, keeps the whereabouts of every connection consistent |
| PoolSystem.RunKeeps | internal/pool/pool.go:451-558 | so does every interleaving of them |
| PoolSystem.ExclusiveOwnership | internal/pool/pool.go:730-801 | in every state of every run a connection is held, delivered to or being released by at most one session, never while idle, and idle and active are disjoint |
| PoolPaths.TakesIdle | internal/pool/pool.go:730-734 | with a connection idle, the session ends up holding the one returned last, now active |
| PoolPaths.CheckDecides | internal/pool/pool.go:736-737 | a connection is created exactly below the maximum |
| PoolPaths.Creates | internal/pool/pool.go:737-744 | a created connection has a new id and ends up active and held |
| PoolPaths.FullPoolWaits | internal/pool/pool.go:746-755 | an acquirer at a full pool with nothing idle goes to the end of the queue, or is sent away |
| PoolPaths.ReceiverHolds | internal/pool/pool.go:487-507 | a delivered connection ends up held by its waiter, and nothing else changes |
| PoolPaths.GivesUp | internal/pool/pool.go:512-516 | a waiter whose time is up leaves the queue, the others keep their order, and nothing else changes |
| PoolPaths.ReturnsToPool | internal/pool/pool.go:258-286 | with no one waiting, a released connection becomes idle exactly if there is room and it could be reset; the session holds nothing |
| PoolPaths.HandedOver | internal/pool/pool.go:793-797 | with someone waiting, the head of the queue ends up holding the released connection, still active, and the releaser holds nothing |
| PoolPaths.DeliveryMissed | internal/pool/pool.go:512-516 | a connection delivered to a waiter whose time is up stays active and unheld |
| PoolPaths.SignalsTooLate | internal/pool/pool.go:529-558 | so does one released to a waiter whose time was already up |
| PoolPaths.ClosesBackend | internal/pool/pool.go:373-399 | closing a backend takes exactly its idle connections out of the pool |
| PoolCapacity.CapacityUnderRaces | internal/pool/pool.go:730-759 | with at most c acquirers between check and addActive, idle plus active is at most the maximum - 1 + c, in every state of every run |
| PoolCapacity.CapacityBoundReached | internal/pool/pool.go:730-745 | for every maximum and every c a run reaches that bound |
| Sessions.Session.constructor | internal/pool/session.go:59-73 | a new session holds nothing, is in no transaction and releases after autocommit |
| Sessions.Session.HandleMessage | internal/pool/session.go:283-369 | new state, connection written to and error, for every combination of message kinds, pool answers and write outcomes |
| Sessions.Session.QueryHook | internal/pool/strategy.go:139-240 | the connection to use in each mode, and the autocommit flag |
| Sessions.Session.QueryCompleteHook | internal/pool/strategy.go:168-249 | releases in statement mode, and in transaction mode outside a transaction |
| Sessions.Session.TransactionEndHook | internal/pool/strategy.go:187-198 | leaves the transaction, releases and counts it in transaction mode |
| Sessions.TransactionModeBetweenMessages | internal/pool/strategy.go:139-198 | after a message a connection is held only inside a transaction, exactly unless the session is in none and the message is a query that begins none, gets a connection and cannot be written |
| Sessions.StatementModeBetweenMessages | internal/pool/strategy.go:226-259 | after a message nothing is held, exactly unless it is a query that gets a connection and cannot be written |
| Sessions.ForwardedExactly | internal/pool/session.go:283-343 | for every mode, message and surroundings: which connection the message is written to, which error is returned, and what is counted |
| Sessions.TransactionModeOutcome | internal/pool/strategy.go:139-198 | for every message: whether the session is in a transaction, what it holds, what it got and gave back, and whether a transaction is counted |
| Sessions.AutocommitFlag | internal/pool/strategy.go:158-178 | for every message: whether autocommit is due afterwards |
| Sessions.StatementModeOutcome | internal/pool/strategy.go:226-259 | for every message: what is held, got and given back |
| Sessions.SessionModeOutcome | internal/pool/strategy.go:64-110 | for every message: what is held and got; nothing is given back |
| Sessions.ConnectOutcome | internal/pool/strategy.go:45-61 | connecting takes a connection in session mode only; disconnecting gives back what is held |
| Sessions.EndEnds | internal/pool/session.go:345-350 | an end handled without failure leaves the transaction; in transaction mode the connection is given back and the transaction counted |
| Sessions.InTransactionExactly | internal/pool/session.go:308-350 | in every mode and over any run, in a transaction exactly when a begin was handled that no end handled since has closed |
| Sessions.HeldBetweenMessages | internal/pool/session.go:283-369 | both over whole runs, up to and exactly until the first such message |
| Sessions.TransactionAffinity | internal/pool/session.go:308-349 | over any run, errors included, everything forwarded from a begin to its end goes to one connection |
| Sessions.SessionAffinity | internal/pool/strategy.go:45-110 | in session mode the connection once held takes every message until the client disconnects, errors or not |
| Sessions.ConnectionsConserved | internal/pool/strategy.go:124-259 | over any run, in any mode and with any errors, the connections got and not given back are the one held and those an acquisition overwrote |
| Sessions.LostNothing | internal/pool/strategy.go:226-249 | none is lost exactly when no acquisition found one held |
| Sessions.TransactionModeLosesNothing | internal/pool/strategy.go:124-198 | in transaction mode, after a disconnect everything got has been given back |
| Sessions.StatementModeLoses | internal/pool/strategy.go:226-249 | in statement mode a failed write followed by a query leaves a connection out for good |
| MemoryBudget.StepConserves | internal/pool/manager.go:58-85 | every atomic step keeps the counter at 8192 times the connections open, in creation or being freed, exactly unless it admits one while there is no limit |
| MemoryBudget.BudgetConserved | internal/pool/pool.go:834-899 | so over every interleaving of creations, retries, open circuits, failures and closings |
| MemoryBudget.BudgetRespected | internal/pool/manager.go:58-72 | the counter never exceeds the largest limit that was ever set |
| MemoryBudget.BudgetExact | internal/pool/manager.go:58-85 | with one positive limit throughout, the counter is exact and within the limit in every state |
| MemoryBudget.FreeAlwaysFrees | internal/pool/manager.go:75-85 | while the counter is exact, Free never takes its early return |
| MemoryBudget.AdmittedExactly | internal/pool/manager.go:58-72 | an allocation is refused exactly when 8192 more would exceed the limit, takes 8192 when no one interferes, and otherwise tries again |
| MemoryBudget.FreedExactly | internal/pool/manager.go:75-85 | a release gives back 8192 when no one interferes, and otherwise tries again |
| MemoryBudget.ThreeAttempts | internal/pool/pool.go:845-899 | the third failed or skipped attempt gives the share back, an earlier one tries again, a success keeps it |
| MemoryBudget.UnderCounted | internal/pool/manager.go:40-85 | a run in which a limit set while a connection is open leaves the counter at 0 with another one open |
| LruCache.SetIsExactLru | internal/cache/store.go:81-123 | a successful Set leaves the new entry before exactly the longest most-recently-used prefix of the others that fits beside it, within the maximum, and counts the evictions |
| LruCache.LongestUnique | internal/cache/store.go:102-105 | only one prefix is the longest that fits |
| LruCache.StepKeepsValid | internal/cache/store.go:56-170 | every operation keeps the keys distinct and the bytes within the maximum |
| LruCache.RemovesExactly | internal/cache/store.go:56-252 | invalidation, cleanup, Delete, Clear and Get remove exactly the entries naming the table, those with now after their time, the key, everything, and the key if now is after its time |
| CacheStore.Store.constructor | internal/cache/store.go:46-53 | an empty store |
| CacheStore.Store.RemoveEntry | internal/cache/store.go:206-210 | the entry leaves map and list and its bytes leave the count |
| CacheStore.Store.EvictOldest | internal/cache/store.go:213-222 | the last entry of the list goes and is counted |
| CacheStore.Store.Get | internal/cache/store.go:56-78 | the answer and the new list, counters included, for missing, expired and live entries |
| CacheStore.Store.Set | internal/cache/store.go:81-123 | refused and unchanged when too large, else the list of a Set; map and list stay in bijection and the count stays the sum |
| CacheStore.Store.MakeRoom | internal/cache/store.go:102-105 | the loop evicts from the back until the rest fits |
| CacheStore.Store.Delete | internal/cache/store.go:126-133 | the key is gone and nothing else |
| CacheStore.Store.Naming | internal/cache/store.go:140-148 | collects exactly the keys of the entries naming the table, once each |
| CacheStore.Store.RemoveAll | internal/cache/store.go:150-152 | removes exactly the collected entries |
| CacheStore.Store.InvalidateTable | internal/cache/store.go:136-153 | the entries naming the table are gone and the others keep their order |
| CacheStore.Store.InvalidateTables | internal/cache/store.go:156-160 | the same for any of several tables |
| CacheStore.Store.Clear | internal/cache/store.go:163-170 | nothing is left; the counters stay |
| CacheStore.Store.Outdated | internal/cache/store.go:242-247 | collects exactly the keys of the entries with now after their time, once each |
| CacheStore.Store.CleanupExpired | internal/cache/store.go:238-252 | the expired entries are gone and the others keep their order |
| CacheHistory.HistoryKeepsValid | internal/cache/store.go:56-252 | distinct keys and bounded bytes after every history |
| CacheHistory.HitIsLastWrite | internal/cache/store.go:56-170 | after any history a hit returns the last successful Set of the key, undone by no Delete, Clear or invalidation of its tables, and not expired |
| CacheHistory.PlainMapUntilEviction | internal/cache/store.go:56-252 | while nothing has been evicted and time does not run backwards, the cache answers exactly as a plain map does, up to the time of each Set plus its lifetime |
| CacheHistory.RecencyOrder | internal/cache/store.go:74-119 | after any history the list is ordered by last use, where a use is a successful Set or a hit |
| CacheHistory.EvictedAreLeastRecent | internal/cache/store.go:102-105 | whatever a Set evicts was used less recently than everything it keeps |
| CacheHistory.CountersMean | internal/cache/store.go:56-78 | hits counts the Gets that returned a value, misses the others |
| PreparedStatements.AddKeeps | internal/pool/prepared.go:115-143 | an Add keeps ids and statements consistent and at most maxSize statements, and the id then names the statement |
| PreparedStatements.EvictionIsOldest | internal/pool/prepared.go:131-181 | a statement that an Add drops was used no later than any other; only a full cache drops one, and only one |
| PreparedStatements.StepUses | internal/pool/prepared.go:25-41 | what a use does to a statement, and that nothing else changes one |
| PreparedStatements.StoredIsLastUse | internal/pool/prepared.go:79-143 | over any run the stored time of a statement is that of the last Add or hit by query or id in the history |
| PreparedStatements.EvictedWasLeastRecent | internal/pool/prepared.go:131-181 | over any run a statement that an Add drops was by the history used no later than any other |
| PreparedStatements.CleanupDropsUnused | internal/pool/prepared.go:194-207 | over any run a cleanup drops exactly the statements whose last use in the history is longer ago than the lifetime |
| PreparedStatements.StepCounts | internal/pool/prepared.go:79-207 | what each operation counts |
| PreparedStatements.StepLeaves | internal/pool/prepared.go:79-207 | exactly which statements and ids lookups, removals and cleanup leave |
| PreparedStatements.AddLeavesOthers | internal/pool/prepared.go:115-143 | an Add leaves its query and all others, or all but one when full and the query is new |
| PreparedStatements.RunKeepsIndex | internal/pool/prepared.go:79-207 | over any run, ids reused or not, every id names a live statement that bears it, and at most maxSize are held |
| PreparedStatements.FoundIsLastAdded | internal/pool/prepared.go:97-157 | over any run a lookup by id that finds anything finds the query last added under that id |
| PreparedStatements.AddKeepsReachable | internal/pool/prepared.go:115-143 | from any consistent state: after an Add every statement is reachable exactly when every other remaining one was, and bears neither the new id, nor the added statement's old id, nor that of the evicted one |
| PreparedStatements.RemovalsKeepReachable | internal/pool/prepared.go:146-207 | from any consistent state: after a removal every statement is reachable exactly when every remaining one was and, for evictions and cleanup, none of those dropped bears the id of one that remains |
| PreparedStatements.RenameUnnames | internal/pool/prepared.go:121-129 | adding a known query again takes an id from another statement exactly when it takes or bears that id |
| PreparedStatements.EvictAllUnnames | internal/pool/prepared.go:160-207 | dropping statements takes an id from a live one exactly when one of those dropped bears it too |
| PreparedStatements.StepKeepsFound | internal/pool/prepared.go:79-207 | for every operation and any consistent state: a live statement stays found exactly when its id is not given to another query and no other statement bearing it is dropped or given a new id |
| PreparedStatements.FoundExactly | internal/pool/prepared.go:79-207 | over any run a live statement is found under the id it was last added with exactly when no such step has come since |
| PreparedStatements.AllFound | internal/pool/prepared.go:79-207 | over any run in which no Add takes over the id of another query that stays live, every live statement is found under the id it was last added with |
| PreparedStatements.LastAddedIsFound | internal/pool/prepared.go:97-143 | in such a run an id finds the live query last added under it, exactly unless that query was since added under another id |
| PreparedStatements.FirstTakeover | internal/pool/prepared.go:115-143 | the first Add that takes an id over, and no step before it, makes a live statement unreachable |
| PreparedStatements.LiveStatementLost | internal/pool/prepared.go:121-129 | a run of three Adds, the last renaming another statement, after which a live statement is not found under the id it was last added with |
| PreparedStatements.LostByEviction | internal/pool/prepared.go:131-181 | a run whose third Add, under a free id, evicts a statement and with it the id of another that stays live |
| PreparedStatements.LostByCleanup | internal/pool/prepared.go:194-207 | a run whose cleanup of one statement takes the id of another that stays live |
| PreparedCache.Cache.constructor | internal/pool/prepared.go:57-76 | empty, with 1000 statements and 30 minutes for sizes and lifetimes that are not positive |
| PreparedCache.Cache.Get | internal/pool/prepared.go:79-94 | the statement of the query, touched and counted, or a counted miss |
| PreparedCache.Cache.GetById | internal/pool/prepared.go:97-112 | the statement the id names, touched, and it bears that id |
| PreparedCache.Cache.Add | internal/pool/prepared.go:115-143 | an Add as the runs above take it; the id then finds the statement |
| PreparedCache.Cache.Remove | internal/pool/prepared.go:146-157 | the statement of the id and the id are gone |
| PreparedCache.Cache.EvictOldest | internal/pool/prepared.go:160-181 | whatever order the map is walked in, a statement with the oldest last use goes, with its id |
| PreparedCache.Cache.Cleanup | internal/pool/prepared.go:194-207 | exactly the statements unused for longer than the lifetime go, with their ids |
| Glob.ExpandIsSpaced | internal/auth/cert.go:245-246 | filling the stars of a pattern is interleaving its split parts with the same strings |
| Glob.Greedy | internal/auth/cert.go:256-263 | taking the leftmost occurrence of a part loses no match |
| Glob.Index | internal/auth/cert.go:258-261 | the first occurrence, or -1 exactly when there is none |
| Glob.MatchPattern | internal/auth/cert.go:235-266 | true exactly when each star can stand for some string, possibly empty, so that the pattern becomes the text |
| StartupMessages.WriteStartupMessage | internal/protocol/common/message.go:361-397 | the bytes for the second order of the map, with a length that does not depend on either order |
| StartupMessages.ReadStartupMessage | internal/protocol/common/message.go:304-358 | the message and the rest of the stream, or the error, for every byte sequence |
| StartupMessages.ParseExactly | internal/protocol/common/message.go:304-358 | for every stream: exactly which lengths give a message, which give which error, and the version, parameters and rest of the message |
| StartupMessages.ParseIsFields | internal/protocol/common/message.go:326-355 | for every byte sequence the position-advancing loop takes the NUL-terminated fields in pairs and drops empty keys |
| StartupMessages.SizeAnyWalk | internal/protocol/common/message.go:362-367 | the length is the same for every order |
| StartupMessages.ParsedWellFormed | internal/protocol/common/message.go:326-355 | whatever the bytes, parsed keys are non-empty and nothing parsed holds a NUL |
| StartupMessages.ParsedFits | internal/protocol/common/message.go:326-355 | whatever the bytes, the parsed pairs take no more room than the bytes they came from |
| StartupMessages.StartupRoundTrip | internal/protocol/common/message.go:304-397 | for every order and every following stream, a message of non-empty NUL-free keys and NUL-free values of at most 10000 bytes comes back |
| StartupMessages.RoundTripExactly | internal/protocol/common/message.go:304-397 | and no other message does |

## Left out

- Raft State Machine Safety without conditions: false of the code (see the counterexamples); proved for guarded runs.
- Raft snapshots, InstallSnapshot, restart from the file and a peer list that changes.
- Application of committed entries: the apply channel may resend or drop entries, so nothing is claimed about it.
- Timers, TLS, HMAC signatures and dialling; a message that is not delivered is a drop.
- Failures of the log file's own I/O, and JSON encodings of 4 GiB or more.
- Overflow of 64-bit terms, indices, counters and memory sizes, except the wrap-around of nextIndex 0.
- RaftNode.Node.constructor: only for a node without a log file to load; the raw records a restart would load are the subject of RawRecordsAreTheLog.
- WaitQueues.WaitQueue.Join: the blocking wait itself is not modelled here; time-outs and deliveries interleave in PoolSystem.
- That no connection is ever lost in the wait queue: a time-out can race with a delivery, and the model keeps that race.
- PoolSystem.ExclusiveOwnership: session mode without a target role; switching roles keeps a released connection when the new acquisition fails.
- The disconnect path of the socket listener, closeAll and prefetchConns.
- The resets of a connection before reuse, backend choice, circuit breakers and health checks; their outcomes are inputs.
- MemoryBudget.BudgetExact: each connection is closed once, as the step machine allows no second Close.
- Sharing of byte slices between the cache and its callers; entries are values here.
- Sessions.Session.QueryHook: a target role only decides which pool call gives the answer, except in session mode, where switching roles is left out.
- Sessions.Session.HandleMessage: byte counts, time stamps, the last query and the statement tracker are not part of the state.
- Hash collisions in the prepared-statement cache beyond what FoundIsLastAdded says in terms of hashes, and a Get that touches a statement just removed.
- The tokenizer, routing, configuration, cluster membership by gossip, the older consensus code in internal/cluster, the REST, gRPC and MCP servers and the dashboards: easy members or input and output.
