# A verified model of dist-db

The system is a replicated key-value store: Raft consensus, a key-value state machine on top of it, a shard
controller that assigns shards to groups, and a linearizability checker that judges recorded histories. The
model covers the four of them in Dafny and proves what each is there for.

- **Consensus.** `RaftServer` specifies every critical section of `raft.go` as a function on a server's state;
  `RaftNode` is the mutable server, whose methods and loops are proved to have exactly those effects and to leave
  the disk up to date. `RaftCluster` runs any number of servers over a network that keeps every message ever sent,
  so that it may arrive late, out of order, repeatedly or never, with crashes between any two steps.
  `RaftHistory` and `RaftProgress` hold a record of leaders' logs, acknowledgements, votes and commits that no
  server sees; `RaftInvariant` ties servers and messages to it; the modules after it show that every step keeps
  the tie; `RaftSafety`, `RaftLogSafety`, `RaftSuffix`, `RaftVoting`, `RaftValidity` and `RaftRealTime` draw
  the theorems, `RaftLaws` says what single critical sections achieve, and `RaftRuns` holds runs in which the textbook
  form of a property fails. Three places where the code departs from the Raft paper are followed
  as they are: a candidate may clear its vote when the leader of its term shows up, a follower bounds its commit
  index by its own tail, and a conditional installation keeps a longer local suffix without comparing terms.
- **Checker.** `Histories` defines linearizability; `LinkedEntries`, `Bitset` and `SearchCache` are the data
  structures; `Search` is the theory of the backtracking search and `Checker` the search itself. `Entries` and
  `Locality` carry the verdict from sorted entries to operations, and from single keys to the whole map;
  `KvHistories` says what the key-value model accepts, by places in a sequence (`Contents`); `CheckOperations` puts
  everything together.
- **Shard controller.** `Rebalance` is the balancing loop, `RebalanceEnds` says when it ends. `ShardController`
  has the configurations over every sequence of commands, `ShardLaws` what each command changes, `ShardCtrlerObject`
  the object, `JoinMoves` what a join moves.
- **Key-value server.** `KvState` specifies it and relates deliveries, redeliveries and snapshots to the log,
  `KvServerObject` is the object. `KvContents` says what it holds and answers, by places in the
  log. `ReplicatedKv` runs a store beside every Raft server, changed only by the server's own code, and
  `KvLinearizable` ties consensus, server and checker together.

`dafny verify dfyconfig.toml` checks the project.

## Model

| member | source | states |
|---|---|---|
| KvLinearizable.EveryRunLinearizable | src/db_files/raft-db/server.go:61-143 | In every run, with loss, reordering, repetition, crashes and snapshots, what any server has executed, with any call not after an entry's submission, any return not before its first delivery, and the server's answers, is linearizable: some order respects the times and every get in it returns the last put before it and the appends since |
| KvLinearizable.TimesExist | src/db_files/raft-db/server.go:61-143 | Such times exist for everything any server has executed in any run |
| KvLinearizable.AnswersAreServed | src/db_files/raft-db/server.go:67-83 | The answer of a server to a get that no snapshot has overtaken is the one of that history |
| RaftSafety.StateMachineSafety | src/db_files/raft/raft.go:573-604 | In every run, with lost, reordered and repeated messages, crashes and installed snapshots, no two deliveries or installed snapshots at any servers ever put different commands at one index |
| RaftSafety.ServicesAgree | src/db_files/raft/raft.go:573-604 | At any two moments of every run, of what two services have executed the shorter is a prefix of the longer |
| RaftRealTime.RealTimeOrder | src/db_files/raft/raft.go:573-604 | In every run, an entry that had been delivered anywhere when a command was submitted to a leader lies before that command's entry in the log, if that is ever delivered |
| RaftRealTime.WhenSubmitted | src/db_files/raft/raft.go:773-790 | Every recorded submission has its step: a command given to a server that led the entry's term and had just the entries before it |
| RaftValidity.Validity | src/db_files/raft/raft.go:779-789 | In every run, whatever a service is given by a delivery or within a snapshot was submitted to a leader, which told the client that index |
| RaftValidity.ExecutedWasDelivered | src/db_files/raft/raft.go:573-604 | In every run, every command a service has executed, also through snapshots and restarts, was submitted at its index and has been delivered as a log entry somewhere |
| RaftValidity.CommittedIsSubmitted | src/db_files/raft/raft.go:779-789 | In every run, an entry committed at the index a leader told a client, and of that leader's term, carries the client's command |
| RaftValidity.SubmissionSeen | src/db_files/raft/raft.go:779-789 | A leader's next entry is the command it is given, and is recorded with the index told |
| RaftValidity.CommitmentSeen | src/db_files/raft/raft.go:733-745 | Every entry a reply makes a server commit is recorded |
| RaftValidity.ExecutionSeen | src/db_files/raft/raft.go:598-602 | Nothing but a recorded delivery or installation changes what a running service has executed |
| RaftSafety.LeaderCompleteness | src/db_files/raft/raft.go:733-745 | Every entry that the majority-and-own-term rule commits, those committed along with a later one included, is in the log, or below the snapshot, of whoever leads a later term at any moment of the run |
| RaftSafety.ElectionSafety | src/db_files/raft/raft.go:504-530 | Over a whole run no term has two leaders, although a candidate may clear its vote and vote again in a term that has one |
| RaftSafety.OneLeader | src/db_files/raft/raft.go:504-530 | Two servers that believe to lead the same term are the same server |
| RaftSafety.TwoVotesNeedLeader | src/db_files/raft/raft.go:357-385 | What is left of one vote per server and term: of two votes of one server for different candidates in a term, one is for itself, and another server has been elected in that term |
| RaftVoting.VoteFreed | src/db_files/raft/raft.go:258-269 | In every run a server goes back on a vote within its term exactly when it is a candidate and handles an append or snapshot request of that term, and then the vote is the one for itself |
| RaftRuns.VoteCanBeRepeated | src/db_files/raft/raft.go:258-261 | One vote per server and term as such fails: there is a run of three servers in which a candidate votes for another server after hearing from the leader of its term |
| RaftLogSafety.LogMatching | src/db_files/raft/raft.go:271-316 | Above the feet of both logs, an equal term at an index means equal entries up to that index, in every run |
| RaftLogSafety.LogMatchingAtFeet | src/db_files/raft/raft.go:229-243 | The terms agree down to the feet as well, for servers that have never installed a snapshot |
| RaftSafety.NeverPanics | src/db_files/raft/raft.go:584-593 | No run reaches one of the explicit panics, a missing entry that is dereferenced, or a slice out of range |
| RaftSafety.IndicesInOrder | src/db_files/raft/raft.go:158-185 | Foot <= lastApplied <= commitIndex <= tail at every server; a leader's next indices stay between 1 and tail + 1, and it counts itself as far as its log goes |
| RaftLogSafety.CommitStaysVerified | src/db_files/raft/raft.go:317-320 | In every run a follower that accepts a request has the leader's commit index, unless it was further already, and one that rejects keeps its own; it never moves past the last entry of the request, although the code bounds it by the follower's own tail |
| RaftLogSafety.BackUpConverges | src/db_files/raft/raft.go:750-769 | A rejection of the request for the current next index strictly lowers it and keeps it at least 1 |
| RaftLogSafety.RejectionsEnd | src/db_files/raft/raft.go:750-769 | In every run the number of successive rejections of current requests to a peer is less than the next index the first of them met |
| RaftSuffix.StrangerNeverLeads | src/db_files/raft/raft.go:214-221 | In every run, after an installation that kept a suffix although the entry at the snapshot's index was of another term, and as long as the suffix is there, the server does not lead and has committed nothing of it |
| RaftSuffix.StrangerReplaced | src/db_files/raft/raft.go:291-316 | And any request of its own or a later term that it accepts and that goes past the foot leaves it with exactly what was sent |
| RaftSuffix.StrangeExactly | src/db_files/raft/raft.go:203-227 | The suffix an installation leaves behind does not belong to the snapshot if and only if the entry at the snapshot's index was of another term, or the snapshot repeats the one at the foot and the suffix did not belong to that |
| RaftSuffix.StrangerIsIdle | src/db_files/raft/raft.go:214-221 | Whatever the run, a server whose log does not hold what it knows to be committed does not lead and has committed nothing above its foot |
| RaftSuffix.KeptSuffixIsDead | src/db_files/raft/raft.go:291-316 | And such a suffix is replaced by the first request that reaches past the foot |
| RaftSuffix.FallingIsIdle | src/db_files/raft/raft.go:214-221 | In every run a server along whose log the terms fall does not lead and has committed nothing above its foot |
| RaftSuffix.KeptSuffixOfRun | src/db_files/raft/raft.go:291-316 | And an accepted request past the foot leaves it with exactly what was sent |
| RaftRuns.InstallCanLowerTerms | src/db_files/raft/raft.go:203-227 | Terms need not rise along a log after an installation, and logs need not match at a foot: there is a run of five servers that ends so |
| RaftRuns.KeptSuffixOccurs | src/db_files/raft/raft.go:203-227 | That run keeps a suffix across another term, and has on its way a request past the foot that the server accepts |
| RaftSuffix.InstallKeepsSorted | src/db_files/raft/raft.go:203-227 | Terms rise along the log after an installation exactly when nothing is left behind the snapshot or what is left begins with no lower term |
| RaftSafety.RunKeeps | src/db_files/raft/raft.go:245-323 | Every run of every cluster has a history that satisfies the invariant, and runs on |
| RaftTypes.QuorumsMeet | src/db_files/raft/raft.go:79-85 | Any two majorities share a server |
| RaftLaws.MajorityIsLeast | src/db_files/raft/raft.go:79-85 | And it is the least number with that property |
| RaftLaws.VoteLaw | src/db_files/raft/raft.go:357-398 | A vote is given exactly to a candidate of the current or a later term whose log ends no earlier, if in that term nobody else has the vote; what the server keeps and changes in each case |
| RaftLaws.MajorityMakesLeader | src/db_files/raft/raft.go:504-530 | A candidate leads as soon as, and not before, it has counted a majority |
| RaftLaws.LeadersStartAtTail | src/db_files/raft/raft.go:520-525 | In every run a server that begins to lead is recorded as elected, has tail + 1 as next index for everybody, counts itself as far as its log goes and nobody else |
| RaftLaws.StartLaw | src/db_files/raft/raft.go:773-790 | The index returned is that of the new entry, with the leader's term and the command, and was not in the log; other entries stay, and a server that does not lead refuses |
| RaftLaws.SendsAll | src/db_files/raft/raft.go:680-699 | A request carries everything from the next index to the tail, the entry before it, and the commit index |
| RaftLaws.SendsSnapshot | src/db_files/raft/raft.go:646-654 | A peer behind the foot is sent the snapshot with the foot's index and term |
| RaftLaws.SnapshotThenEntries | src/db_files/raft/raft.go:676-677 | After a peer has taken a snapshot the next request to it begins right behind the snapshot |
| RaftLaws.AckedThenRest | src/db_files/raft/raft.go:724-732 | After a peer has stored entries it counts for all of them, and the next request begins right behind them |
| RaftLaws.CommitRule | src/db_files/raft/raft.go:733-745 | The new commit index is the highest one, up to the acknowledged index, that more than half of the servers hold and that is of the leader's own term, or the old one |
| RaftLaws.CountIsSize | src/db_files/raft/raft.go:733-740 | The count for an index is the number of servers known to hold it |
| RaftLaws.FirstWithTermLaw | src/db_files/raft/raft.go:275-280 | The scan finds the first entry of the term |
| RaftLaws.LastWithTermLaw | src/db_files/raft/raft.go:756-763 | The scan finds the last entry of the term above the foot, or none if there is none |
| RaftLaws.ConflictLaw | src/db_files/raft/raft.go:272-286 | A rejection names the term at the previous index and where that term begins in the follower's log, or the follower's tail |
| RaftLaws.BackUpLaw | src/db_files/raft/raft.go:750-769 | A leader resumes behind its own last entry of the conflicting term if it has one above its foot, else at the index it was told; never further than before and never at 0 |
| RaftLaws.StaleLeaderLearns | src/db_files/raft/raft.go:712-722 | A request that meets a later term changes nothing there, and its reply makes the leader give up and adopt that term |
| RaftLaws.StaleSenderLearns | src/db_files/raft/raft.go:668-674 | So does a snapshot |
| RaftLaws.StaleCandidateLearns | src/db_files/raft/raft.go:507-515 | So does a vote request |
| RaftHistory.LogsMatch | src/db_files/raft/raft.go:271-290 | Two logs drawn from leaders' logs that have an entry of one term at an index are equal up to it |
| RaftHistory.CommittedInLeader | src/db_files/raft/raft.go:733-745 | A committed prefix is a prefix of the log of every leader of that term or a later one |
| RaftHistory.CommittedChain | src/db_files/raft/raft.go:733-745 | Any two committed prefixes are comparable |
| RaftProgress.VotesMakeSafe | src/db_files/raft/raft.go:377-398 | A claim granted by a majority under the up-to-date comparison holds every entry that was or still may be committed in an earlier term |
| RaftProgress.ElectOk | src/db_files/raft/raft.go:516-529 | Recording a new leader with its quorum keeps leader completeness and every other history invariant |
| RaftProgress.ExtendOk | src/db_files/raft/raft.go:779-786 | A leader appending to its own log keeps them |
| RaftProgress.StoreOk | src/db_files/raft/raft.go:291-316 | A follower storing a leader's prefix, or keeping its log if that prefix is already there, keeps them |
| RaftProgress.CommitOk | src/db_files/raft/raft.go:733-745 | Committing what a majority has acknowledged in the leader's own term keeps them |
| RaftLogs.MergeStores | src/db_files/raft/raft.go:291-313 | Merging the sent entries into a compacted log yields the log that stands for the leader's prefix, or for the old full log when that prefix was already stored |
| RaftLogs.MergeNeedsNothing | src/db_files/raft/raft.go:293-313 | A request that ends at or below the foot of the log changes nothing |
| RaftVotes.VotesElected | src/db_files/raft/raft.go:516-529 | The one-vote rule that survives: who elected the leader of a term has voted for nobody else in it |
| RaftVotes.VotesReset | src/db_files/raft/raft.go:258-261 | A candidate that hears from the leader of its term may give its vote back without breaking that rule |
| RaftElections.TimeoutKeeps | src/db_files/raft/raft.go:472-491 | An election timeout keeps the cluster invariant |
| RaftElections.VoteRequestKeeps | src/db_files/raft/raft.go:357-385 | So does answering a vote request, granted or not, in an old, the current or a later term |
| RaftElections.VoteResponseKeeps | src/db_files/raft/raft.go:504-530 | So does counting a vote, with or without becoming leader, or stepping down |
| RaftElections.CrashKeeps | src/db_files/raft/raft.go:158-185 | So does a crash and restart from what is persisted |
| RaftReplication.SubmitKeeps | src/db_files/raft/raft.go:773-790 | So does a client command |
| RaftReplication.SendKeeps | src/db_files/raft/raft.go:640-700 | So does sending the suffix from the next index or a snapshot, and what is sent describes the leader's log |
| RaftReplication.StoreKeeps | src/db_files/raft/raft.go:291-316 | So does merging the entries of an accepted request |
| RaftAcks.AppendRequestKeeps | src/db_files/raft/raft.go:245-323 | So does handling an append request: stale, rejected with a conflict hint, or accepted |
| RaftAcks.AppendResponseKeeps | src/db_files/raft/raft.go:712-770 | So does handling its reply: stale, stepping down, acknowledged and perhaps committing, or backing up; it never panics |
| RaftSnapshots.SnapshotRequestKeeps | src/db_files/raft/raft.go:417-452 | So does receiving a snapshot |
| RaftSnapshots.SnapshotResponseKeeps | src/db_files/raft/raft.go:662-677 | So does its reply |
| RaftSnapshots.TakeSnapshotKeeps | src/db_files/raft/raft.go:229-243 | So does compacting the log |
| RaftSnapshots.InstallNowKeeps | src/db_files/raft/raft.go:203-227 | So does a conditional installation, although it compares no terms; it never panics |
| RaftSnapshots.PullKeeps | src/db_files/raft/raft.go:584-596 | So does taking the next committed entry, which is always there |
| RaftSnapshots.DeliverKeeps | src/db_files/raft/raft.go:598-602 | So does handing it to the service, also when a snapshot has overtaken it |
| RaftNode.Node.constructor | src/db_files/raft/raft.go:801-839 | A server started from a disk is the restart of the server that wrote it; without one it is fresh |
| RaftNode.Node.Persist | src/db_files/raft/raft.go:140-152 | The disk afterwards holds term, vote and log, and the old snapshot |
| RaftNode.Node.ResetTerm | src/db_files/raft/raft.go:111-115 | Term set, vote cleared, persisted |
| RaftNode.Node.ObserveLeader | src/db_files/raft/raft.go:258-269 | The new state is the specified one for every role and term; persisted if changed |
| RaftNode.Node.StartElection | src/db_files/raft/raft.go:477-490 | New candidacy and its vote request as specified; persisted |
| RaftNode.Node.RequestVote | src/db_files/raft/raft.go:357-385 | State and reply as specified; persisted whatever the branch changed |
| RaftNode.Node.VoteReplied | src/db_files/raft/raft.go:504-530 | State and votes counted as specified |
| RaftNode.Node.BecomeLeader | src/db_files/raft/raft.go:521-527 | The loop leaves every next index at tail + 1 and every match index 0 but its own |
| RaftNode.Node.AppendEntries | src/db_files/raft/raft.go:245-323 | State and reply as specified in every branch; persisted |
| RaftNode.Node.FindFirst | src/db_files/raft/raft.go:275-280 | The scan finds the index of the first entry of the term |
| RaftNode.Node.MergeEntries | src/db_files/raft/raft.go:291-316 | The two loops leave exactly the specified merge, and persist it |
| RaftNode.Node.CutAtConflict | src/db_files/raft/raft.go:294-308 | What is kept plus what is left to append is the specified merge; the check that would panic cannot fail |
| RaftNode.Node.AppendFrom | src/db_files/raft/raft.go:309-312 | Appends the remaining entries in order |
| RaftNode.Node.Start | src/db_files/raft/raft.go:773-790 | State and index as specified; persisted |
| RaftNode.Node.Replicate | src/db_files/raft/raft.go:640-699 | The request built by the loop is the specified one, or the panic it stands for |
| RaftNode.Node.AppendReplied | src/db_files/raft/raft.go:712-770 | Survives exactly when the specification does, and then has its state |
| RaftNode.Node.HighestCommit | src/db_files/raft/raft.go:733-745 | The nested loops find the highest index of the commit rule, or the missing entry |
| RaftNode.Node.CountStored | src/db_files/raft/raft.go:735-740 | Counts the servers whose match index reaches i |
| RaftNode.Node.FindLast | src/db_files/raft/raft.go:759-765 | The backward scan finds the last entry of the term above the foot |
| RaftNode.Node.SnapshotReplied | src/db_files/raft/raft.go:662-677 | State as specified; persisted |
| RaftNode.Node.InstallSnapshot | src/db_files/raft/raft.go:417-452 | Answers with the old term, state and hand-over as specified; persisted |
| RaftNode.Node.CondInstallSnapshot | src/db_files/raft/raft.go:203-227 | Survives exactly when the specification does, and then has its state and verdict; persisted with the snapshot |
| RaftNode.Node.Snapshot | src/db_files/raft/raft.go:229-243 | The loop compacts exactly when it finds the index, and persists log and snapshot together |
| RaftNode.Node.ApplyNext | src/db_files/raft/raft.go:584-596 | Survives exactly when the specification does; the entry taken is the specified one |
| Checker.CheckSingle | src/test_files/porcupine/checker.go:179-253 | Terminates without running off the list; when not killed it returns true exactly when the history is linearizable, and a true result is right even when killed; on success every operation is given the complete linearization, and when an unkilled search with computePartial fails every operation is given a longest partial linearization that includes it |
| Checker.TryCall | src/test_files/porcupine/checker.go:194-213 | One round at a call keeps the search invariant; a chosen order was never entered before |
| Checker.Backtrack | src/test_files/porcupine/checker.go:235-241 | One round at a return undoes the last choice: list, bit set, state and stack are those from before it, past its call |
| Checker.Record | src/test_files/porcupine/checker.go:219-234 | An operation of the current order is given it exactly when nothing as long is known for it |
| Checker.RecordAll | src/test_files/porcupine/checker.go:249-251 | Every operation is given the complete order |
| Checker.CopyWith | src/test_files/porcupine/checker.go:198 | A copy with the bit set; the original is untouched |
| Checker.Prepare | src/test_files/porcupine/checker.go:180-189 | The list with its head holds the history, and n is the number of operations |
| Search.AllCovered | src/test_files/porcupine/checker.go:200-213 | Pruning loses nothing: once the search is exhausted, every partial linearization has the operations and, up to Equal, the state of an order it entered |
| Search.NoLinearization | src/test_files/porcupine/checker.go:215-217 | So an exhausted search proves that there is no linearization |
| Search.LongestFound | src/test_files/porcupine/checker.go:218-234 | What an exhausted search has recorded is at least as long as any partial linearization through the operation |
| Search.Pushed | src/test_files/porcupine/checker.go:200-207 | Choosing a candidate keeps the invariant, starting again at the front |
| Search.Popped | src/test_files/porcupine/checker.go:235-241 | Undoing it at an open return keeps the invariant: all its continuations have been followed up |
| Search.Advance | src/test_files/porcupine/checker.go:208-213 | Walking past a call that was refused or is cached keeps the invariant |
| Search.PartialBounded | src/test_files/porcupine/checker.go:190-243 | The orders the search can enter form a finite set, which bounds the number of lifts |
| Histories.CompletePartial | src/test_files/porcupine/checker.go:244-252 | The linearizations are exactly the partial ones that hold every operation |
| SearchCache.CacheContains | src/test_files/porcupine/checker.go:145-152 | True exactly when the bucket of the hash has an entry with the same bit set and an equal state |
| SearchCache.HitCovers | src/test_files/porcupine/checker.go:145-152 | A hit stands for an order with the same operations and an equal state |
| SearchCache.KnownIsHit | src/test_files/porcupine/checker.go:145-152 | An order that was entered always hits, so the cache grows on every lift |
| SearchCache.Stored | src/test_files/porcupine/checker.go:201-202 | Storing an entry keeps the cache in step with the orders entered |
| LinkedEntries.InsertBefore | src/test_files/porcupine/checker.go:70-81 | Links a fresh node in before the mark, and touches nothing else |
| LinkedEntries.Length | src/test_files/porcupine/checker.go:83-90 | The number of nodes of the list |
| LinkedEntries.MakeLinkedEntries | src/test_files/porcupine/checker.go:121-138 | A doubly linked list of the history in order, each call with the node of its return |
| LinkedEntries.Lift | src/test_files/porcupine/checker.go:159-167 | The list is linked around the removed pair, which remembers its places, also when the two are adjacent or the return is last |
| LinkedEntries.Unlift | src/test_files/porcupine/checker.go:169-177 | Undoing the last lift restores the list exactly |
| Bitset.EmptyHasNothing | src/test_files/porcupine/bitset.go:10-17 | A new bit set has no bit, within its capacity |
| Bitset.GetAfterSet | src/test_files/porcupine/bitset.go:25-44 | After set, a bit is present if it was or is the one set, across words |
| Bitset.ClearAfterSet | src/test_files/porcupine/bitset.go:29-39 | Clearing a bit that set had added restores every word |
| Bitset.SetBit | src/test_files/porcupine/bitset.go:29-33 | Sets the bit in place |
| Bitset.ClearBit | src/test_files/porcupine/bitset.go:35-39 | Clears the bit in place |
| Bitset.ComputeHash | src/test_files/porcupine/bitset.go:46-60 | The loops compute the population count folded with all words by exclusive or, modulo 64 bits |
| Bitset.Equals | src/test_files/porcupine/bitset.go:62-72 | True exactly for equal lengths and words |
| Entries.MakeEntries | src/test_files/porcupine/checker.go:48-60 | A permutation of the calls and returns, sorted by time with calls before returns |
| Entries.EntriesWellFormed | src/test_files/porcupine/checker.go:39-60 | However ties are sorted, each operation is called once and later returns once |
| Entries.TimeOrder | src/test_files/porcupine/checker.go:39-46 | A return lies before a call exactly when its time is smaller |
| Entries.SameVerdict | src/test_files/porcupine/checker.go:39-60 | The sorted history is linearizable exactly when the operations are, for every admissible sort |
| Locality.RunByKey | src/test_files/models/kv.go:35-54 | A sequence is accepted by the whole map exactly when each key's part is accepted by its own copy |
| Locality.MergeInTime | src/test_files/models/kv.go:18-34 | Two explanations over different keys can be merged without breaking real-time order |
| Locality.LocalityLaw | src/test_files/porcupine/model.go:28-33 | A keyed object is linearizable exactly when each key is |
| CheckOperations.Partition | src/test_files/models/kv.go:18-34 | One part for each key that occurs, in the order of the keys, with exactly its operations in their order |
| CheckOperations.SortedKeys | src/test_files/models/kv.go:24-28 | The sorted keys, whatever order the map is walked in |
| CheckOperations.PartitionLaw | src/test_files/porcupine/model.go:28-33 | A history is linearizable against the whole map exactly when every part is against the single-key model |
| CheckOperations.CheckParallel | src/test_files/porcupine/checker.go:274-353 | In whatever order results come in: Ok only if every part is linearizable, Illegal only if some part is not, Unknown only on a timeout before the last result; the orders returned are partial linearizations of their parts and, unless a timeout cut the searches short, hold for every operation one as long as any that includes it |
| CheckOperations.Unique | src/test_files/porcupine/checker.go:323-338 | The recorded orders, each once |
| CheckOperations.CheckStore | src/test_files/porcupine/checker.go:365-373 | The verdict on a whole key-value history, from operations to result: Ok only if, and Illegal only if not, some order respects the times and every get in it returns the last put before it and the appends since; one of the two without a timeout |
| KvHistories.StoreRuns | src/test_files/models/kv.go:40-56 | The model accepts a sequence of operations if and only if every get returns the value of the last put on its key before it followed by the values appended since |
| KvHistories.StoreMeaning | src/test_files/models/kv.go:40-56 | A history is linearizable for the model if and only if some order of it respects the times and has every get right in that sense |
| KvHistories.StaleReadRefused | src/test_files/models/kv.go:44-46 | A get that returns something else than the put before it is not |
| Rebalance.Rebalance | src/db_files/shard-controller/server.go:70-93 | On every input on which the loop ends at all, terminates and leaves the assignment that is a function of the old one and the set of gids, whatever order the map is walked in |
| Rebalance.RebalanceLaw | src/db_files/shard-controller/server.go:70-93 | Loads of groups differ by at most one; shards of groups and, if there are groups, pooled shards end on groups; all others stay |
| Rebalance.EvenStays | src/db_files/shard-controller/server.go:82-93 | An even assignment with an empty pool is left alone |
| Rebalance.SettleFacts | src/db_files/shard-controller/server.go:82-92 | Over all rounds the table partitions the shards and agrees with the assignment; at the end the groups are balanced and the pool is empty if there is a group |
| Rebalance.RoundSound | src/db_files/shard-controller/server.go:83-90 | A round keeps table and assignment in step |
| Rebalance.RoundShrinks | src/db_files/shard-controller/server.go:82-90 | A round empties the pool, or else lowers the sum of squared loads; if the pool is a group too, emptying it leaves the sum as it is |
| RebalanceEnds.EndsExactly | src/db_files/shard-controller/server.go:82-93 | The loop ends if and only if 0 is no group or there are more groups than shards that belong to them, the unassigned ones included |
| RebalanceEnds.GroupZeroHangs | src/db_files/shard-controller/server.go:82-93 | With a group called 0 it need not: two inputs on which it never ends |
| Rebalance.OrderIsUnique | src/db_files/shard-controller/server.go:72-77 | Sorting makes the list of gids independent of map order |
| Rebalance.ScanFacts | src/db_files/shard-controller/server.go:95-108 | The scan finds the maximum and minimum load and groups that have them |
| Rebalance.ScanFirst | src/db_files/shard-controller/server.go:95-108 | Of several groups with the same load it takes the first |
| Rebalance.FindMaxMin | src/db_files/shard-controller/server.go:95-118 | The loop computes the specified extremes, with the pool counting twice |
| Rebalance.GroupList | src/db_files/shard-controller/server.go:71-77 | The sorted gids and a table with an empty list for each and for the pool |
| Rebalance.GiveAll | src/db_files/shard-controller/server.go:78-80 | Each shard appended under its gid, also under one that is no group |
| Rebalance.Assign | src/db_files/shard-controller/server.go:88-90 | Exactly the moved shards get the new owner |
| Rebalance.TallyAgrees | src/db_files/shard-controller/server.go:78-80 | The first table lists each shard once, under its owner |
| ShardController.ApplyNumbered | src/db_files/shard-controller/server.go:57-68 | Configuration n has number n, earlier ones never change, and a command adds at most one |
| ShardController.ApplyKeeps | src/db_files/shard-controller/server.go:153-215 | A command leaves all shards owned by groups of their configuration, or by nobody if it has none, if and only if it is not a move that takes effect and goes elsewhere |
| ShardController.ChangedSized | src/db_files/shard-controller/server.go:168-199 | After a join or leave the groups are even |
| ShardController.RunAssigned | src/db_files/shard-controller/server.go:153-215 | After a sequence of commands every configuration assigns its shards in that way if and only if no such move was among them |
| ShardController.RunExtends | src/db_files/shard-controller/server.go:173-198 | Configurations once made are there unchanged in every longer run |
| ShardController.QueryLaw | src/db_files/shard-controller/server.go:130-136 | A query gets the configuration with the number it asks for, or the latest if there is none such, and never another answer later |
| ShardController.RetryIgnored | src/db_files/shard-controller/server.go:162-167 | A command delivered again before the client's next one changes nothing |
| ShardLaws.EffectLaw | src/db_files/shard-controller/server.go:153-215 | A delivery adds exactly one configuration if it comes in order, is no query and does not repeat the kind and request number of its client's last delivery in order; any other adds none; which deliveries move lastApplied |
| ShardLaws.RememberedIsLast | src/db_files/shard-controller/server.go:161-214 | What is remembered of a client is its last delivery in order, up to retries; a query counts for client 0 |
| ShardLaws.OneEach | src/db_files/shard-controller/server.go:153-215 | There are as many configurations as deliveries that took effect, and the first one |
| ShardLaws.FirstTakesEffect | src/db_files/shard-controller/server.go:161-214 | The first delivery of a request takes effect, if it comes in order |
| ShardLaws.MoveLaw | src/db_files/shard-controller/server.go:208-213 | Over every run, a move that takes effect changes the owner of exactly the named shard, and no group |
| ShardLaws.JoinLaw | src/db_files/shard-controller/server.go:168-175 | A join adds or replaces exactly the given groups with their servers, keeps the others, and spreads the shards evenly over all |
| ShardLaws.LeaveLaw | src/db_files/shard-controller/server.go:185-198 | A leave removes exactly the named groups and keeps the servers of the others; no shard is left on them, and the shards are spread evenly over the rest |
| ShardLaws.FirstConfig | src/db_files/shard-controller/server.go:57-68 | Configuration 0 has no groups and all shards unassigned |
| ShardCtrlerObject.ShardCtrler.constructor | src/db_files/shard-controller/server.go:286-301 | Starts with the empty configuration 0 |
| ShardCtrlerObject.ShardCtrler.CopyShards | src/db_files/shard-controller/server.go:57-68 | A fresh copy; the latest configuration is not shared |
| ShardCtrlerObject.ShardCtrler.Reconfigure | src/db_files/shard-controller/server.go:168-212 | Appends the configuration the specification gives for a join, leave or move |
| ShardCtrlerObject.ShardCtrler.Apply | src/db_files/shard-controller/server.go:153-215 | The new state is a function of the old state and the delivery: replicas that apply the same log are equal |
| ShardCtrlerObject.ShardCtrler.Answer | src/db_files/shard-controller/server.go:130-136 | The configuration of the resolved number, always within range |
| ShardCtrlerObject.Vacate | src/db_files/shard-controller/server.go:186-193 | Exactly the shards of leaving groups go to the pool, and exactly those groups leave |
| JoinMoves.JoinMovesToNew | src/db_files/shard-controller/server.go:168-172 | Joining one new group to an even, fully assigned configuration moves shards to the new group only |
| JoinMoves.RoundToNew | src/db_files/shard-controller/server.go:82-90 | While the new group is strictly the lightest, a round moves half the difference from a heaviest group to it |
| JoinMoves.TenShards | src/db_files/shard-controller/server.go:82-90 | The only even ways ten shards can lie over the old groups when the heaviest has more than three |
| KvState.ExactlyOnce | src/db_files/raft-db/server.go:114-128 | Each request is executed exactly once if and only if no request comes back in the log after another one of its client |
| KvState.ReplayIsIdeal | src/db_files/raft-db/server.go:114-128 | Under that condition the map is the fold of the first copies |
| KvState.RepeatedAppend | src/db_files/raft-db/server.go:116-128 | Without it an append is made twice: a concrete log |
| KvContents.ContentLaw | src/db_files/raft-db/server.go:114-128 | Under every key the server holds the value of the last executed put on it followed by those of the executed appends after it, in log order |
| KvContents.FirstContent | src/db_files/raft-db/server.go:114-128 | Where no request comes back after another one of its client, the same for the first copy of each request |
| KvContents.LastAppliedLaw | src/db_files/raft-db/server.go:110-128 | lastApplied is the place of the last entry that is a get or was executed; duplicates do not move it |
| KvContents.RetryIgnored | src/db_files/raft-db/server.go:116-121 | A write that repeats the request of its client's last write changes nothing |
| KvContents.ServedAccepted | src/db_files/raft-db/server.go:103-128 | What a server answers along a log is accepted by the checker's model, which ends with the server's values |
| KvContents.ServedLinearizable | src/db_files/raft-db/server.go:103-128 | It is linearizable if the log respects the times of its entries |
| KvState.DedupIsLast | src/db_files/raft-db/server.go:116-128 | What is remembered of a client is the request of its last write in the log |
| KvState.RedeliveryIgnored | src/db_files/raft-db/server.go:103-121 | Delivering an entry again changes nothing, although duplicates do not move lastApplied |
| KvState.HandleFollows | src/db_files/raft-db/server.go:61-101 | Every expected delivery, redelivery or snapshot keeps the store equal to the replay of the log up to its position |
| KvState.RunFollows | src/db_files/raft-db/server.go:61-101 | So does every run of them |
| KvState.SnapshotLaw | src/db_files/raft-db/server.go:131-142 | Restarting from any snapshot taken, also one taken at a redelivered duplicate, and replaying the rest gives what replaying the whole log gives |
| KvServerObject.KVServer.constructor | src/db_files/raft-db/server.go:46-59 | Starts from the persisted maps or empty ones, with lastApplied 0 |
| KvServerObject.KVServer.Apply | src/db_files/raft-db/server.go:103-143 | State as specified; a snapshot of the new state exactly when the log is too large and the entry was not rejected |
| KvServerObject.KVServer.DoApply | src/db_files/raft-db/server.go:61-101 | Handles the messages in order until killed; a leader answers every entry, a get with the value in the state after it |
| ReplicatedKv.StoreIsReplay | src/db_files/raft-db/server.go:103-143 | On top of consensus, in every run, the maps a server has come to by applying entries under its own lastApplied, loading the maps of received snapshots and restarting are those of executing its commands one by one; the maps in its persister are those of the commands its snapshot stands for |
| ReplicatedKv.ReplicasAgree | src/db_files/raft-db/server.go:61-101 | At any two moments of every run, the stores two servers keep are equal if they are equally far, and otherwise one becomes the other by executing the rest |
| ReplicatedKv.GetsAnswered | src/db_files/raft-db/server.go:67-83 | Every get that reaches a service is answered, with the value the service then has |
| ReplicatedKv.AnswersFollowLog | src/db_files/raft-db/server.go:67-83 | In every run a get is answered with the value that executing the commands up to a position not before the get gives, the same at every server that has got there |
| ReplicatedKv.RunKeeps | src/db_files/raft-db/server.go:212-230 | Every run of servers with their stores is a run of the Raft servers that keeps the invariant of both, and runs on |
| ReplicatedKv.EveryRunServed | src/db_files/raft-db/server.go:212-230 | Every run of the Raft servers is that of some run of servers with their stores |

## Left out

- The RPC and encoding libraries: the network is any loss, delay, reordering and repetition of messages, and encoding is the identity; a reply may reach a server that restarted meanwhile, which allows more than the code does.
- Time: election timeouts, heartbeats and condition variables are steps that may happen whenever they are enabled; no progress is claimed beyond the back-up of a next index.
- Crashes happen between critical sections, not inside one, so a half-written disk is not modelled.
- A vote is counted once for each peer in an election, as each peer is asked once; a repeated reply is ignored.
- The data of a snapshot is represented by the commands it stands for; ReplicatedKv adds the two maps. The maps a server installs are any that were sent with the snapshot it received.
- RaftLogSafety.LogMatching: stated above the feet of both logs, because at the foot of a log that has installed a snapshot it fails, as RaftRuns.InstallCanLowerTerms shows.
- RaftNode.Node.AppendEntries: assumes that the entries of a request follow its previous index one by one, which the handler does not check and which every request a leader sends satisfies.
- RaftNode.Node.Start: the second and third results, read after the lock has been released for a moment, are not modelled.
- Matching of client replies to commands: channels are keyed by log index only, so a reply need not belong to the command that waits for it, and linearizability is stated for replies that do; the answer of a server is recorded whether or not it still leads.
- Recovery of the controller after a restart, which does not reload its snapshot, and its snapshots.
- Move of a shard that does not exist, which stops the process, is excluded.
- Rebalance.Rebalance: excludes the inputs on which the loop never ends, as RebalanceEnds.EndsExactly delimits them; the configurations of ShardController have no group called 0.
- ShardController.RetryIgnored: for client 0 only as long as no query is applied in between, because a query overwrites what is remembered of client 0.
- An operation that returns before it is called, a history in which an operation is called or returns twice, and the event form of the checker: histories are well formed.
- A state equality that is not reflexive and transitive, or that equates states steps can tell apart: the checker may then be wrong.
- CheckOperations.CheckParallel: with no part at all and no timeout the code waits for ever, so that case is excluded; results are collected one by one in any order instead of from concurrent searches.
- The sharded key-value server, whose handlers are empty, and the visualization, test harnesses and clients.
