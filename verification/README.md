# Verified models of a Raft-based key/value system and its tools

This project models five parts of a Go code base and proves properties of the models:

- **Raft** (`src/raft`): leader election, log replication, commitment, compaction, crash and restart,
  snapshots sent and installed, and the loop that delivers committed entries. A cluster is a sequence
  of servers and a set of messages that may be lost, delayed, reordered or repeated. Each stretch
  under a server's lock is one step. The proofs follow the code where it departs from Figure 2 of "In Search of an
  Understandable Consensus Algorithm (Extended Version)": a vote is forgotten on stepping down in
  the same term, `place` cuts a tail only where the term drops, a follower commits up to its own
  last index, and a leader commits old-term entries once all replicas match. One departure is a
  fault: a follower keeps what lies behind an installed snapshot without comparing terms, which
  breaks log matching. The project shows a run where it does and the exact condition under which it
  does not, and proves safety for all runs in which every installation meets that condition.
- **Porcupine** (`src/porcupine`, `src/models`): the backtracking linearizability checker with its
  doubly linked list, bitset and cache, the partition of a key/value history by key, and the replay
  of what a verbose check keeps.
- **The key/value service** (`src/kvraft`): duplicate suppression, reads from the local store,
  snapshots, and linearizability of the whole service.
- **The shard controller** (`src/shardctrler`): rebalancing on joins and leaves.
- **MapReduce** (`src/mr`, `src/main/mrsequential.go`): the distributed program against the
  sequential one, the coordinator's task states, and whole jobs in which workers crash and tasks are
  handed out again.

## How the files fit together

| component | pure model and lemmas | code that updates in place |
|---|---|---|
| Raft | `RaftLog`, `RaftServer`, `RaftCluster`, `RaftQuorum`, `RaftHistory`, `RaftInvariant`, `RaftAppend`, `RaftSteps`, `RaftElections`, `RaftReplication`, `RaftLeading`, `RaftInstall`, `RaftSafety`, `RaftMatching`, `RaftMismatch`, `RaftRules`, `RaftBackoff`, `RaftApplier`, `RaftDelivery` | `RaftNode`, `RaftApplier.ApplyLoop`, `RaftBackoff.Exchange` |
| Porcupine | `Linearizability`, `PorcupineSearch`, `PorcupineScan`, `Locality`, `StringOrder`, `KvReads` | `PorcupineBitset`, `PorcupineList`, `PorcupineEntries`, `PorcupineCache`, `PorcupineRecord`, `PorcupineChecker`, `PorcupineOperations`, `PorcupineVisualization`, `KvModel` |
| Key/value service | `KvStore`, `KvService`, `KvLinearizable`, `KvProgress` | `KvServer` |
| Shard controller | `ShardBalance`, `ShardHistory` | `ShardConfig`, `ShardController` |
| MapReduce | `MapReduce`, `Coordinator`, `MapReduceJob`, `MapReduceProgress` | `MapReduce`, `Coordinator.Coordinator` |

A class method is proved equal to a function on values (`RaftNode.Raft` against `RaftServer`,
`KvServer` against `KvStore`, `ShardConfig.Config` against `ShardBalance`, `Coordinator.Coordinator`
against `Fetch` and its companions), and the state machines and their theorems are about those functions.

Where a comment and the code disagree the model follows the code: the comment at
`src/porcupine/checker.go:64` says that a nil `match` marks a call, but the code takes a nil `match`
for a return.

Auxiliary state that the programs do not keep is marked as such: the history of reigns, votes and
acknowledgements in the Raft proof, the entries that a snapshot stands for, and in the service the
position in the log that an operation or an answer belongs to.

## Model

| member | source | states |
|---|---|---|
| RaftSafety.StateMachineSafety | src/raft/log_replication.go:296-324 | in every run, an index that two servers count as committed, at any two moments, holds the same entry on both; runs include restarts, compaction, the commit index that the apply loop raises to a snapshot, and snapshots installed where the terms agree; includes old-term entries committed because all replicas match |
| RaftSafety.OneCommittedLog | src/raft/log_replication.go:296-324 | for every run there is one log of which everything any server ever counts as committed is a prefix; the service model builds on such a log |
| RaftSafety.LogMatching | src/raft/log.go:21-41 | in every state of every such run two logs with the same term at an index agree on everything up to it |
| RaftSafety.PlaceIsTruncation | src/raft/log_replication.go:84-132 | an accepted AppendEntries leaves exactly the log that truncating at the first conflict would leave, although `place` only cuts where the term drops |
| RaftSafety.ElectionSafety | src/raft/leader_election.go:143-154 | at most one server leads a term in the whole run, although a candidate forgets its vote on stepping down in the same term |
| RaftSafety.LeadersHoldCommitted | src/raft/leader_election.go:47-59 | what a server has committed is a prefix of the log of every leader of a later term |
| RaftSafety.HandlersNeverPanic | src/raft/log_replication.go:53-242 | no assertion or index of the AppendEntries and InstallSnapshot handlers, and of the handlers of their replies, fails on any message of any run |
| RaftSafety.ViewsInOrder | src/raft/log_replication.go:246-275 | matchIndex < nextIndex <= lastIndex+1 for every peer of a leader, so the assertion before sending holds and the entry before nextIndex is retained or behind the snapshot |
| RaftSafety.RoundNeverPanics | src/raft/log_replication.go:244-286 | a leader can always send its round: the assertion about matchIndex holds, and with the entry before nextIndex not behind the snapshot every read is inside the log |
| RaftSafety.StepKeeps | src/raft/log_replication.go:53-324 | every step of the cluster keeps the invariant, for a history that only grows |
| RaftSafety.RunHistory | src/raft/raft.go:245-271 | two moments of a run have invariants whose histories extend one another |
| RaftNode.MutableLog.constructor | src/raft/log.go:13-15 | a log of the given entries and offset |
| RaftNode.MutableLog.Append | src/raft/log.go:17-19 | the entry stands at the end; nothing else changes |
| RaftNode.MutableLog.Place | src/raft/log.go:21-41 | the overwrite loop, the append and the cut compute the value-level `Place`, whose outcome PlaceOutcome and PlaceTruncates describe |
| RaftNode.MutableLog.CutOffHead | src/raft/log.go:68-71 | drops what lies before the index and moves the offset |
| RaftNode.MutableLog.CutOffTail | src/raft/log.go:73-80 | keeps what lies before the index, and never less than the first entry |
| RaftNode.Raft.constructor | src/raft/raft.go:245-259 | a follower of term 0 with one dummy entry, no vote and nothing committed |
| RaftNode.Raft.ReadPersist | src/raft/raft.go:120-151 | a restart brings back the persisted fields and forgets all others |
| RaftNode.Raft.StepDownTo | src/raft/raft.go:156-164 | takes the term, becomes a follower and forgets the vote |
| RaftNode.Raft.HandleRequestVote | src/raft/leader_election.go:30-69 | the new state and reply are those of `RequestVote` on all branches; RaftRules.VotesExactly says when it grants |
| RaftNode.Raft.BeginElection | src/raft/leader_election.go:112-130 | a new term, a vote for itself, and a request with its own last index and term |
| RaftNode.Raft.CountVotes | src/raft/leader_election.go:157-180 | the loop stops at a majority or at a higher term and steps down then; its result is `Count` of the replies |
| RaftNode.CountIsGrants | src/raft/leader_election.go:157-180 | the count is the own vote and the grants, capped at a majority, unless a refusal from a later term ended it; counting changes nothing but to step down |
| RaftNode.CountsExactly | src/raft/leader_election.go:157-180 | counting steps down if and only if a refusal from a later term comes up before a majority, and then to the term of the first one |
| RaftNode.Raft.FinishElection | src/raft/leader_election.go:143-154 | leadership only in the same term, still a candidate, with a majority |
| RaftNode.Raft.Submit | src/raft/raft.go:188-208 | a leader appends the command in its term and names its index; any other server changes nothing |
| RaftNode.Raft.CommitAsFollower | src/raft/log_replication.go:316-324 | the commit index moves to the leader's, but not past the own last index |
| RaftNode.Raft.HandleAppendEntries | src/raft/log_replication.go:53-133 | new state and reply on all five branches: stale, too short, behind the snapshot, conflict, match |
| RaftNode.Raft.ReplicateRound | src/raft/log_replication.go:244-286 | for each peer, as the test of prevLogIndex against the snapshot index decides, the request with the whole suffix from nextIndex, or the snapshot with its index and term |
| RaftNode.RoundIs | src/raft/log_replication.go:244-286 | a round has exactly one message for each other peer, in order, each with every field as the peer's next index and the snapshot demand |
| RaftNode.Raft.CommitAsLeader | src/raft/log_replication.go:288-314 | sorts the match indices and computes `LeaderCommit`; RaftQuorum.CommitsExactly says what that commits |
| RaftNode.Raft.RollBack | src/raft/log_replication.go:219-232 | the backward scan over one term finds the next index of `RolledBack` |
| RaftNode.Raft.HandleAppendReply | src/raft/log_replication.go:194-242 | ignores stale replies, advances or rolls back the view of the peer, commits, or steps down |
| RaftNode.Raft.TakeSnapshot | src/raft/log_compaction.go:7-22 | moves the snapshot forward only, and keeps its last entry as the first of the log |
| RaftNode.Raft.HandleInstallSnapshot | src/raft/log_replication.go:135-173 | the new state and reply on all branches: stale, already covered, cut, replaced |
| RaftNode.Raft.HandleSnapshotReply | src/raft/log_replication.go:177-192 | ignores a stale reply, steps down, or moves both indices of the peer past the snapshot, forward only |
| RaftServer.StepOver | src/raft/log_replication.go:226-232 | stepping over a term stays inside the log and goes down by at least one where it can |
| RaftQuorum.QuorumIndex | src/raft/log_replication.go:288-299 | for every cluster size, an index is at most the one at position (n+1)/2-1 exactly when a majority holds it, and at most the lowest exactly when everybody does |
| RaftQuorum.CommitsExactly | src/raft/log_replication.go:288-314 | a leader commits the largest index a majority holds if and only if that is new, not behind the snapshot, and of the current term or held by everybody; otherwise it is unchanged |
| RaftHistory.GoodSorted | src/raft/log.go:32-39 | terms never fall along a log that grew out of leaders' logs |
| RaftHistory.GoodMatch | src/raft/log.go:21-41 | two such logs with the same term at an index agree up to it |
| RaftHistory.QuorumsMeet | src/raft/leader_election.go:140-150 | two majorities have a server in common |
| RaftHistory.LeaderCompleteness | src/raft/log_replication.go:296-314 | what a quorum acknowledged in a term is in the base of every later leader, by induction over the terms |
| RaftHistory.UpToDateHolds | src/raft/leader_election.go:47-59 | a voter that holds it only votes for a log that holds it |
| RaftHistory.CommittedInLeader | src/raft/log_replication.go:296-324 | a committed prefix is in the log of the leader of the same or a later term |
| RaftHistory.CommittedAgree | src/raft/log_replication.go:296-324 | two committed prefixes agree wherever both reach |
| RaftAppend.PlaceOutcome | src/raft/log.go:21-41 | on a log that agrees below the index and has no stale tail, placing the leader's entries leaves exactly those, or the log as it was if it contained them |
| RaftAppend.StaleTail | src/raft/log.go:32-39 | a remaining tail that conflicts has a lower term right behind the new entries, so the cut is made exactly then |
| RaftAppend.PlaceTruncates | src/raft/log.go:21-41 | truncation at the first conflict has the same outcome |
| RaftAppend.AppendNeverPanics | src/raft/log_replication.go:84-91 | the entry at the snapshot index in a request has the snapshot's term, and placing stays in range |
| RaftAppend.Accepted | src/raft/log_replication.go:84-132 | an accepted request is absorbed: the log then contains the leader's up to the last entry sent |
| RaftAppend.AcceptedPrefix | src/raft/log_replication.go:112-124 | an accepted request finds the logs equal up to PrevLogIndex |
| RaftAppend.AckedNotRefused | src/raft/log_replication.go:77-120 | a follower never refuses what it has acknowledged in the term |
| RaftAppend.RefusedLog | src/raft/log_replication.go:112-120 | a refusal leaves a prefix that ends before PrevLogIndex and keeps all that is shared with the leader, and names a conflict at or before PrevLogIndex |
| RaftAppend.RefusedTame | src/raft/log_replication.go:77-120 | after a refusal the follower's log has no tail that `place` would fail to cut |
| RaftElections.TimeoutKeeps | src/raft/leader_election.go:112-136 | starting an election keeps the invariant |
| RaftElections.VoteKeeps | src/raft/leader_election.go:30-69 | answering a vote request keeps the invariant, also for a second vote in the same term |
| RaftElections.NoLeaderYet | src/raft/leader_election.go:143-150 | a candidate with a majority finds its term without a leader |
| RaftElections.MajorityElects | src/raft/leader_election.go:140-150 | if the term has a leader, a candidate backed by a majority is that leader |
| RaftElections.VoterLocked | src/raft/raft.go:156-164 | the voters of an elected leader stay locked in its term |
| RaftElections.ElectedKeeps | src/raft/leader_election.go:182-194 | becoming leader keeps the invariant |
| RaftReplication.EnterTerm | src/raft/log_replication.go:69-74 | taking over the sender's term keeps a server in order, also when a candidate steps down in its own term |
| RaftReplication.AcceptKeeps | src/raft/log_replication.go:53-133 | handling AppendEntries keeps the invariant |
| RaftLeading.SubmitKeeps | src/raft/raft.go:188-208 | a new command keeps the invariant |
| RaftLeading.ReplicateKeeps | src/raft/log_replication.go:244-286 | sending keeps the invariant |
| RaftLeading.CommitRule | src/raft/log_replication.go:296-314 | both commit conditions are sound: a quorum in the current term, or all replicas |
| RaftLeading.ReplyNeverPanics | src/raft/log_replication.go:204-236 | a reply never makes the leader read outside its log |
| RaftLeading.RollbackAims | src/raft/log_replication.go:219-236 | the rolled-back nextIndex stays above matchIndex and within the log, and aims only where the peer's answers in this term allow it |
| RaftLeading.AcknowledgeKeeps | src/raft/log_replication.go:194-242 | handling a reply keeps the invariant |
| RaftSteps.VoteRefusedKeeps | src/raft/leader_election.go:165-174 | a refused vote with a higher term keeps the invariant |
| RaftSteps.StepDownKeeps | src/raft/raft.go:156-164 | stepping down to a higher term keeps a server in order |
| RaftSteps.RebootKeeps | src/raft/raft.go:119-151 | a crash and restart keeps the invariant |
| RaftSteps.CompactFull | src/raft/log_compaction.go:7-22 | compaction leaves the whole log, discarded part included, unchanged |
| RaftSteps.TruncateKeeps | src/raft/log_compaction.go:7-22 | compaction of committed entries keeps the invariant |
| RaftSteps.BookKeeps | src/raft/applier.go:57-66 | raising the commit index to a snapshot that was handed over, as happens after a restart, keeps the invariant |
| RaftInstall.SendSnapshotKeeps | src/raft/log_replication.go:254-268 | sending a snapshot keeps the invariant: what it stands for is a committed prefix of the sender's log |
| RaftInstall.OldSnapshot | src/raft/log_replication.go:155-157 | a follower that ignores a snapshot, because of its own snapshot or of what it applied, holds everything the snapshot stands for |
| RaftInstall.CutServer | src/raft/log_replication.go:158-171 | where the terms agree, cutting the log at the snapshot leaves the same log as a whole and a server in order |
| RaftInstall.ReplacedServer | src/raft/log_replication.go:162-171 | a log that ends at or before the snapshot is replaced by what the snapshot stands for, and the server keeps all it acknowledged |
| RaftInstall.InstallKeeps | src/raft/log_replication.go:135-173 | handling InstallSnapshot keeps the invariant on all branches where the terms agree; in every case but a later term the follower then holds what the snapshot stands for |
| RaftInstall.InstallAckedKeeps | src/raft/log_replication.go:177-192 | a reply, whatever the follower did with the snapshot, may count as holding it |
| RaftMatching.InstalledLog | src/raft/log_replication.go:158-170 | the log the follower then stands for: what the snapshot stands for, and what lay behind it if anything did |
| RaftMatching.InstallMatches | src/raft/log_replication.go:155-171 | installing keeps log matching with every log that matched the follower's and the sender's, if and only if nothing lies behind the snapshot or the entry at its index has its term |
| RaftMatching.InstallInRun | src/raft/log_replication.go:155-171 | in every reachable state a server's snapshot installed on another leaves a log that matches those of all servers, the follower's old one included, if and only if that holds |
| RaftMismatch.InstallBreaksMatching | src/raft/log_replication.go:158-161 | a run of five servers in which a snapshot under way, once installed, leaves two servers with the same term at an index and different entries before it |
| RaftRules.RequestSent | src/raft/leader_election.go:112-130 | every request for votes under way was sent by a candidate of its term whose whole log ended as the request says |
| RaftRules.VotesExactly | src/raft/leader_election.go:30-69 | in every run a vote is granted if and only if the request is not of an earlier term, the vote of the term is not given to another, and the candidate's whole log is at least as up to date; with the reply's term and the voter's new term, role and vote |
| RaftRules.AcceptsExactly | src/raft/log_replication.go:53-133 | in every run entries are accepted if and only if the request is not of an earlier term and the follower's whole log has the given term just before them; with the new term, role, vote and commit index, and the log and the conflict a refusal leaves and names |
| RaftRules.AcceptedNotCommitted | src/raft/log_replication.go:84-110 | an accepted request all of which is behind the snapshot does not raise the commit index: a follower where it does not; AcceptsExactly has the exact condition |
| RaftRules.RepliesExactly | src/raft/log_replication.go:194-242 | the indices of the peer and the commit index after a success, and after a refusal the next index: the conflict itself, or the last entry before it of another term, but never what is known to match |
| RaftRules.SnapshotReplyExactly | src/raft/log_replication.go:177-192 | the indices of the peer after the reply to a snapshot, forward only, and of nobody else |
| RaftRules.RoundInRun | src/raft/log_replication.go:244-286 | in every run the entries a leader sends are the suffix of its whole log from the next index, with the term before them and its commit index |
| RaftRules.RestartPersists | src/raft/raft.go:119-151 | a restart brings back all that was persisted and depends on nothing else |
| RaftRules.StepsAnswer | src/raft/log_replication.go:53-173 | every handled request is answered with the old term, and a step touches one server only |
| RaftRules.StepsLeave | src/raft/leader_election.go:112-194 | what timeouts, refused votes, elections, submissions, snapshot replies and restarts leave behind |
| RaftRules.MessagesHandled | src/raft/log_replication.go:53-242 | in every reachable state every message under way can be handled by whom it is for, and every server can restart |
| RaftBackoff.RefusalLowers | src/raft/log_replication.go:219-236 | each refusal strictly lowers nextIndex, reads inside the log and keeps matchIndex < nextIndex |
| RaftBackoff.RefusalKeeps | src/raft/log_replication.go:112-120 | after a refusal the pair of logs can go on probing |
| RaftBackoff.AcceptanceReplicates | src/raft/log_replication.go:121-132 | an acceptance leaves the leader's log a prefix of the follower's |
| RaftBackoff.AcceptanceMatches | src/raft/log_replication.go:204-213 | an acceptance sets matchIndex to the leader's last index |
| RaftBackoff.Exchange | src/raft/log_replication.go:194-277 | the exchange ends, with the leader's log a prefix of the follower's and matchIndex at its end |
| RaftApplier.StepKeeps | src/raft/applier.go:40-90 | every step of the apply loop or beside it keeps the delivery invariant |
| RaftApplier.DeliveryOrder | src/raft/applier.go:40-90 | in every interleaving commands come one index at a time, snapshots jump forward, and the read stays in the retained log |
| RaftApplier.PicksExactly | src/raft/applier.go:42-78 | picking leaves the loop idle if and only if neither a snapshot nor a committed command is waiting; a snapshot goes first, then the command at lastApplied+1 |
| RaftApplier.RoundDelivers | src/raft/applier.go:40-90 | one round hands over what is waiting and books it |
| RaftApplier.DeliveredTruth | src/raft/applier.go:67-85 | where the committed entries of a server agree with one sequence of commands, what is delivered at an index is the command of that index, in every interleaving |
| RaftApplier.SameCommands | src/raft/applier.go:67-85 | two servers whose committed entries agree with one sequence deliver the same command at the same index |
| RaftApplier.ApplyLoop.constructor | src/raft/raft.go:245-271 | a loop that has applied nothing |
| RaftApplier.ApplyLoop.PickNext | src/raft/applier.go:42-78 | the choice under the lock; PicksExactly says what is picked and when nothing is |
| RaftApplier.ApplyLoop.BookHanded | src/raft/applier.go:57-85 | the booking under the lock moves lastApplied, and with a snapshot the commit index, forward only |
| RaftDelivery.ClustersRun | src/raft/applier.go:40-90 | with every apply loop running beside the protocol, the servers still make a run of the cluster: the loops only book snapshots |
| RaftDelivery.AcceptForward | src/raft/log_replication.go:53-133 | AppendEntries never moves a commit index back, although it is cut to the own last index |
| RaftDelivery.StepForward | src/raft/log_replication.go:53-324 | until a restart no step moves a server's commit index or snapshot index back |
| RaftDelivery.LoopMoves | src/raft/applier.go:40-90 | a step of the loop changes the server as the loop's own state machine says |
| RaftDelivery.DeliveryOrder | src/raft/applier.go:40-90 | in every run of cluster and loops together, every service sees commands one index at a time and snapshots that jump forward, no loop reads outside the log or gets stuck, and a snapshot of anything delivered is allowed |
| RaftDelivery.DeliveredCommitted | src/raft/applier.go:67-85 | every command a service is ever given is the one the cluster committed at its index, without further hypothesis |
| RaftDelivery.SameCommands | src/raft/applier.go:67-85 | two services are never given different commands at an index: on any servers, at any moments, across restarts and snapshots |
| RaftDelivery.SnapshotsSeen | src/raft/log_replication.go:155-171 | taking and installing a snapshot are for the loop what its own state machine says |
| RaftDelivery.CatchesUp | src/raft/applier.go:40-90 | from every reachable state finitely many rounds of an idle loop alone bring its service to the higher of commit index and snapshot index, with every command between handed over |
| PorcupineBitset.NewBitset | src/porcupine/bitset.go:10-17 | encodes the empty set in as many words as the positions need |
| PorcupineBitset.Clone | src/porcupine/bitset.go:19-23 | a fresh array with the same words |
| PorcupineBitset.SetBit | src/porcupine/bitset.go:29-33 | encodes the set with the position added |
| PorcupineBitset.ClearBit | src/porcupine/bitset.go:35-39 | encodes the set with the position removed |
| PorcupineBitset.GetBit | src/porcupine/bitset.go:41-44 | true exactly for members |
| PorcupineBitset.Equals | src/porcupine/bitset.go:62-72 | true exactly for equal words |
| PorcupineBitset.EncodesUnique | src/porcupine/bitset.go:62-72 | equal words exactly for equal sets |
| PorcupineBitset.Hash | src/porcupine/bitset.go:46-60 | the exclusive or of the words and their bit count; a function of the words only |
| PorcupineBitset.AddEncodes | src/porcupine/bitset.go:25-33 | word and bit index address exactly one position |
| PorcupineBitset.DropEncodes | src/porcupine/bitset.go:35-39 | clearing that bit removes exactly that position |
| PorcupineList.LinksWithout | src/porcupine/checker.go:159-167 | taking a node out changes the links of its two neighbours only |
| PorcupineList.Detach | src/porcupine/checker.go:159-167 | the list without the node, whose own pointers stay as they were |
| PorcupineList.Attach | src/porcupine/checker.go:169-177 | the node is back between the neighbours it points to |
| PorcupineList.Lift | src/porcupine/checker.go:159-167 | the list without the call and its return, adjacent or not; earlier lifted nodes keep their pointers |
| PorcupineList.Unlift | src/porcupine/checker.go:169-177 | the inverse of the last lift |
| PorcupineEntries.InsertBefore | src/porcupine/checker.go:70-81 | the list with the node before the mark, at any place of it |
| PorcupineEntries.MakeLinkedEntries | src/porcupine/checker.go:121-138 | one node for each event, in order, each call tied to the node of its return |
| PorcupineEntries.Length | src/porcupine/checker.go:83-90 | the number of nodes |
| Linearizability.WholePartial | src/porcupine/checker.go:244-252 | a linearization is a legal start that leaves nothing out, and the other way round |
| PorcupineSearch.Extend | src/porcupine/checker.go:194-207 | an available accepted operation extends a legal start |
| PorcupineSearch.LastMove | src/porcupine/checker.go:235-241 | the last operation of a legal start was available and accepted |
| PorcupineSearch.SearchStarts | src/porcupine/checker.go:179-189 | the search invariant holds at the start |
| PorcupineSearch.SearchSkips | src/porcupine/checker.go:208-213 | passing over a call that leads nowhere new keeps it |
| PorcupineSearch.SearchEnters | src/porcupine/checker.go:200-207 | entering an unvisited configuration keeps it |
| PorcupineSearch.SearchLeaves | src/porcupine/checker.go:235-241 | leaving an exhausted configuration keeps it, with everything up to its call tried one level up |
| PorcupineSearch.AllVisited | src/porcupine/checker.go:198-217 | once everything is expanded, every legal start leads to a visited configuration: the pruning loses nothing |
| PorcupineSearch.NotLinearizable | src/porcupine/checker.go:215-217 | backing out of the empty path refutes every linearization |
| PorcupineSearch.LongestIsLongest | src/porcupine/checker.go:218-234 | no legal start through an operation is longer than its record |
| PorcupineScan.CallAvailable | src/porcupine/checker.go:190-196 | a call reached without passing a return may come next |
| PorcupineScan.ReturnExpanded | src/porcupine/checker.go:214-217 | at a return everything that could come next has been tried |
| PorcupineScan.EntryExists | src/porcupine/checker.go:190-194 | while the list is not empty the scan does not run off its end |
| PorcupineScan.AllGone | src/porcupine/checker.go:190-190 | an empty list means a complete linearization |
| PorcupineScan.AtPush | src/porcupine/checker.go:200-207 | a push keeps the scan invariant and lowers the number of unvisited configurations |
| PorcupineScan.AtPop | src/porcupine/checker.go:235-242 | a pop keeps the scan invariant |
| PorcupineScan.AtSkip | src/porcupine/checker.go:208-213 | a skip keeps the scan invariant and moves forward |
| PorcupineScan.Reached | src/porcupine/checker.go:198-207 | every legal start leads into a finite set of configurations |
| PorcupineCache.CacheContains | src/porcupine/checker.go:145-152 | true exactly for visited configurations, whatever the hash |
| PorcupineCache.CacheAdd | src/porcupine/checker.go:201-202 | the cache then holds exactly one configuration more |
| PorcupineRecord.Record | src/porcupine/checker.go:219-234 | every operation on the path then has a record at least as long, and no record got worse |
| PorcupineRecord.PathIds | src/porcupine/checker.go:244-248 | the ids of the path, in order |
| PorcupineRecord.ImprovedSound | src/porcupine/checker.go:219-234 | records stay legal starts through their operation |
| PorcupineRecord.ImprovedRecorded | src/porcupine/checker.go:219-241 | leaving a configuration after recording it keeps the record complete |
| PorcupineChecker.Enter | src/porcupine/checker.go:206-206 | the list without the operations of the longer path, all lifted nodes frozen |
| PorcupineChecker.Leave | src/porcupine/checker.go:240-240 | the list of the shorter path again |
| PorcupineChecker.Visit | src/porcupine/checker.go:198-202 | new exactly if the configuration was not visited, and then cached |
| PorcupineChecker.Advance | src/porcupine/checker.go:203-206 | stack, bitset and list of the path with the operation |
| PorcupineChecker.Retreat | src/porcupine/checker.go:235-241 | stack, bitset, state and list of the path without its last operation, and the next node to look at |
| PorcupineChecker.TryCall | src/porcupine/checker.go:194-213 | one turn at a call keeps the loop invariant and makes progress |
| PorcupineChecker.Backtrack | src/porcupine/checker.go:235-242 | one turn at a return keeps the loop invariant with a shorter path |
| PorcupineChecker.Note | src/porcupine/checker.go:218-234 | the record stays sound and covers the path that is about to be left |
| PorcupineChecker.Complete | src/porcupine/checker.go:244-252 | every operation has the complete linearization on record |
| PorcupineChecker.CheckSingle | src/porcupine/checker.go:179-253 | ends, and returns true exactly if the history is linearizable; the record is then the linearization, else (when asked for) a longest legal start through each operation, and nothing only if there is none |
| PorcupineOperations.SortEntries | src/porcupine/checker.go:39-46 | a sorted permutation, calls before returns at the same time |
| PorcupineOperations.MakeEntries | src/porcupine/checker.go:48-60 | the call and return of every operation, sorted |
| PorcupineOperations.MadeWellFormed | src/porcupine/checker.go:48-60 | sorted entries of operations that return no earlier than they are called are a well-formed history |
| PorcupineOperations.MadePrecedes | src/porcupine/checker.go:39-46 | one operation precedes another in the history exactly if it returned strictly before the other was called |
| PorcupineOperations.MadeLinearizable | src/porcupine/checker.go:48-60 | the history is linearizable exactly if the timed operations are |
| PorcupineOperations.SameStarts | src/porcupine/checker.go:48-60 | a legal start of the history is a legal start of the timed operations, and the other way round |
| PorcupineOperations.Collect | src/porcupine/checker.go:319-338 | exactly the lists on record, each once |
| PorcupineOperations.CollectedOk | src/porcupine/checker.go:319-338 | the collected lists are legal starts, one through every operation that none through it exceeds, all of them whole if the part is linearizable |
| PorcupineOperations.CheckPart | src/porcupine/checker.go:274-338 | the verdict on one part and what is kept of it |
| PorcupineOperations.CheckOperations | src/porcupine/checker.go:274-353 | Ok exactly if every part is linearizable; when asked, what is kept of each part are its entries and legal starts, a longest one through every operation, and whole orders if the part is linearizable |
| PorcupineVisualization.ReadHistory | src/porcupine/visualization.go:37-53 | client and times of every operation, and the values of its call and return; a return finds the value of its call |
| PorcupineVisualization.Replay | src/porcupine/visualization.go:63-72 | the states along a list that explains its operations; the model rejects none of its steps, so the panic is never reached |
| PorcupineVisualization.SortByLength | src/porcupine/visualization.go:58-61 | a permutation by falling length |
| PorcupineVisualization.NoteLargest | src/porcupine/visualization.go:73-76 | every operation seen is sent to a list through it that is as long as any through it so far |
| PorcupineVisualization.ShowPartition | src/porcupine/visualization.go:37-84 | the operations, the states along legal starts by falling length, and for every operation that any legal start reaches one that none through it exceeds |
| PorcupineVisualization.ComputeVisualizationData | src/porcupine/visualization.go:33-87 | showing what a verbose check kept, whatever its verdict, meets no rejected step and shows that much of every part |
| Locality.PartLinearizable | src/porcupine/model.go:28-31 | a part is linearizable exactly if its operations have an order inside the whole |
| Locality.ObjectsExplain | src/models/kv.go:35-54 | the whole accepts an order exactly if every object accepts its share |
| Locality.Stampable | src/porcupine/model.go:28-31 | an order in real time has moments of effect between call and return |
| Locality.StampsInTime | src/porcupine/model.go:28-31 | an order by such moments is in real time |
| Locality.MergeOn | src/porcupine/model.go:28-31 | merging schedules by moment leaves every object's own order as it was |
| Locality.ToObject | src/porcupine/model.go:28-31 | if the whole is linearizable, so is each object |
| Locality.FromObjects | src/porcupine/model.go:28-31 | if each object is linearizable, so is the whole |
| Locality.LinearizabilityIsLocal | src/porcupine/model.go:28-31 | the whole is linearizable exactly if every object in use is, for any model that projects to objects |
| StringOrder.BeforeTotal | src/models/kv.go:28-28 | the order of keys is total and strict |
| KvModel.MapProjects | src/models/kv.go:35-54 | the map specification, seen at one key, steps as the single-value model does; KvReads says what both accept |
| KvModel.GroupByKey | src/models/kv.go:19-23 | the operations on each key, in the order of the history |
| KvModel.Partition | src/models/kv.go:18-34 | one part for each key in use, by ascending key |
| KvModel.PartitionIsSound | src/models/kv.go:18-54 | the history is linearizable against the whole map exactly if every part is against the single-value model |
| KvModel.CheckKv | src/porcupine/checker.go:365-373 | partition and check together decide linearizability against the whole map, and keep the legal starts of the operations on each key |
| KvReads.MapReadsRight | src/models/kv.go:35-54 | the whole map accepts an order if and only if every get returns what was put last on its key before it, or nothing, followed by all that was appended since |
| KvReads.KeyReadsRight | src/models/kv.go:35-54 | the same for the single-value model and the operations of one part |
| KvReads.WrongRead | src/models/kv.go:44-46 | a get after the only write of its key that returns something else makes a history not linearizable |
| KvStore.ApplyNumbers | src/kvraft/server.go:203-216 | an operation that is not done sets its own client's number and no other |
| KvStore.LastIsHighest | src/kvraft/server.go:40-49 | the number kept for a client is the highest in the log, or 0 |
| KvStore.DoneIsOld | src/kvraft/server.go:203-207 | being taken for a duplicate is the same as being one exactly if the number comes up in order |
| KvStore.ExecutedOnce | src/kvraft/server.go:203-216 | the operations executed are the first occurrences if and only if these come up in the order of their numbers |
| KvStore.DataOfExecuted | src/kvraft/server.go:203-216 | the data are those the executed operations leave |
| KvStore.ExactlyOnce | src/kvraft/server.go:203-216 | with numbers in order, a log with any duplicates leaves the data of its first occurrences |
| KvStore.LostOperation | src/kvraft/server.go:203-216 | out of order, an operation is lost: a log where it is |
| KvStore.RestoreBehind | src/kvraft/server.go:229-262 | a snapshot restored on a replica that is not ahead brings the state it was taken in, although numbers are only overwritten |
| KvStore.SnapshotAndSuffix | src/kvraft/server.go:218-262 | snapshot and suffix give the same store and client table as the whole log |
| KvServer.ClientStatus.constructor | src/kvraft/server.go:30-38 | a client starts at number 0 |
| KvServer.ClientStatus.UpdateSeqNum | src/kvraft/server.go:44-49 | the number is the given one |
| KvServer.Store.constructor | src/kvraft/server.go:56-58 | an empty store |
| KvServer.Store.SetData | src/kvraft/server.go:60-64 | the data are replaced |
| KvServer.Store.CloneData | src/kvraft/server.go:66-74 | a copy of all data |
| KvServer.Store.Get | src/kvraft/server.go:76-81 | the value and whether the key is there, empty if not |
| KvServer.Store.Put | src/kvraft/server.go:83-87 | the key has the value, no other key changes |
| KvServer.Store.Append | src/kvraft/server.go:89-97 | the value is appended to what the key has, or set |
| KvServer.KVServer.constructor | src/kvraft/server.go:295-313 | the empty state |
| KvServer.KVServer.GetClientStatus | src/kvraft/server.go:124-141 | the client's status, made on first use; no data and no number changes |
| KvServer.KVServer.Submit | src/kvraft/server.go:143-162 | already done, started, or not the leader; the state does not change |
| KvServer.KVServer.Answer | src/kvraft/server.go:164-183 | ready exactly if the operation is done; a get then reads the store |
| KvServer.KVServer.ApplyOp | src/kvraft/server.go:203-216 | the new state is that of `Apply`, whose runs ExactlyOnce describes |
| KvServer.KVServer.ClientsSeqNum | src/kvraft/server.go:114-122 | the number of every known client |
| KvServer.KVServer.TakeSnapshot | src/kvraft/server.go:218-227 | the index, all data and all numbers |
| KvServer.KVServer.SetSeqNums | src/kvraft/server.go:257-260 | the given numbers overwrite, all others stay |
| KvServer.KVServer.ApplySnap | src/kvraft/server.go:229-262 | ingests a snapshot, or refuses one whose index is not the announced one and changes nothing |
| KvService.OneId | src/kvraft/client.go:48-63 | operations are told apart by client and number |
| KvService.DoneIsApplied | src/kvraft/server.go:143-162 | a replica that counts an operation as done has applied it |
| KvService.InvokeKeeps | src/kvraft/client.go:48-91 | a clerk's next operation keeps the invariant |
| KvService.CommitKeeps | src/kvraft/server.go:152-162 | a request, repeated or not, entering the log keeps the invariant |
| KvService.AnswerKeeps | src/kvraft/server.go:164-183 | answering from the local store keeps the invariant |
| KvService.InstallKeeps | src/kvraft/server.go:229-262 | installing a snapshot keeps the invariant |
| KvService.StepKeeps | src/kvraft/server.go:143-262 | every step of the service keeps the invariant |
| KvService.RunKeeps | src/kvraft/server.go:143-262 | the invariant holds in every state of every run |
| KvLinearizable.LogInOrder | src/kvraft/server.go:203-216 | with one operation at a time per clerk, first requests reach the log in the order of their numbers |
| KvLinearizable.DataStep | src/kvraft/server.go:203-216 | one more entry changes the data exactly if it is the first request of its operation |
| KvLinearizable.Walked | src/kvraft/server.go:164-183 | the walk of the log holds exactly the operations that have taken effect up to there |
| KvLinearizable.NextInTime | src/kvraft/server.go:164-183 | an operation placed later did not return before one placed earlier was called |
| KvLinearizable.WalkInTime | src/kvraft/server.go:164-183 | the walk repeats nothing and respects real time |
| KvLinearizable.WalkExplains | src/kvraft/server.go:203-216 | the map accepts the walk and is left as a replica is that applied that much of the log |
| KvLinearizable.StateLinearizable | src/kvraft/server.go:143-216 | the operations that took effect have a legal order in real time |
| KvLinearizable.ServiceLinearizable | src/kvraft/server.go:143-216 | in every state of every run, what returned together with the writes in the log is linearizable against one map |
| KvLinearizable.QuietLinearizable | src/kvraft/server.go:143-216 | when nothing is under way the recorded history itself is linearizable, so the checker accepts it |
| KvProgress.CanAnswer | src/kvraft/server.go:143-216 | from every reachable state every operation under way can be answered, and what was answered stays so |
| KvProgress.CanServe | src/kvraft/client.go:48-91 | from every reachable state any client can make any call and be answered |
| KvProgress.HistoryIs | src/kvraft/server.go:143-183 | the recorded history has the kind, key, value, times and result of every operation |
| KvProgress.GetsAreRight | src/kvraft/server.go:143-216 | in every run, whenever nothing is under way, one order of all operations in real time explains every get by the writes before it, said without the model |
| KvProgress.StepsLeave | src/kvraft/server.go:143-262 | what calls, commits, snapshots, installations, restarts and answers leave behind |
| ShardBalance.OneChoice | src/shardctrler/common.go:57-92 | the group picked does not depend on the order in which groups are looked at |
| ShardBalance.FillEvens | src/shardctrler/common.go:118-134 | the join loop moves shards to the new group only and ends with it level or one ahead |
| ShardBalance.FillAll | src/shardctrler/common.go:118-134 | into a controller without groups all shards leave group 0 |
| ShardBalance.JoinBalances | src/shardctrler/common.go:118-138 | a join keeps the balance, moves shards to the new group only, and leaves no group above it |
| ShardBalance.JoinShare | src/shardctrler/common.go:118-138 | with k groups after the join the new one holds exactly ceil(N/k) shards, for every N |
| ShardBalance.JoinPlaces | src/shardctrler/common.go:118-138 | a join keeps every shard on a member group, balanced or not |
| ShardBalance.LeaveBalances | src/shardctrler/common.go:140-155 | a leave keeps the balance and moves the departing group's shards only; the last one out leaves all shards on 0 |
| ShardBalance.LeavePlaces | src/shardctrler/common.go:140-155 | a leave keeps every shard on a member group, balanced or not |
| ShardBalance.DealtLoad | src/shardctrler/common.go:103-116 | dealing round gives each group its exact number of shards |
| ShardBalance.DealtBalances | src/shardctrler/common.go:103-116 | dealing round balances |
| ShardConfig.SortedKeys | src/shardctrler/common.go:37-44 | the keys in ascending order |
| ShardConfig.OneOrder | src/shardctrler/common.go:37-44 | a set of groups has one ascending order |
| ShardConfig.GetGidWithCmpNumShards | src/shardctrler/common.go:57-77 | the lowest-numbered group whose count comes first, or 0 if there is none |
| ShardConfig.MergedIs | src/shardctrler/common.go:135-136 | after a join a group has its old servers followed by the new ones |
| ShardConfig.JoinAllBalances | src/shardctrler/common.go:118-138 | any number of joins keeps the balance |
| ShardConfig.LeaveAllBalances | src/shardctrler/common.go:140-155 | any number of leaves, of members or not, keeps the balance |
| ShardConfig.Config.Clone | src/shardctrler/common.go:94-101 | a copy with its own shards |
| ShardConfig.Config.GetGroupShardsMap | src/shardctrler/common.go:46-55 | for every group and every holder of a shard, its shards in ascending order |
| ShardConfig.Config.GetGidWithMinimumShards | src/shardctrler/common.go:79-83 | the lowest-numbered of the least loaded groups |
| ShardConfig.Config.GetGidWithMaximumShards | src/shardctrler/common.go:85-92 | group 0 if it holds shards, else the lowest-numbered of the most loaded groups |
| ShardConfig.Config.FillGroup | src/shardctrler/common.go:122-134 | the inner join loop computes `Fill` and always has a shard to take |
| ShardConfig.Config.JoinGroup | src/shardctrler/common.go:120-136 | one group of a join: `JoinOne` on the shards, servers added |
| ShardConfig.Config.JoinGroups | src/shardctrler/common.go:118-138 | all groups in ascending order: `JoinAll` on the shards, every shard on a member |
| ShardConfig.Config.DrainGroup | src/shardctrler/common.go:145-150 | the inner leave loop computes `Drain` |
| ShardConfig.Config.RemoveGroup | src/shardctrler/common.go:141-151 | one group of a leave: `LeaveOne` on the shards, the group gone |
| ShardConfig.Config.RemoveGroups | src/shardctrler/common.go:140-155 | all groups of a leave: `LeaveAll` on the shards |
| ShardConfig.Config.ResetShards | src/shardctrler/common.go:103-116 | the shards are dealt round the groups in ascending order, so they are balanced |
| ShardConfig.Config.MoveShard | src/shardctrler/common.go:157-160 | one shard moves, no other |
| ShardController.ChangedOk | src/shardctrler/server.go:183-217 | every command leads from a good configuration to a good one |
| ShardController.ApplyOk | src/shardctrler/server.go:177-230 | applying a command keeps all configurations good and only appends |
| ShardController.AlwaysBalanced | src/shardctrler/server.go:183-207 | after any sequence of joins, leaves and queries, repeated or not, every configuration made is numbered by its place and balanced |
| ShardController.AlwaysPlaced | src/shardctrler/server.go:183-217 | with moves to member groups, every shard is still on a member group; repeated commands may name anything |
| ShardHistory.NumbersAre | src/shardctrler/server.go:177-230 | the number kept for a client is the highest of its commands, so repetitions are known from the commands alone |
| ShardHistory.GroupsAre | src/shardctrler/server.go:183-217 | in every run the groups of the latest configuration are those the commands make: new joins add servers, new leaves remove groups, nothing else changes them |
| ShardHistory.StepMoves | src/shardctrler/server.go:177-230 | in every run a repetition changes nothing; after a join every moved shard is on a joined group; after a leave no shard is on a group that left and all others stay; a move moves its shard alone |
| ShardController.ShardCtrler.constructor | src/shardctrler/server.go:50-54 | one configuration, number 0, with all shards on group 0 |
| ShardController.ShardCtrler.GetConfig | src/shardctrler/server.go:63-70 | the configuration asked for, or the latest |
| ShardController.ShardCtrler.Append | src/shardctrler/server.go:56-61 | the configuration is numbered by its place |
| ShardController.ShardCtrler.ApplyJoin | src/shardctrler/server.go:188-195 | the first join deals out, later ones rebalance |
| ShardController.ShardCtrler.ApplyLeave | src/shardctrler/server.go:203-205 | the groups leave the latest configuration; ShardHistory says which groups and shards that leaves |
| ShardController.ShardCtrler.ApplyMove | src/shardctrler/server.go:213-215 | one shard moves in the latest configuration |
| ShardController.ShardCtrler.ApplyCommand | src/shardctrler/server.go:177-230 | a command applied before changes nothing; any other does what `Apply` says |
| MapReduce.PermutedReduction | src/main/mrsequential.go:59-84 | with a reducer that does not look at the order of values, the order of the pairs does not matter |
| MapReduce.OneReduction | src/main/mrsequential.go:59-84 | all reductions of the same pairs have the same lines |
| MapReduce.SortByKey | src/mr/worker.go:121-122 | a permutation sorted by key |
| MapReduce.GroupReduces | src/mr/worker.go:133-149 | a stretch of one key adds exactly the line of that key |
| MapReduce.CollectValues | src/mr/worker.go:139-142 | the values of the stretch, in order |
| MapReduce.ReduceSorted | src/mr/worker.go:133-149 | one line for each distinct key, from all its values, by ascending key |
| MapReduce.Sequential | src/main/mrsequential.go:38-84 | one line for each distinct key of all map outputs, by ascending key, from its values in some order; in any order if the reducer does not look at it |
| MapReduce.DoMapTask | src/mr/worker.go:72-77 | bucket r holds exactly the pairs whose key hashes to r, in order |
| MapReduce.BucketExactly | src/mr/worker.go:72-77 | bucket r holds exactly the pairs whose key hashes to r modulo the number of buckets, each as often as it was there |
| MapReduce.CollectedBucket | src/mr/worker.go:103-119 | what a reduce task collects is its share of everything the map tasks produced |
| MapReduce.BucketValues | src/mr/worker.go:73-77 | all values of a key go to one reduce task |
| MapReduce.DoReduceTask | src/mr/worker.go:102-149 | the same for the share of one reduce task |
| MapReduce.TasksReduce | src/mr/worker.go:102-149 | the tasks together write one line for each key and no other |
| MapReduce.SameAsSequential | src/main/mrsequential.go:38-84 | for every hash and any number of tasks the lines are, as a multiset, those of the sequential program |
| MapReduce.Distributed | src/mr/worker.go:57-156 | all map tasks and all reduce tasks together give a reduction of all map outputs |
| Coordinator.FetchKeeps | src/mr/coordinator.go:45-96 | a fetch keeps the invariant, hands out or sends to sleep rightly |
| Coordinator.StepKeeps | src/mr/coordinator.go:45-196 | every step of workers, reports and timeouts keeps the invariant |
| Coordinator.RunKeeps | src/mr/coordinator.go:45-196 | the invariant holds in every state of every run |
| Coordinator.NeverUndone | src/mr/coordinator.go:98-153 | a finished task stays finished |
| Coordinator.ReducesComeLast | src/mr/coordinator.go:49-78 | a reduce task is handed out only when all maps are finished, Done only when all tasks are |
| Coordinator.NobodyForgotten | src/mr/coordinator.go:49-75 | no worker sleeps while its phase has a task to hand out or is over |
| Coordinator.AskGives | src/mr/coordinator.go:45-78 | in every reachable state asking hands out the first waiting task of the phase, the end, or sleep, exactly when each is due |
| Coordinator.TimeoutReturns | src/mr/coordinator.go:98-131 | the timeout of an unfinished task puts it back and no other and wakes everybody; of a finished one it does nothing |
| Coordinator.TimeoutHandsOut | src/mr/coordinator.go:98-131 | after such a timeout whoever asks next in its phase is given a task |
| Coordinator.PollTells | src/mr/coordinator.go:184-196 | the main program is told that the job is over exactly when all reduce tasks are finished |
| Coordinator.Coordinator.constructor | src/mr/coordinator.go:201-225 | all tasks wait to be handed out |
| Coordinator.Coordinator.MapTasksDone | src/mr/coordinator.go:169-180 | true exactly if it was before or all maps are finished, and remembered |
| Coordinator.Coordinator.Done | src/mr/coordinator.go:184-196 | true exactly if it was before or all reduces are finished, and remembered |
| Coordinator.Coordinator.FindWaiting | src/mr/coordinator.go:80-96 | the first task that waits |
| Coordinator.Coordinator.FetchTask | src/mr/coordinator.go:45-78 | one pass of the two loops: map task, reduce task, done, or wait |
| Coordinator.Coordinator.MapTaskFinished | src/mr/coordinator.go:134-142 | the task is finished; workers are woken exactly if the phase is over |
| Coordinator.Coordinator.ReduceTaskFinished | src/mr/coordinator.go:145-153 | the task is finished; workers are woken exactly if the phase is over |
| Coordinator.Coordinator.RecoverMap | src/mr/coordinator.go:102-112 | the late task is put back as TimeoutReturns says, and workers are woken |
| Coordinator.Coordinator.RecoverReduce | src/mr/coordinator.go:119-129 | the late task is put back as TimeoutReturns says, and workers are woken |
| MapReduceJob.CoordinateKeeps | src/mr/coordinator.go:45-131 | fetches and timeouts, also of tasks that are under way or done, keep the job in order |
| MapReduceJob.WriteFileKeeps | src/mr/worker.go:79-97 | putting a file in place, again or for the first time, leaves every file what its map task produces |
| MapReduceJob.ReadFileKeeps | src/mr/worker.go:103-119 | reading file by file while others write still collects the share of the reduce task |
| MapReduceJob.WriteOutKeeps | src/mr/worker.go:121-154 | the output put in place reduces that share |
| MapReduceJob.ReportKeeps | src/mr/worker.go:99-155 | a task that is reported finished has everything in place |
| MapReduceJob.FilesThere | src/mr/worker.go:105-110 | a reduce task never misses a file, so the worker does not give up on opening one |
| MapReduceJob.OutputsThere | src/mr/worker.go:102-156 | when the job is over, for the main program or for a worker, every output is there and reduces its share of all map outputs |
| MapReduceJob.JobIsSequential | src/main/mrsequential.go:38-84 | in every run, with workers that crash and tasks that are done again, the outputs of a job that is over hold the lines of the sequential program |
| MapReduceProgress.SomeReduced | src/mr/worker.go:121-149 | every share has an output |
| MapReduceProgress.CanFinish | src/mr/coordinator.go:45-196 | from every reachable state of a job, with tasks lost, late or half done, any one of its workers can bring it to its end |

## Left out

- InstallSnapshot where the terms disagree: runs of the cluster take the step only where nothing lies behind the snapshot or the entry at its index has its term; what happens otherwise is shown by RaftMismatch.InstallBreaksMatching.
- The reply to InstallSnapshot on a leader that restarted in its term: the goroutine that waited for it is gone, so the step is taken by a leader only.
- RaftApplier.DeliveredTruth: takes agreement of the committed entries as given, because its runs have any installation and any log; RaftDelivery.DeliveredCommitted derives it for the runs of the cluster.
- RaftApplier.SameCommands: likewise; RaftDelivery.SameCommands has no such hypothesis.
- Sharing of slices between a sent message and the leader's log: a message is the value of the log when the lock was held.
- The network, RPC and encoding layers and the persister's bytes: the network is a set of messages, persistence an atomic copy of the persisted fields, encodings are the identity.
- Timers, random timeouts, heartbeat notification and `Kill`: any step may happen at any time; nothing is claimed about when steps happen; what is claimed is that the backoff exchange ends, that an apply loop catches up, and that calls and jobs can always be brought to an end.
- `leaderId` and `lastHeartbeat` of a Raft server, which decide nothing in the modelled steps.
- Integer width: terms, indices, sequence numbers and times are unbounded; only the checker's bitset words have 64 bits.
- The kill flag, timeout and goroutines of the checker: the parts are checked one by one, and a list without parts, for which the original waits for ever, is excluded.
- Histories in which an operation returns before it is called: every operation has Call <= Return.
- A model's own `Equal`: states are compared by equality, as the key/value model does.
- checkEvents with renumbering and conversion of events, which is another way into the same check.
- Descriptions, JSON and HTML of the visualization: the states themselves stand for their descriptions. Lists that are equal are kept once, where the original keeps one for each time it was recorded.
- The order in which the library sort leaves equal elements: the sorts here promise a sorted permutation only, so equality of the MapReduce lines is claimed for reducers that do not look at the order of values.
- Several operations of one clerk at a time: a clerk has one outstanding operation, and client ids are distinct.
- Retry timing, leader guessing and ErrWrongLeader replies of clerks: they change no state; a request may enter the log any number of times at any moment.
- The size threshold that triggers snapshots: a replica may take one at any time.
- RPC front of the shard controller (`operate`), which is that of the key/value service.
- Unguarded input of the controller: an empty first join, for which dealing out would not end, group number 0 as a real group, and a move to a group that is not a member are excluded.
- Cross-group migration of shards (`src/shardkv`).
- File systems, JSON and plugins of MapReduce: a file is a value put in place at once, as the renames do, the map function returns the same pairs each time, and the hash is any function.
- Lost or repeated RPCs between workers and the coordinator: reports and timeouts may come for any task at any time, which includes them.
- Test harnesses, debug helpers, application plugins and scripts.
