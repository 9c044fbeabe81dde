# Consensus node, replicated store and task scheduler: a verified model

The repository holds two programs. `hw2` is a replicated key-value store: a consensus node in the
style of the Raft paper ("In Search of an Understandable Consensus Algorithm", Ongaro and
Ousterhout) and, on top of it, a map that replays the committed commands. `hw1` computes integrals:
a leader cuts queries into slices, hands them to workers that come and go, and adds up the results.
This project models the logic of both in Dafny 4.11 and proves what they are for. Run
`dafny verify dfyconfig.toml` to verify it.

## How the project is built

**The consensus node.** `NodeSpec.dfy` has each handler and each phase of a tick as a function on the
node's state, with the source's branches and no others. `RaftNode.dfy` has the class `Node` with the
source's fields, queues and loops; every method is proved equal to its function, and a whole tick is
proved to be a sequence of actions of the cluster in `Cluster.dfy` (`RaftNode.Node.Tick`,
`NodeActions.ActsAreSegment`). The cluster keeps every packet ever sent: any packet may be delivered
at any time, any number of times, or never, and messages of a node to itself take the same way.
Auxiliary history variables record elections, first votes, confirmations and commitments; no node
reads them.

**The guards.** The source leaves out some checks that Raft relies on. They are not added to the model.
They are named as conditions on single actions of a run, and each theorem says which it needs.

| guard | condition on an action | what the source does instead |
|---|---|---|
| G1 | a sitting leader does not grant its own term to another candidate | `BecomeLeader` clears `voted_for` (hw2/src/consensus/node.cpp:508), so line 204 can grant again; lines 198-200 only log |
| G2 | a confirmation of an earlier term raises no match index | lines 244-267 never discard one |
| G3 | a leader handles a rejection only while the next index is above 1 | line 256 decrements without looking |
| G4 | the index a leader commits holds an entry of its own term or of the term right before | lines 394-403 do not look at the term |

What needs which guard, and what happens without it:

| property | holds under | without the guard | equivalence, and what it is about |
|---|---|---|---|
| one leader in a term | G1, or an even number of nodes, or at most one node | for every odd number of nodes from three on, `OddElectTwo`; with three nodes, `TwoLeadersInOneTerm`; in any state, `SecondLeader` | `ElectsOneIff`: in all runs of a cluster at most one node leads each term, if and only if G1 holds or the number of nodes is even or at most 1; `OneVoteIffG1`: the next action keeps the vote discipline, one vote per node and term, if and only if it obeys G1 |
| a leader's log only grows, log matching, the winner's log is the advertised one | G1 | | |
| match indices are sound | G1, G2 | `LeaderLacksCommitted` | `MatchedIffG2`: the next action keeps match indices backed by confirmations of the leader's term if and only if it obeys G2 or the confirmation has been given again |
| next indices stay in range, replication reads inside the log | G1, G2, G3 | `NextIndexReachesZero` | `InRangeIffG3`: the next action keeps next indices in range if and only if it obeys G3 |
| leader completeness, state machine safety, the commit index never goes back | G1, G2, G4 | `OlderIsLost`, `LeaderLacksCommitted`; in any state, `LackingIsLost` and `LackingIsOverwritten` | `OldCommitIsExact`: with the other guards in place, letting leaders of term T also commit entries of term u keeps state machine safety in all runs if and only if T <= u + 1 (or u is 0, the term of the sentinel); `ElectableHasCommitted` and `LackingIsOverwritten` are two sides in any state: under the guards every node as up-to-date as a majority holds what is committed, and whatever such a node lacks can be overwritten, whatever the guards |
| "persisted" means "my command" | no guard suffices: `PersistedIsAnothers` obeys all four | | `PersistedIsOwnCommand`: the command is there if and only if the entry at its index is of the term in which it was appended |
| an acknowledged write is never lost | G1, G2, G4 | | |
| the merge, the commit rule, idempotence of requests, conservation of futures, a redirected command is never appended | none | | `AppendedIff`: a future's command has been appended if and only if it is neither queued nor redirected |

Every counterexample is a run in which no leader times out, and all other guards hold in it; that of
`OlderIsLost` holds G4 too, but for the one commitment.
An action of the cluster requires that no log is empty; no action ever empties one
(`NodeActions.LogsNeverEmpty`), so this excludes no run.

**The store.** `Storage.dfy` has the map and the text of commands, `Replay.dfy` what a log of commands
stands for, and `KeyValueStore.dfy` the service object. Its theorems are about the replicas of a run
under G1, G2 and G4: at any moment each map is the replay of a prefix of its node's committed log, and
(`AcknowledgedWrites.dfy`) a write that was acknowledged with its own entry in place is read from every
replica that has come that far, until its key is written again. Replicas do come that far: what a leader
has committed its followers can commit (`CommitSpread.dfy`), and a replica has applied all its node has
committed after one call for each hundred million commands it lacks, so that a key then reads as the value
last committed for it (`KeyValueStore.ReadIsLastCommitted`).

**The scheduler.** `Scheduler.dfy` has the steps of the leader's loop as functions, `SchedulerLeader.dfy`
the class with the source's fields and loops, which records the run it is on. No guard is needed: three
lines that look wrong are right because of what every run keeps. The `swap` of the two task sets
(hw1/src/leader/leader.cpp:197) is a move because never are both sets filled; the blind erase of the
front (line 257) takes the finished task because what is sent on a connection is the front of that
worker's list until it is done; and the sum (line 260) counts each slice once. The surroundings are
assumed only to answer what was sent on a connection, in any order and any number of times. What can
still be finished is stated exactly: from any state of any run, just the queries whose interval is not
empty (`SchedulerProgress.dfy`), and while never more than one worker is known, just those that are not
empty and have no empty one before them (`OneWorker.dfy`).

**Arithmetic.** Numbers of the quadrature are exact reals. `next_index` wraps around at 64 bits as in
the source; other counters are unbounded.

## Findings

- `BecomeLeader` clears the vote of the term, so the node can vote twice in it (`GuardsExact.OneVoteIffG1`).
  Clusters with an even number of nodes never have two leaders of a term all the same; those with an odd
  number, from three on, do (`ClusterSize.ElectsOneIff`).
- A leader may commit an entry of an earlier term, and lose it. It can lose it exactly if the entry's term
  is more than one below its own, which it could look at before it commits (`OldCommit.OldCommitIsExact`).
- A repeated rejection takes a next index to 0, after which replication reads before the log
  (`Counterexamples.NextIndexReachesZero`).
- An old confirmation is believed in a later term, so that an entry is committed that a majority does
  not have (`StaleReply.LeaderLacksCommitted`).
- A client can be told "persisted" although its command is nowhere in the log: `BecomeFollower` leaves the
  promises waiting, and a later leadership answers them (`OutlivedPromise.PersistedIsAnothers`). The
  command is there exactly when the entry at its index is of the term in which it was appended, which
  the node could look at before it answers (`ClientFutures.PersistedIsOwnCommand`).
- What `Write` sends is read back as it was exactly when neither part holds a blank and the key is not
  empty unless the value is (`Storage.WriteIsReadBack`).
- A query over an empty interval never finishes, since its workers throw, and every other query can still be
  finished at any time if enough new workers come (`SchedulerProgress.CanFinishIff`). With never more than one
  worker known an empty query also blocks every query behind it: none of these gets a result
  (`OneWorker.EmptyBlocks`, `OneWorker.CanFinishAloneIff`).
- A client that is sent to another node can ask there without risk: its command is in no log
  (`SafeRetries.RedirectedNeverAppended`).
- `GetResult` of the integral leader always returns 0; the result is only logged.

## Model

| member | source | states |
|---|---|---|
| `RequestLaws.MergedIsUnique` | hw2/src/consensus/node.cpp:141-165 | the merged log is the one log that agrees up to `prev`, holds the entries after it, is the old log if that held them already, and ends with them otherwise; no guard |
| `RequestLaws.ReplyIsExact` | hw2/src/consensus/node.cpp:174-176 | an accepted request is confirmed up to exactly `prev` plus the number of entries: the `min` never cuts |
| `RequestLaws.HandlingIsIdempotent` | hw2/src/consensus/node.cpp:90-177 | a request handled a second time changes nothing and gets the same reply |
| `RaftNode.MergeOneMore` | hw2/src/consensus/node.cpp:146-164 | one turn of the loop takes the merge of a prefix of the entries to the merge of one entry more |
| `CommitRule.CommitIsOrderStatistic` | hw2/src/consensus/node.cpp:390-418 | for any maps and any number of nodes, the new commit index is the larger of the old one and the q-th largest match index cut off at the end of the log, q being the size of a majority |
| `CommitRule.HeldByStatistic` | hw2/src/consensus/node.cpp:395-400 | at least q match indices reach an index exactly if the q-th largest does |
| `CommitRule.DescendingExists` | hw2/src/consensus/node.cpp:396-399 | the match indices of any map can be put in descending order, so the order statistic always exists |
| `RaftNode.HighestHeldIsLast` | hw2/src/consensus/node.cpp:394-403 | the last index the loop finds is the highest one a majority holds |
| `Quorum.MajoritiesIntersect` | hw2/src/consensus/node.cpp:288-288 | two sets of members with `2 * size >= n + 1`, n odd or even, share a member |
| `RaftNode.Node.constructor` | hw2/src/consensus/node.cpp:76-88 | a new node is a follower of term 0 without a vote whose log holds only the sentinel |
| `RaftNode.Node.BecomeFollower` | hw2/src/consensus/node.cpp:486-493 | clears the vote and the state of the other roles, keeps term and log |
| `RaftNode.Node.BecomeCandidate` | hw2/src/consensus/node.cpp:495-504 | next term, vote for itself, no votes counted yet, and a request to every member with the last index and term |
| `RaftNode.Node.BecomeLeader` | hw2/src/consensus/node.cpp:506-517 | leader with next indices at the end of the log and match indices 0, its vote cleared, and a request sent to every member |
| `RaftNode.Node.SendRequestVoteToAll` | hw2/src/consensus/node.cpp:467-477 | one vote request per member, in order, and no change of state |
| `RaftNode.Node.SendAppendEntriesToSomeone` | hw2/src/consensus/node.cpp:217-239 | a leader sends all entries from the next index on, and what lies just before them, if there are any or it is a heartbeat; any other node sends nothing |
| `RaftNode.Node.SendAppendEntriesToAll` | hw2/src/consensus/node.cpp:479-484 | one heartbeat per member, in order, from a leader and nothing from any other node; no change of state |
| `RaftNode.Node.MergeEntries` | hw2/src/consensus/node.cpp:141-165 | the loop with `resize` and `push_back` yields the merged log |
| `RaftNode.Node.AnswerQueueWith` | hw2/src/consensus/node.cpp:113-123 | every queued command is answered with the id of the leader heard from, and the queue is empty |
| `RaftNode.Node.HandleAppendEntriesRequest` | hw2/src/consensus/node.cpp:90-177 | for every request: term, role, vote, log, reply and answered futures; it is confirmed exactly if it is not of an older term and the entry before its entries is in the log, and then a larger `leader_commit` raises the commit index, to the last entry sent at most; a node that does not lead answers its whole queue with the leader's id |
| `RaftNode.Node.HandleRequestVoteRequest` | hw2/src/consensus/node.cpp:183-215 | the vote is granted exactly if the term is not older, no other candidate has the vote of the term and the candidate's last entry is of a later term, or of the same term with an index no smaller; the reply to an older term is all zero |
| `RaftNode.Node.HandleAppendEntriesResponse` | hw2/src/consensus/node.cpp:241-268 | a confirmation raises the indices of its sender to the least numbers not below what they were, so that what is confirmed counts as held and is not sent again; a rejection takes the next index one back, and at 0 to the largest 64-bit number; no other index changes |
| `RaftNode.Node.HandleRequestVoteResponse` | hw2/src/consensus/node.cpp:270-291 | a granted vote of the candidate's term is counted, and the node leads and replicates exactly when the votes outnumber the members that have not voted for it |
| `RaftNode.CountHolders` | hw2/src/consensus/node.cpp:395-399 | the inner loop counts the match indices that reach the index |
| `RaftNode.Node.FindIndexToCommit` | hw2/src/consensus/node.cpp:390-406 | the nested loops find the highest index above the commit index that a majority holds |
| `RaftNode.Node.AnswerCommitted` | hw2/src/consensus/node.cpp:408-416 | exactly the futures waiting in the newly committed range are answered as persisted |
| `RaftNode.Node.CommitIfPossible` | hw2/src/consensus/node.cpp:390-418 | commit index and futures move as one functional step |
| `RaftNode.Node.AddNewCommandsToLog` | hw2/src/consensus/node.cpp:420-433 | the queue is appended in order with the current term, each future waits at its entry's index, and a future found there is dropped |
| `RaftNode.Node.AddCommand` | hw2/src/consensus/node.cpp:542-549 | the command joins the end of the queue with its future |
| `RaftNode.Node.GetPersistentCommands` | hw2/src/consensus/node.cpp:293-306 | the query joins the end of its queue, from index 1 if it asked from 0 |
| `RaftNode.Node.PersistentCommands` | hw2/src/consensus/node.cpp:362-365 | the commands from an index on, at most the number asked for, and none beyond the commit index |
| `RaftNode.Node.HandleGetPersistentCommandRequests` | hw2/src/consensus/node.cpp:347-369 | the queue is emptied and each query, the last one of its future, answered with max(0, min(count, commit + 1 - from)) commands, those of the log from the index asked for on; no other answer changes |
| `RaftNode.Node.AddMessage` | hw2/src/consensus/node.cpp:519-540 | the message joins the end of the queue of its kind |
| `RaftNode.Node.HandleIncomingMessages` | hw2/src/consensus/node.cpp:308-345 | the mailbox is emptied; the node handles every message once, all append requests, then vote requests, append replies and vote replies, each kind in order of arrival, and sends what these send |
| `RaftNode.MailInOrder` | hw2/src/consensus/node.cpp:308-345 | the actions of a mailbox are as many as its messages, and the one at each place handles the message that the source's order puts there |
| `RaftNode.MailIsHandled` | hw2/src/consensus/node.cpp:308-345 | no message of the mailbox is left out |
| `RaftNode.QueriesAreAnswered` | hw2/src/consensus/node.cpp:347-369 | for any log, commit index and queries: each query's answer by length and by each command, and nothing else changed |
| `RaftNode.Node.TickFollower` | hw2/src/consensus/node.cpp:453-459 | the mail, then an election if the timer has expired, whatever role the mail has led to |
| `RaftNode.Node.TickLeader` | hw2/src/consensus/node.cpp:435-445 | commit, mail, and then, if the node still leads, replication and the whole queue of commands, which ends the log in order and with the current term, each future waiting at its index |
| `RaftNode.Node.Tick` | hw2/src/consensus/node.cpp:371-388 | a tick answers the queued queries and is then a sequence of the cluster's actions of this node, in the order of its role, among them the handling of every message that had arrived; it says when the source would read outside its log |
| `NodeActions.NextIsAct` | hw2/src/consensus/node.cpp:308-345 | an action of the cluster is that action of one node, touches no other node, and adds its packets to the network |
| `NodeActions.ActsAreSegment` | hw2/src/consensus/node.cpp:371-388 | several actions of one node, such as a tick, are a segment of a cluster run that delivers only what was sent |
| `NodeActions.LogsNeverEmpty` | hw2/src/consensus/node.cpp:76-88 | in every run, with no guard, no log is ever empty |
| `NodeActions.NextKeepsLogs` | hw2/src/consensus/node.cpp:141-165 | no action empties a log |
| `NodeActions.LeadingKeepsQueue` | hw2/src/consensus/node.cpp:112-124 | a leader that still leads after its mail has led all the time, and the queue of its clients is untouched |
| `AppendEntriesStep.LogsMatch` | hw2/src/consensus/node.cpp:136-165 | two logs built by leaders that share an entry's index and term are equal up to it |
| `AppendEntriesStep.MergedKeeps` | hw2/src/consensus/node.cpp:141-165 | merging keeps every prefix that the log shares with the log of the request's leader |
| `LeaderInvariant.LeaderLogNeverShrinks` | hw2/src/consensus/node.cpp:126-165 | a leader that handles any AppendEntries request, its own included, keeps its log and indices |
| `CoreStep.StepKeepsCore` | hw2/src/consensus/node.cpp:90-291 | every action under G1 keeps the invariant of elections, votes, logs and confirmations, and history only grows |
| `LeaderInvariant.StepKeepsMatched` | hw2/src/consensus/node.cpp:260-267 | every action under G2 keeps each match index backed by a confirmation of the leader's term |
| `LeaderInvariant.StepKeepsNexts` | hw2/src/consensus/node.cpp:252-267 | every action under G1 to G3 keeps the next indices between 1 and one past the log |
| `CommitInvariant.LeaderHasCommitted` | hw2/src/consensus/node.cpp:202-212 | an index committed on a quorum is in the log of every leader of a later term, by way of a voter in both majorities |
| `CommitInvariant.CommittedAgree` | hw2/src/consensus/node.cpp:394-403 | of two committed prefixes one extends the other |
| `CommitStep.RequestKeepsCommit` | hw2/src/consensus/node.cpp:167-172 | a request in the network never lowers a commit index |
| `CommitStep.StepKeepsCommitted` | hw2/src/consensus/node.cpp:390-418 | every action under G1, G2 and G4 keeps every commit index covered by a commitment on a quorum |
| `RunInvariants.RunCore` | hw2/src/consensus/node.cpp:371-388 | every state of a run under G1 satisfies that invariant |
| `Safety.ElectionSafety` | hw2/src/consensus/node.cpp:183-215 | under G1, at most one node leads a term, at the same or at different times |
| `Safety.LeaderAppendOnly` | hw2/src/consensus/node.cpp:427-432 | under G1, while a node leads a term its log only grows, although it handles its own requests |
| `Safety.LogMatching` | hw2/src/consensus/node.cpp:126-165 | under G1, two entries of equal index and term in any two logs at any two times are equal, with all before them |
| `Safety.MatchIndexSound` | hw2/src/consensus/node.cpp:260-267 | under G1 and G2, up to a follower's match index its log is the leader's while it is in the leader's term |
| `Safety.LeaderExtendsAdvertised` | hw2/src/consensus/node.cpp:467-477 | under G1, a leader's log is the log it asked for votes with, all of earlier terms, followed by entries of its own term |
| `Safety.WinnerKeepsAdvertised` | hw2/src/consensus/node.cpp:495-517 | under G1, at the step at which it becomes leader a node has exactly the log it asked with |
| `Safety.LeaderCompleteness` | hw2/src/consensus/node.cpp:202-212 | under G1, G2, G4, what a node knows to be committed is in the log of every leader of a later term, seen before or after |
| `Safety.StateMachineSafety` | hw2/src/consensus/node.cpp:390-418 | under G1, G2, G4, any two nodes at any two times agree on all indices both know to be committed |
| `Safety.CommitNeverGoesBack` | hw2/src/consensus/node.cpp:167-172 | under G1, G2, G4, no commit index ever goes back |
| `Safety.CommittedEntriesStay` | hw2/src/consensus/node.cpp:141-172 | under G1, G2, G4, no later step changes or removes an entry at or below the node's own commit index |
| `Safety.IndicesInRange` | hw2/src/consensus/node.cpp:223-237 | under all guards, log terms never decrease or exceed the current term, commit and match indices are in the log, and replication reads inside it |
| `Safety.RequestsCoverTheirCommit` | hw2/src/consensus/node.cpp:230-236 | under G1, G2, G4, every request in the network reaches at least its sender's commit index |
| `GuardsExact.OneVoteIffG1` | hw2/src/consensus/node.cpp:198-212 | at every moment of a run under G1 nobody has voted for two candidates of a term, and the next action keeps it so if and only if it obeys G1 |
| `GuardsExact.MatchedIffG2` | hw2/src/consensus/node.cpp:244-267 | at every moment of a run under G1 and G2 match indices are backed by confirmations of the leader's term, and the next action keeps them so if and only if it obeys G2, or the sender has confirmed the same index again in that term |
| `GuardsExact.InRangeIffG3` | hw2/src/consensus/node.cpp:252-258 | at every moment of a run under G1 to G3 next indices are in range, and the next action keeps them so if and only if it obeys G3 |
| `GuardsExact.G1IsExact` | hw2/src/consensus/node.cpp:198-212 | the step behind it, for any state that satisfies the invariant |
| `GuardsExact.G2IsExact` | hw2/src/consensus/node.cpp:244-267 | the step behind it, for any state that satisfies the invariants |
| `GuardsExact.G3IsExact` | hw2/src/consensus/node.cpp:252-258 | the step behind it, for any state that satisfies the invariants |
| `Elections.Elect` | hw2/src/consensus/node.cpp:183-215 | from any state on, under any guards, a node that does not lead wins the next term if a majority of earlier terms is no more up-to-date |
| `Necessity.ElectableWins` | hw2/src/consensus/node.cpp:202-212 | from any state on, under any guards, a node as up-to-date as a majority can win a term above any bound with the log it has |
| `Necessity.LackingIsLost` | hw2/src/consensus/node.cpp:394-403 | what such a node lacks of a commit index's entries, the leader of a later term lacks in some continuation of the run, under any guards |
| `Overwriting.LackingIsOverwritten` | hw2/src/consensus/node.cpp:252-267 | what such a node lacks of a commit index's entries, it overwrites in some continuation of the run, under any guards: it leads a later term and commits another entry at a committed index |
| `Overwriting.TeachAll` | hw2/src/consensus/node.cpp:217-267 | by offers that step back after each rejection, none of them at next index 1, a leader brings any nodes that follow it to confirm its whole log |
| `Necessity.ElectableHasCommitted` | hw2/src/consensus/node.cpp:202-212 | under G1, G2, G4, every node that does not lead and is as up-to-date as a majority holds all that any node knows to be committed |
| `Necessity.SecondLeader` | hw2/src/consensus/node.cpp:204-212 | without G1: in any state with a leader and a candidate of one term that a majority may still grant, some continuation has two leaders of the term |
| `CommitSpread.AcceptedIsCommitted` | hw2/src/consensus/node.cpp:167-172 | in runs under G1, G2, G4, a node that accepts a request from the network then has the larger of its own commit index and `leader_commit`, and one that rejects it keeps its own |
| `CommitSpread.LeaderHolds` | hw2/src/consensus/node.cpp:202-212 | under G1, G2, G4, a leader's log holds all that a node of no later term knows to be committed |
| `CommitSpread.FollowersCanCommit` | hw2/src/consensus/node.cpp:217-239 | under all guards, from any state of any run with a leader some continuation brings any nodes of no later term to the larger of their own and the leader's commit index, with the leader's entries |
| `Counterexamples.TwoLeadersInOneTerm` | hw2/src/consensus/node.cpp:506-508 | without G1: a run of three nodes that ends with two leaders of term 1 |
| `StaleReply.LeaderLacksCommitted` | hw2/src/consensus/node.cpp:241-268 | without G2: a run of five nodes in which a leader of term 4 lacks an entry committed in term 3 |
| `Counterexamples.NextIndexReachesZero` | hw2/src/consensus/node.cpp:252-258 | without G3: a run of three nodes after which a leader's replication would read before its log |
| `OldCommit.OlderIsLost` | hw2/src/consensus/node.cpp:394-403 | for any two terms u >= 1 and T >= u + 2, a run of three nodes under all guards, but for one commitment of an entry of term u by a leader of term T, after which two nodes have committed different commands at index 1 |
| `OldCommit.NextTermIsSafe` | hw2/src/consensus/node.cpp:394-403 | commitments of entries of the term right before the leader's keep state machine safety, at any two moments of any run under the other guards |
| `OldCommit.OldCommitIsExact` | hw2/src/consensus/node.cpp:394-403 | under the other guards, also allowing entries of term u to leaders of term T keeps state machine safety in all runs if and only if T <= u + 1 or u = 0 |
| `ClusterSize.StepKeepsVotes` | hw2/src/consensus/node.cpp:183-215 | with an even number of nodes every action, with no guard, keeps it so that only a node that has led a term can have voted against its first vote in it |
| `ClusterSize.EvenElectOne` | hw2/src/consensus/node.cpp:284-291 | with an even number of nodes and no guard, at most one node leads a term, at the same or at different times |
| `ClusterSize.OddElectTwo` | hw2/src/consensus/node.cpp:506-508 | without G1, for every set of nodes of odd size from three on, some run, under whatever other guards, ends with two leaders of term 1 |
| `ClusterSize.ElectsOneIff` | hw2/src/consensus/node.cpp:506-508 | for any nodes and any guards, all runs have at most one leader in each term if and only if G1 is among the guards or the number of nodes is even or at most 1 |
| `ClientFutures.RedirectAnswers` | hw2/src/consensus/node.cpp:113-123 | hearing from a leader answers exactly the queued futures, all with that leader's id, and leaves the others |
| `ClientFutures.CommitmentAnswers` | hw2/src/consensus/node.cpp:408-416 | commitment answers exactly the futures that wait in the committed range, all as persisted, and these wait no more |
| `Clients.AcceptWaits` | hw2/src/consensus/node.cpp:427-432 | each queued command's future waits at its own index, in order, and what waited elsewhere waits on |
| `ClientFutures.DeskActPreserves` | hw2/src/consensus/node.cpp:112-124 | no action loses or doubles a future of the node, or changes an answer |
| `ClientFutures.FuturesConserved` | hw2/src/consensus/node.cpp:407-432 | in every run, every issued future is at one node, in one of queue, waiting, answered and dropped; no guard |
| `ClientFutures.AnsweredOnce` | hw2/src/consensus/node.cpp:407-416 | in every run, an answer once given never changes; no guard |
| `SafeRetries.AppendedIff` | hw2/src/consensus/node.cpp:420-433 | at every moment of every run, with no guard, a future's command has been appended to a log if and only if it is neither queued nor redirected |
| `SafeRetries.RedirectedNeverAppended` | hw2/src/consensus/node.cpp:113-123 | the command of a future that is ever answered with another node's id is appended at no moment of the run, before or after; no guard |
| `ClientFutures.PersistedIsOwnCommand` | hw2/src/consensus/node.cpp:407-432 | under G1, a future answered persisted waited at an index now committed, and its command is there if and only if the entry there is of the term in which it was appended; so it is while that leadership lasts |
| `OutlivedPromise.PersistedIsAnothers` | hw2/src/consensus/node.cpp:486-493 | under all guards: a run of three nodes in which a future that waited for "x" is answered persisted while the committed entry at its index is "y" |
| `AcknowledgedWrites.DaysAreRun` | hw2/src/consensus/node.cpp:371-388 | the clusters of any days with clients form a run of the cluster |
| `AcknowledgedWrites.CommittedEverywhere` | hw2/src/consensus/node.cpp:390-418 | under G1, G2, G4, an entry that one node has committed at one time is what every node has there whenever it has committed that far |
| `AcknowledgedWrites.AcknowledgedWriteStays` | hw2/src/consensus/node.cpp:408-417 | under G1, G2, G4, once a future is answered persisted with its own entry in place, every node that has committed as far at any moment has that command there |
| `AcknowledgedWrites.AcknowledgedWriteIsRead` | hw2/src/worker/worker.cpp:55-82 | under G1, G2, G4, every replica that has applied as many commands reads the acknowledged value as long as no later command it applied writes the key |
| `AcknowledgedWrites.AcknowledgedWriteCanBeRead` | hw2/src/worker/worker.cpp:55-82 | under G1, G2, G4, a replica whose node has committed the acknowledged write and no later one to the key reads the value after enough calls, one for each hundred million commands it lacks, wherever it was before |
| `Storage.Store.Set` | hw2/src/common/storage.h:19-21 | the key reads as the new value and every other key as before |
| `Storage.WriteIsReadBack` | hw2/src/worker/worker.cpp:42-48 | the text of a command parses back to its key and value exactly when neither holds a blank and the key is not empty unless the value is |
| `Storage.ParseIsFirstTokens` | hw2/src/worker/worker.cpp:42-44 | any text reads as its first two tokens, blanks being skipped before each |
| `Replay.ReplayInSteps` | hw2/src/worker/worker.cpp:38-49 | replaying in two steps is replaying at once, for any writes |
| `Replay.ReplaySamePrefix` | hw2/src/worker/worker.cpp:38-49 | a replay depends only on the replayed prefix of the log |
| `Replay.LastWriteIsRead` | hw2/src/worker/worker.cpp:38-49 | after a replay a key holds the value of the last command that wrote it |
| `Replay.PresentWasWritten` | hw2/src/worker/worker.cpp:38-49 | a key that is present was written by some command, and one of these is the last |
| `Replay.WrittenPairIsHeld` | hw2/src/worker/worker.cpp:67-82 | a pair without blanks is in the map right after the command that `Write` made of it |
| `KeyValueStore.KeyValueStoreImpl.Apply` | hw2/src/worker/worker.cpp:38-49 | the loop applies each command once and in order, and counts it |
| `KeyValueStore.KeyValueStoreImpl.Fetch` | hw2/src/worker/worker.cpp:34-37 | the committed commands beyond those applied, in order, at most the number asked for |
| `KeyValueStore.KeyValueStoreImpl.ActualizeState` | hw2/src/worker/worker.cpp:32-50 | the map becomes the replay further on and `last_persisted_id_` the commit index, if it is at most a hundred million commands ahead, and otherwise exactly so much larger |
| `KeyValueStore.KeyValueStoreImpl.Read` | hw2/src/worker/worker.cpp:55-65 | the map is brought up to date and the value read from it, empty if the key is absent |
| `KeyValueStore.KeyValueStoreImpl.Write` | hw2/src/worker/worker.cpp:67-76 | the map is brought up to date and the joined command is queued at the node with its future |
| `KeyValueStore.KeyValueStoreImpl.WriteReply` | hw2/src/worker/worker.cpp:75-80 | once the promise is answered the client is told that the value is persisted, or which node may lead |
| `KeyValueStore.ActualizeAdvances` | hw2/src/worker/worker.cpp:34-41 | a call comes to the commit index, or a hundred million commands further if that is less |
| `KeyValueStore.CallsReach` | hw2/src/worker/worker.cpp:32-50 | under G1, G2, G4, n further calls at one moment bring the replica to the commit index or n times a hundred million commands further |
| `KeyValueStore.ReadIsLastCommitted` | hw2/src/worker/worker.cpp:55-65 | under G1, G2, G4, after enough calls, whatever came before, a key reads as the value of the last command its node has committed for it, and as empty if there is none |
| `KeyValueStore.CallsAreDefined` | hw2/src/consensus/node.cpp:356-366 | under G1, G2, G4, no call at any moment finds a commit index outside the log |
| `KeyValueStore.StoreIsReplay` | hw2/src/worker/worker.cpp:32-50 | under G1, G2, G4, after any calls at any moments the map is, then and later, the replay of its node's log up to `last_persisted_id_`, which never passes the commit index |
| `KeyValueStore.ReplicasAgree` | hw2/src/worker/worker.cpp:32-50 | under G1, G2, G4, two replicas equally far hold the same map, and otherwise the one ahead is the other one after the commands it lacks |
| `Integral.EvaluateIntegral` | hw1/src/common/integral.cpp:6-17 | fails exactly on an empty interval and gives no number exactly with no points; otherwise the loop stops after exactly `points` turns and yields the midpoint rule |
| `Integral.MidpointInside` | hw1/src/common/integral.cpp:12-12 | the loop's guard holds for exactly the first `points` midpoints |
| `Integral.RuleIsComposite` | hw1/src/common/integral.cpp:10-15 | for any function the rule adds up, over equal steps, the value at the middle times the width |
| `Integral.MidpointIsExact` | hw1/src/common/ut/integral_test.cpp:10-16 | on a linear function the midpoint rule gives the trapezoid value for any interval and any number of points |
| `Integral.ExactAdds` | hw1/src/common/ut/integral_test.cpp:14-16 | integrals over adjacent intervals add up |
| `AssignmentLaws.AssignAllKeeps` | hw1/src/leader/leader.cpp:205-214 | after assignment the workers hold what they held and exactly the new tasks, each once, the old ones still in front |
| `AssignmentLaws.LoadsStayLevel` | hw1/src/leader/leader.cpp:201-214 | for any loads and tasks, a worker that was given a task ends at most one above any other |
| `AssignmentLaws.AllWaitingInOrder` | hw1/src/leader/leader.cpp:191-196 | what waits is handed out by query and then by task |
| `AssignmentLaws.OrphansFollow` | hw1/src/leader/leader.cpp:170-176 | what removed workers had is taken over worker by worker, each list in its own order |
| `SchedulerInvariant.ResultKeepsInv` | hw1/src/leader/leader.cpp:256-261 | taking in a result keeps the scheduler's invariant |
| `SchedulerInvariant.DispatchKeepsInv` | hw1/src/leader/leader.cpp:272-290 | sending the front keeps it |
| `RoundStep.PutBackMoves` | hw1/src/leader/leader.cpp:181-186 | with no worker left exactly the orphans leave the tasks in progress and join the tasks to do |
| `RoundStep.SwapIsMove` | hw1/src/leader/leader.cpp:191-199 | since never both task sets are filled, swapping them puts everything in progress |
| `RoundStep.RemovalSplits` | hw1/src/leader/leader.cpp:169-179 | the kept lists and the orphans together are what the lists held, and apart |
| `RoundStep.RoundKeepsInv` | hw1/src/leader/leader.cpp:167-215 | a round of removal and reassignment keeps the invariant, with or without workers left |
| `RoundStep.RoundKeepsOthers` | hw1/src/leader/leader.cpp:169-179 | exactly the lost workers are gone after a round, and every other keeps what it had in front |
| `RoundStep.RoundKeepsTasks` | hw1/src/leader/leader.cpp:181-215 | every open task is in a worker's list after a round, or to do if no worker is left |
| `SchedulerRuns.NeverUndefined` | hw1/src/leader/leader.cpp:181-284 | no run comes to a step that would index the queries, or the slices of one, out of bounds, or erase from an empty list |
| `SchedulerRuns.TasksConserved` | hw1/src/leader/leader.cpp:169-215 | in every run, a task is in progress exactly when it has a place in some worker's list, and then it has one place; never are both sets of a query filled |
| `SchedulerRuns.AcceptedOnce` | hw1/src/leader/leader.cpp:256-261 | in every run, each task of a query is still open or its result has been accepted exactly once |
| `SchedulerRuns.FrontErasedIsFinished` | hw1/src/leader/leader.cpp:256-258 | in every run, an accepted result names the front of its sender's list, and erasing the front takes out that task and no other |
| `SchedulerRuns.RoundLeavesLoadsLevel` | hw1/src/leader/leader.cpp:188-215 | in every run, after a round a worker that was given a task has at most one more than any other |
| `SchedulerRuns.SlicesTile` | hw1/src/leader/leader.cpp:70-79 | the integrals of the first n slices add up to the integral up to where slice n begins |
| `SchedulerRuns.FinishedIsExact` | hw1/src/leader/leader.cpp:256-265 | in every run, a query with both sets empty holds the exact integral of 2x+5 over the bounds it was asked for, which are not empty |
| `SchedulerProgress.CanFinishIff` | hw1/src/leader/leader.cpp:87-290 | from any state of any run, some continuation finishes a query that has been asked if and only if its interval is not empty |
| `SchedulerProgress.TasksSpread` | hw1/src/leader/leader.cpp:205-214 | with at least as many idle workers as tasks, assignment gives none two |
| `OneWorker.EmptyBlocks` | hw1/src/leader/leader.cpp:272-284 | in every run with never more than one worker known, a query asked after an empty one gets no result: all its tasks stay open and its sum stays 0 |
| `OneWorker.CanFinishAloneIff` | hw1/src/leader/leader.cpp:188-290 | from any state of such a run, such a continuation finishes a query if and only if neither its interval nor any asked before it is empty |
| `SchedulerLeader.IntegralLeader.GetResult` | hw1/src/leader/leader.cpp:354-359 | the query is queued and 0 returned |
| `SchedulerLeader.IntegralLeader.CutInSlices` | hw1/src/leader/leader.cpp:70-80 | the loop makes a query of ten slices, all to do, that lie end to end from one bound to the other |
| `SchedulerLeader.IntegralLeader.TakeQueries` | hw1/src/leader/leader.cpp:63-82 | the queue is emptied and each of its queries follows the known ones, once and in order |
| `SchedulerLeader.IntegralLeader.AddWorkers` | hw1/src/leader/leader.cpp:87-131 | every worker found that was not known is known, with an empty list, and no other list changes |
| `SchedulerLeader.SortedUnique` | hw1/src/leader/leader.cpp:159-163 | the same ids, ascending and without repetition |
| `SchedulerLeader.IntegralLeader.WorkersToRemove` | hw1/src/leader/leader.cpp:153-163 | exactly the lost workers that are known, ascending |
| `SchedulerLeader.IntegralLeader.RemoveWorkers` | hw1/src/leader/leader.cpp:169-179 | these workers are gone, and their tasks are returned worker by worker |
| `SchedulerLeader.IntegralLeader.PutBackIfAlone` | hw1/src/leader/leader.cpp:181-186 | the tasks go back to their queries if no worker is left, and nothing changes otherwise |
| `SchedulerLeader.IntegralLeader.CollectWaiting` | hw1/src/leader/leader.cpp:191-199 | all waiting tasks follow the orphans, by query and id, and the sets are swapped where something waited |
| `SchedulerLeader.BeginIsLeast` | hw1/src/leader/leader.cpp:205-207 | the first pair of the set of loads is the least loaded worker, the smallest id among equals |
| `SchedulerLeader.IntegralLeader.ShareOut` | hw1/src/leader/leader.cpp:201-214 | each task in turn goes to the least loaded worker, the set of pairs following every change |
| `SchedulerLeader.IntegralLeader.Reassign` | hw1/src/leader/leader.cpp:153-215 | the whole stretch is one round of the scheduler's run: exactly the lost workers go, the others keep what they had in front, and every task that a worker had or that waited is in a worker's list, or to do if no worker is left |
| `SchedulerLeader.IntegralLeader.CloseConnection` | hw1/src/leader/leader.cpp:236-240 | the worker is noted for removal and nothing else changes |
| `SchedulerLeader.IntegralLeader.HandleResult` | hw1/src/leader/leader.cpp:256-267 | a result for a task in progress is added to its query and its task erased from the sender's list, any other changes nothing; a query is reported solved only with the exact integral over the bounds that were asked |
| `SchedulerLeader.IntegralLeader.SendTask` | hw1/src/leader/leader.cpp:272-290 | what is sent is the front of the list, a slice of the query it belongs to, and it stays in the list |
| `SchedulerLeader.IntegralLeader.PollSocket` | hw1/src/leader/leader.cpp:236-302 | the worker is noted for removal exactly on a hangup, a broken receive or a failed send of a task, and no other worker is; a reply is taken in; a message is sent exactly if the socket is writable and the list not empty |

## Left out

- OldCommitIsExact: the condition is on the terms a leader is allowed to commit, over all runs; whether one single commitment of an older entry does harm depends on messages still on their way.
- CanFinishIff: supposes that one more worker can be known at a time than there are open tasks, whatever the number of slots; with one worker at a time the answer is `CanFinishAloneIff`, and numbers in between are not modelled.
- MatchedIffG2: the half of the condition beside G2 speaks of what the follower has confirmed, which the leader cannot see.
- EvaluateIntegral: rounding of doubles.
- Fetch: the store's query is answered at once, where the source waits for the next tick to answer it.
- Tick: nothing is said of what follows once the source reads outside its log, because the commit index or a next index has left it; this is undefined in C++.
- Write: the wait for the promise; `WriteReply` is what the client is told once it is answered.
- Conversion to and from gRPC and protobuf messages, with its narrowing to 32 bits (hw2/src/worker/worker.cpp:98-254); delivery is the in-process sender.
- Timers, randomness and every claim that something will happen; expiry is a parameter, and what can still happen is stated as continuations of a run.
- Crashes and restarts: the source has no recovery code.
- Threads, mutexes and atomics; a handler or a phase of a tick is one step, and taking a queue is a snapshot.
- Linearizable reads: any node answers from its own committed prefix.
- 64-bit overflow of terms, log indices and counts other than `next_index`.
- Replication by a leader whose next index has left the log, which is undefined in C++, is not an action of the cluster.
- The order of packets on a channel: the network of the cluster is a set, which allows more runs than any channel.
- The flag `success` of a reply, which is set exactly when `matched_until` is.
- Sockets of the integral leader: slots and their number, descriptors, partial or merged reads, the text of numbers, discovery and heartbeats. A worker found without a free slot is one that is not found, and every connection is new.
- The check `ENSURE(wid != workers.size())` (hw1/src/leader/leader.cpp:234), which compares an id with the number of workers.
- Command-line tools, logging, `ToString`, `DumpState` and build files.
