# Proofs about a sharded Paxos store with two-phase commit

This project models the replicated bank of the repository: clusters that run Multi-Paxos over
a log of slots, two-phase commit between clusters with per-account locks and an undo WAL, the
client's retry machinery, resharding, and the benchmark generator's shard arithmetic. It proves
what these parts keep over whole runs, and where a promise of the design is not kept by the
code it says exactly when it is.

## How it is organised

| files | part of the system |
|---|---|
| `Types`, `Sums`, `Quorums` | ballots, requests, log entries; finite sums; quorum intersection |
| `LogMerge`, `Election`, `Promising` | view-change merge and no-op fill; every election and log handler as a function and as a method of `ElectionNode`; what the handlers promise, by their effects |
| `Consensus`, `LeaderCompleteness`, `OutcomeSurvival`, `NewViews` | one cluster as a step machine; what its runs guarantee for slots, for second-phase outcomes and for nodes that answer a NEW-VIEW |
| `Runs`, `ThreeNodes`, `SecondElection`, `PromisedAway`, `BrokenPromises` | runs written out: one with two elections that meets all premises; for every premise, one that breaks it alone and loses a slot acked by a quorum |
| `Execution`, `CatchUp`, `StableTerm` | balances, WAL, locks, in-order execution, both passes over the WAL (class `Executor`); catch-up replay; one leader's term with intra-shard requests |
| `Admission`, `TwoPhase`, `AtomicCommit`, `Locking`, `Conservation`, `Backups`, `WitnessRuns` | two-phase commit between any number of clusters and transfers: agreement, locks and undo, money, backups; two runs written out |
| `Rendezvous` | the meeting of the coordinator's first phase with the participant's reply, one lock scope at a time |
| `Intake`, `Proposals`, `Handles`, `Dedup` | client requests at a node (class `IntakeNode`): slots and answers, call handles, dedup set, timestamp index |
| `Leveling`, `Resharding`, `ShardMap`, `Workload` | when rounds of levelling end; `Reshard`, `MakeShardMap`, the generator |
| `Client` | in-flight map, timer heap, counter (class `PaxosClient`) |

Where the source changes fields in place, there is a class with the same fields. Each of its
methods is proved equal to a function or a relation on values, and the theorems speak of runs
of those, or say by their effects what the functions do. A run is any sequence of handler calls; messages stay in a set, so that they may be
lost, repeated and reordered. Runs are also written out in full. `SecondElection` meets every
premise of leader completeness with an election, a quorum ack, a second election and answers to
its NEW-VIEW; `WitnessRuns.TransferRunsThrough` meets those of the money theorems with one
transfer that commits and one that aborts.

## What the theorems assume

The code does not check some of what the protocols need. These gaps are not repaired in the
model; they are premises on a run, each named after the branch that lacks the check.

* Consensus (`Disciplined`): a promise counts only for the ballot its receiver asked for
  (`PromiseForAskedBallot`; HandlePromise compares no ballots); a NEW-VIEW is not below its
  receiver's promise (`ViewNotBelowPromise`; SetNewLeader may lower it); and a candidate that has
  meanwhile promised a higher ballot does not take the lead (`LoyalCandidate`; HandlePromise does
  not look at the promise). None can be spared: for each of them there is a run that breaks it
  alone and loses a slot that a quorum acked (`BrokenPromises.StalePromiseLosesSlot`,
  `BrokenPromises.LoweredPromiseLosesSlot`, `PromisedAway.PromisedAwayLeaderLosesSlot`). Nor is it
  enough that nobody proposes below its promise (`PromisedAway.InheritedSlotIsLost`). That a new
  round's ballot may lie below its owner's promise, as OnElectionTimeout allows, does no harm.
* Outcomes: an election keeps the outcome of a slot exactly if the candidate sees a decided copy
  (`OutcomeSurvival.OutcomeSurvivesIff`). Acks of the second phase do not guarantee that, since a
  backup that acks keeps its older entry (`OutcomeSurvival.AckedOutcomeIsLost`); a quorum of
  decided logs does, while the slot's entries carry one ballot
  (`OutcomeSurvival.OneBallotOutcomeSurvives`).
* Quorums: results that need two quorums to meet ask for an odd cluster size;
  `Quorums.QuorumsMeetIffOdd` shows that this is exactly the condition.
* Two-phase commit: `AtomicCommit` assumes nothing. For locks and WAL the exact condition on a
  step is `Locking.Harmless`: a cross-shard slot that executes passes its balance guard, and a
  slot whose second phase executes releases its own lock or a free one. In every run the
  discipline holds exactly as long as all steps are harmless (`Locking.GuardedWhileHarmless`).
  A_PART_COMMIT of a refused slot violates it if another slot holds the lock;
  `WitnessRuns.RefusedSlotFreesForeignLock` reaches such a step by an orderly run. For money the
  exact condition on a step is `Conservation.KeepsMoney`: besides the guard, no A_COORD that was
  applied before finds money in its account (`Conservation.MoneyIsConservedIff`).
* Reshard: clusters are numbered 0..k-1. The launcher's own map starts at 1, and
  `ShardMap.ShardMapFitsReshardIff` shows that it breaks this as soon as there are k items. The
  rebalancing loop does not always end. A cluster's stuck load is its load less its items without
  cross transactions, q the average load rounded down and r what is left over. The loop ends
  exactly if the total fits, or (`Leveling.Stops`) some cluster is stuck at q+2 or more, or r is 0
  and cluster 0 is stuck at q, or some cluster c is stuck above q and either c is 0 or 1 or at
  least r-1 clusters after it have a load above q. `Resharding.ReshardReturnsIff` states it for
  the input of `Reshard`; the methods take the number of rounds after which to stop looking.

Where code and comments disagree, the model follows the code. The comment at
src/paxos_node.cpp:1050 calls repeated second phases no-ops guarded by `executed_two_pc_`; no
code reads that set, and a repeated A_COORD empties the account. Lines 1187-1188 mean NO-OPs to
execute without effect, but line 1173 has already parsed their empty account names, so
execution ends in an exception (`CatchUp.NoOpThrows`).

## Model

| member | source | states |
|---|---|---|
| Types.BallotsAreLinear | src/paxos_node.h:26-46 | the lexicographic comparisons order ballots linearly |
| Quorums.QuorumsMeet | src/paxos_node.cpp:48 | with an odd cluster size two sets of f+1 nodes share a node |
| Quorums.QuorumsMeetIffOdd | src/paxos_node.cpp:43-48 | all quorums of f+1 nodes meet if and only if the cluster size is odd |
| LogMerge.MergeOneKeepsMerge | src/paxos_node.cpp:716-746 | one iteration of the merge loop extends the order-free description of a merge by one promised entry |
| LogMerge.MergeManyIsMerge | src/paxos_node.cpp:711-753 | whatever order promised entries come in, every slot ends with a copy that is highest by decidedness and then ballot, outcomes come from copies, and the slots are the union |
| LogMerge.MergeIsOrderIndependent | src/paxos_node.cpp:700-753 | two merges of the same logs agree on slots, ballots, requests and outcomes, if equal-ranking copies agree on the request and decided ones on the outcome |
| LogMerge.MergeIsUnique | src/paxos_node.cpp:700-753 | they are the same log if equal-ranking copies are identical |
| LogMerge.StatusIsOrderIndependentIff | src/paxos_node.cpp:724-732 | the status of a slot is the same for every order of the promises if and only if the leader's own copy is a top copy or all top copies agree on the status |
| LogMerge.DecidedSurvivesMerge | src/paxos_node.cpp:700-704 | a decided copy is never lost to an undecided one; if it came in a promise the slot ends with a phase2_result, the agreed one |
| LogMerge.MergedComesFromCopy | src/paxos_node.cpp:724-732 | merging invents no ballot, request or slot number |
| LogMerge.PromisedEntryWinsIff | src/paxos_node.cpp:722-746 | a promised entry replaces the held one exactly if it alone is decided, or neither or both are and its ballot is higher; the winner's outcome goes before the promised one and that before its own status |
| Election.NewViewShipsInOrder | src/paxos_node.cpp:1661-1667 | a NEW-VIEW of a log without holes lists the slots 1, 2, 3, ... in order |
| Election.ElectionNode.OnPrepare | src/paxos_node.cpp:519-592 | Prepare handling in place equals its function: promise, demotion, immediate, delayed or refused answer with the log's entries; in_election_ is set and a demotion clears leader_id_, pending entries and ack counts |
| Election.ElectionNode.OnTimeout | src/paxos_node.cpp:1822-1865 | the timeout sends a delayed promise and, after the cooldown, opens a round with the next counter, in_election_ set, and a self-promise that never lowers the promised ballot |
| Election.ElectionNode.MergeAcceptLogsFromPromises | src/paxos_node.cpp:692-759 | the nested loops, in any order of senders, leave a merge of own and promised logs and its highest slot as last_seqnum_ |
| Election.ElectionNode.FillMissingNoOps | src/paxos_node.cpp:792-816 | exactly the holes of 1..last_seqnum_ get no-ops at the candidate's ballot; held slots are untouched |
| Election.ElectionNode.OnPromise | src/paxos_node.cpp:646-690 | a promise counts once per sender while waiting; on f+1 the node merges, fills and leads, otherwise only the count changes |
| Election.ElectionNode.TakeLead | src/paxos_node.cpp:679-687 | merge, fill, lead, ship: the node is elected with a merge of the logs, leader_id_ is its own, the NEW-VIEW is recorded and the election closed |
| Election.CountOwnIs | src/paxos_node.cpp:1669-1676 | a new leader counts itself for exactly the held slots of 1..last_seqnum_ at its own counter |
| Election.ElectionNode.OnAccept | src/paxos_node.cpp:853-925 | an Accept below the promise is refused; otherwise it is acked and stored in pending_entries_, an existing log entry stays, and a higher ballot demotes and is adopted |
| Election.ElectionNode.OnNewView | src/paxos_node.cpp:1419-1541 | a NEW-VIEW is recorded, replaces ballot and leader unconditionally at a backup, ends the election, leaves in each slot the copy of greatest counter (NewViews.NewViewTakesGreatest), notes in_new_view_ and its last slot unless empty, and is acked unless ignored |
| Election.ElectionNode.SendNewView | src/paxos_node.cpp:1653-1698 | the message lists the held slots of 1..last_seqnum_, is recorded, the leader counts itself for each of them, and max_seqnum_in_new_view_ becomes last_seqnum_ if the cluster has another node |
| Election.ElectionNode.LogProposal | src/paxos_node.cpp:474-493 | the proposal takes the next slot in log and pending_entries_ at the current ballot, and the leader counts itself for it |
| Promising.PrepareRaisesPromise | src/paxos_node.cpp:519-592 | a Prepare is refused exactly if its ballot is not above the promise; else it is granted at once after the cooldown and waits otherwise, and a leader steps down |
| Promising.TimeoutAnswersLastPrepare | src/paxos_node.cpp:1822-1865 | of any Prepares heard during the cooldown, the next timeout answers the last one, exactly if its ballot is above all others and the old promise |
| Promising.TimeoutOpensRound | src/paxos_node.cpp:1822-1865 | a timeout does nothing at a leader; at a backup it sends the waiting promise and after the cooldown asks for the next ballot without lowering the promise |
| Promising.AcceptStoresOnce | src/paxos_node.cpp:832-925 | an Accept is refused exactly below the promise unless it makes a leader step down; an acked one fills only an empty slot and a higher ballot is adopted |
| Promising.AckedEntryWaitsForCommit | src/paxos_node.cpp:832-925 | every acked entry enters pending_entries_, also one that the log does not take; a leader that steps down starts with none and without ack counts |
| Promising.SteppingDownForgets | src/paxos_node.cpp:2047-2092 | stepping down forgets the leader, what waits for commit and the ack counts, and nothing else |
| Promising.LeaderClosesElection | src/paxos_node.cpp:1641-1703 | the new leader closes the election, names itself, records its NEW-VIEW and keeps what waits for commit |
| Promising.FollowerClosesElection | src/paxos_node.cpp:1419-1516 | a NEW-VIEW is recorded even when ignored; otherwise it closes the election, names the leader and, unless empty, marks the view with its last slot |
| NewViews.NewViewTakesGreatest | src/paxos_node.cpp:1461-1506 | after a NEW-VIEW that is not ignored each slot holds a copy of greatest ballot counter among the own entry and the shipped ones, the own one on a tie and else the first shipped one |
| Consensus.RunKeepsInv | src/paxos_node.cpp:519-925 | in every disciplined run of Prepare, Promise, Accept, NEW-VIEW with its acks and the winner's own counts, proposals, second-phase rewrites and demotions, all logs copy created entries and every winner's quorum covers what was acked or held before it promised |
| LeaderCompleteness.AckedSlotSurvives | src/paxos_node.cpp:657-686 | over any number of view changes, a slot that f+1 nodes ever acked at a ballot, by Accept, by NEW-VIEW or as its leader, is in the merged log of every leader elected at a higher one |
| LeaderCompleteness.LeaderIsComplete | src/paxos_node.cpp:646-759 | leader completeness: while one ballot alone has proposed, its acked slots are in every later leader's merged log with its request |
| LeaderCompleteness.HeldSlotSurvives | src/paxos_node.cpp:657-686 | a slot held by f+1 nodes when a round starts is in the winner's log and never filled; the winner's log is exactly 1..last_seqnum_ |
| LeaderCompleteness.LeaderNumbersAreFresh | src/paxos_node.cpp:474-493 | while a node leads its log is exactly 1..last_seqnum_, so the next number is free, and every NEW-VIEW ships slots in order |
| SecondElection.SecondLeaderHasSlot | src/paxos_node.cpp:1518-1540 | a whole disciplined run: a slot acked by a quorum at B1 is in the log of the leader elected at B3 and acked by a quorum again in answer to its NEW-VIEW |
| PromisedAway.PromisedAwayLeaderLosesSlot | src/paxos_node.cpp:651-677 | LoyalCandidate is needed: a run that breaks it alone elects a leader whose log lacks a slot acked by a quorum at a lower ballot |
| PromisedAway.InheritedSlotIsLost | src/paxos_node.cpp:1669-1676 | a premise about proposals cannot replace it: a run in which nobody proposes below its promise loses an inherited slot that a quorum acked in the new view |
| BrokenPromises.LoweredPromiseLosesSlot | src/paxos_node.cpp:1461-1477 | ViewNotBelowPromise is needed: a NEW-VIEW takes a backup back below its promise, and a run that breaks nothing else loses an acked slot |
| BrokenPromises.StalePromiseLosesSlot | src/paxos_node.cpp:646-664 | PromiseForAskedBallot is needed: a promise for an earlier ballot is counted, and a run that breaks nothing else loses an acked slot |
| OutcomeSurvival.OutcomeSurvivesIff | src/paxos_node.cpp:700-746 | at every election the outcome of a slot survives into the leader's log if and only if its own log or a received promise holds a decided copy |
| OutcomeSurvival.OneBallotOutcomeSurvives | src/paxos_node.cpp:700-746 | in every disciplined run, while all entries of a slot carry one ballot, an outcome that f+1 logs hold when a round begins is in the merged log of whoever wins that round, over any steps and elections in between |
| OutcomeSurvival.HeldOutcomeSurvives | src/paxos_node.cpp:700-746 | leader completeness for outcomes: while one ballot alone has proposed and a quorum acked the slot there, an outcome that f+1 logs hold when a round begins is in the merged log of whoever wins that round |
| OutcomeSurvival.AckedOutcomeIsLost | src/paxos_node.cpp:904-914 | a disciplined run in which quorums acked the slot and its outcome, and the next leader merges the slot undecided, because a backup that acks keeps its older entry |
| NewViews.AnsweredViewIsHeld | src/paxos_node.cpp:1490-1540 | in every disciplined run, whoever answers a NEW-VIEW acks its slots and, until it wins an election itself, holds in each an entry whose ballot counter is at least the shipped one |
| Execution.Executor.Execute | src/paxos_node.cpp:1171-1273 | first-phase execution in place equals ExecuteTransaction in every branch: failed guard, refused, intra-shard, participant, coordinator |
| Execution.Executor.ExecuteSecondPhase | src/paxos_node.cpp:2572-2664 | the outcome is recorded once, then commit, undo and unlock as ExecuteRepeated says, including the default WAL entry of a coordinator abort |
| Execution.Executor.SequentiallyExecuteCommittedEntries | src/paxos_node.cpp:1017-1065 | the loop terminates and executes exactly the committed slots that follow without a gap, each with the outcome that its log entry records (CatchUp.DecidedSlotIsCarriedOut, CatchUp.CatchUpRefines) |
| Execution.Executor.HandleCommit | src/paxos_node.cpp:1341-1379 | a Commit is remembered once; then a second phase is applied (Backups.CommitResolvesDoubt), or the execute loop runs if the slot is next |
| Execution.Executor.CommitEntry | src/paxos_node.cpp:990-1015 | the leader's commit is remembered once, executed if next, otherwise its second phase runs |
| Execution.SuccessIff | src/paxos_node.cpp:1171-1273 | the reply of a first phase says success exactly if the balance covers the amount and the participant had its lock |
| Backups.CommitResolvesDoubt | src/paxos_node.cpp:2572-2664 | at a slot in doubt, a second-phase Commit at a backup, or its quorum at the leader, removes the WAL entry, frees the own lock, writes the outcome into an entry without one, and leaves the balance on commit and restores before_value on abort |
| Backups.FirstOutcomeStays | src/paxos_node.cpp:2588-2597 | a slot's first outcome is written to its log entry and no later one replaces it |
| Backups.NextSlotRunsLoop | src/paxos_node.cpp:990-1015 | a quorum of either phase at the leader's next slot runs the execute loop and no second phase |
| Backups.AbortTakesBackIff | src/paxos_node.cpp:2599-2660 | an abort at a backup takes back exactly the slot's delta if and only if the account still shows after_value when the Commit arrives |
| Execution.DrainEnds | src/paxos_node.cpp:1020-1034 | the execute loop stops only at a missing slot or at the exception of a NO-OP |
| Execution.RepeatedCommitIsSilent | src/paxos_node.cpp:1358-1378 | a repeated first-phase Commit changes nothing |
| Execution.RepeatedSecondPhaseIsSilentIff | src/paxos_node.cpp:2599-2664 | an immediately repeated second phase changes nothing if and only if it is no A_COORD or the account is empty |
| Execution.Executor.ReconcileOnDemotion | src/paxos_node.cpp:2094-2132 | in any entry order the loop keeps the committed view of every account, leaves exactly the in-flight WAL entries, and frees the locks of all entries not committed |
| Execution.Executor.ReconcileOnElection | src/paxos_node.cpp:1882-1922 | the loop empties the WAL; with in-flight entries alone on their accounts, all balances equal the committed view if and only if those accounts still held after_value |
| CatchUp.SlotReplay | src/paxos_node.cpp:1047-1064 | replaying a decided slot leaves no WAL entry and applies or skips the transfer as decided, if and only if the stated guard condition holds |
| CatchUp.DecidedSlotIsCarriedOut | src/paxos_node.cpp:1047-1064 | the next slot of a lagging replica whose log entry says C_COORD or C ends with the transfer applied, one that says A_COORD or A_PART_COMMIT with the balances as before; no WAL entry is left and the own lock is free |
| CatchUp.CatchUpFreesLocks | src/paxos_node.cpp:1047-1064 | replaying a contiguous run of decided slots takes no lock and gives back those of all its slots |
| CatchUp.CatchUpRefines | src/paxos_node.cpp:1017-1065 | replaying a contiguous run of decided slots gives the balances of applying the transfers whose recorded phase2_result commits and skipping the others |
| CatchUp.GuardedRunIsExact | src/paxos_node.cpp:1190-1203 | first-phase statuses and passing balance guards suffice for that |
| CatchUp.DrainThrowsIff | src/paxos_node.cpp:1171-1188 | the execute loop ends in an exception if and only if a NO-OP is committed with no gap before it, and then in the slot of the first one |
| CatchUp.NoOpThrows | src/paxos_node.cpp:1171-1188 | a NO-OP in the next slot stops the loop there with nothing else changed |
| StableTerm.TransfersKeepMoney | src/paxos_node.cpp:1190-1216 | intra-shard transfers keep the total, and non-negative balances for non-negative amounts |
| StableTerm.RunKeepsInv | src/paxos_node.cpp:474-493 | in every run of one leader's term, logs and commits agree with the proposals and counted acks are held |
| StableTerm.ReplicasExecutePrefix | src/paxos_node.cpp:946-1048 | every replica has executed slots 1..last once each, its balances are those of a prefix of the proposals, equal progress means equal balances, money is conserved |
| StableTerm.ExecutedSlotsAreChosen | src/paxos_node.cpp:1588-1635 | whatever any replica executed is in the accept logs of a quorum |
| StableTerm.AckTally.HandleAccept | src/paxos_node.cpp:1588-1630 | acks are counted per slot and counter, and a commit is due when a count stands at f+1, guarded against repetition in the first phase only |
| StableTerm.CountStandsAtQuorumIff | src/paxos_node.cpp:1594-1600 | an ack leaves a count at f+1 if and only if it completes it or repeats one of exactly f+1; so a repeated second-phase ack commits again |
| StableTerm.RequestIsProposedIff | src/paxos_node.cpp:346-503 | a request is proposed exactly if its timestamp is new and both accounts are free and different, in the next slot, with both locks and the leader's count |
| StableTerm.AcceptIsHeldAndAcked | src/paxos_node.cpp:904-925 | a backup that hears of a slot acks it and holds the proposed request there, unless it had an entry already |
| StableTerm.AckStepRunsHandlers | src/paxos_node.cpp:1610-1635 | the run's Ack step is the tally followed by CommitEntry |
| StableTerm.CommitStepRunsHandler | src/paxos_node.cpp:1341-1379 | the run's Commit step is HandleCommit |
| TwoPhase.RunKeepsInv | src/paxos_node.cpp:2374-2570 | over any interleaving of any number of transfers: one slot per timestamp under the right index, replies follow the participant's execution, decisions repeat a reply after the coordinator's execution, second phases carry out decisions |
| AtomicCommit.NoOppositeOutcomes | src/paxos_node.cpp:2474-2553 | in no run are opposite outcomes applied for one timestamp, by two clusters or twice by one |
| AtomicCommit.OutcomeIsTheVote | src/paxos_node.cpp:2431-2472 | whenever an outcome is applied the coordinator has executed its COORD slot, and it is a commit if and only if the participant executed a P slot, an abort if and only if an A slot |
| Locking.RunKeepsGuarded | src/paxos_node.cpp:356-432 | in every harmless run, at every leader: unfinished slots hold disjoint sets of locks, every held lock has its slot, the WAL holds exactly the slots in doubt, and their accounts still show after_value |
| Locking.StepKeepsGuardedIff | src/paxos_node.cpp:2599-2664 | a step keeps that if and only if it is harmless: guards of cross-shard slots pass, and no second phase frees a lock that another slot holds |
| Locking.GuardedWhileHarmless | src/paxos_node.cpp:1191-1203 | in every run it holds up to a moment if and only if all steps before were harmless |
| Locking.RefusedSlotKeepsLocksIff | src/paxos_node.cpp:2645-2662 | A_PART_COMMIT of a refused slot keeps it if and only if nobody holds the account's lock |
| WitnessRuns.RefusedSlotFreesForeignLock | src/paxos_node.cpp:2645-2662 | after an orderly run that is written out, that step frees the lock of a slot in doubt |
| Locking.UndoGivesBackTheDebit | src/paxos_node.cpp:2599-2615 | restoring before_value on A_COORD equals giving back the debit and changes nothing else |
| Locking.ElectionPassIsSafe | src/paxos_node.cpp:1883-1921 | a leader's WAL always meets the premises under which OnElectionComplete's pass restores the committed view |
| Locking.SecondPhaseIsStable | src/paxos_node.cpp:2508-2553 | a leader that starts the second phase of a slot twice writes the same status |
| Backups.BackupsMirrorLeader | src/paxos_node.cpp:1341-1379 | in every two-phase-commit run, a backup that handles its leader's Commits of both phases in the leader's order has at every moment the leader's balances, WAL and executed slots, and the outcome of every applied slot in its log |
| Conservation.MoneyIsConserved | src/paxos_node.cpp:1190-1251 | in every orderly run, with each account read at its own cluster's leader, total money is at every moment the initial total plus the transfers applied on one side only |
| Conservation.StepKeepsBalanceIff | src/paxos_node.cpp:1190-1251 | with locks and WAL in order, a step keeps that if and only if no guard of a non-zero cross-shard slot fails and no A_COORD undoes a second time an account that holds money |
| Conservation.MoneyIsConservedIff | src/paxos_node.cpp:2599-2615 | in every harmless run it holds up to a moment if and only if no A_COORD before undid a second time |
| Conservation.SettledIsEven | src/paxos_node.cpp:2599-2664 | once the coordinator has applied its second phase a transfer is on both sides or on neither |
| Conservation.NothingUnfinishedNothingMissing | src/paxos_node.cpp:2572-2664 | when every started cross-shard transfer is settled the total is the initial one |
| Conservation.CommittedPairKeepsMoney | src/paxos_node.cpp:1190-1203 | a committed pair of slots conserves money if and only if both clusters' balance guards agree or the amount is zero |
| Conservation.AbortedSlotKeepsMoney | src/paxos_node.cpp:2604-2613 | an aborted coordinator slot gives its account back if and only if its guard had passed or the account was empty |
| WitnessRuns.TransferRunsThrough | src/paxos_node.cpp:402-454 | a whole orderly run of two cross-shard transfers to one account: one commits, the other is refused and aborts, and locks and WALs end empty |
| Rendezvous.StartedOnceIff | src/paxos_node.cpp:2443-2464 | with each lock scope one step, phase 2 is started exactly once if and only if replies came only before the slot executed, or exactly once after and never before |
| Rendezvous.OneReplyStartsOnce | src/paxos_node.cpp:1112-1136 | with one reply phase 2 never starts twice, and has started as soon as both sides are through |
| Rendezvous.RepeatedReplyStartsTwice | src/paxos_node.cpp:1263-1266 | a reply repeated between the two scopes of the executing thread starts phase 2 twice |
| Rendezvous.RepliesAreCarried | src/paxos_node.cpp:2443-2464 | in every run the queue holds the latest reply that came before the slot executed, unchanged, and the decisions started or about to be are the later replies and the one taken from the queue, each as often as it came |
| Rendezvous.EveryDecisionCame | src/paxos_node.cpp:2443-2464 | whatever is queued, held or decided for a timestamp is a reply that came, with its own verdict |
| Rendezvous.ReplyStepDelivers | src/paxos_node.cpp:2443-2464 | a reply in the two-phase-commit runs does to queue, log and decisions what it does at the desk |
| Rendezvous.StartWritesOneSlot | src/paxos_node.cpp:2508-2553 | phase 2 writes C_COORD, A_COORD, C or A_PART_COMMIT by role and verdict into one slot and changes nothing else of the log |
| Rendezvous.SecondPhaseDesk.StartSecondPhase | src/paxos_node.cpp:2474-2570 | only the coordinator sends the decision; the slot named by the index gets the status of its role |
| Rendezvous.SecondPhaseDesk.HandlePreparedAndAborted | src/paxos_node.cpp:2431-2472 | at the coordinator a reply starts phase 2 or waits unchanged in the queue, depending on execution; at the participant a decision always starts it |
| Rendezvous.SecondPhaseDesk.TakeWaitingReply | src/paxos_node.cpp:1112-1127 | the executing thread takes the waiting reply out, once |
| Intake.IntakeNode.HandleClientRequest | src/paxos_node.cpp:176-215 | dead, first-request, no-leader and normal cases: respond, queue or process |
| Intake.IntakeNode.ProcessClientRequest | src/paxos_node.cpp:217-516 | every rejection branch responds and leaves locks as they were; a backup that takes itself for its leader aborts the process; an admitted request gets the next slot with the status of its role, its locks, its dedup and index entries (Proposals.SlotIffFree, Proposals.OthersAreAnswered) |
| Intake.IntakeNode.TryLocks | src/paxos_node.cpp:346-432 | the try-locks keep none on rejection, and a participant is admitted with status P or A |
| Intake.IntakeNode.OnElectionComplete | src/paxos_node.cpp:1924-1936 | with a known leader the whole queue is taken and processed in order |
| Intake.IntakeNode.OnExecuted | src/paxos_node.cpp:1067-1149 | the handle of an executed slot of this term leaves the map and is responded to; the reply cache is updated in the reply branches |
| Intake.IntakeNode.DemoteToBackup | src/paxos_node.cpp:2047-2082 | every pending call is responded to once, in any order, and the map emptied |
| Intake.IntakeNode.HandleMoveOn | src/paxos_node.cpp:2312-2352 | pending calls and then the queue are responded to and emptied, and the locks of pending intra-shard transfers freed |
| Intake.IntakeNode.ResetNode | src/paxos_node.cpp:2826-2887 | Reset responds to pending calls and clears log and index, but keeps queue, locks, reply cache and dedup set |
| Intake.IntakeNode.SeedFromLog | src/paxos_node.cpp:761-788 | afterwards the index names the last slot of every timestamp in the log, and the dedup set has gained exactly those with a slot that is not an unresolved COORD or P |
| Proposals.SlotIffFree | src/paxos_node.cpp:346-503 | the book changes exactly for a new write at a leader whose locks are free, or a PREPARE: the next slot holds the request at the leader's ballot, COORD across shards, empty within one, P or A for a PREPARE whose account was free or busy, and locks grow by the accounts of that role |
| Proposals.OthersAreAnswered | src/paxos_node.cpp:217-345 | every other request is responded to, unless a backup cannot forward it; the first read of a timestamp enters the reply cache |
| Proposals.WaitingAdmitsNothing | src/paxos_node.cpp:176-215 | before the first election, during one, or without a leader a call is queued behind the others and nothing is admitted |
| Proposals.RunsProposeAlike | src/paxos_node.cpp:346-503 | a request or PREPARE changes a node's book as the step of the two-phase-commit runs changes its leader |
| Proposals.ElectionServesInOrder | src/paxos_node.cpp:1924-1936 | when an election ends, the queued calls that get slots get them in the order in which they came |
| Proposals.ExecutedCallIsReleased | src/paxos_node.cpp:1067-1149 | the call of an executed slot of this term is released, and only a final result of a live node enters the reply cache |
| Proposals.RepetitionIsAnswered | src/paxos_node.cpp:253-275 | once its final result is out, a leader answers every repetition from the cache, without slot or lock |
| Proposals.SecondResponseIsNoticed | src/paxos_node.cpp:476-485 | the model notices every response to a handle that already has one |
| Proposals.MoveOnFreesBothAccounts | src/paxos_node.cpp:2312-2352 | MoveOn frees exactly both accounts of each pending transfer within a shard |
| Proposals.SeedingClosesTheRest | src/paxos_node.cpp:761-788 | after seeding the dedup set has gained exactly the timestamps of inherited slots that are not COORD or P without an outcome |
| Proposals.RetryGetsSlotIff | src/paxos_node.cpp:764-785 | a retry at the new leader gets a slot exactly if its locks are free and every inherited slot of its timestamp is COORD or P without an outcome |
| Handles.StepKeepsOk | src/paxos_node.cpp:176-297 | each handler takes over the new handle and nothing else; the process aborts at line 243 if and only if a backup that takes itself for its leader handles a request |
| Handles.EveryHandleInOnePlace | src/paxos_node.cpp:476-485 | in every run, every handle that came in is queued once, pending once or responded to, never two of these; none is responded to twice, and none is forgotten unless the process aborted |
| Handles.NeverAborts | src/paxos_node.cpp:240-244 | the abort is never reached while no message names the node itself as the leader to follow |
| Dedup.SeedingIndexesTheLog | src/paxos_node.cpp:772-782 | after seeding the index names the right slot for every timestamp in the merged log |
| Dedup.SeedingCleansTheIndexIff | src/paxos_node.cpp:778-782 | no index entry is wrong after seeding if and only if every timestamp known before is still in the merged log |
| Dedup.SecondSlotOnlyForUnresolved | src/paxos_node.cpp:461-503 | in a leader's term a timestamp gets a second slot only if its inherited slot is an unresolved COORD or P, and then exactly one |
| Dedup.IndexStaysRight | src/paxos_node.cpp:2511-2553 | proposals and second-phase rewrites keep the index right for every timestamp in the log |
| Resharding.CountLoads | src/node_launch.cpp:131-142 | each load is the number of transaction ends in the cluster |
| Resharding.CountCross | src/node_launch.cpp:143-153 | each cross count is the number of cross-cluster transactions the item takes part in |
| Resharding.CrossCountsTransactions | src/node_launch.cpp:143-153 | the cross count of an item is the size of the set of transactions that cross clusters and name it |
| Resharding.LoadCountsEnds | src/node_launch.cpp:131-142 | the load of a cluster is the number of transactions sent from it plus that of transactions received in it |
| Resharding.MaxSizeIsAboveAverage | src/node_launch.cpp:155-157 | max_size is 1.3 times the rounded-down average, rounded down |
| Resharding.MoveForJoins | src/node_launch.cpp:160-181 | after its turn a transaction's items share a cluster if and only if they did or there was room; otherwise nothing moves |
| Resharding.LessCrossedItemMoves | src/node_launch.cpp:170-180 | the item with fewer cross transactions, on a tie the receiver's, moves to the other's cluster with one unit of load whenever there is room; if there is none the receiver's moves to the sender's |
| Resharding.JoinGoesInOrder | src/node_launch.cpp:159-182 | the transactions are decided from the first to the last, each on what the earlier ones left |
| Resharding.JoiningIsBounded | src/node_launch.cpp:159-182 | in phase 4 loads change as item counts do, total and items are kept, no load becomes negative or exceeds the larger of its initial value and max_size |
| Resharding.JoinPairs | src/node_launch.cpp:159-182 | the loop is the fold, from the first transaction to the last, of the greedy decision that LessCrossedItemMoves and MoveForJoins describe |
| Resharding.Extremes | src/node_launch.cpp:188-189 | the first emptiest and the first fullest cluster |
| Resharding.RebalanceOnce | src/node_launch.cpp:186-207 | a round moves an item without cross transactions from an overfull fullest cluster to the emptiest, or changes nothing and the loop's result holds |
| Resharding.RoundLowersSquares | src/node_launch.cpp:200-205 | if the total fits, a round lowers the sum of squared loads and lifts no load above the larger of its initial value and max_size |
| Resharding.Rebalance | src/node_launch.cpp:184-207 | after any number of rounds: loads follow item counts, none is negative, no item with cross transactions has moved; if the loop ended all loads are within max_size or the first fullest cluster has no zero-cross item; it ends if and only if the total fits or the stopping condition holds, and then within the sum of squared loads and one |
| Resharding.OverfullNeverFits | src/node_launch.cpp:191-206 | if the total does not fit some cluster always exceeds max_size |
| Resharding.RoundRepeatsIff | src/node_launch.cpp:188-204 | a round reproduces its own state if and only if all loads are equal |
| Leveling.RoundKeepsStops | src/node_launch.cpp:188-205 | whether the levelling comes to a cluster that can give nothing does not change from round to round |
| Leveling.BlockedStops | src/node_launch.cpp:191-206 | a first fullest cluster with nothing to give meets the stopping condition |
| Leveling.StoppingRoundFalls | src/node_launch.cpp:200-205 | while the condition holds every round lowers a measure: the sum of squared loads, plus one while cluster 0 is above the average |
| Leveling.StopsByCases | src/node_launch.cpp:188-206 | the condition by cases: with equal averages one stuck cluster above it or cluster 0 at it; otherwise never without a cluster stuck above the average and always with one stuck two above |
| Leveling.FewStuckNeverStop | src/node_launch.cpp:184-207 | if the total does not fit and no cluster is stuck above max_size it fails |
| Resharding.LoopEndsIff | src/node_launch.cpp:184-207 | the number of rounds from a state is bounded if and only if the total fits or the stopping condition holds |
| Resharding.RoundsNeverEnd | src/node_launch.cpp:184-207 | otherwise no run of rounds, whatever items it moves, comes to a state in which the loop ends |
| Resharding.ReshardReturnsIff | src/node_launch.cpp:123-210 | for transactions and a mapping, Reshard's loop is bounded if and only if the transaction ends fit or the loads after phase 4 meet the condition |
| Resharding.ReadsNeverReturn | src/node_launch.cpp:131-207 | a class of inputs on which Reshard never returns: more reads than fit, and no cluster with more of them than max_size and its items together |
| Resharding.OverfullReadsNeverReturn | src/node_launch.cpp:131-207 | an instance: loads 3 and 2, with different fullest and emptiest clusters |
| Resharding.Reshard | src/node_launch.cpp:123-210 | the whole function for any total: same items, loads non-negative with the same total and within bounds if the total fits, balanced or stuck as above once ended, items of cross transactions where phase 4 put them; it ends if and only if Returns holds |
| ShardMap.MakeShardMap | src/node_launch.cpp:427-447 | every cluster owns exactly its block of consecutive items, and the blocks cover 1..N |
| ShardMap.ShardMapIsContiguous | src/node_launch.cpp:434-444 | clusters are 1..k, non-decreasing along the items, with sizes that differ by at most one |
| ShardMap.ShardMapFitsReshardIff | src/node_launch.cpp:435-441 | the map meets Reshard's cluster numbering if and only if there are fewer items than clusters |
| ShardMap.ShardsAgreeIff | src/benchmark.h:129-133 | getShard+1 equals the map on every item if and only if N mod k is 0 or k-1, or N is below k |
| Workload.FoldIsTheReflection | src/benchmark.h:43-48 | the fold is the only value of 0..N-1 congruent to the start or its negation modulo 2(N-1) |
| Workload.ReflectEdges | src/benchmark.h:43-48 | for N at least 2 the reflection loop terminates from any start with the fold |
| Workload.OneAccountEndsIff | src/benchmark.h:44-47 | for N = 1 it ends only from 0 |
| Workload.ChooseAccount | src/benchmark.h:52-74 | every draw is an account of 1..N |
| Workload.DrawDestination | src/benchmark.h:150-173 | the destination is in range and in another shard if crossing is forced and possible, or the source itself; in the source's shard otherwise |
| Workload.RemoveSelfTransfers | src/benchmark.h:221-224 | self-transfers are removed and the rest kept in order |
| Workload.SurvivorsAreTheOthers | src/benchmark.h:221-224 | the survivors are exactly the reads and the writes between two accounts, in their order |
| Workload.GenerateTxns | src/benchmark.h:112-226 | every surviving write has distinct accounts in range and an amount of 1..5, and crosses shards if and only if that was forced and there are two shards |
| Client.PaxosClient.SendRequest | src/paxos_client.cpp:120-143 | a request enters the map and the heap, due at once |
| Client.PaxosClient.CollectDue | src/paxos_client.cpp:86-97 | a pass collects exactly the expired uncompleted requests, once each, marks first sends, reschedules them, and keeps every uncompleted request in the heap once |
| Client.PaxosClient.DispatchNext | src/paxos_client.cpp:106-115 | a collected request is dropped if completed, else sent to the leader the first time and broadcast afterwards |
| Client.DispatchSendsOnce | src/paxos_client.cpp:106-115 | an uncompleted first request goes to the leader alone, an uncompleted repeat to everyone, a completed one to nobody |
| Client.FirstMeansNeverCollected | src/paxos_client.cpp:91-95 | in every run a pass marks a collected request as first exactly if no pass collected it before |
| Client.NewRequestIsDueAtOnce | src/paxos_client.cpp:120-143 | the next pass collects a new request, as a first one, exactly if it runs at the time of sending or later |
| Client.PaxosClient.HandleLeaderReply | src/paxos_client.cpp:262-312 | a reply completes a request in flight and lowers the counter once; any other reply changes nothing |
| Client.PaxosClient.HandleMoveOn | src/paxos_client.cpp:337-367 | all requests of map and heap are completed, both emptied, and the counter lowered by the size of the map |
| Client.CounterIsExact | src/paxos_client.cpp:296-307 | in every run with fresh timestamps the counter equals the number in flight and of uncompleted requests, each of them is in the heap exactly once, and none went to the leader alone twice |
| Client.PassLeavesNoneExpired | src/paxos_client.cpp:87-97 | after a pass no uncompleted request has an expiry at or before its time |
| Client.OneDecrementPerTimestamp | src/paxos_client.cpp:270-281 | after a reply that lowered the counter, a later one for the timestamp changes nothing |

## Left out

- Value agreement over arbitrarily many views and one leader per ballot: false of the code, which keeps older entries (src/paxos_node.cpp:906) and ships old ballots.
- Prepare timeouts (HandlePreparedTimeout), Reset and MoveOn inside the two-phase-commit, locking and conservation runs: they break those invariants. MoveOn and Reset are in the handle runs.
- View changes inside the two-phase-commit runs: a cluster is its leader in one term, and its consensus appears as the steps that choose a slot's first and second phase.
- Locks at backups: a backup unlocks what it never locked; locks are a set, so releasing a free lock does nothing, where std::mutex leaves it undefined.
- Atomicity: each handler is one step, except in the rendezvous, where each lock scope is one. Data races between fields are not modelled.
- Consensus.RunKeepsInv: acks are those of Accept and NEW-VIEW and a leader's own counts of proposals and of its NEW-VIEW. Acks of a second phase are kept apart by slot, ballot and status; the count in StartSecondPhase (src/paxos_node.cpp:2557) is one of those.
- Second-phase rewrites in the consensus runs happen at slots that exist; for an unknown timestamp the code writes slot 0 (src/paxos_node.cpp:2511-2552), which only `TwoPhase` and `Rendezvous` model.
- Election.ElectionNode.OnNewView: of OnElectionComplete it holds the flag; its pass over the WAL is Execution.Executor.ReconcileOnElection and its queue Intake.IntakeNode.OnElectionComplete.
- Liveness, clocks, heartbeats, cooldowns and jitter: timeouts are steps that may happen at any time. A dead node's ignored messages count as lost ones.
- Balances and amounts are unbounded integers, and so are timestamps, counters and slot numbers, where the code has doubles and 32-bit ints.
- Reply texts, the leader field of replies, leader caches of other clusters and of the client, the print log and SQLite.
- A second-phase message carries its own copy of the request (field `m`); the model takes it to be the slot's request.
- `std::priority_queue` is a bag from which a request with the least expiry is taken; `std::min_element` and `std::max_element` are loops that return the first such index.
- Resharding.MaxSize: floor(1.3 * average) is exact integer arithmetic, without the rounding of a double.
- Workload.GenerateTxns: draws are arbitrary values of their range and statistics and CSV output are not part of the model.
- Resharding.Reshard: the method's parameter `rounds` says how long the loop is watched; that the program's loop runs on for ever is ReshardReturnsIff and RoundsNeverEnd.
- Client.PaxosClient.SendRequest: includes the launcher's increment of the counter (src/node_launch.cpp:792), which in the program comes just before.
- Intake.IntakeNode.HandleMoveOn: takes the request of a pending entry from its call, where the code reads it from pending_entries_.
