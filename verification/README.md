# PhxPaxos core, durable log, master lease and transfer protocols: a verified model

This project models the consensus library inside PoVBlockchain (the PhxPaxos tree), its durable log, its
master election, its two bulk transfers, and two self-contained algorithms of the blockchain layer (the
ballot count and the configuration file), and proves what each of them is for.

## How it is built

Code that works by updating objects is modelled by classes with the same fields and methods
(`PaxosInstance.dfy`, `LogStore.dfy`, `Cleaner.dfy`, `MasterStateMachine.dfy`, `CheckpointObjects.dfy`,
`LearnerWindow.dfy`, `BallotCount.dfy`, `ConfigHelper.dfy`). Every such method is proved against a function
on values, and the theorems are about runs of those functions:

- **Consensus** (`PaxosTypes`, `PaxosNode`, `PaxosInvariant`, `PaxosSteps`, `PaxosRuns`, `PaxosAgreement`,
  `PaxosTheorems`, `PaxosProgress`, `PaxosChecksums`, `PaxosLimits`, `PaxosRestart`, `PaxosStart`, `PaxosReuse`). A world maps every member to its state. The set of
  messages a node ever sent stays in its state for ever, so it is the network (loss, delay, reordering,
  duplication) and the history of promises and votes at once. A node handles its own prepare, accept and
  success within the step that sends it. One invariant is kept by every event, and the theorems follow.
- **Durable log** (`LogFormat`, `LogRecovery`, `LogState`, `LogStore`, `Cleaner`). A ghost history lists what
  was appended; files, index and contents are functions of it.
- **Master lease** (`MasterLease`, `MasterProof`, `MasterConverse`, `MasterLimits`, `MasterStateMachine`). Runs
  with one global time, a clock offset per node, a replicated log, and any interleaving of looking, making an
  operation, handing it to the proposer, choosing, executing, replaying and restarting. A value belongs to the
  instance it was handed over in, where the proposer keeps its first value, and an instance is decided once a
  majority has executed all before it.
- **Transfers** (`CheckpointTransfer`, `CheckpointObjects`, `LearnerWindow`).
- **Ballots and configuration** (`BallotCount`, `ConfigText`, `ConfigRoundTrip`, `ConfigLastLine`, `ConfigComments`,
  `ConfigHelper`).

`Common` and `MapTop` hold what several parts share.

## What the proofs found

- A prepare that repeats a ballot already used for an accept is unsafe when the node's own acceptor has
  promised more in between. The condition on it (`PaxosSteps.PrepareGuard`, which a caller can check) is needed
  in exactly the clusters of three or more (`PaxosLimits.PrepareGuardNeededIff`): without it a run with late and
  repeated messages makes two nodes execute different values. All agreement theorems carry it as an enabling
  condition of the step, empty for clusters of one or two.
- Taking a prepare or accept of the next instance for the success message of this one is sound in exactly the
  clusters of up to four nodes (`PaxosLimits.ShortcutGuardNeededIff`). The step is enabled only there.
- Nothing is ever blocked for good: from every reachable world some continuation brings all members into step, and
  then any members get any values decided and executed by everybody, one after the other
  (`PaxosProgress.EveryWorldGoesOn`). The owner of the highest promise can always act, the guard above included.
- A record written by log shipping stores the learned ballot in place of the promise, and a restart from it can
  begin with a proposal id that was used before (`PaxosReuse.ShippedRecordReusesABallot`, a run of three
  nodes). `PaxosRestart.LearningIsSafeIff` says exactly when learning is safe: when the ballot's id is at or
  above every id the node has sent and every id it may still send while its own acceptor refuses it.
- The repair of a master version that does not fit (`master_sm.cpp:113-124`) never happens: a value is proposed
  in one instance only, so the version filled in before proposing is the one every node has that is about to
  execute it (`MasterProof.FixNeverActs`). The single-master property therefore holds with and without the
  option that changes values before proposing.
- A master that renews with an earlier deadline can be joined by a second one, in exactly the clusters of three
  or more (`MasterLimits.RenewalGuardNeededIff`). With the guard there is one master
  (`MasterProof.SingleMaster`); from any state in which a master that knows the last success breaks it, any
  other member can become master beside it (`MasterConverse.EarlierDeadlineElectsTwo`). With one lease time, or
  leases at most 100 ms shorter, nobody can break it (`MasterProof.RenewalNeverShortens`).
- After a restart the write offset of the log is exact if and only if the unused tail of the current file
  is not one to three bytes long, or an earlier file happened to leave the same offset
  (`LogRecovery.WriteOffsetIsExactIff`).
- A roll-over of the log raises the file id in the meta file before it creates the data file. A crash between the
  two makes every later start fail, although no record is lost (`LogRecovery.StartSucceedsIff`,
  `LogRecovery.FailedStartFailsAgain`).
- The cleaner's deletions from the index are not synchronised. When the last ones are undone by a crash of the
  machine, the start fails exactly when the first record that came back has lost its data file
  (`LogCleaner.Cleaner.FixMinChosenInstanceID`).
- Reading a record of a deleted data file creates the file again, empty; the model does the same.
- A source file listed twice is sent once, also when two state machines list it
  (`CheckpointTransfer.MissingIff`).
- The acknowledgement window can stick when another sender's value draws the receiver's ack
  (`LearnerWindow.AnotherSenderBlocks`). `LearnerWindow.NeverSticksIff` gives the exact condition for whole
  sessions: the sender never gets stuck if and only if, whenever that happens, the receiver's last ack plus its
  stride is at most one more than the sender's last ack plus its lead.
- Under that condition the needed ack is always sent, but the sender drops acks that arrive the prepare timeout or
  more after its last send while it goes on waiting up to the ack timeout. `LearnerWindow.NeverStuckIff` gives
  the exact condition; with large buffers, where the two timeouts are 6 and 60 seconds, the sender can be stuck
  for that reason alone (`LearnerWindow.LateAcksBlockLargeBuffers`), in normal mode, where they are equal, it
  cannot (`LearnerWindow.NormalModeDropsNothing`, by the invariant `WaitOk` of all waits).
- A configuration text without a final line break is misread exactly when its last line continues an open
  value; the line is then taken twice (`ConfigLastLine.LastLineIff`), because reading at the end of a stream
  leaves the string as it was.

## Model

| member | source | states |
|---|---|---|
| PaxosTheorems.Agreement | PoVBlockchain/phxpaxos/src/algorithm/instance.cpp:547-765 | in every reachable world the values executed by one node are a prefix of those executed by any other that got as far |
| PaxosTheorems.AgreementOverTime | PoVBlockchain/phxpaxos/src/algorithm/instance.cpp:663-765 | a node now and any node at any later moment of any continuation executed the same value in an instance |
| PaxosTheorems.ExecutionOnlyGrows | PoVBlockchain/phxpaxos/src/algorithm/instance.cpp:694-752 | what a node executed stays a prefix of what it executes later |
| PaxosTheorems.ProposalsAreSafe | PoVBlockchain/phxpaxos/src/algorithm/proposer.cpp:169-195 | when an accept for a value goes out, prepared or with prepare skipped, no other value is or ever will be chosen below its ballot in that instance |
| PaxosTheorems.OneValuePerInstanceAndBallot | PoVBlockchain/phxpaxos/src/algorithm/proposer.cpp:281-411 | all accepts ever sent at one instance and ballot carry one value |
| PaxosTheorems.LogRecordsAreChosen | PoVBlockchain/phxpaxos/src/algorithm/learner_sender.cpp:273-291 | every record of a finished instance exists and holds the value a majority accepted |
| PaxosTheorems.ShippedValuesAreChosen | PoVBlockchain/phxpaxos/src/algorithm/learner.cpp:440-465 | log shipping only spreads chosen values |
| PaxosTheorems.SuccessTeachesTheChosenValue | PoVBlockchain/phxpaxos/src/algorithm/learner.cpp:584-632 | the value a receiver learns from a success message, which carries none, was chosen |
| PaxosTheorems.NextInstanceTeachesTheChosenValue | PoVBlockchain/phxpaxos/src/algorithm/instance.cpp:611-619 | with at most four nodes a message for the next instance from the owner of the accepted ballot proves the accepted value chosen |
| PaxosTheorems.ChecksumAssertionNeverFails | PoVBlockchain/phxpaxos/src/algorithm/instance.cpp:821-850 | the assertion on last checksums holds for every message ever sent and every node |
| PaxosTheorems.ChecksumIsFoldOfChosen | PoVBlockchain/phxpaxos/src/algorithm/acceptor.cpp:84-94 | every known checksum is the fold of the checksum function over exactly the chosen values so far |
| PaxosChecksums.ChecksumsAreExact | PoVBlockchain/phxpaxos/src/algorithm/acceptor.cpp:84-94 | in every reachable world every node has, and every record of a finished instance holds, exactly the chain of checksums over the values executed up to there |
| PaxosChecksums.ChecksumsAreNeverLost | PoVBlockchain/phxpaxos/src/algorithm/acceptor.cpp:84-94 | with a checksum function that is never zero they are the fold of it and never unknown |
| PaxosChecksums.MessagesCarryTheChain | PoVBlockchain/phxpaxos/src/algorithm/proposer.cpp:385-411 | every accept and success carries exactly the checksum of what came before |
| PaxosChecksums.LostChecksumComesBack | PoVBlockchain/phxpaxos/src/algorithm/instance.cpp:821-850 | a node that lost the checksum takes it from the next accept or shipped value, and the chain goes on from it |
| PaxosAgreement.ShortcutIsSound | PoVBlockchain/phxpaxos/src/algorithm/instance.cpp:611-619 | the same from the invariant alone: two acceptors and the promises of a later ballot leave no room for another value in clusters of up to four |
| PaxosAgreement.SafeProposal | PoVBlockchain/phxpaxos/src/algorithm/proposer.cpp:316-372 | a value accepted by a set that meets every quorum is the value of every higher ballot that is proposed |
| PaxosAgreement.OneChosenValue | PoVBlockchain/phxpaxos/src/algorithm/msg_counter.cpp:70-73 | two values chosen in one instance, at whatever ballots, are equal |
| PaxosAgreement.BlockingMeetsQuorum | PoVBlockchain/phxpaxos/src/config/system_v_sm.cpp:257-260 | a majority as computed from the node count meets every set large enough to block one |
| PaxosRuns.StepKeepsInv | PoVBlockchain/phxpaxos/src/algorithm/instance.cpp:483-545 | every delivery, client value, timer and shipped record keeps the world invariant |
| PaxosRuns.ReachableInv | PoVBlockchain/phxpaxos/src/algorithm/instance.cpp:483-545 | the invariant holds after every legal run of any length |
| PaxosSteps.DoPrepareInv | PoVBlockchain/phxpaxos/src/algorithm/proposer.cpp:281-314 | a prepare with the own acceptor answering first keeps the invariant: with a new ballot always, with a repeated one under the guard, which clusters of one or two do not need |
| PaxosSteps.DoAcceptInv | PoVBlockchain/phxpaxos/src/algorithm/proposer.cpp:385-411 | an accept, skipped prepare included, keeps it, up to finishing the instance within the step |
| PaxosSteps.OnPrepareReplyInv | PoVBlockchain/phxpaxos/src/algorithm/proposer.cpp:316-372 | counting any reply, also after the own acceptor rejected, keeps it |
| PaxosSteps.OnAcceptReplyInv | PoVBlockchain/phxpaxos/src/algorithm/proposer.cpp:413-469 | counting a vote keeps it, and a passed round means the value is chosen |
| PaxosSteps.OnPrepareInv | PoVBlockchain/phxpaxos/src/algorithm/acceptor.cpp:220-285 | a promise or rejection keeps it |
| PaxosSteps.OnAcceptInv | PoVBlockchain/phxpaxos/src/algorithm/acceptor.cpp:287-339 | a vote or rejection keeps it |
| PaxosSteps.OnSuccessInv | PoVBlockchain/phxpaxos/src/algorithm/learner.cpp:584-632 | learning from a success message keeps it, the promise surviving into the next instance |
| PaxosSteps.OnLearnValueInv | PoVBlockchain/phxpaxos/src/algorithm/learner.cpp:467-507 | learning a shipped value keeps it |
| PaxosProgress.EveryWorldGoesOn | PoVBlockchain/phxpaxos/src/algorithm/proposer.cpp:169-195 | from every reachable world, and for any values any members want decided, some continuation has all members execute what was executed so far, what it took to come into step, and then exactly these values in order |
| PaxosProgress.EverySequenceIsDecided | PoVBlockchain/phxpaxos/src/algorithm/proposer.cpp:169-195 | in every cluster, for every sequence of proposers and values, a legal run after which every member has executed exactly the values |
| PaxosProgress.RestGoesOn | PoVBlockchain/phxpaxos/src/algorithm/proposer.cpp:316-469 | one instance: any member, its ballot overtaken or not, gets its value promised, voted for, decided, and learned by all from the success message |
| PaxosProgress.ComesToRest | PoVBlockchain/phxpaxos/src/algorithm/learner.cpp:440-507 | from every reachable world lagging members are shipped what they lack and the current instance is finished, nothing executed being lost |
| PaxosProgress.LeaderSkipsPrepare | PoVBlockchain/phxpaxos/src/algorithm/proposer.cpp:169-195 | a leader whose value was just decided sends the next accept with the same ballot and no prepare |
| PaxosProgress.NextBallotBeatsAll | PoVBlockchain/phxpaxos/src/algorithm/proposer.cpp:52-64 | after any rejections, in any order, the next ballot is above every one of them |
| PaxosProgress.GivingUpIsFinal | PoVBlockchain/phxpaxos/src/algorithm/instance.cpp:356-364 | after the commit timeout no answer about the value changes anything |
| PaxosProgress.LateTimersDoNothing | PoVBlockchain/phxpaxos/src/algorithm/proposer.cpp:481-513 | a timer set in an instance does nothing once the instance was learned |
| PaxosProgress.ShipsAll | PoVBlockchain/phxpaxos/src/algorithm/learner_sender.cpp:224-271 | shipping a range sends every record of it with the checksum before it, the first without |
| PaxosLimits.PrepareGuardNeededIff | PoVBlockchain/phxpaxos/src/algorithm/proposer.cpp:348-362 | runs without the condition on repeated prepares agree if and only if the cluster has at most two members |
| PaxosLimits.UnguardedReprepareDisagrees | PoVBlockchain/phxpaxos/src/algorithm/proposer.cpp:348-362 | in every cluster of three or more a run without it makes two nodes execute different values, and one ballot carries both |
| PaxosLimits.ReprepareKeepsValueIff | PoVBlockchain/phxpaxos/src/algorithm/proposer.cpp:281-372 | one step: a repeated prepare keeps its value against every promise another member may form if and only if the own acceptor is not bound higher |
| PaxosLimits.ShortcutGuardNeededIff | PoVBlockchain/phxpaxos/src/algorithm/instance.cpp:611-619 | runs with the inferred success agree if and only if the cluster has at most four members |
| PaxosLimits.ShortcutDisagreesBeyondFour | PoVBlockchain/phxpaxos/src/algorithm/instance.cpp:611-619 | in every cluster of five or more nodes a run exists in which the inferred success makes two nodes execute different values |
| PaxosRestart.RestartNeverReusesABallot | PoVBlockchain/phxpaxos/src/algorithm/instance.cpp:109-111 | after any run with crashes at any point, also between the sending of an accept and its storing, a crash leads to a restart above every proposal id the node ever sent, as long as no crash hit a process whose newest record was shipped with too low a ballot |
| PaxosRestart.LearningIsSafeIff | PoVBlockchain/phxpaxos/src/algorithm/learner.cpp:63-101 | after any such run: storing a learned ballot as the promise is safe if and only if its id is at or above all ids sent and all that may still be sent unstored; otherwise some continuation leads to a reused id |
| PaxosRestart.HighEnoughIff | PoVBlockchain/phxpaxos/src/algorithm/learner.cpp:75-82 | that condition is two comparisons a node can make when it learns |
| PaxosRestart.LearningHighIsCareful | PoVBlockchain/phxpaxos/src/algorithm/learner.cpp:75-82 | a run that checks it whenever it learns never has a process at risk |
| PaxosRestart.HandlesThroughHalt | PoVBlockchain/phxpaxos/src/algorithm/base.cpp:234-266 | the point between sending an accept and hearing of it oneself lies on the way of every handler that sends one |
| PaxosReuse.ShippedRecordReusesABallot | PoVBlockchain/phxpaxos/src/algorithm/learner.cpp:63-101 | a legal run of a cluster of three after which a restart from a shipped record begins with a used proposal id |
| PaxosRestart.ExecutionHasNoGap | PoVBlockchain/phxpaxos/src/algorithm/instance.cpp:238-266 | after any run with crashes at any point and restarts from any record, a process has executed the logged values of the instances from its checkpoint on, consecutively, up to its current instance |
| PaxosRestart.HandleSound | PoVBlockchain/phxpaxos/src/algorithm/base.cpp:209-263 | every message, timer and client value, halted or not, keeps the log in step with what was executed and the promise ahead of everything sent, and either stores the promise or sends nothing that counts |
| PaxosStart.StartSucceeds | PoVBlockchain/phxpaxos/src/algorithm/instance.cpp:57-126 | after any run, with a crash at any point, a start from any checkpoint of the process above the deleted log succeeds, ends where the log ends having executed exactly the values behind the checkpoint, and has promise, vote and value of the current instance again |
| PaxosStart.RestartKnowsThePast | PoVBlockchain/phxpaxos/src/algorithm/instance.cpp:203-236 | a member of any reachable world that is restarted has the same last checksum, unless the records for it were deleted |
| PaxosStart.HandleStores | PoVBlockchain/phxpaxos/src/algorithm/acceptor.cpp:84-132 | every input leaves the record of the current instance equal to the acceptor and removes nothing from the log |
| PaxosInstance.MsgCounter.StartNewRound | PoVBlockchain/phxpaxos/src/algorithm/msg_counter.cpp:39-44 | all three sets are empty |
| PaxosInstance.MsgCounter.AddPromiseOrAccept | PoVBlockchain/phxpaxos/src/algorithm/msg_counter.cpp:62-68 | exactly that node is added to the passes |
| PaxosInstance.AcceptorState.Init | PoVBlockchain/phxpaxos/src/algorithm/acceptor.cpp:40-47 | forgets what was accepted, keeps the promise |
| PaxosInstance.AcceptorState.Persist | PoVBlockchain/phxpaxos/src/algorithm/acceptor.cpp:84-132 | the record written and the checksum, 0 when the past is unknown |
| PaxosInstance.LearnerState.LearnValue | PoVBlockchain/phxpaxos/src/algorithm/learner.cpp:63-101 | stores the learned ballot as promise and vote |
| PaxosInstance.ProposerState.NewPrepare | PoVBlockchain/phxpaxos/src/algorithm/proposer.cpp:52-64 | the new id is above the own one and above every id that rejected it |
| PaxosInstance.ProposerState.AddPreAcceptValue | PoVBlockchain/phxpaxos/src/algorithm/proposer.cpp:66-86 | the value of the highest reported ballot is kept |
| PaxosInstance.Instance.Load | PoVBlockchain/phxpaxos/src/algorithm/acceptor.cpp:134-174 | the acceptor takes over the record of the greatest instance |
| PaxosInstance.Instance.PlayLog | PoVBlockchain/phxpaxos/src/algorithm/instance.cpp:238-266 | executes exactly the records of the range, or fails if one is missing or the range begins too low |
| PaxosInstance.Instance.Init | PoVBlockchain/phxpaxos/src/algorithm/instance.cpp:57-126 | starts exactly as the restart function says, failing exactly when log and checkpoint do not fit |
| PaxosInstance.Instance.InitLastChecksum | PoVBlockchain/phxpaxos/src/algorithm/instance.cpp:203-236 | the checksum of the record before the current instance, if it must exist |
| PaxosInstance.Instance.SendMessage | PoVBlockchain/phxpaxos/src/algorithm/base.cpp:209-232 | a message to oneself is handled before the call returns |
| PaxosInstance.Instance.BroadcastMessage | PoVBlockchain/phxpaxos/src/algorithm/base.cpp:234-266 | a broadcast includes the own handlers' whole effect |
| PaxosInstance.Instance.ChecksumLogic | PoVBlockchain/phxpaxos/src/algorithm/instance.cpp:821-850 | a lost checksum is taken over, nothing else changes |
| PaxosInstance.Instance.OnReceivePaxosMsg | PoVBlockchain/phxpaxos/src/algorithm/instance.cpp:483-545 | dispatch equals the node function the safety proof is about |
| PaxosInstance.Instance.ReceiveMsgForProposer | PoVBlockchain/phxpaxos/src/algorithm/instance.cpp:547-594 | replies of other instances only flag a rejection of the last one |
| PaxosInstance.Instance.ReceiveMsgForAcceptor | PoVBlockchain/phxpaxos/src/algorithm/instance.cpp:596-661 | gating by instance, with the inferred success first |
| PaxosInstance.Instance.ReceiveMsgForLearner | PoVBlockchain/phxpaxos/src/algorithm/instance.cpp:663-758 | a learned value is executed, its checksum kept and the next instance begun |
| PaxosInstance.Instance.NewInstance | PoVBlockchain/phxpaxos/src/algorithm/instance.cpp:760-765 | what a new instance resets and what survives |
| PaxosInstance.Instance.OnPrepare | PoVBlockchain/phxpaxos/src/algorithm/acceptor.cpp:220-285 | promise stored before the reply, or a rejection naming the promise |
| PaxosInstance.Instance.OnAccept | PoVBlockchain/phxpaxos/src/algorithm/acceptor.cpp:287-339 | vote stored before the reply, or a rejection |
| PaxosInstance.Instance.OnSendLearnValue | PoVBlockchain/phxpaxos/src/algorithm/learner.cpp:467-507 | only the value of the current instance is learned and written |
| PaxosInstance.Instance.OnProposerSendSuccess | PoVBlockchain/phxpaxos/src/algorithm/learner.cpp:584-632 | learned exactly when the ballot named is the one accepted here |
| PaxosInstance.Instance.OnExpiredReply | PoVBlockchain/phxpaxos/src/algorithm/proposer.cpp:375-383 | a late rejection is remembered for the next ballot |
| PaxosInstance.Instance.NewValue | PoVBlockchain/phxpaxos/src/algorithm/proposer.cpp:169-195 | skips prepare exactly when a quorum promised and nobody rejected since |
| PaxosInstance.Instance.Prepare | PoVBlockchain/phxpaxos/src/algorithm/proposer.cpp:281-314 | equals the node function, own answer counted first |
| PaxosInstance.Instance.OnPrepareReply | PoVBlockchain/phxpaxos/src/algorithm/proposer.cpp:316-372 | counting, highest reported value, and the accept at a majority |
| PaxosInstance.Instance.Accept | PoVBlockchain/phxpaxos/src/algorithm/proposer.cpp:385-411 | equals the node function, own vote included |
| PaxosInstance.Instance.OnAcceptReply | PoVBlockchain/phxpaxos/src/algorithm/proposer.cpp:413-469 | counting, and the success message at a majority |
| PaxosInstance.Instance.ProposerSendSuccess | PoVBlockchain/phxpaxos/src/algorithm/learner.cpp:566-582 | the sender learns first, then everybody |
| PaxosInstance.Instance.OnTimeout | PoVBlockchain/phxpaxos/src/algorithm/proposer.cpp:481-511 | a timer of an earlier instance does nothing, otherwise prepare again |
| PaxosInstance.Instance.OnNewValueCommitTimeout | PoVBlockchain/phxpaxos/src/algorithm/instance.cpp:357-365 | both phases are left, ballot and flags stay |
| PaxosInstance.Instance.SendLearnedValue | PoVBlockchain/phxpaxos/src/algorithm/learner_sender.cpp:224-291 | ships the records in order up to the current instance or the first missing one, each with the checksum of the one before, the first with none |
| LogFormat.FrameParses | PoVBlockchain/phxpaxos/src/logstorage/log_store.cpp:349-466 | framing round-trips: length, instance and buffer are read back from what was written |
| LogFormat.DecodeEncode | PoVBlockchain/phxpaxos/src/logstorage/log_store.cpp:369-371 | little-endian integers round-trip within their width |
| LogFormat.RecordsNeverOverlap | PoVBlockchain/phxpaxos/src/logstorage/log_store.cpp:285-406 | two records of one file lie one behind the other |
| LogFormat.IndexPointsAtNewest | PoVBlockchain/phxpaxos/src/logstorage/db.cpp:331-371 | after any history of puts the index shows, for each instance, the last record put for it |
| LogStorage.LogStore.GetFileFD | PoVBlockchain/phxpaxos/src/logstorage/log_store.cpp:285-347 | a frame that does not fit goes to a new zero-filled file |
| LogStorage.LogStore.Append | PoVBlockchain/phxpaxos/src/logstorage/log_store.cpp:349-406 | the record lies behind the last one or begins a new file, the files stay as the history says, the id names it |
| LogStorage.LogStore.Read | PoVBlockchain/phxpaxos/src/logstorage/log_store.cpp:408-466 | any stored record is read back through its id; a missing file is created empty and the call fails |
| LogStorage.LogStore.DeleteFile | PoVBlockchain/phxpaxos/src/logstorage/log_store.cpp:240-283 | removes only files up to the given one, and all of them but those more than 2000 before the first deletion |
| LogStorage.LogStore.Del | PoVBlockchain/phxpaxos/src/logstorage/log_store.cpp:468-487 | only files before the named one go |
| LogStorage.LogStore.ScanFile | PoVBlockchain/phxpaxos/src/logstorage/log_store.cpp:636-718 | the reading loop, for any bytes whatever, equals the scan function: every end of it, order check and parse failure included |
| LogStorage.LogStore.RebuildIndexForOneFile | PoVBlockchain/phxpaxos/src/logstorage/log_store.cpp:602-738 | a missing file, or the scan's index, write offset, error and truncation |
| LogStorage.LogStore.RebuildIndex | PoVBlockchain/phxpaxos/src/logstorage/log_store.cpp:547-600 | scans from the record of the greatest indexed instance through all files |
| LogStorage.LogStore.Init | PoVBlockchain/phxpaxos/src/logstorage/log_store.cpp:60-150 | after a crash the store is again as its history says |
| LogRecovery.RebuildRestores | PoVBlockchain/phxpaxos/src/logstorage/log_store.cpp:547-738 | from any surviving prefix of the index writes the rebuilt index is exactly the one appending built, over any number of files |
| LogRecovery.ScanReplays | PoVBlockchain/phxpaxos/src/logstorage/log_store.cpp:602-738 | scanning a file from a record boundary replays exactly the records from there on |
| LogRecovery.WriteOffsetIsExactIff | PoVBlockchain/phxpaxos/src/logstorage/log_store.cpp:639-661 | the write offset is exact if and only if the current file's tail is empty or at least four bytes, or an earlier file left the same number |
| LogRecovery.WriteOffsetIsExactOnlyWithGoodTail | PoVBlockchain/phxpaxos/src/logstorage/log_store.cpp:639-661 | with the newest index write surviving, if and only if the tail is good |
| LogRecovery.ShortTailLosesTheOffset | PoVBlockchain/phxpaxos/src/logstorage/log_store.cpp:650-655 | any record followed by two unused bytes is a case where it is lost |
| LogRecovery.StartSucceedsIff | PoVBlockchain/phxpaxos/src/logstorage/log_store.cpp:547-598 | with all data files up to the newest in place, a start succeeds if and only if the meta file names the newest; a crash in a roll-over leaves it one ahead |
| LogRecovery.FailedStartFailsAgain | PoVBlockchain/phxpaxos/src/logstorage/log_store.cpp:285-347 | what such a failed start leaves fails again |
| LogStorage.Database.Init | PoVBlockchain/phxpaxos/src/logstorage/db.cpp:148-188 | after a crash the database stands for the same map as before |
| LogStorage.Database.GetMaxInstanceIDFileID | PoVBlockchain/phxpaxos/src/logstorage/db.cpp:195-230 | the entry of the greatest instance, or none |
| LogStorage.Database.Put | PoVBlockchain/phxpaxos/src/logstorage/db.cpp:353-371 | the map gains exactly this instance and value, across roll-overs |
| LogStorage.Database.Get | PoVBlockchain/phxpaxos/src/logstorage/db.cpp:274-304 | returns the map's value, and tells missing instances from deleted files |
| LogStorage.Database.Del | PoVBlockchain/phxpaxos/src/logstorage/db.cpp:416-461 | the data files removed hold only records up to the deleted instance; every later instance stays readable |
| LogCleaner.Cleaner.DeleteOne | PoVBlockchain/phxpaxos/src/checkpoint/cleaner.cpp:194-223 | deletes one instance, moves the cursor, saves it every hundred, and keeps all above readable |
| LogCleaner.Cleaner.Step | PoVBlockchain/phxpaxos/src/checkpoint/cleaner.cpp:113-132 | between any actions of other threads: nothing within the hold count of checkpoint or newest goes, and the invariant that all above the cursor is readable holds |
| LogCleaner.Cleaner.Pass | PoVBlockchain/phxpaxos/src/checkpoint/cleaner.cpp:108-132 | a pass stops exactly at the hold count and leaves everything from there on |
| LogCleaner.Cleaner.SetHoldPaxosLogCount | PoVBlockchain/phxpaxos/src/checkpoint/cleaner.cpp:225-235 | never below 300 |
| LogCleaner.Cleaner.WriteRecord | PoVBlockchain/phxpaxos/src/logstorage/db.cpp:353-371 | a record of the current instance keeps the cleaner's invariant |
| LogCleaner.Cleaner.FinishInstance | PoVBlockchain/phxpaxos/src/checkpoint/cp_mgr.cpp:174-177 | finishing an instance keeps it |
| LogCleaner.Cleaner.FixMinChosenInstanceID | PoVBlockchain/phxpaxos/src/checkpoint/cleaner.cpp:150-192 | after a restart the cursor, saved too low, ends at or above everything deleted, so all above it is readable again; when the last deletions from the index were undone it fails exactly if the first record that came back has no data file, and otherwise stops there |
| MasterProof.SingleMaster | PoVBlockchain/phxpaxos/src/master/master_sm.cpp:103-220 | in every guarded run, values changed before proposing or not, two nodes that report being master at one time are the same; the guard asks nothing of clusters of one or two |
| MasterProof.ReplayIsHarmless | PoVBlockchain/phxpaxos/src/master/master_sm.cpp:113-131 | in every run, guarded or not, an operation executed before changes neither state machine nor store when executed again |
| MasterProof.FixNeverActs | PoVBlockchain/phxpaxos/src/master/master_sm.cpp:113-131 | in every run the version is never replaced by the one an operation carries, and an operation succeeds exactly when it is new and names the last success before it |
| MasterProof.RenewalNeverShortens | PoVBlockchain/phxpaxos/src/master/master_mgr.cpp:122-166 | with one lease time, or one at most 100 ms shorter, the guard excludes nothing |
| MasterProof.NoTwoMasters | PoVBlockchain/phxpaxos/src/master/master_sm.cpp:183-220 | the invariant leaves room for one claim only |
| MasterProof.StepSound | PoVBlockchain/phxpaxos/src/algorithm/instance.cpp:663-752 | every step, guarded or not, keeps what nodes, values on their way and log know of the last success |
| MasterProof.StepExclusive | PoVBlockchain/phxpaxos/src/master/master_sm.cpp:103-220 | every guarded step keeps the invariant of the claims: a later success of another node was proposed after every standing claim |
| MasterConverse.EarlierDeadlineElectsTwo | PoVBlockchain/phxpaxos/src/master/master_mgr.cpp:152-165 | in any run of three or more members, whenever a master that knows the last success renews with a deadline before its own, some continuation has any other member as a second master |
| MasterLimits.RenewalGuardNeededIff | PoVBlockchain/phxpaxos/src/master/master_mgr.cpp:56-64 | runs without the guard have one master at a time if and only if the cluster has at most two members |
| MasterLimits.ShorterLeaseElectsTwo | PoVBlockchain/phxpaxos/src/master/master_mgr.cpp:56-64 | in every cluster of three or more, for any two members, a run from the start in which a shortened lease makes both master |
| MasterLimits.AnyMemberBecomesMaster | PoVBlockchain/phxpaxos/src/master/master_mgr.cpp:122-166 | in every cluster any member can become master by a guarded run |
| MasterLimits.EveryWorldElects | PoVBlockchain/phxpaxos/src/master/master_mgr.cpp:122-166 | from every reachable world any member can become master one lease of the last success later |
| MasterObjects.MasterStateMachine.Init | PoVBlockchain/phxpaxos/src/master/master_sm.cpp:54-86 | a restarted master does not claim, a restarted follower waits the stored lease |
| MasterObjects.MasterStateMachine.Learn | PoVBlockchain/phxpaxos/src/master/master_sm.cpp:103-181 | equals the function of the runs, state and store |
| MasterObjects.MasterStateMachine.Execute | PoVBlockchain/phxpaxos/src/master/master_sm.cpp:224-261 | the own deadline only with the context of this very operation |
| MasterObjects.MasterStateMachine.SafeGetMaster | PoVBlockchain/phxpaxos/src/master/master_sm.cpp:183-220 | the master unless its time is over |
| MasterObjects.MasterMgr.SetLeaseTime | PoVBlockchain/phxpaxos/src/master/master_mgr.cpp:56-64 | never below a second |
| MasterObjects.MasterMgr.TryBeMaster | PoVBlockchain/phxpaxos/src/master/master_mgr.cpp:122-166 | proposes on the version it read unless another node is master, with a deadline 100 ms before the lease |
| CheckpointTransfer.TransferIsExact | PoVBlockchain/phxpaxos/src/algorithm/checkpoint_receiver.cpp:211-272 | whatever arrives in whatever order, when the end is accepted the receiver holds exactly the files sent, byte for byte, and nothing else |
| CheckpointTransfer.AcceptedIff | PoVBlockchain/phxpaxos/src/algorithm/checkpoint_receiver.cpp:114-127 | a transfer delivered in order is accepted exactly when no two files sent share a stored name |
| CheckpointTransfer.RepeatsChangeNothing | PoVBlockchain/phxpaxos/src/algorithm/checkpoint_receiver.cpp:211-272 | however often messages of a transfer delivered in order come again, the receiver ends up the same |
| CheckpointTransfer.AllBlocksReplay | PoVBlockchain/phxpaxos/src/algorithm/checkpoint_receiver.cpp:243-262 | the offset checks let all blocks through exactly when every file has a place of its own |
| CheckpointTransfer.BlocksReplay | PoVBlockchain/phxpaxos/src/algorithm/checkpoint_sender.cpp:254-286 | the blocks of a file, appended, are the file |
| CheckpointTransfer.SameFileIff | PoVBlockchain/phxpaxos/src/algorithm/checkpoint_receiver.cpp:139-195 | two names lead to the same stored file exactly when their non-empty parts agree |
| CheckpointTransfer.MissingIff | PoVBlockchain/phxpaxos/src/algorithm/checkpoint_sender.cpp:235-245 | with names of their own, a non-empty file is missing after an accepted transfer exactly when its source was listed before it |
| CheckpointObjects.CheckpointReceiver.InitFilePath | PoVBlockchain/phxpaxos/src/algorithm/checkpoint_receiver.cpp:139-195 | the character loop and the joining loop form the stored name |
| CheckpointObjects.CheckpointReceiver.ReceiveCheckpoint | PoVBlockchain/phxpaxos/src/algorithm/checkpoint_receiver.cpp:211-272 | sender, sequence and offset checks, the write, and what a failed write leaves |
| CheckpointObjects.CheckpointReceiver.OnSendCheckpoint | PoVBlockchain/phxpaxos/src/algorithm/learner.cpp:828-864 | a failed message, a begin whose clearing fails included, makes the receiver forget the transfer; the end is acknowledged exactly when all came |
| CheckpointObjects.CheckpointSender.OnAck | PoVBlockchain/phxpaxos/src/algorithm/checkpoint_sender.cpp:336-358 | only the ack of this transfer with the expected number counts |
| CheckpointObjects.CheckpointSender.CheckAck | PoVBlockchain/phxpaxos/src/algorithm/checkpoint_sender.cpp:360-386 | succeeds only inside the window |
| CheckpointObjects.CheckpointReceiver.NewReceiver | PoVBlockchain/phxpaxos/src/algorithm/checkpoint_receiver.cpp:53-76 | everything is removed and the transfer begun, or some of it is removed and nothing else changes |
| CheckpointObjects.CheckpointSender.SendBuffer | PoVBlockchain/phxpaxos/src/algorithm/checkpoint_sender.cpp:297-334 | one block with the next number, sent again until it goes out; it fails only after a failed answer or with the window still closed when all acks have arrived, and if no answer fails exactly in the second case |
| CheckpointObjects.CheckpointSender.OnSendCheckpointAck | PoVBlockchain/phxpaxos/src/algorithm/learner.cpp:883-897 | a failed answer, of whatever transfer, ends the sender; a good one counts if it is the expected one |
| CheckpointObjects.CheckpointSender.SendFile | PoVBlockchain/phxpaxos/src/algorithm/checkpoint_sender.cpp:235-295 | all blocks of a file once, also for lengths that are multiples of the block; it gives up for no other reason than a block does |
| CheckpointObjects.CheckpointSender.SendFiles | PoVBlockchain/phxpaxos/src/algorithm/checkpoint_sender.cpp:198-233 | the blocks of all files in order, or the first of them when a block gave up |
| CheckpointObjects.CheckpointSender.SendCheckpoint | PoVBlockchain/phxpaxos/src/algorithm/checkpoint_sender.cpp:158-196 | what goes out is always the first part of begin twice, the blocks in order, and the end; if no answer fails it is all of it exactly when begins and end go out and the acks open the window for the last block |
| CheckpointObjects.AckedInOrder | PoVBlockchain/phxpaxos/src/algorithm/checkpoint_sender.cpp:336-358 | the acks of the transfer in order open the window as far as they go |
| CheckpointObjects.SentIsOfTransfer | PoVBlockchain/phxpaxos/src/algorithm/checkpoint_sender.cpp:158-196 | every message a sender sends, also one that gives up half-way, belongs to its transfer as the theorem assumes |
| LearnerWindow.NeverSticksIff | PoVBlockchain/phxpaxos/src/algorithm/learner.cpp:509-531 | for whole sessions: the sender can at no moment come to be beyond its window with everything delivered and no ack to come, if no other node sends from then on, if and only if slack is left whenever another node's value draws the ack |
| LearnerWindow.MayStickIff | PoVBlockchain/phxpaxos/src/algorithm/learner.cpp:509-531 | for every state of receiver and sender: exactly when that can still happen |
| LearnerWindow.StuckGivesUp | PoVBlockchain/phxpaxos/src/algorithm/learner_sender.cpp:104-142 | a sender in that position gives up whatever acks already sent to it arrive |
| LearnerWindow.NeverStuckIff | PoVBlockchain/phxpaxos/src/algorithm/learner_sender.cpp:77-142 | all values delivered and slack left: a sender beyond its window has been sent an ack that reaches far enough, and goes on if and only if an ack arrives within the prepare timeout of the last send and the ack timeout of the last counted ack |
| LearnerWindow.LastAckEnds | PoVBlockchain/phxpaxos/src/algorithm/learner_sender.cpp:188-206 | the last ack of the receiver is such a one if it arrives in that time |
| LearnerWindow.StopsIff | PoVBlockchain/phxpaxos/src/algorithm/learner_sender.cpp:104-142 | where a session stops: all values delivered and slack left, a wait fails if and only if more was acknowledged than sent, or the value is beyond the window and the ack for it does not count in time |
| LearnerWindow.CutsSettle | PoVBlockchain/phxpaxos/src/algorithm/learner_sender.cpp:95-102 | timeouts bring the lead down by strides to between one and two of them, where it stays |
| LearnerWindow.WaitEndsIff | PoVBlockchain/phxpaxos/src/algorithm/learner_sender.cpp:104-142 | exactly which arriving acks end a wait |
| LearnerWindow.NormalModeDropsNothing | PoVBlockchain/phxpaxos/src/algorithm/learner_sender.cpp:77-93 | in normal mode an ack that does not find the wait timed out counts |
| LearnerWindow.LateAcksBlock | PoVBlockchain/phxpaxos/src/algorithm/learner_sender.cpp:188-206 | acks that all arrive the prepare timeout or more after the last send never end a wait |
| LearnerWindow.LateAcksBlockLargeBuffers | PoVBlockchain/phxpaxos/src/algorithm/learner_sender.cpp:77-142 | with large buffers a sender is stuck although every value and ack of its only receiver is delivered before the wait times out |
| LearnerWindow.AnotherSenderBlocks | PoVBlockchain/phxpaxos/src/algorithm/learner.cpp:509-531 | for every lead a session of a second sender exists that uses up the slack, with the sender stuck and never beyond its window |
| LearnerWindow.LearnerSender.CutAckLead | PoVBlockchain/phxpaxos/src/algorithm/learner_sender.cpp:95-102 | the lead stays above the receiver's stride |
| LearnerWindow.LearnerSender.Prepare | PoVBlockchain/phxpaxos/src/algorithm/learner_sender.cpp:146-164 | exactly when it may start, and from where |
| LearnerWindow.LearnerSender.Confirm | PoVBlockchain/phxpaxos/src/algorithm/learner_sender.cpp:166-186 | exactly the node and instance that asked |
| LearnerWindow.LearnerSender.OnAck | PoVBlockchain/phxpaxos/src/algorithm/learner_sender.cpp:188-206 | only higher acks of the receiver within the prepare timeout count |
| LearnerWindow.LearnerSender.CheckAck | PoVBlockchain/phxpaxos/src/algorithm/learner_sender.cpp:104-142 | equals the waiting function: which acks are taken, when it gives up, and what becomes of the lead |
| LearnerWindow.LearnerSender.SendAndWait | PoVBlockchain/phxpaxos/src/algorithm/learner_sender.cpp:242-254 | one value inside acked + lead + 1, or none when its record cannot be read; it ends well if and only if the wait for it does, acks coming in at any time |
| LearnerWindow.LearnerSender.SendLearnedValue | PoVBlockchain/phxpaxos/src/algorithm/learner_sender.cpp:224-271 | consecutive instances up to one of the sender that grows meanwhile, none beyond acked + lead + 1; it stops early only at a record that cannot be read or at a wait that fails, so never while all is inside the first lead and nothing beyond it is acknowledged |
| BallotCount.BallotStatistic | PoVBlockchain/phxpaxos/src/consensus/POV.cc:2564-2620 | the winners by votes then key, nobody left out beats one, empty keys when there are too few |
| BallotCount.CountVotes | PoVBlockchain/phxpaxos/src/consensus/POV.cc:2577-2598 | every key's count is its number of occurrences over all ballots |
| BallotCount.FindMax | PoVBlockchain/phxpaxos/src/consensus/POV.cc:2602-2611 | the smallest of the keys with most votes left |
| BallotCount.OutcomeIsUnique | PoVBlockchain/phxpaxos/src/consensus/POV.cc:2600-2618 | the votes determine the outcome |
| BallotCount.OrderDoesNotMatter | PoVBlockchain/phxpaxos/src/consensus/POV.cc:2564-2620 | ballots in another order give the same outcome |
| BallotCount.OutcomeMeans | PoVBlockchain/phxpaxos/src/consensus/POV.cc:2600-2618 | distinct winners with votes, in descending order, none excluded having more |
| ConfigRoundTrip.RoundTripIff | PoVBlockchain/phxpaxos/src/consensus/ConfigHelper.cpp:54-142 | writing and reading gives the same map exactly when keys and values have the form that can be read |
| ConfigRoundTrip.ParseIsOk | PoVBlockchain/phxpaxos/src/consensus/ConfigHelper.cpp:74-142 | everything read from any text has that form |
| ConfigLastLine.LastLineIff | PoVBlockchain/phxpaxos/src/consensus/ConfigHelper.cpp:110-132 | a text without a final line break means the same as with one if and only if its last line does not continue an open value; otherwise it means what it would with that line, without its comment, standing there twice |
| ConfigRoundTrip.LastLineTwice | PoVBlockchain/phxpaxos/src/consensus/ConfigHelper.cpp:113-132 | the smallest instance of it, one key and one continuation |
| ConfigText.ParsePrinted | PoVBlockchain/phxpaxos/src/consensus/ConfigHelper.cpp:54-142 | what was written is read back, in any order of entries and onto any map |
| ConfigComments.CommentsDoNotMatter | PoVBlockchain/phxpaxos/src/consensus/ConfigHelper.cpp:74-142 | a text means the same without the comments of all lines that hold anything else |
| ConfigComments.CommentBehindLine | PoVBlockchain/phxpaxos/src/consensus/ConfigHelper.cpp:85-97 | what is left of such a line is all that stands before the comment sign |
| ConfigObjects.InputStream.ReadLine | PoVBlockchain/phxpaxos/src/consensus/ConfigHelper.cpp:85-97 | one line, with the stream's two flags |
| ConfigObjects.TrimInPlace | PoVBlockchain/phxpaxos/src/consensus/ConfigHelper.cpp:45-51 | white space cut off at both ends |
| ConfigObjects.ConfigHelper.ReadValue | PoVBlockchain/phxpaxos/src/consensus/ConfigHelper.cpp:110-132 | the look-ahead loop: continuation, blank line, line with a key, end |
| ConfigObjects.ConfigHelper.Read | PoVBlockchain/phxpaxos/src/consensus/ConfigHelper.cpp:74-142 | equals the reading function on every text |
| ConfigObjects.ConfigHelper.Write | PoVBlockchain/phxpaxos/src/consensus/ConfigHelper.cpp:54-65 | every entry once, as one text |
| ConfigObjects.WriteAndRead | PoVBlockchain/phxpaxos/src/consensus/ConfigHelper.cpp:54-142 | the written and re-read configuration equals the first exactly when it has the readable form |

## Left out

- Membership changes, followers, temporary nodes and the mode with group id zero: membership is fixed.
- Empty client values, failing disk writes and failing state machines in the consensus core.
- Proposal ids, versions and counts are unbounded; the wrap-around of 64-bit and 32-bit counters is not modelled, except that log lengths and instance ids keep to their width and the version of a master stays below its reserved value.
- PaxosTheorems.Agreement: crashes are not part of the agreement proof, because a record written by log shipping stores the learned ballot in place of the promise, and a reload can lower a promise that skipping prepare relied on.
- PaxosRestart.RestartNeverReusesABallot: one node, with any messages whatever; no crash may hit a process at risk, and LearningIsSafeIff says exactly which those are.
- PaxosProgress.EveryWorldGoesOn: a continuation exists; that every fair run decides is not claimed, and with duelling proposers it is not so.
- PaxosStart.StartSucceeds: checkpoints older than the one the process itself began from are not covered; whether they do depends on what earlier processes left in the log.
- PaxosLimits.ReprepareKeepsValueIff: one step, against any promise another member may form; PrepareGuardNeededIff is the statement about runs.
- The instance counters of proposer, acceptor and learner, which always agree, are one field; the highest instance seen, the no-op timers, asking for learning and the retry queue are left out, since a message of the retry queue is a late delivery and records may be shipped at any time.
- The checksum function of the core and of the log is any function; the parser of acceptor states is any predicate.
- The packing of file ids into twelve bytes, the reserved keys of the index, and the forced deletion of a single record.
- Torn or failed writes in the log, and recovery after files were deleted; the index is compared after any loss of its newest writes.
- LogStorage.LogStore.Read: a record whose stored length is below eight bytes, which appending never writes, is an error here.
- LogCleaner.Cleaner.Step: locals of the cleaner's loop are fields here, so that other threads can act between two rounds; sleeping is left out.
- Master state learned by checkpoint buffer, which does not refresh the lease length it exports again.
- The sleeping and dropping of the master manager's loop, and callbacks.
- MasterProof.SingleMaster: byte-identical operations handed over twice in one instance are excluded, since operations carry a random number; clocks run at one rate; in clusters of three or more a master does not renew with an earlier deadline.
- CheckpointTransfer.TransferIsExact: names are compared as texts, so a name with a parent-directory part is a name of its own; creating directories, locking and pausing are left out.
- LearnerWindow.NeverStuckIff: the lead stays the same within a session, as it does in the program; the polling interval of the wait is left out, an ack finds the wait timed out from the very moment of the timeout on.
- BallotCount.BallotStatistic: counts are unbounded, not 32-bit, and ballots are lists of keys without their JSON form.
- Other delimiters and comment signs than '=' and '#', typed values, and opening files.
- Wire packing of headers, account lists, hex helpers, sockets, threads, benchmarks, and the rest of the blockchain layer.
