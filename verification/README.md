# Verified model of z4

z4 is a replicated task queue. Producers push tasks, which are either FIFO or scheduled for a time;
consumers receive them from a feed and acknowledge them; a task that is not acknowledged in time is
delivered again. The tasks, queue settings and index counters live in an ordered key-value store
(pebble) on every replica, and change through commands in a replicated log.

This project models that logic in Dafny and proves what it guarantees, over every input and every
run:

- **Identifiers and keys** (`bytes.dfy`, `ids.dfy`, `keys.dfy`): 16-byte ids, their base-62 text, and
  the keys built from them.
- **Storage** (`taskstore.dfy`, `tasks.dfy`, `iterator.dfy`): batches of saves and deletes, the tasks
  made from requests, and range iteration against filter-and-sort.
- **Index allocator** (`sequence.dfy`): leased numbering over opens, draws, closes and crashes, and
  the hand-over to a follower and back.
- **Replicated state machine** (`statemachine.dfy`, `writers.dfy`, `snapshot.dfy`, `recovery.dfy`):
  batches applied by three interleaved workers with buffered acks, snapshots, and recovery.
- **Delivery protocol** (`lane.dfy`, `laneproofs.dfy`, `lanetheorems.dfy`): a state machine of one
  lane of a queue, FIFO or scheduled, with saves, acks, flushes, both readers, settings syncs, reloads,
  the replay of the log and an arbitrary non-decreasing clock interleaved freely.
- **Readers and settings** (`readers.dfy`, `syncer.dfy`): the readers and the settings syncer as
  objects over the store.
- **The database** (`database.dfy`, `dbinvariant.dfy`, `simulation.dfy`, `refinement.dfy`,
  `dbtheorems.dfy`, `dbskips.dfy`, `due.dfy`, `feed.dfy`, `redelivery.dfy`, `spacing.dfy`): a replica
  with the feed of one queue, down to keys, records, cursors and proposals; every run of it is a run
  of the delivery protocol in both lanes, the guarantees and their exact conditions said of the
  database, what each pass delivers and redelivers, and the objects of the feed as its paths.
- **Leases** (`leases.dfy`) on feeds, where a release is two critical sections.
- **SQL push-down** (`sql.dfy`): filters turned into a key range without changing the query.

`dafny verify dfyconfig.toml` checks everything.

## Reading the model

The store is `map<Bytes, Value>` with byte strings as keys; `Value` is a decoded task, queue
configuration or index. Times are nanoseconds since the epoch as unbounded integers, and the 64-bit
wrap-around of `UnixNano`, of durations and of indexes is written out. `ZERO_TIME` is Go's zero time.
The clock, the outcome of a proposal, the number of tasks a consumer takes before its feed closes, and
the index drawn for a task are parameters, as are the outcomes of commits. A panic on an unreadable id
is a `None` or a `false` result. `hide` statements only keep proofs small.

After a restart the log since some snapshot is applied again over the surviving store, one part after
another. Nothing in the code keeps a feed from being opened before that is done, and so nothing in the
model does: a feed may find settings that were replaced long ago, and tasks may come back as they were
made while it runs. Only new commands come after the replay.

What the proofs rest on:

- writes without sync are durable and ordered, and a batch commit is atomic;
- an iterator or snapshot of the store sees one point in time;
- encoding and decoding a protobuf message are inverse (`SnapshotIsExact` takes the pair as
  parameters; elsewhere values are decoded already);
- an allocator run stays one lease away from the end of the 64-bit range (part of `Sequences.Run`).

Where the code and its comments disagree the model follows the code:

- `iden/id.go` calls `Max` the largest id. Its time wraps around to one second before the epoch
  (`DefaultFifoCheckpoint`), so larger ids exist. The upper bound of an open SQL window wraps the same
  way and still lies above every schedulable time.
- `storage/queue.go` says a crash can lose as many indexes as the lease is long. It loses at most one
  fewer (`EveryStepAccounts`).

Properties that fail on some inputs, with the exact condition:

- Printing and parsing an id is the identity if and only if the id starts with a non-zero byte or is
  zero (`ParseShowExact`).
- The ack of a made task computes its key if and only if the task is unscheduled or its shifted time is
  not the zero time (`SaveKeyIsAckKey`; an input that fails: `WrappedScheduleCannotBeAcked`).
- The prefix of a queue matches no task of another queue if and only if neither name goes on after the
  other and a `#`, the second only within the width of an id (`SeparateExactly`, and for a single key
  `PrefixMatches`; inputs: `HashLeaks`, `IdLeaks`).
- Indexes are never reused if and only if leases have at least two indexes (`SafeExactlyFromTwo`).
- A follower that takes over never reuses an index if and only if no batch held an index above the
  largest of the last batch that had one (`TakeoverIsSafeExactly`, `OutOfOrderLogReuses`). A leader that
  comes back with its old sequence object reuses an index if and only if the log applied meanwhile has
  one above the object's position (`CachedSequenceReusesExactly`).
- The result of a batch does not depend on the interleaving if and only if no task it saves is
  acknowledged in the batch or in the buffer; of a batch that begins during a flush only its own acks
  count, or the buffered ones if it has none (`OneResultExactly`).
- A save leads to no skipped task if and only if it lies above the checkpoints in memory, proposed and
  ever replicated, and above what a running pass has left (`SkipsExactly` of a lane,
  `SkipsExactlyInDatabase` of keys and settings; an explicit run: `ScheduledTasksCanBeSkipped`).
- While its ack deadline runs, a redelivered task is not redelivered again if and only if no save of it
  is left to be applied again (`SpacingExactly`). With a restart any task that is due can be redelivered
  twice in a row (`RestartRedeliversTwice`).
- A time comparison pushed down loses no row if and only if it is `Lossless`, a condition on its times
  (`LosslessExactly`): `>` and `>=` lose rows for starts before the epoch that wrap around to more than
  2^56, `<` for ends from 2^64 on that wrap around to less than 2^63, `<=` and BETWEEN for those and for
  every end inside the times of tasks, `=` for every such time. A window finds nothing if and only if no
  time of a task lies between its wrapped ends (`FindsNothingExactly`).

## Model

| member | source | states |
|---|---|---|
| ByteStrings.LessIsNumeric | storage/iterator.go:70-89 | the byte order of equally long strings is the order of the big-endian numbers they encode |
| ByteStrings.MinBytesStrips | iden/parse.go:8-18 | the minimal big-endian bytes of a number are its fixed-width bytes without leading zeros |
| Ids.TextRoundTrip | iden/id.go:49-53 | base-62 text reads back as the number it was written from |
| Ids.ParseShow | iden/parse.go:8-18 | parsing a printed id gives the id shifted left by its leading zero bytes, for all ids |
| Ids.ParseShowExact | iden/parse.go:8-18 | printing and parsing is the identity exactly for ids with a non-zero first byte and for zero |
| Ids.UsualIdsRoundTrip | iden/id.go:15-20 | every FIFO id and every id with a time in [2^56, 2^63) survives its text form |
| Ids.NewParts | iden/id.go:15-20 | time bits, index and numeric order of a new id, with the 64-bit wrap of its time |
| Ids.NumberParts | iden/id.go:32-47 | an id is rebuilt from its time and index, and ordered by (time bits, index) |
| Ids.DefaultFifoCheckpoint | iden/id.go:22-30 | Max survives its text form, has the largest index, and its time wraps to a second before the epoch |
| Ids.DefaultSchedCheckpoint | iden/id.go:22-30 | Min survives its text form and is the least id |
| Keys.Kinds | storage/task.go:26-32 | FIFO, scheduled, configuration and sequence keys never collide, whatever the queue name |
| Keys.FifoKeyInjective | storage/task.go:143-152 | FIFO keys agree exactly when queue and index agree |
| Keys.SchedKeyInjective | storage/task.go:136-141 | scheduled keys agree exactly when queue and id agree |
| Keys.QueueKeysInjective | storage/queue.go:42-44 | sequence and configuration keys determine the queue |
| Keys.TaskKeyInjective | storage/task.go:115-120 | two tasks share a key exactly when kind, queue and index (FIFO) or id (scheduled) agree |
| Keys.PrefixMatches | storage/iterator.go:116-157 | for all names: a queue's prefix matches a task key if and only if the queue is the task's, the task's name goes on after `name#`, or the name goes on after the task's and the index or id bytes spell the rest |
| Keys.SeparateExactly | storage/iterator.go:116-157 | a queue's prefix matches no task of another queue, whatever its id, if and only if the two names are separate |
| Keys.PrefixIsolation | storage/iterator.go:116-157 | with '#'-free names a queue's prefix matches its own tasks and no others |
| Keys.HashLeaks | storage/iterator.go:116-157 | for every queue a name containing '#' exists whose tasks all match the queue's prefix |
| Keys.IdLeaks | storage/iterator.go:116-157 | a task of a '#'-free queue matches the prefix of a name with '#' when its id spells the rest of the name |
| Keys.AckKeyKind | storage/task.go:122-134 | an ack key is always a task key |
| TaskStores.TaskStore.SaveAll | storage/task.go:56-95 | either all tasks and the highest index per queue are committed, or (unreadable id, failed commit) nothing is |
| TaskStores.TaskStore.DeleteAll | storage/task.go:34-54 | exactly the keys named by readable acks are deleted, or none when the commit fails |
| TaskStores.TaskPutsAt | storage/task.go:59-79 | a key is written exactly when a task of the batch has it, and the last such task wins |
| TaskStores.MaxIndexesAt | storage/task.go:59-64 | the recorded index is an upper bound of the queue's indexes in the batch and is reached |
| TaskStores.AddIndexes | storage/task.go:81-93 | the loop over the highest indexes adds exactly one sequence entry per queue |
| TaskCreation.MadeTasksAreStorable | server/api/queue.go:126-145 | every made task has a readable id, shifted by its leading zero bytes |
| TaskCreation.MadeAsRequested | server/api/queue.go:126-154 | a made task has the queue, metadata and payload of its request and no retry; it is unscheduled without a schedule or a positive wait, scheduled for the time of the request, or for now plus the wait in seconds, which wraps around at 2^63 ns |
| TaskCreation.SaveKeyIsAckKey | server/api/queue.go:126-154 | the ack of a made task computes its save key, if and only if it is unscheduled or its shifted time is not the zero time |
| TaskCreation.UsualTasksCanBeAcked | storage/task.go:115-134 | for no schedule or a schedule in [2^56, 2^63) the ack always computes the save key |
| TaskCreation.WrappedScheduleCannotBeAcked | storage/task.go:122-134 | a schedule 2^64 ns after the zero time is saved as scheduled and acked as FIFO |
| TaskCreation.FlushRemovesExactlyTheAcked | storage/task.go:34-54 | a flush removes a stored task exactly when one of the acked tasks has its queue, kind and index or id |
| Iteration.TaskIterator.constructor | storage/iterator.go:21-34 | a new iterator stands before exactly the keys of the range |
| Iteration.TaskIterator.Next | storage/iterator.go:54-89 | returns the keys of the range one by one in order, then end of file for good |
| Iteration.TaskIterator.ForEach | storage/iterator.go:37-52 | hands over the tasks of the range in order until the callback fails |
| Iteration.NoneAfter | storage/iterator.go:70-89 | once a key fails the prefix or end test, no later key is in the range, so stopping loses nothing |
| Iteration.CoversIsNumeric | storage/iterator.go:102-157 | when the names of the stored queues are separate, a stored entry is in a range exactly when it is a task of that queue and kind with index or id between the inclusive bounds |
| Iteration.IterationRefinesFilterAndSort | storage/iterator.go:21-89 | when the names of the stored queues are separate, iterating visits exactly the stored tasks that pass the filter, once each, with strictly increasing ranks |
| Iteration.YieldIsVisited | storage/iterator.go:70-89 | in a store this program wrote the iterator never meets a value that is no task |
| Iteration.WellFormedSave | storage/task.go:56-95 | saving keeps every entry under the key its value calls for |
| Iteration.WellFormedDelete | storage/task.go:34-54 | deleting keeps every entry under the key its value calls for |
| Iteration.HashFreeIsApart | storage/iterator.go:116-157 | names without '#' are always separate |
| Sequences.Sequence.constructor | storage/sequence.go:34-46 | opening is the step Open of the key's run: resume from the stored index and store the end of a fresh lease |
| Sequences.Sequence.Reserve | storage/sequence.go:48-52 | the end of the lease is stored and kept, in 64-bit arithmetic |
| Sequences.Sequence.Next | storage/sequence.go:54-66 | a draw is the step Draw of the key's run, and the index lies above every index the key has issued |
| Sequences.Sequence.Close | storage/sequence.go:68-74 | closing is the step CloseCleanly of the key's run: whatever opens next loses no index and goes on right after this one |
| Sequences.StepKeepsInv | storage/sequence.go:34-74 | opens, draws, closes and crashes keep the allocator's invariant |
| Sequences.AllocatorIsSafe | storage/sequence.go:34-74 | for leases of at least 2, in every run: indexes strictly increase, issued plus lost indexes account for the range, no crash means no gap, and all crashes together lose at most lease size minus 1 each |
| Sequences.EveryStepAccounts | storage/sequence.go:34-74 | step by step: a draw issues the very next index, stopping skips none, and opening skips none after a clean close and at most lease size minus 1 after a crash |
| Sequences.SmallLeasesReuseIndexes | storage/sequence.go:48-66 | for leases of 0 or 1 some run issues indexes that do not increase |
| Sequences.SafeExactlyFromTwo | storage/queue.go:13-22 | every run issues strictly increasing indexes if and only if the lease size is at least 2 |
| Sequences.BatchSetsKey | storage/task.go:81-93 | after a batch the sequence key holds the batch's largest index, whatever it held before |
| Sequences.LastBatchSetsKey | storage/task.go:81-93 | after any log the key is the largest index of the last batch that has one, else the old key |
| Sequences.FollowerKeyIsHighest | storage/task.go:56-95 | however an increasing log is cut into batches and whatever the key held, it ends up no less than any index of the log; it is the index of a logged task when the log has a positive one, else the old key |
| Sequences.TakeoverNeverReuses | storage/sequence.go:34-66 | a sequence opened on that follower issues only indexes above every index in the log |
| Sequences.TakeoverIsSafeExactly | storage/sequence.go:34-66 | for any log and any old key: a sequence opened afterwards issues only indexes above the whole log if and only if no batch holds an index above the largest of the last batch that has one |
| Sequences.OutOfOrderLogReuses | storage/task.go:83-92 | for any log and any old key: the sequence goes on to issue an index of the log if and only if that condition fails |
| Sequences.CachedSequenceReusesExactly | storage/sequence.go:76-113 | a sequence object kept while another leader writes goes on to issue an index of the log applied meanwhile if and only if the log has an index above the object's position |
| StateMachines.GroupingKeepsMeaning | server/cluster/sm/writer.go:68-95 | applying a batch by groups equals applying its commands in order, when it does not both save and ack a task |
| StateMachines.LastCommandDecides | server/cluster/sm/writer.go:104-147 | what a log means, key by key: the last command that concerns a key decides, a saved task or setting is there as saved, an acked task is gone |
| StateMachines.OtherKeysStay | server/cluster/sm/writer.go:104-147 | a key that no command concerns is as it was before the log |
| StateMachines.StepKeepsInv | server/cluster/sm/writer.go:104-147 | every step of the three workers and of a flush keeps what the replica is going to stand for |
| StateMachines.BatchingDoesNotMatter | server/cluster/sm/writer.go:37-147 | for every run, split into batches, interleaving and flush point, store minus buffered acks equals the fold of the log |
| StateMachines.SaveAndAckInOneBatchRace | server/cluster/sm/writer.go:121-147 | for any batch and node, also in the middle of a flush, a saved task named by a racing ack (in the batch or the buffer) ends gone in one run and stored in another |
| StateMachines.OneResultExactly | server/cluster/sm/writer.go:37-147 | all interleavings and flushes of a batch give the same result if and only if no racing ack names a task it saves: the acks of buffer and batch, or during a flush those of the batch, or of the buffer if it has none |
| StateMachines.OneResultIffGoodBatch | server/cluster/sm/writer.go:37-147 | with no such ack in the buffer, the condition is that the batch does not both save and ack a task |
| StateMachines.DisjointBatchMeansCommands | server/cluster/sm/writer.go:37-147 | and then every run of the batch means its commands in order |
| Writers.TaskWriter.Push | feeds/q/writer.go:30-32 | saves the batch, with indexes on a follower, or nothing when an id is unreadable or the commit fails |
| Writers.TaskWriter.Acknowledge | feeds/q/writer.go:34-45 | buffers the acks, flushes above 2000, and removes exactly the acked keys from what the replica stands for, whether or not the flush succeeds |
| Writers.TaskWriter.Tick | feeds/q/writer.go:47-64 | the ticker keeps what the replica stands for, and empties the buffer when the commit succeeds |
| Writers.TaskWriter.Flush | feeds/q/writer.go:66-73 | deletes the acknowledged keys and empties the buffer, or keeps both when the commit fails; what the replica stands for stays |
| Writers.BatchWriter.Write | server/cluster/sm/writer.go:37-60 | one outcome per entry: all rejected and nothing written for an unreadable entry, all rejected for a failed write; the store and buffer mean the commands in order but for those whose write failed, and a follower sets the sequence of each queue to the highest index of the batch |
| Writers.BatchWriter.GroupByType | server/cluster/sm/writer.go:68-95 | splits the commands into three groups in log order, or fails on the first unreadable entry |
| Writers.WriteMeansCommands | server/cluster/sm/writer.go:37-147 | the store and buffer a batch leaves stand for the old ones with the commands applied in order |
| Writers.WriteMeansSurviving | server/cluster/sm/writer.go:97-147 | whatever writes of a batch fail, what the replica stands for is the old tasks and settings with the surviving commands applied in order |
| Writers.AllSurvive | server/cluster/sm/writer.go:97-147 | without a failed write every command survives |
| Snapshots.WriteFrame | server/cluster/sm/snapshot.go:42-57 | appends a 4-byte big-endian length and the bytes, as far as the sink has room, or fails on a wrong length buffer |
| Snapshots.Persist | server/cluster/sm/snapshot.go:21-39 | the stream is the encoding of all records in order, cut off where the sink fails |
| Snapshots.Restore | server/cluster/sm/snapshot.go:79-127 | clears the store, then loads records until the stream ends or tears |
| Snapshots.RawStore.DeleteAll | server/cluster/store.go:21-27 | removes exactly the keys of the two ranges |
| Snapshots.RawStore.Write | server/cluster/store.go:17-19 | sets one key |
| Snapshots.WrittenKeysAreCleared | server/cluster/store.go:21-27 | the two range deletions reach every key the program writes, for every queue name |
| Snapshots.RestoreOfPersist | server/cluster/sm/snapshot.go:21-127 | restoring a persisted store over any store the program wrote gives exactly the persisted map |
| Snapshots.RestoreOfTruncated | server/cluster/sm/snapshot.go:87-127 | a stream cut anywhere leaves exactly the whole records before the cut and succeeds only at a record boundary or right after a key's length |
| Recovery.AckedTasksAreGone | server/cluster/sm/writer.go:137-147 | when no task is saved after its ack, an acked task is not in the result of the log |
| Recovery.SnapshotIsExact | server/cluster/sm/fsm.go:45-55 | a snapshot taken, restored and decoded is the store it was taken of |
| Recovery.SnapshotThenSuffix | server/cluster/sm/fsm.go:36-55 | snapshot then rest of the log contains the full-log result, and extra tasks are ones whose ack was buffered at snapshot time |
| Recovery.CrashThenReplay | server/cluster/peer.go:92-101 | a crash in the middle of anything, then replaying the log since the snapshot over the surviving store, loses nothing |
| LaneTheorems.StepKeepsInv | feeds/q/undelivered.go:36-58 | every step of the delivery protocol keeps its invariant |
| LaneTheorems.NoTaskIsSkipped | feeds/q/undelivered.go:36-58 | in both lanes, when every task is saved above the checkpoints and above what a running pass has left: in every reachable state a waiting task is stored, above the in-memory, replicated and proposed checkpoints, and the next pass reaches it once due |
| LaneTheorems.NoFifoTaskIsSkipped | feeds/q/fifo.go:26-43 | the same for FIFO tasks when each batch has indexes above all earlier ones |
| LaneTheorems.DisorderlySaveSkips | feeds/q/sched.go:26-41 | a task saved elsewhere can be continued, without another save, to a state where a checkpoint has moved past it, if need be by replaying settings that were replaced long ago and reloading them |
| LaneTheorems.SkipsExactly | feeds/q/undelivered.go:36-58 | after an orderly run, nothing that can happen up to the next save skips a task if and only if this save is orderly |
| LaneTheorems.DeliveryIsOrdered | feeds/q/undelivered.go:36-58 | between reloads the undelivered reader pushes strictly increasing ranks over all passes |
| LaneTheorems.ReplicatedCheckpointLags | storage/syncer.go:89-132 | the replicated checkpoint is always an earlier in-memory one or the current one |
| LaneTheorems.FinalSyncCatchesUp | storage/syncer.go:89-112 | whatever proposals were in flight and were committed or dropped, once a proposal made after the last push is committed and nothing is pending, replica and memory agree |
| LaneTheorems.NeverEarly | feeds/q/sched.go:13-34 | no scheduled task is pushed at or before its time, nor redelivered before its time plus the ack deadline |
| LaneTheorems.RetriesAreSpaced | feeds/q/delivered.go:40-111 | redelivery passes never overlap, and two redeliveries of a task are more than the ack deadline apart unless the task was applied again from the log between them |
| LaneTheorems.TasksAreKeptUntilAcked | feeds/q/delivered.go:58-86 | a saved task stays stored until it is acknowledged |
| LaneTheorems.ScheduledPassReaches | feeds/q/sched.go:26-34 | a single pass reaches a stored scheduled task if and only if it lies above the checkpoint and its time is past when the range is asked for |
| LaneTheorems.ScheduledTasksCanBeSkipped | feeds/q/sched.go:26-41 | an explicit run leaves a waiting scheduled task at or below the checkpoint |
| Readers.QueryBounds | feeds/q/fifo.go:13-36 | the four queries, read as numbers, are the lanes' ranges, with the index wrap of the default checkpoint |
| Readers.DefaultSettings | storage/syncer.go:62-86 | the default settings hold the lanes' default checkpoints |
| Readers.UndeliveredReader.Read | feeds/q/undelivered.go:36-58 | pushes a prefix of what the query yields, and the checkpoint is that of the last task pushed |
| Readers.DeliveredReader.Scan | feeds/q/delivered.go:88-111 | pushes in order exactly the tasks older than the watermark, each with its stamp, up to an error or a closing feed |
| Readers.DeliveredReader.Finish | feeds/q/delivered.go:69-86 | stamped tasks are written back and the reader freed, unless the pass failed, its write-back failed or it pushed nothing |
| Readers.SaveAllIsLaneSave | storage/task.go:56-95 | a saved batch changes each lane by its own tasks only |
| Readers.DeleteAllIsLaneFlush | storage/task.go:34-54 | a flush changes each lane by the acknowledged ranks only |
| Readers.MadeTasksHaveRealRanks | server/api/queue.go:126-154 | made tasks enter their lane at a rank the protocol expects, which carries the schedule time |
| DatabaseInvariant.DbStepOk | feeds/feed.go:76-105 | every step of the database keeps entries under their own keys, settings readable, cursors on tasks of their lane and buffered acks among those of the log |
| Simulation.StoreStepSim | storage/task.go:34-95 | saves, acks, flushes and the activity of other queues are steps of the lane |
| Simulation.SettingsStepSim | storage/syncer.go:89-132 | proposals, commits (reported or late), drops and new deadlines are steps of the lane |
| Refinement.CursorStepSim | feeds/q/undelivered.go:36-58 | asking for a range, opening a cursor, pushing and closing are the lane's steps, with the store changing in between |
| Refinement.RetryStepSim | feeds/q/delivered.go:40-111 | each step of a redelivery pass over the store is the lane's step, with the store changing in between |
| Refinement.ReplaySim | server/cluster/peer.go:92-101 | applying a part of the log again over the surviving store, beside a feed or not, is the lane's replay |
| Refinement.OpenFeedSim | feeds/feed.go:25-48 | opening a feed, after a restart or not, is the lane's reload of the replicated settings as they are at that moment |
| Refinement.DbRunIsLaneRun | feeds/feed.go:76-105 | every run of the database is, step by step, a run of each of its lanes, with the pushes of both readers and their times |
| DatabaseTheorems.NoTaskIsSkippedInDatabase | feeds/q/undelivered.go:36-58 | in every run with orderly saves, a task saved and neither pushed nor acked has its key in the store, a rank above the checkpoint in the settings, the replicated settings and every proposal, and the next cursor holds its key once due |
| DatabaseTheorems.NoFifoTaskIsSkippedInDatabase | feeds/q/fifo.go:26-43 | the same for FIFO tasks when each batch has indexes above all earlier ones |
| DatabaseSkips.DisorderlySaveSkipsInDatabase | feeds/q/sched.go:26-41 | a task saved elsewhere can be continued, without another save, to a database whose settings, replicated settings or proposals have a checkpoint past it while it waits |
| DatabaseSkips.SkipsExactlyInDatabase | feeds/q/undelivered.go:36-58 | after an orderly run of the database, nothing that can happen up to the next save skips a task of the queue if and only if this save is orderly |
| DatabaseTheorems.DeliveryIsOrderedInDatabase | feeds/q/undelivered.go:36-58 | since its feed was opened, a lane has pushed undelivered tasks with strictly increasing ranks |
| DatabaseTheorems.NeverEarlyInDatabase | feeds/q/sched.go:13-34 | no scheduled task is pushed at or before its schedule time, nor redelivered before that plus the ack deadline of the pass |
| Redelivery.RedeliveriesAreDue | feeds/q/delivered.go:88-111 | in every run and both lanes a redelivery comes more than the ack deadline of the settings after the task's last retry, or after its creation if it had none |
| Redelivery.PassCoversExactly | feeds/q/fifo.go:13-21 | in every run the range of a redelivery pass holds the key of a stored task exactly if its index is at most the checkpoint (FIFO), or its time is before one ack deadline ago (scheduled), and no other keys |
| Redelivery.PassRedeliversExactly | feeds/q/delivered.go:58-111 | in every run a complete pass, however interleaved, redelivers exactly the tasks stored when its iterator opened, covered when its range was asked for, and last sent more than one ack deadline before it began; each once and in order |
| DueTasks.YieldsAwaiting | feeds/q/undelivered.go:53-58 | the iterator of the undelivered reader yields exactly the stored tasks of the lane above the checkpoint and due, in order |
| DueTasks.PicksOverdue | feeds/q/delivered.go:88-111 | a scan picks exactly the stored tasks that are covered and were last sent more than one ack deadline ago, in order |
| DatabaseTheorems.RetriesAreSpacedInDatabase | feeds/q/delivered.go:40-111 | since its feed was opened, redelivery passes of a lane do not overlap, and two redeliveries of a key are more than the ack deadline apart unless its save was applied again between them |
| Spacing.SpacingExactly | feeds/q/delivered.go:40-111 | when the next pass can begin within the ack deadline after a redelivery, and the task would be due by its creation: whatever the feed still does keeps to the deadline if and only if no save of the task is left to be applied again |
| Spacing.AppliedAgainIsTooEarly | feeds/q/delivered.go:58-111 | the replay of a save puts the task back as it was made, and the next pass of the same feed redelivers it |
| Spacing.RestartRedeliversTwice | server/cluster/peer.go:92-101 | from any run, a stored task that is due can be redelivered twice, one pass interval apart, by a feed opened during the replay of a restart |
| DatabaseTheorems.TasksAreStoredUntilAcked | storage/task.go:34-95 | a task of the log has its key in the store until an ack names it |
| Feeds.Deliver | feeds/q/undelivered.go:36-58 | a call of Read pushes the first tasks that are stored, above the checkpoint and due, as many as the feed accepts, moves the checkpoint to the last, and is a path of the database |
| Feeds.Poll | feeds/feed.go:76-95 | asking Ready and calling Read begins a pass exactly when none is running or stuck and 30 seconds are over since the last began |
| Feeds.Redeliver | feeds/q/delivered.go:58-111 | a pass pushes the first overdue tasks, as many as the feed accepts, stamps them and writes them back unless the commit fails, frees the reader exactly then, and is a path of the database |
| Feeds.SyncOnce | storage/syncer.go:115-132 | a turn of the syncer writes the settings and logs them if applied or late, changes nothing if refused or saved last, and is a path of the database whatever was in flight |
| Feeds.Feed.PullAndPush | feeds/feed.go:76-105 | one round: in each lane the first tasks that are stored, above the checkpoint and due at the reader's time are pushed, as many as the feed accepts, checkpoints move to the last ones, a redelivery pass begins exactly if it may, and the count is that of the pushes; the rest of the database stays |
| Feeds.MadeTasksAreFresh | server/api/queue.go:126-154 | a made task with an index its queue has not used enters the database as a fresh task |
| Feeds.WaitsAreKept | server/api/queue.go:147-154 | in every run a task pushed with a wait of s seconds is delivered only after now plus s seconds, redelivered only one ack deadline later, and never by the FIFO readers |
| Syncing.SyncedSettings.Load | storage/syncer.go:62-86 | takes over replicated settings, else proposes the defaults; on success memory and replica agree |
| Syncing.SyncedSettings.TrySave | storage/syncer.go:115-132 | a success leaves replica and memory equal, a refusal changes nothing, a late proposal is applied though reported as failed, and saved settings are not proposed again |
| Syncing.SyncedSettings.Close | storage/syncer.go:55-59 | a last attempt: the replica holds the settings in memory, or what it held before |
| Syncing.NewQueueStartsAtDefaults | storage/syncer.go:73-80 | a new queue starts both lanes at their default checkpoints, with an ack deadline of five minutes |
| Leases.LeasesAreSafe | feeds/manager.go:47-98 | in every interleaving: one open feed per queue, none closed twice, an unreleased lease's feed is open unless the manager closed, and an empty mapped holder has a cleanup pending |
| Leases.StepKeepsInv | feeds/lease.go:41-75 | acquiring, both halves of a release, repeated release and closing keep the invariant |
| Leases.Manager.Lease | feeds/manager.go:47-64 | grants a fresh lease on the queue's one holder, whose feed is open; nothing changes when the feed cannot be created |
| Leases.Manager.Remove | feeds/lease.go:54-62 | the lease leaves its holder and a cleanup is owed |
| Leases.Manager.CleanUpLeases | feeds/manager.go:66-86 | a mapped holder without leases is closed and unmapped, any other stays |
| Leases.Manager.Close | feeds/manager.go:89-98 | the loop closes every mapped feed exactly once and empties the table |
| SqlTables.PushDownKeepsMeaning | storage/sqli/task_table.go:113-188 | for supported filters with any times, every row is a stored scheduled task that satisfies them, in id order and once each, and none is missing when the deciding time comparison is lossless |
| SqlTables.RowsMissExactly | storage/sqli/task_table.go:113-188 | for conjunctions of comparisons and other tests, the rows are exactly the satisfying tasks of the store whose id is not below the wrapped start or above the wrapped end |
| SqlTables.RowsAreExactly | storage/sqli/task_table.go:113-291 | for any filters that leave a window, the rows are exactly the stored scheduled tasks of the queue left that satisfy all filters and lie in the wrapped window, once each and in id order |
| SqlTables.ColumnFiltersKeepMeaning | storage/sqli/task_table.go:269-308 | a test of the id, last retry, metadata or payload added anywhere to a query keeps the window, and the rows are those without it whose stored record passes the test, in the same order |
| SqlTables.MissedByTime | storage/sqli/task_table.go:139-188 | a task is missed if and only if its time is before the wrapped start, after the wrapped end, or at it with an index above 0 |
| SqlTables.LosslessExactly | storage/sqli/task_table.go:139-188 | a closed condition on the times of a comparison: no query that it decides loses a row in any store, if and only if it holds |
| SqlTables.FindsNothingExactly | storage/sqli/task_table.go:113-137 | a window finds nothing in any store if and only if no time of a task lies between its wrapped ends |
| SqlTables.EqualityFindsNothing | storage/sqli/task_table.go:176-182 | a query whose window a time equality decides, wherever it stands, finds nothing, as the comment there observes |
| SqlTables.PreEpochWindowFindsNothing | storage/sqli/task_table.go:113-137 | an open window that starts before the epoch finds nothing in any store if and only if its start wraps around to 2^63 or above |
| SqlTables.BoundsAre | storage/sqli/task_table.go:113-267 | the bounds are those of the last time comparison and the last queue equality, however the filters are nested |
| SqlTables.BoundsOfAnyFilters | storage/sqli/task_table.go:113-267 | for any expressions, however nested: the times are those of the last node with the time column on its left, the queue that of the last other equality with the queue column on its left, and without such nodes there is no range |
| SqlTables.TimeInIsFirst | storage/sqli/task_table.go:226-252 | getTime gives the first literal of an expression that parses to a time other than the zero time |
| SqlTables.TextInIsFirst | storage/sqli/task_table.go:204-224 | getQueue gives the first text of an expression that is not empty |
| SqlTables.MentionsIsLeaf | storage/sqli/task_table.go:190-202 | isFieldExpression finds a field exactly if it occurs anywhere in the expression |
| SqlTables.TaskTableIterator.Init | storage/sqli/task_table.go:113-137 | walks the filters and opens the range they leave, or fails when a bound or the queue is missing |
| SqlTables.TaskTableIterator.Next | storage/sqli/task_table.go:269-291 | returns the next task that passes all filters, and nothing only when none is left |
| SqlTables.Query | storage/sqli/task_table.go:101-137 | a whole query returns the rows of all that its range holds, or fails when the filters leave no range |

## Left out

- Raft, leader election and log replication: the committed log is a given sequence of commands.
- Peers, process setup, gRPC services, request forwarding and the client packages: wiring around the modelled logic.
- Pebble, gcache and go-mysql-server internals: an ordered map, and an expression tree walked in preorder.
- The sequence cache: eviction is not modelled; an evicted sequence is closed and opened again like any other.
- The channel of a feed: a closing feed appears as a reader that stops after any number of pushes.
- Two feeds of one queue overlapping: a redelivery goroutine can outlive its closed feed by the rest of its pass; in the model it ends with the feed.
- Liveness: nothing says that a task is eventually delivered or redelivered; a redelivery pass that pushes nothing leaves the reader active for good.
- Date parsing and SQL type conversion: a literal comes with the instant it parses to.
- Telemetry, logging, timers' real periods and deployment files.
- Writers.BatchWriter.Write: applies the three groups one after the other; every interleaving is covered by BatchingDoesNotMatter and OneResultExactly over the steps of the same groups.
- Writers.BatchWriter.Write: takes readable task ids only, since the program panics on any other.
- Feeds.Deliver: the object of a call sees one store; changes of the store during a pass are covered by the steps of the database.
- Feeds.Redeliver: as Feeds.Deliver.
- Feeds.Feed.PullAndPush: as Feeds.Deliver; the passes that redelivery readers begin here go on in Feeds.Redeliver, and what they push is not counted.
- Feeds.SyncOnce: a proposal is applied only when no replay is under way, since new commands come after the log.
- LaneTheorems.RetriesAreSpaced: a change of the ack deadline between the two readings at the start of one pass is not modelled.
- Leases.Manager.Lease: holders, feeds and leases are numbered instead of being referenced.
- SqlTables.LosslessExactly: stored scheduled tasks have times from 2^56 up to 2^63, as those that survive their text form do; RowsMissExactly covers all others.
