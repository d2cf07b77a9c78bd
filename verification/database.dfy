/** A replica with the feed of one queue, as it runs: the store of keys and records, the log, the ack
    buffer, the settings and their proposals, and the readers of both lanes with their cursors.

    Saves, acks, flushes, syncs, both readers of both lanes, restarts, the replay of the log, the clock
    and the activity of other queues interleave freely. */
module Database {
  import opened ByteStrings
  import opened Ids
  import opened Keys
  import opened TaskStores
  import opened Iteration
  import opened StateMachines
  import opened Lanes
  import opened Readers
  import opened Syncing

  /** The undelivered reader: the range it asked for, then the view and the keys its iterator has left
      (`TaskIterator.kv` and `TaskIterator.Rest()`). */
  datatype Cursor = Unopened | Ranged(range: TaskRange) | Reading(view: KV, keys: seq<Bytes>)

  /** The stages of a redelivery pass over the store; `taken` are the tasks pushed, with their stamps. */
  datatype Retrying =
    | Resting
    | Begun
    | Watermarked(watermark: int, deadline: int)
    | RetryRanged(watermark: int, deadline: int, end: int, range: TaskRange)
    | Rereading(watermark: int, deadline: int, end: int, view: KV, keys: seq<Bytes>, taken: seq<Task>)

  /** A push by the undelivered reader. */
  datatype Delivered = Delivered(task: Task, at: int)

  /** A push by the redelivery reader, with the ack deadline of its pass, and with how often the task had
      been applied again by then. */
  datatype Redelivered = Redelivered(task: Task, at: int, deadline: int, era: nat)

  /** The two readers of one lane, with what they have pushed since the feed was opened. */
  datatype LaneReaders = LaneReaders(
    cursor: Cursor,
    lastRun: Option<int>,
    active: bool,
    retrying: Retrying,
    delivered: seq<Delivered>,
    redelivered: seq<Redelivered>)

  const FRESH_READERS := LaneReaders(Unopened, None, false, Resting, [], [])

  /** `log` is every command received here, and `replaying` the part of it that a restart has left to be
      applied again; `applied` counts how often the save of a key was applied again. `pushed` is every
      task pushed by any reader. */
  datatype Db = Db(
    queue: Bytes,
    now: int,
    kv: KV,
    log: seq<Command>,
    replaying: seq<Command>,
    applied: map<Bytes, nat>,
    buffer: seq<Ack>,
    settings: QueueConfig,
    lastSaved: Option<QueueConfig>,
    proposals: seq<QueueConfig>,
    fifo: LaneReaders,
    scheduled: LaneReaders,
    pushed: seq<Task>)
  {
    function Of(lane: Lane): LaneReaders { if lane.Fifo? then fifo else scheduled }

    function With(lane: Lane, r: LaneReaders): Db { if lane.Fifo? then this.(fifo := r) else this.(scheduled := r) }
  }

  // ---------- The clock and the log ----------

  predicate ClockTick(d: Db, d': Db) { d.now <= d'.now && d' == d.(now := d'.now) }

  function SaveCommands(tasks: seq<Task>): seq<Command> {
    seq(|tasks|, i requires 0 <= i < |tasks| => SaveTask(tasks[i]))
  }

  function AckCommands(acks: seq<Ack>): seq<Command> {
    seq(|acks|, i requires 0 <= i < |acks| => AckTask(acks[i]))
  }

  function LaneOf(t: Task): Lane { if t.scheduleTime.None? then Fifo else Scheduled }

  /** The name of the queue is kept apart from that of the task's queue. */
  predicate NameApart(queue: Bytes, t: Task) { Separate(queue, t.queue, Width(t.scheduleTime.Some?)) }

  /** A task has a real rank, and a scheduled one carries its time in its id. */
  predicate Timed(t: Task) {
    && Storable(t) && RealRank(LaneOf(t), Rank(t))
    && (t.scheduleTime.Some? ==> Rank(t) / TWO64 == t.scheduleTime.value)
  }

  /** A task of the queue as makeTask builds it, under a key that no task had before. */
  predicate FreshTask(d: Db, t: Task)
    requires Storable(t)
  {
    && t.lastRetry.None? && 0 <= t.createdAt && Timed(t)
    && forall u :: u in Saves(d.log) && Storable(u) ==> TaskKey(u) != TaskKey(t)
  }

  /** A batch of saved tasks, of this queue and of others. New commands come after those that are
      applied again. */
  predicate SaveBatch(d: Db, d': Db, tasks: seq<Task>, isFollower: bool) {
    && d.replaying == [] && AllStorable(tasks)
    && (forall t :: t in tasks ==> NameApart(d.queue, t) && (t.queue == d.queue ==> FreshTask(d, t)))
    && d' == d.(kv := d.kv + SavePuts(tasks, isFollower), log := d.log + SaveCommands(tasks))
  }

  predicate AckBatch(d: Db, d': Db, acks: seq<Ack>) {
    d.replaying == [] && d' == d.(log := d.log + AckCommands(acks), buffer := d.buffer + acks)
  }

  predicate FlushAcks(d: Db, d': Db) { d' == d.(kv := d.kv - AckKeys(d.buffer), buffer := []) }

  /** Other queues and the sequences write what they like, but not the tasks or settings of this one. */
  ghost predicate Elsewhere(d: Db, d': Db) {
    && WellFormed(d'.kv) && Apart(d'.kv, d.queue, false) && Apart(d'.kv, d.queue, true)
    && (forall t: Task :: t.queue == d.queue ==> (Stored(d'.kv, t) <==> Stored(d.kv, t)))
    && Replicated(d'.kv, d.queue) == Replicated(d.kv, d.queue)
    && d' == d.(kv := d'.kv)
  }

  // ---------- The settings ----------

  /** A new ack deadline, not while a pass is between its two readings of it. */
  predicate ChangeDeadline(d: Db, d': Db) {
    && !d.fifo.retrying.Watermarked? && !d.scheduled.retrying.Watermarked?
    && d' == d.(settings := d.settings.(ackDeadlineSeconds := d'.settings.ackDeadlineSeconds))
  }

  /** trySave: settings that differ from those saved last are proposed. */
  predicate ProposeSettings(d: Db, d': Db) {
    d.lastSaved != Some(d.settings) && d' == d.(proposals := d.proposals + [d.settings])
  }

  /** A proposal is applied; a late one may have been reported as failed. */
  predicate CommitSettings(d: Db, d': Db, reported: bool) {
    && d.replaying == [] && d.proposals != []
    && var p := d.proposals[0];
       d' == d.(kv := d.kv[ConfigKey(d.queue) := ConfigValue(p)], log := d.log + [SaveQueue(p)],
                proposals := d.proposals[1..], lastSaved := if reported then Some(p) else d.lastSaved)
  }

  predicate DropSettings(d: Db, d': Db) { d.proposals != [] && d' == d.(proposals := d.proposals[1..]) }

  // ---------- The undelivered reader ----------

  predicate AskRange(d: Db, d': Db, lane: Lane) {
    && d.Of(lane).cursor.Unopened? && Parseable(d.settings)
    && d' == d.With(lane, d.Of(lane).(cursor := Ranged(UndeliveredQuery(lane, d.settings, d.now))))
  }

  predicate OpenCursor(d: Db, d': Db, lane: Lane) {
    && d.Of(lane).cursor.Ranged?
    && d' == d.With(lane, d.Of(lane).(cursor := Reading(d.kv, Window(d.kv, d.Of(lane).cursor.range))))
  }

  /** The next task is pushed, and the checkpoint set to it. */
  predicate PushTask(d: Db, d': Db, lane: Lane) {
    var c := d.Of(lane).cursor;
    && c.Reading? && c.keys != [] && c.keys[0] in c.view && Decode(c.view[c.keys[0]]).Ok?
    && var t := Decode(c.view[c.keys[0]]).task;
       d' == d.(settings := SetCheckpoint(lane, d.settings, t), pushed := d.pushed + [t])
              .With(lane, d.Of(lane).(cursor := Reading(c.view, c.keys[1..]),
                                      delivered := d.Of(lane).delivered + [Delivered(t, d.now)]))
  }

  /** The iterator ends or fails, or the feed closes. */
  predicate CloseCursor(d: Db, d': Db, lane: Lane) { d' == d.With(lane, d.Of(lane).(cursor := Unopened)) }

  // ---------- The redelivery reader ----------

  predicate BeginRetry(d: Db, d': Db, lane: Lane) {
    var r := d.Of(lane);
    && MayStart(r.lastRun, r.active, REDELIVERY_INTERVAL, d.now)
    && d' == d.With(lane, r.(lastRun := Some(d.now), active := true, retrying := Begun))
  }

  predicate TakeWatermark(d: Db, d': Db, lane: Lane) {
    && d.Of(lane).retrying.Begun?
    && var deadline := AckDeadline(d.settings);
       d' == d.With(lane, d.Of(lane).(retrying := Watermarked(d.now - deadline, deadline)))
  }

  predicate AskRetryRange(d: Db, d': Db, lane: Lane) {
    && d.Of(lane).retrying.Watermarked? && Parseable(d.settings)
    && var r := d.Of(lane).retrying;
       d' == d.With(lane, d.Of(lane).(retrying := RetryRanged(
                r.watermark, r.deadline, d.now - AckDeadline(d.settings), DeliveredQuery(lane, d.settings, d.now))))
  }

  predicate OpenRetry(d: Db, d': Db, lane: Lane) {
    && d.Of(lane).retrying.RetryRanged?
    && var r := d.Of(lane).retrying;
       d' == d.With(lane, d.Of(lane).(retrying := Rereading(
                r.watermark, r.deadline, r.end, d.kv, Window(d.kv, r.range), [])))
  }

  /** How often the save of the task's key was applied again. */
  function TimesApplied(applied: map<Bytes, nat>, t: Task): nat {
    if Storable(t) && TaskKey(t) in applied then applied[TaskKey(t)] else 0
  }

  /** The next key of the scan holds this task. */
  predicate NextRetry(d: Db, lane: Lane, t: Task) {
    var r := d.Of(lane).retrying;
    r.Rereading? && r.keys != [] && r.keys[0] in r.view && Decode(r.view[r.keys[0]]) == Ok(t)
  }

  predicate PassBy(d: Db, d': Db, lane: Lane, t: Task) {
    && NextRetry(d, lane, t)
    && var r := d.Of(lane).retrying;
       && !ShouldRetry(t, r.watermark)
       && d' == d.With(lane, d.Of(lane).(retrying := r.(keys := r.keys[1..])))
  }

  /** Pushed at time `at`, and stamped with the clock read afterwards. */
  predicate PushAgain(d: Db, d': Db, lane: Lane, t: Task, at: int) {
    && NextRetry(d, lane, t) && d.now <= at <= d'.now
    && var r := d.Of(lane).retrying;
       && ShouldRetry(t, r.watermark)
       && d' == d.(now := d'.now, pushed := d.pushed + [t])
                 .With(lane, d.Of(lane).(
                   retrying := r.(keys := r.keys[1..], taken := r.taken + [t.(lastRetry := Some(d'.now))]),
                   redelivered := d.Of(lane).redelivered
                                  + [Redelivered(t, at, r.deadline, TimesApplied(d.applied, t))]))
  }

  /** A failed iteration or write-back: the reader stays active. */
  predicate FailRetry(d: Db, d': Db, lane: Lane) {
    !d.Of(lane).retrying.Resting? && d' == d.With(lane, d.Of(lane).(retrying := Resting))
  }

  predicate FinishRetry(d: Db, d': Db, lane: Lane) {
    && d.Of(lane).retrying.Rereading? && AllStorable(d.Of(lane).retrying.taken)
    && var r := d.Of(lane);
       d' == if r.retrying.taken == [] then d.With(lane, r.(retrying := Resting))
             else d.(kv := d.kv + SavePuts(r.retrying.taken, false))
                   .With(lane, r.(active := false, retrying := Resting))
  }

  // ---------- Restarts ----------

  /** The store after the saves and settings of a part of the log are applied again. */
  function Replayed(kv: KV, log: seq<Command>): KV
    requires Readable(log)
  {
    SavesAreStorable(log);
    SaveConfigs(kv, Configs(log)) + TaskPuts(Saves(log))
  }

  function KeysOf(tasks: seq<Task>): set<Bytes> { set t | t in tasks && Storable(t) :: TaskKey(t) }

  function AppliedAgain(applied: map<Bytes, nat>, keys: set<Bytes>): map<Bytes, nat> {
    map k | k in applied.Keys + keys :: (if k in applied then applied[k] else 0) + if k in keys then 1 else 0
  }

  /** The settings a feed finds when it is opened. */
  function Found(kv: KV, queue: Bytes): QueueConfig {
    if Replicated(kv, queue).Some? then Replicated(kv, queue).value else DefaultConfig(queue)
  }

  /** A feed is opened, after a restart or after another one was closed: it loads the settings from the
      store as it is. */
  predicate OpenFeed(d: Db, d': Db) {
    d' == d.(lastSaved := None, fifo := FRESH_READERS, scheduled := FRESH_READERS, settings := Found(d.kv, d.queue))
  }

  /** A restart: the store survives, the ack buffer and the feed do not, and the log since some snapshot
      is left to be applied again. Nothing keeps a feed from being opened before that is done. Proposals
      in flight may still go through. */
  predicate Restart(d: Db, d': Db, from: nat) {
    && from <= |d.log|
    && d' == d.(buffer := [], replaying := d.log[from..], lastSaved := None, fifo := FRESH_READERS,
                scheduled := FRESH_READERS, settings := Found(d.kv, d.queue))
  }

  /** The next commands of the log are applied again. */
  predicate ReplayBatch(d: Db, d': Db, n: nat) {
    && n <= |d.replaying| && Readable(d.replaying[..n])
    && var part := d.replaying[..n];
       d' == d.(kv := Replayed(d.kv, part), buffer := d.buffer + Acks(part), replaying := d.replaying[n..],
                applied := AppliedAgain(d.applied, KeysOf(Saves(part))))
  }

  // ---------- Runs ----------

  ghost predicate StoreStep(d: Db, d': Db) {
    || ClockTick(d, d') || (exists tasks, isFollower :: SaveBatch(d, d', tasks, isFollower))
    || (exists acks :: AckBatch(d, d', acks)) || FlushAcks(d, d') || Elsewhere(d, d')
  }

  predicate SettingsStep(d: Db, d': Db) {
    || ChangeDeadline(d, d') || ProposeSettings(d, d') || CommitSettings(d, d', true) || CommitSettings(d, d', false)
    || DropSettings(d, d')
  }

  predicate CursorStep(d: Db, d': Db, lane: Lane) {
    AskRange(d, d', lane) || OpenCursor(d, d', lane) || PushTask(d, d', lane) || CloseCursor(d, d', lane)
  }

  predicate RetryFrameOf(d: Db, d': Db, lane: Lane) {
    || BeginRetry(d, d', lane) || TakeWatermark(d, d', lane) || AskRetryRange(d, d', lane) || OpenRetry(d, d', lane)
    || FailRetry(d, d', lane) || FinishRetry(d, d', lane)
  }

  ghost predicate RetryScanOf(d: Db, d': Db, lane: Lane) {
    (exists t :: PassBy(d, d', lane, t)) || (exists t, at :: PushAgain(d, d', lane, t, at))
  }

  ghost predicate LaneStep(d: Db, d': Db, lane: Lane) {
    CursorStep(d, d', lane) || RetryFrameOf(d, d', lane) || RetryScanOf(d, d', lane)
  }

  ghost predicate DbStep(d: Db, d': Db) {
    || StoreStep(d, d') || SettingsStep(d, d') || LaneStep(d, d', Fifo) || LaneStep(d, d', Scheduled)
    || OpenFeed(d, d') || (exists from :: Restart(d, d', from)) || (exists n :: ReplayBatch(d, d', n))
  }

  /** A queue nobody has used yet, in a store that may hold other queues. */
  ghost predicate NewQueue(d: Db) {
    && WellFormed(d.kv) && Apart(d.kv, d.queue, false) && Apart(d.kv, d.queue, true)
    && (forall t: Task :: t.queue == d.queue ==> !Stored(d.kv, t)) && Replicated(d.kv, d.queue).None?
    && 0 <= d.now && d.log == [] && d.replaying == [] && d.applied == map[] && d.buffer == []
    && d.settings == DefaultConfig(d.queue) && d.lastSaved.None? && d.proposals == []
    && d.fifo == FRESH_READERS && d.scheduled == FRESH_READERS && d.pushed == []
  }

  ghost predicate DbRun(dbs: seq<Db>) {
    dbs != [] && NewQueue(dbs[0]) && forall i :: 0 <= i < |dbs| - 1 ==> DbStep(dbs[i], dbs[i + 1])
  }
}
