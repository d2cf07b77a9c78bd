/** What every step of the database keeps. */
module DatabaseInvariant {
  import opened ByteStrings
  import opened Ids
  import opened Keys
  import opened TaskStores
  import opened Iteration
  import opened StateMachines
  import opened Lanes
  import opened Readers
  import opened Syncing
  import opened Database

  /** A checkpoint is the default one or the rank of a task. */
  predicate GoodMark(lane: Lane, n: nat) { n == Default(lane) || RealRank(lane, n) }

  predicate ConfigOk(c: QueueConfig, queue: Bytes) {
    && Parseable(c) && c.id == queue
    && GoodMark(Fifo, Checkpoint(Fifo, c)) && GoodMark(Scheduled, Checkpoint(Scheduled, c))
  }

  /** Every key of the view holds a task of the lane. */
  predicate LaneKeys(view: KV, keys: seq<Bytes>, queue: Bytes, lane: Lane) {
    forall k :: k in keys ==>
      k in view && Decode(view[k]).Ok? && InLane(view[k].task, queue, lane) && Timed(view[k].task)
  }

  predicate LaneRange(r: TaskRange, queue: Bytes, lane: Lane) {
    r.queue == queue && r.ScheduledRange? == lane.Scheduled?
  }

  predicate AllInLane(tasks: seq<Task>, queue: Bytes, lane: Lane) {
    forall t :: t in tasks ==> InLane(t, queue, lane) && Timed(t)
  }

  /** What the readers have pushed are tasks of the lane. */
  predicate HistoryInLane(r: LaneReaders, queue: Bytes, lane: Lane) {
    && (forall x :: x in r.delivered ==> InLane(x.task, queue, lane) && Timed(x.task))
    && (forall x :: x in r.redelivered ==> InLane(x.task, queue, lane) && Timed(x.task))
  }

  predicate CursorOk(c: Cursor, queue: Bytes, lane: Lane) {
    match c
    case Unopened => true
    case Ranged(r) => LaneRange(r, queue, lane)
    case Reading(view, keys) => LaneKeys(view, keys, queue, lane)
  }

  predicate RetryingOk(r: Retrying, queue: Bytes, lane: Lane) {
    match r
    case RetryRanged(_, _, _, range) => LaneRange(range, queue, lane)
    case Rereading(_, _, _, view, keys, taken) => LaneKeys(view, keys, queue, lane) && AllInLane(taken, queue, lane)
    case _ => true
  }

  predicate ReadersOk(r: LaneReaders, queue: Bytes, lane: Lane) {
    CursorOk(r.cursor, queue, lane) && RetryingOk(r.retrying, queue, lane) && HistoryInLane(r, queue, lane)
  }

  /** The tasks of the queue carry their times. */
  predicate TimesOk(kv: KV, queue: Bytes) {
    forall k :: k in kv && kv[k].TaskValue? && kv[k].task.queue == queue ==> Timed(kv[k].task)
  }

  /** A store this program wrote, whose names are apart from the queue's. */
  ghost predicate GoodKv(kv: KV, queue: Bytes) {
    WellFormed(kv) && Apart(kv, queue, false) && Apart(kv, queue, true) && TimesOk(kv, queue)
  }

  ghost predicate StoreOk(d: Db) { GoodKv(d.kv, d.queue) }

  /** Tasks in the log have names apart from the queue's, or are tasks of the queue as they are made. */
  predicate LoggedOk(queue: Bytes, t: Task) {
    NameApart(queue, t) && (t.queue == queue ==> Sane(InfoOf(t)) && t.lastRetry.None? && Timed(t))
  }

  predicate LogOk(d: Db) {
    && Readable(d.log)
    && (forall t :: t in Saves(d.log) ==> LoggedOk(d.queue, t))
    && AckKeys(d.buffer) <= AckKeys(Acks(d.log))
    && |d.replaying| <= |d.log| && d.replaying == d.log[|d.log| - |d.replaying|..]
  }

  predicate SettingsOk(d: Db) {
    && ConfigOk(d.settings, d.queue)
    && (forall p :: p in d.proposals ==> ConfigOk(p, d.queue))
    && (forall c :: c in Configs(d.log) ==> ConfigOk(c, d.queue))
    && (Replicated(d.kv, d.queue).Some? ==> ConfigOk(Replicated(d.kv, d.queue).value, d.queue))
  }

  ghost predicate DbOk(d: Db) {
    && StoreOk(d) && LogOk(d) && SettingsOk(d)
    && ReadersOk(d.fifo, d.queue, Fifo) && ReadersOk(d.scheduled, d.queue, Scheduled)
  }

  // ---------- Commands added to the log ----------

  lemma {:induction false} SavesConcat(a: seq<Command>, b: seq<Command>)
    ensures Saves(a + b) == Saves(a) + Saves(b)
  {
    if b == [] {
      assert a + b == a && Saves(a) + [] == Saves(a);
    } else {
      SavesConcat(a, b[..|b| - 1]);
      assert (a + b)[..|a + b| - 1] == a + b[..|b| - 1];
    }
  }

  lemma {:induction false} ConfigsConcat(a: seq<Command>, b: seq<Command>)
    ensures Configs(a + b) == Configs(a) + Configs(b)
  {
    if b == [] {
      assert a + b == a && Configs(a) + [] == Configs(a);
    } else {
      ConfigsConcat(a, b[..|b| - 1]);
      assert (a + b)[..|a + b| - 1] == a + b[..|b| - 1];
    }
  }

  lemma {:induction false} SaveCommandsAre(tasks: seq<Task>)
    ensures Saves(SaveCommands(tasks)) == tasks && Acks(SaveCommands(tasks)) == [] && Configs(SaveCommands(tasks)) == []
  {
    var log := SaveCommands(tasks);
    if tasks != [] {
      var rest := tasks[..|tasks| - 1];
      SaveCommandsAre(rest);
      assert log[..|log| - 1] == SaveCommands(rest);
      assert tasks == rest + [tasks[|tasks| - 1]];
    }
  }

  lemma {:induction false} AckCommandsAre(acks: seq<Ack>)
    ensures Acks(AckCommands(acks)) == acks && Saves(AckCommands(acks)) == [] && Configs(AckCommands(acks)) == []
  {
    var log := AckCommands(acks);
    if acks != [] {
      var rest := acks[..|acks| - 1];
      AckCommandsAre(rest);
      assert log[..|log| - 1] == AckCommands(rest);
      assert acks == rest + [acks[|acks| - 1]];
    }
  }

  /** What saving a batch adds to the log. */
  lemma SavedLog(log: seq<Command>, tasks: seq<Task>)
    ensures Saves(log + SaveCommands(tasks)) == Saves(log) + tasks
    ensures Acks(log + SaveCommands(tasks)) == Acks(log) && Configs(log + SaveCommands(tasks)) == Configs(log)
  {
    hide Saves, Acks, Configs;
    SaveCommandsAre(tasks);
    SavesConcat(log, SaveCommands(tasks));
    ConfigsConcat(log, SaveCommands(tasks));
    AcksConcat(log, SaveCommands(tasks));
  }

  lemma AckedLog(log: seq<Command>, acks: seq<Ack>)
    ensures Acks(log + AckCommands(acks)) == Acks(log) + acks
    ensures Saves(log + AckCommands(acks)) == Saves(log) && Configs(log + AckCommands(acks)) == Configs(log)
  {
    hide Saves, Acks, Configs;
    AckCommandsAre(acks);
    SavesConcat(log, AckCommands(acks));
    ConfigsConcat(log, AckCommands(acks));
    AcksConcat(log, AckCommands(acks));
  }

  lemma ReadableConcat(a: seq<Command>, b: seq<Command>)
    requires Readable(a) && Readable(b)
    ensures Readable(a + b)
  {
    hide Storable;
  }

  /** A part of the log holds nothing that the log does not hold. */
  lemma PartOfLog(log: seq<Command>, from: nat, to: nat)
    requires from <= to <= |log| && Readable(log)
    ensures Readable(log[from..to])
    ensures forall t :: t in Saves(log[from..to]) ==> t in Saves(log)
    ensures forall c :: c in Configs(log[from..to]) ==> c in Configs(log)
    ensures AckKeys(Acks(log[from..to])) <= AckKeys(Acks(log))
  {
    hide Saves, Acks, Configs, AckKeys, Storable;
    var a, b, c := log[..from], log[from..to], log[to..];
    assert log == a + b + c;
    SavesConcat(a + b, c);
    SavesConcat(a, b);
    ConfigsConcat(a + b, c);
    ConfigsConcat(a, b);
    AcksConcat(a + b, c);
    AcksConcat(a, b);
    AckKeysConcat(Acks(a + b), Acks(c));
    AckKeysConcat(Acks(a), Acks(b));
  }

  // ---------- Settings in the store ----------

  lemma ReplicatedAfter(kv: KV, kv': KV, queue: Bytes)
    requires ConfigKey(queue) in kv <==> ConfigKey(queue) in kv'
    requires ConfigKey(queue) in kv ==> kv[ConfigKey(queue)] == kv'[ConfigKey(queue)]
    ensures Replicated(kv', queue) == Replicated(kv, queue)
  {
  }

  lemma SaveKeepsReplicated(kv: KV, tasks: seq<Task>, saveIndex: bool, queue: Bytes)
    requires AllStorable(tasks)
    ensures Replicated(kv + SavePuts(tasks, saveIndex), queue) == Replicated(kv, queue)
  {
    hide Parse, KindOf, ConfigKey, TaskPuts, SeqPuts, MaxIndexes, Replicated;
    Kinds(queue, MIN);
    TaskPutsKind(tasks);
    SeqPutsKind(MaxIndexes(tasks));
    ReplicatedAfter(kv, kv + SavePuts(tasks, saveIndex), queue);
  }

  lemma DeleteKeepsReplicated(kv: KV, acks: seq<Ack>, queue: Bytes)
    ensures Replicated(kv - AckKeys(acks), queue) == Replicated(kv, queue)
  {
    hide KindOf, ConfigKey, AckKeys, Replicated;
    Kinds(queue, MIN);
    AckKeysAreTaskKeys(acks);
    ReplicatedAfter(kv, kv - AckKeys(acks), queue);
  }

  lemma ConfigKeepsTasks(kv: KV, c: QueueConfig, t: Task)
    ensures Stored(kv[ConfigKey(c.id) := ConfigValue(c)], t) <==> Stored(kv, t)
  {
    hide Parse, KindOf, ConfigKey, TaskKey;
    if Storable(t) {
      Kinds(c.id, MIN);
      TaskKeyKind(t);
    }
  }

  lemma ConfigKeepsStore(kv: KV, c: QueueConfig, queue: Bytes)
    requires GoodKv(kv, queue)
    ensures
      var kv' := kv[ConfigKey(c.id) := ConfigValue(c)];
      && GoodKv(kv', queue)
      && Replicated(kv', queue) == if c.id == queue then Some(c) else Replicated(kv, queue)
  {
    hide Parse, KindOf, ConfigKey, TaskKey, Separate, Timed;
    var kv' := kv[ConfigKey(c.id) := ConfigValue(c)];
    QueueKeysInjective(c.id, queue);
    forall k | k in kv' ensures WellPlaced(k, kv'[k]) {}
  }

  lemma {:induction false} ConfigsKeepStore(kv: KV, configs: seq<QueueConfig>, queue: Bytes)
    requires GoodKv(kv, queue)
    ensures
      var kv' := SaveConfigs(kv, configs);
      && GoodKv(kv', queue)
      && (forall t :: Stored(kv', t) <==> Stored(kv, t))
      && (|| Replicated(kv', queue) == Replicated(kv, queue)
          || exists c :: c in configs && c.id == queue && Replicated(kv', queue) == Some(c))
  {
    hide Parse, ConfigKey, TaskKey, GoodKv, Stored, Replicated;
    if configs != [] {
      var rest, c := configs[..|configs| - 1], configs[|configs| - 1];
      ConfigsKeepStore(kv, rest, queue);
      ConfigKeepsStore(SaveConfigs(kv, rest), c, queue);
      forall t ensures Stored(SaveConfigs(kv, configs), t) <==> Stored(SaveConfigs(kv, rest), t) {
        ConfigKeepsTasks(SaveConfigs(kv, rest), c, t);
      }
      assert forall x :: x in rest ==> x in configs;
    }
  }

  // ---------- Steps on the store ----------

  lemma ApartDelete(kv: KV, gone: set<Bytes>, queue: Bytes, scheduled: bool)
    requires Apart(kv, queue, scheduled)
    ensures Apart(kv - gone, queue, scheduled)
  {
    hide Separate;
  }

  lemma DeleteKeepsStore(kv: KV, gone: set<Bytes>, queue: Bytes)
    requires GoodKv(kv, queue)
    ensures GoodKv(kv - gone, queue)
  {
    hide WellFormed, Apart, Timed;
    WellFormedDelete(kv, gone);
    ApartDelete(kv, gone, queue, false);
    ApartDelete(kv, gone, queue, true);
  }

  /** Saved tasks keep the store in order. */
  lemma SaveKeepsStore(kv: KV, tasks: seq<Task>, saveIndex: bool, queue: Bytes)
    requires GoodKv(kv, queue) && AllStorable(tasks)
    requires forall t :: t in tasks ==> NameApart(queue, t) && (t.queue == queue ==> Timed(t))
    ensures
      var kv' := kv + SavePuts(tasks, saveIndex);
      && GoodKv(kv', queue)
      && Replicated(kv', queue) == Replicated(kv, queue)
  {
    hide Parse, WellFormed, Apart, TimesOk, SavePuts, Separate, Replicated, Timed;
    WellFormedSave(kv, tasks, saveIndex);
    ApartSave(kv, tasks, saveIndex, queue, false);
    ApartSave(kv, tasks, saveIndex, queue, true);
    TimesSave(kv, tasks, saveIndex, queue);
    SaveKeepsReplicated(kv, tasks, saveIndex, queue);
  }

  lemma TimesSave(kv: KV, tasks: seq<Task>, saveIndex: bool, queue: Bytes)
    requires TimesOk(kv, queue) && AllStorable(tasks) && forall t :: t in tasks && t.queue == queue ==> Timed(t)
    ensures TimesOk(kv + SavePuts(tasks, saveIndex), queue)
  {
    hide Parse, TaskKey, Timed, SeqPuts, MaxIndexes;
    var puts := SavePuts(tasks, saveIndex);
    forall k | k in puts && puts[k].TaskValue? && puts[k].task.queue == queue ensures Timed(puts[k].task) {
      TaskPutsAt(tasks, k);
      SeqPutsAreIndexes(MaxIndexes(tasks), k);
      var i: nat :| LastWith(tasks, k, i);
      assert tasks[i] in tasks;
    }
  }

  lemma SaveBatchOk(d: Db, d': Db, tasks: seq<Task>, isFollower: bool)
    requires DbOk(d) && SaveBatch(d, d', tasks, isFollower)
    ensures DbOk(d')
  {
    hide Parse, GoodKv, SavePuts, NameApart, Saves, Acks, Configs, AckKeys, Replicated, ConfigOk, ReadersOk, RealRank,
      Rank, TaskKey, Storable, SaveCommands;
    SaveKeepsStore(d.kv, tasks, isFollower, d.queue);
    SavedLog(d.log, tasks);
    SaveCommandsReadable(tasks);
    ReadableConcat(d.log, SaveCommands(tasks));
    forall t | t in tasks ensures LoggedOk(d.queue, t) {}
  }

  lemma SaveCommandsReadable(tasks: seq<Task>)
    requires AllStorable(tasks)
    ensures Readable(SaveCommands(tasks))
  {
    hide Storable;
    forall n | 0 <= n < |tasks| ensures Storable(SaveCommands(tasks)[n].task) { assert tasks[n] in tasks; }
  }

  lemma AckBatchOk(d: Db, d': Db, acks: seq<Ack>)
    requires DbOk(d) && AckBatch(d, d', acks)
    ensures DbOk(d')
  {
    hide Parse, GoodKv, Saves, Acks, Configs, AckKeys, Replicated, ConfigOk, ReadersOk, Storable, LoggedOk;
    AckedLog(d.log, acks);
    AckKeysConcat(Acks(d.log), acks);
    AckKeysConcat(d.buffer, acks);
    ReadableConcat(d.log, AckCommands(acks));
  }

  lemma FlushOk(d: Db, d': Db)
    requires DbOk(d) && FlushAcks(d, d')
    ensures DbOk(d')
  {
    hide Parse, GoodKv, Saves, Acks, Configs, AckKeys, Replicated, ConfigOk, ReadersOk, LoggedOk, Readable;
    DeleteKeepsStore(d.kv, AckKeys(d.buffer), d.queue);
    DeleteKeepsReplicated(d.kv, d.buffer, d.queue);
    NoAcks();
  }

  lemma ElsewhereOk(d: Db, d': Db)
    requires DbOk(d) && Elsewhere(d, d')
    ensures DbOk(d')
  {
    hide WellFormed, Apart, Stored, Saves, Acks, Configs, AckKeys, Replicated, ReadersOk, LoggedOk, Readable, ConfigOk,
      TimesOk;
    TimesElsewhere(d.kv, d'.kv, d.queue);
  }

  lemma TimesElsewhere(kv: KV, kv': KV, queue: Bytes)
    requires WellFormed(kv') && TimesOk(kv, queue)
    requires forall t: Task :: t.queue == queue ==> (Stored(kv', t) <==> Stored(kv, t))
    ensures TimesOk(kv', queue)
  {
    hide Parse, TaskKey, Timed;
    forall k | k in kv' && kv'[k].TaskValue? && kv'[k].task.queue == queue ensures Timed(kv'[k].task) {
      assert WellPlaced(k, kv'[k]);
      assert Stored(kv', kv'[k].task);
    }
  }

  lemma StoreStepOk(d: Db, d': Db)
    requires DbOk(d) && StoreStep(d, d')
    ensures DbOk(d')
  {
    hide SaveBatch, AckBatch, FlushAcks, Elsewhere, StoreOk, LogOk, Configs, Replicated, ReadersOk, ConfigOk;
    if tasks, isFollower :| SaveBatch(d, d', tasks, isFollower) {
      SaveBatchOk(d, d', tasks, isFollower);
    } else if acks :| AckBatch(d, d', acks) {
      AckBatchOk(d, d', acks);
    } else if FlushAcks(d, d') {
      FlushOk(d, d');
    } else if Elsewhere(d, d') {
      ElsewhereOk(d, d');
    } else {
      MemoryOk(d, d');
    }
  }

  // ---------- Steps on the settings ----------

  lemma ConfigsSnoc(log: seq<Command>, c: QueueConfig)
    ensures Configs(log + [SaveQueue(c)]) == Configs(log) + [c]
    ensures Saves(log + [SaveQueue(c)]) == Saves(log) && Acks(log + [SaveQueue(c)]) == Acks(log)
  {
    GroupsSnoc(log, SaveQueue(c));
  }

  lemma CommitOk(d: Db, d': Db, reported: bool)
    requires DbOk(d) && CommitSettings(d, d', reported)
    ensures DbOk(d')
  {
    hide Parse, GoodKv, Saves, Acks, Configs, AckKeys, Replicated, ReadersOk, LoggedOk, Storable, Parseable, ConfigKey;
    var p := d.proposals[0];
    assert p in d.proposals && forall x :: x in d.proposals[1..] ==> x in d.proposals;
    ConfigsSnoc(d.log, p);
    ConfigKeepsStore(d.kv, p, d.queue);
    ReadableConcat(d.log, [SaveQueue(p)]);
  }

  lemma MemoryOk(d: Db, d': Db)
    requires DbOk(d) && ConfigOk(d'.settings, d.queue) && forall p :: p in d'.proposals ==> ConfigOk(p, d.queue)
    requires d' == d.(now := d'.now, settings := d'.settings, proposals := d'.proposals)
    ensures DbOk(d')
  {
    hide GoodKv, Saves, Acks, Configs, AckKeys, Replicated, ReadersOk, LoggedOk, Readable, ConfigOk;
  }

  lemma SettingsStepOk(d: Db, d': Db)
    requires DbOk(d) && SettingsStep(d, d')
    ensures DbOk(d')
  {
    hide CommitSettings, StoreOk, LogOk, Configs, Replicated, ReadersOk, Parse;
    if CommitSettings(d, d', true) {
      CommitOk(d, d', true);
    } else if CommitSettings(d, d', false) {
      CommitOk(d, d', false);
    } else {
      assert DropSettings(d, d') ==> forall p :: p in d'.proposals ==> p in d.proposals;
      MemoryOk(d, d');
    }
  }

  // ---------- Steps of the readers ----------

  /** An iterator over a range of the lane finds tasks of the lane. */
  lemma WindowIsLane(kv: KV, r: TaskRange, queue: Bytes, lane: Lane)
    requires GoodKv(kv, queue) && LaneRange(r, queue, lane)
    ensures LaneKeys(kv, Window(kv, r), queue, lane)
  {
    hide Parse, WellFormed, Apart, Window, TaskRange.Covers, InBounds, TaskKey, Timed;
    IterationRefinesFilterAndSort(kv, r);
    forall k | k in Window(kv, r) ensures InLane(kv[k].task, queue, lane) {
      WindowCovers(kv, r, k);
      CoversIsNumeric(kv, k, r);
    }
  }

  lemma WindowCovers(kv: KV, r: TaskRange, k: Bytes)
    requires k in Window(kv, r)
    ensures k in kv && r.Covers(k)
  {
  }

  lemma ApartIn(d: Db, lane: Lane)
    requires StoreOk(d)
    ensures GoodKv(d.kv, d.queue) && WellFormed(d.kv) && Apart(d.kv, d.queue, lane.Scheduled?)
  {
  }

  /** The lane's readers move on, and everything else stays in order. */
  lemma WithOk(d: Db, lane: Lane, r: LaneReaders)
    requires DbOk(d) && ReadersOk(r, d.queue, lane)
    ensures DbOk(d.With(lane, r))
  {
    hide GoodKv, Saves, Acks, Configs, AckKeys, Replicated, ReadersOk, LoggedOk, Readable, ConfigOk;
  }

  lemma OfOk(d: Db, lane: Lane)
    requires DbOk(d)
    ensures ReadersOk(d.Of(lane), d.queue, lane)
  {
    hide StoreOk, LogOk, SettingsOk, ReadersOk;
  }

  lemma QueriesAreLane(lane: Lane, cfg: QueueConfig, now: int)
    requires Parseable(cfg)
    ensures LaneRange(UndeliveredQuery(lane, cfg, now), cfg.id, lane)
    ensures LaneRange(DeliveredQuery(lane, cfg, now), cfg.id, lane)
  {
    hide Parse, New, Index, MustTime;
  }

  lemma TailKeys(view: KV, keys: seq<Bytes>, queue: Bytes, lane: Lane)
    requires LaneKeys(view, keys, queue, lane) && keys != []
    ensures LaneKeys(view, keys[1..], queue, lane)
    ensures keys[0] in view && Decode(view[keys[0]]).Ok? && InLane(view[keys[0]].task, queue, lane)
    ensures Timed(view[keys[0]].task)
  {
    hide Decode, InLane, Timed;
    assert keys[0] in keys;
    assert forall k :: k in keys[1..] ==> k in keys;
  }

  lemma CheckpointOk(lane: Lane, cfg: QueueConfig, t: Task, queue: Bytes)
    requires ConfigOk(cfg, queue) && InLane(t, queue, lane) && Timed(t)
    ensures ConfigOk(SetCheckpoint(lane, cfg, t), queue)
  {
    hide Parse, Index, Number;
  }

  lemma PushTaskOk(d: Db, d': Db, lane: Lane)
    requires DbOk(d) && PushTask(d, d', lane)
    ensures DbOk(d')
  {
    hide StoreOk, LogOk, SettingsOk, Parse, ConfigOk, LaneKeys, Decode, RetryingOk, SetCheckpoint, Db.Of, Db.With,
      Timed;
    var c := d.Of(lane).cursor;
    OfOk(d, lane);
    TailKeys(c.view, c.keys, d.queue, lane);
    var t := Decode(c.view[c.keys[0]]).task;
    DecodedTask(c.view[c.keys[0]]);
    var d1 := d.(settings := SetCheckpoint(lane, d.settings, t), pushed := d.pushed + [t]);
    NewSettingsOk(d, d1, lane, t);
    var r := d.Of(lane).(cursor := Reading(c.view, c.keys[1..]),
                         delivered := d.Of(lane).delivered + [Delivered(t, d.now)]);
    assert HistoryInLane(r, d.queue, lane);
    WithOk(d1, lane, r);
  }

  lemma DecodedTask(v: Value)
    requires Decode(v).Ok?
    ensures v == TaskValue(Decode(v).task) && v.task == Decode(v).task
  {
  }

  lemma NewSettingsOk(d: Db, d': Db, lane: Lane, t: Task)
    requires DbOk(d) && InLane(t, d.queue, lane) && Timed(t) && d'.settings == SetCheckpoint(lane, d.settings, t)
    requires d' == d.(settings := d'.settings, pushed := d'.pushed)
    ensures DbOk(d')
  {
    hide GoodKv, Saves, Acks, Configs, AckKeys, Replicated, ReadersOk, LoggedOk, Readable, ConfigOk, Parse;
    CheckpointOk(lane, d.settings, t, d.queue);
  }

  lemma CursorStepOk(d: Db, d': Db, lane: Lane)
    requires DbOk(d) && CursorStep(d, d', lane)
    ensures DbOk(d')
  {
    hide DbOk, PushTask, LaneKeys, RetryingOk, Window, Parse, UndeliveredQuery, Db.Of, Db.With, LaneRange;
    OfOk(d, lane);
    SettingsAreOk(d);
    if PushTask(d, d', lane) {
      PushTaskOk(d, d', lane);
    } else if AskRange(d, d', lane) {
      QueriesAreLane(lane, d.settings, d.now);
      WithOk(d, lane, d.Of(lane).(cursor := Ranged(UndeliveredQuery(lane, d.settings, d.now))));
    } else if OpenCursor(d, d', lane) {
      WindowIsLane(d.kv, d.Of(lane).cursor.range, d.queue, lane);
      WithOk(d, lane, d.Of(lane).(cursor := Reading(d.kv, Window(d.kv, d.Of(lane).cursor.range))));
    } else {
      WithOk(d, lane, d.Of(lane).(cursor := Unopened));
    }
  }

  lemma SettingsAreOk(d: Db)
    requires DbOk(d)
    ensures Parseable(d.settings) && d.settings.id == d.queue && StoreOk(d) && GoodKv(d.kv, d.queue)
    ensures WellFormed(d.kv) && Apart(d.kv, d.queue, false) && Apart(d.kv, d.queue, true)
  {
    hide WellFormed, Apart, TimesOk, LogOk, ReadersOk, Parseable;
  }

  lemma FinishOk(d: Db, d': Db, lane: Lane)
    requires DbOk(d) && FinishRetry(d, d', lane)
    ensures DbOk(d')
  {
    hide DbOk, LaneKeys, CursorOk, Parse, Db.Of, Db.With, SavePuts, InLane;
    OfOk(d, lane);
    var r := d.Of(lane);
    var taken := r.retrying.taken;
    if taken == [] {
      WithOk(d, lane, r.(retrying := Resting));
    } else {
      var d1 := d.(kv := d.kv + SavePuts(taken, false));
      WriteBackOk(d, d1, taken, lane);
      WithOk(d1, lane, r.(active := false, retrying := Resting));
    }
  }

  /** Tasks of the queue itself are always apart. */
  lemma OwnNames(queue: Bytes, tasks: seq<Task>, lane: Lane)
    requires AllInLane(tasks, queue, lane)
    ensures forall t :: t in tasks ==> NameApart(queue, t) && Timed(t)
  {
    hide Parse, Timed;
  }

  lemma WriteBackOk(d: Db, d': Db, tasks: seq<Task>, lane: Lane)
    requires DbOk(d) && AllStorable(tasks) && AllInLane(tasks, d.queue, lane)
    requires d' == d.(kv := d.kv + SavePuts(tasks, false))
    ensures DbOk(d')
  {
    hide GoodKv, Saves, Acks, Configs, AckKeys, Replicated, ReadersOk, LoggedOk, Readable, ConfigOk, SavePuts,
      AllInLane, NameApart;
    OwnNames(d.queue, tasks, lane);
    SaveKeepsStore(d.kv, tasks, false, d.queue);
  }

  lemma RetryFrameOk(d: Db, d': Db, lane: Lane)
    requires DbOk(d) && RetryFrameOf(d, d', lane)
    ensures DbOk(d')
  {
    hide DbOk, LaneKeys, CursorOk, Window, Parse, DeliveredQuery, Db.Of, Db.With, FinishRetry, MayStart, LaneRange,
      AckDeadline;
    OfOk(d, lane);
    SettingsAreOk(d);
    var r := d.Of(lane);
    if FinishRetry(d, d', lane) {
      FinishOk(d, d', lane);
    } else if BeginRetry(d, d', lane) {
      WithOk(d, lane, r.(lastRun := Some(d.now), active := true, retrying := Begun));
    } else if TakeWatermark(d, d', lane) {
      WithOk(d, lane, r.(retrying := Watermarked(d.now - AckDeadline(d.settings), AckDeadline(d.settings))));
    } else if AskRetryRange(d, d', lane) {
      QueriesAreLane(lane, d.settings, d.now);
      var m := r.retrying;
      WithOk(d, lane, r.(retrying := RetryRanged(m.watermark, m.deadline, d.now - AckDeadline(d.settings),
                                                 DeliveredQuery(lane, d.settings, d.now))));
    } else if OpenRetry(d, d', lane) {
      var m := r.retrying;
      WindowIsLane(d.kv, m.range, d.queue, lane);
      WithOk(d, lane, r.(retrying := Rereading(m.watermark, m.deadline, m.end, d.kv, Window(d.kv, m.range), [])));
    } else {
      WithOk(d, lane, r.(retrying := Resting));
    }
  }

  lemma RestampedInLane(t: Task, stamp: int, queue: Bytes, lane: Lane)
    requires InLane(t, queue, lane)
    ensures
      var u := t.(lastRetry := Some(stamp));
      && Storable(u) && InLane(u, queue, lane) && Rank(u) == Rank(t) && (Timed(t) ==> Timed(u))
      && InfoOf(u) == InfoOf(t).(lastRetry := Some(stamp))
  {
    hide Parse, Index, Number;
  }

  lemma RetryScanOk(d: Db, d': Db, lane: Lane)
    requires DbOk(d) && RetryScanOf(d, d', lane)
    ensures DbOk(d')
  {
    hide DbOk, LaneKeys, CursorOk, Parse, Db.Of, Db.With, InLane, ShouldRetry, Decode, Timed, TimesApplied;
    OfOk(d, lane);
    var r := d.Of(lane);
    var m := r.retrying;
    TailKeys(m.view, m.keys, d.queue, lane);
    DecodedTask(m.view[m.keys[0]]);
    if t, at :| PushAgain(d, d', lane, t, at) {
      RestampedInLane(t, d'.now, d.queue, lane);
      var d1 := d.(now := d'.now, pushed := d.pushed + [t]);
      HistoryOk(d, d1);
      var r' := r.(retrying := m.(keys := m.keys[1..], taken := m.taken + [t.(lastRetry := Some(d'.now))]),
                   redelivered := r.redelivered + [Redelivered(t, at, m.deadline, TimesApplied(d.applied, t))]);
      assert HistoryInLane(r', d.queue, lane);
      WithOk(d1, lane, r');
    } else {
      WithOk(d, lane, r.(retrying := m.(keys := m.keys[1..])));
    }
  }

  lemma HistoryOk(d: Db, d': Db)
    requires DbOk(d) && d' == d.(now := d'.now, pushed := d'.pushed)
    ensures DbOk(d')
  {
    hide GoodKv, Saves, Acks, Configs, AckKeys, Replicated, ReadersOk, LoggedOk, Readable, ConfigOk;
  }

  // ---------- Restarts ----------

  lemma TaskPutsAreSaves(tasks: seq<Task>)
    requires AllStorable(tasks)
    ensures TaskPuts(tasks) == SavePuts(tasks, false)
  {
  }

  lemma DefaultConfigOk(queue: Bytes)
    ensures ConfigOk(DefaultConfig(queue), queue)
  {
    hide Parse, Show, New, Number, Index, ToBE;
    DefaultSettings(DefaultConfig(queue), Fifo);
    DefaultSettings(DefaultConfig(queue), Scheduled);
  }

  lemma FoundOk(d: Db)
    requires DbOk(d)
    ensures ConfigOk(Found(d.kv, d.queue), d.queue)
  {
    hide StoreOk, LogOk, ReadersOk, Configs, Replicated, ConfigOk, DefaultConfig;
    DefaultConfigOk(d.queue);
  }

  lemma FreshReadersOk(queue: Bytes, lane: Lane)
    ensures ReadersOk(FRESH_READERS, queue, lane)
  {
  }

  lemma OpenFeedOk(d: Db, d': Db)
    requires DbOk(d) && OpenFeed(d, d')
    ensures DbOk(d')
  {
    hide GoodKv, Saves, Acks, Configs, AckKeys, Replicated, ReadersOk, LoggedOk, Readable, ConfigOk, Found,
      FRESH_READERS;
    FoundOk(d);
    FreshReadersOk(d.queue, Fifo);
    FreshReadersOk(d.queue, Scheduled);
  }

  lemma RestartOk(d: Db, d': Db, from: nat)
    requires DbOk(d) && Restart(d, d', from)
    ensures DbOk(d')
  {
    hide GoodKv, Saves, Acks, Configs, AckKeys, Replicated, ReadersOk, LoggedOk, Readable, ConfigOk, Found,
      FRESH_READERS;
    FoundOk(d);
    FreshReadersOk(d.queue, Fifo);
    FreshReadersOk(d.queue, Scheduled);
    NoAcks();
  }

  /** The next commands of a replay are a part of the log. */
  lemma ReplayedPart(d: Db, n: nat)
    requires LogOk(d) && n <= |d.replaying|
    ensures
      var part := d.replaying[..n];
      && Readable(part) && (forall t :: t in Saves(part) ==> t in Saves(d.log) && LoggedOk(d.queue, t))
      && (forall c :: c in Configs(part) ==> c in Configs(d.log)) && AckKeys(Acks(part)) <= AckKeys(Acks(d.log))
  {
    hide Saves, Acks, Configs, AckKeys, LoggedOk, Readable;
    var from := |d.log| - |d.replaying|;
    assert d.replaying[..n] == d.log[from..from + n];
    PartOfLog(d.log, from, from + n);
  }

  lemma ReplayOk(d: Db, d': Db, n: nat)
    requires DbOk(d) && ReplayBatch(d, d', n)
    ensures DbOk(d')
  {
    hide Parse, GoodKv, Saves, Acks, Configs, AckKeys, Replicated, LoggedOk, SavePuts, TaskPuts, SaveConfigs, Storable,
      ConfigOk, NameApart, ReadersOk, AppliedAgain, KeysOf, Readable;
    var part := d.replaying[..n];
    ReplayedPart(d, n);
    SavesAreStorable(part);
    TaskPutsAreSaves(Saves(part));
    ConfigsKeepStore(d.kv, Configs(part), d.queue);
    LoggedNames(d.queue, part);
    SaveKeepsStore(SaveConfigs(d.kv, Configs(part)), Saves(part), false, d.queue);
    AckKeysConcat(d.buffer, Acks(part));
  }

  lemma LoggedNames(queue: Bytes, part: seq<Command>)
    requires forall t :: t in Saves(part) ==> LoggedOk(queue, t)
    ensures forall t :: t in Saves(part) ==> NameApart(queue, t) && (t.queue == queue ==> Timed(t))
  {
    hide Saves, NameApart, Sane, Timed;
    forall t | t in Saves(part) ensures NameApart(queue, t) && (t.queue == queue ==> Timed(t)) {
      assert LoggedOk(queue, t);
    }
  }

  // ---------- Every step ----------

  lemma DbStepOk(d: Db, d': Db)
    requires DbOk(d) && DbStep(d, d')
    ensures DbOk(d')
  {
    hide DbOk, StoreStep, SettingsStep, LaneStep, OpenFeed, Restart, ReplayBatch;
    if StoreStep(d, d') {
      StoreStepOk(d, d');
    } else if SettingsStep(d, d') {
      SettingsStepOk(d, d');
    } else if OpenFeed(d, d') {
      OpenFeedOk(d, d');
    } else if n :| ReplayBatch(d, d', n) {
      ReplayOk(d, d', n);
    } else if from :| Restart(d, d', from) {
      RestartOk(d, d', from);
    } else {
      var lane := if LaneStep(d, d', Fifo) then Fifo else Scheduled;
      LaneStepOk(d, d', lane);
    }
  }

  lemma LaneStepOk(d: Db, d': Db, lane: Lane)
    requires DbOk(d) && LaneStep(d, d', lane)
    ensures DbOk(d')
  {
    hide DbOk, CursorStep, RetryFrameOf, RetryScanOf;
    if CursorStep(d, d', lane) {
      CursorStepOk(d, d', lane);
    } else if RetryFrameOf(d, d', lane) {
      RetryFrameOk(d, d', lane);
    } else {
      RetryScanOk(d, d', lane);
    }
  }

  lemma NewQueueOk(d: Db)
    requires NewQueue(d)
    ensures DbOk(d)
  {
    hide Parse, WellFormed, Apart, Stored, Replicated, Show, StoreOk, ReadersOk, FRESH_READERS, ConfigOk,
      DefaultConfig, LoggedOk, Saves, Acks, Configs, AckKeys, Readable;
    NewStoreOk(d);
    EmptyLog();
    DefaultConfigOk(d.queue);
    FreshReadersOk(d.queue, Fifo);
    FreshReadersOk(d.queue, Scheduled);
    NoAcks();
  }

  lemma NewStoreOk(d: Db)
    requires NewQueue(d)
    ensures StoreOk(d)
  {
    hide Parse, WellFormed, Apart, Stored, Replicated, Show, TimesOk, FRESH_READERS, DefaultConfig;
    NoTimes(d.kv, d.queue);
  }

  lemma EmptyLog()
    ensures Saves([]) == [] && Acks([]) == [] && Configs([]) == [] && Readable([])
  {
  }

  lemma NoTimes(kv: KV, queue: Bytes)
    requires WellFormed(kv) && forall t: Task :: t.queue == queue ==> !Stored(kv, t)
    ensures TimesOk(kv, queue)
  {
    hide Parse, TaskKey, Timed;
    forall k | k in kv && kv[k].TaskValue? ensures kv[k].task.queue != queue {
      assert WellPlaced(k, kv[k]);
      assert Stored(kv, kv[k].task);
    }
  }
}
