/** Every run of the database is a run of the delivery protocol, in each of its lanes. */
module Simulation {
  import opened ByteStrings
  import opened Ids
  import opened Keys
  import opened TaskStores
  import opened Iteration
  import opened StateMachines
  import opened Lanes
  import opened Readers
  import opened Syncing
  import opened Database
  import opened DatabaseInvariant

  // ---------- What the lane sees ----------

  function LaneRanks(tasks: seq<Task>, queue: Bytes, lane: Lane): set<nat> {
    set t | t in tasks && InLane(t, queue, lane) :: Rank(t)
  }

  predicate AckInLane(a: Ack, queue: Bytes, lane: Lane) {
    a.queue == queue && Parse(a.taskId).Some? && Time(Parse(a.taskId).value).Some? == lane.Scheduled?
  }

  function AckRank(a: Ack, lane: Lane): nat
    requires Parse(a.taskId).Some?
  {
    if lane.Fifo? then Index(Parse(a.taskId).value) else Number(Parse(a.taskId).value)
  }

  function AckRanks(acks: seq<Ack>, queue: Bytes, lane: Lane): set<nat> {
    set a | a in acks && AckInLane(a, queue, lane) :: AckRank(a, lane)
  }

  /** The checkpoint of settings that are known to be readable. */
  function Mark(lane: Lane, cfg: QueueConfig): nat { if Parseable(cfg) then Checkpoint(lane, cfg) else 0 }

  function Marks(lane: Lane, configs: seq<QueueConfig>): seq<nat> {
    seq(|configs|, i requires 0 <= i < |configs| => Mark(lane, configs[i]))
  }

  function MarkSet(lane: Lane, configs: seq<QueueConfig>): set<nat> { set c | c in configs :: Mark(lane, c) }

  function ReplicatedMark(lane: Lane, kv: KV, queue: Bytes): Option<nat> {
    if Replicated(kv, queue).Some? then Some(Mark(lane, Replicated(kv, queue).value)) else None
  }

  function KeyRanks(view: KV, keys: seq<Bytes>, queue: Bytes, lane: Lane): seq<nat>
    requires LaneKeys(view, keys, queue, lane)
  {
    seq(|keys|, i requires 0 <= i < |keys| => assert keys[i] in keys; Rank(view[keys[i]].task))
  }

  predicate CursorSim(c: Cursor, p: Pass, queue: Bytes, lane: Lane)
    requires CursorOk(c, queue, lane)
  {
    match c
    case Unopened => p == NoPass
    case Ranged(r) => p == Asked(LowerBound(r), UpperBound(r))
    case Reading(view, keys) => p == Passing(KeyRanks(view, keys, queue, lane))
  }

  /** The lane's view has the records of the keys still to be visited. */
  predicate ViewSim(view: KV, keys: seq<Bytes>, seen: map<nat, Info>, queue: Bytes, lane: Lane)
    requires LaneKeys(view, keys, queue, lane)
  {
    forall k :: k in keys ==> Rank(view[k].task) in seen && seen[Rank(view[k].task)] == InfoOf(view[k].task)
  }

  predicate RetrySim(r: Retrying, st: Stage, queue: Bytes, lane: Lane)
    requires RetryingOk(r, queue, lane)
  {
    match r
    case Resting => st == Off
    case Begun => st == Started
    case Watermarked(w, dl) => st == Marked(w, dl)
    case RetryRanged(w, dl, end, range) => LowerBound(range) == 0 && st == Queried(w, dl, end, UpperBound(range))
    case Rereading(w, dl, end, view, keys, taken) =>
      && st.Scanning? && st.watermark == w && st.deadline == dl && st.end == end
      && st.remaining == KeyRanks(view, keys, queue, lane) && ViewSim(view, keys, st.view, queue, lane)
      && AllStorable(taken) && st.taken == LaneTasks(taken, queue, lane)
  }

  function RankOf(t: Task): nat { if Storable(t) then Rank(t) else 0 }

  function OrderOf(delivered: seq<Delivered>): seq<nat> {
    seq(|delivered|, i requires 0 <= i < |delivered| => RankOf(delivered[i].task))
  }

  function RetriesOf(redelivered: seq<Redelivered>): seq<Retry> {
    seq(|redelivered|, i requires 0 <= i < |redelivered| =>
      var x := redelivered[i]; Retry(RankOf(x.task), x.at, x.deadline, x.era))
  }

  /** What the readers have pushed since the feed was opened is what the lane has recorded. */
  predicate HistorySim(r: LaneReaders, s: State) {
    && s.order == OrderOf(r.delivered) && s.retries == RetriesOf(r.redelivered)
    && forall x :: x in r.delivered ==> Delivery(RankOf(x.task), x.at) in s.deliveries
  }

  /** Both count the applications of a task from the log alike. */
  ghost predicate EraSim(applied: map<Bytes, nat>, eras: map<nat, nat>, queue: Bytes, lane: Lane) {
    forall t :: InLane(t, queue, lane) ==> Era(eras, Rank(t)) == TimesApplied(applied, t)
  }

  predicate ReadersSim(r: LaneReaders, s: State, queue: Bytes, lane: Lane)
    requires ReadersOk(r, queue, lane)
  {
    && CursorSim(r.cursor, s.pass, queue, lane) && HistorySim(r, s)
    && s.lastRun == r.lastRun && s.active == r.active && RetrySim(r.retrying, s.stage, queue, lane)
  }

  predicate LogSim(d: Db, s: State, lane: Lane) {
    && s.saved == LaneRanks(Saves(d.log), d.queue, lane)
    && s.acked == AckRanks(Acks(d.log), d.queue, lane)
    && s.pushed == LaneRanks(d.pushed, d.queue, lane)
    && s.committed == MarkSet(lane, Configs(d.log))
  }

  predicate SettingsSim(d: Db, s: State, lane: Lane) {
    && s.mem == Mark(lane, d.settings) && s.deadline == AckDeadline(d.settings)
    && s.pending == Marks(lane, d.proposals)
    && s.rep == ReplicatedMark(lane, d.kv, d.queue)
  }

  /** The database is in order, and the lane's state is what the lane sees of it. */
  ghost predicate Sim(d: Db, s: State, lane: Lane) {
    && DbOk(d) && s.lane == lane && s.now == d.now
    && Represents(d.kv, d.queue, lane, s.store) && EraSim(d.applied, s.eras, d.queue, lane)
    && LogSim(d, s, lane) && SettingsSim(d, s, lane) && ReadersOk(d.Of(lane), d.queue, lane)
    && ReadersSim(d.Of(lane), s, d.queue, lane)
  }

  // ---------- Helpers ----------

  lemma Stutters(s: State)
    ensures Lanes.Step(s, s)
  {
    assert Tick(s, s);
    assert OutsideStep(s, s);
  }

  lemma OutsideIsStep(s: State, s': State)
    requires OutsideStep(s, s')
    ensures Lanes.Step(s, s')
  {
    hide OutsideStep;
  }

  lemma SyncIsStep(s: State, s': State)
    requires SyncStep(s, s')
    ensures Lanes.Step(s, s')
  {
    hide SyncStep;
  }

  lemma FeedIsStep(s: State, s': State)
    requires BeginPass(s, s') || PushNext(s, s') || EndPass(s, s')
    ensures Lanes.Step(s, s')
  {
    hide BeginPass, PushNext, EndPass;
  }

  lemma RetryIsStep(s: State, s': State)
    requires RetryFrameStep(s, s') || RetryScanStep(s, s')
    ensures Lanes.Step(s, s')
  {
    hide RetryFrameStep, RetryScanStep;
  }

  lemma LaneRanksConcat(a: seq<Task>, b: seq<Task>, queue: Bytes, lane: Lane)
    ensures LaneRanks(a + b, queue, lane) == LaneRanks(a, queue, lane) + LaneRanks(b, queue, lane)
  {
    hide InLane, Rank;
    assert forall t :: t in a + b <==> t in a || t in b;
  }

  lemma AckRanksConcat(a: seq<Ack>, b: seq<Ack>, queue: Bytes, lane: Lane)
    ensures AckRanks(a + b, queue, lane) == AckRanks(a, queue, lane) + AckRanks(b, queue, lane)
  {
    hide AckInLane, AckRank;
    assert forall x :: x in a + b <==> x in a || x in b;
  }

  /** An ack names the key of a lane task exactly when it has the task's rank. */
  lemma AckNames(a: Ack, t: Task, queue: Bytes, lane: Lane)
    requires InLane(t, queue, lane)
    ensures AckKey(a) == Some(TaskKey(t)) <==> AckInLane(a, queue, lane) && AckRank(a, lane) == Rank(t)
  {
    hide Parse, Index, Number, KindOf, FifoKey, SchedKey, Time;
    if Parse(a.taskId).Some? {
      var id := Parse(a.taskId).value;
      Kinds(a.queue, id);
      Kinds(t.queue, IdOf(t));
      FifoKeyInjective(a.queue, id, t.queue, IdOf(t));
      SchedKeyInjective(a.queue, id, t.queue, IdOf(t));
      LessIsNumericIds(id, IdOf(t));
    }
  }

  lemma AckRanksAre(acks: seq<Ack>, t: Task, queue: Bytes, lane: Lane)
    requires InLane(t, queue, lane)
    ensures Rank(t) in AckRanks(acks, queue, lane) <==> TaskKey(t) in AckKeys(acks)
  {
    hide Parse, Time, AckRank, Rank, TaskKey, AckKey;
    forall a | a in acks
      ensures AckKey(a) == Some(TaskKey(t)) <==> AckInLane(a, queue, lane) && AckRank(a, lane) == Rank(t)
    {
      AckNames(a, t, queue, lane);
    }
  }

  lemma {:induction false} LaneTasksAt(tasks: seq<Task>, queue: Bytes, lane: Lane, n: nat)
    requires AllStorable(tasks)
    ensures n in LaneTasks(tasks, queue, lane) <==> n in LaneRanks(tasks, queue, lane)
    ensures n in LaneTasks(tasks, queue, lane) ==>
              exists t :: && t in tasks && InLane(t, queue, lane) && Rank(t) == n
                          && LaneTasks(tasks, queue, lane)[n] == InfoOf(t)
  {
    hide InLane, Rank, Storable;
    if tasks != [] {
      var rest, last := tasks[..|tasks| - 1], tasks[|tasks| - 1];
      LaneTasksAt(rest, queue, lane, n);
      assert tasks == rest + [last] && last in tasks;
      LaneRanksConcat(rest, [last], queue, lane);
      assert forall t :: t in [last] <==> t == last;
      assert InLane(last, queue, lane) ==> Rank(last) in LaneRanks([last], queue, lane);
    }
  }

  lemma LaneTasksKeys(tasks: seq<Task>, queue: Bytes, lane: Lane)
    requires AllStorable(tasks)
    ensures LaneTasks(tasks, queue, lane).Keys == LaneRanks(tasks, queue, lane)
  {
    hide InLane, Rank, Storable, LaneTasks, LaneRanks;
    forall n ensures n in LaneTasks(tasks, queue, lane).Keys <==> n in LaneRanks(tasks, queue, lane) {
      LaneTasksAt(tasks, queue, lane, n);
    }
  }

  lemma SameLaneView(kv: KV, kv': KV, queue: Bytes, lane: Lane, store: map<nat, Info>)
    requires Represents(kv, queue, lane, store)
    requires forall t: Task :: t.queue == queue ==> (Stored(kv', t) <==> Stored(kv, t))
    ensures Represents(kv', queue, lane, store)
  {
    hide Parse, Rank, Stored;
    forall n | n in store ensures exists t :: Stored(kv', t) && InLane(t, queue, lane) && Rank(t) == n {
      var t :| Stored(kv, t) && InLane(t, queue, lane) && Rank(t) == n;
      assert Stored(kv', t);
    }
  }

  lemma SameReaders(d: Db, d': Db, s: State, s': State, lane: Lane)
    requires ReadersOk(d.Of(lane), d.queue, lane) && ReadersSim(d.Of(lane), s, d.queue, lane)
    requires d'.queue == d.queue && d'.Of(lane) == d.Of(lane)
    requires s'.pass == s.pass && s'.lastRun == s.lastRun && s'.active == s.active && s'.stage == s.stage
    requires s'.order == s.order && s'.deliveries == s.deliveries && s'.retries == s.retries
    ensures ReadersOk(d'.Of(lane), d'.queue, lane) && ReadersSim(d'.Of(lane), s', d'.queue, lane)
  {
    hide CursorOk, RetryingOk, CursorSim, RetrySim, OrderOf, RetriesOf, HistoryInLane;
  }

  // ---------- Steps on the store ----------

  lemma ClockSim(d: Db, d': Db, s: State, lane: Lane) returns (s': State)
    requires Sim(d, s, lane) && ClockTick(d, d') && DbOk(d')
    ensures Lanes.Step(s, s') && Sim(d', s', lane)
  {
    hide DbOk, Represents, EraSim, ReadersOk, ReadersSim, Saves, Acks, Configs, LaneRanks, AckRanks, MarkSet, Mark,
      Marks, ReplicatedMark;
    s' := s.(now := d'.now);
    assert Tick(s, s');
    OutsideIsStep(s, s');
    SameReaders(d, d', s, s', lane);
  }

  lemma AckSim(d: Db, d': Db, s: State, acks: seq<Ack>, lane: Lane) returns (s': State)
    requires Sim(d, s, lane) && AckBatch(d, d', acks) && DbOk(d')
    ensures Lanes.Step(s, s') && Sim(d', s', lane)
  {
    hide DbOk, Represents, EraSim, ReadersOk, ReadersSim, Saves, Acks, Configs, LaneRanks, AckRanks, MarkSet, Mark,
      Marks, ReplicatedMark, AckCommands;
    AckedLog(d.log, acks);
    AckRanksConcat(Acks(d.log), acks, d.queue, lane);
    s' := s.(acked := s.acked + AckRanks(acks, d.queue, lane));
    assert Lanes.Ack(s, s', AckRanks(acks, d.queue, lane));
    OutsideIsStep(s, s');
    SameReaders(d, d', s, s', lane);
  }

  lemma FlushedAreAcked(d: Db, lane: Lane)
    requires DbOk(d)
    ensures RanksAmong(d.kv, d.queue, lane, AckKeys(d.buffer)) <= AckRanks(Acks(d.log), d.queue, lane)
  {
    hide Parse, InLane, AckRanks, AckKeys, Rank, TaskKey, SettingsOk, ReadersOk, Saves, Acks, LoggedOk;
    forall n | n in RanksAmong(d.kv, d.queue, lane, AckKeys(d.buffer))
      ensures n in AckRanks(Acks(d.log), d.queue, lane)
    {
      var k :| k in d.kv && k in AckKeys(d.buffer) && d.kv[k].TaskValue? && InLane(d.kv[k].task, d.queue, lane)
               && Rank(d.kv[k].task) == n;
      assert WellPlaced(k, d.kv[k]);
      AckRanksAre(Acks(d.log), d.kv[k].task, d.queue, lane);
    }
  }

  lemma FlushSim(d: Db, d': Db, s: State, lane: Lane) returns (s': State)
    requires Sim(d, s, lane) && FlushAcks(d, d') && DbOk(d')
    ensures Lanes.Step(s, s') && Sim(d', s', lane)
  {
    hide DbOk, Represents, EraSim, ReadersOk, ReadersSim, Saves, Acks, Configs, LaneRanks, AckRanks, MarkSet, Mark,
      Marks, AckKeys, RanksAmong, Replicated, WellFormed;
    var gone := RanksAmong(d.kv, d.queue, lane, AckKeys(d.buffer));
    SettingsAreOk(d);
    FlushedAreAcked(d, lane);
    DeleteAllIsLaneFlush(d.kv, d.queue, lane, s.store, d.buffer);
    DeleteKeepsReplicated(d.kv, d.buffer, d.queue);
    s' := s.(store := s.store - gone);
    assert Flush(s, s', gone);
    OutsideIsStep(s, s');
    SameReaders(d, d', s, s', lane);
  }

  /** New tasks of the queue come into the lane as the protocol expects them. */
  lemma FreshIsSave(d: Db, tasks: seq<Task>, lane: Lane, n: nat)
    requires Readable(d.log) && AllStorable(tasks)
    requires forall t :: t in tasks && t.queue == d.queue ==> FreshTask(d, t)
    requires n in LaneTasks(tasks, d.queue, lane)
    ensures n !in LaneRanks(Saves(d.log), d.queue, lane) && RealRank(lane, n)
    ensures Sane(LaneTasks(tasks, d.queue, lane)[n]) && LaneTasks(tasks, d.queue, lane)[n].lastRetry.None?
  {
    hide Parse, Rank, TaskKey, Saves, LaneTasks, RealRank;
    LaneTasksAt(tasks, d.queue, lane, n);
    var t :| t in tasks && InLane(t, d.queue, lane) && Rank(t) == n && LaneTasks(tasks, d.queue, lane)[n] == InfoOf(t);
    assert FreshTask(d, t);
    forall u | u in Saves(d.log) && InLane(u, d.queue, lane) ensures Rank(u) != n {
      SameRankSameKey(t, u, d.queue, lane);
    }
  }

  lemma SaveSim(d: Db, d': Db, s: State, tasks: seq<Task>, isFollower: bool, lane: Lane) returns (s': State)
    requires Sim(d, s, lane) && SaveBatch(d, d', tasks, isFollower) && DbOk(d')
    ensures Lanes.Step(s, s') && Sim(d', s', lane)
  {
    hide Parse, DbOk, Represents, EraSim, ReadersOk, ReadersSim, Saves, Acks, Configs, LaneRanks, AckRanks, MarkSet,
      Mark, Marks, SavePuts, LaneTasks, Replicated, SaveCommands, FreshTask, NameApart, Storable, RealRank, Sane;
    var added := LaneTasks(tasks, d.queue, lane);
    LogReadable(d);
    SavedLog(d.log, tasks);
    LaneRanksConcat(Saves(d.log), tasks, d.queue, lane);
    LaneTasksKeys(tasks, d.queue, lane);
    SaveAllIsLaneSave(d.kv, d.queue, lane, s.store, tasks, isFollower);
    SaveKeepsReplicated(d.kv, tasks, isFollower, d.queue);
    s' := s.(store := s.store + added, saved := s.saved + added.Keys);
    forall n | n in added ensures n !in s.saved && RealRank(lane, n) && Sane(added[n]) && added[n].lastRetry.None? {
      FreshIsSave(d, tasks, lane, n);
    }
    assert Save(s, s', added);
    SaveIsStep(s, s', added);
    SameReaders(d, d', s, s', lane);
  }

  lemma LogReadable(d: Db)
    requires DbOk(d)
    ensures Readable(d.log)
  {
    hide StoreOk, SettingsOk, ReadersOk, Saves, LoggedOk;
  }

  lemma SaveIsStep(s: State, s': State, tasks: map<nat, Info>)
    requires Save(s, s', tasks)
    ensures Lanes.Step(s, s')
  {
    hide Save;
  }

  lemma ElsewhereSim(d: Db, d': Db, s: State, lane: Lane)
    requires Sim(d, s, lane) && Elsewhere(d, d') && DbOk(d')
    ensures Sim(d', s, lane)
  {
    hide DbOk, Represents, EraSim, ReadersOk, ReadersSim, Saves, Acks, Configs, LaneRanks, AckRanks, MarkSet, Mark,
      Marks, Replicated, WellFormed, Apart, Stored;
    SameLaneView(d.kv, d'.kv, d.queue, lane, s.store);
    SameReaders(d, d', s, s, lane);
  }

  lemma StoreStepSim(d: Db, d': Db, s: State, lane: Lane) returns (s': State)
    requires Sim(d, s, lane) && StoreStep(d, d') && DbOk(d')
    ensures Lanes.Step(s, s') && Sim(d', s', lane)
  {
    hide Sim, DbOk, Lanes.Step, ClockTick, SaveBatch, AckBatch, FlushAcks, Elsewhere;
    if tasks, isFollower :| SaveBatch(d, d', tasks, isFollower) {
      s' := SaveSim(d, d', s, tasks, isFollower, lane);
    } else if acks :| AckBatch(d, d', acks) {
      s' := AckSim(d, d', s, acks, lane);
    } else if FlushAcks(d, d') {
      s' := FlushSim(d, d', s, lane);
    } else if Elsewhere(d, d') {
      ElsewhereSim(d, d', s, lane);
      Stutters(s);
      s' := s;
    } else {
      s' := ClockSim(d, d', s, lane);
    }
  }

  // ---------- Steps on the settings ----------

  lemma MarksSnoc(lane: Lane, configs: seq<QueueConfig>, c: QueueConfig)
    ensures Marks(lane, configs + [c]) == Marks(lane, configs) + [Mark(lane, c)]
    ensures MarkSet(lane, configs + [c]) == MarkSet(lane, configs) + {Mark(lane, c)}
  {
    hide Mark;
    assert forall x :: x in configs + [c] <==> x in configs || x == c;
  }

  lemma MarksTail(lane: Lane, configs: seq<QueueConfig>)
    requires configs != []
    ensures Marks(lane, configs) != [] && Marks(lane, configs)[0] == Mark(lane, configs[0])
    ensures Marks(lane, configs)[1..] == Marks(lane, configs[1..])
  {
    hide Mark;
  }

  lemma CommitSim(d: Db, d': Db, s: State, reported: bool, lane: Lane) returns (s': State)
    requires Sim(d, s, lane) && CommitSettings(d, d', reported) && DbOk(d')
    ensures Lanes.Step(s, s') && Sim(d', s', lane)
  {
    hide Parse, DbOk, Represents, EraSim, ReadersOk, ReadersSim, Saves, Acks, Configs, LaneRanks, AckRanks, MarkSet,
      Mark, Marks, Replicated, ConfigKey, WellFormed, Apart, Stored;
    var p := d.proposals[0];
    SettingsAreOk(d);
    ProposalIsOk(d);
    MarksTail(lane, d.proposals);
    ConfigsSnoc(d.log, p);
    MarksSnoc(lane, Configs(d.log), p);
    ConfigKeepsStore(d.kv, p, d.queue);
    forall t: Task ensures Stored(d'.kv, t) <==> Stored(d.kv, t) { ConfigKeepsTasks(d.kv, p, t); }
    SameLaneView(d.kv, d'.kv, d.queue, lane, s.store);
    s' := s.(rep := Some(s.pending[0]), pending := s.pending[1..], committed := s.committed + {s.pending[0]});
    assert Commit(s, s');
    SyncIsStep(s, s');
    SameReaders(d, d', s, s', lane);
  }

  lemma ProposalIsOk(d: Db)
    requires DbOk(d) && d.proposals != []
    ensures d.proposals[0].id == d.queue
  {
    hide StoreOk, LogOk, ReadersOk, Configs, Replicated, Parseable;
    assert d.proposals[0] in d.proposals;
  }

  lemma MarkKeeps(lane: Lane, cfg: QueueConfig, seconds: int)
    ensures Mark(lane, cfg.(ackDeadlineSeconds := seconds)) == Mark(lane, cfg)
  {
    hide Parse, Index, Number;
  }

  lemma DeadlineSim(d: Db, d': Db, s: State, lane: Lane) returns (s': State)
    requires Sim(d, s, lane) && ChangeDeadline(d, d') && DbOk(d')
    ensures Lanes.Step(s, s') && Sim(d', s', lane)
  {
    hide DbOk, Represents, EraSim, ReadersOk, CursorSim, Saves, Acks, Configs, LaneRanks, AckRanks, MarkSet, Mark,
      Marks, ReplicatedMark;
    MarkKeeps(lane, d.settings, d'.settings.ackDeadlineSeconds);
    s' := s.(deadline := AckDeadline(d'.settings));
    assert !d.Of(lane).retrying.Watermarked?;
    NotMarked(d, s, lane);
    assert SetDeadline(s, s');
    OutsideIsStep(s, s');
    SameReaders(d, d', s, s', lane);
  }

  lemma NotMarked(d: Db, s: State, lane: Lane)
    requires Sim(d, s, lane) && !d.Of(lane).retrying.Watermarked?
    ensures !s.stage.Marked?
  {
    hide DbOk, Represents, EraSim, LogSim, SettingsSim, CursorSim, KeyRanks, ViewSim, LaneTasks, LowerBound,
      UpperBound;
  }

  lemma ProposeSim(d: Db, d': Db, s: State, lane: Lane) returns (s': State)
    requires Sim(d, s, lane) && (ProposeSettings(d, d') || DropSettings(d, d')) && DbOk(d')
    ensures Lanes.Step(s, s') && Sim(d', s', lane)
  {
    hide DbOk, Represents, EraSim, ReadersOk, ReadersSim, Saves, Acks, Configs, LaneRanks, AckRanks, MarkSet, Mark,
      Marks, ReplicatedMark;
    if ProposeSettings(d, d') {
      MarksSnoc(lane, d.proposals, d.settings);
      s' := s.(pending := s.pending + [s.mem]);
      assert Propose(s, s');
    } else {
      MarksTail(lane, d.proposals);
      s' := s.(pending := s.pending[1..]);
      assert Drop(s, s');
    }
    SyncIsStep(s, s');
    SameReaders(d, d', s, s', lane);
  }

  lemma SettingsStepSim(d: Db, d': Db, s: State, lane: Lane) returns (s': State)
    requires Sim(d, s, lane) && SettingsStep(d, d') && DbOk(d')
    ensures Lanes.Step(s, s') && Sim(d', s', lane)
  {
    hide Sim, DbOk, Lanes.Step, ChangeDeadline, ProposeSettings, CommitSettings, DropSettings;
    if ChangeDeadline(d, d') {
      s' := DeadlineSim(d, d', s, lane);
    } else if CommitSettings(d, d', true) {
      s' := CommitSim(d, d', s, true, lane);
    } else if CommitSettings(d, d', false) {
      s' := CommitSim(d, d', s, false, lane);
    } else {
      s' := ProposeSim(d, d', s, lane);
    }
  }
}
