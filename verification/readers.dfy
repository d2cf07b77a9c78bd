/** The queries and readers of a feed (feeds/q/fifo.go, feeds/q/sched.go, feeds/q/undelivered.go,
    feeds/q/delivered.go), and how the database of keys and texts carries out the lanes' steps. */
module Readers {
  import opened ByteStrings
  import opened Ids
  import opened Keys
  import opened TaskStores
  import opened Iteration
  import opened Lanes
  import opened TaskCreation

  // ---------- Queries ----------

  /** Checkpoints that MustParseString accepts. */
  predicate Parseable(cfg: QueueConfig) { Parse(cfg.lastQueued).Some? && Parse(cfg.lastScheduled).Some? }

  function AckDeadline(cfg: QueueConfig): int { SECOND * cfg.ackDeadlineSeconds }

  /** The range of tasks not delivered yet. */
  function UndeliveredQuery(lane: Lane, cfg: QueueConfig, now: int): TaskRange
    requires Parseable(cfg)
  {
    match lane
    case Fifo =>
      FifoRange(cfg.id, (Index(Parse(cfg.lastQueued).value) + 1) % TWO64, MAX_INDEX)
    case Scheduled =>
      var last := Parse(cfg.lastScheduled).value;
      ScheduledRange(cfg.id, New(MustTime(last), (Index(last) + 1) % TWO64), New(now, 0))
  }

  /** The range of tasks that may need redelivery. */
  function DeliveredQuery(lane: Lane, cfg: QueueConfig, now: int): TaskRange
    requires Parseable(cfg)
  {
    match lane
    case Fifo => FifoRange(cfg.id, 0, Index(Parse(cfg.lastQueued).value))
    case Scheduled => ScheduledRange(cfg.id, MIN, New(now - AckDeadline(cfg), 0))
  }

  /** The checkpoint as a rank. */
  function Checkpoint(lane: Lane, cfg: QueueConfig): nat
    requires Parseable(cfg)
  {
    if lane.Fifo? then Index(Parse(cfg.lastQueued).value) else Number(Parse(cfg.lastScheduled).value)
  }

  /** Checkpointer.Set */
  function SetCheckpoint(lane: Lane, cfg: QueueConfig, t: Task): QueueConfig {
    if lane.Fifo? then cfg.(lastQueued := t.id) else cfg.(lastScheduled := t.id)
  }

  function LowerBound(r: TaskRange): nat { if r.FifoRange? then r.startIndex else Number(r.startId) }

  function UpperBound(r: TaskRange): nat { if r.FifoRange? then r.endIndex else Number(r.endId) }

  /** The queries, read as numbers, are the lanes' ranges. */
  lemma QueryBounds(lane: Lane, cfg: QueueConfig, now: int)
    requires Parseable(cfg)
    ensures LowerBound(UndeliveredQuery(lane, cfg, now)) == From(lane, Checkpoint(lane, cfg))
    ensures UpperBound(UndeliveredQuery(lane, cfg, now)) == Until(lane, now)
    ensures LowerBound(DeliveredQuery(lane, cfg, now)) == 0
    ensures UpperBound(DeliveredQuery(lane, cfg, now))
            == RetryUntil(lane, Checkpoint(lane, cfg), now - AckDeadline(cfg))
  {
    hide Parse, New, Number, Index, MustTime, TimeBits;
    if lane.Scheduled? {
      var last := Parse(cfg.lastScheduled).value;
      NumberParts(last);
      NewParts(MustTime(last), (Index(last) + 1) % TWO64);
      TimeOfBits(last);
      NewParts(now, 0);
      NewParts(now - AckDeadline(cfg), 0);
      DefaultSchedCheckpoint();
      IndexPart(TimeBits(last), Index(last));
    }
  }

  lemma TimeOfBits(id: TaskId)
    ensures UnixBits(MustTime(id)) == TimeBits(id)
  {
    SignedBits(TimeBits(id));
  }

  lemma IndexPart(bits: nat, index: U64)
    ensures (bits * TWO64 + index) % TWO64 == index
  {
  }

  /** The default settings hold the lanes' default checkpoints. */
  lemma DefaultSettings(cfg: QueueConfig, lane: Lane)
    requires cfg.lastQueued == Show(MAX) && cfg.lastScheduled == Show(MIN)
    ensures Parseable(cfg) && Checkpoint(lane, cfg) == Default(lane)
  {
    hide Parse, Show, New, Number, Index, ToBE;
    DefaultFifoCheckpoint();
    DefaultSchedCheckpoint();
  }

  // ---------- The undelivered reader ----------

  class Settings {
    var cfg: QueueConfig

    constructor (cfg: QueueConfig)
      ensures this.cfg == cfg
    {
      this.cfg := cfg;
    }
  }

  class UndeliveredReader {
    const settings: Settings
    const tasks: TaskStore
    const lane: Lane

    constructor (settings: Settings, tasks: TaskStore, lane: Lane)
      ensures this.settings == settings && this.tasks == tasks && this.lane == lane
    {
      this.settings := settings;
      this.tasks := tasks;
      this.lane := lane;
    }

    /** Pushes the undelivered tasks in order until the iterator ends or fails, or the feed closes
        after `accepts` pushes. The checkpoint follows the last task pushed, and moves with no
        other. */
    method Read(now: int, accepts: nat) returns (pushed: seq<Task>, failed: bool)
      requires Parseable(settings.cfg)
      modifies settings
      ensures
        var query := UndeliveredQuery(lane, old(settings.cfg), now);
        var all := Yield(tasks.db.kv, Window(tasks.db.kv, query));
        && pushed == all[..if accepts < |all| then accepts else |all|]
        && failed == (|all| < |Window(tasks.db.kv, query)| && |all| <= accepts)
      ensures settings.cfg == if pushed == [] then old(settings.cfg)
                              else SetCheckpoint(lane, old(settings.cfg), pushed[|pushed| - 1])
    {
      hide UndeliveredQuery, Parse, Window, Yield, TaskIterator.Valid, TaskIterator.Rest, Parseable;
      ghost var cfg, kv := settings.cfg, tasks.db.kv;
      var query := UndeliveredQuery(lane, settings.cfg, now);
      var it := new TaskIterator(tasks.db, query);
      ghost var keys := Window(kv, query);
      ghost var all := Yield(kv, keys);
      pushed := [];
      while true
        invariant it.Valid() && it.kv == kv && tasks.db.kv == kv
        invariant |pushed| <= |all| && |pushed| <= accepts && pushed == all[..|pushed|]
        invariant forall j :: 0 <= j < |pushed| ==> Decode(kv[keys[j]]).Ok?
        invariant it.Rest() == keys[|pushed|..]
        invariant settings.cfg == if pushed == [] then cfg else SetCheckpoint(lane, cfg, pushed[|pushed| - 1])
        decreases |all| - |pushed|
      {
        var item := it.Next();
        if item.Eof? {
          return pushed, false;
        }
        YieldAt(kv, keys, |pushed|);
        if item.Failed? {
          return pushed, true;
        }
        if |pushed| == accepts {
          return pushed, false;
        }
        pushed := pushed + [item.task];
        settings.cfg := SetCheckpoint(lane, settings.cfg, item.task);
      }
    }
  }

  // ---------- The redelivery reader ----------

  /** retryTask on the record itself. */
  predicate ShouldRetry(t: Task, watermark: int) {
    if t.lastRetry.None? then t.createdAt < watermark else t.lastRetry.value < watermark
  }

  function Pick(tasks: seq<Task>, watermark: int): seq<Task> {
    if tasks == [] then []
    else
      var rest, t := Pick(tasks[..|tasks| - 1], watermark), tasks[|tasks| - 1];
      if ShouldRetry(t, watermark) then rest + [t] else rest
  }

  lemma {:induction false} PickPrefix(tasks: seq<Task>, n: nat, watermark: int)
    requires n <= |tasks|
    ensures Pick(tasks[..n], watermark) <= Pick(tasks, watermark)
    decreases |tasks| - n
  {
    if n == |tasks| {
      assert tasks[..n] == tasks;
    } else {
      PickPrefix(tasks, n + 1, watermark);
      assert tasks[..n + 1][..n] == tasks[..n];
    }
  }

  lemma PickNone(tasks: seq<Task>, watermark: int)
    requires tasks == []
    ensures Pick(tasks, watermark) == []
  {
  }

  lemma PickNext(tasks: seq<Task>, n: nat, watermark: int)
    requires n < |tasks|
    ensures Pick(tasks[..n + 1], watermark)
            == Pick(tasks[..n], watermark) + if ShouldRetry(tasks[n], watermark) then [tasks[n]] else []
  {
    assert tasks[..n + 1][..n] == tasks[..n];
  }

  /** A pass may start: none is running or stuck, and the interval since the last start is over. */
  predicate MayStart(lastRun: Option<int>, active: bool, interval: int, now: int) {
    !active && (lastRun.None? || now - lastRun.value > interval)
  }

  class DeliveredReader {
    const settings: Settings
    const tasks: TaskStore
    const lane: Lane
    const interval: int
    var lastRun: Option<int>
    var active: bool

    constructor (interval: int, settings: Settings, tasks: TaskStore, lane: Lane)
      ensures this.interval == interval && this.settings == settings && this.tasks == tasks && this.lane == lane
      ensures lastRun.None? && !active
    {
      this.interval := interval;
      this.settings := settings;
      this.tasks := tasks;
      this.lane := lane;
      lastRun, active := None, false;
    }

    method Ready(now: int) returns (ready: bool)
      ensures ready == MayStart(lastRun, active, interval, now)
    {
      ready := (lastRun.None? || now - lastRun.value > interval) && !active;
    }

    method Read(now: int)
      modifies this
      ensures lastRun == Some(now) && active
    {
      lastRun := Some(now);
      active := true;
    }

    /** One scan: the tasks of the range whose last retry, or creation, is older than the watermark
        are pushed in order and stamped with the time of the push, up to the point where the
        iterator ends or fails, or the feed closes after `accepts` pushes. */
    method Scan(marked: int, queried: int, accepts: nat, clock: nat -> int)
      returns (taken: seq<Task>, failed: bool)
      requires Parseable(settings.cfg)
      ensures
        var query := DeliveredQuery(lane, settings.cfg, queried);
        var picks := Pick(Yield(tasks.db.kv, Window(tasks.db.kv, query)), marked - AckDeadline(settings.cfg));
        && |taken| == (if accepts < |picks| then accepts else |picks|)
        && (forall i :: 0 <= i < |taken| ==> taken[i] == picks[i].(lastRetry := Some(clock(i))))
        && (failed <==> |picks| <= accepts
                        && |Yield(tasks.db.kv, Window(tasks.db.kv, query))| < |Window(tasks.db.kv, query)|)
    {
      hide DeliveredQuery, Parse, Window, Yield, TaskIterator.Valid, TaskIterator.Rest, ShouldRetry, Parseable,
        AckDeadline, Pick;
      var watermark := marked - AckDeadline(settings.cfg);
      ghost var kv := tasks.db.kv;
      var query := DeliveredQuery(lane, settings.cfg, queried);
      var it := new TaskIterator(tasks.db, query);
      ghost var keys := Window(kv, query);
      ghost var all := Yield(kv, keys);
      taken := [];
      ghost var n := 0;
      PickNone(all[..n], watermark);
      while true
        invariant it.Valid() && it.kv == kv
        invariant n <= |all| <= |keys|
        invariant forall j :: 0 <= j < n ==> Decode(kv[keys[j]]).Ok?
        invariant it.Rest() == keys[n..]
        invariant |taken| == |Pick(all[..n], watermark)| <= accepts
        invariant forall i :: 0 <= i < |taken| ==>
                    taken[i] == Pick(all[..n], watermark)[i].(lastRetry := Some(clock(i)))
        decreases |all| - n
      {
        PickPrefix(all, n, watermark);
        var item := it.Next();
        if item.Eof? {
          assert all[..n] == all;
          return taken, false;
        }
        YieldAt(kv, keys, n);
        if item.Failed? {
          assert all[..n] == all;
          return taken, true;
        }
        PickPrefix(all, n + 1, watermark);
        PickNext(all, n, watermark);
        if ShouldRetry(item.task, watermark) {
          if |taken| == accepts {
            return taken, false;
          }
          taken := taken + [item.task.(lastRetry := Some(clock(|taken|)))];
        }
        n := n + 1;
      }
    }

    /** The end of a pass: stamped tasks are written back and the reader becomes free again; a pass
        that failed, whose write-back failed or that pushed nothing leaves it active. */
    method Finish(taken: seq<Task>, failed: bool, commits: bool)
      requires AllStorable(taken)
      modifies this, tasks.db
      ensures lastRun == old(lastRun)
      ensures if failed || taken == [] || !commits then active == old(active) && tasks.db.kv == old(tasks.db.kv)
              else !active && tasks.db.kv == old(tasks.db.kv) + SavePuts(taken, false)
    {
      if failed || |taken| == 0 {
        return;
      }
      var ok := tasks.SaveAll(taken, false, commits);
      if ok {
        active := false;
      }
    }
  }

  // ---------- The database carries out the lanes ----------

  predicate InLane(t: Task, queue: Bytes, lane: Lane) {
    Storable(t) && t.queue == queue && t.scheduleTime.Some? == lane.Scheduled?
  }

  function InfoOf(t: Task): Info { Info(t.createdAt, t.lastRetry) }

  /** `store` holds exactly the tasks of one lane of one queue, by rank. */
  ghost predicate Represents(kv: KV, queue: Bytes, lane: Lane, store: map<nat, Info>) {
    && (forall t :: Stored(kv, t) && InLane(t, queue, lane) ==> Rank(t) in store && store[Rank(t)] == InfoOf(t))
    && (forall n :: n in store ==> exists t :: Stored(kv, t) && InLane(t, queue, lane) && Rank(t) == n)
  }

  lemma SameRankSameKey(t: Task, u: Task, queue: Bytes, lane: Lane)
    requires InLane(t, queue, lane) && Storable(u)
    ensures TaskKey(t) == TaskKey(u) <==> InLane(u, queue, lane) && Rank(t) == Rank(u)
  {
    hide Parse, TaskKey, Index, Number;
    TaskKeyInjective(t, u);
    LessIsNumericIds(IdOf(t), IdOf(u));
  }

  lemma LessIsNumericIds(a: TaskId, b: TaskId)
    ensures a == b <==> Number(a) == Number(b)
  {
    LessIsNumeric(a, b);
  }

  function Ranks(tasks: seq<Task>): seq<nat>
    requires AllStorable(tasks)
  {
    seq(|tasks|, i requires 0 <= i < |tasks| => Rank(tasks[i]))
  }

  lemma VisitIsView(kv: KV, r: TaskRange, lane: Lane, store: map<nat, Info>)
    requires WellFormed(kv) && Apart(kv, r.queue, lane.Scheduled?) && r.ScheduledRange? == lane.Scheduled?
    requires Represents(kv, r.queue, lane, store)
    ensures AllStorable(Visited(kv, r))
    ensures IsView(Ranks(Visited(kv, r)), store, LowerBound(r), UpperBound(r))
  {
    hide Parse, Rank, TaskKey, Visited, Window, WellFormed, Number, Represents, Stored, OfRange, InBounds, LowerBound,
      UpperBound;
    IterationRefinesFilterAndSort(kv, r);
    var tasks := Visited(kv, r);
    var ranks := Ranks(tasks);
    forall i, j | 0 <= i < j < |ranks| ensures ranks[i] < ranks[j] {
      assert Rank(tasks[i]) < Rank(tasks[j]);
    }
    forall n ensures n in ranks <==> n in store && LowerBound(r) <= n <= UpperBound(r) {
      RankVisited(kv, r, lane, store, tasks, n);
      RanksAt(tasks, n);
    }
  }

  lemma RanksAt(tasks: seq<Task>, n: int)
    requires AllStorable(tasks)
    ensures n in Ranks(tasks) <==> exists i :: 0 <= i < |tasks| && Rank(tasks[i]) == n
  {
    hide Parse, Rank;
    var ranks := Ranks(tasks);
    if i :| 0 <= i < |tasks| && Rank(tasks[i]) == n {
      assert ranks[i] == n;
    }
  }

  lemma RankVisited(kv: KV, r: TaskRange, lane: Lane, store: map<nat, Info>, tasks: seq<Task>, n: int)
    requires AllStorable(tasks) && r.ScheduledRange? == lane.Scheduled?
    requires Represents(kv, r.queue, lane, store)
    requires forall t :: t in tasks <==> Stored(kv, t) && OfRange(t, r) && InBounds(t, r)
    ensures (exists i :: 0 <= i < |tasks| && Rank(tasks[i]) == n) <==> n in store && LowerBound(r) <= n <= UpperBound(r)
  {
    hide Parse, Rank, TaskKey, Number;
    if i :| 0 <= i < |tasks| && Rank(tasks[i]) == n {
      assert tasks[i] in tasks;
    }
    if n in store && LowerBound(r) <= n <= UpperBound(r) {
      var t :| Stored(kv, t) && InLane(t, r.queue, lane) && Rank(t) == n;
      assert t in tasks;
    }
  }

  /** The lane's records in a batch of tasks. */
  function LaneTasks(tasks: seq<Task>, queue: Bytes, lane: Lane): map<nat, Info>
    requires AllStorable(tasks)
  {
    if tasks == [] then map[]
    else
      var rest, t := LaneTasks(tasks[..|tasks| - 1], queue, lane), tasks[|tasks| - 1];
      if InLane(t, queue, lane) then rest[Rank(t) := InfoOf(t)] else rest
  }

  lemma PutIsSave(kv: KV, queue: Bytes, lane: Lane, store: map<nat, Info>, t: Task)
    requires Represents(kv, queue, lane, store) && Storable(t)
    ensures Represents(kv[TaskKey(t) := TaskValue(t)], queue, lane,
                       if InLane(t, queue, lane) then store[Rank(t) := InfoOf(t)] else store)
  {
    hide Parse, TaskKey, Rank;
    var kv' := kv[TaskKey(t) := TaskValue(t)];
    var store' := if InLane(t, queue, lane) then store[Rank(t) := InfoOf(t)] else store;
    forall u | Stored(kv', u) && InLane(u, queue, lane) ensures Rank(u) in store' && store'[Rank(u)] == InfoOf(u) {
      SameRankSameKey(u, t, queue, lane);
      if u != t { assert Stored(kv, u); }
    }
    forall n | n in store' ensures exists u :: Stored(kv', u) && InLane(u, queue, lane) && Rank(u) == n {
      if InLane(t, queue, lane) && n == Rank(t) {
        assert Stored(kv', t);
      } else {
        var u :| Stored(kv, u) && InLane(u, queue, lane) && Rank(u) == n;
        SameRankSameKey(u, t, queue, lane);
        assert Stored(kv', u);
      }
    }
  }

  lemma {:induction false} TaskPutsAreSave(
      kv: KV, queue: Bytes, lane: Lane, store: map<nat, Info>, tasks: seq<Task>)
    requires Represents(kv, queue, lane, store) && AllStorable(tasks)
    ensures Represents(kv + TaskPuts(tasks), queue, lane, store + LaneTasks(tasks, queue, lane))
  {
    hide Parse, TaskKey, Rank, Represents, InLane;
    if tasks == [] {
      PutNone(kv);
      PutNone(store);
    } else {
      var rest, t := tasks[..|tasks| - 1], tasks[|tasks| - 1];
      TaskPutsAreSave(kv, queue, lane, store, rest);
      PutIsSave(kv + TaskPuts(rest), queue, lane, store + LaneTasks(rest, queue, lane), t);
      PutAfter(kv, TaskPuts(rest), TaskKey(t), TaskValue(t));
      PutAfter(store, LaneTasks(rest, queue, lane), Rank(t), InfoOf(t));
    }
  }

  /** Saving a batch in the database adds the lane's part of it to the lane. */
  lemma SaveAllIsLaneSave(
      kv: KV, queue: Bytes, lane: Lane, store: map<nat, Info>, tasks: seq<Task>, saveIndex: bool)
    requires Represents(kv, queue, lane, store) && AllStorable(tasks)
    ensures Represents(kv + SavePuts(tasks, saveIndex), queue, lane, store + LaneTasks(tasks, queue, lane))
  {
    hide Parse, TaskKey, Rank, TaskPuts, LaneTasks, SeqPuts, MaxIndexes, KindOf;
    TaskPutsAreSave(kv, queue, lane, store, tasks);
    var stored, all := kv + TaskPuts(tasks), kv + SavePuts(tasks, saveIndex);
    forall t | Storable(t) ensures Stored(all, t) <==> Stored(stored, t) {
      TaskKeyKind(t);
      if saveIndex && TaskKey(t) in SeqPuts(MaxIndexes(tasks)) { SeqPutsAreSeqKeys(MaxIndexes(tasks), TaskKey(t)); }
    }
  }

  lemma SeqPutsAreSeqKeys(indexes: map<Bytes, U64>, k: Bytes)
    requires k in SeqPuts(indexes)
    ensures KindOf(k) == SeqKind
  {
    hide KindOf, SeqKey;
    var q :| q in indexes && k == SeqKey(q);
    Kinds(q, MIN);
  }

  /** The ranks of the lane among some keys. */
  function RanksAmong(kv: KV, queue: Bytes, lane: Lane, keys: set<Bytes>): set<nat> {
    set k | k in kv && k in keys && kv[k].TaskValue? && InLane(kv[k].task, queue, lane) :: Rank(kv[k].task)
  }

  /** Deleting acknowledged keys flushes the lane's ranks among them. */
  lemma DeleteAllIsLaneFlush(kv: KV, queue: Bytes, lane: Lane, store: map<nat, Info>, acks: seq<Ack>)
    requires WellFormed(kv) && Represents(kv, queue, lane, store)
    ensures Represents(kv - AckKeys(acks), queue, lane, store - RanksAmong(kv, queue, lane, AckKeys(acks)))
  {
    hide Parse, TaskKey, Rank, AckKeys;
    var gone := AckKeys(acks);
    var ranks := RanksAmong(kv, queue, lane, gone);
    forall t | Stored(kv - gone, t) && InLane(t, queue, lane)
      ensures Rank(t) in store - ranks && (store - ranks)[Rank(t)] == InfoOf(t)
    {
      assert Stored(kv, t);
      if Rank(t) in ranks {
        var k :| && k in kv && k in gone && kv[k].TaskValue? && InLane(kv[k].task, queue, lane)
                 && Rank(kv[k].task) == Rank(t);
        assert WellPlaced(k, kv[k]);
        SameRankSameKey(t, kv[k].task, queue, lane);
      }
    }
    forall n | n in store - ranks
      ensures exists t :: Stored(kv - gone, t) && InLane(t, queue, lane) && Rank(t) == n
    {
      var t :| Stored(kv, t) && InLane(t, queue, lane) && Rank(t) == n;
      assert kv[TaskKey(t)].task == t;
      assert Stored(kv - gone, t);
    }
  }

  /** A made task enters its lane at a real rank, and a scheduled one carries its time there. */
  lemma MadeTasksHaveRealRanks(req: PushRequest, createdAt: int, now: int, index: U64)
    requires RunTime(req, now) == ZERO_TIME || Schedulable(RunTime(req, now))
    requires 0 < index < MAX_INDEX
    ensures
      var t := MakeTask(req, createdAt, now, index);
      && Storable(t)
      && RealRank(if t.scheduleTime.None? then Fifo else Scheduled, Rank(t))
      && (t.scheduleTime.Some? ==> Rank(t) / TWO64 == t.scheduleTime.value)
  {
    hide Parse, Index, Number, New, RunTime, TaskKey, AckKey;
    var ts := RunTime(req, now);
    UsualTasksCanBeAcked(req, createdAt, now, index);
    NewParts(ts, index);
    IndexPart(UnixBits(ts), index);
    assert Schedulable(ts) ==> UnixBits(ts) == ts;
    TimePart(UnixBits(ts), index);
  }

  lemma TimePart(bits: nat, index: U64)
    ensures (bits * TWO64 + index) / TWO64 == bits
  {
  }
}
