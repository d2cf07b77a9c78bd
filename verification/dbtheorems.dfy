/** The guarantees of the delivery protocol, said of the keys, records and settings in the database. */
module DatabaseTheorems {
  import opened ByteStrings
  import opened Ids
  import opened Keys
  import opened TaskStores
  import opened Iteration
  import opened StateMachines
  import opened Lanes
  import opened LaneProofs
  import LaneTheorems
  import opened Readers
  import opened Syncing
  import opened Database
  import opened DatabaseInvariant
  import opened Simulation
  import opened Refinement

  /** A task of the queue that was saved, and neither pushed nor acknowledged. */
  predicate WaitingInDb(d: Db, t: Task) {
    && Storable(t) && t.queue == d.queue && t in Saves(d.log) && TaskKey(t) !in AckKeys(Acks(d.log))
    && forall u :: u in d.pushed && Storable(u) ==> TaskKey(u) != TaskKey(t)
  }

  /** A rank above the checkpoints in memory, proposed and ever committed. */
  predicate AboveMarks(d: Db, lane: Lane, n: nat) {
    && Below(lane, Mark(lane, d.settings), n)
    && (forall p :: p in d.proposals ==> Below(lane, Mark(lane, p), n))
    && (forall c :: c in Configs(d.log) ==> Below(lane, Mark(lane, c), n))
  }

  /** ... and above the tasks that the undelivered reader still has before it. */
  predicate OrderlyInDb(d: Db, lane: Lane, n: nat) {
    && AboveMarks(d, lane, n)
    && var c := d.Of(lane).cursor;
       c.Reading? ==> forall k :: k in c.keys && k in c.view && c.view[k].TaskValue? && Storable(c.view[k].task) ==>
         Rank(c.view[k].task) < n
  }

  /** Every task that the step saves, unless it is acknowledged already, comes in an orderly place. */
  predicate OrderlyDbStep(d: Db, d': Db, lane: Lane) {
    forall t ::
      (&& t in Saves(d'.log) && InLane(t, d.queue, lane) && Rank(t) !in LaneRanks(Saves(d.log), d.queue, lane)
       && TaskKey(t) !in AckKeys(Acks(d.log))) ==> OrderlyInDb(d, lane, Rank(t))
  }

  lemma InRanks(tasks: seq<Task>, queue: Bytes, lane: Lane, n: nat) returns (t: Task)
    requires n in LaneRanks(tasks, queue, lane)
    ensures t in tasks && InLane(t, queue, lane) && Rank(t) == n
  {
    hide Parse, Rank;
    t :| t in tasks && InLane(t, queue, lane) && Rank(t) == n;
  }

  lemma HasRank(tasks: seq<Task>, queue: Bytes, lane: Lane, t: Task)
    requires t in tasks && InLane(t, queue, lane)
    ensures Rank(t) in LaneRanks(tasks, queue, lane)
  {
    hide Parse, InLane, Rank;
  }

  lemma LogSimIs(d: Db, s: State, lane: Lane)
    requires Sim(d, s, lane)
    ensures LogSim(d, s, lane) && s.lane == lane && s.now == d.now && DbOk(d)
  {
    hide DbOk, Represents, EraSim, LogSim, SettingsSim, ReadersOk, ReadersSim;
  }

  lemma WaitingSim(d: Db, s: State, lane: Lane, t: Task)
    requires Sim(d, s, lane) && InLane(t, d.queue, lane) && WaitingInDb(d, t)
    ensures Waiting(s, Rank(t))
  {
    hide Parse, Sim, DbOk, Rank, TaskKey, AckKeys, Saves, Acks, LaneRanks, AckRanks, MarkSet, Configs;
    LogSimIs(d, s, lane);
    HasRank(Saves(d.log), d.queue, lane, t);
    AckRanksAre(Acks(d.log), t, d.queue, lane);
    if Rank(t) in LaneRanks(d.pushed, d.queue, lane) {
      var u := InRanks(d.pushed, d.queue, lane, Rank(t));
      SameRankSameKey(t, u, d.queue, lane);
      assert false;
    }
  }

  lemma MarksHave(lane: Lane, configs: seq<QueueConfig>, n: nat)
    requires forall c :: c in configs ==> Below(lane, Mark(lane, c), n)
    ensures forall m :: m in Marks(lane, configs) ==> Below(lane, m, n)
    ensures forall m :: m in MarkSet(lane, configs) ==> Below(lane, m, n)
  {
    hide Mark, Below;
    forall m | m in Marks(lane, configs) ensures Below(lane, m, n) {
      var i :| 0 <= i < |configs| && Mark(lane, configs[i]) == m;
      assert configs[i] in configs;
    }
  }

  lemma MarksBelow(lane: Lane, configs: seq<QueueConfig>, n: nat, c: QueueConfig)
    requires (forall m :: m in Marks(lane, configs) ==> Below(lane, m, n)) && c in configs
    ensures Below(lane, Mark(lane, c), n)
  {
    hide Mark, Below;
    var i :| 0 <= i < |configs| && configs[i] == c;
    assert Marks(lane, configs)[i] == Mark(lane, c);
  }

  /** The keys before a cursor and their ranks. */
  lemma KeysAndRanks(view: KV, keys: seq<Bytes>, queue: Bytes, lane: Lane, n: nat)
    requires LaneKeys(view, keys, queue, lane)
    ensures n in KeyRanks(view, keys, queue, lane) ==> exists k :: k in keys && Rank(view[k].task) == n
    ensures forall k :: k in keys ==> Rank(view[k].task) in KeyRanks(view, keys, queue, lane)
  {
    hide Parse, Rank;
    var ranks := KeyRanks(view, keys, queue, lane);
    if n in ranks {
      var i :| 0 <= i < |ranks| && ranks[i] == n;
      assert keys[i] in keys;
    }
    forall k | k in keys ensures Rank(view[k].task) in ranks {
      var i :| 0 <= i < |keys| && keys[i] == k;
      assert ranks[i] == Rank(view[k].task);
    }
  }

  lemma OrderlyCursor(d: Db, s: State, lane: Lane, n: nat)
    requires Sim(d, s, lane) && OrderlyInDb(d, lane, n)
    ensures s.pass.Passing? ==> forall r :: r in s.pass.remaining ==> r < n
  {
    hide DbOk, Represents, EraSim, LogSim, SettingsSim, RetryingOk, RetrySim, AboveMarks, Rank, Parse, KeyRanks;
    if s.pass.Passing? {
      var c := d.Of(lane).cursor;
      forall r | r in s.pass.remaining ensures r < n {
        KeysAndRanks(c.view, c.keys, d.queue, lane, r);
        var k :| k in c.keys && Rank(c.view[k].task) == r;
      }
    }
  }

  lemma OrderlyMarks(d: Db, s: State, lane: Lane, n: nat)
    requires Sim(d, s, lane) && OrderlyInDb(d, lane, n)
    ensures Orderly(s, n)
  {
    hide DbOk, Represents, EraSim, ReadersOk, ReadersSim, Rank, Parse, LaneRanks, AckRanks, Saves, Acks, Configs, Mark,
      Marks, MarkSet, ReplicatedMark, Below;
    OrderlyCursor(d, s, lane, n);
    MarksHave(lane, d.proposals, n);
    MarksHave(lane, Configs(d.log), n);
  }

  lemma OrderlyStepSim(d: Db, d': Db, s: State, s': State, lane: Lane)
    requires Sim(d, s, lane) && Sim(d', s', lane) && d'.queue == d.queue && OrderlyDbStep(d, d', lane)
    ensures OrderlyStep(s, s')
  {
    hide Parse, Sim, DbOk, OrderlyInDb, Orderly, LaneRanks, AckRanks, MarkSet, Saves, Acks, Configs, Rank, TaskKey,
      AckKeys;
    LogSimIs(d, s, lane);
    LogSimIs(d', s', lane);
    forall n | n in s'.saved && n !in s.saved && n !in s.acked ensures Orderly(s, n) {
      var t := InRanks(Saves(d'.log), d.queue, lane, n);
      AckRanksAre(Acks(d.log), t, d.queue, lane);
      OrderlyMarks(d, s, lane, n);
    }
  }

  lemma SameQueue(d: Db, d': Db)
    requires DbStep(d, d')
    ensures d'.queue == d.queue
  {
    hide SaveBatch, Elsewhere, LaneStep, Restart, Db.With;
    if tasks, isFollower :| SaveBatch(d, d', tasks, isFollower) {
      SaveKeepsQueue(d, d', tasks, isFollower);
    } else if Elsewhere(d, d') {
      ElsewhereKeepsQueue(d, d');
    } else if from :| Restart(d, d', from) {
      RestartKeepsQueue(d, d', from);
    } else if LaneStep(d, d', Fifo) {
      LaneStepOnly(d, d', Fifo);
    } else if LaneStep(d, d', Scheduled) {
      LaneStepOnly(d, d', Scheduled);
    }
  }

  lemma SaveKeepsQueue(d: Db, d': Db, tasks: seq<Task>, isFollower: bool)
    requires SaveBatch(d, d', tasks, isFollower)
    ensures d'.queue == d.queue
  {
  }

  lemma ElsewhereKeepsQueue(d: Db, d': Db)
    requires Elsewhere(d, d')
    ensures d'.queue == d.queue
  {
  }

  lemma RestartKeepsQueue(d: Db, d': Db, from: nat)
    requires Restart(d, d', from)
    ensures d'.queue == d.queue
  {
  }

  /** Everything but the store, the settings, the clock, the pushes and the readers of the lane stays. */
  predicate OnlyLane(d: Db, d': Db, lane: Lane) {
    && d'.queue == d.queue && d'.replaying == d.replaying && d'.applied == d.applied
    && d'.Of(Other(lane)) == d.Of(Other(lane))
  }

  lemma WithOnly(d: Db, e: Db, lane: Lane, r: LaneReaders)
    requires OnlyLane(d, e, lane)
    ensures OnlyLane(d, e.With(lane, r), lane) && e.With(lane, r).Of(lane) == r && e.With(lane, r).now == e.now
  {
  }

  lemma CursorOnly(d: Db, d': Db, lane: Lane)
    requires CursorStep(d, d', lane)
    ensures OnlyLane(d, d', lane) && d'.now == d.now && d'.Of(lane).redelivered == d.Of(lane).redelivered
    ensures d'.Of(lane).retrying == d.Of(lane).retrying
  {
    hide UndeliveredQuery, Window, Parseable, SetCheckpoint, Decode, Db.With, Db.Of, OnlyLane;
    var r := d.Of(lane);
    SettingsOnly(d, d, lane);
    if AskRange(d, d', lane) {
      WithOnly(d, d, lane, r.(cursor := Ranged(UndeliveredQuery(lane, d.settings, d.now))));
    } else if OpenCursor(d, d', lane) {
      WithOnly(d, d, lane, r.(cursor := Reading(d.kv, Window(d.kv, r.cursor.range))));
    } else if PushTask(d, d', lane) {
      var c := r.cursor;
      var t := Decode(c.view[c.keys[0]]).task;
      var e := d.(settings := SetCheckpoint(lane, d.settings, t), pushed := d.pushed + [t]);
      SettingsOnly(d, e, lane);
      WithOnly(d, e, lane, r.(cursor := Reading(c.view, c.keys[1..]),
                              delivered := r.delivered + [Delivered(t, d.now)]));
    } else {
      WithOnly(d, d, lane, r.(cursor := Unopened));
    }
  }

  lemma SettingsOnly(d: Db, e: Db, lane: Lane)
    requires e == d.(settings := e.settings, pushed := e.pushed, kv := e.kv, now := e.now)
    ensures OnlyLane(d, e, lane)
  {
  }

  lemma RetryFrameOnly(d: Db, d': Db, lane: Lane)
    requires RetryFrameOf(d, d', lane)
    ensures OnlyLane(d, d', lane) && d'.now == d.now && d'.Of(lane).redelivered == d.Of(lane).redelivered
  {
    hide DeliveredQuery, Window, Parseable, MayStart, AckDeadline, SavePuts, AllStorable, Db.With, Db.Of, OnlyLane;
    var r := d.Of(lane);
    SettingsOnly(d, d, lane);
    if BeginRetry(d, d', lane) {
      WithOnly(d, d, lane, r.(lastRun := Some(d.now), active := true, retrying := Begun));
    } else if TakeWatermark(d, d', lane) {
      var deadline := AckDeadline(d.settings);
      WithOnly(d, d, lane, r.(retrying := Watermarked(d.now - deadline, deadline)));
    } else if AskRetryRange(d, d', lane) {
      WithOnly(d, d, lane, r.(retrying := RetryRanged(
        r.retrying.watermark, r.retrying.deadline, d.now - AckDeadline(d.settings),
        DeliveredQuery(lane, d.settings, d.now))));
    } else if OpenRetry(d, d', lane) {
      WithOnly(d, d, lane, r.(retrying := Rereading(
        r.retrying.watermark, r.retrying.deadline, r.retrying.end, d.kv, Window(d.kv, r.retrying.range), [])));
    } else if FailRetry(d, d', lane) || r.retrying.taken == [] {
      WithOnly(d, d, lane, r.(retrying := Resting));
    } else {
      var e := d.(kv := d.kv + SavePuts(r.retrying.taken, false));
      SettingsOnly(d, e, lane);
      WithOnly(d, e, lane, r.(active := false, retrying := Resting));
    }
  }

  lemma RetryScanOnly(d: Db, d': Db, lane: Lane)
    requires RetryScanOf(d, d', lane)
    ensures OnlyLane(d, d', lane) && d.now <= d'.now
    ensures
      var a, b := d.Of(lane).redelivered, d'.Of(lane).redelivered;
      b == a || (|b| == |a| + 1 && b[..|a|] == a && b[|a|].era == TimesApplied(d.applied, b[|a|].task))
  {
    hide Decode, ShouldRetry, TimesApplied, Db.With, Db.Of, OnlyLane;
    var r := d.Of(lane);
    SettingsOnly(d, d, lane);
    if t :| PassBy(d, d', lane, t) {
      WithOnly(d, d, lane, r.(retrying := r.retrying.(keys := r.retrying.keys[1..])));
    } else {
      var t, at :| PushAgain(d, d', lane, t, at);
      var e := d.(now := d'.now, pushed := d.pushed + [t]);
      SettingsOnly(d, e, lane);
      WithOnly(d, e, lane, r.(
        retrying := r.retrying.(keys := r.retrying.keys[1..],
                                taken := r.retrying.taken + [t.(lastRetry := Some(d'.now))]),
        redelivered := r.redelivered + [Redelivered(t, at, r.retrying.deadline, TimesApplied(d.applied, t))]));
    }
  }

  /** A step of the readers of a lane keeps to the lane, and its scan adds one redelivery at most. */
  lemma LaneStepOnly(d: Db, d': Db, lane: Lane)
    requires LaneStep(d, d', lane)
    ensures OnlyLane(d, d', lane) && d.now <= d'.now
    ensures
      var a, b := d.Of(lane).redelivered, d'.Of(lane).redelivered;
      b == a || (|b| == |a| + 1 && b[..|a|] == a && b[|a|].era == TimesApplied(d.applied, b[|a|].task))
  {
    hide CursorStep, RetryFrameOf, RetryScanOf, OnlyLane, TimesApplied, Db.Of;
    if CursorStep(d, d', lane) {
      CursorOnly(d, d', lane);
    } else if RetryFrameOf(d, d', lane) {
      RetryFrameOnly(d, d', lane);
    } else {
      RetryScanOnly(d, d', lane);
    }
  }

  ghost predicate OrderlyDbRun(dbs: seq<Db>, lane: Lane) {
    DbRun(dbs) && forall i :: 0 <= i < |dbs| - 1 ==> OrderlyDbStep(dbs[i], dbs[i + 1], lane)
  }

  function LastDb(dbs: seq<Db>): Db
    requires dbs != []
  {
    dbs[|dbs| - 1]
  }

  /** An orderly run of the database is an orderly run of the lane. */
  lemma OrderlyRunSim(dbs: seq<Db>, lane: Lane) returns (states: seq<State>)
    requires OrderlyDbRun(dbs, lane)
    ensures LaneTheorems.OrderlyRun(states) && states != [] && Sim(LastDb(dbs), LaneTheorems.Last(states), lane)
  {
    hide Sim, DbStep, NewQueue, Lanes.Step, Lanes.Start, OrderlyDbStep, OrderlyStep;
    states := DbRunIsLaneRun(dbs, lane);
    forall i | 0 <= i < |states| - 1 ensures OrderlyStep(states[i], states[i + 1]) {
      assert DbStep(dbs[i], dbs[i + 1]) && OrderlyDbStep(dbs[i], dbs[i + 1], lane);
      SameQueue(dbs[i], dbs[i + 1]);
      OrderlyStepSim(dbs[i], dbs[i + 1], states[i], states[i + 1], lane);
    }
  }

  /** What the lane says of a task that waits, said of the settings and the store. */
  lemma NotSkippedSim(d: Db, s: State, lane: Lane, t: Task)
    requires Sim(d, s, lane) && InLane(t, d.queue, lane) && Waiting(s, Rank(t)) && !LaneTheorems.Skipped(s, Rank(t))
    requires Rank(t) in s.store
    ensures TaskKey(t) in d.kv && Below(lane, Mark(lane, d.settings), Rank(t))
    ensures
      var found := Replicated(d.kv, d.queue);
      found.Some? ==> Below(lane, Mark(lane, found.value), Rank(t))
    ensures forall p :: p in d.proposals ==> Below(lane, Mark(lane, p), Rank(t))
  {
    hide Parse, DbOk, ReadersOk, ReadersSim, LogSim, Mark, Marks, Below, Rank, TaskKey, Replicated;
    forall p | p in d.proposals ensures Below(lane, Mark(lane, p), Rank(t)) {
      MarksBelow(lane, d.proposals, Rank(t), p);
    }
    var u :| Stored(d.kv, u) && InLane(u, d.queue, lane) && Rank(u) == Rank(t);
    SameRankSameKey(t, u, d.queue, lane);
  }

  /** The cursor of a pass holds the key of a task exactly when the lane's pass holds its rank. */
  lemma CursorHolds(d: Db, s: State, lane: Lane, t: Task)
    requires Sim(d, s, lane) && InLane(t, d.queue, lane)
    requires d.Of(lane).cursor.Reading? && d.Of(lane).cursor.view == d.kv
    ensures s.pass.Passing? && (TaskKey(t) in d.Of(lane).cursor.keys <==> Rank(t) in s.pass.remaining)
  {
    hide Parse, DbOk, Represents, EraSim, LogSim, SettingsSim, RetryingOk, RetrySim, KeyRanks, Rank, TaskKey,
      WellFormed, StoreOk, Apart;
    var c := d.Of(lane).cursor;
    SettingsAreOk(d);
    KeysAndRanks(c.view, c.keys, d.queue, lane, Rank(t));
    forall k | k in c.keys ensures Rank(c.view[k].task) == Rank(t) <==> k == TaskKey(t) {
      StoredAt(d.kv, k);
      SameRankSameKey(t, c.view[k].task, d.queue, lane);
    }
  }

  lemma PassHolds(d: Db, d1: Db, d2: Db, s: State, lane: Lane, t: Task)
    requires Sim(d, s, lane) && AskRange(d, d1, lane) && OpenCursor(d1, d2, lane) && InLane(t, d.queue, lane)
    requires forall a, b :: AskPass(s, a) && OpenPass(a, b) ==>
               (Rank(t) in b.pass.remaining <==> lane.Fifo? || Rank(t) / TWO64 < UnixBits(s.now))
    ensures
      d2.Of(lane).cursor.Reading? &&
      (TaskKey(t) in d2.Of(lane).cursor.keys <==> lane.Fifo? || Rank(t) / TWO64 < UnixBits(d.now))
  {
    hide Parse, Sim, DbOk, AskPass, OpenPass, Rank, TaskKey, UnixBits, Window, UndeliveredQuery, Parseable, InLane;
    LogSimIs(d, s, lane);
    CursorStepOk(d, d1, lane);
    CursorStepOk(d1, d2, lane);
    var a := AskSim(d, d1, s, lane);
    var b := OpenSim(d1, d2, a, lane);
    OfWith(d, lane, d.Of(lane).(cursor := Ranged(UndeliveredQuery(lane, d.settings, d.now))));
    OfWith(d1, lane, d1.Of(lane).(cursor := Reading(d1.kv, Window(d1.kv, d1.Of(lane).cursor.range))));
    CursorHolds(d2, b, lane, t);
  }

  /** No task is skipped in the database, in either lane, when every task is saved in an orderly place.
      In every state of every run a task of the queue that was saved and neither pushed nor acknowledged
      has its key in the store, and its rank lies above the checkpoint in the settings, in the
      replicated settings and in every proposal. The next pass comes to its key, in the scheduled lane
      exactly if its time is past when the pass asks for its range. */
  lemma NoTaskIsSkippedInDatabase(dbs: seq<Db>, lane: Lane, t: Task)
    requires OrderlyDbRun(dbs, lane) && InLane(t, LastDb(dbs).queue, lane) && WaitingInDb(LastDb(dbs), t)
    ensures
      var d := LastDb(dbs);
      var found := Replicated(d.kv, d.queue);
      && TaskKey(t) in d.kv && Below(lane, Mark(lane, d.settings), Rank(t))
      && (found.Some? ==> Below(lane, Mark(lane, found.value), Rank(t)))
      && (forall p :: p in d.proposals ==> Below(lane, Mark(lane, p), Rank(t)))
      && (forall d1, d2 :: AskRange(d, d1, lane) && OpenCursor(d1, d2, lane) ==>
            && d2.Of(lane).cursor.Reading?
            && (TaskKey(t) in d2.Of(lane).cursor.keys <==> lane.Fifo? || Rank(t) / TWO64 < UnixBits(d.now)))
  {
    hide Parse, Sim, DbStep, NewQueue, Rank, TaskKey, UnixBits, Below, Mark, Replicated, OrderlyDbStep, Waiting,
      WaitingInDb, LaneTheorems.OrderlyRun, AskRange, OpenCursor, AskPass, OpenPass, LaneTheorems.Skipped;
    var d := LastDb(dbs);
    var states := OrderlyRunSim(dbs, lane);
    var s := LaneTheorems.Last(states);
    LogSimIs(d, s, lane);
    WaitingSim(d, s, lane, t);
    LaneTheorems.NoTaskIsSkipped(states, Rank(t));
    NotSkippedSim(d, s, lane, t);
    forall d1, d2 | AskRange(d, d1, lane) && OpenCursor(d1, d2, lane)
      ensures && d2.Of(lane).cursor.Reading?
              && (TaskKey(t) in d2.Of(lane).cursor.keys <==> lane.Fifo? || Rank(t) / TWO64 < UnixBits(d.now))
    {
      PassHolds(d, d1, d2, s, lane, t);
    }
  }

  /** The step saves only FIFO tasks whose indexes lie above all earlier ones of the queue. */
  predicate HigherInDb(d: Db, d': Db) {
    forall m, n ::
      m in LaneRanks(Saves(d.log), d.queue, Fifo) && n in LaneRanks(Saves(d'.log), d.queue, Fifo) ==>
        n in LaneRanks(Saves(d.log), d.queue, Fifo) || m < n
  }

  /** No FIFO task is skipped in the database when each batch has indexes above all earlier ones. */
  lemma NoFifoTaskIsSkippedInDatabase(dbs: seq<Db>, t: Task)
    requires DbRun(dbs) && forall i :: 0 <= i < |dbs| - 1 ==> HigherInDb(dbs[i], dbs[i + 1])
    requires InLane(t, LastDb(dbs).queue, Fifo) && WaitingInDb(LastDb(dbs), t)
    ensures
      var d := LastDb(dbs);
      var found := Replicated(d.kv, d.queue);
      && TaskKey(t) in d.kv && Below(Fifo, Mark(Fifo, d.settings), Rank(t))
      && (found.Some? ==> Below(Fifo, Mark(Fifo, found.value), Rank(t)))
      && (forall p :: p in d.proposals ==> Below(Fifo, Mark(Fifo, p), Rank(t)))
      && (forall d1, d2 :: AskRange(d, d1, Fifo) && OpenCursor(d1, d2, Fifo) ==>
            d2.fifo.cursor.Reading? && TaskKey(t) in d2.fifo.cursor.keys)
  {
    hide Parse, Sim, DbStep, NewQueue, Rank, TaskKey, Below, Mark, Replicated, HigherInDb, Waiting, WaitingInDb,
      AskRange, OpenCursor, AskPass, OpenPass, Lanes.Step, Lanes.Start, LaneTheorems.HigherIndexes, UnixBits;
    var d := LastDb(dbs);
    var states := DbRunIsLaneRun(dbs, Fifo);
    var s := LaneTheorems.Last(states);
    forall i | 0 <= i < |states| - 1 ensures LaneTheorems.HigherIndexes(states[i], states[i + 1]) {
      assert DbStep(dbs[i], dbs[i + 1]) && HigherInDb(dbs[i], dbs[i + 1]);
      SameQueue(dbs[i], dbs[i + 1]);
      HigherSim(dbs[i], dbs[i + 1], states[i], states[i + 1]);
    }
    LogSimIs(d, s, Fifo);
    WaitingSim(d, s, Fifo, t);
    LaneTheorems.HigherIsOrderlyRun(states);
    LaneTheorems.NoTaskIsSkipped(states, Rank(t));
    NotSkippedSim(d, s, Fifo, t);
    forall d1, d2 | AskRange(d, d1, Fifo) && OpenCursor(d1, d2, Fifo)
      ensures d2.fifo.cursor.Reading? && TaskKey(t) in d2.fifo.cursor.keys
    {
      PassHolds(d, d1, d2, s, Fifo, t);
    }
  }

  lemma HigherSim(d: Db, d': Db, s: State, s': State)
    requires Sim(d, s, Fifo) && Sim(d', s', Fifo) && d'.queue == d.queue && HigherInDb(d, d')
    ensures LaneTheorems.HigherIndexes(s, s')
  {
    hide Sim, DbOk, LaneRanks, AckRanks, MarkSet, Saves, Acks, Configs;
    LogSimIs(d, s, Fifo);
    LogSimIs(d', s', Fifo);
  }

  /** Every task of the queue that was ever saved has its key in the store until it is acknowledged. */
  lemma TasksAreStoredUntilAcked(dbs: seq<Db>, t: Task)
    requires DbRun(dbs)
    requires
      var d := LastDb(dbs);
      Storable(t) && t.queue == d.queue && t in Saves(d.log) && TaskKey(t) !in AckKeys(Acks(d.log))
    ensures TaskKey(t) in LastDb(dbs).kv
  {
    hide Parse, Sim, DbStep, NewQueue, Rank, TaskKey, Saves, Acks, AckKeys, LaneRanks, AckRanks, MarkSet, Configs,
      Lanes.Run;
    var d, lane := LastDb(dbs), LaneOf(t);
    var states := DbRunIsLaneRun(dbs, lane);
    var s := LaneTheorems.Last(states);
    assert Sim(d, s, lane);
    LogSimIs(d, s, lane);
    HasRank(Saves(d.log), d.queue, lane, t);
    AckRanksAre(Acks(d.log), t, d.queue, lane);
    LaneTheorems.TasksAreKeptUntilAcked(states, Rank(t));
    StoredSim(d, s, lane, t);
  }

  lemma StoredSim(d: Db, s: State, lane: Lane, t: Task)
    requires Sim(d, s, lane) && InLane(t, d.queue, lane) && Rank(t) in s.store
    ensures TaskKey(t) in d.kv
  {
    hide Parse, DbOk, ReadersOk, ReadersSim, LogSim, SettingsSim, Rank, TaskKey;
    var u :| Stored(d.kv, u) && InLane(u, d.queue, lane) && Rank(u) == Rank(t);
    SameRankSameKey(t, u, d.queue, lane);
  }

  // ---------- Order, times and spacing ----------

  lemma LaneOfRun(dbs: seq<Db>, lane: Lane) returns (states: seq<State>)
    requires DbRun(dbs)
    ensures Lanes.Run(states) && states != []
    ensures Sim(LastDb(dbs), LaneTheorems.Last(states), lane) && LaneTheorems.Inv(LaneTheorems.Last(states))
  {
    hide Sim, DbStep, NewQueue, Lanes.Step, Lanes.Start, LaneTheorems.Inv;
    states := DbRunIsLaneRun(dbs, lane);
    LaneTheorems.RunKeepsInv(states);
  }

  lemma RunIsOk(dbs: seq<Db>)
    requires DbRun(dbs)
    ensures DbOk(LastDb(dbs))
  {
    hide Sim, DbOk, DbStep, NewQueue, Lanes.Run, LaneTheorems.Inv;
    var states := LaneOfRun(dbs, Fifo);
    SimIsOk(LastDb(dbs), LaneTheorems.Last(states), Fifo);
  }

  lemma HistoryOf(d: Db, s: State, lane: Lane)
    requires Sim(d, s, lane)
    ensures HistorySim(d.Of(lane), s) && HistoryInLane(d.Of(lane), d.queue, lane)
  {
    hide DbOk, Represents, EraSim, LogSim, SettingsSim, CursorOk, CursorSim, RetryingOk, RetrySim, HistorySim,
      HistoryInLane;
  }

  /** Since the feed was opened, the undelivered reader has pushed tasks in strictly increasing order, so
      it has pushed no task twice. */
  lemma DeliveryIsOrderedInDatabase(dbs: seq<Db>, lane: Lane)
    requires DbRun(dbs)
    ensures
      var pushes := LastDb(dbs).Of(lane).delivered;
      forall i, j :: 0 <= i < j < |pushes| ==>
        Storable(pushes[i].task) && Storable(pushes[j].task) && Rank(pushes[i].task) < Rank(pushes[j].task)
  {
    hide Parse, Sim, DbStep, NewQueue, Rank, Lanes.Run, LaneTheorems.Inv, Timed;
    var states := LaneOfRun(dbs, lane);
    var d, s := LastDb(dbs), LaneTheorems.Last(states);
    LaneTheorems.DeliveryIsOrdered(states);
    HistoryOf(d, s, lane);
    var pushes := d.Of(lane).delivered;
    forall i, j | 0 <= i < j < |pushes|
      ensures Storable(pushes[i].task) && Storable(pushes[j].task) && Rank(pushes[i].task) < Rank(pushes[j].task)
    {
      assert pushes[i] in pushes && pushes[j] in pushes;
      assert s.order[i] == RankOf(pushes[i].task) && s.order[j] == RankOf(pushes[j].task);
    }
  }

  /** No scheduled task is pushed at or before its schedule time, and none is redelivered before that time
      plus the ack deadline. */
  lemma NeverEarlyInDatabase(dbs: seq<Db>)
    requires DbRun(dbs)
    ensures
      var r := LastDb(dbs).scheduled;
      && (forall x :: x in r.delivered ==> x.task.scheduleTime.Some? && x.task.scheduleTime.value < x.at)
      && (forall x :: x in r.redelivered ==>
            x.task.scheduleTime.Some? && x.task.scheduleTime.value + x.deadline < x.at)
  {
    hide Parse, Sim, DbStep, NewQueue, Rank, Lanes.Run, LaneTheorems.Inv;
    var states := LaneOfRun(dbs, Scheduled);
    var d, s := LastDb(dbs), LaneTheorems.Last(states);
    LogSimIs(d, s, Scheduled);
    LaneTheorems.NeverEarly(states);
    HistoryOf(d, s, Scheduled);
    var r := d.scheduled;
    forall x | x in r.delivered ensures x.task.scheduleTime.Some? && x.task.scheduleTime.value < x.at {
      assert Delivery(RankOf(x.task), x.at) in s.deliveries;
    }
    forall x | x in r.redelivered ensures x.task.scheduleTime.Some? && x.task.scheduleTime.value + x.deadline < x.at {
      var i :| 0 <= i < |r.redelivered| && r.redelivered[i] == x;
      assert s.retries[i] in s.retries;
    }
  }

  /** Two redeliveries of one key, with no application of its save from the log between them. */
  predicate SpacedInDb(pushes: seq<Redelivered>) {
    forall i, j :: 0 <= i < j < |pushes| ==>
      (&& Storable(pushes[i].task) && Storable(pushes[j].task) && TaskKey(pushes[i].task) == TaskKey(pushes[j].task)
       && pushes[i].era == pushes[j].era) ==> pushes[j].at - pushes[i].at > pushes[j].deadline
  }

  /** Since the feed was opened, redelivery passes of a lane have not overlapped, and any two redeliveries
      of a task are more than the ack deadline apart, unless the task was applied again between them. */
  lemma RetriesAreSpacedInDatabase(dbs: seq<Db>, lane: Lane)
    requires DbRun(dbs)
    ensures SpacedInDb(LastDb(dbs).Of(lane).redelivered)
    ensures forall d' :: BeginRetry(LastDb(dbs), d', lane) ==> LastDb(dbs).Of(lane).retrying.Resting?
  {
    hide Parse, Sim, DbStep, NewQueue, Rank, Lanes.Run, LaneTheorems.Inv, Timed, TaskKey, BeginRetry;
    var states := LaneOfRun(dbs, lane);
    var d, s := LastDb(dbs), LaneTheorems.Last(states);
    LaneTheorems.RetriesAreSpaced(states);
    HistoryOf(d, s, lane);
    var pushes := d.Of(lane).redelivered;
    forall i, j |
      && 0 <= i < j < |pushes| && TaskKey(pushes[i].task) == TaskKey(pushes[j].task)
      && pushes[i].era == pushes[j].era
      ensures pushes[j].at - pushes[i].at > pushes[j].deadline
    {
      assert pushes[i] in pushes && pushes[j] in pushes;
      SameRankSameKey(pushes[i].task, pushes[j].task, d.queue, lane);
      assert s.retries[i].rank == s.retries[j].rank && s.retries[i].era == s.retries[j].era;
    }
    forall d' | BeginRetry(d, d', lane) ensures d.Of(lane).retrying.Resting? { BeginsResting(d, d', s, lane); }
  }

  lemma BeginsResting(d: Db, d': Db, s: State, lane: Lane)
    requires Sim(d, s, lane) && BeginRetry(d, d', lane) && forall s' :: RetryStart(s, s') ==> s.stage.Off?
    ensures d.Of(lane).retrying.Resting?
  {
    hide DbOk, Represents, EraSim, LogSim, SettingsSim, CursorOk, CursorSim, HistorySim, HistoryInLane, LaneTasks,
      KeyRanks, ViewSim, LaneKeys, AllInLane, LowerBound, UpperBound;
    assert RetryStart(s, s.(lastRun := Some(s.now), active := true, stage := Started));
  }
}
