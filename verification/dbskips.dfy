/** Exactly which saves lead to a skipped task in the database. */
module DatabaseSkips {
  import opened ByteStrings
  import opened Ids
  import opened Keys
  import opened TaskStores
  import opened Iteration
  import opened StateMachines
  import opened Lanes
  import opened LaneProofs
  import LaneTheorems
  import opened Readers
  import opened Syncing
  import opened Database
  import opened DatabaseInvariant
  import opened Simulation
  import opened Refinement
  import opened DatabaseTheorems

  /** A task waits, and the checkpoint in the settings, in the replicated settings or in a proposal has
      moved past it. */
  predicate SkippedInDb(d: Db, lane: Lane, t: Task) {
    && InLane(t, d.queue, lane) && WaitingInDb(d, t)
    && var found := Replicated(d.kv, d.queue);
       !(&& Below(lane, Mark(lane, d.settings), Rank(t))
         && (found.Some? ==> Below(lane, Mark(lane, found.value), Rank(t)))
         && (forall p :: p in d.proposals ==> Below(lane, Mark(lane, p), Rank(t))))
  }

  /** A run that goes on from another without saving anything. */
  ghost predicate ContinuesDb(more: seq<Db>, dbs: seq<Db>) {
    && DbRun(more) && 0 < |dbs| <= |more| && more[..|dbs|] == dbs
    && forall i :: |dbs| - 1 <= i < |more| ==> Saves(more[i].log) == Saves(LastDb(dbs).log)
  }

  /** Nothing that can happen before the next save skips a task. */
  ghost predicate NeverSkipsInDb(dbs: seq<Db>, lane: Lane) {
    forall more, t :: ContinuesDb(more, dbs) ==> !SkippedInDb(LastDb(more), lane, t)
  }

  // ---------- Orderly saves skip nothing ----------

  lemma ExtendRun(dbs: seq<Db>, d: Db)
    requires DbRun(dbs) && DbStep(LastDb(dbs), d)
    ensures DbRun(dbs + [d])
  {
    hide DbStep, NewQueue;
    var more := dbs + [d];
    forall i | 0 <= i < |more| - 1 ensures DbStep(more[i], more[i + 1]) {
      if i < |dbs| - 1 { assert DbStep(dbs[i], dbs[i + 1]); }
    }
  }

  lemma UnsavedIsOrderly(d: Db, d': Db, lane: Lane)
    requires Saves(d'.log) == Saves(d.log)
    ensures OrderlyDbStep(d, d', lane)
  {
    hide Parse, Rank, TaskKey, Saves, LaneRanks, OrderlyInDb;
    forall t | t in Saves(d'.log) && InLane(t, d.queue, lane)
      ensures Rank(t) in LaneRanks(Saves(d.log), d.queue, lane)
    {
      HasRank(Saves(d.log), d.queue, lane, t);
    }
  }

  lemma ContinuesIsOrderly(more: seq<Db>, dbs: seq<Db>, lane: Lane)
    requires ContinuesDb(more, dbs) && OrderlyDbRun(dbs, lane)
    ensures OrderlyDbRun(more, lane)
  {
    hide DbStep, NewQueue, OrderlyDbStep, Saves;
    forall i | 0 <= i < |more| - 1 ensures OrderlyDbStep(more[i], more[i + 1], lane) {
      if i < |dbs| - 1 {
        assert more[i] == more[..|dbs|][i] && more[i + 1] == more[..|dbs|][i + 1];
        assert OrderlyDbStep(dbs[i], dbs[i + 1], lane);
      } else {
        UnsavedIsOrderly(more[i], more[i + 1], lane);
      }
    }
  }

  lemma OrderlyNeverSkips(dbs: seq<Db>, lane: Lane)
    requires OrderlyDbRun(dbs, lane)
    ensures NeverSkipsInDb(dbs, lane)
  {
    hide DbRun, OrderlyDbStep, Saves, Replicated, Below, Mark, Rank, WaitingInDb, InLane, AskRange, OpenCursor,
      TaskKey, OrderlyDbRun;
    forall more, t | ContinuesDb(more, dbs) ensures more != [] && !SkippedInDb(LastDb(more), lane, t) {
      ContinuesIsOrderly(more, dbs, lane);
      if InLane(t, LastDb(more).queue, lane) && WaitingInDb(LastDb(more), t) {
        NoTaskIsSkippedInDatabase(more, lane, t);
      }
    }
  }

  // ---------- Other saves can skip a task ----------

  /** A new task has not been pushed: only saved tasks are. */
  lemma NewTaskWaits(dbs: seq<Db>, d': Db, tasks: seq<Task>, isFollower: bool, lane: Lane, t: Task)
    requires DbRun(dbs) && SaveBatch(LastDb(dbs), d', tasks, isFollower)
    requires
      var d := LastDb(dbs);
      && t in Saves(d'.log) && InLane(t, d.queue, lane) && Rank(t) !in LaneRanks(Saves(d.log), d.queue, lane)
      && TaskKey(t) !in AckKeys(Acks(d.log))
    ensures WaitingInDb(d', t)
  {
    hide Parse, Sim, DbStep, NewQueue, Rank, TaskKey, AckKeys, Saves, Acks, LaneRanks, AckRanks, MarkSet, Configs,
      Lanes.Run, NameApart, FreshTask, SavePuts, SaveCommands;
    var d := LastDb(dbs);
    var states := LaneOfRun(dbs, lane);
    var s := LaneTheorems.Last(states);
    LogSimIs(d, s, lane);
    PushedIsSaved(s);
    SavedLog(d.log, tasks);
    forall u | u in d.pushed && Storable(u) ensures TaskKey(u) != TaskKey(t) {
      SameRankSameKey(t, u, d.queue, lane);
      if InLane(u, d.queue, lane) { HasRank(d.pushed, d.queue, lane, u); }
    }
  }

  lemma PushedIsSaved(s: State)
    requires LaneTheorems.Inv(s)
    ensures s.pushed <= s.saved
  {
    hide Durable, Tracked, Ordered, RetryInv, Timely, RetriesTimely;
  }

  lemma {:induction false} ConfigsAt(log: seq<Command>, c: QueueConfig) returns (i: nat)
    requires c in Configs(log)
    ensures i < |log| && log[i] == SaveQueue(c)
  {
    var rest := log[..|log| - 1];
    if log[|log| - 1] == SaveQueue(c) {
      i := |log| - 1;
    } else {
      i := ConfigsAt(rest, c);
    }
  }

  lemma OneCommand(c: QueueConfig)
    ensures Saves([SaveQueue(c)]) == [] && Acks([SaveQueue(c)]) == [] && Configs([SaveQueue(c)]) == [c]
    ensures Readable([SaveQueue(c)])
  {
    assert [SaveQueue(c)][..0] == [];
  }

  /** A feed opened in the middle of a replay finds settings that were replaced long ago. */
  lemma OldSettingsAgain(d: Db, c: QueueConfig) returns (d1: Db, d2: Db, d3: Db)
    requires DbOk(d) && c in Configs(d.log)
    ensures DbStep(d, d1) && DbStep(d1, d2) && DbStep(d2, d3)
    ensures d3.log == d.log && d2.log == d.log && d1.log == d.log && d3.pushed == d.pushed && d3.queue == d.queue
    ensures d3.settings == c
  {
    hide Parse, GoodKv, Saves, Acks, Configs, AckKeys, Replicated, LoggedOk, ReadersOk, ConfigKey, Found,
      FRESH_READERS, AppliedAgain, KeysOf, Replayed, DbStep, Readable, ConfigOk, DefaultConfig, StoreOk, LogOk;
    var i := ConfigsAt(d.log, c);
    d1 := d.(buffer := [], replaying := d.log[i..], lastSaved := None, fifo := FRESH_READERS,
             scheduled := FRESH_READERS, settings := Found(d.kv, d.queue));
    assert Restart(d, d1, i);
    RestartIsStep(d, d1, i);
    assert d1.replaying[..1] == [SaveQueue(c)];
    OneCommand(c);
    d2 := d1.(kv := Replayed(d1.kv, [SaveQueue(c)]), buffer := d1.buffer + Acks([SaveQueue(c)]),
              replaying := d1.replaying[1..], applied := AppliedAgain(d1.applied, KeysOf(Saves([SaveQueue(c)]))));
    assert ReplayBatch(d1, d2, 1);
    ReplayIsStep(d1, d2, 1);
    d3 := d2.(lastSaved := None, fifo := FRESH_READERS, scheduled := FRESH_READERS, settings := Found(d2.kv, d2.queue));
    assert OpenFeed(d2, d3);
    OpenIsStep(d2, d3);
    FindsAgain(d, c);
  }

  lemma FindsAgain(d: Db, c: QueueConfig)
    requires DbOk(d) && c in Configs(d.log)
    ensures Readable([SaveQueue(c)]) && Found(Replayed(d.kv, [SaveQueue(c)]), d.queue) == c
  {
    hide Parse, GoodKv, Saves, Acks, Configs, AckKeys, LoggedOk, ReadersOk, ConfigKey, Readable, LogOk, TaskPuts,
      Parseable, Replicated;
    OneCommand(c);
    SettingsAreOk(d);
    assert c.id == d.queue;
    ConfigKeepsStore(d.kv, c, d.queue);
    NoPuts();
    assert SaveConfigs(d.kv, [c]) == d.kv[ConfigKey(c.id) := ConfigValue(c)] by {
      assert [c][..0] == [];
    }
    PutNone(d.kv[ConfigKey(c.id) := ConfigValue(c)]);
  }

  lemma RestartIsStep(d: Db, d': Db, from: nat)
    requires Restart(d, d', from)
    ensures DbStep(d, d')
  {
    hide Restart;
  }

  lemma ReplayIsStep(d: Db, d': Db, n: nat)
    requires ReplayBatch(d, d', n)
    ensures DbStep(d, d')
  {
    hide ReplayBatch;
  }

  lemma OpenIsStep(d: Db, d': Db)
    requires OpenFeed(d, d')
    ensures DbStep(d, d')
  {
    hide OpenFeed;
  }

  lemma PushIsStep(d: Db, d': Db, lane: Lane)
    requires PushTask(d, d', lane)
    ensures DbStep(d, d')
  {
    hide PushTask;
  }

  lemma SaveIsDbStep(d: Db, d': Db, tasks: seq<Task>, isFollower: bool)
    requires SaveBatch(d, d', tasks, isFollower)
    ensures DbStep(d, d')
  {
    hide SaveBatch;
  }

  /** Waiting depends on the log and on what was pushed only. */
  lemma StillWaits(d: Db, d': Db, t: Task)
    requires WaitingInDb(d, t) && d'.log == d.log && d'.pushed == d.pushed && d'.queue == d.queue
    ensures WaitingInDb(d', t)
  {
    hide Parse, TaskKey, AckKeys, Saves, Acks;
  }

  lemma SkipsBySettings(dbs: seq<Db>, lane: Lane, t: Task, c: QueueConfig) returns (more: seq<Db>)
    requires DbRun(dbs) && InLane(t, LastDb(dbs).queue, lane) && WaitingInDb(LastDb(dbs), t)
    requires c in Configs(LastDb(dbs).log) && !Below(lane, Mark(lane, c), Rank(t))
    ensures ContinuesDb(more, dbs) && SkippedInDb(LastDb(more), lane, t)
  {
    hide Parse, DbOk, DbStep, NewQueue, Saves, Configs, Below, Mark, Rank, WaitingInDb, InLane, Replicated;
    var d := LastDb(dbs);
    RunIsOk(dbs);
    var d1, d2, d3 := OldSettingsAgain(d, c);
    ExtendRun(dbs, d1);
    ExtendRun(dbs + [d1], d2);
    ExtendRun(dbs + [d1] + [d2], d3);
    StillWaits(d, d3, t);
    more := dbs + [d1] + [d2] + [d3];
  }

  /** What the cursor still holds are real tasks of the log. */
  lemma CursorIsSaved(dbs: seq<Db>, lane: Lane, k: Bytes)
    requires DbRun(dbs) && LastDb(dbs).Of(lane).cursor.Reading? && k in LastDb(dbs).Of(lane).cursor.keys
    ensures
      var d := LastDb(dbs);
      var c := d.Of(lane).cursor;
      && k in c.view && Decode(c.view[k]).Ok? && InLane(c.view[k].task, d.queue, lane)
      && RealRank(lane, Rank(c.view[k].task)) && Rank(c.view[k].task) in LaneRanks(Saves(d.log), d.queue, lane)
  {
    hide Parse, Sim, DbOk, DbStep, NewQueue, Rank, Saves, LaneRanks, AckRanks, MarkSet, Acks, Configs, Lanes.Run,
      RealRank, LaneKeys, KeyRanks, Decode;
    var d := LastDb(dbs);
    var states := LaneOfRun(dbs, lane);
    var s := LaneTheorems.Last(states);
    LogSimIs(d, s, lane);
    OfOk(d, lane);
    var c := d.Of(lane).cursor;
    PassIs(d, s, lane);
    KeysAndRanks(c.view, c.keys, d.queue, lane, 0);
    KeyIsLane(c.view, c.keys, d.queue, lane, k);
    DecodedTask(c.view[k]);
    RemainingIsSaved(s, lane, Rank(c.view[k].task));
  }

  lemma KeyIsLane(view: KV, keys: seq<Bytes>, queue: Bytes, lane: Lane, k: Bytes)
    requires LaneKeys(view, keys, queue, lane) && k in keys
    ensures k in view && Decode(view[k]).Ok? && InLane(view[k].task, queue, lane)
  {
    hide Decode, InLane, Timed;
  }

  lemma PassIs(d: Db, s: State, lane: Lane)
    requires Sim(d, s, lane) && d.Of(lane).cursor.Reading?
    ensures
      var c := d.Of(lane).cursor;
      LaneKeys(c.view, c.keys, d.queue, lane) && s.pass == Passing(KeyRanks(c.view, c.keys, d.queue, lane))
  {
    hide DbOk, Represents, EraSim, LogSim, SettingsSim, RetryingOk, RetrySim, HistorySim, HistoryInLane, LaneKeys,
      KeyRanks;
  }

  lemma RemainingIsSaved(s: State, lane: Lane, n: nat)
    requires LaneTheorems.Inv(s) && s.lane == lane && s.pass.Passing? && n in s.pass.remaining
    ensures n in s.saved && RealRank(lane, n)
  {
    hide RealRank, Sane, StageSane, Ordered, RetryInv, Timely, RetriesTimely;
  }

  /** The running pass goes on, past the task. */
  lemma {:induction false} SkipsByPass(dbs: seq<Db>, lane: Lane, t: Task, k: Bytes) returns (more: seq<Db>)
    requires DbRun(dbs) && InLane(t, LastDb(dbs).queue, lane) && WaitingInDb(LastDb(dbs), t)
    requires
      var c := LastDb(dbs).Of(lane).cursor;
      && c.Reading? && k in c.keys && k in c.view && c.view[k].TaskValue? && Storable(c.view[k].task)
      && Rank(t) <= Rank(c.view[k].task)
      && forall x :: x in c.keys && x in c.view && c.view[x].TaskValue? && Storable(c.view[x].task) ==>
           Rank(c.view[x].task) != Rank(t)
    ensures ContinuesDb(more, dbs) && SkippedInDb(LastDb(more), lane, t)
    decreases |LastDb(dbs).Of(lane).cursor.keys|
  {
    hide Parse, DbOk, DbStep, NewQueue, Saves, Configs, Below, Mark, Rank, WaitingInDb, Replicated, Decode, TaskKey,
      SetCheckpoint, RealRank, LaneRanks;
    var d := LastDb(dbs);
    var c := d.Of(lane).cursor;
    CursorIsSaved(dbs, lane, c.keys[0]);
    DecodedTask(c.view[c.keys[0]]);
    var u := c.view[c.keys[0]].task;
    var r := d.Of(lane).(cursor := Reading(c.view, c.keys[1..]),
                         delivered := d.Of(lane).delivered + [Delivered(u, d.now)]);
    var d' := d.(settings := SetCheckpoint(lane, d.settings, u), pushed := d.pushed + [u]).With(lane, r);
    assert PushTask(d, d', lane);
    PushIsStep(d, d', lane);
    ExtendRun(dbs, d');
    WaitsAfterPush(d, d', t, u, lane);
    if c.keys[0] == k {
      more := dbs + [d'];
      RunIsOk(dbs);
      PastMark(d, lane, u, t);
    } else {
      assert k in c.keys[1..];
      more := SkipsByPass(dbs + [d'], lane, t, k);
      assert more[..|dbs|] == more[..|dbs| + 1][..|dbs|] == dbs;
    }
  }

  lemma WaitsAfterPush(d: Db, d': Db, t: Task, u: Task, lane: Lane)
    requires WaitingInDb(d, t) && InLane(t, d.queue, lane) && InLane(u, d.queue, lane) && Rank(u) != Rank(t)
    requires d'.log == d.log && d'.pushed == d.pushed + [u] && d'.queue == d.queue
    ensures WaitingInDb(d', t)
  {
    hide Parse, TaskKey, AckKeys, Saves, Acks, Rank;
    SameRankSameKey(t, u, d.queue, lane);
  }

  lemma PastMark(d: Db, lane: Lane, u: Task, t: Task)
    requires DbOk(d) && InLane(u, d.queue, lane) && InLane(t, d.queue, lane)
    requires RealRank(lane, Rank(u)) && Rank(t) <= Rank(u)
    ensures !Below(lane, Mark(lane, SetCheckpoint(lane, d.settings, u)), Rank(t))
  {
    hide Parse, DbOk, Index, Number, SetCheckpoint, Mark, Parseable, Checkpoint;
    MarkIsCheckpoint(d, lane);
    MarkAfter(lane, lane, d.settings, u);
  }

  /** A save in any other place can be continued, without another save, to a skipped task: at once when
      the checkpoint in the settings or in a proposal is above it, by a restart and a feed that is opened
      in the middle of the replay when settings once committed were, and by going on with the running
      pass when that has a later task left. */
  lemma DisorderlySaveSkipsInDatabase(
      dbs: seq<Db>, d': Db, tasks: seq<Task>, isFollower: bool, lane: Lane, t: Task) returns (more: seq<Db>)
    requires DbRun(dbs) && SaveBatch(LastDb(dbs), d', tasks, isFollower)
    requires
      var d := LastDb(dbs);
      && t in Saves(d'.log) && InLane(t, d.queue, lane) && Rank(t) !in LaneRanks(Saves(d.log), d.queue, lane)
      && TaskKey(t) !in AckKeys(Acks(d.log)) && !OrderlyInDb(d, lane, Rank(t))
    ensures ContinuesDb(more, dbs + [d']) && SkippedInDb(LastDb(more), lane, t)
  {
    hide Parse, DbStep, NewQueue, Saves, Acks, Configs, Below, Mark, Rank, WaitingInDb, Replicated, TaskKey, AckKeys,
      LaneRanks, SaveBatch;
    var d := LastDb(dbs);
    SaveIsDbStep(d, d', tasks, isFollower);
    ExtendRun(dbs, d');
    NewTaskWaits(dbs, d', tasks, isFollower, lane, t);
    SaveChanges(d, d', tasks, isFollower);
    more := dbs + [d'];
    if !AboveMarks(d, lane, Rank(t)) {
      if c :| c in Configs(d.log) && !Below(lane, Mark(lane, c), Rank(t)) {
        more := SkipsBySettings(dbs + [d'], lane, t, c);
      }
    } else {
      var c := d.Of(lane).cursor;
      var k :| && k in c.keys && k in c.view && c.view[k].TaskValue? && Storable(c.view[k].task)
               && Rank(c.view[k].task) >= Rank(t);
      forall x | x in c.keys && x in c.view && c.view[x].TaskValue? && Storable(c.view[x].task)
        ensures Rank(c.view[x].task) != Rank(t)
      {
        CursorIsSaved(dbs, lane, x);
      }
      more := SkipsByPass(dbs + [d'], lane, t, k);
    }
  }

  lemma SaveChanges(d: Db, d': Db, tasks: seq<Task>, isFollower: bool)
    requires SaveBatch(d, d', tasks, isFollower)
    ensures d'.queue == d.queue && d'.settings == d.settings && d'.proposals == d.proposals && d'.pushed == d.pushed
    ensures d'.fifo == d.fifo && d'.scheduled == d.scheduled && Configs(d'.log) == Configs(d.log)
  {
    hide NameApart, FreshTask, SavePuts, Saves, Acks, Configs, SaveCommands;
    SavedLog(d.log, tasks);
  }

  /** The exact condition, in either lane: after an orderly run, whatever happens up to the next save
      leaves no task of the queue skipped if and only if this save is orderly. */
  lemma SkipsExactlyInDatabase(dbs: seq<Db>, d': Db, tasks: seq<Task>, isFollower: bool, lane: Lane)
    requires OrderlyDbRun(dbs, lane) && SaveBatch(LastDb(dbs), d', tasks, isFollower)
    ensures DbRun(dbs + [d'])
    ensures NeverSkipsInDb(dbs + [d'], lane) <==> OrderlyDbStep(LastDb(dbs), d', lane)
  {
    hide Parse, DbStep, NewQueue, Saves, Acks, ContinuesDb, SkippedInDb, OrderlyInDb, InLane, Rank, LaneRanks, TaskKey,
      AckKeys, SaveBatch;
    var d := LastDb(dbs);
    SaveIsDbStep(d, d', tasks, isFollower);
    ExtendRun(dbs, d');
    if OrderlyDbStep(d, d', lane) {
      ExtendOrderly(dbs, d', lane);
      OrderlyNeverSkips(dbs + [d'], lane);
    } else {
      var t := Disorderly(d, d', lane);
      var more := DisorderlySaveSkipsInDatabase(dbs, d', tasks, isFollower, lane, t);
    }
  }

  lemma Disorderly(d: Db, d': Db, lane: Lane) returns (t: Task)
    requires !OrderlyDbStep(d, d', lane)
    ensures t in Saves(d'.log) && InLane(t, d.queue, lane) && Rank(t) !in LaneRanks(Saves(d.log), d.queue, lane)
    ensures TaskKey(t) !in AckKeys(Acks(d.log)) && !OrderlyInDb(d, lane, Rank(t))
  {
    hide Parse, Saves, Acks, OrderlyInDb, Rank, LaneRanks, TaskKey, AckKeys;
    t :| && t in Saves(d'.log) && InLane(t, d.queue, lane) && Rank(t) !in LaneRanks(Saves(d.log), d.queue, lane)
         && TaskKey(t) !in AckKeys(Acks(d.log)) && !OrderlyInDb(d, lane, Rank(t));
  }

  lemma ExtendOrderly(dbs: seq<Db>, d: Db, lane: Lane)
    requires OrderlyDbRun(dbs, lane) && DbRun(dbs + [d]) && OrderlyDbStep(LastDb(dbs), d, lane)
    ensures OrderlyDbRun(dbs + [d], lane)
  {
    hide DbRun, OrderlyDbStep;
    var more := dbs + [d];
    forall i | 0 <= i < |more| - 1 ensures OrderlyDbStep(more[i], more[i + 1], lane) {
      if i < |dbs| - 1 { assert OrderlyDbStep(dbs[i], dbs[i + 1], lane); }
    }
  }
}
