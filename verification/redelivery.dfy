/** When tasks are redelivered: what one pass redelivers, and how long after the last time. */
module Redelivery {
  import opened ByteStrings
  import opened Ids
  import opened Keys
  import opened TaskStores
  import opened Iteration
  import opened StateMachines
  import opened Lanes
  import opened Readers
  import opened Syncing
  import opened Database
  import opened DatabaseInvariant
  import opened Simulation
  import opened Refinement
  import opened DatabaseTheorems
  import opened DueTasks
  import opened Feeds

  // ---------- Steps, seen from the redelivery reader of a lane ----------

  /** The step is none of the lane's redelivery reader. */
  predicate Aside(d: Db, d': Db, lane: Lane) {
    d'.Of(lane).retrying == d.Of(lane).retrying && d'.Of(lane).redelivered == d.Of(lane).redelivered
  }

  lemma StoreIsAside(d: Db, d': Db, lane: Lane)
    requires StoreStep(d, d') || SettingsStep(d, d') || exists n :: ReplayBatch(d, d', n)
    ensures d.now <= d'.now && Aside(d, d', lane)
  {
    hide Replicated, WellFormed, Apart, Stored, ConfigKey, SavePuts, AckKeys, FreshTask, NameApart, SaveCommands,
      AckCommands, Db.With, Replayed, Readable, AppliedAgain;
  }

  lemma CursorIsAside(d: Db, d': Db, lane: Lane, of: Lane)
    requires CursorStep(d, d', of)
    ensures d.now <= d'.now && Aside(d, d', lane)
  {
    hide CursorStep;
    CursorOnly(d, d', of);
  }

  lemma OtherIsAside(d: Db, d': Db, lane: Lane)
    requires LaneStep(d, d', Other(lane))
    ensures d.now <= d'.now && Aside(d, d', lane)
  {
    hide LaneStep, TimesApplied;
    LaneStepOnly(d, d', Other(lane));
  }

  /** Every step is aside, opens the feed, or is one of the lane's redelivery reader; time goes on. */
  lemma StepOfReader(d: Db, d': Db, lane: Lane)
    requires DbStep(d, d')
    ensures d.now <= d'.now
    ensures || Aside(d, d', lane) || d'.Of(lane) == FRESH_READERS
            || RetryFrameOf(d, d', lane) || RetryScanOf(d, d', lane)
  {
    hide StoreStep, SettingsStep, ReplayBatch, CursorStep, RetryFrameOf, RetryScanOf, Aside;
    if StoreStep(d, d') || SettingsStep(d, d') || exists n :: ReplayBatch(d, d', n) {
      StoreIsAside(d, d', lane);
    } else if LaneStep(d, d', Other(lane)) {
      OtherIsAside(d, d', lane);
    } else if CursorStep(d, d', lane) {
      CursorIsAside(d, d', lane, lane);
    } else if LaneStep(d, d', lane) {
      LaneStepOnly(d, d', lane);
    } else {
      FeedIsFresh(d, d', lane);
    }
  }

  lemma FeedIsFresh(d: Db, d': Db, lane: Lane)
    requires OpenFeed(d, d') || exists from :: Restart(d, d', from)
    ensures d'.now == d.now && d'.Of(lane) == FRESH_READERS
  {
    hide Found, FRESH_READERS;
  }

  // ---------- No redelivery before the ack deadline ----------

  predicate InPass(r: Retrying) { r.Watermarked? || r.RetryRanged? || r.Rereading? }

  /** The pass took its watermark in this state: one ack deadline before its time. */
  predicate MarkedIn(e: Db, r: Retrying, now: int)
    requires InPass(r)
  {
    e.now <= now && r.deadline == 1_000_000_000 * e.settings.ackDeadlineSeconds && r.watermark == e.now - r.deadline
  }

  /** In this state, not after the push, the task had been sent more than one ack deadline before. */
  predicate DueIn(e: Db, x: Redelivered) {
    && x.deadline == 1_000_000_000 * e.settings.ackDeadlineSeconds
    && LastSent(x.task) + x.deadline < e.now <= x.at
  }

  ghost predicate Timely(dbs: seq<Db>, d: Db, lane: Lane) {
    && (InPass(d.Of(lane).retrying) ==> exists e :: e in dbs && MarkedIn(e, d.Of(lane).retrying, d.now))
    && forall x :: x in d.Of(lane).redelivered ==> exists e :: e in dbs && DueIn(e, x)
  }

  lemma FrameIsTimely(dbs: seq<Db>, d: Db, d': Db, lane: Lane)
    requires Timely(dbs, d, lane) && d in dbs && RetryFrameOf(d, d', lane)
    ensures Timely(dbs, d', lane)
  {
    hide DeliveredQuery, Window, Parseable, MayStart, SavePuts, AllStorable, Db.With, LastSent;
    RetryFrameOnly(d, d', lane);
    RetryFrameIs(d, d', lane);
    if d'.Of(lane).retrying.Watermarked? { assert MarkedIn(d, d'.Of(lane).retrying, d'.now); }
  }

  /** Where such a step leaves the pass. */
  lemma RetryFrameIs(d: Db, d': Db, lane: Lane)
    requires RetryFrameOf(d, d', lane)
    ensures
      var r, r' := d.Of(lane).retrying, d'.Of(lane).retrying;
      || r'.Resting? || r'.Begun?
      || (TakeWatermark(d, d', lane) && r.Begun?
          && r' == Watermarked(d.now - 1_000_000_000 * d.settings.ackDeadlineSeconds,
                               1_000_000_000 * d.settings.ackDeadlineSeconds))
      || (AskRetryRange(d, d', lane) && r.Watermarked? && r'.RetryRanged?
          && r'.watermark == r.watermark && r'.deadline == r.deadline
          && r'.range == DeliveredQuery(lane, d.settings, d.now))
      || (OpenRetry(d, d', lane) && r.RetryRanged?
          && r' == Rereading(r.watermark, r.deadline, r.end, d.kv, Window(d.kv, r.range), []))
  {
    hide DeliveredQuery, Window, Parseable, MayStart, SavePuts, AllStorable;
  }

  /** Where a step of a scan leaves it. */
  lemma RetryScanIs(d: Db, d': Db, lane: Lane) returns (t: Task)
    requires RetryScanOf(d, d', lane)
    ensures NextRetry(d, lane, t)
    ensures
      var r, r' := d.Of(lane).retrying, d'.Of(lane).retrying;
      && r.Rereading? && r'.Rereading? && r' == r.(keys := r.keys[1..], taken := r'.taken)
      && var a, b := d.Of(lane).redelivered, d'.Of(lane).redelivered;
         if ShouldRetry(t, r.watermark)
         then |b| == |a| + 1 && b[..|a|] == a && b[|a|].task == t && b[|a|].deadline == r.deadline && d.now <= b[|a|].at
         else b == a
  {
    hide Decode, ShouldRetry, TimesApplied;
    if u :| PassBy(d, d', lane, u) {
      t := u;
    } else {
      var v, at :| PushAgain(d, d', lane, v, at);
      t := v;
    }
  }

  lemma ScanIsTimely(dbs: seq<Db>, d: Db, d': Db, lane: Lane)
    requires Timely(dbs, d, lane) && RetryScanOf(d, d', lane) && d.now <= d'.now
    ensures Timely(dbs, d', lane)
  {
    hide RetryScanOf, NextRetry;
    var t := RetryScanIs(d, d', lane);
    var r, a, b := d.Of(lane).retrying, d.Of(lane).redelivered, d'.Of(lane).redelivered;
    var e :| e in dbs && MarkedIn(e, r, d.now);
    assert MarkedIn(e, d'.Of(lane).retrying, d'.now);
    if ShouldRetry(t, r.watermark) {
      assert DueIn(e, b[|a|]);
      forall x | x in b && x != b[|a|] ensures x in a {
        var i :| 0 <= i < |b| && b[i] == x;
        assert b[..|a|][i] == x;
      }
    }
  }

  lemma StepIsTimely(dbs: seq<Db>, d: Db, d': Db, lane: Lane)
    requires Timely(dbs, d, lane) && d in dbs && DbStep(d, d')
    ensures Timely(dbs, d', lane)
  {
    hide DbStep, RetryFrameOf, RetryScanOf, DueIn;
    StepOfReader(d, d', lane);
    if Aside(d, d', lane) {
      if InPass(d.Of(lane).retrying) {
        var e :| e in dbs && MarkedIn(e, d.Of(lane).retrying, d.now);
        assert MarkedIn(e, d'.Of(lane).retrying, d'.now);
      }
    } else if RetryFrameOf(d, d', lane) {
      FrameIsTimely(dbs, d, d', lane);
    } else if RetryScanOf(d, d', lane) {
      ScanIsTimely(dbs, d, d', lane);
    }
  }

  lemma TimelyInMore(dbs: seq<Db>, more: seq<Db>, d: Db, lane: Lane)
    requires Timely(dbs, d, lane) && forall e :: e in dbs ==> e in more
    ensures Timely(more, d, lane)
  {
    hide MarkedIn, DueIn;
  }

  lemma {:induction false} RunIsTimely(dbs: seq<Db>, lane: Lane)
    requires DbRun(dbs)
    ensures Timely(dbs, LastDb(dbs), lane)
  {
    hide DbStep, NewQueue, Timely;
    if |dbs| == 1 {
      NewIsTimely(dbs, lane);
    } else {
      var before := dbs[..|dbs| - 1];
      RunIsTimely(before, lane);
      assert DbStep(dbs[|dbs| - 2], dbs[|dbs| - 2 + 1]);
      StepIsTimely(before, LastDb(before), LastDb(dbs), lane);
      TimelyInMore(before, dbs, LastDb(dbs), lane);
    }
  }

  lemma NewIsTimely(dbs: seq<Db>, lane: Lane)
    requires DbRun(dbs) && |dbs| == 1
    ensures Timely(dbs, LastDb(dbs), lane)
  {
    hide DbStep, WellFormed, Apart, Stored, Replicated, DefaultConfig;
  }

  /** A redelivery comes more than one ack deadline after the task was last redelivered, or else made: the
      deadline that the settings held in a state of the run between that time and the push. */
  lemma RedeliveriesAreDue(dbs: seq<Db>, lane: Lane, x: Redelivered)
    requires DbRun(dbs) && x in LastDb(dbs).Of(lane).redelivered
    ensures (if x.task.lastRetry.Some? then x.task.lastRetry.value else x.task.createdAt) + x.deadline < x.at
    ensures exists e :: && e in dbs && x.deadline == 1_000_000_000 * e.settings.ackDeadlineSeconds
                        && LastSent(x.task) + x.deadline < e.now <= x.at
  {
    hide DbStep, NewQueue;
    RunIsTimely(dbs, lane);
    var e :| e in dbs && DueIn(e, x);
  }

  // ---------- What one pass redelivers ----------

  /** The range of a redelivery pass holds the key of a stored task of the lane if and only if it is covered:
      up to the checkpoint in the FIFO lane, and with a time before one ack deadline ago in the scheduled
      lane. It holds no other keys. */
  lemma PassCoversExactly(dbs: seq<Db>, lane: Lane, d1: Db, d2: Db)
    requires DbRun(dbs) && AskRetryRange(LastDb(dbs), d1, lane) && OpenRetry(d1, d2, lane)
    ensures
      var d, r := LastDb(dbs), d2.Of(lane).retrying;
      && r.Rereading?
      && (forall k :: k in r.keys ==> k in d.kv && d.kv[k].TaskValue? && InLane(d.kv[k].task, d.queue, lane))
      && (forall t :: Stored(d.kv, t) && InLane(t, d.queue, lane) ==>
            (TaskKey(t) in r.keys <==>
             if lane.Fifo? then Rank(t) <= Mark(Fifo, d.settings)
             else t.scheduleTime.value < UnixBits(d.now - 1_000_000_000 * d.settings.ackDeadlineSeconds)))
  {
    hide Parse, DbOk, DbStep, NewQueue, Rank, TaskKey, Mark, UnixBits, Window, DeliveredQuery, Stored, Parseable;
    var d := LastDb(dbs);
    RunIsOk(dbs);
    SettingsAreOk(d);
    AskedAndOpened(d, d1, d2, lane);
    CoversIn(d, lane);
  }

  lemma AskedAndOpened(d: Db, d1: Db, d2: Db, lane: Lane)
    requires AskRetryRange(d, d1, lane) && OpenRetry(d1, d2, lane)
    ensures Parseable(d.settings) && d2.Of(lane).retrying.Rereading?
    ensures d2.Of(lane).retrying.keys == Window(d.kv, DeliveredQuery(lane, d.settings, d.now))
  {
    hide Window, DeliveredQuery, Parseable, AckDeadline;
  }

  lemma CoversIn(d: Db, lane: Lane)
    requires DbOk(d)
    ensures Parseable(d.settings)
    ensures
      var keys := Window(d.kv, DeliveredQuery(lane, d.settings, d.now));
      && (forall k :: k in keys ==> k in d.kv && d.kv[k].TaskValue? && InLane(d.kv[k].task, d.queue, lane))
      && forall t :: Stored(d.kv, t) && InLane(t, d.queue, lane) ==>
           (TaskKey(t) in keys <==> Covered(d.settings, lane, d.now, t))
  {
    hide Parse, LogOk, Configs, Replicated, ReadersOk, GoodKv, ConfigOk, Window, DeliveredQuery, Covered, TaskKey,
      Timed, InLane, Parseable, LaneRange;
    SettingsAreOk(d);
    QueriesAreLane(lane, d.settings, d.now);
    WindowIsLane(d.kv, DeliveredQuery(lane, d.settings, d.now), d.queue, lane);
    forall t | Stored(d.kv, t) && InLane(t, d.queue, lane)
      ensures TaskKey(t) in Window(d.kv, DeliveredQuery(lane, d.settings, d.now)) <==>
              Covered(d.settings, lane, d.now, t)
    {
      OfQueue(t, d.queue, lane);
      TimedInStore(d.kv, d.queue, t);
      WindowHolds(d.kv, d.settings, d.queue, lane, d.now, t);
    }
  }

  lemma OfQueue(t: Task, queue: Bytes, lane: Lane)
    requires InLane(t, queue, lane)
    ensures t.queue == queue && Storable(t)
  {
  }

  /** From state `a` the lane goes through one pass: the watermark is taken there, the range is asked for in
      state `c` and the iterator opened in state `b`; the last state is in its scan. */
  ghost predicate OnePass(dbs: seq<Db>, lane: Lane, a: nat, c: nat, b: nat) {
    && a < c < b < |dbs| - 1 && TakeWatermark(dbs[a], dbs[a + 1], lane)
    && AskRetryRange(dbs[c], dbs[c + 1], lane) && OpenRetry(dbs[b], dbs[b + 1], lane)
    && (forall k :: a < k <= c ==> dbs[k].Of(lane).retrying.Watermarked?)
    && (forall k :: c < k <= b ==> dbs[k].Of(lane).retrying.RetryRanged?)
    && (forall k :: b < k < |dbs| ==> dbs[k].Of(lane).retrying.Rereading?)
  }

  lemma SameStage(d: Db, d': Db, lane: Lane)
    requires DbStep(d, d')
    requires
      var r, r' := d.Of(lane).retrying, d'.Of(lane).retrying;
      (r.Watermarked? && r'.Watermarked?) || (r.RetryRanged? && r'.RetryRanged?)
    ensures d'.Of(lane).retrying == d.Of(lane).retrying
  {
    hide DbStep, RetryFrameOf, RetryScanOf, DeliveredQuery, Window;
    StepOfReader(d, d', lane);
    if RetryFrameOf(d, d', lane) {
      RetryFrameIs(d, d', lane);
    } else if RetryScanOf(d, d', lane) {
      var t := RetryScanIs(d, d', lane);
    }
  }

  lemma {:induction false} StaysMarked(dbs: seq<Db>, lane: Lane, from: nat, k: nat)
    requires DbRun(dbs) && from <= k < |dbs|
    requires || (forall i :: from <= i <= k ==> dbs[i].Of(lane).retrying.Watermarked?)
             || (forall i :: from <= i <= k ==> dbs[i].Of(lane).retrying.RetryRanged?)
    ensures dbs[k].Of(lane).retrying == dbs[from].Of(lane).retrying
    decreases k
  {
    hide DbStep, NewQueue;
    if from < k {
      StaysMarked(dbs, lane, from, k - 1);
      assert DbStep(dbs[k - 1], dbs[k - 1 + 1]);
      SameStage(dbs[k - 1], dbs[k], lane);
    }
  }

  function TasksOf(pushes: seq<Redelivered>): seq<Task> {
    seq(|pushes|, i requires 0 <= i < |pushes| => pushes[i].task)
  }

  /** A scan over these keys has come to position `m`, and has redelivered what it picked so far. */
  ghost predicate ScannedTo(d: Db, lane: Lane, start: Retrying, before: seq<Redelivered>, m: nat)
    requires start.Rereading? && forall k :: k in start.keys ==> k in start.view
  {
    var r, pushes := d.Of(lane).retrying, d.Of(lane).redelivered;
    && r.Rereading? && r == start.(keys := r.keys, taken := r.taken) && m <= |start.keys| && r.keys == start.keys[m..]
    && |before| <= |pushes| && pushes[..|before|] == before && m <= |Yield(start.view, start.keys)|
    && TasksOf(pushes[|before|..]) == Pick(Yield(start.view, start.keys)[..m], start.watermark)
  }

  lemma ScanMoves(d: Db, d': Db, lane: Lane, start: Retrying, before: seq<Redelivered>, m: nat)
    requires start.Rereading? && (forall k :: k in start.keys ==> k in start.view)
    requires forall k :: k in start.keys ==> Decode(start.view[k]).Ok?
    requires ScannedTo(d, lane, start, before, m) && RetryScanOf(d, d', lane)
    ensures ScannedTo(d', lane, start, before, m + 1)
  {
    hide RetryScanOf, Pick, Yield, ShouldRetry, Decode;
    var t := RetryScanIs(d, d', lane);
    var a, b := d.Of(lane).redelivered, d'.Of(lane).redelivered;
    YieldsAll(start.view, start.keys);
    assert start.keys[m..][0] == start.keys[m] && start.keys[m..][1..] == start.keys[m + 1..];
    assert start.keys[m] in start.keys;
    DecodedTask(start.view[start.keys[m]]);
    assert Yield(start.view, start.keys)[m] == t;
    PickNext(Yield(start.view, start.keys), m, start.watermark);
    if ShouldRetry(t, start.watermark) {
      assert b[|before|..] == a[|before|..] + [b[|a|]];
      assert b[..|before|] == b[..|a|][..|before|] == before;
    }
  }

  lemma ScanStep(d: Db, d': Db, lane: Lane, start: Retrying, before: seq<Redelivered>, m: nat) returns (m': nat)
    requires start.Rereading? && (forall k :: k in start.keys ==> k in start.view)
    requires forall k :: k in start.keys ==> Decode(start.view[k]).Ok?
    requires ScannedTo(d, lane, start, before, m) && DbStep(d, d') && d'.Of(lane).retrying.Rereading?
    ensures ScannedTo(d', lane, start, before, m')
  {
    hide DbStep, RetryFrameOf, RetryScanOf, Pick, Yield, Decode, Window;
    StepOfReader(d, d', lane);
    if RetryScanOf(d, d', lane) {
      ScanMoves(d, d', lane, start, before, m);
      m' := m + 1;
    } else {
      if RetryFrameOf(d, d', lane) { RetryFrameIs(d, d', lane); }
      m' := m;
    }
  }

  lemma {:induction false} ScanRuns(dbs: seq<Db>, lane: Lane, from: nat, k: nat) returns (m: nat)
    requires DbRun(dbs) && from <= k < |dbs| && forall i :: from <= i <= k ==> dbs[i].Of(lane).retrying.Rereading?
    requires
      var start := dbs[from].Of(lane).retrying;
      forall x :: x in start.keys ==> x in start.view && Decode(start.view[x]).Ok?
    ensures ScannedTo(dbs[k], lane, dbs[from].Of(lane).retrying, dbs[from].Of(lane).redelivered, m)
    decreases k
  {
    hide DbStep, NewQueue, ScannedTo, Decode;
    var start, before := dbs[from].Of(lane).retrying, dbs[from].Of(lane).redelivered;
    if from == k {
      m := 0;
      ScanStarts(dbs[from], lane);
    } else {
      m := ScanRuns(dbs, lane, from, k - 1);
      assert DbStep(dbs[k - 1], dbs[k - 1 + 1]);
      m := ScanStep(dbs[k - 1], dbs[k], lane, start, before, m);
    }
  }

  lemma ScanStarts(d: Db, lane: Lane)
    requires d.Of(lane).retrying.Rereading?
    requires forall k :: k in d.Of(lane).retrying.keys ==> k in d.Of(lane).retrying.view
    ensures ScannedTo(d, lane, d.Of(lane).retrying, d.Of(lane).redelivered, 0)
  {
    var r, pushes := d.Of(lane).retrying, d.Of(lane).redelivered;
    assert r.keys[0..] == r.keys && pushes[..|pushes|] == pushes && pushes[|pushes|..] == [];
    PickNone(Yield(r.view, r.keys)[..0], r.watermark);
  }

  /** A complete pass redelivers exactly the tasks that were stored when its iterator was opened, were
      covered when its range was asked for, and had last been sent more than one ack deadline before it
      took its watermark; each of them once, in order. */
  lemma PassRedeliversExactly(dbs: seq<Db>, lane: Lane, a: nat, c: nat, b: nat)
    requires DbRun(dbs) && OnePass(dbs, lane, a, c, b) && LastDb(dbs).Of(lane).retrying.keys == []
    ensures |dbs[b].Of(lane).redelivered| <= |LastDb(dbs).Of(lane).redelivered|
    ensures
      var tasks := TasksOf(LastDb(dbs).Of(lane).redelivered[|dbs[b].Of(lane).redelivered|..]);
      && AllStorable(tasks) && AscendingRanks(tasks)
      && forall t :: t in tasks <==>
           && Stored(dbs[b].kv, t) && Covered(dbs[c].settings, lane, dbs[c].now, t)
           && LastSent(t) + 1_000_000_000 * dbs[a].settings.ackDeadlineSeconds < dbs[a].now
  {
    hide Parse, DbOk, DbStep, NewQueue, Rank, Covered, Stored, LastSent, Pick, Yield, Window, DeliveredQuery,
      Parseable, AckDeadline;
    PassStages(dbs, lane, a, c, b);
    var start, cfg := dbs[b + 1].Of(lane).retrying, dbs[c].settings;
    var keys, watermark := start.keys, start.watermark;
    StateOk(dbs, b);
    StateOk(dbs, c);
    OneQueue(dbs, b, c);
    ScanFinds(dbs[b], dbs[c], lane);
    var m := ScanRuns(dbs, lane, b + 1, |dbs| - 1);
    var all := Yield(dbs[b].kv, keys);
    assert m == |keys| && all[..m] == all;
    PickIs(all, watermark);
    PickAscends(all, watermark);
  }

  /** The stages of a pass, up to the opening of its iterator. */
  lemma PassStages(dbs: seq<Db>, lane: Lane, a: nat, c: nat, b: nat)
    requires DbRun(dbs) && OnePass(dbs, lane, a, c, b)
    ensures Parseable(dbs[c].settings) && dbs[b + 1].Of(lane).redelivered == dbs[b].Of(lane).redelivered
    ensures
      var deadline := 1_000_000_000 * dbs[a].settings.ackDeadlineSeconds;
      var start := dbs[b + 1].Of(lane).retrying;
      && start.Rereading? && start.watermark == dbs[a].now - deadline && start.view == dbs[b].kv
      && start.keys == Window(dbs[b].kv, DeliveredQuery(lane, dbs[c].settings, dbs[c].now))
  {
    hide DbStep, NewQueue, Window, DeliveredQuery, Parseable, Db.With;
    StaysMarked(dbs, lane, a + 1, c);
    StaysMarked(dbs, lane, c + 1, b);
    StageOf(dbs[a], dbs[a + 1], lane);
    StageOf(dbs[c], dbs[c + 1], lane);
    StageOf(dbs[b], dbs[b + 1], lane);
  }

  lemma StageOf(d: Db, d': Db, lane: Lane)
    requires TakeWatermark(d, d', lane) || AskRetryRange(d, d', lane) || OpenRetry(d, d', lane)
    ensures
      var r, r' := d.Of(lane).retrying, d'.Of(lane).retrying;
      && (r'.Watermarked? ==> r'.watermark == d.now - 1_000_000_000 * d.settings.ackDeadlineSeconds)
      && (r'.RetryRanged? && r.Watermarked? ==>
            && r'.watermark == r.watermark && Parseable(d.settings)
            && r'.range == DeliveredQuery(lane, d.settings, d.now))
      && (r'.Rereading? && r.RetryRanged? ==>
            r' == Rereading(r.watermark, r.deadline, r.end, d.kv, Window(d.kv, r.range), []))
    ensures d'.Of(lane).redelivered == d.Of(lane).redelivered
  {
    hide DeliveredQuery, Window, Parseable;
  }

  lemma StateOk(dbs: seq<Db>, i: nat)
    requires DbRun(dbs) && i < |dbs|
    ensures DbOk(dbs[i])
  {
    hide DbStep, DbOk, NewQueue;
    RunIsOk(dbs[..i + 1]);
  }

  lemma {:induction false} OneQueue(dbs: seq<Db>, i: nat, j: nat)
    requires DbRun(dbs) && j <= i < |dbs|
    ensures dbs[i].queue == dbs[j].queue
  {
    hide DbStep, NewQueue;
    if j < i {
      OneQueue(dbs, i - 1, j);
      assert DbStep(dbs[i - 1], dbs[i - 1 + 1]);
      SameQueue(dbs[i - 1], dbs[i]);
    }
  }

  /** An iterator over the store of `d` for the range asked for in `asked` finds what is covered. */
  lemma ScanFinds(d: Db, asked: Db, lane: Lane)
    requires DbOk(d) && DbOk(asked) && d.queue == asked.queue
    ensures Parseable(asked.settings)
    ensures
      var keys := Window(d.kv, DeliveredQuery(lane, asked.settings, asked.now));
      && (forall k :: k in keys ==> k in d.kv && Decode(d.kv[k]).Ok?) && |Yield(d.kv, keys)| == |keys|
      && var all := Yield(d.kv, keys);
         && AllStorable(all) && AscendingRanks(all)
         && forall t :: t in all <==> Stored(d.kv, t) && Covered(asked.settings, lane, asked.now, t)
  {
    hide Parse, LogOk, Configs, Replicated, ReadersOk, GoodKv, ConfigOk, Covered, Yield, Window, DeliveredQuery,
      Parseable, Stored, Rank, LaneRange, Timed, InLane, Decode;
    SettingsAreOk(asked);
    var q := DeliveredQuery(lane, asked.settings, asked.now);
    YieldsCovered(d.kv, asked.settings, d.queue, lane, asked.now);
    QueriesAreLane(lane, asked.settings, asked.now);
    WindowIsLane(d.kv, q, d.queue, lane);
    YieldsLane(d.kv, Window(d.kv, q), d.queue, lane);
  }
}
