/** Exactly when a redelivery stays apart from the next one of the same task. */
module Spacing {
  import opened ByteStrings
  import opened Ids
  import opened Keys
  import opened TaskStores
  import opened Iteration
  import opened StateMachines
  import opened Lanes
  import opened Readers
  import opened Syncing
  import opened Database
  import opened DatabaseInvariant
  import opened Simulation
  import opened Refinement
  import opened DatabaseTheorems
  import opened DatabaseSkips
  import opened DueTasks
  import opened Feeds

  predicate SameKey(x: Redelivered, y: Redelivered) {
    Storable(x.task) && Storable(y.task) && TaskKey(x.task) == TaskKey(y.task)
  }

  /** A run that goes on from another with the same feed, which keeps what it has redelivered. */
  ghost predicate SameFeed(more: seq<Db>, dbs: seq<Db>, lane: Lane) {
    && DbRun(more) && 0 < |dbs| <= |more| && more[..|dbs|] == dbs
    && forall k :: |dbs| - 1 <= k < |more| ==> LastDb(dbs).Of(lane).redelivered <= more[k].Of(lane).redelivered
  }

  /** Whatever the feed still does, it redelivers the task of `x` only when the ack deadline is over. */
  ghost predicate StaysSpaced(dbs: seq<Db>, lane: Lane, x: Redelivered)
    requires dbs != []
  {
    var count := |LastDb(dbs).Of(lane).redelivered|;
    forall more, y ::
      SameFeed(more, dbs, lane) && y in LastDb(more).Of(lane).redelivered[count..] && SameKey(x, y) ==>
        y.at - x.at > y.deadline
  }

  /** A pass that begins `now` comes to the task, and finds it old enough if it is as it was made. */
  predicate DueAsMade(d: Db, lane: Lane, t: Task, now: int) {
    && d.now <= now && MayBegin(d.Of(lane), now) && Covered(d.settings, lane, now, t)
    && forall u :: u in Saves(d.log) && Storable(u) && TaskKey(u) == TaskKey(t) ==>
         u.createdAt + 1_000_000_000 * d.settings.ackDeadlineSeconds < now
  }

  // ---------- Spaced, if the task is not applied again ----------

  /** The same feed, with the same log left to be applied again. */
  predicate Kept(d: Db, d': Db, lane: Lane) {
    && d'.replaying == d.replaying && d'.applied == d.applied
    && var a, b := d.Of(lane).redelivered, d'.Of(lane).redelivered;
       b == a || (|b| == |a| + 1 && b[..|a|] == a && b[|a|].era == TimesApplied(d.applied, b[|a|].task))
  }

  lemma StoreKeeps(d: Db, d': Db, lane: Lane)
    requires StoreStep(d, d') || SettingsStep(d, d')
    ensures Kept(d, d', lane)
  {
    hide TimesApplied, Replicated, WellFormed, Apart, Stored, ConfigKey, SavePuts, AckKeys, FreshTask, NameApart,
      SaveCommands, AckCommands, Db.With;
  }

  lemma ReadersKeep(d: Db, d': Db, lane: Lane, of: Lane)
    requires LaneStep(d, d', of)
    ensures Kept(d, d', lane)
  {
    hide LaneStep, TimesApplied;
    LaneStepOnly(d, d', of);
  }

  lemma FreshFeed(d: Db, d': Db, lane: Lane)
    requires OpenFeed(d, d') || exists from :: Restart(d, d', from)
    ensures d'.Of(lane).redelivered == []
  {
    hide Found;
  }

  lemma StepKeeps(d: Db, d': Db, lane: Lane)
    requires DbStep(d, d') && d'.Of(lane).redelivered != []
    ensures Kept(d, d', lane) || exists n :: ReplayBatch(d, d', n)
  {
    hide Kept, StoreStep, SettingsStep, LaneStep, OpenFeed, Restart, ReplayBatch;
    if StoreStep(d, d') || SettingsStep(d, d') {
      StoreKeeps(d, d', lane);
    } else if LaneStep(d, d', Fifo) {
      ReadersKeep(d, d', lane, Fifo);
    } else if LaneStep(d, d', Scheduled) {
      ReadersKeep(d, d', lane, Scheduled);
    } else if OpenFeed(d, d') || exists from :: Restart(d, d', from) {
      FreshFeed(d, d', lane);
      assert false;
    }
  }

  /** The task of `x` was not applied again since, and will not be. */
  predicate Settled(d: Db, x: Redelivered) {
    && Storable(x.task) && x.era == TimesApplied(d.applied, x.task)
    && TaskKey(x.task) !in KeysOf(Saves(d.replaying))
  }

  lemma ReplayKeepsSettled(d: Db, d': Db, n: nat, x: Redelivered)
    requires ReplayBatch(d, d', n) && Settled(d, x)
    ensures Settled(d', x)
  {
    hide Parse, TaskKey, Saves, Acks, Replayed, Readable;
    assert d.replaying == d.replaying[..n] + d.replaying[n..];
    SavesConcat(d.replaying[..n], d.replaying[n..]);
  }

  lemma ReplayKeepsReaders(d: Db, d': Db, n: nat, lane: Lane)
    requires ReplayBatch(d, d', n)
    ensures d'.Of(lane) == d.Of(lane)
  {
    hide Saves, Acks, Replayed, Readable, AppliedAgain, KeysOf;
  }

  /** Later redeliveries of a settled task belong to the same application of it. */
  lemma {:induction false} StaysSettled(more: seq<Db>, dbs: seq<Db>, lane: Lane, x: Redelivered, k: nat)
    requires SameFeed(more, dbs, lane) && |dbs| - 1 <= k < |more| && LastDb(dbs).Of(lane).redelivered != []
    requires Settled(LastDb(dbs), x)
    ensures Settled(more[k], x)
    ensures forall y :: y in more[k].Of(lane).redelivered[|LastDb(dbs).Of(lane).redelivered|..] && SameKey(x, y) ==>
              y.era == x.era
    decreases k
  {
    hide Parse, TaskKey, DbStep, NewQueue, Saves, KeysOf, TimesApplied, ReplayBatch;
    var base := |LastDb(dbs).Of(lane).redelivered|;
    if k == |dbs| - 1 {
      assert more[k] == more[..|dbs|][k] == LastDb(dbs);
    } else {
      StaysSettled(more, dbs, lane, x, k - 1);
      var d, d' := more[k - 1], more[k];
      assert DbStep(more[k - 1], more[k - 1 + 1]);
      StepKeeps(d, d', lane);
      if Kept(d, d', lane) {
        SameTimes(d, d', lane, x, base);
      } else {
        var n :| ReplayBatch(d, d', n);
        ReplayKeepsSettled(d, d', n, x);
        ReplayKeepsReaders(d, d', n, lane);
      }
    }
  }

  lemma SameTimes(d: Db, d': Db, lane: Lane, x: Redelivered, base: nat)
    requires Kept(d, d', lane) && Settled(d, x) && base <= |d.Of(lane).redelivered|
    requires forall y :: y in d.Of(lane).redelivered[base..] && SameKey(x, y) ==> y.era == x.era
    ensures Settled(d', x) && base <= |d'.Of(lane).redelivered|
    ensures forall y :: y in d'.Of(lane).redelivered[base..] && SameKey(x, y) ==> y.era == x.era
  {
    hide Parse, TaskKey, Saves, KeysOf;
    var a, b := d.Of(lane).redelivered, d'.Of(lane).redelivered;
    if b != a {
      assert b[base..] == a[base..] + [b[|a|]];
    }
  }

  lemma SettledIsSpaced(dbs: seq<Db>, lane: Lane, x: Redelivered)
    requires DbRun(dbs) && x in LastDb(dbs).Of(lane).redelivered && Settled(LastDb(dbs), x)
    ensures StaysSpaced(dbs, lane, x)
  {
    hide Parse, TaskKey, DbStep, NewQueue, Settled;
    var before := LastDb(dbs).Of(lane).redelivered;
    forall more, y | SameFeed(more, dbs, lane) && y in LastDb(more).Of(lane).redelivered[|before|..] && SameKey(x, y)
      ensures y.at - x.at > y.deadline
    {
      StaysSettled(more, dbs, lane, x, |more| - 1);
      RetriesAreSpacedInDatabase(more, lane);
      var pushes := LastDb(more).Of(lane).redelivered;
      var i :| 0 <= i < |before| && before[i] == x;
      var j :| |before| <= j < |pushes| && pushes[j] == y;
      assert pushes[i] == x;
    }
  }

  // ---------- Too early, if it is ----------

  /** After the whole replay the key of a task that it saves holds a task of the log. */
  lemma ReplayedKey(d: Db, key: Bytes) returns (u: Task)
    requires DbOk(d) && key in KeysOf(Saves(d.replaying))
    ensures Readable(d.replaying)
    ensures key in Replayed(d.kv, d.replaying) && Replayed(d.kv, d.replaying)[key] == TaskValue(u)
    ensures u in Saves(d.log) && Storable(u) && TaskKey(u) == key && LoggedOk(d.queue, u)
  {
    hide Parse, TaskKey, Saves, Acks, Configs, AckKeys, GoodKv, SettingsOk, ReadersOk, LoggedOk, SaveConfigs, TaskPuts,
      Readable;
    var part := d.replaying;
    assert part[..|part|] == part;
    ReplayedPart(d, |part|);
    SavesAreStorable(part);
    TaskPutsAt(Saves(part), key);
    var i: nat :| LastWith(Saves(part), key, i);
    u := Saves(part)[i];
    assert u in Saves(part);
  }

  lemma ScanTakes(view: KV, keys: seq<Bytes>, queue: Bytes, lane: Lane, k: Bytes, u: Task, watermark: int)
    requires LaneKeys(view, keys, queue, lane) && k in keys && k in view && view[k] == TaskValue(u)
    requires u.queue == queue ==> LastSent(u) < watermark
    ensures (forall x :: x in keys ==> x in view) && |Yield(view, keys)| == |keys|
    ensures u in Pick(Yield(view, keys), watermark)
  {
    hide Parse, LaneKeys, Yield, Pick, LastSent, Decode, Timed;
    YieldsLane(view, keys, queue, lane);
    YieldsInLane(view, keys, queue, lane);
    var i :| 0 <= i < |keys| && keys[i] == k;
    DecodedTask(view[k]);
    assert Yield(view, keys)[i] in Yield(view, keys);
    PickIs(Yield(view, keys), watermark);
  }

  lemma PassReaches(d: Db, lane: Lane, t: Task)
    requires DbOk(d) && Covered(d.settings, lane, d.now, t) && Timed(t) && TaskKey(t) in d.kv
    ensures Storable(t) && Parseable(d.settings)
    ensures TaskKey(t) in Window(d.kv, DeliveredQuery(lane, d.settings, d.now))
  {
    hide Parse, TaskKey, StoreOk, LogOk, Configs, Replicated, ReadersOk, ConfigOk, Window, DeliveredQuery, Timed, Mark,
      UnixBits, Rank, Parseable;
    SettingsAreOk(d);
    WindowHolds(d.kv, d.settings, d.queue, lane, d.now, t);
  }

  /** A pass over a store that holds the task as it was made redelivers it. */
  lemma PassTakes(d: Db, lane: Lane, t: Task, u: Task) returns (path: seq<Db>, y: Redelivered)
    requires DbOk(d) && d.Of(lane).retrying.Begun? && Covered(d.settings, lane, d.now, t) && Timed(t)
    requires TaskKey(t) in d.kv && d.kv[TaskKey(t)] == TaskValue(u) && Storable(u) && TaskKey(u) == TaskKey(t)
    requires u.queue == d.queue ==> LastSent(u) + 1_000_000_000 * d.settings.ackDeadlineSeconds < d.now
    ensures DbPath(path) && path[0] == d
    ensures forall x :: x in path ==> d.Of(lane).redelivered <= x.Of(lane).redelivered
    ensures LastDb(path) in path && y in LastDb(path).Of(lane).redelivered[|d.Of(lane).redelivered|..]
    ensures y.task == u && y.at == d.now && y.deadline == 1_000_000_000 * d.settings.ackDeadlineSeconds
    ensures
      var end := LastDb(path);
      && end.Of(lane).retrying.Rereading? && end.Of(lane).retrying.taken != []
      && end.Of(lane).lastRun == d.Of(lane).lastRun && end.(pushed := d.pushed).With(lane, d.Of(lane)) == d
  {
    hide Parse, TaskKey, DbOk, LaneKeys, Window, DeliveredQuery, DbStep, Parseable, Yield, Pick, Covered, LastSent,
      Decode, Scanned, Timed;
    SettingsAreOk(d);
    var q := DeliveredQuery(lane, d.settings, d.now);
    var keys, mark := Window(d.kv, q), d.now - AckDeadline(d.settings);
    PassReaches(d, lane, t);
    var a := OpenPath(d, lane, d.now);
    var d1 := LastDb(a);
    ScanTakes(d.kv, keys, d.queue, lane, TaskKey(t), u, mark);
    var tasks := Yield(d.kv, keys);
    var clock := (_: nat) => d.now;
    var b := VisitPath(d1, lane, d1.Of(lane).retrying, |keys|, clock);
    assert tasks[..|keys|] == tasks;
    JoinPaths(a, b);
    path := a + b[1..];
    y := Taken(d1, lane, Pick(tasks, mark), clock, u);
    TakenFrame(d, d1, lane, Pick(tasks, mark), clock);
  }

  lemma Taken(d: Db, lane: Lane, picks: seq<Task>, clock: nat -> int, u: Task) returns (y: Redelivered)
    requires d.Of(lane).retrying.Rereading? && u in picks && forall i: nat :: clock(i) == d.now
    ensures
      var r := d.Of(lane).retrying;
      var all := Scanned(d, lane, r, r.keys[|r.keys|..], picks, clock).Of(lane).redelivered;
      d.Of(lane).redelivered <= all && y in all[|d.Of(lane).redelivered|..] && y.deadline == r.deadline
    ensures y.task == u && y.at == d.now
  {
    hide TimesApplied;
    var r := d.Of(lane).retrying;
    var more := RedeliveredAt(d.applied, picks, r.deadline, clock);
    var i :| 0 <= i < |picks| && picks[i] == u;
    y := more[i];
    var all := d.Of(lane).redelivered + more;
    assert all[|d.Of(lane).redelivered|..] == more;
  }

  lemma TakenFrame(d: Db, d1: Db, lane: Lane, picks: seq<Task>, clock: nat -> int)
    requires d1.Of(lane).retrying.Rereading? && picks != [] && forall i: nat :: clock(i) == d.now
    requires d1 == d.(now := d.now).With(lane, d.Of(lane).(retrying := d1.Of(lane).retrying))
    ensures
      var r := d1.Of(lane).retrying;
      var end := Scanned(d1, lane, r, r.keys[|r.keys|..], picks, clock);
      && end.Of(lane).retrying.Rereading? && end.Of(lane).retrying.taken != []
      && end.Of(lane).lastRun == d.Of(lane).lastRun && end.(pushed := d.pushed).With(lane, d.Of(lane)) == d
  {
    hide RedeliveredAt;
  }

  /** The log is applied to its end, and a pass begins. */
  lemma ReplayAndBegin(d: Db, lane: Lane, now: int) returns (path: seq<Db>)
    requires DbOk(d) && d.now <= now && MayBegin(d.Of(lane), now)
    ensures DbPath(path) && path[0] == d && Readable(d.replaying)
    ensures forall x :: x in path ==> d.Of(lane).redelivered == x.Of(lane).redelivered
    ensures
      var end := LastDb(path);
      && end.kv == Replayed(d.kv, d.replaying) && end.now == now && end.settings == d.settings && end.queue == d.queue
      && end.Of(lane).retrying.Begun? && end in path
  {
    hide Parse, DbStep, Saves, Acks, Configs, AckKeys, GoodKv, SettingsOk, ReadersOk, LoggedOk, Replayed, Readable,
      AppliedAgain, KeysOf;
    var part := d.replaying;
    assert part[..|part|] == part;
    ReplayedPart(d, |part|);
    var d1 := d.(kv := Replayed(d.kv, part), buffer := d.buffer + Acks(part), replaying := part[|part|..],
                 applied := AppliedAgain(d.applied, KeysOf(Saves(part))));
    assert ReplayBatch(d, d1, |part|);
    ReplayIsStep(d, d1, |part|);
    var d2 := d1.(now := now);
    assert ClockTick(d1, d2);
    StoreIsStep(d1, d2);
    var d3 := d2.With(lane, d2.Of(lane).(lastRun := Some(now), active := true, retrying := Begun));
    assert BeginRetry(d2, d3, lane);
    LaneIsStep(d2, d3, lane);
    ExtendPath([d], d1);
    ExtendPath([d] + [d1], d2);
    ExtendPath([d] + [d1] + [d2], d3);
    path := [d] + [d1] + [d2] + [d3];
  }

  /** A path on which the feed keeps what it has redelivered continues the run. */
  lemma GoOn(dbs: seq<Db>, path: seq<Db>, lane: Lane)
    requires DbRun(dbs) && DbPath(path) && path[0] == LastDb(dbs)
    requires forall x :: x in path ==> path[0].Of(lane).redelivered <= x.Of(lane).redelivered
    ensures SameFeed(dbs + path[1..], dbs, lane) && LastDb(dbs + path[1..]) == LastDb(path)
  {
    hide DbStep, NewQueue;
    JoinPaths(dbs, path);
    var more := dbs + path[1..];
    forall k | |dbs| - 1 <= k < |more| ensures LastDb(dbs).Of(lane).redelivered <= more[k].Of(lane).redelivered {
      assert more[k] == path[k - |dbs| + 1];
    }
  }

  lemma HistoryIsLane(d: Db, lane: Lane, x: Redelivered)
    requires DbOk(d) && x in d.Of(lane).redelivered
    ensures InLane(x.task, d.queue, lane) && Timed(x.task)
  {
    hide DbOk, InLane, Timed, CursorOk, RetryingOk;
    OfOk(d, lane);
  }

  lemma AsMade(d: Db, u: Task)
    requires LoggedOk(d.queue, u)
    ensures u.queue == d.queue ==> LastSent(u) == u.createdAt
  {
    hide NameApart, Sane, Timed;
  }

  /** Applied again, a task is redelivered again by the next pass, however short the time since `x`. */
  lemma AppliedAgainIsTooEarly(dbs: seq<Db>, lane: Lane, x: Redelivered, now: int)
    returns (more: seq<Db>, y: Redelivered)
    requires DbRun(dbs) && x in LastDb(dbs).Of(lane).redelivered && DueAsMade(LastDb(dbs), lane, x.task, now)
    requires TaskKey(x.task) in KeysOf(Saves(LastDb(dbs).replaying))
    ensures SameFeed(more, dbs, lane) && SameKey(x, y) && y.at == now
    ensures y.deadline == 1_000_000_000 * LastDb(dbs).settings.ackDeadlineSeconds
    ensures y in LastDb(more).Of(lane).redelivered[|LastDb(dbs).Of(lane).redelivered|..]
  {
    hide Parse, TaskKey, DbStep, NewQueue, DbOk, Saves, KeysOf, Rank, Mark, UnixBits, DbPath, MayBegin, LoggedOk,
      Timed, LastSent;
    var d := LastDb(dbs);
    RunIsOk(dbs);
    var u := ReplayedKey(d, TaskKey(x.task));
    var start := ReplayAndBegin(d, lane, now);
    PathOk(start);
    var d' := LastDb(start);
    HistoryIsLane(d, lane, x);
    AsMade(d, u);
    var pass;
    pass, y := PassTakes(d', lane, x.task, u);
    JoinPaths(start, pass);
    var path := start + pass[1..];
    GoOn(dbs, path, lane);
    more := dbs + path[1..];
  }

  /** Either lane, any run: when a pass may begin before the ack deadline is over since the redelivery `x`,
      and would find its task old enough by its creation, the feed keeps to the deadline if and only if
      no save of that task is left to be applied again. */
  lemma SpacingExactly(dbs: seq<Db>, lane: Lane, x: Redelivered, now: int)
    requires DbRun(dbs) && x in LastDb(dbs).Of(lane).redelivered && DueAsMade(LastDb(dbs), lane, x.task, now)
    requires x.era == TimesApplied(LastDb(dbs).applied, x.task)
    requires now - x.at <= 1_000_000_000 * LastDb(dbs).settings.ackDeadlineSeconds
    ensures StaysSpaced(dbs, lane, x) <==> TaskKey(x.task) !in KeysOf(Saves(LastDb(dbs).replaying))
  {
    hide Parse, TaskKey, DbStep, NewQueue, Saves, KeysOf, TimesApplied, SameFeed, MayBegin, Rank, Mark, UnixBits;
    if TaskKey(x.task) in KeysOf(Saves(LastDb(dbs).replaying)) {
      var more, y := AppliedAgainIsTooEarly(dbs, lane, x, now);
    } else {
      SettledIsSpaced(dbs, lane, x);
    }
  }

  /** A feed is opened right after a restart, and its first pass begins. */
  lemma RestartAndBegin(d: Db, from: nat, lane: Lane, now: int) returns (path: seq<Db>)
    requires from <= |d.log| && d.now <= now
    ensures DbPath(path) && path[0] == d
    ensures
      var end := LastDb(path);
      && end.kv == d.kv && end.log == d.log && end.replaying == d.log[from..] && end.now == now && end.queue == d.queue
      && end.settings == Found(d.kv, d.queue)
      && end.Of(lane) == FRESH_READERS.(lastRun := Some(now), active := true, retrying := Begun)
  {
    hide DbStep, Found;
    var d1 := d.(buffer := [], replaying := d.log[from..], lastSaved := None, fifo := FRESH_READERS,
                 scheduled := FRESH_READERS, settings := Found(d.kv, d.queue));
    assert Restart(d, d1, from);
    RestartIsStep(d, d1, from);
    var d2 := d1.(now := now);
    assert ClockTick(d1, d2);
    StoreIsStep(d1, d2);
    var d3 := d2.With(lane, d2.Of(lane).(lastRun := Some(now), active := true, retrying := Begun));
    assert BeginRetry(d2, d3, lane);
    LaneIsStep(d2, d3, lane);
    ExtendPath([d], d1);
    ExtendPath([d] + [d1], d2);
    ExtendPath([d] + [d1] + [d2], d3);
    path := [d] + [d1] + [d2] + [d3];
  }

  /** A pass that has taken tasks ends. */
  lemma PassEnds(d: Db, lane: Lane) returns (d': Db)
    requires DbOk(d) && d.Of(lane).retrying.Rereading? && d.Of(lane).retrying.taken != []
    ensures DbStep(d, d')
    ensures AllStorable(d.Of(lane).retrying.taken)
    ensures d' == d.(kv := d'.kv).With(lane, d.Of(lane).(active := false, retrying := Resting))
  {
    hide DbStep, DbOk, LaneKeys, CursorOk, HistoryInLane, SavePuts, Timed;
    OfOk(d, lane);
    d' := WriteBack(d, lane, true);
  }

  /** A pass of a feed opened after a restart comes to the stored task and finds it old enough, and so
      does a pass half a minute later if the task is as it was made. */
  predicate DueAfterRestart(d: Db, lane: Lane, t: Task, now: int) {
    && d.now <= now && Stored(d.kv, t) && TaskKey(t) in KeysOf(Saves(d.log))
    && var cfg := Found(d.kv, d.queue);
       && Covered(cfg, lane, now, t) && Covered(cfg, lane, now + 30_000_000_001, t)
       && LastSent(t) + 1_000_000_000 * cfg.ackDeadlineSeconds < now
       && forall u :: u in Saves(d.log) && Storable(u) && TaskKey(u) == TaskKey(t) ==>
            u.createdAt + 1_000_000_000 * cfg.ackDeadlineSeconds < now
  }

  /** The first of two redeliveries: the feed is opened before the log is applied. */
  lemma FirstRedelivery(d: Db, lane: Lane, t: Task, now: int) returns (path: seq<Db>, x: Redelivered)
    requires DbOk(d) && DueAfterRestart(d, lane, t, now)
    ensures DbPath(path) && path[0] == d && x in LastDb(path).Of(lane).redelivered && x.at == now && x.task == t
    ensures
      var end := LastDb(path);
      && end.log == d.log && end.settings == Found(d.kv, d.queue) && end.now == now
      && end.Of(lane).lastRun == Some(now) && !end.Of(lane).active && TaskKey(t) in KeysOf(Saves(end.replaying))
  {
    hide Parse, TaskKey, DbStep, DbOk, Saves, Found, Covered, LastSent, FRESH_READERS, Timed;
    var u :| u in Saves(d.log) && Storable(u) && TaskKey(u) == TaskKey(t);
    SavesAt(d.log, u);
    var i :| 0 <= i < |d.log| && d.log[i] == SaveTask(u);
    var a := RestartAndBegin(d, i, lane, now);
    PathOk(a);
    FoundTask(d, lane, t, now);
    var b;
    b, x := PassTakes(LastDb(a), lane, t, t);
    PathOk(b);
    LeftToApply(d.log, i, u);
    var d' := PassEnds(LastDb(b), lane);
    JoinPaths(a, b);
    ExtendPath(a + b[1..], d');
    path := a + b[1..] + [d'];
  }

  lemma FoundTask(d: Db, lane: Lane, t: Task, now: int)
    requires DbOk(d) && Stored(d.kv, t) && Covered(Found(d.kv, d.queue), lane, now, t)
    ensures Timed(t)
  {
    hide Parse, LogOk, SettingsOk, ReadersOk, GoodKv, Found, Timed, TaskKey, Rank, Mark, UnixBits, DbOk;
    FoundOk(d);
    StoreIsOk(d);
    TimedInStore(d.kv, d.queue, t);
  }

  lemma StoreIsOk(d: Db)
    requires DbOk(d)
    ensures GoodKv(d.kv, d.queue)
  {
    hide GoodKv, LogOk, SettingsOk, ReadersOk;
  }

  /** Any stored task that is due after a restart can be redelivered twice within the ack deadline, since
      a feed may be opened while the log is applied again: once as the store has it, and once as it was
      made, as soon as the half minute between passes is over. */
  lemma RestartRedeliversTwice(dbs: seq<Db>, lane: Lane, t: Task, now: int)
    returns (more: seq<Db>, x: Redelivered, y: Redelivered)
    requires DbRun(dbs) && DueAfterRestart(LastDb(dbs), lane, t, now)
    ensures DbRun(more) && |dbs| <= |more| && more[..|dbs|] == dbs
    ensures x.task == t && SameKey(x, y) && y.at - x.at == 30_000_000_001
    ensures y.deadline == 1_000_000_000 * Found(LastDb(dbs).kv, LastDb(dbs).queue).ackDeadlineSeconds
    ensures
      var pushes := LastDb(more).Of(lane).redelivered;
      exists i, j :: 0 <= i < j < |pushes| && pushes[i] == x && pushes[j] == y
  {
    hide Parse, TaskKey, DbStep, NewQueue, DbOk, Saves, Found, Covered, LastSent, KeysOf;
    var d := LastDb(dbs);
    RunIsOk(dbs);
    var path;
    path, x := FirstRedelivery(d, lane, t, now);
    JoinPaths(dbs, path);
    var run := dbs + path[1..];
    more, y := AppliedAgainIsTooEarly(run, lane, x, now + 30_000_000_001);
    assert more[..|dbs|] == more[..|run|][..|dbs|] == dbs;
    assert more[|more| - 1] == LastDb(more);
    InOrder(LastDb(run).Of(lane).redelivered, LastDb(more).Of(lane).redelivered, x, y);
  }

  lemma InOrder(before: seq<Redelivered>, pushes: seq<Redelivered>, x: Redelivered, y: Redelivered)
    requires before <= pushes && x in before && y in pushes[|before|..]
    ensures exists i, j :: 0 <= i < j < |pushes| && pushes[i] == x && pushes[j] == y
  {
    var m :| 0 <= m < |before| && before[m] == x;
    var n :| |before| <= n < |pushes| && pushes[n] == y;
    assert pushes[m] == x;
  }

  lemma LeftToApply(log: seq<Command>, i: nat, t: Task)
    requires i < |log| && log[i] == SaveTask(t) && Storable(t)
    ensures TaskKey(t) in KeysOf(Saves(log[i..]))
  {
    hide Parse, TaskKey, Saves;
    SavesAt(log[i..], t);
    assert log[i..][0] == SaveTask(t);
  }
}
