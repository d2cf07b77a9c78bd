/** The reader and settings objects of a feed drive the database: each call is a path of its steps
    (feeds/feed.go, feeds/q/q.go). */
module Feeds {
  import opened ByteStrings
  import opened Ids
  import opened Keys
  import opened TaskStores
  import opened TaskCreation
  import opened Iteration
  import opened StateMachines
  import opened Lanes
  import LaneProofs
  import LaneTheorems
  import opened Readers
  import opened Syncing
  import opened Database
  import opened DatabaseInvariant
  import opened Simulation
  import opened Refinement
  import opened DatabaseTheorems
  import opened DueTasks

  // ---------- Paths ----------

  ghost predicate DbPath(path: seq<Db>) {
    path != [] && forall i :: 0 <= i < |path| - 1 ==> DbStep(path[i], path[i + 1])
  }

  lemma ExtendPath(path: seq<Db>, d: Db)
    requires DbPath(path) && DbStep(LastDb(path), d)
    ensures DbPath(path + [d]) && LastDb(path + [d]) == d
  {
    hide DbStep;
    var more := path + [d];
    forall i | 0 <= i < |more| - 1 ensures DbStep(more[i], more[i + 1]) {
      if i < |path| - 1 { assert DbStep(path[i], path[i + 1]); }
    }
  }

  lemma {:induction false} JoinPaths(a: seq<Db>, b: seq<Db>)
    requires a != [] && b != [] && DbPath(a) && DbPath(b) && LastDb(a) == b[0]
    ensures DbPath(a + b[1..]) && LastDb(a + b[1..]) == LastDb(b) && (a + b[1..])[0] == a[0]
  {
    hide DbStep;
    var c := a + b[1..];
    forall i | 0 <= i < |c| - 1 ensures DbStep(c[i], c[i + 1]) {
      if i < |a| - 1 {
        assert DbStep(a[i], a[i + 1]);
      } else {
        assert DbStep(b[i - |a| + 1], b[i - |a| + 2]);
      }
    }
  }

  lemma {:induction false} PathOk(path: seq<Db>)
    requires path != [] && DbPath(path) && DbOk(path[0])
    ensures DbOk(LastDb(path))
  {
    hide DbStep, DbOk;
    if |path| > 1 {
      var before := path[..|path| - 1];
      PathOk(before);
      assert DbStep(LastDb(before), LastDb(path));
      DbStepOk(LastDb(before), LastDb(path));
    }
  }

  lemma LaneIsStep(d: Db, d': Db, lane: Lane)
    requires LaneStep(d, d', lane)
    ensures DbStep(d, d')
  {
    hide LaneStep;
  }

  // ---------- The undelivered reader ----------

  /** What the iterator over lane keys yields. */
  lemma YieldsLane(view: KV, keys: seq<Bytes>, queue: Bytes, lane: Lane)
    requires LaneKeys(view, keys, queue, lane)
    ensures (forall k :: k in keys ==> k in view) && |Yield(view, keys)| == |keys|
    ensures forall i :: 0 <= i < |keys| ==> keys[i] in view && Decode(view[keys[i]]) == Ok(Yield(view, keys)[i])
  {
    hide Parse, Yield, InLane, Timed;
    YieldsAll(view, keys);
    forall i | 0 <= i < |keys| ensures keys[i] in view && Decode(view[keys[i]]) == Ok(Yield(view, keys)[i]) {
      assert keys[i] in keys;
    }
  }

  function DeliveredAt(tasks: seq<Task>, at: int): seq<Delivered> {
    seq(|tasks|, i requires 0 <= i < |tasks| => Delivered(tasks[i], at))
  }

  /** The database once `k` of these tasks have been pushed. */
  function Pushed(d: Db, lane: Lane, tasks: seq<Task>, k: nat): Db
    requires k <= |tasks|
  {
    d.(settings := if k == 0 then d.settings else SetCheckpoint(lane, d.settings, tasks[k - 1]),
       pushed := d.pushed + tasks[..k])
     .With(lane, d.Of(lane).(delivered := d.Of(lane).delivered + DeliveredAt(tasks[..k], d.now)))
  }

  lemma {:induction false} PushPath(d: Db, lane: Lane, view: KV, keys: seq<Bytes>, k: nat) returns (path: seq<Db>)
    requires d.Of(lane).cursor == Reading(view, keys) && LaneKeys(view, keys, d.queue, lane) && k <= |keys|
    ensures (forall x :: x in keys ==> x in view) && k <= |Yield(view, keys)|
    ensures DbPath(path) && path[0] == d
    ensures
      var end := Pushed(d, lane, Yield(view, keys), k);
      LastDb(path) == end.With(lane, end.Of(lane).(cursor := Reading(view, keys[k..])))
  {
    hide Parse, Yield, LaneKeys, Decode, DbStep, SetCheckpoint;
    YieldsLane(view, keys, d.queue, lane);
    var tasks := Yield(view, keys);
    if k == 0 {
      path := [d];
      assert keys[0..] == keys && tasks[..0] == [] && d.pushed + [] == d.pushed;
      assert d.Of(lane).delivered + DeliveredAt(tasks[..0], d.now) == d.Of(lane).delivered;
    } else {
      path := PushPath(d, lane, view, keys, k - 1);
      var next := PushOne(d, lane, view, keys, tasks, k, LastDb(path));
      ExtendPath(path, next);
      path := path + [next];
    }
  }

  lemma PushOne(d: Db, lane: Lane, view: KV, keys: seq<Bytes>, tasks: seq<Task>, k: nat, last: Db) returns (next: Db)
    requires 0 < k <= |keys| == |tasks| && keys[k - 1] in view && Decode(view[keys[k - 1]]) == Ok(tasks[k - 1])
    requires
      var end := Pushed(d, lane, tasks, k - 1);
      last == end.With(lane, end.Of(lane).(cursor := Reading(view, keys[k - 1..])))
    ensures DbStep(last, next)
    ensures
      var end := Pushed(d, lane, tasks, k);
      next == end.With(lane, end.Of(lane).(cursor := Reading(view, keys[k..])))
  {
    hide Parse, Decode, DbStep, SetCheckpoint;
    var end := Pushed(d, lane, tasks, k);
    next := end.With(lane, end.Of(lane).(cursor := Reading(view, keys[k..])));
    assert keys[k - 1..][0] == keys[k - 1] && keys[k - 1..][1..] == keys[k..];
    assert d.pushed + tasks[..k] == d.pushed + tasks[..k - 1] + [tasks[k - 1]];
    var del := d.Of(lane).delivered;
    assert del + DeliveredAt(tasks[..k], d.now)
           == del + DeliveredAt(tasks[..k - 1], d.now) + [Delivered(tasks[k - 1], d.now)];
    SetTwice(lane, d.settings, tasks, k);
    assert PushTask(last, next, lane);
    LaneIsStep(last, next, lane);
  }

  lemma SetTwice(lane: Lane, cfg: QueueConfig, tasks: seq<Task>, k: nat)
    requires 0 < k <= |tasks|
    ensures SetCheckpoint(lane, if k == 1 then cfg else SetCheckpoint(lane, cfg, tasks[k - 2]), tasks[k - 1])
            == SetCheckpoint(lane, cfg, tasks[k - 1])
  {
  }

  /** A read is a path: the range is asked for, the cursor opened, `k` tasks pushed, the cursor closed. */
  lemma ReadPath(d: Db, lane: Lane, k: nat) returns (path: seq<Db>)
    requires DbOk(d) && d.Of(lane).cursor.Unopened? && Parseable(d.settings)
    requires k <= |Window(d.kv, UndeliveredQuery(lane, d.settings, d.now))|
    ensures
      var keys := Window(d.kv, UndeliveredQuery(lane, d.settings, d.now));
      && LaneKeys(d.kv, keys, d.queue, lane) && |Yield(d.kv, keys)| == |keys|
      && DbPath(path) && path[0] == d && LastDb(path) == Pushed(d, lane, Yield(d.kv, keys), k)
  {
    hide Parse, DbOk, Yield, LaneKeys, Decode, Window, UndeliveredQuery, DbStep, Parseable, GoodKv, WellFormed, Apart,
      LaneRange, StoreOk;
    var q := UndeliveredQuery(lane, d.settings, d.now);
    var keys := Window(d.kv, q);
    SettingsAreOk(d);
    ApartIn(d, lane);
    QueriesAreLane(lane, d.settings, d.now);
    WindowIsLane(d.kv, q, d.queue, lane);
    YieldsLane(d.kv, keys, d.queue, lane);
    var d1 := d.With(lane, d.Of(lane).(cursor := Ranged(q)));
    assert AskRange(d, d1, lane);
    LaneIsStep(d, d1, lane);
    var d2 := d1.With(lane, d1.Of(lane).(cursor := Reading(d.kv, keys)));
    assert OpenCursor(d1, d2, lane);
    LaneIsStep(d1, d2, lane);
    var pushes := PushPath(d2, lane, d.kv, keys, k);
    var d3 := LastDb(pushes);
    var d4 := d3.With(lane, d3.Of(lane).(cursor := Unopened));
    assert CloseCursor(d3, d4, lane);
    LaneIsStep(d3, d4, lane);
    ExtendPath(pushes, d4);
    ExtendPath([d], d1);
    ExtendPath([d] + [d1], d2);
    JoinPaths([d] + [d1] + [d2], pushes + [d4]);
    path := [d] + [d1] + [d2] + (pushes + [d4])[1..];
  }

  /** The reader object and the database agree. */
  ghost predicate Agrees(r: UndeliveredReader, d: Db)
    reads r.settings, r.tasks.db
  {
    r.settings.cfg == d.settings && r.tasks.db.kv == d.kv
  }

  /** Calling Read pushes the first tasks that await, as many as the feed accepts, and moves the checkpoint
      to the last of them. The call takes the database along a path of its steps. */
  method Deliver(r: UndeliveredReader, now: int, accepts: nat, ghost d: Db)
    returns (pushed: seq<Task>, ghost path: seq<Db>)
    requires DbOk(d) && Agrees(r, d) && d.now == now && d.Of(r.lane).cursor.Unopened?
    modifies r.settings
    ensures FirstOf(pushed, Awaiting(d.kv, d.settings, r.lane, now), accepts)
    ensures r.settings.cfg == CheckpointAt(r.lane, d.settings, pushed)
    ensures path != [] && DbPath(path) && path[0] == d && DbOk(LastDb(path))
    ensures
      var before := d.Of(r.lane);
      LastDb(path) == d.(settings := r.settings.cfg, pushed := d.pushed + pushed)
                       .With(r.lane, before.(delivered := before.delivered + DeliveredAt(pushed, now)))
    ensures Agrees(r, LastDb(path))
  {
    hide Parse, DbOk, Yield, LaneKeys, Decode, Window, UndeliveredQuery, DbStep, Parseable, Pushed, SetCheckpoint;
    SettingsAreOk(d);
    var failed;
    pushed, failed := r.Read(now, accepts);
    var _ := ReadPath(d, r.lane, 0);
    path := ReadPath(d, r.lane, |pushed|);
    ghost var all := Yield(d.kv, Window(d.kv, UndeliveredQuery(r.lane, d.settings, now)));
    PushedAre(d, r.lane, all, |pushed|);
    AwaitingIn(d, r.lane, now);
    PrefixIsFirst(all, Awaiting(d.kv, d.settings, r.lane, now), accepts);
    CheckpointIs(r.lane, d.settings, pushed);
    PathOk(path);
  }

  /** The settings once these tasks of the lane have been pushed: the last one is the checkpoint. */
  function CheckpointAt(lane: Lane, cfg: QueueConfig, pushed: seq<Task>): QueueConfig {
    if pushed == [] then cfg
    else if lane.Fifo? then cfg.(lastQueued := pushed[|pushed| - 1].id)
    else cfg.(lastScheduled := pushed[|pushed| - 1].id)
  }

  lemma CheckpointIs(lane: Lane, cfg: QueueConfig, pushed: seq<Task>)
    ensures CheckpointAt(lane, cfg, pushed)
            == if pushed == [] then cfg else SetCheckpoint(lane, cfg, pushed[|pushed| - 1])
  {
  }

  lemma AwaitingIn(d: Db, lane: Lane, now: int)
    requires DbOk(d)
    ensures Parseable(d.settings)
    ensures
      var all := Yield(d.kv, Window(d.kv, UndeliveredQuery(lane, d.settings, now)));
      && AllStorable(all) && AscendingRanks(all)
      && forall t :: t in all <==> t in Awaiting(d.kv, d.settings, lane, now)
  {
    hide Parse, LogOk, Configs, Replicated, ReadersOk, GoodKv, ConfigOk, Awaits, Yield, Window, UndeliveredQuery,
      Parseable;
    YieldsAwaiting(d.kv, d.settings, d.queue, lane, now);
  }

  lemma PushedAre(d: Db, lane: Lane, tasks: seq<Task>, k: nat)
    requires k <= |tasks|
    ensures Pushed(d, lane, tasks, k).settings
            == if k == 0 then d.settings else SetCheckpoint(lane, d.settings, tasks[k - 1])
    ensures Pushed(d, lane, tasks, k)
            == d.(settings := Pushed(d, lane, tasks, k).settings, pushed := d.pushed + tasks[..k])
                .With(lane, d.Of(lane).(delivered := d.Of(lane).delivered + DeliveredAt(tasks[..k], d.now)))
  {
    hide SetCheckpoint;
  }

  // ---------- The redelivery reader ----------

  /** The redelivery object and the database agree. */
  ghost predicate AgreesAgain(r: DeliveredReader, d: Db)
    reads r, r.settings, r.tasks.db
  {
    && r.settings.cfg == d.settings && r.tasks.db.kv == d.kv && r.interval == REDELIVERY_INTERVAL
    && r.lastRun == d.Of(r.lane).lastRun && r.active == d.Of(r.lane).active
  }

  /** No redelivery pass of the lane is running or stuck, and thirty seconds are over since the last began. */
  predicate MayBegin(r: LaneReaders, now: int) {
    !r.active && (r.lastRun.None? || now - r.lastRun.value > 30_000_000_000)
  }

  /** The readers of a lane after its redelivery reader was polled. */
  function AfterPoll(r: LaneReaders, now: int): LaneReaders {
    if MayBegin(r, now) then r.(lastRun := Some(now), active := true, retrying := Begun) else r
  }

  /** Asking Ready and then calling Read, as the feed does: a pass begins exactly when none is running or
      stuck and the interval is over. */
  method Poll(r: DeliveredReader, now: int, ghost d: Db) returns (started: bool, ghost d': Db)
    requires AgreesAgain(r, d) && d.now == now
    modifies r
    ensures AgreesAgain(r, d')
    ensures started <==> MayBegin(d.Of(r.lane), now)
    ensures started <==> exists next :: BeginRetry(d, next, r.lane)
    ensures if started then BeginRetry(d, d', r.lane) else d' == d
  {
    started := r.Ready(now);
    d' := d;
    if started {
      r.Read(now);
      d' := d.With(r.lane, d.Of(r.lane).(lastRun := Some(now), active := true, retrying := Begun));
      assert BeginRetry(d, d', r.lane);
    }
  }

  /** The tasks of a scan with their new retry stamps. */
  function Stamped(tasks: seq<Task>, clock: nat -> int): seq<Task> {
    seq(|tasks|, i requires 0 <= i < |tasks| => tasks[i].(lastRetry := Some(clock(i))))
  }

  lemma StampedMore(tasks: seq<Task>, t: Task, clock: nat -> int)
    ensures Stamped(tasks + [t], clock) == Stamped(tasks, clock) + [t.(lastRetry := Some(clock(|tasks|)))]
  {
  }

  function RedeliveredAt(applied: map<Bytes, nat>, picks: seq<Task>, deadline: int, clock: nat -> int)
    : seq<Redelivered>
  {
    seq(|picks|, i requires 0 <= i < |picks| =>
      Redelivered(picks[i], clock(i), deadline, TimesApplied(applied, picks[i])))
  }

  /** The database once a scan has visited some tasks and pushed `picks` of them. */
  function Scanned(d: Db, lane: Lane, r: Retrying, keys: seq<Bytes>, picks: seq<Task>, clock: nat -> int): Db
    requires r.Rereading?
  {
    d.(now := if picks == [] then d.now else clock(|picks| - 1), pushed := d.pushed + picks)
     .With(lane, d.Of(lane).(
       retrying := r.(keys := keys, taken := Stamped(picks, clock)),
       redelivered := d.Of(lane).redelivered + RedeliveredAt(d.applied, picks, r.deadline, clock)))
  }

  ghost predicate Ticks(clock: nat -> int, now: int) {
    now <= clock(0) && forall i: nat, j: nat :: i <= j ==> clock(i) <= clock(j)
  }

  /** One more task of a scan: passed by when it is too recent, else pushed and stamped. */
  lemma VisitOne(
      d: Db, lane: Lane, r: Retrying, k: Bytes, rest: seq<Bytes>, t: Task, picks: seq<Task>, clock: nat -> int)
    requires r.Rereading? && k in r.view && Decode(r.view[k]) == Ok(t) && Ticks(clock, d.now)
    ensures
      var more := picks + if ShouldRetry(t, r.watermark) then [t] else [];
      LaneStep(Scanned(d, lane, r, [k] + rest, picks, clock), Scanned(d, lane, r, rest, more, clock), lane)
  {
    hide Decode, ShouldRetry, TimesApplied;
    var last := Scanned(d, lane, r, [k] + rest, picks, clock);
    assert ([k] + rest)[1..] == rest;
    if ShouldRetry(t, r.watermark) {
      StampedMore(picks, t, clock);
      assert d.pushed + (picks + [t]) == d.pushed + picks + [t];
      var x := Redelivered(t, clock(|picks|), r.deadline, TimesApplied(d.applied, t));
      var red := d.Of(lane).redelivered;
      assert red + RedeliveredAt(d.applied, picks + [t], r.deadline, clock)
             == red + RedeliveredAt(d.applied, picks, r.deadline, clock) + [x];
      assert PushAgain(last, Scanned(d, lane, r, rest, picks + [t], clock), lane, t, clock(|picks|));
    } else {
      assert picks + [] == picks;
      assert PassBy(last, Scanned(d, lane, r, rest, picks, clock), lane, t);
    }
  }

  lemma {:induction false} VisitPath(d: Db, lane: Lane, r: Retrying, n: nat, clock: nat -> int) returns (path: seq<Db>)
    requires d.Of(lane).retrying == r && r.Rereading? && r.taken == [] && LaneKeys(r.view, r.keys, d.queue, lane)
    requires n <= |r.keys| && Ticks(clock, d.now)
    ensures (forall x :: x in r.keys ==> x in r.view) && n <= |Yield(r.view, r.keys)|
    ensures DbPath(path) && path[0] == d
    ensures
      var picks := Pick(Yield(r.view, r.keys)[..n], r.watermark);
      LastDb(path) == Scanned(d, lane, r, r.keys[n..], picks, clock)
    ensures forall x :: x in path ==> d.Of(lane).redelivered <= x.Of(lane).redelivered
  {
    hide Parse, Yield, LaneKeys, Decode, DbStep, Pick, ShouldRetry, Scanned, LaneStep, Ticks;
    YieldsLane(r.view, r.keys, d.queue, lane);
    var tasks := Yield(r.view, r.keys);
    if n == 0 {
      path := [d];
      PickNone(tasks[..0], r.watermark);
      NothingScanned(d, lane, r, clock);
      assert r.keys[0..] == r.keys;
    } else {
      path := VisitPath(d, lane, r, n - 1, clock);
      var last, t, picks := LastDb(path), tasks[n - 1], Pick(tasks[..n - 1], r.watermark);
      PickNext(tasks, n - 1, r.watermark);
      assert r.keys[n - 1..] == [r.keys[n - 1]] + r.keys[n..];
      VisitOne(d, lane, r, r.keys[n - 1], r.keys[n..], t, picks, clock);
      var next := Scanned(d, lane, r, r.keys[n..], Pick(tasks[..n], r.watermark), clock);
      ScannedMore(d, lane, r, r.keys[n..], Pick(tasks[..n], r.watermark), clock);
      LaneIsStep(last, next, lane);
      ExtendPath(path, next);
      path := path + [next];
    }
  }

  lemma ScannedMore(d: Db, lane: Lane, r: Retrying, keys: seq<Bytes>, picks: seq<Task>, clock: nat -> int)
    requires r.Rereading?
    ensures d.Of(lane).redelivered <= Scanned(d, lane, r, keys, picks, clock).Of(lane).redelivered
  {
    hide Stamped, RedeliveredAt;
  }

  lemma NothingScanned(d: Db, lane: Lane, r: Retrying, clock: nat -> int)
    requires d.Of(lane).retrying == r && r.Rereading? && r.taken == []
    ensures Scanned(d, lane, r, r.keys, [], clock) == d
  {
    assert d.pushed + [] == d.pushed;
    assert d.Of(lane).redelivered + RedeliveredAt(d.applied, [], r.deadline, clock) == d.Of(lane).redelivered;
  }

  /** After how many tasks a scan has picked `k` of them. */
  lemma {:induction false} PickCut(tasks: seq<Task>, watermark: int, k: nat) returns (n: nat)
    requires k <= |Pick(tasks, watermark)|
    ensures n <= |tasks| && Pick(tasks[..n], watermark) == Pick(tasks, watermark)[..k]
  {
    hide ShouldRetry;
    var picks := Pick(tasks, watermark);
    if k == |picks| {
      n := |tasks|;
      assert tasks[..n] == tasks && picks[..k] == picks;
    } else {
      var rest := tasks[..|tasks| - 1];
      n := PickCut(rest, watermark, k);
      assert rest[..n] == tasks[..n] && picks[..k] == Pick(rest, watermark)[..k];
    }
  }

  /** The beginning of a pass: watermark, range and view, with the clock moving on in between. */
  lemma OpenPath(d: Db, lane: Lane, queried: int) returns (path: seq<Db>)
    requires DbOk(d) && d.Of(lane).retrying.Begun? && d.now <= queried && Parseable(d.settings)
    ensures
      var q := DeliveredQuery(lane, d.settings, queried);
      var deadline := AckDeadline(d.settings);
      && LaneKeys(d.kv, Window(d.kv, q), d.queue, lane) && DbPath(path) && path[0] == d
      && LastDb(path) == d.(now := queried).With(lane, d.Of(lane).(retrying := Rereading(
           d.now - deadline, deadline, queried - deadline, d.kv, Window(d.kv, q), [])))
    ensures forall x :: x in path ==> d.Of(lane).redelivered == x.Of(lane).redelivered
  {
    hide Parse, DbOk, LaneKeys, Window, DeliveredQuery, DbStep, Parseable, GoodKv, WellFormed, Apart, LaneRange,
      AckDeadline, StoreOk;
    var q, deadline := DeliveredQuery(lane, d.settings, queried), AckDeadline(d.settings);
    SettingsAreOk(d);
    ApartIn(d, lane);
    QueriesAreLane(lane, d.settings, queried);
    WindowIsLane(d.kv, q, d.queue, lane);
    var d1 := d.With(lane, d.Of(lane).(retrying := Watermarked(d.now - deadline, deadline)));
    assert TakeWatermark(d, d1, lane);
    assert LaneStep(d, d1, lane);
    LaneIsStep(d, d1, lane);
    var d2 := d1.(now := queried);
    assert ClockTick(d1, d2);
    StoreIsStep(d1, d2);
    var d3, d4 := AskAndOpen(d2, lane, d.now - deadline, deadline);
    ExtendPath([d], d1);
    ExtendPath([d] + [d1], d2);
    ExtendPath([d] + [d1] + [d2], d3);
    ExtendPath([d] + [d1] + [d2] + [d3], d4);
    path := [d] + [d1] + [d2] + [d3] + [d4];
  }

  lemma AskAndOpen(d: Db, lane: Lane, watermark: int, deadline: int) returns (d1: Db, d2: Db)
    requires d.Of(lane).retrying == Watermarked(watermark, deadline) && Parseable(d.settings)
    ensures DbStep(d, d1) && DbStep(d1, d2)
    ensures d1 == d.With(lane, d.Of(lane).(retrying := d1.Of(lane).retrying))
    ensures
      var keys := Window(d.kv, DeliveredQuery(lane, d.settings, d.now));
      d2 == d.With(lane, d.Of(lane).(retrying := Rereading(
              watermark, deadline, d.now - AckDeadline(d.settings), d.kv, keys, [])))
  {
    hide Parse, Window, DeliveredQuery, DbStep, Parseable, AckDeadline;
    var q, end := DeliveredQuery(lane, d.settings, d.now), d.now - AckDeadline(d.settings);
    d1 := d.With(lane, d.Of(lane).(retrying := RetryRanged(watermark, deadline, end, q)));
    assert AskRetryRange(d, d1, lane);
    LaneIsStep(d, d1, lane);
    d2 := d1.With(lane, d1.Of(lane).(retrying := Rereading(watermark, deadline, end, d.kv, Window(d.kv, q), [])));
    assert OpenRetry(d1, d2, lane);
    LaneIsStep(d1, d2, lane);
  }

  lemma StoreIsStep(d: Db, d': Db)
    requires StoreStep(d, d')
    ensures DbStep(d, d')
  {
    hide StoreStep;
  }

  lemma StampedInLane(tasks: seq<Task>, clock: nat -> int, queue: Bytes, lane: Lane)
    requires AllInLane(tasks, queue, lane)
    ensures AllStorable(Stamped(tasks, clock))
  {
    hide Parse, Rank, Timed;
    forall u | u in Stamped(tasks, clock) ensures Storable(u) {
      var i :| 0 <= i < |tasks| && u == tasks[i].(lastRetry := Some(clock(i)));
      assert tasks[i] in tasks;
    }
  }

  lemma {:induction false} PicksAreOf(tasks: seq<Task>, watermark: int)
    ensures forall t :: t in Pick(tasks, watermark) ==> t in tasks
  {
    hide ShouldRetry;
    if tasks != [] { PicksAreOf(tasks[..|tasks| - 1], watermark); }
  }

  lemma YieldsInLane(view: KV, keys: seq<Bytes>, queue: Bytes, lane: Lane)
    requires LaneKeys(view, keys, queue, lane)
    ensures (forall k :: k in keys ==> k in view) && AllInLane(Yield(view, keys), queue, lane)
  {
    hide Parse, Yield, InLane, Timed;
    YieldsLane(view, keys, queue, lane);
    forall t | t in Yield(view, keys) ensures InLane(t, queue, lane) && Timed(t) {
      var i :| 0 <= i < |keys| && Yield(view, keys)[i] == t;
      assert keys[i] in keys;
    }
  }

  /** What a scan that begins here and asks for its range at `queried` picks in the end. */
  function ScanPicks(d: Db, lane: Lane, queried: int): seq<Task>
    requires Parseable(d.settings)
  {
    Pick(Yield(d.kv, Window(d.kv, DeliveredQuery(lane, d.settings, queried))), d.now - AckDeadline(d.settings))
  }

  /** A pass of `run` from its beginning to the point where it has picked some tasks. */
  lemma ScanPath(d: Db, lane: Lane, queried: int, clock: nat -> int, k: nat) returns (path: seq<Db>)
    requires DbOk(d) && d.Of(lane).retrying.Begun? && d.now <= queried && Parseable(d.settings) && Ticks(clock, queried)
    requires k <= |ScanPicks(d, lane, queried)|
    ensures DbPath(path) && path[0] == d
    ensures
      var end, picks := LastDb(path), ScanPicks(d, lane, queried)[..k];
      && end == d.(now := end.now, pushed := d.pushed + picks)
                 .With(lane, d.Of(lane).(
                   retrying := end.Of(lane).retrying,
                   redelivered := d.Of(lane).redelivered
                                  + RedeliveredAt(d.applied, picks, AckDeadline(d.settings), clock)))
      && end.Of(lane).retrying.Rereading? && end.Of(lane).retrying.taken == Stamped(picks, clock)
      && AllStorable(Stamped(picks, clock))
  {
    hide Parse, DbOk, LaneKeys, Window, DeliveredQuery, DbStep, Parseable, AckDeadline, Yield, Pick, Storable,
      RedeliveredAt, Stamped;
    var keys := Window(d.kv, DeliveredQuery(lane, d.settings, queried));
    var watermark := d.now - AckDeadline(d.settings);
    var a := OpenPath(d, lane, queried);
    var d1 := LastDb(a);
    YieldsLane(d.kv, keys, d.queue, lane);
    var tasks := Yield(d.kv, keys);
    var n := PickCut(tasks, watermark, k);
    YieldsInLane(d.kv, keys, d.queue, lane);
    PicksAreOf(tasks[..n], watermark);
    StampedInLane(Pick(tasks[..n], watermark), clock, d.queue, lane);
    var b := VisitPath(d1, lane, d1.Of(lane).retrying, n, clock);
    JoinPaths(a, b);
    path := a + b[1..];
  }

  lemma OverdueIn(d: Db, lane: Lane, queried: int, count: nat)
    requires DbOk(d)
    ensures Parseable(d.settings)
    ensures
      var all := ScanPicks(d, lane, queried);
      FirstOf(all[..if count < |all| then count else |all|],
              AllOverdue(d.kv, d.settings, lane, d.now, queried), count)
  {
    hide Parse, LogOk, Configs, Replicated, ReadersOk, GoodKv, ConfigOk, Overdue, Yield, Window, DeliveredQuery, Pick,
      Parseable, AckDeadline, FirstOf;
    PicksOverdue(d.kv, d.settings, d.queue, lane, d.now, queried);
    PrefixIsFirst(ScanPicks(d, lane, queried), AllOverdue(d.kv, d.settings, lane, d.now, queried), count);
  }

  /** One pass of the redelivery object, up to an error-free end or a closing feed: it pushes the first
      overdue tasks, as many as the feed accepts, and writes them back with their stamps. It takes the
      database along a path of its steps, to where the store and the state of the reader are those of
      the call. */
  method Redeliver(r: DeliveredReader, marked: int, queried: int, accepts: nat, clock: nat -> int, commits: bool,
                   ghost d: Db)
    returns (taken: seq<Task>, ghost picks: seq<Task>, ghost path: seq<Db>)
    requires DbOk(d) && AgreesAgain(r, d) && d.Of(r.lane).retrying.Begun? && d.now == marked <= queried
    requires Ticks(clock, queried)
    modifies r, r.tasks.db
    ensures FirstOf(picks, AllOverdue(d.kv, d.settings, r.lane, marked, queried), accepts)
    ensures |taken| == |picks| && forall i :: 0 <= i < |taken| ==> taken[i] == picks[i].(lastRetry := Some(clock(i)))
    ensures AllStorable(taken)
    ensures r.tasks.db.kv == if commits && taken != [] then d.kv + SavePuts(taken, false) else d.kv
    ensures r.active <==> old(r.active) && (taken == [] || !commits)
    ensures path != [] && DbPath(path) && path[0] == d && DbOk(LastDb(path))
    ensures AgreesAgain(r, LastDb(path)) && LastDb(path).Of(r.lane).retrying.Resting?
    ensures LastDb(path).pushed == d.pushed + picks
    ensures
      var deadline := 1_000_000_000 * d.settings.ackDeadlineSeconds;
      LastDb(path).Of(r.lane).redelivered
      == d.Of(r.lane).redelivered + RedeliveredAt(d.applied, picks, deadline, clock)
  {
    hide Parse, DbOk, LaneKeys, Window, DeliveredQuery, DbStep, Parseable, Yield, Pick, Storable, SavePuts,
      RedeliveredAt, AllOverdue, FirstOf;
    SettingsAreOk(d);
    var failed;
    taken, failed := r.Scan(marked, queried, accepts, clock);
    NeverFails(d, r.lane, queried);
    OverdueIn(d, r.lane, queried, accepts);
    picks := ScanPicks(d, r.lane, queried)[..|taken|];
    assert taken == Stamped(picks, clock);
    path := ScanPath(d, r.lane, queried, clock, |taken|);
    ghost var d1 := LastDb(path);
    r.Finish(taken, failed, commits);
    ghost var d2 := WriteBack(d1, r.lane, commits);
    ExtendPath(path, d2);
    path := path + [d2];
    PathOk(path);
  }

  /** The end of a scan: the stamped tasks are written back, unless there are none or the commit fails. */
  lemma WriteBack(d: Db, lane: Lane, commits: bool) returns (d': Db)
    requires d.Of(lane).retrying.Rereading? && AllStorable(d.Of(lane).retrying.taken)
    ensures DbStep(d, d')
    ensures
      var r := d.Of(lane);
      var written := commits && r.retrying.taken != [];
      d' == d.(kv := if written then d.kv + SavePuts(r.retrying.taken, false) else d.kv)
             .With(lane, r.(active := r.active && !written, retrying := Resting))
  {
    hide DbStep, SavePuts;
    var r := d.Of(lane);
    if commits && r.retrying.taken != [] {
      d' := d.(kv := d.kv + SavePuts(r.retrying.taken, false)).With(lane, r.(active := false, retrying := Resting));
      assert FinishRetry(d, d', lane);
    } else {
      d' := d.With(lane, r.(retrying := Resting));
      assert FailRetry(d, d', lane);
    }
    LaneIsStep(d, d', lane);
  }

  /** A store this program wrote never makes an iteration fail. */
  lemma NeverFails(d: Db, lane: Lane, queried: int)
    requires DbOk(d) && Parseable(d.settings)
    ensures
      var keys := Window(d.kv, DeliveredQuery(lane, d.settings, queried));
      |Yield(d.kv, keys)| == |keys|
  {
    hide Parse, DbOk, LaneKeys, Window, DeliveredQuery, Parseable, Yield, GoodKv, WellFormed, Apart, LaneRange,
      StoreOk;
    SettingsAreOk(d);
    ApartIn(d, lane);
    QueriesAreLane(lane, d.settings, queried);
    WindowIsLane(d.kv, DeliveredQuery(lane, d.settings, queried), d.queue, lane);
    YieldsLane(d.kv, Window(d.kv, DeliveredQuery(lane, d.settings, queried)), d.queue, lane);
  }

  // ---------- The settings ----------

  /** One turn of the syncer takes the database along its steps: a proposal that is applied, refused, or
      applied after it was reported as failed. Earlier ones still in flight are lost on the way. Settings
      that were saved last are not proposed again. */
  method SyncOnce(o: SyncedSettings, outcome: Proposal, ghost d: Db) returns (ok: bool, ghost path: seq<Db>)
    requires o.Valid() && DbOk(d) && (!outcome.Refused? ==> d.replaying == [])
    requires o.queue == d.queue && o.db.kv == d.kv && o.S == d.settings && o.lastSaved == d.lastSaved
    modifies o`lastSaved, o`late, o.db
    ensures o.Valid() && DbPath(path) && path[0] == d && DbOk(LastDb(path))
    ensures
      var end := LastDb(path);
      end == d.(kv := o.db.kv, log := end.log, lastSaved := o.lastSaved, proposals := end.proposals)
    ensures LastDb(path).proposals == if old(o.lastSaved) == Some(o.S) then d.proposals else []
    ensures
      var applied := old(o.lastSaved) != Some(o.S) && !outcome.Refused?;
      && o.db.kv == (if applied then d.kv[ConfigKey(d.queue) := ConfigValue(o.S)] else d.kv)
      && LastDb(path).log == (if applied then d.log + [SaveQueue(o.S)] else d.log)
    ensures ok <==> outcome.Applied? || old(o.lastSaved) == Some(o.S)
  {
    hide DbOk, DbStep, Replicated, ConfigKey;
    ok := o.TrySave(outcome);
    path := [d];
    if d.lastSaved != Some(d.settings) {
      var d1 := d.(proposals := d.proposals + [d.settings]);
      assert ProposeSettings(d, d1);
      SettingsIsStep(d, d1);
      ExtendPath(path, d1);
      path := DropPath(path + [d1], |d.proposals|);
      var d2 := LastDb(path);
      assert d2.proposals == [d.settings] && d2.proposals[1..] == [];
      var d3;
      if outcome.Refused? {
        d3 := d2.(proposals := []);
        assert DropSettings(d2, d3);
      } else {
        d3 := d2.(kv := d.kv[ConfigKey(d.queue) := ConfigValue(d.settings)], log := d.log + [SaveQueue(d.settings)],
                  proposals := [], lastSaved := if outcome.Applied? then Some(d.settings) else d.lastSaved);
        assert CommitSettings(d2, d3, outcome.Applied?);
      }
      SettingsIsStep(d2, d3);
      ExtendPath(path, d3);
      path := path + [d3];
    }
    PathOk(path);
  }

  /** The first proposals in flight are lost. */
  lemma {:induction false} DropPath(path: seq<Db>, n: nat) returns (more: seq<Db>)
    requires DbPath(path) && n <= |LastDb(path).proposals|
    ensures DbPath(more) && more[0] == path[0]
    ensures LastDb(more) == LastDb(path).(proposals := LastDb(path).proposals[n..])
  {
    hide DbStep;
    var d := LastDb(path);
    if n == 0 {
      more := path;
      assert d.proposals[0..] == d.proposals;
    } else {
      more := DropPath(path, n - 1);
      var last := LastDb(more);
      assert last.proposals[1..] == d.proposals[n..];
      var next := last.(proposals := d.proposals[n..]);
      assert DropSettings(last, next);
      SettingsIsStep(last, next);
      ExtendPath(more, next);
      more := more + [next];
    }
  }

  lemma SettingsIsStep(d: Db, d': Db)
    requires SettingsStep(d, d')
    ensures DbStep(d, d')
  {
    hide SettingsStep;
  }

  // ---------- The feed ----------

  /** The four readers of a feed, in the order in which it asks them. */
  class Feed {
    const settings: Settings
    const tasks: TaskStore
    const retryFifo: DeliveredReader
    const retrySched: DeliveredReader
    const fifo: UndeliveredReader
    const sched: UndeliveredReader

    constructor (settings: Settings, tasks: TaskStore)
      ensures this.settings == settings && this.tasks == tasks && Wired() && fresh(retryFifo) && fresh(retrySched)
      ensures retryFifo.lastRun.None? && !retryFifo.active && retrySched.lastRun.None? && !retrySched.active
    {
      this.settings := settings;
      this.tasks := tasks;
      retryFifo := new DeliveredReader(REDELIVERY_INTERVAL, settings, tasks, Fifo);
      retrySched := new DeliveredReader(REDELIVERY_INTERVAL, settings, tasks, Scheduled);
      fifo := new UndeliveredReader(settings, tasks, Fifo);
      sched := new UndeliveredReader(settings, tasks, Scheduled);
    }

    /** All readers share the settings and the store. */
    ghost predicate Wired() {
      && retryFifo.settings == retrySched.settings == fifo.settings == sched.settings == settings
      && retryFifo.tasks == retrySched.tasks == fifo.tasks == sched.tasks == tasks
      && retryFifo.lane == fifo.lane == Fifo && retrySched.lane == sched.lane == Scheduled
      && retryFifo.interval == retrySched.interval == REDELIVERY_INTERVAL && retryFifo != retrySched
    }

    /** The objects stand where the database stands, and no pass of an undelivered reader is running. */
    ghost predicate At(d: Db)
      reads settings, tasks.db, retryFifo, retrySched
    {
      && Wired() && settings.cfg == d.settings && tasks.db.kv == d.kv
      && retryFifo.lastRun == d.fifo.lastRun && retryFifo.active == d.fifo.active
      && retrySched.lastRun == d.scheduled.lastRun && retrySched.active == d.scheduled.active
      && d.fifo.cursor.Unopened? && d.scheduled.cursor.Unopened?
    }

    /** pullAndPush: every reader that is ready reads, each at its own time, until its source ends or the
        feed closes. In each lane the first tasks that await are pushed, as many as the feed accepts, and
        a redelivery pass begins if it may. The count is that of the pushed tasks, and the call is a path
        of the database. */
    method PullAndPush(clock: nat -> int, accepts: nat -> nat, ghost d: Db)
      returns (count: nat, ghost queued: seq<Task>, ghost timed: seq<Task>, ghost path: seq<Db>)
      requires DbOk(d) && At(d) && Ticks(clock, d.now)
      modifies settings, retryFifo, retrySched
      ensures FirstOf(queued, Awaiting(d.kv, d.settings, Fifo, clock(2)), accepts(0))
      ensures FirstOf(timed, Awaiting(d.kv, d.settings, Scheduled, clock(3)), accepts(1))
      ensures count == |queued| + |timed|
      ensures settings.cfg == CheckpointAt(Scheduled, CheckpointAt(Fifo, d.settings, queued), timed)
      ensures path != [] && DbPath(path) && path[0] == d && DbOk(LastDb(path)) && At(LastDb(path))
      ensures
        var a, b := AfterPoll(d.fifo, clock(0)), AfterPoll(d.scheduled, clock(1));
        LastDb(path) == d.(
          now := clock(3), settings := settings.cfg, pushed := d.pushed + queued + timed,
          fifo := a.(delivered := a.delivered + DeliveredAt(queued, clock(2))),
          scheduled := b.(delivered := b.delivered + DeliveredAt(timed, clock(3))))
    {
      hide DbOk, DbStep, DbPath, FirstOf, Awaiting, CheckpointAt, DeliveredAt, AfterPoll;
      var pushed;
      StartPath(d);
      path := PollOn(retryFifo, clock(0), [d]);
      path := PollOn(retrySched, clock(1), path);
      pushed, path := DeliverOn(fifo, clock(2), accepts(0), path);
      count, queued := |pushed|, pushed;
      SettingsAfterFifo(d, queued, clock(2), accepts(0), clock(3));
      pushed, path := DeliverOn(sched, clock(3), accepts(1), path);
      count, timed := count + |pushed|, pushed;
    }
  }

  /** What the FIFO reader pushes makes no difference to the scheduled one. */
  lemma SettingsAfterFifo(d: Db, queued: seq<Task>, at: int, accepts: nat, now: int)
    requires DbOk(d) && FirstOf(queued, Awaiting(d.kv, d.settings, Fifo, at), accepts)
    ensures Awaiting(d.kv, CheckpointAt(Fifo, d.settings, queued), Scheduled, now)
            == Awaiting(d.kv, d.settings, Scheduled, now)
  {
    hide Parse, DbOk, Rank, Stored, UnixBits, LaneProofs.Below, Mark, Parseable, AscendingRanks;
    SettingsAreOk(d);
    if queued != [] {
      var last := queued[|queued| - 1];
      assert last in queued;
      MarkAfter(Scheduled, Fifo, d.settings, last);
    }
  }

  lemma StartPath(d: Db)
    ensures DbPath([d])
  {
  }

  /** A redelivery reader is polled at the end of a path. */
  method PollOn(r: DeliveredReader, now: int, ghost path: seq<Db>) returns (ghost more: seq<Db>)
    requires path != [] && DbPath(path) && DbOk(path[0]) && AgreesAgain(r, LastDb(path)) && LastDb(path).now <= now
    modifies r
    ensures more != [] && DbPath(more) && more[0] == path[0] && AgreesAgain(r, LastDb(more))
    ensures LastDb(more) == LastDb(path).(now := now).With(r.lane, AfterPoll(LastDb(path).Of(r.lane), now))
    ensures AfterPoll(LastDb(path).Of(r.lane), now).cursor == LastDb(path).Of(r.lane).cursor
  {
    hide DbOk, DbStep, DbPath, BeginRetry;
    var started;
    ghost var d;
    more := TickPath(path, now);
    started, d := Poll(r, now, LastDb(more));
    more := BeginPath(more, d, r.lane, started);
  }

  /** An undelivered reader reads at the end of a path. */
  method DeliverOn(r: UndeliveredReader, now: int, accepts: nat, ghost path: seq<Db>)
    returns (pushed: seq<Task>, ghost more: seq<Db>)
    requires path != [] && DbPath(path) && DbOk(path[0]) && Agrees(r, LastDb(path)) && LastDb(path).now <= now
    requires LastDb(path).Of(r.lane).cursor.Unopened?
    modifies r.settings
    ensures more != [] && DbPath(more) && more[0] == path[0] && DbOk(LastDb(more)) && Agrees(r, LastDb(more))
    ensures FirstOf(pushed, Awaiting(LastDb(path).kv, LastDb(path).settings, r.lane, now), accepts)
    ensures r.settings.cfg == CheckpointAt(r.lane, LastDb(path).settings, pushed)
    ensures
      var d, before := LastDb(path), LastDb(path).Of(r.lane);
      LastDb(more) == d.(now := now, settings := r.settings.cfg, pushed := d.pushed + pushed)
                       .With(r.lane, before.(delivered := before.delivered + DeliveredAt(pushed, now)))
  {
    hide DbOk, DbStep, DbPath, FirstOf, Awaiting, CheckpointAt, DeliveredAt;
    ghost var ticked := TickPath(path, now);
    PathOk(ticked);
    pushed, more := Deliver(r, now, accepts, LastDb(ticked));
    JoinPaths(ticked, more);
    more := ticked + more[1..];
  }

  lemma TickPath(path: seq<Db>, now: int) returns (more: seq<Db>)
    requires path != [] && DbPath(path) && LastDb(path).now <= now
    ensures more != [] && DbPath(more) && more[0] == path[0] && LastDb(more) == LastDb(path).(now := now)
  {
    hide DbStep;
    var d := LastDb(path).(now := now);
    assert ClockTick(LastDb(path), d);
    StoreIsStep(LastDb(path), d);
    ExtendPath(path, d);
    more := path + [d];
  }

  /** A pass of the lane's redelivery reader has begun, or nothing has changed. */
  lemma BeginPath(path: seq<Db>, d: Db, lane: Lane, started: bool) returns (more: seq<Db>)
    requires path != [] && DbPath(path) && if started then BeginRetry(LastDb(path), d, lane) else d == LastDb(path)
    ensures more != [] && DbPath(more) && more[0] == path[0] && LastDb(more) == d
    ensures
      var before, r := LastDb(path), LastDb(path).Of(lane);
      d == before.With(lane, if started then r.(lastRun := Some(before.now), active := true, retrying := Begun) else r)
  {
    hide DbStep, MayStart;
    more := path;
    if started {
      LaneIsStep(LastDb(path), d, lane);
      ExtendPath(path, d);
      more := path + [d];
    }
  }

  // ---------- New tasks ----------

  /** A task that the API makes of a request, with an index its queue has not used, comes into the
      database as a fresh task. */
  lemma MadeTasksAreFresh(d: Db, req: PushRequest, createdAt: int, now: int, index: U64)
    requires RunTime(req, now) == ZERO_TIME || Schedulable(RunTime(req, now))
    requires 0 < index < MAX_INDEX && 0 <= createdAt
    requires forall u :: u in Saves(d.log) && Storable(u) && u.queue == req.queue ==> Index(IdOf(u)) != index
    ensures
      var t := MakeTask(req, createdAt, now, index);
      Storable(t) && FreshTask(d, t) && (t.queue == d.queue ==> NameApart(d.queue, t))
  {
    hide Parse, Index, Number, New, RunTime, TaskKey, AckKey, Saves, RealRank, Rank, Show;
    var t := MakeTask(req, createdAt, now, index);
    MadeTasksHaveRealRanks(req, createdAt, now, index);
    UsualTasksCanBeAcked(req, createdAt, now, index);
    NewParts(RunTime(req, now), index);
    forall u | u in Saves(d.log) && Storable(u) ensures TaskKey(u) != TaskKey(t) { TaskKeyInjective(u, t); }
  }

  /** A task pushed with a wait of some seconds is delivered only when they are over, and redelivered only
      when the ack deadline is over as well, in every run; and never by the readers of FIFO tasks. */
  lemma WaitsAreKept(dbs: seq<Db>, lane: Lane, req: PushRequest, createdAt: int, now: int, index: U64)
    requires DbRun(dbs) && req.schedule.After?
    requires
      var s := req.schedule.ttsSeconds;
      0 < s && s * 1_000_000_000 < TWO63 && now + s * 1_000_000_000 != ZERO_TIME
    ensures
      var t, time := MakeTask(req, createdAt, now, index), now + req.schedule.ttsSeconds * 1_000_000_000;
      && (forall x :: x in LastDb(dbs).Of(lane).delivered && x.task.(lastRetry := None) == t ==>
            lane.Scheduled? && time < x.at)
      && (forall x :: x in LastDb(dbs).Of(lane).redelivered && x.task.(lastRetry := None) == t ==>
            lane.Scheduled? && time + x.deadline < x.at)
  {
    hide Parse, DbStep, NewQueue, MakeTask, DbOk, Timed;
    MadeAsRequested(req, createdAt, now, index);
    NeverEarlyInDatabase(dbs);
    var states := LaneOfRun(dbs, lane);
    HistoryOf(LastDb(dbs), LaneTheorems.Last(states), lane);
  }
}
