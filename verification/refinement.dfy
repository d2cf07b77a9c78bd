/** The readers' steps and restarts of the database as steps of the lanes, and what the protocol
    guarantees, said of the database. */
module Refinement {
  import opened ByteStrings
  import opened Ids
  import opened Keys
  import opened TaskStores
  import opened Iteration
  import opened StateMachines
  import opened Lanes
  import LaneProofs
  import LaneTheorems
  import opened Readers
  import opened Syncing
  import opened Database
  import opened DatabaseInvariant
  import opened Simulation

  // ---------- The undelivered reader ----------

  /** The readers of the lane and the settings have moved on; the rest is as before. */
  lemma ReadersMoved(d: Db, d': Db, s: State, s': State, lane: Lane)
    requires Sim(d, s, lane) && DbOk(d') && s'.lane == lane && s'.now == d'.now
    requires d'.queue == d.queue && d'.kv == d.kv && d'.log == d.log && d'.proposals == d.proposals
    requires s'.store == s.store && s'.saved == s.saved && s'.acked == s.acked && s'.committed == s.committed
    requires s'.pending == s.pending && s'.rep == s.rep && s'.pushed == LaneRanks(d'.pushed, d.queue, lane)
    requires d'.applied == d.applied && s'.eras == s.eras
    requires s'.mem == Mark(lane, d'.settings) && s'.deadline == AckDeadline(d'.settings)
    requires ReadersOk(d'.Of(lane), d.queue, lane) && ReadersSim(d'.Of(lane), s', d.queue, lane)
    ensures Sim(d', s', lane)
  {
    hide DbOk, Represents, EraSim, ReadersOk, ReadersSim, Saves, Acks, Configs, LaneRanks, AckRanks, MarkSet, Mark,
      Marks, ReplicatedMark;
  }

  lemma OfWith(d: Db, lane: Lane, r: LaneReaders)
    ensures d.With(lane, r).Of(lane) == r
  {
  }

  lemma MarkIsCheckpoint(d: Db, lane: Lane)
    requires DbOk(d)
    ensures Parseable(d.settings) && Mark(lane, d.settings) == Checkpoint(lane, d.settings) && d.settings.id == d.queue
  {
    hide StoreOk, LogOk, ReadersOk, Configs, Replicated, Parseable;
  }

  /** The keys of a range are the lane's view between its bounds. */
  lemma WindowIsView(kv: KV, r: TaskRange, queue: Bytes, lane: Lane, store: map<nat, Info>)
    requires GoodKv(kv, queue) && LaneRange(r, queue, lane)
    requires Represents(kv, queue, lane, store)
    ensures LaneKeys(kv, Window(kv, r), queue, lane)
    ensures IsView(KeyRanks(kv, Window(kv, r), queue, lane), store, LowerBound(r), UpperBound(r))
    ensures ViewSim(kv, Window(kv, r), store, queue, lane)
  {
    hide Parse, WellFormed, Apart, TimesOk, Window, Represents, EraSim, IsView, Rank, TaskKey, LowerBound, UpperBound;
    WindowIsLane(kv, r, queue, lane);
    VisitIsView(kv, r, lane, store);
    KeyRanksAreRanks(kv, r, queue, lane);
    forall k | k in Window(kv, r)
      ensures Rank(kv[k].task) in store && store[Rank(kv[k].task)] == InfoOf(kv[k].task)
    {
      StoredAt(kv, k);
      RepresentedAt(kv, queue, lane, store, kv[k].task);
    }
  }

  lemma KeyRanksAreRanks(kv: KV, r: TaskRange, queue: Bytes, lane: Lane)
    requires LaneKeys(kv, Window(kv, r), queue, lane) && AllStorable(Visited(kv, r))
    ensures KeyRanks(kv, Window(kv, r), queue, lane) == Ranks(Visited(kv, r))
  {
    hide Parse, Window, Rank;
    var keys := Window(kv, r);
    forall i | 0 <= i < |keys| ensures Visited(kv, r)[i] == kv[keys[i]].task { assert keys[i] in keys; }
  }

  lemma StoredAt(kv: KV, k: Bytes)
    requires WellFormed(kv) && k in kv && kv[k].TaskValue?
    ensures Stored(kv, kv[k].task) && TaskKey(kv[k].task) == k
  {
    hide Parse, TaskKey;
    assert WellPlaced(k, kv[k]);
  }

  lemma RepresentedAt(kv: KV, queue: Bytes, lane: Lane, store: map<nat, Info>, t: Task)
    requires Represents(kv, queue, lane, store) && Stored(kv, t) && InLane(t, queue, lane)
    ensures Rank(t) in store && store[Rank(t)] == InfoOf(t)
  {
    hide Parse, Rank, Stored, InLane;
  }

  lemma AskSim(d: Db, d': Db, s: State, lane: Lane) returns (s': State)
    requires Sim(d, s, lane) && AskRange(d, d', lane) && DbOk(d')
    ensures AskPass(s, s') && Sim(d', s', lane)
  {
    hide DbOk, Represents, EraSim, LogSim, LaneKeys, RetryingOk, RetrySim, Parse, UndeliveredQuery, From, Until,
      LowerBound, UpperBound, Mark, Checkpoint, LaneRanks, Parseable, Marks, ReplicatedMark, LaneRange;
    var q := UndeliveredQuery(lane, d.settings, d.now);
    MarkIsCheckpoint(d, lane);
    QueryBounds(lane, d.settings, d.now);
    QueriesAreLane(lane, d.settings, d.now);
    OfWith(d, lane, d.Of(lane).(cursor := Ranged(q)));
    s' := s.(pass := Asked(From(lane, s.mem), Until(lane, s.now)));
    PushedSim(d, s, lane);
    ReadersMoved(d, d', s, s', lane);
  }

  lemma PushedSim(d: Db, s: State, lane: Lane)
    requires Sim(d, s, lane)
    ensures s.pushed == LaneRanks(d.pushed, d.queue, lane)
  {
    hide DbOk, Represents, EraSim, ReadersOk, ReadersSim, SettingsSim, LaneRanks, AckRanks, MarkSet;
  }

  lemma OpenSim(d: Db, d': Db, s: State, lane: Lane) returns (s': State)
    requires Sim(d, s, lane) && OpenCursor(d, d', lane) && DbOk(d')
    ensures OpenPass(s, s') && Sim(d', s', lane)
  {
    hide DbOk, Represents, EraSim, LogSim, LaneKeys, RetryingOk, RetrySim, LowerBound, UpperBound, Mark, LaneRanks,
      Marks, Window, ReplicatedMark, LaneRange, KeyRanks, IsView, ViewSim, WellFormed, Apart, StoreOk;
    var r := d.Of(lane).cursor.range;
    SettingsAreOk(d);
    ApartIn(d, lane);
    WindowIsView(d.kv, r, d.queue, lane, s.store);
    OfWith(d, lane, d.Of(lane).(cursor := Reading(d.kv, Window(d.kv, r))));
    s' := s.(pass := Passing(KeyRanks(d.kv, Window(d.kv, r), d.queue, lane)));
    PushedSim(d, s, lane);
    ReadersMoved(d, d', s, s', lane);
  }

  lemma KeyRanksTail(view: KV, keys: seq<Bytes>, queue: Bytes, lane: Lane)
    requires LaneKeys(view, keys, queue, lane) && keys != []
    ensures LaneKeys(view, keys[1..], queue, lane) && keys[0] in view && Decode(view[keys[0]]).Ok?
    ensures
      var t, ranks := Decode(view[keys[0]]).task, KeyRanks(view, keys, queue, lane);
      && InLane(t, queue, lane) && Timed(t) && view[keys[0]] == TaskValue(t)
      && ranks != [] && ranks[0] == Rank(t) && ranks[1..] == KeyRanks(view, keys[1..], queue, lane)
  {
    hide Parse, Rank, Timed;
    TailKeys(view, keys, queue, lane);
    DecodedTask(view[keys[0]]);
  }

  lemma MarkAfter(lane: Lane, pushing: Lane, cfg: QueueConfig, t: Task)
    requires Parseable(cfg) && Storable(t)
    ensures Mark(lane, SetCheckpoint(pushing, cfg, t)) ==
            if lane != pushing then Mark(lane, cfg) else if lane.Fifo? then Index(IdOf(t)) else Number(IdOf(t))
    ensures AckDeadline(SetCheckpoint(pushing, cfg, t)) == AckDeadline(cfg)
  {
    hide Parse, Index, Number;
  }

  lemma PushSim(d: Db, d': Db, s: State, lane: Lane) returns (s': State)
    requires Sim(d, s, lane) && PushTask(d, d', lane) && DbOk(d')
    ensures PushNext(s, s') && Sim(d', s', lane)
  {
    hide DbOk, Represents, EraSim, LogSim, LaneKeys, RetryingOk, RetrySim, LowerBound, UpperBound, Mark, LaneRanks,
      Marks, Parse, ReplicatedMark, LaneRange, KeyRanks, ViewSim, SetCheckpoint, AckDeadline, Decode, Index, Number,
      Parseable, HistorySim, HistoryInLane, Timed;
    var c := d.Of(lane).cursor;
    MarkIsCheckpoint(d, lane);
    KeyRanksTail(c.view, c.keys, d.queue, lane);
    var t := Decode(c.view[c.keys[0]]).task;
    MarkAfter(lane, lane, d.settings, t);
    var r := d.Of(lane).(cursor := Reading(c.view, c.keys[1..]),
                         delivered := d.Of(lane).delivered + [Delivered(t, d.now)]);
    OfWith(d.(settings := SetCheckpoint(lane, d.settings, t), pushed := d.pushed + [t]), lane, r);
    LaneRanksConcat(d.pushed, [t], d.queue, lane);
    OneRank(t, d.queue, lane);
    PushedSim(d, s, lane);
    var n := Rank(t);
    s' := s.(pushed := s.pushed + {n}, mem := n, history := s.history + [n], order := s.order + [n],
             deliveries := s.deliveries + [Delivery(n, s.now)], pass := Passing(s.pass.remaining[1..]));
    DeliveredMore(d.Of(lane), r, s, s', t, d.now);
    OfOk(d', lane);
    ReadersMoved(d, d', s, s', lane);
  }

  lemma DeliveredMore(r: LaneReaders, r': LaneReaders, s: State, s': State, t: Task, at: int)
    requires HistorySim(r, s) && Storable(t)
    requires r'.delivered == r.delivered + [Delivered(t, at)] && r'.redelivered == r.redelivered
    requires s'.order == s.order + [Rank(t)] && s'.deliveries == s.deliveries + [Delivery(Rank(t), at)]
    requires s'.retries == s.retries
    ensures HistorySim(r', s')
  {
    hide Parse, Rank;
    assert OrderOf(r'.delivered) == OrderOf(r.delivered) + [RankOf(t)];
    forall x | x in r'.delivered ensures Delivery(RankOf(x.task), x.at) in s'.deliveries {
      if x !in r.delivered { assert x == Delivered(t, at); }
    }
  }

  lemma RedeliveredMore(r: LaneReaders, r': LaneReaders, s: State, s': State, x: Redelivered)
    requires HistorySim(r, s)
    requires r'.redelivered == r.redelivered + [x] && r'.delivered == r.delivered
    requires s'.order == s.order && s'.deliveries == s.deliveries
    requires s'.retries == s.retries + [Retry(RankOf(x.task), x.at, x.deadline, x.era)]
    ensures HistorySim(r', s')
  {
    hide RankOf;
    assert RetriesOf(r'.redelivered) == RetriesOf(r.redelivered) + [Retry(RankOf(x.task), x.at, x.deadline, x.era)];
  }

  lemma OneRank(t: Task, queue: Bytes, lane: Lane)
    ensures InLane(t, queue, lane) ==> LaneRanks([t], queue, lane) == {Rank(t)}
    ensures !InLane(t, queue, lane) ==> LaneRanks([t], queue, lane) == {}
  {
    hide InLane, Rank;
    assert forall u :: u in [t] <==> u == t;
  }

  lemma CloseSim(d: Db, d': Db, s: State, lane: Lane) returns (s': State)
    requires Sim(d, s, lane) && CloseCursor(d, d', lane) && DbOk(d')
    ensures EndPass(s, s') && Sim(d', s', lane)
  {
    hide DbOk, Represents, EraSim, LogSim, LaneKeys, RetryingOk, RetrySim, Mark, LaneRanks, Marks, ReplicatedMark;
    OfWith(d, lane, d.Of(lane).(cursor := Unopened));
    s' := s.(pass := NoPass);
    PushedSim(d, s, lane);
    ReadersMoved(d, d', s, s', lane);
  }

  lemma CursorStepSim(d: Db, d': Db, s: State, lane: Lane) returns (s': State)
    requires Sim(d, s, lane) && CursorStep(d, d', lane) && DbOk(d')
    ensures Lanes.Step(s, s') && Sim(d', s', lane)
  {
    hide Sim, DbOk, AskRange, OpenCursor, PushTask, CloseCursor, AskPass, OpenPass, PushNext, EndPass, Lanes.Step;
    if AskRange(d, d', lane) {
      s' := AskSim(d, d', s, lane);
    } else if OpenCursor(d, d', lane) {
      s' := OpenSim(d, d', s, lane);
    } else if PushTask(d, d', lane) {
      s' := PushSim(d, d', s, lane);
    } else {
      s' := CloseSim(d, d', s, lane);
    }
    FeedIsStep(s, s');
  }

  // ---------- The redelivery reader ----------

  lemma RetryFrameSim(d: Db, d': Db, s: State, lane: Lane) returns (s': State)
    requires Sim(d, s, lane) && DbOk(d')
    requires BeginRetry(d, d', lane) || TakeWatermark(d, d', lane) || FailRetry(d, d', lane)
    ensures RetryFrameStep(s, s') && Sim(d', s', lane)
  {
    hide DbOk, Represents, EraSim, LogSim, LaneKeys, CursorOk, CursorSim, Mark, LaneRanks, Marks, ReplicatedMark,
      KeyRanks, ViewSim, LaneTasks, LowerBound, UpperBound, AckDeadline, IsView, AllInLane;
    PushedSim(d, s, lane);
    var r := d.Of(lane);
    if BeginRetry(d, d', lane) {
      OfWith(d, lane, r.(lastRun := Some(d.now), active := true, retrying := Begun));
      s' := s.(lastRun := Some(s.now), active := true, stage := Started);
      assert RetryStart(s, s');
    } else if TakeWatermark(d, d', lane) {
      OfWith(d, lane, r.(retrying := Watermarked(d.now - AckDeadline(d.settings), AckDeadline(d.settings))));
      s' := s.(stage := Marked(s.now - s.deadline, s.deadline));
      assert RetryMark(s, s');
    } else {
      OfWith(d, lane, r.(retrying := Resting));
      s' := s.(stage := Off);
      assert RetryFail(s, s');
    }
    ReadersMoved(d, d', s, s', lane);
  }

  lemma AskRetrySim(d: Db, d': Db, s: State, lane: Lane) returns (s': State)
    requires Sim(d, s, lane) && AskRetryRange(d, d', lane) && DbOk(d')
    ensures RetryFrameStep(s, s') && Sim(d', s', lane)
  {
    hide DbOk, Represents, EraSim, LogSim, LaneKeys, CursorOk, CursorSim, Mark, LaneRanks, Marks, ReplicatedMark,
      KeyRanks, ViewSim, LaneTasks, LowerBound, UpperBound, AckDeadline, IsView, AllInLane, Parse, DeliveredQuery,
      Checkpoint, RetryUntil, Parseable, LaneRange;
    PushedSim(d, s, lane);
    MarkIsCheckpoint(d, lane);
    QueryBounds(lane, d.settings, d.now);
    QueriesAreLane(lane, d.settings, d.now);
    var r, end := d.Of(lane).retrying, d.now - AckDeadline(d.settings);
    var q := DeliveredQuery(lane, d.settings, d.now);
    OfWith(d, lane, d.Of(lane).(retrying := RetryRanged(r.watermark, r.deadline, end, q)));
    s' := s.(stage := Queried(s.stage.watermark, s.stage.deadline, end, RetryUntil(lane, s.mem, end)));
    assert RetryQuery(s, s');
    ReadersMoved(d, d', s, s', lane);
  }

  lemma OpenRetrySim(d: Db, d': Db, s: State, lane: Lane) returns (s': State)
    requires Sim(d, s, lane) && OpenRetry(d, d', lane) && DbOk(d')
    ensures RetryFrameStep(s, s') && Sim(d', s', lane)
  {
    hide DbOk, Represents, EraSim, LogSim, LaneKeys, CursorOk, CursorSim, Mark, LaneRanks, Marks, ReplicatedMark,
      KeyRanks, ViewSim, LowerBound, UpperBound, AckDeadline, IsView, LaneRange, Window, WellFormed, Apart, StoreOk;
    PushedSim(d, s, lane);
    var r := d.Of(lane).retrying;
    SettingsAreOk(d);
    ApartIn(d, lane);
    WindowIsView(d.kv, r.range, d.queue, lane, s.store);
    var keys := Window(d.kv, r.range);
    OfWith(d, lane, d.Of(lane).(retrying := Rereading(r.watermark, r.deadline, r.end, d.kv, keys, [])));
    s' := s.(stage := Scanning(r.watermark, r.deadline, r.end, s.store, KeyRanks(d.kv, keys, d.queue, lane), map[]));
    assert RetryOpen(s, s');
    ReadersMoved(d, d', s, s', lane);
  }

  lemma ViewTail(view: KV, keys: seq<Bytes>, seen: map<nat, Info>, queue: Bytes, lane: Lane)
    requires LaneKeys(view, keys, queue, lane) && keys != [] && ViewSim(view, keys, seen, queue, lane)
    ensures LaneKeys(view, keys[1..], queue, lane) && ViewSim(view, keys[1..], seen, queue, lane)
    ensures
      var t := Decode(view[keys[0]]).task;
      Rank(t) in seen && seen[Rank(t)] == InfoOf(t)
  {
    hide Parse, Rank, InLane;
    TailKeys(view, keys, queue, lane);
    assert keys[0] in keys;
    DecodedTask(view[keys[0]]);
    assert forall k :: k in keys[1..] ==> k in keys;
  }

  lemma PassBySim(d: Db, d': Db, s: State, lane: Lane, t: Task) returns (s': State)
    requires Sim(d, s, lane) && PassBy(d, d', lane, t) && DbOk(d')
    ensures RetryScanStep(s, s') && Sim(d', s', lane)
  {
    hide DbOk, Represents, EraSim, LogSim, LaneKeys, CursorOk, CursorSim, Mark, LaneRanks, Marks, ReplicatedMark,
      KeyRanks, ViewSim, AckDeadline, Rank, Decode, LaneTasks, AllInLane, Parse, InLane;
    PushedSim(d, s, lane);
    var r := d.Of(lane).retrying;
    KeyRanksTail(r.view, r.keys, d.queue, lane);
    ViewTail(r.view, r.keys, s.stage.view, d.queue, lane);
    OfWith(d, lane, d.Of(lane).(retrying := r.(keys := r.keys[1..])));
    s' := s.(stage := s.stage.(remaining := s.stage.remaining[1..]));
    assert RetrySkip(s, s');
    ReadersMoved(d, d', s, s', lane);
  }

  lemma TakenMore(taken: seq<Task>, u: Task, queue: Bytes, lane: Lane)
    requires AllStorable(taken) && AllInLane(taken, queue, lane) && Storable(u) && InLane(u, queue, lane) && Timed(u)
    ensures AllStorable(taken + [u]) && AllInLane(taken + [u], queue, lane)
    ensures LaneTasks(taken + [u], queue, lane) == LaneTasks(taken, queue, lane)[Rank(u) := InfoOf(u)]
  {
    hide Parse, InLane, Rank, Storable;
    assert (taken + [u])[..|taken|] == taken;
  }

  lemma PushAgainSim(d: Db, d': Db, s: State, lane: Lane, t: Task, at: int) returns (s': State)
    requires Sim(d, s, lane) && PushAgain(d, d', lane, t, at) && DbOk(d')
    ensures RetryScanStep(s, s') && Sim(d', s', lane)
  {
    hide DbOk, Represents, EraSim, LogSim, LaneKeys, CursorOk, CursorSim, Mark, LaneRanks, Marks, ReplicatedMark,
      KeyRanks, ViewSim, AckDeadline, Rank, Decode, LaneTasks, Parse, AllInLane, Storable, HistorySim, HistoryInLane,
      Timed, TimesApplied, Era;
    PushedSim(d, s, lane);
    var r := d.Of(lane).retrying;
    KeyRanksTail(r.view, r.keys, d.queue, lane);
    ViewTail(r.view, r.keys, s.stage.view, d.queue, lane);
    RestampedInLane(t, d'.now, d.queue, lane);
    var u := t.(lastRetry := Some(d'.now));
    TakenMore(r.taken, u, d.queue, lane);
    var x := Redelivered(t, at, r.deadline, TimesApplied(d.applied, t));
    var r' := d.Of(lane).(retrying := r.(keys := r.keys[1..], taken := r.taken + [u]),
                          redelivered := d.Of(lane).redelivered + [x]);
    OfWith(d.(now := d'.now, pushed := d.pushed + [t]), lane, r');
    EraAt(d, s, lane, t);
    LaneRanksConcat(d.pushed, [t], d.queue, lane);
    OneRank(t, d.queue, lane);
    var n := Rank(t);
    s' := s.(now := d'.now, pushed := s.pushed + {n}, retries := s.retries + [Retry(n, at, s.stage.deadline, x.era)],
             stage := s.stage.(remaining := s.stage.remaining[1..], taken := s.stage.taken[n := InfoOf(u)]));
    assert RetryPush(s, s', at);
    RedeliveredMore(d.Of(lane), r', s, s', x);
    OfOk(d', lane);
    ReadersMoved(d, d', s, s', lane);
  }

  lemma EraAt(d: Db, s: State, lane: Lane, t: Task)
    requires Sim(d, s, lane) && InLane(t, d.queue, lane)
    ensures Era(s.eras, Rank(t)) == TimesApplied(d.applied, t)
  {
    hide DbOk, Represents, LogSim, SettingsSim, ReadersOk, ReadersSim, Rank, Parse, TimesApplied, Era;
  }

  lemma {:induction false} TakenKeys(taken: seq<Task>, queue: Bytes, lane: Lane)
    requires AllStorable(taken) && AllInLane(taken, queue, lane)
    ensures LaneTasks(taken, queue, lane) == map[] <==> taken == []
  {
    hide Parse, Rank, Storable;
    if taken != [] {
      assert taken[|taken| - 1] in taken;
      assert Rank(taken[|taken| - 1]) in LaneTasks(taken, queue, lane);
    }
  }

  lemma FinishSim(d: Db, d': Db, s: State, lane: Lane) returns (s': State)
    requires Sim(d, s, lane) && FinishRetry(d, d', lane) && DbOk(d')
    ensures RetryScanStep(s, s') && Sim(d', s', lane)
  {
    hide DbOk, Represents, EraSim, Saves, Acks, Configs, LaneKeys, CursorOk, CursorSim, Mark, LaneRanks, AckRanks,
      Marks, MarkSet, KeyRanks, ViewSim, AckDeadline, LaneTasks, Parse, AllInLane, Storable, SavePuts, Replicated;
    var r := d.Of(lane);
    var taken := r.retrying.taken;
    TakenKeys(taken, d.queue, lane);
    SaveAllIsLaneSave(d.kv, d.queue, lane, s.store, taken, false);
    SaveKeepsReplicated(d.kv, taken, false, d.queue);
    OfWith(d, lane, r.(retrying := Resting));
    OfWith(d.(kv := d.kv + SavePuts(taken, false)), lane, r.(active := false, retrying := Resting));
    s' := if taken == [] then s.(stage := Off)
          else s.(store := s.store + s.stage.taken, active := false, stage := Off);
    assert RetryFinish(s, s');
  }

  lemma RetryStepSim(d: Db, d': Db, s: State, lane: Lane) returns (s': State)
    requires Sim(d, s, lane) && (RetryFrameOf(d, d', lane) || RetryScanOf(d, d', lane)) && DbOk(d')
    ensures Lanes.Step(s, s') && Sim(d', s', lane)
  {
    hide Sim, DbOk, BeginRetry, TakeWatermark, AskRetryRange, OpenRetry, FailRetry, FinishRetry, PassBy, PushAgain,
      RetryFrameStep, RetryScanStep, Lanes.Step;
    if BeginRetry(d, d', lane) || TakeWatermark(d, d', lane) || FailRetry(d, d', lane) {
      s' := RetryFrameSim(d, d', s, lane);
    } else if AskRetryRange(d, d', lane) {
      s' := AskRetrySim(d, d', s, lane);
    } else if OpenRetry(d, d', lane) {
      s' := OpenRetrySim(d, d', s, lane);
    } else if FinishRetry(d, d', lane) {
      s' := FinishSim(d, d', s, lane);
    } else if t, at :| PushAgain(d, d', lane, t, at) {
      s' := PushAgainSim(d, d', s, lane, t, at);
    } else {
      var t :| PassBy(d, d', lane, t);
      s' := PassBySim(d, d', s, lane, t);
    }
    RetryIsStep(s, s');
  }

  // ---------- The other lane ----------

  function Other(lane: Lane): Lane { if lane.Fifo? then Scheduled else Fifo }

  lemma OtherOf(d: Db, lane: Lane, r: LaneReaders)
    ensures d.With(Other(lane), r).Of(lane) == d.Of(lane)
  {
  }

  lemma OtherIsNotInLane(t: Task, queue: Bytes, lane: Lane)
    requires InLane(t, queue, Other(lane))
    ensures !InLane(t, queue, lane) && Storable(t)
  {
    hide Parse;
  }

  /** Nothing the lane sees has changed, but for the clock. */
  lemma Unseen(d: Db, d': Db, s: State, lane: Lane) returns (s': State)
    requires Sim(d, s, lane) && DbOk(d')
    requires d'.queue == d.queue && d'.kv == d.kv && d'.log == d.log && d'.proposals == d.proposals
    requires d'.applied == d.applied && d.now <= d'.now
    requires LaneRanks(d'.pushed, d.queue, lane) == LaneRanks(d.pushed, d.queue, lane)
    requires Mark(lane, d'.settings) == Mark(lane, d.settings) && AckDeadline(d'.settings) == AckDeadline(d.settings)
    requires d'.Of(lane) == d.Of(lane)
    ensures Lanes.Step(s, s') && Sim(d', s', lane)
  {
    hide DbOk, Represents, EraSim, ReadersOk, ReadersSim, Saves, Acks, Configs, LaneRanks, AckRanks, MarkSet, Mark,
      Marks, ReplicatedMark, AckDeadline;
    s' := s.(now := d'.now);
    assert Tick(s, s');
    OutsideIsStep(s, s');
    SameReaders(d, d', s, s', lane);
  }

  lemma OtherPushSim(d: Db, d': Db, s: State, lane: Lane) returns (s': State)
    requires Sim(d, s, lane) && PushTask(d, d', Other(lane)) && DbOk(d')
    ensures Lanes.Step(s, s') && Sim(d', s', lane)
  {
    hide Sim, DbOk, LaneKeys, RetryingOk, Decode, SetCheckpoint, Mark, AckDeadline, LaneRanks, InLane, Parse,
      Parseable, Lanes.Step, KeyRanks;
    var other := Other(lane);
    var c := d.Of(other).cursor;
    SimIsOk(d, s, lane);
    OfOk(d, other);
    MarkIsCheckpoint(d, lane);
    KeyRanksTail(c.view, c.keys, d.queue, other);
    var t := Decode(c.view[c.keys[0]]).task;
    OtherIsNotInLane(t, d.queue, lane);
    MarkAfter(lane, other, d.settings, t);
    LaneRanksConcat(d.pushed, [t], d.queue, lane);
    OneRank(t, d.queue, lane);
    OtherOf(d.(settings := SetCheckpoint(other, d.settings, t), pushed := d.pushed + [t]), lane,
            d.Of(other).(cursor := Reading(c.view, c.keys[1..]),
                         delivered := d.Of(other).delivered + [Delivered(t, d.now)]));
    s' := Unseen(d, d', s, lane);
  }

  lemma SimIsOk(d: Db, s: State, lane: Lane)
    requires Sim(d, s, lane)
    ensures DbOk(d)
  {
    hide DbOk;
  }

  lemma OtherPushAgainSim(d: Db, d': Db, s: State, lane: Lane, t: Task, at: int) returns (s': State)
    requires Sim(d, s, lane) && PushAgain(d, d', Other(lane), t, at) && DbOk(d')
    ensures Lanes.Step(s, s') && Sim(d', s', lane)
  {
    hide Sim, DbOk, LaneKeys, CursorOk, Decode, Mark, AckDeadline, LaneRanks, InLane, Parse, Lanes.Step, ShouldRetry,
      KeyRanks;
    var other := Other(lane);
    var r := d.Of(other).retrying;
    SimIsOk(d, s, lane);
    OfOk(d, other);
    KeyRanksTail(r.view, r.keys, d.queue, other);
    OtherIsNotInLane(t, d.queue, lane);
    LaneRanksConcat(d.pushed, [t], d.queue, lane);
    OneRank(t, d.queue, lane);
    OtherOf(d.(now := d'.now, pushed := d.pushed + [t]), lane,
            d.Of(other).(retrying := r.(keys := r.keys[1..], taken := r.taken + [t.(lastRetry := Some(d'.now))]),
                         redelivered := d.Of(other).redelivered
                                        + [Redelivered(t, at, r.deadline, TimesApplied(d.applied, t))]));
    s' := Unseen(d, d', s, lane);
  }

  lemma {:induction false} OtherTasks(tasks: seq<Task>, queue: Bytes, lane: Lane)
    requires AllStorable(tasks) && AllInLane(tasks, queue, Other(lane))
    ensures LaneTasks(tasks, queue, lane) == map[]
  {
    hide Parse, InLane, Storable;
    if tasks != [] {
      var rest, last := tasks[..|tasks| - 1], tasks[|tasks| - 1];
      assert last in tasks && forall t :: t in rest ==> t in tasks;
      OtherTasks(rest, queue, lane);
      OtherIsNotInLane(last, queue, lane);
    }
  }

  lemma OtherFinishSim(d: Db, d': Db, s: State, lane: Lane) returns (s': State)
    requires Sim(d, s, lane) && FinishRetry(d, d', Other(lane)) && DbOk(d')
    ensures Lanes.Step(s, s') && Sim(d', s', lane)
  {
    hide DbOk, Represents, EraSim, Saves, Acks, Configs, LaneKeys, CursorOk, CursorSim, Mark, LaneRanks, AckRanks,
      Marks, MarkSet, KeyRanks, ViewSim, AckDeadline, LaneTasks, Parse, AllInLane, Storable, SavePuts, Replicated,
      ReadersSim, Lanes.Step;
    var other := Other(lane);
    var r := d.Of(other);
    var taken := r.retrying.taken;
    OfOk(d, other);
    OtherTasks(taken, d.queue, lane);
    SaveAllIsLaneSave(d.kv, d.queue, lane, s.store, taken, false);
    SaveKeepsReplicated(d.kv, taken, false, d.queue);
    PutNone(s.store);
    OtherOf(d, lane, r.(retrying := Resting));
    OtherOf(d.(kv := d.kv + SavePuts(taken, false)), lane, r.(active := false, retrying := Resting));
    s' := s;
    Stutters(s);
    SameReaders(d, d', s, s', lane);
  }

  lemma OtherQuietSim(d: Db, d': Db, s: State, lane: Lane, r: LaneReaders) returns (s': State)
    requires Sim(d, s, lane) && DbOk(d') && d' == d.With(Other(lane), r)
    ensures Lanes.Step(s, s') && Sim(d', s', lane)
  {
    hide Sim, DbOk, Lanes.Step, Mark, AckDeadline, LaneRanks;
    OtherOf(d, lane, r);
    s' := Unseen(d, d', s, lane);
  }

  lemma OtherCursorSim(d: Db, d': Db, s: State, lane: Lane) returns (s': State)
    requires Sim(d, s, lane) && CursorStep(d, d', Other(lane)) && DbOk(d')
    ensures Lanes.Step(s, s') && Sim(d', s', lane)
  {
    hide Sim, DbOk, PushTask, UndeliveredQuery, Parseable, Window, Lanes.Step, Db.With, Db.Of;
    var other := Other(lane);
    var r := d.Of(other);
    if PushTask(d, d', other) {
      s' := OtherPushSim(d, d', s, lane);
    } else if AskRange(d, d', other) {
      s' := OtherQuietSim(d, d', s, lane, r.(cursor := Ranged(UndeliveredQuery(other, d.settings, d.now))));
    } else if OpenCursor(d, d', other) {
      s' := OtherQuietSim(d, d', s, lane, r.(cursor := Reading(d.kv, Window(d.kv, r.cursor.range))));
    } else {
      s' := OtherQuietSim(d, d', s, lane, r.(cursor := Unopened));
    }
  }

  lemma OtherRetryFrameSim(d: Db, d': Db, s: State, lane: Lane) returns (s': State)
    requires Sim(d, s, lane) && RetryFrameOf(d, d', Other(lane)) && DbOk(d')
    ensures Lanes.Step(s, s') && Sim(d', s', lane)
  {
    hide Sim, DbOk, FinishRetry, DeliveredQuery, Parseable, Window, Lanes.Step, Db.With, Db.Of, MayStart, AckDeadline;
    var other := Other(lane);
    var r := d.Of(other);
    var m := r.retrying;
    if FinishRetry(d, d', other) {
      s' := OtherFinishSim(d, d', s, lane);
    } else if BeginRetry(d, d', other) {
      s' := OtherQuietSim(d, d', s, lane, r.(lastRun := Some(d.now), active := true, retrying := Begun));
    } else if TakeWatermark(d, d', other) {
      var deadline := AckDeadline(d.settings);
      s' := OtherQuietSim(d, d', s, lane, r.(retrying := Watermarked(d.now - deadline, deadline)));
    } else if AskRetryRange(d, d', other) {
      var end, q := d.now - AckDeadline(d.settings), DeliveredQuery(other, d.settings, d.now);
      s' := OtherQuietSim(d, d', s, lane, r.(retrying := RetryRanged(m.watermark, m.deadline, end, q)));
    } else if OpenRetry(d, d', other) {
      var keys := Window(d.kv, m.range);
      s' := OtherQuietSim(d, d', s, lane, r.(retrying := Rereading(m.watermark, m.deadline, m.end, d.kv, keys, [])));
    } else {
      s' := OtherQuietSim(d, d', s, lane, r.(retrying := Resting));
    }
  }

  lemma OtherLaneSim(d: Db, d': Db, s: State, lane: Lane) returns (s': State)
    requires Sim(d, s, lane) && LaneStep(d, d', Other(lane)) && DbOk(d')
    ensures Lanes.Step(s, s') && Sim(d', s', lane)
  {
    hide Sim, DbOk, CursorStep, RetryFrameOf, PushAgain, Lanes.Step, Db.With, Db.Of, ShouldRetry;
    var other := Other(lane);
    if CursorStep(d, d', other) {
      s' := OtherCursorSim(d, d', s, lane);
    } else if RetryFrameOf(d, d', other) {
      s' := OtherRetryFrameSim(d, d', s, lane);
    } else if t, at :| PushAgain(d, d', other, t, at) {
      s' := OtherPushAgainSim(d, d', s, lane, t, at);
    } else {
      var t :| PassBy(d, d', other, t);
      var r := d.Of(other).retrying;
      s' := OtherQuietSim(d, d', s, lane, d.Of(other).(retrying := r.(keys := r.keys[1..])));
    }
  }

  // ---------- Restarts ----------

  /** The lane's part of the store after a replay. */
  lemma ReplayedStore(d: Db, part: seq<Command>, s: State, lane: Lane)
    requires DbOk(d) && Represents(d.kv, d.queue, lane, s.store) && Readable(part)
    ensures AllStorable(Saves(part))
    ensures Represents(Replayed(d.kv, part), d.queue, lane, s.store + LaneTasks(Saves(part), d.queue, lane))
  {
    hide Parse, DbOk, Represents, Saves, Configs, GoodKv, WellFormed, Apart, Stored, SavePuts, TaskPuts, SaveConfigs,
      LaneTasks, Storable, Replicated;
    SettingsAreOk(d);
    SavesAreStorable(part);
    ConfigsKeepStore(d.kv, Configs(part), d.queue);
    SameLaneView(d.kv, SaveConfigs(d.kv, Configs(part)), d.queue, lane, s.store);
    TaskPutsAreSaves(Saves(part));
    SaveAllIsLaneSave(SaveConfigs(d.kv, Configs(part)), d.queue, lane, s.store, Saves(part), false);
  }

  /** The settings found after a replay: those found before, or some of the log. */
  lemma ReplayedSettings(d: Db, part: seq<Command>)
    requires DbOk(d) && Readable(part)
    ensures
      var found := Replicated(Replayed(d.kv, part), d.queue);
      found == Replicated(d.kv, d.queue) || exists c :: c in Configs(part) && found == Some(c)
  {
    hide Parse, DbOk, Saves, Configs, GoodKv, WellFormed, Apart, Stored, SavePuts, TaskPuts, SaveConfigs, Storable,
      Replicated;
    SettingsAreOk(d);
    SavesAreStorable(part);
    ConfigsKeepStore(d.kv, Configs(part), d.queue);
    TaskPutsAreSaves(Saves(part));
    SaveKeepsReplicated(SaveConfigs(d.kv, Configs(part)), Saves(part), false, d.queue);
  }

  /** Tasks of the log come back as they were made. */
  lemma LoggedAreSane(d: Db, part: seq<Command>, lane: Lane, n: nat)
    requires (forall t :: t in Saves(part) ==> t in Saves(d.log) && LoggedOk(d.queue, t)) && AllStorable(Saves(part))
    requires n in LaneTasks(Saves(part), d.queue, lane)
    ensures n in LaneRanks(Saves(d.log), d.queue, lane)
    ensures
      var info := LaneTasks(Saves(part), d.queue, lane)[n];
      Sane(info) && info.lastRetry.None?
  {
    hide Parse, Rank, Saves, Acks, AckKeys, NameApart, LaneTasks, Sane, Storable, Timed;
    LaneTasksAt(Saves(part), d.queue, lane, n);
    var t :| && t in Saves(part) && InLane(t, d.queue, lane) && Rank(t) == n
             && LaneTasks(Saves(part), d.queue, lane)[n] == InfoOf(t);
    assert LoggedOk(d.queue, t);
  }

  lemma LogIsOk(d: Db)
    requires DbOk(d)
    ensures LogOk(d)
  {
    hide StoreOk, LogOk, SettingsOk, ReadersOk;
  }

  lemma InMarkSet(lane: Lane, configs: seq<QueueConfig>, c: QueueConfig)
    requires c in configs
    ensures Mark(lane, c) in MarkSet(lane, configs)
  {
    hide Mark;
  }

  lemma LoadedMark(kv: KV, queue: Bytes, lane: Lane)
    ensures Mark(lane, Found(kv, queue))
            == if ReplicatedMark(lane, kv, queue).Some? then ReplicatedMark(lane, kv, queue).value else Default(lane)
  {
    hide Parse, Checkpoint, DefaultConfig, Replicated;
    NewQueueStartsAtDefaults(queue, lane);
  }

  /** A key is applied again exactly when the rank is. */
  lemma AppliedRank(tasks: seq<Task>, t: Task, queue: Bytes, lane: Lane)
    requires InLane(t, queue, lane)
    ensures TaskKey(t) in KeysOf(tasks) <==> Rank(t) in LaneRanks(tasks, queue, lane)
  {
    hide Parse, Rank, TaskKey;
    forall u | u in tasks && Storable(u)
      ensures TaskKey(u) == TaskKey(t) <==> InLane(u, queue, lane) && Rank(u) == Rank(t)
    {
      SameRankSameKey(t, u, queue, lane);
    }
  }

  lemma AppliedAgainAt(applied: map<Bytes, nat>, keys: set<Bytes>, t: Task)
    requires Storable(t)
    ensures TimesApplied(AppliedAgain(applied, keys), t)
            == TimesApplied(applied, t) + if TaskKey(t) in keys then 1 else 0
  {
    hide Parse, TaskKey;
  }

  lemma BumpedAt(eras: map<nat, nat>, ns: set<nat>, n: nat)
    ensures Era(Bumped(eras, ns), n) == Era(eras, n) + if n in ns then 1 else 0
  {
  }

  lemma ReplayedEras(applied: map<Bytes, nat>, eras: map<nat, nat>, tasks: seq<Task>, queue: Bytes, lane: Lane)
    requires EraSim(applied, eras, queue, lane)
    ensures EraSim(AppliedAgain(applied, KeysOf(tasks)), Bumped(eras, LaneRanks(tasks, queue, lane)), queue, lane)
  {
    hide Parse, Rank, TaskKey, AppliedAgain, Bumped, Era, TimesApplied, KeysOf, LaneRanks;
    forall t | InLane(t, queue, lane)
      ensures Era(Bumped(eras, LaneRanks(tasks, queue, lane)), Rank(t))
              == TimesApplied(AppliedAgain(applied, KeysOf(tasks)), t)
    {
      AppliedRank(tasks, t, queue, lane);
      AppliedAgainAt(applied, KeysOf(tasks), t);
      BumpedAt(eras, LaneRanks(tasks, queue, lane), Rank(t));
    }
  }

  lemma ReplaySim(d: Db, d': Db, s: State, n: nat, lane: Lane) returns (s': State)
    requires Sim(d, s, lane) && ReplayBatch(d, d', n) && DbOk(d')
    ensures Lanes.Step(s, s') && Sim(d', s', lane)
  {
    hide Parse, DbOk, Represents, EraSim, Saves, Acks, Configs, LaneRanks, AckRanks, MarkSet, Mark, Marks, Replayed,
      Sane, Storable, Replicated, LaneTasks, LoggedOk, ReadersOk, ReadersSim, AppliedAgain, Bumped, KeysOf, Lanes.Step,
      AckKeys, Readable;
    var part := d.replaying[..n];
    LogIsOk(d);
    ReplayedPart(d, n);
    ReplayedStore(d, part, s, lane);
    ReplayedSettings(d, part);
    var tasks := LaneTasks(Saves(part), d.queue, lane);
    LaneTasksKeys(Saves(part), d.queue, lane);
    ReplayedEras(d.applied, s.eras, Saves(part), d.queue, lane);
    forall m | m in tasks ensures m in s.saved && Sane(tasks[m]) && tasks[m].lastRetry.None? {
      LoggedAreSane(d, part, lane, m);
    }
    var found := Replicated(d'.kv, d.queue);
    if found != Replicated(d.kv, d.queue) {
      var c :| c in Configs(part) && found == Some(c);
      InMarkSet(lane, Configs(d.log), c);
    }
    s' := s.(store := s.store + tasks, rep := ReplicatedMark(lane, d'.kv, d.queue), eras := Bumped(s.eras, tasks.Keys));
    assert Replay(s, s', tasks);
    LaneTheorems.ReplaysAreSteps(s, s', tasks);
    SameReaders(d, d', s, s', lane);
  }

  /** A feed that is opened, now or after a restart, is the lane's reload. */
  lemma OpenFeedSim(d: Db, d': Db, s: State, lane: Lane) returns (s': State)
    requires Sim(d, s, lane) && DbOk(d') && (OpenFeed(d, d') || exists from :: Restart(d, d', from))
    ensures Lanes.Step(s, s') && Sim(d', s', lane)
  {
    hide Parse, DbOk, Represents, EraSim, Saves, Acks, Configs, LaneRanks, AckRanks, MarkSet, Mark, Marks,
      ReplicatedMark, Found, FRESH_READERS, AckDeadline, Lanes.Step, ReadersOk, ReadersSim;
    LoadedMark(d.kv, d.queue, lane);
    var mem := if s.rep.Some? then s.rep.value else Default(lane);
    s' := s.(deadline := AckDeadline(d'.settings), mem := mem, history := s.history + [mem], pass := NoPass,
             order := [], lastRun := None, active := false, stage := Off, retries := []);
    assert Reload(s, s');
    LaneTheorems.ReloadsAreSteps(s, s');
    FreshSim(d', s', lane);
  }

  lemma FreshSim(d: Db, s: State, lane: Lane)
    requires d.fifo == FRESH_READERS && d.scheduled == FRESH_READERS
    requires s.pass == NoPass && s.lastRun == None && !s.active && s.stage == Off && s.order == [] && s.retries == []
    ensures ReadersOk(d.Of(lane), d.queue, lane) && ReadersSim(d.Of(lane), s, d.queue, lane)
  {
  }

  // ---------- Whole runs ----------

  lemma DbStepSim(d: Db, d': Db, s: State, lane: Lane) returns (s': State)
    requires Sim(d, s, lane) && DbStep(d, d')
    ensures Lanes.Step(s, s') && Sim(d', s', lane)
  {
    hide Sim, DbOk, StoreStep, SettingsStep, LaneStep, OpenFeed, Restart, ReplayBatch, Lanes.Step;
    SimIsOk(d, s, lane);
    DbStepOk(d, d');
    if StoreStep(d, d') {
      s' := StoreStepSim(d, d', s, lane);
    } else if SettingsStep(d, d') {
      s' := SettingsStepSim(d, d', s, lane);
    } else if LaneStep(d, d', lane) {
      s' := OwnLaneSim(d, d', s, lane);
    } else if LaneStep(d, d', Other(lane)) {
      s' := OtherLaneSim(d, d', s, lane);
    } else if n :| ReplayBatch(d, d', n) {
      s' := ReplaySim(d, d', s, n, lane);
    } else {
      s' := OpenFeedSim(d, d', s, lane);
    }
  }

  lemma OwnLaneSim(d: Db, d': Db, s: State, lane: Lane) returns (s': State)
    requires Sim(d, s, lane) && LaneStep(d, d', lane) && DbOk(d')
    ensures Lanes.Step(s, s') && Sim(d', s', lane)
  {
    hide Sim, DbOk, CursorStep, RetryFrameOf, RetryScanOf, Lanes.Step;
    if CursorStep(d, d', lane) {
      s' := CursorStepSim(d, d', s, lane);
    } else {
      s' := RetryStepSim(d, d', s, lane);
    }
  }

  lemma NewQueueSim(d: Db, lane: Lane) returns (s: State)
    requires NewQueue(d)
    ensures Sim(d, s, lane) && Lanes.Start(s)
  {
    hide Parse, DbOk, WellFormed, Apart, Stored, Replicated, Checkpoint, DefaultConfig, ReadersOk, ReadersSim;
    NewQueueOk(d);
    NewQueueStartsAtDefaults(d.queue, lane);
    s := State(lane, d.now, AckDeadline(d.settings), map[], {}, {}, {}, Default(lane), None, [], {}, [Default(lane)],
               NoPass, [], [], None, false, Off, [], map[]);
    FreshSim(d, s, lane);
    assert Represents(d.kv, d.queue, lane, map[]) by { NothingStored(d, lane); }
  }

  lemma NothingStored(d: Db, lane: Lane)
    requires NewQueue(d)
    ensures Represents(d.kv, d.queue, lane, map[])
  {
    hide Parse, WellFormed, Apart, Stored, Rank;
  }

  ghost predicate SimRun(dbs: seq<Db>, states: seq<State>, lane: Lane) {
    |states| == |dbs| && forall i :: 0 <= i < |dbs| ==> Sim(dbs[i], states[i], lane)
  }

  /** Every run of the database is, step by step, a run of each of its lanes. */
  lemma {:induction false} DbRunIsLaneRun(dbs: seq<Db>, lane: Lane) returns (states: seq<State>)
    requires DbRun(dbs)
    ensures Lanes.Run(states) && SimRun(dbs, states, lane)
  {
    hide Sim, DbStep, NewQueue, Lanes.Step, Lanes.Start, LaneTheorems.Inv;
    if |dbs| == 1 {
      var s := NewQueueSim(dbs[0], lane);
      states := [s];
    } else {
      var before := dbs[..|dbs| - 1];
      var rest := DbRunIsLaneRun(before, lane);
      assert DbStep(before[|before| - 1], dbs[|dbs| - 1]);
      var s := DbStepSim(before[|before| - 1], dbs[|dbs| - 1], rest[|rest| - 1], lane);
      LaneTheorems.Extend(rest, s);
      states := rest + [s];
    }
  }
}
