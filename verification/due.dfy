/** What the passes of a lane come to, said of the stored records, the checkpoints and the clock. */
module DueTasks {
  import opened ByteStrings
  import opened Ids
  import opened Keys
  import opened TaskStores
  import opened Iteration
  import opened Lanes
  import opened LaneProofs
  import opened Readers
  import opened Syncing
  import opened Database
  import opened DatabaseInvariant
  import opened Simulation
  import opened Refinement

  /** A stored task of the lane above the checkpoint, and in the scheduled lane with its time over. */
  predicate Awaits(kv: KV, cfg: QueueConfig, lane: Lane, now: int, t: Task) {
    && Stored(kv, t) && InLane(t, cfg.id, lane) && Below(lane, Mark(lane, cfg), Rank(t))
    && (lane.Scheduled? ==> t.scheduleTime.value < UnixBits(now))
  }

  /** A redelivery pass whose range is asked for `now` covers this task of the lane: up to the checkpoint
      in the FIFO lane, and up to the times one ack deadline ago in the scheduled lane. */
  predicate Covered(cfg: QueueConfig, lane: Lane, now: int, t: Task) {
    && InLane(t, cfg.id, lane)
    && if lane.Fifo? then Rank(t) <= Mark(Fifo, cfg)
       else t.scheduleTime.value < UnixBits(now - 1_000_000_000 * cfg.ackDeadlineSeconds)
  }

  /** When the task was last redelivered, or else made. */
  function LastSent(t: Task): int { if t.lastRetry.Some? then t.lastRetry.value else t.createdAt }

  /** A stored task that is covered, and was last sent more than one ack deadline before the pass. */
  predicate Overdue(kv: KV, cfg: QueueConfig, lane: Lane, marked: int, queried: int, t: Task) {
    Stored(kv, t) && Covered(cfg, lane, queried, t) && LastSent(t) + 1_000_000_000 * cfg.ackDeadlineSeconds < marked
  }

  /** The first tasks of a set by rank, at most `count` of them, and fewer only if there are no more. */
  ghost predicate FirstOf(tasks: seq<Task>, due: iset<Task>, count: nat) {
    && AllStorable(tasks) && AscendingRanks(tasks) && |tasks| <= count && (forall t :: t in tasks ==> t in due)
    && forall t :: t in due && t !in tasks ==>
         Storable(t) && |tasks| == count && forall u :: u in tasks ==> Rank(u) < Rank(t)
  }

  ghost function Awaiting(kv: KV, cfg: QueueConfig, lane: Lane, now: int): iset<Task> {
    iset t | Awaits(kv, cfg, lane, now, t)
  }

  ghost function AllOverdue(kv: KV, cfg: QueueConfig, lane: Lane, marked: int, queried: int): iset<Task> {
    iset t | Overdue(kv, cfg, lane, marked, queried, t)
  }

  lemma PrefixIsFirst(all: seq<Task>, due: iset<Task>, count: nat)
    requires AllStorable(all) && AscendingRanks(all) && forall t :: t in all <==> t in due
    ensures FirstOf(all[..if count < |all| then count else |all|], due, count)
  {
    hide Rank, Storable;
    var n := if count < |all| then count else |all|;
    var tasks := all[..n];
    forall i | 0 <= i < n ensures all[i] in tasks { assert tasks[i] == all[i]; }
    forall t | t in due && t !in tasks
      ensures Storable(t) && n == count && forall u :: u in tasks ==> Rank(u) < Rank(t)
    {
      var i :| 0 <= i < |all| && all[i] == t;
    }
  }

  // ---------- The bounds of the queries ----------

  /** A whole number of index halves is passed exactly when the time half is. */
  lemma Halves(n: nat, bits: nat)
    requires 0 < n % TWO64
    ensures n <= bits * TWO64 <==> n / TWO64 < bits
  {
  }

  lemma StartsAbove(lane: Lane, mark: nat, n: nat)
    requires GoodMark(lane, mark) && RealRank(lane, n) && (lane.Fifo? ==> mark < TWO64)
    ensures From(lane, mark) <= n <==> Below(lane, mark, n)
  {
  }

  lemma ConfigIs(cfg: QueueConfig, queue: Bytes, lane: Lane)
    requires ConfigOk(cfg, queue)
    ensures Parseable(cfg) && cfg.id == queue && Mark(lane, cfg) == Checkpoint(lane, cfg)
    ensures GoodMark(lane, Mark(lane, cfg)) && (lane.Fifo? ==> Mark(lane, cfg) < TWO64)
  {
    hide Parse, Index, Number, GoodMark;
  }

  lemma AwaitsIsInBounds(cfg: QueueConfig, queue: Bytes, lane: Lane, now: int, t: Task)
    requires ConfigOk(cfg, queue) && InLane(t, queue, lane) && Timed(t)
    ensures Parseable(cfg) && LaneRange(UndeliveredQuery(lane, cfg, now), queue, lane)
    ensures InBounds(t, UndeliveredQuery(lane, cfg, now)) <==>
            Below(lane, Mark(lane, cfg), Rank(t)) && (lane.Scheduled? ==> t.scheduleTime.value < UnixBits(now))
  {
    hide Parse, Rank, UndeliveredQuery, ConfigOk, Mark, Checkpoint, UnixBits, From, Number, Index, Below, Parseable;
    ConfigIs(cfg, queue, lane);
    QueryBounds(lane, cfg, now);
    QueriesAreLane(lane, cfg, now);
    StartsAbove(lane, Mark(lane, cfg), Rank(t));
    if lane.Scheduled? { Halves(Rank(t), UnixBits(now)); }
  }

  lemma CoveredIsInBounds(cfg: QueueConfig, queue: Bytes, lane: Lane, now: int, t: Task)
    requires ConfigOk(cfg, queue) && InLane(t, queue, lane) && Timed(t)
    ensures Parseable(cfg) && LaneRange(DeliveredQuery(lane, cfg, now), queue, lane)
    ensures InBounds(t, DeliveredQuery(lane, cfg, now)) <==> Covered(cfg, lane, now, t)
  {
    hide Parse, Rank, DeliveredQuery, ConfigOk, Mark, Checkpoint, UnixBits, Number, Index, Parseable;
    ConfigIs(cfg, queue, lane);
    QueryBounds(lane, cfg, now);
    QueriesAreLane(lane, cfg, now);
    if lane.Scheduled? { Halves(Rank(t), UnixBits(now - 1_000_000_000 * cfg.ackDeadlineSeconds)); }
  }

  /** The keys a redelivery pass opens with are those of the tasks it covers. */
  lemma WindowHolds(kv: KV, cfg: QueueConfig, queue: Bytes, lane: Lane, now: int, t: Task)
    requires ConfigOk(cfg, queue) && InLane(t, queue, lane) && Timed(t) && TaskKey(t) in kv
    ensures Parseable(cfg)
    ensures TaskKey(t) in Window(kv, DeliveredQuery(lane, cfg, now)) <==> Covered(cfg, lane, now, t)
  {
    hide Parse, TaskKey, Rank, DeliveredQuery, ConfigOk, Less, TaskRange.Covers, Covered, Timed, InBounds, Parseable;
    CoveredIsInBounds(cfg, queue, lane, now, t);
    var q := DeliveredQuery(lane, cfg, now);
    if lane.Scheduled? {
      CoversSched(t, q);
    } else {
      CoversFifo(t, q);
    }
  }

  // ---------- What the iterators yield ----------

  lemma TimedInStore(kv: KV, queue: Bytes, t: Task)
    requires GoodKv(kv, queue) && Stored(kv, t) && t.queue == queue
    ensures Timed(t)
  {
    hide Parse, WellFormed, Apart, Timed, TaskKey;
  }

  /** The iterator of the undelivered reader yields exactly the tasks that await, in order. */
  lemma YieldsAwaiting(kv: KV, cfg: QueueConfig, queue: Bytes, lane: Lane, now: int)
    requires GoodKv(kv, queue) && ConfigOk(cfg, queue)
    ensures Parseable(cfg)
    ensures
      var all := Yield(kv, Window(kv, UndeliveredQuery(lane, cfg, now)));
      AllStorable(all) && AscendingRanks(all) && forall t :: t in all <==> t in Awaiting(kv, cfg, lane, now)
  {
    hide Parse, Rank, UndeliveredQuery, ConfigOk, Mark, UnixBits, Below, Parseable, Yield, Window, Visited, WellFormed,
      Apart, TimesOk, InBounds, Timed, Stored;
    ConfigIs(cfg, queue, lane);
    var q := UndeliveredQuery(lane, cfg, now);
    QueriesAreLane(lane, cfg, now);
    YieldIsVisited(kv, q);
    IterationRefinesFilterAndSort(kv, q);
    forall t | Stored(kv, t) && InLane(t, queue, lane)
      ensures InBounds(t, q) <==> Awaits(kv, cfg, lane, now, t)
    {
      TimedInStore(kv, queue, t);
      AwaitsIsInBounds(cfg, queue, lane, now, t);
    }
  }

  /** The iterator of the redelivery reader yields exactly the stored tasks that are covered, in order. */
  lemma YieldsCovered(kv: KV, cfg: QueueConfig, queue: Bytes, lane: Lane, now: int)
    requires GoodKv(kv, queue) && ConfigOk(cfg, queue)
    ensures Parseable(cfg)
    ensures
      var all := Yield(kv, Window(kv, DeliveredQuery(lane, cfg, now)));
      AllStorable(all) && AscendingRanks(all) && forall t :: t in all <==> Stored(kv, t) && Covered(cfg, lane, now, t)
  {
    hide Parse, Rank, DeliveredQuery, ConfigOk, Parseable, Yield, Window, Visited, WellFormed, Apart, TimesOk,
      InBounds, Timed, Stored, Mark, UnixBits;
    ConfigIs(cfg, queue, lane);
    var q := DeliveredQuery(lane, cfg, now);
    QueriesAreLane(lane, cfg, now);
    YieldIsVisited(kv, q);
    IterationRefinesFilterAndSort(kv, q);
    forall t | Stored(kv, t) && InLane(t, queue, lane) ensures InBounds(t, q) <==> Covered(cfg, lane, now, t) {
      TimedInStore(kv, queue, t);
      CoveredIsInBounds(cfg, queue, lane, now, t);
    }
  }

  lemma {:induction false} PickIs(tasks: seq<Task>, watermark: int)
    ensures forall t :: t in Pick(tasks, watermark) <==> t in tasks && LastSent(t) < watermark
  {
    if tasks != [] { PickIs(tasks[..|tasks| - 1], watermark); }
  }

  lemma {:induction false} PickAscends(tasks: seq<Task>, watermark: int)
    requires AllStorable(tasks) && AscendingRanks(tasks)
    ensures AllStorable(Pick(tasks, watermark)) && AscendingRanks(Pick(tasks, watermark))
  {
    hide Rank, Storable, ShouldRetry;
    if tasks != [] {
      var rest, last := tasks[..|tasks| - 1], tasks[|tasks| - 1];
      PickAscends(rest, watermark);
      PickIs(rest, watermark);
      forall t | t in Pick(rest, watermark) ensures Storable(t) && Rank(t) < Rank(last) {
        var i :| 0 <= i < |rest| && rest[i] == t;
        assert tasks[i] == t;
      }
    }
  }

  /** What a scan picks are exactly the overdue tasks, in order. */
  lemma PicksOverdue(kv: KV, cfg: QueueConfig, queue: Bytes, lane: Lane, marked: int, queried: int)
    requires GoodKv(kv, queue) && ConfigOk(cfg, queue)
    ensures Parseable(cfg)
    ensures
      var picks := Pick(Yield(kv, Window(kv, DeliveredQuery(lane, cfg, queried))), marked - AckDeadline(cfg));
      && AllStorable(picks) && AscendingRanks(picks)
      && forall t :: t in picks <==> t in AllOverdue(kv, cfg, lane, marked, queried)
  {
    hide Parse, Rank, DeliveredQuery, ConfigOk, Parseable, Yield, Window, Pick, GoodKv, Covered, Stored, LastSent;
    YieldsCovered(kv, cfg, queue, lane, queried);
    var all := Yield(kv, Window(kv, DeliveredQuery(lane, cfg, queried)));
    PickIs(all, marked - AckDeadline(cfg));
    PickAscends(all, marked - AckDeadline(cfg));
  }
}
