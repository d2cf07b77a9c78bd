/** The delivery protocol of one lane of a queue, FIFO or scheduled, over whole runs
    (feeds/q/undelivered.go, feeds/q/delivered.go, feeds/q/fifo.go, feeds/q/sched.go, storage/syncer.go).

    A task is known by its rank: its index in the FIFO lane, its whole id read as a number in the
    scheduled lane. Saves, acks, flushes, both readers, settings syncs, crashes and the clock
    interleave freely. */
module Lanes {
  import opened ByteStrings
  import opened Ids

  datatype Lane = Fifo | Scheduled

  datatype Info = Info(createdAt: int, lastRetry: Option<int>)

  /** A push by the redelivery reader, with the ack deadline its pass used, and with how often the task
      had been applied again from the log by then. */
  datatype Retry = Retry(rank: nat, at: int, deadline: int, era: nat)

  /** A push by the undelivered reader. */
  datatype Delivery = Delivery(rank: nat, at: int)

  /** A pass of the undelivered reader: the range it has asked for, then what its point-in-time
      iterator still has to give. */
  datatype Pass = NoPass | Asked(lo: nat, hi: nat) | Passing(remaining: seq<nat>)

  /** The stages of a redelivery pass: started; retry watermark read; range end read; iterating over
      a point-in-time view, with the pushed tasks and their new retry stamps collected. */
  datatype Stage =
    | Off
    | Started
    | Marked(watermark: int, deadline: int)
    | Queried(watermark: int, deadline: int, end: int, until: nat)
    | Scanning(
        watermark: int,
        deadline: int,
        end: int,
        view: map<nat, Info>,
        remaining: seq<nat>,
        taken: map<nat, Info>)

  /** `mem` is the checkpoint in memory, `rep` the replicated one, `pending` the proposed ones,
      `committed` every value `rep` has had and `history` every value `mem` has had. `order` and
      `retries` restart with every reload. `eras` counts how often a task was applied again. */
  datatype State = State(
    lane: Lane,
    now: int,
    deadline: int,
    store: map<nat, Info>,
    saved: set<nat>,
    acked: set<nat>,
    pushed: set<nat>,
    mem: nat,
    rep: Option<nat>,
    pending: seq<nat>,
    committed: set<nat>,
    history: seq<nat>,
    pass: Pass,
    order: seq<nat>,
    deliveries: seq<Delivery>,
    lastRun: Option<int>,
    active: bool,
    stage: Stage,
    retries: seq<Retry>,
    eras: map<nat, nat>)

  const REDELIVERY_INTERVAL: int := 30_000_000_000

  // ---------- Ranges ----------

  /** The default checkpoint: the largest index for FIFO, the least id for scheduled tasks. */
  function Default(lane: Lane): nat { if lane.Fifo? then MAX_INDEX else 0 }

  /** Where the undelivered reader starts. The index part wraps around. */
  function From(lane: Lane, checkpoint: nat): nat {
    if checkpoint % TWO64 == MAX_INDEX then checkpoint - MAX_INDEX else checkpoint + 1
  }

  /** Where it ends: everything for FIFO, ids up to the current time for scheduled tasks. */
  function Until(lane: Lane, now: int): nat { if lane.Fifo? then MAX_INDEX else UnixBits(now) * TWO64 }

  /** Where the redelivery reader ends: at the checkpoint for FIFO, at the ids of the moment one ack
      deadline ago for scheduled tasks. It starts at 0. */
  function RetryUntil(lane: Lane, checkpoint: nat, end: int): nat {
    if lane.Fifo? then checkpoint else UnixBits(end) * TWO64
  }

  /** Ranks of real tasks: indexes start at 1 and stay below the largest one. */
  predicate RealRank(lane: Lane, n: nat) {
    if lane.Fifo? then 0 < n < MAX_INDEX else 0 < n % TWO64 < MAX_INDEX
  }

  /** `ranks` is what an iteration over the store visits between the bounds. */
  ghost predicate IsView(ranks: seq<nat>, store: map<nat, Info>, lo: nat, hi: nat) {
    && (forall i, j :: 0 <= i < j < |ranks| ==> ranks[i] < ranks[j])
    && (forall n :: n in ranks <==> n in store && lo <= n <= hi)
  }

  /** retryTask */
  predicate Retryable(info: Info, watermark: int) {
    if info.lastRetry.None? then info.createdAt < watermark else info.lastRetry.value < watermark
  }

  predicate Sane(info: Info) { 0 <= info.createdAt && (info.lastRetry.Some? ==> 0 <= info.lastRetry.value) }

  // ---------- Steps ----------

  predicate Tick(s: State, s': State) {
    s'.now >= s.now && s' == s.(now := s'.now)
  }

  /** A batch of new tasks. */
  predicate Save(s: State, s': State, tasks: map<nat, Info>) {
    && (forall n :: n in tasks ==> && n !in s.saved && RealRank(s.lane, n) && Sane(tasks[n])
                                   && tasks[n].lastRetry.None?)
    && s' == s.(store := s.store + tasks, saved := s.saved + tasks.Keys)
  }

  predicate Ack(s: State, s': State, ns: set<nat>) { s' == s.(acked := s.acked + ns) }

  predicate Flush(s: State, s': State, gone: set<nat>) {
    gone <= s.acked && s' == s.(store := s.store - gone)
  }

  predicate SetDeadline(s: State, s': State) {
    !s.stage.Marked? && s' == s.(deadline := s'.deadline)
  }

  /** The query reads the checkpoint and the clock ... */
  predicate AskPass(s: State, s': State) {
    s.pass.NoPass? && s' == s.(pass := Asked(From(s.lane, s.mem), Until(s.lane, s.now)))
  }

  /** ... and then the iterator takes its view. */
  ghost predicate OpenPass(s: State, s': State) {
    && s.pass.Asked? && s'.pass.Passing?
    && IsView(s'.pass.remaining, s.store, s.pass.lo, s.pass.hi)
    && s' == s.(pass := s'.pass)
  }

  ghost predicate BeginPass(s: State, s': State) { AskPass(s, s') || OpenPass(s, s') }

  /** Push the next task, then move the checkpoint to it. */
  predicate PushNext(s: State, s': State) {
    && s.pass.Passing? && s.pass.remaining != []
    && var n := s.pass.remaining[0];
       s' == s.(pushed := s.pushed + {n}, mem := n, history := s.history + [n], order := s.order + [n],
                deliveries := s.deliveries + [Delivery(n, s.now)], pass := Passing(s.pass.remaining[1..]))
  }

  /** The iterator is exhausted, or the feed is closing. */
  predicate EndPass(s: State, s': State) { s' == s.(pass := NoPass) }

  predicate Propose(s: State, s': State) { s' == s.(pending := s.pending + [s.mem]) }

  predicate Commit(s: State, s': State) {
    && s.pending != []
    && s' == s.(rep := Some(s.pending[0]), pending := s.pending[1..], committed := s.committed + {s.pending[0]})
  }

  predicate Drop(s: State, s': State) { s.pending != [] && s' == s.(pending := s.pending[1..]) }

  function Era(eras: map<nat, nat>, n: nat): nat { if n in eras then eras[n] else 0 }

  function Bumped(eras: map<nat, nat>, ns: set<nat>): map<nat, nat> {
    map n | n in eras.Keys + ns :: Era(eras, n) + if n in ns then 1 else 0
  }

  /** A part of the log is applied again after a restart, whether or not a feed is running: its tasks come
      back as they were made, without retry stamps, and the replicated checkpoint may become any one
      that was committed before. */
  predicate Replay(s: State, s': State, tasks: map<nat, Info>) {
    && tasks.Keys <= s.saved && (forall n :: n in tasks ==> Sane(tasks[n]) && tasks[n].lastRetry.None?)
    && (s'.rep == s.rep || (s'.rep.Some? && s'.rep.value in s.committed))
    && s' == s.(store := s.store + tasks, rep := s'.rep, eras := Bumped(s.eras, tasks.Keys))
  }

  /** A feed starts anew, from the replicated checkpoint. */
  predicate Reload(s: State, s': State) {
    var mem := if s.rep.Some? then s.rep.value else Default(s.lane);
    s' == s.(deadline := s'.deadline, mem := mem, history := s.history + [mem], pass := NoPass, order := [],
             lastRun := None, active := false, stage := Off, retries := [])
  }

  /** Ready, then Read: the flag stays up until a pass has saved something. */
  predicate RetryStart(s: State, s': State) {
    && !s.active && (s.lastRun.None? || s.now - s.lastRun.value > REDELIVERY_INTERVAL)
    && s' == s.(lastRun := Some(s.now), active := true, stage := Started)
  }

  predicate RetryMark(s: State, s': State) {
    && s.stage.Started?
    && s' == s.(stage := Marked(s.now - s.deadline, s.deadline))
  }

  predicate RetryQuery(s: State, s': State) {
    && s.stage.Marked?
    && var end := s.now - s.deadline;
       s' == s.(stage := Queried(s.stage.watermark, s.stage.deadline, end, RetryUntil(s.lane, s.mem, end)))
  }

  ghost predicate RetryOpen(s: State, s': State) {
    && s.stage.Queried? && s'.stage.Scanning?
    && IsView(s'.stage.remaining, s.store, 0, s.stage.until)
    && s'.stage == Scanning(s.stage.watermark, s.stage.deadline, s.stage.end, s.store, s'.stage.remaining, map[])
    && s' == s.(stage := s'.stage)
  }

  predicate RetrySkip(s: State, s': State) {
    && s.stage.Scanning? && s.stage.remaining != []
    && s.stage.remaining[0] in s.stage.view
    && !Retryable(s.stage.view[s.stage.remaining[0]], s.stage.watermark)
    && s' == s.(stage := s.stage.(remaining := s.stage.remaining[1..]))
  }

  /** Push at time `at`; the retry stamp is read from the clock afterwards. */
  predicate RetryPush(s: State, s': State, at: int) {
    && s.stage.Scanning? && s.stage.remaining != [] && s.now <= at <= s'.now
    && var n := s.stage.remaining[0];
       && n in s.stage.view && Retryable(s.stage.view[n], s.stage.watermark)
       && s' == s.(now := s'.now, pushed := s.pushed + {n},
                   retries := s.retries + [Retry(n, at, s.stage.deadline, Era(s.eras, n))],
                   stage := s.stage.(remaining := s.stage.remaining[1..],
                                     taken := s.stage.taken[n := s.stage.view[n].(lastRetry := Some(s'.now))]))
  }

  /** An iterator or database error: the reader stays active and so never runs again. */
  predicate RetryFail(s: State, s': State) { !s.stage.Off? && s' == s.(stage := Off) }

  /** The pass is over, whether exhausted or cut short by a closing feed: the stamped tasks are
      written back over whatever the store holds by now. A pass that pushed nothing leaves the reader
      active. */
  predicate RetryFinish(s: State, s': State) {
    && s.stage.Scanning?
    && s' == if s.stage.taken == map[] then s.(stage := Off)
             else s.(store := s.store + s.stage.taken, active := false, stage := Off)
  }

  /** Steps around the store and the clock. */
  ghost predicate OutsideStep(s: State, s': State) {
    Tick(s, s') || SetDeadline(s, s') || (exists ns :: Ack(s, s', ns)) || (exists gone :: Flush(s, s', gone))
  }

  /** Steps of the settings syncer. */
  predicate SyncStep(s: State, s': State) { Propose(s, s') || Commit(s, s') || Drop(s, s') }

  /** Steps of the redelivery reader before and after its scan. */
  ghost predicate RetryFrameStep(s: State, s': State) {
    RetryStart(s, s') || RetryMark(s, s') || RetryQuery(s, s') || RetryOpen(s, s') || RetryFail(s, s')
  }

  /** Steps of its scan. */
  ghost predicate RetryScanStep(s: State, s': State) {
    RetrySkip(s, s') || (exists at :: RetryPush(s, s', at)) || RetryFinish(s, s')
  }

  ghost predicate Step(s: State, s': State) {
    || OutsideStep(s, s')
    || (exists tasks :: Save(s, s', tasks))
    || BeginPass(s, s') || PushNext(s, s') || EndPass(s, s')
    || SyncStep(s, s')
    || (exists tasks :: Replay(s, s', tasks))
    || Reload(s, s')
    || RetryFrameStep(s, s')
    || RetryScanStep(s, s')
  }

  /** A new queue: nothing saved, no settings stored. */
  predicate Start(s: State) {
    && s.store == map[] && s.saved == {} && s.pushed == {} && 0 <= s.now
    && s.mem == Default(s.lane) && s.rep.None? && s.pending == [] && s.committed == {} && s.history == [s.mem]
    && s.pass.NoPass? && s.order == [] && s.deliveries == []
    && s.lastRun.None? && !s.active && s.stage.Off? && s.retries == [] && s.eras == map[]
  }

  ghost predicate Run(states: seq<State>) {
    && states != [] && Start(states[0])
    && forall i :: 0 <= i < |states| - 1 ==> Step(states[i], states[i + 1])
  }
}
