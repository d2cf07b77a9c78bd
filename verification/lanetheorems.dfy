/** The guarantees of the delivery protocol, in every state of every run. */
module LaneTheorems {
  import opened ByteStrings
  import opened Ids
  import opened Lanes
  import opened LaneProofs

  predicate Inv(s: State) {
    && Durable(s) && Tracked(s) && PushesAreSaved(s) && Ordered(s) && RetryInv(s)
    && (s.lane.Scheduled? ==> Timely(s) && RetriesTimely(s))
  }

  lemma StartInv(s: State)
    requires Start(s)
    ensures Inv(s)
  {
  }

  lemma StepKeepsInv(s: State, s': State)
    requires Inv(s) && Step(s, s')
    ensures Inv(s')
  {
    hide Durable, Tracked, PushesAreSaved, Ordered, RetryInv, Timely, RetriesTimely, Step;
    PushesAreSavedStep(s, s');
    DurableStep(s, s');
    TrackedStep(s, s');
    OrderedStep(s, s');
    RetryStep(s, s');
    SameLane(s, s');
    if s.lane.Scheduled? {
      TimelyStep(s, s');
      RetriesTimelyStep(s, s');
    }
  }

  lemma SameLane(s: State, s': State)
    requires Step(s, s')
    ensures s'.lane == s.lane
  {
    hide OutsideStep, BeginPass, SyncStep, Replay, RetryFrameStep, RetryScanStep, Sane, RealRank;
    if OutsideStep(s, s') { OutsideFrame(s, s'); }
    if BeginPass(s, s') { BeginFrame(s, s'); }
    if tasks :| Replay(s, s', tasks) { ReplayFrame(s, s', tasks); }
    if SyncStep(s, s') { SyncFrame(s, s'); }
    if RetryFrameStep(s, s') { RetryFrame(s, s'); }
    if RetryScanStep(s, s') { ScanFrame(s, s'); }
  }

  lemma {:induction false} RunKeepsInv(states: seq<State>)
    requires Run(states)
    ensures Inv(states[|states| - 1])
  {
    hide Inv, Step, Start;
    if |states| == 1 {
      StartInv(states[0]);
    } else {
      var before := states[..|states| - 1];
      assert Step(before[|before| - 1], states[|states| - 1]);
      RunKeepsInv(before);
      StepKeepsInv(before[|before| - 1], states[|states| - 1]);
    }
  }

  // ---------- Which tasks are skipped ----------

  function Last(states: seq<State>): State
    requires states != []
  {
    states[|states| - 1]
  }

  /** A run in which every task is saved in an orderly place. */
  ghost predicate OrderlyRun(states: seq<State>) {
    Run(states) && forall i :: 0 <= i < |states| - 1 ==> OrderlyStep(states[i], states[i + 1])
  }

  /** The task waits, and a checkpoint in memory, replicated or proposed has moved past it. */
  predicate Skipped(s: State, n: nat) {
    && Waiting(s, n)
    && !(&& Below(s.lane, s.mem, n)
         && (s.rep.Some? ==> Below(s.lane, s.rep.value, n))
         && (forall c :: c in s.pending ==> Below(s.lane, c, n)))
  }

  lemma {:induction false} OrderlyRunSkipsNothing(states: seq<State>)
    requires OrderlyRun(states)
    ensures NothingSkipped(Last(states))
  {
    hide Step, Start, OrderlyStep, Inv;
    if |states| == 1 {
      StartSkipsNothing(states[0]);
    } else {
      var before := states[..|states| - 1];
      assert Step(Last(before), Last(states)) && OrderlyStep(Last(before), Last(states));
      OrderlyRunSkipsNothing(before);
      RunKeepsInv(before);
      SkipsNothingStep(Last(before), Last(states));
    }
  }

  lemma StartSkipsNothing(s: State)
    requires Start(s)
    ensures NothingSkipped(s)
  {
  }

  lemma SkipsNothingStep(s: State, s': State)
    requires Inv(s) && NothingSkipped(s) && Step(s, s') && OrderlyStep(s, s')
    ensures NothingSkipped(s')
  {
    hide Durable, Tracked, Ordered, RetryInv, NothingSkipped, OrderlyStep, Timely, RetriesTimely, Step;
    NothingSkippedStep(s, s');
  }

  /** No task is skipped when every task is saved in an orderly place, in either lane. In every state,
      whatever crashes and reloads happened, a task that was saved and neither pushed nor acknowledged
      is still stored and lies strictly above the in-memory checkpoint, the replicated one and every
      proposed one. The next pass reaches it, in the scheduled lane exactly if its time is past when
      the pass asks for its range. */
  lemma NoTaskIsSkipped(states: seq<State>, n: nat)
    requires OrderlyRun(states) && Waiting(Last(states), n)
    ensures
      var s := Last(states);
      && n in s.store && !Skipped(s, n)
      && forall a, b :: AskPass(s, a) && OpenPass(a, b) ==>
           (n in b.pass.remaining <==> s.lane.Fifo? || n / TWO64 < UnixBits(s.now))
  {
    hide Step, Start, RetryInv, StageSane, IsView, OrderlyStep, Below, UnixBits, From;
    RunKeepsInv(states);
    OrderlyRunSkipsNothing(states);
    var s := Last(states);
    forall a, b | AskPass(s, a) && OpenPass(a, b)
      ensures n in b.pass.remaining <==> s.lane.Fifo? || n / TWO64 < UnixBits(s.now)
    {
      AskKeeps(s, a);
      OpenReaches(a, b);
      RangeEnd(s.lane, n, s.now);
    }
  }

  lemma AskKeeps(s: State, a: State)
    requires Inv(s) && NothingSkipped(s) && AskPass(s, a)
    ensures Durable(a) && Tracked(a) && Ordered(a) && NothingSkipped(a) && a.saved == s.saved && a.acked == s.acked
    ensures a.pushed == s.pushed
  {
    hide Below, Timely, RetriesTimely, Step, From, Until, RealRank, Sane;
    assert BeginPass(s, a);
    BeginSkipsNothing(s, a);
  }

  lemma RangeEnd(lane: Lane, n: nat, now: int)
    requires RealRank(lane, n)
    ensures n <= Until(lane, now) <==> lane.Fifo? || n / TWO64 < UnixBits(now)
  {
  }

  /** No FIFO task is skipped when each batch has indexes above all earlier ones. */
  lemma NoFifoTaskIsSkipped(states: seq<State>, n: nat)
    requires Run(states) && Last(states).lane.Fifo? && Waiting(Last(states), n)
    requires forall i :: 0 <= i < |states| - 1 ==> HigherIndexes(states[i], states[i + 1])
    ensures
      var s := Last(states);
      && n in s.store && Below(Fifo, s.mem, n)
      && (s.rep.Some? ==> Below(Fifo, s.rep.value, n))
      && (forall c :: c in s.pending ==> Below(Fifo, c, n))
      && (forall a, b :: AskPass(s, a) && OpenPass(a, b) ==> n in b.pass.remaining)
  {
    hide Step, Start, Below, IsView, HigherIndexes, OrderlyStep, Waiting, Run;
    HigherIsOrderlyRun(states);
    NoTaskIsSkipped(states, n);
  }

  /** The step saves only indexes above all earlier ones. */
  predicate HigherIndexes(s: State, s': State) {
    forall m, n :: m in s.saved && n in s'.saved && n !in s.saved ==> m < n
  }

  lemma HigherIsOrderly(s: State, s': State)
    requires Inv(s) && HigherIndexes(s, s')
    ensures OrderlyStep(s, s')
  {
    hide RetryInv, Timely, RetriesTimely, Durable, RealRank;
    forall n | n in s'.saved && n !in s.saved ensures Orderly(s, n) {
      forall c | c in s.history ensures Below(s.lane, c, n) {}
      assert s.mem in s.history;
    }
  }

  lemma HigherIsOrderlyRun(states: seq<State>)
    requires Run(states) && forall i :: 0 <= i < |states| - 1 ==> HigherIndexes(states[i], states[i + 1])
    ensures OrderlyRun(states)
  {
    hide Step, Start, Inv, HigherIndexes, OrderlyStep;
    forall i | 0 <= i < |states| - 1 ensures OrderlyStep(states[i], states[i + 1]) {
      RunKeepsInv(states[..i + 1]);
      HigherIsOrderly(states[i], states[i + 1]);
    }
  }

  /** A run that goes on from another without saving anything. */
  ghost predicate Continues(more: seq<State>, states: seq<State>) {
    && Run(more) && 0 < |states| <= |more| && more[..|states|] == states
    && forall i :: |states| - 1 <= i < |more| ==> more[i].saved == Last(states).saved
  }

  /** Nothing that can happen before the next save skips a task. */
  ghost predicate NeverSkips(states: seq<State>) {
    forall more, n :: Continues(more, states) ==> !Skipped(Last(more), n)
  }

  lemma ContinuesIsOrderly(more: seq<State>, states: seq<State>)
    requires Continues(more, states) && OrderlyRun(states)
    ensures OrderlyRun(more)
  {
    hide Step, Start, Orderly;
    forall i | 0 <= i < |more| - 1 ensures OrderlyStep(more[i], more[i + 1]) {
      if i < |states| - 1 {
        assert more[i] == more[..|states|][i] && more[i + 1] == more[..|states|][i + 1];
        assert OrderlyStep(states[i], states[i + 1]);
      }
    }
  }

  lemma OrderlyNeverSkips(states: seq<State>)
    requires OrderlyRun(states)
    ensures NeverSkips(states)
  {
    hide Step, Start, OrderlyStep, Run;
    forall more, n | Continues(more, states) ensures more != [] && !Skipped(Last(more), n) {
      ContinuesIsOrderly(more, states);
      if Waiting(Last(more), n) { NoTaskIsSkipped(more, n); }
    }
  }

  /** A disorderly save can be continued to a skipped task: at once when a checkpoint in memory or
      proposed is above it, by a replay and a reload when a replicated one was, and by going on with the running
      pass when that has a later task left. */
  lemma DisorderlySaveSkips(states: seq<State>, s': State, tasks: map<nat, Info>, n: nat) returns (more: seq<State>)
    requires Run(states) && Save(Last(states), s', tasks) && n in tasks && n !in s'.acked && !Orderly(Last(states), n)
    ensures Continues(more, states + [s']) && Skipped(Last(more), n)
  {
    hide Step, Start, Sane, RealRank, Below;
    var s := Last(states);
    RunKeepsInv(states);
    SavesAreSteps(s, s', tasks);
    Extend(states, s');
    more := states + [s'];
    FreshWaits(s, s', tasks, n);
    if AboveCheckpoints(s, n) {
      var r :| r in s.pass.remaining && r >= n;
      more := PushPast(states + [s'], n, r);
    } else if c :| c in s.committed && !Below(s.lane, c, n) {
      more := ReloadPast(states + [s'], n, c);
    }
  }

  lemma SavesAreSteps(s: State, s': State, tasks: map<nat, Info>)
    requires Save(s, s', tasks)
    ensures Step(s, s')
  {
    hide Save;
  }

  lemma FreshWaits(s: State, s': State, tasks: map<nat, Info>, n: nat)
    requires Inv(s) && Save(s, s', tasks) && n in tasks && n !in s'.acked
    ensures Waiting(s', n) && (s.pass.Passing? ==> n !in s.pass.remaining)
  {
    hide Durable, Ordered, RetryInv, Timely, RetriesTimely, Sane, RealRank;
  }

  lemma ReloadPast(states: seq<State>, n: nat, c: nat) returns (more: seq<State>)
    requires Run(states) && Waiting(Last(states), n)
    requires c in Last(states).committed && !Below(Last(states).lane, c, n)
    ensures Continues(more, states) && Skipped(Last(more), n)
  {
    hide Step, Start, RealRank, Below, Sane;
    var s := Last(states);
    var r := s.(rep := Some(c), eras := Bumped(s.eras, {}));
    OldSettings(s, r, c);
    Extend(states, r);
    var t := r.(mem := c, history := r.history + [c], pass := NoPass, order := [], lastRun := None, active := false,
                stage := Off, retries := []);
    assert Reload(r, t);
    ReloadsAreSteps(r, t);
    Extend(states + [r], t);
    more := states + [r] + [t];
  }

  /** A replay comes to settings that were committed before. */
  lemma OldSettings(s: State, r: State, c: nat)
    requires c in s.committed && r == s.(rep := Some(c), eras := Bumped(s.eras, {}))
    ensures Step(s, r)
  {
    hide Bumped;
    var none: map<nat, Info> := map[];
    assert s.store + none == s.store && none.Keys == {};
    assert Replay(s, r, none);
    ReplaysAreSteps(s, r, none);
  }

  lemma ReplaysAreSteps(s: State, s': State, tasks: map<nat, Info>)
    requires Replay(s, s', tasks)
    ensures Step(s, s')
  {
    hide Replay;
  }

  lemma ReloadsAreSteps(s: State, t: State)
    requires Reload(s, t)
    ensures Step(s, t)
  {
    hide Reload;
  }

  lemma {:induction false} PushPast(states: seq<State>, n: nat, r: nat) returns (more: seq<State>)
    requires Run(states) && Waiting(Last(states), n)
    requires Last(states).pass.Passing? && r in Last(states).pass.remaining && n <= r
    requires n !in Last(states).pass.remaining
    ensures Continues(more, states) && Skipped(Last(more), n)
    decreases |Last(states).pass.remaining|
  {
    hide Step, Start, Waiting, Below, RealRank;
    var s := Last(states);
    RunKeepsInv(states);
    var rest := s.pass.remaining;
    var p := rest[0];
    var t := s.(pushed := s.pushed + {p}, mem := p, history := s.history + [p], order := s.order + [p],
                deliveries := s.deliveries + [Delivery(p, s.now)], pass := Passing(rest[1..]));
    assert PushNext(s, t);
    PushesAreSteps(s, t);
    Extend(states, t);
    StillWaits(s, t, n);
    if p == r {
      more := states + [t];
      PastIt(s, r, n);
    } else {
      assert r in rest[1..];
      more := PushPast(states + [t], n, r);
      assert more[..|states|] == more[..|states| + 1][..|states|] == states;
    }
  }

  lemma PushesAreSteps(s: State, t: State)
    requires PushNext(s, t)
    ensures Step(s, t)
  {
    hide PushNext;
  }

  lemma StillWaits(s: State, t: State, n: nat)
    requires Waiting(s, n) && PushNext(s, t) && n !in s.pass.remaining
    ensures Waiting(t, n) && n !in t.pass.remaining
  {
  }

  lemma PastIt(s: State, r: nat, n: nat)
    requires Inv(s) && s.pass.Passing? && r in s.pass.remaining && n <= r
    ensures !Below(s.lane, r, n)
  {
    hide RetryInv, Ordered, Timely, RetriesTimely, StageSane, Sane;
    assert RealRank(s.lane, r);
  }

  /** The exact condition, in either lane: after an orderly run, whatever happens up to the next save
      leaves no task skipped if and only if this save is orderly. */
  lemma SkipsExactly(states: seq<State>, s': State, tasks: map<nat, Info>)
    requires OrderlyRun(states) && Save(Last(states), s', tasks)
    ensures Run(states + [s'])
    ensures NeverSkips(states + [s']) <==> OrderlyStep(Last(states), s')
  {
    hide Step, Start, Orderly, Continues, Skipped, Sane, RealRank;
    var s := Last(states);
    SavesAreSteps(s, s', tasks);
    Extend(states, s');
    if OrderlyStep(s, s') {
      ExtendOrderly(states, s');
      OrderlyNeverSkips(states + [s']);
    } else {
      var n :| n in s'.saved && n !in s.saved && n !in s.acked && !Orderly(s, n);
      var more := DisorderlySaveSkips(states, s', tasks, n);
    }
  }

  lemma ExtendOrderly(states: seq<State>, s: State)
    requires OrderlyRun(states) && Run(states + [s]) && OrderlyStep(Last(states), s)
    ensures OrderlyRun(states + [s])
  {
    hide Step, Start, Run, OrderlyStep;
    var more := states + [s];
    forall i | 0 <= i < |more| - 1 ensures OrderlyStep(more[i], more[i + 1]) {
      if i < |states| - 1 { assert OrderlyStep(states[i], states[i + 1]); }
    }
  }

  /** Between reloads the undelivered reader pushes strictly increasing ranks, over all its passes,
      so it never pushes a task twice. */
  lemma DeliveryIsOrdered(states: seq<State>)
    requires Run(states)
    ensures
      var order := states[|states| - 1].order;
      forall i, j :: 0 <= i < j < |order| ==> order[i] < order[j]
  {
    hide Run, RetryInv;
    RunKeepsInv(states);
  }

  /** The replicated checkpoint, and every proposed one, is an earlier in-memory checkpoint or the
      current one. */
  lemma ReplicatedCheckpointLags(states: seq<State>)
    requires Run(states)
    ensures
      var s := states[|states| - 1];
      && (s.rep.Some? ==> s.rep.value in s.history)
      && (forall c :: c in s.pending ==> c in s.history)
      && (forall c :: c in s.committed ==> c in s.history)
      && s.history != [] && s.mem == s.history[|s.history| - 1]
  {
    hide Step, Start, RetryInv;
    RunKeepsInv(states);
    var s := states[|states| - 1];
    assert s.rep.Some? ==> s.rep.value in s.committed;
  }

  /** Steps in which the feed neither pushes nor reloads. */
  ghost predicate Quiet(path: seq<State>) {
    && path != []
    && forall i :: 0 <= i < |path| - 1 ==>
         Step(path[i], path[i + 1]) && !PushNext(path[i], path[i + 1]) && !Reload(path[i], path[i + 1])
  }

  lemma QuietStep(s: State, s': State)
    requires Step(s, s') && !PushNext(s, s') && !Reload(s, s')
    requires s.pending != [] ==> s.pending[|s.pending| - 1] == s.mem
    ensures s'.mem == s.mem && (s'.pending != [] ==> s'.pending[|s'.pending| - 1] == s'.mem)
  {
    hide OutsideStep, BeginPass, Replay, RetryFrameStep, RetryScanStep, PushNext, Reload, Sane, RealRank;
    if OutsideStep(s, s') { OutsideFrame(s, s'); }
    if BeginPass(s, s') { BeginFrame(s, s'); }
    if tasks :| Replay(s, s', tasks) { ReplayFrame(s, s', tasks); }
    if RetryFrameStep(s, s') { RetryFrame(s, s'); }
    if RetryScanStep(s, s') { ScanFrame(s, s'); }
  }

  lemma {:induction false} QuietKeepsLastProposal(path: seq<State>)
    requires Quiet(path) && path[0].pending != [] && path[0].pending[|path[0].pending| - 1] == path[0].mem
    ensures
      var s := Last(path);
      s.mem == path[0].mem && (s.pending != [] ==> s.pending[|s.pending| - 1] == s.mem)
  {
    hide Step, PushNext, Reload;
    if |path| > 1 {
      var before := path[..|path| - 1];
      QuietKeepsLastProposal(before);
      QuietStep(Last(before), Last(path));
    }
  }

  /** A proposal made after the last push, whatever earlier proposals are in flight and whichever of
      them are committed or dropped: once it has been committed and nothing is pending, the replicated
      checkpoint is the one in memory. */
  lemma FinalSyncCatchesUp(s: State, path: seq<State>, end: State)
    requires path != [] && Propose(s, path[0]) && Quiet(path) && Commit(Last(path), end) && end.pending == []
    ensures end.rep == Some(end.mem) && end.mem == s.mem
  {
    hide Step, PushNext, Reload;
    QuietKeepsLastProposal(path);
  }

  /** A scheduled task is never pushed at or before its time, and never redelivered before its time
      plus the ack deadline. */
  lemma NeverEarly(states: seq<State>)
    requires Run(states) && states[|states| - 1].lane.Scheduled?
    ensures
      var s := states[|states| - 1];
      && (forall d :: d in s.deliveries ==> d.rank / TWO64 < d.at)
      && (forall p :: p in s.retries ==> p.rank / TWO64 + p.deadline < p.at)
  {
    hide Run, RetryInv;
    RunKeepsInv(states);
  }

  /** Within one life of a feed, redelivery passes never overlap, and two redeliveries of a task are
      more than the ack deadline apart, also when passes fail part way, unless the task was applied
      again from the log between them. */
  lemma RetriesAreSpaced(states: seq<State>)
    requires Run(states)
    ensures
      var s := states[|states| - 1];
      && Spaced(s.retries)
      && (forall s' :: RetryStart(s, s') ==> s.stage.Off?)
  {
    hide Run, Stamped, ScanInv, Spaced;
    RunKeepsInv(states);
  }

  /** Every saved task stays stored until it is acknowledged. */
  lemma TasksAreKeptUntilAcked(states: seq<State>, n: nat)
    requires Run(states) && n in states[|states| - 1].saved && n !in states[|states| - 1].acked
    ensures n in states[|states| - 1].store
  {
    hide Run, RetryInv;
    RunKeepsInv(states);
  }

  /** Each single pass of the scheduled lane reaches a stored task if and only if the task lies above
      the checkpoint and its time is past when the pass asks for its range. */
  lemma ScheduledPassReaches(states: seq<State>, a: State, b: State, n: nat)
    requires Run(states)
    requires
      var s := Last(states);
      s.lane.Scheduled? && s.now < TWO63 && AskPass(s, a) && OpenPass(a, b) && n in s.store
    ensures var s := Last(states); n in b.pass.remaining <==> s.mem < n && n / TWO64 < s.now
  {
    hide Step, Start, RetryInv, Ordered, StageSane, UnixBits;
    RunKeepsInv(states);
    var s := Last(states);
    assert s.mem in s.history;
    if s.mem in s.saved { RealFrom(s.lane, s.mem); }
    DueBy(n, s.now);
  }

  lemma DueBy(n: nat, now: int)
    requires RealRank(Scheduled, n) && 0 <= now < TWO63
    ensures n <= Until(Scheduled, now) <==> n / TWO64 < now
  {
  }

  lemma Extend(states: seq<State>, s: State)
    requires Run(states) && Step(states[|states| - 1], s)
    ensures Run(states + [s])
  {
    hide Step, Start;
    var more := states + [s];
    forall n | 0 <= n < |more| - 1 ensures Step(more[n], more[n + 1]) {
      if n < |states| - 1 { assert Step(states[n], states[n + 1]); }
    }
  }

  /** Such a task exists in some run: the guarantee of the FIFO lane does not carry over. */
  lemma ScheduledTasksCanBeSkipped() returns (states: seq<State>, n: nat)
    ensures Run(states) && states != []
    ensures var s := states[|states| - 1]; s.lane.Scheduled? && Waiting(s, n) && n <= s.mem
  {
    hide Run;
    n := 5 * TWO64 + 2;
    states := SkippingRun(n, 6 * TWO64 + 1, 10);
  }

  lemma SkippingRun(early: nat, late: nat, now: int) returns (states: seq<State>)
    requires RealRank(Scheduled, early) && RealRank(Scheduled, late) && early < late <= Until(Scheduled, now)
    requires 0 <= now
    ensures Run(states) && states != []
    ensures var s := states[|states| - 1]; s.lane.Scheduled? && Waiting(s, early) && early <= s.mem
  {
    hide Step, RealRank, Until;
    var info := Info(0, None);
    var a := State(
      Scheduled, now, 0, map[], {}, {}, {}, 0, None, [], {}, [0], NoPass, [], [], None, false, Off, [], map[]);
    var b := a.(store := map[late := info], saved := {late});
    var q := b.(pass := Asked(1, Until(Scheduled, now)));
    var c := b.(pass := Passing([late]));
    var d := c.(pushed := {late}, mem := late, history := [0, late], order := [late],
                deliveries := [Delivery(late, now)], pass := Passing([]));
    var e := d.(store := d.store[early := info], saved := {late} + {early});
    assert Run([a]) by { assert Start(a); }
    hide Run;
    SavesLate(a, b, late, info);
    Extend([a], b);
    BeginsPass(b, q, c, late);
    Extend([a] + [b], q);
    Extend([a] + [b] + [q], c);
    PushesIt(c, d, late);
    Extend([a] + [b] + [q] + [c], d);
    SavesEarly(d, e, early, info);
    states := [a] + [b] + [q] + [c] + [d] + [e];
    Extend([a] + [b] + [q] + [c] + [d], e);
  }

  lemma SavesLate(a: State, b: State, late: nat, info: Info)
    requires a.lane.Scheduled? && RealRank(Scheduled, late) && Sane(info) && info.lastRetry.None?
    requires a.saved == {} && a.store == map[] && b == a.(store := map[late := info], saved := {late})
    ensures Step(a, b)
  {
    assert a.store + map[late := info] == map[late := info] && a.saved + {late} == {late};
    assert Save(a, b, map[late := info]);
  }

  lemma BeginsPass(b: State, q: State, c: State, late: nat)
    requires b.lane.Scheduled? && b.pass.NoPass? && b.mem == 0 && b.store.Keys == {late}
    requires RealRank(Scheduled, late) && late <= Until(Scheduled, b.now)
    requires q == b.(pass := Asked(1, Until(Scheduled, b.now))) && c == b.(pass := Passing([late]))
    ensures Step(b, q) && Step(q, c)
  {
    hide Until;
    assert From(Scheduled, 0) == 1;
    assert AskPass(b, q) && OpenPass(q, c);
    assert BeginPass(b, q) && BeginPass(q, c);
  }

  lemma PushesIt(c: State, d: State, late: nat)
    requires c.pass == Passing([late]) && c.pushed == {} && c.history == [0] && c.order == [] && c.deliveries == []
    requires d == c.(pushed := {late}, mem := late, history := [0, late], order := [late],
                     deliveries := [Delivery(late, c.now)], pass := Passing([]))
    ensures Step(c, d)
  {
    assert c.pushed + {late} == {late} && c.history + [late] == [0, late] && c.order + [late] == [late];
    assert c.deliveries + [Delivery(late, c.now)] == [Delivery(late, c.now)] && [late][1..] == [];
    assert PushNext(c, d);
  }

  lemma SavesEarly(d: State, e: State, early: nat, info: Info)
    requires d.lane.Scheduled? && RealRank(Scheduled, early) && Sane(info) && info.lastRetry.None? && early !in d.saved
    requires e == d.(store := d.store[early := info], saved := d.saved + {early})
    ensures Step(d, e)
  {
    assert d.store + map[early := info] == d.store[early := info];
    assert Save(d, e, map[early := info]);
  }
}
