/** What every step and every run of the delivery protocol keeps. */
module LaneProofs {
  import opened ByteStrings
  import opened Ids
  import opened Lanes

  // ---------- Frames ----------

  /** The undelivered reader's part is untouched; other pushes and acks may have happened. */
  predicate FeedUntouched(s: State, s': State) {
    && s'.lane == s.lane && s'.saved == s.saved && s.pushed <= s'.pushed && s.acked <= s'.acked && s.now <= s'.now
    && s'.mem == s.mem && s'.history == s.history && s'.pass == s.pass && s'.order == s.order
    && s'.deliveries == s.deliveries
  }

  predicate SyncUntouched(s: State, s': State) {
    s'.rep == s.rep && s'.pending == s.pending && s'.committed == s.committed
  }

  lemma OutsideFrame(s: State, s': State)
    requires OutsideStep(s, s')
    ensures FeedUntouched(s, s') && SyncUntouched(s, s')
  {
  }

  lemma ReplayFrame(s: State, s': State, tasks: map<nat, Info>)
    requires Replay(s, s', tasks)
    ensures FeedUntouched(s, s') && s'.pending == s.pending && s'.committed == s.committed && s'.acked == s.acked
    ensures s'.pushed == s.pushed && s'.retries == s.retries && s'.stage == s.stage && s'.active == s.active
    ensures s'.now == s.now && s'.deadline == s.deadline
  {
    hide Sane, Bumped;
  }

  lemma SyncFrame(s: State, s': State)
    requires SyncStep(s, s')
    ensures FeedUntouched(s, s')
  {
  }

  /** The undelivered reader and the syncer leave the store, the clock and the redelivery reader alone. */
  predicate RestUntouched(s: State, s': State) {
    && s'.lane == s.lane && s'.now == s.now && s'.deadline == s.deadline && s'.store == s.store && s'.saved == s.saved
    && s'.acked == s.acked && s'.lastRun == s.lastRun && s'.active == s.active && s'.stage == s.stage
    && s'.retries == s.retries && s'.eras == s.eras
  }

  lemma BeginFrame(s: State, s': State)
    requires BeginPass(s, s')
    ensures RestUntouched(s, s') && SyncUntouched(s, s') && s' == s.(pass := s'.pass)
  {
    hide IsView, From, Until;
  }

  lemma FeedFrame(s: State, s': State)
    requires BeginPass(s, s') || PushNext(s, s') || EndPass(s, s') || SyncStep(s, s')
    ensures RestUntouched(s, s')
  {
    hide BeginPass, PushNext, SyncStep;
    if BeginPass(s, s') { BeginFrame(s, s'); }
    if PushNext(s, s') { PushFrame(s, s'); }
    if SyncStep(s, s') { SyncRest(s, s'); }
  }

  lemma PushFrame(s: State, s': State)
    requires PushNext(s, s')
    ensures RestUntouched(s, s')
  {
  }

  lemma SyncRest(s: State, s': State)
    requires SyncStep(s, s')
    ensures RestUntouched(s, s')
  {
  }

  /** Steps around the store leave the redelivery reader alone, and change no record. */
  predicate RetryUntouched(s: State, s': State) {
    && s'.lane == s.lane && s.now <= s'.now && s'.saved == s.saved && s'.retries == s.retries && s'.stage == s.stage
    && s'.active == s.active && s'.eras == s.eras && (s.stage.Marked? ==> s'.deadline == s.deadline)
    && forall n :: n in s'.store ==> n in s.store && s'.store[n] == s.store[n]
  }

  lemma OutsideRetryFrame(s: State, s': State)
    requires OutsideStep(s, s')
    ensures RetryUntouched(s, s')
  {
  }

  lemma RetryFrame(s: State, s': State)
    requires RetryFrameStep(s, s')
    ensures FeedUntouched(s, s') && SyncUntouched(s, s')
    ensures s'.store == s.store && s'.acked == s.acked
  {
    hide IsView, RetryUntil;
  }

  lemma ScanFrame(s: State, s': State)
    requires RetryScanStep(s, s')
    ensures FeedUntouched(s, s') && SyncUntouched(s, s')
  {
    hide Retryable;
  }

  // ---------- Durability ----------

  /** Saved tasks are real, and each is stored until it has been acknowledged. */
  predicate Durable(s: State) {
    && s.store.Keys <= s.saved <= s.store.Keys + s.acked
    && (forall n :: n in s.saved ==> RealRank(s.lane, n))
    && (forall n :: n in s.store ==> Sane(s.store[n]))
    && StageSane(s)
    && 0 <= s.now
  }

  predicate StageSane(s: State) {
    s.stage.Scanning? ==>
      && s.stage.view.Keys <= s.saved && s.stage.taken.Keys <= s.saved
      && (forall n :: n in s.stage.view ==> Sane(s.stage.view[n]))
      && (forall n :: n in s.stage.taken ==> Sane(s.stage.taken[n]))
  }

  lemma DurableOutside(s: State, s': State)
    requires Durable(s) && OutsideStep(s, s')
    ensures Durable(s')
  {
    hide RealRank, Sane, StageSane;
    OutsideRetryFrame(s, s');
    SameStageSane(s, s');
  }

  lemma SameStageSane(s: State, s': State)
    requires StageSane(s) && s'.stage == s.stage && s'.saved == s.saved
    ensures StageSane(s')
  {
    hide Sane;
  }

  lemma DurableSave(s: State, s': State, tasks: map<nat, Info>)
    requires Durable(s) && Save(s, s', tasks)
    ensures Durable(s')
  {
    hide RealRank;
  }

  lemma DurableRetryFrame(s: State, s': State)
    requires Durable(s) && RetryFrameStep(s, s')
    ensures Durable(s')
  {
    hide RealRank, Sane, RetryUntil;
  }

  lemma DurableScan(s: State, s': State)
    requires Durable(s) && (RetrySkip(s, s') || RetryFinish(s, s'))
    ensures Durable(s')
  {
    hide RealRank, Retryable, Sane;
  }

  lemma DurablePush(s: State, s': State, at: int)
    requires Durable(s) && RetryPush(s, s', at)
    ensures Durable(s')
  {
    hide RealRank, Retryable;
  }

  lemma DurableFeed(s: State, s': State)
    requires Durable(s) && (BeginPass(s, s') || PushNext(s, s') || EndPass(s, s') || SyncStep(s, s'))
    ensures Durable(s')
  {
    hide RealRank, Sane, BeginPass, PushNext, EndPass, SyncStep;
    FeedFrame(s, s');
  }

  lemma DurableReplay(s: State, s': State, tasks: map<nat, Info>)
    requires Durable(s) && Replay(s, s', tasks)
    ensures Durable(s')
  {
    hide RealRank, Bumped;
  }

  lemma DurableReload(s: State, s': State)
    requires Durable(s) && Reload(s, s')
    ensures Durable(s')
  {
    hide RealRank, Sane;
  }

  lemma DurableStep(s: State, s': State)
    requires Durable(s) && Step(s, s')
    ensures Durable(s')
  {
    hide Durable, OutsideStep, Save, BeginPass, PushNext, EndPass, SyncStep, Replay, Reload, RetryFrameStep, RetrySkip,
      RetryPush, RetryFinish;
    if OutsideStep(s, s') {
      DurableOutside(s, s');
    } else if tasks :| Save(s, s', tasks) {
      DurableSave(s, s', tasks);
    } else if BeginPass(s, s') || PushNext(s, s') || EndPass(s, s') || SyncStep(s, s') {
      DurableFeed(s, s');
    } else if tasks :| Replay(s, s', tasks) {
      DurableReplay(s, s', tasks);
    } else if Reload(s, s') {
      DurableReload(s, s');
    } else if RetryFrameStep(s, s') {
      DurableRetryFrame(s, s');
    } else if at :| RetryPush(s, s', at) {
      DurablePush(s, s', at);
    } else {
      DurableScan(s, s');
    }
  }

  // ---------- Checkpoints ----------

  /** Checkpoints, in memory, proposed or replicated, are earlier in-memory ones; each is the default
      or a saved task. */
  predicate Tracked(s: State) {
    && s.history != [] && s.mem == s.history[|s.history| - 1]
    && (forall c :: c in s.pending ==> c in s.history)
    && (forall c :: c in s.committed ==> c in s.history)
    && (s.rep.Some? ==> s.rep.value in s.committed)
    && (forall c :: c in s.history ==> c == Default(s.lane) || c in s.saved)
    && (s.pass.Passing? ==> forall n :: n in s.pass.remaining ==> n in s.saved)
  }

  lemma TrackedSave(s: State, s': State, tasks: map<nat, Info>)
    requires Tracked(s) && Save(s, s', tasks)
    ensures Tracked(s')
  {
  }

  lemma TrackedSync(s: State, s': State)
    requires Tracked(s) && SyncStep(s, s')
    ensures Tracked(s')
  {
  }

  lemma TrackedPush(s: State, s': State)
    requires Tracked(s) && PushNext(s, s')
    ensures Tracked(s')
  {
    assert s'.mem in s.pass.remaining;
    assert forall c :: c in s'.history <==> c in s.history || c == s'.mem;
    assert forall n :: n in s'.pass.remaining ==> n in s.pass.remaining;
  }

  lemma TrackedReplay(s: State, s': State, tasks: map<nat, Info>)
    requires Tracked(s) && Replay(s, s', tasks)
    ensures Tracked(s')
  {
    hide Sane, Bumped;
  }

  lemma TrackedReload(s: State, s': State)
    requires Tracked(s) && Reload(s, s')
    ensures Tracked(s')
  {
    hide Sane;
    assert forall c :: c in s'.history <==> c in s.history || c == s'.mem;
  }

  lemma TrackedBegin(s: State, s': State)
    requires Durable(s) && Tracked(s) && (BeginPass(s, s') || EndPass(s, s'))
    ensures Tracked(s')
  {
    hide From, Until, RealRank, Sane;
  }

  lemma TrackedStep(s: State, s': State)
    requires Durable(s) && Tracked(s) && Step(s, s')
    ensures Tracked(s')
  {
    hide Durable, OutsideStep, Save, BeginPass, PushNext, EndPass, SyncStep, Replay, Reload, RetryFrameStep,
      RetryScanStep;
    if OutsideStep(s, s') {
      OutsideFrame(s, s');
    } else if tasks :| Save(s, s', tasks) {
      TrackedSave(s, s', tasks);
    } else if BeginPass(s, s') || EndPass(s, s') {
      TrackedBegin(s, s');
    } else if PushNext(s, s') {
      TrackedPush(s, s');
    } else if SyncStep(s, s') {
      TrackedSync(s, s');
    } else if tasks :| Replay(s, s', tasks) {
      TrackedReplay(s, s', tasks);
    } else if Reload(s, s') {
      TrackedReload(s, s');
    } else if RetryFrameStep(s, s') {
      RetryFrame(s, s');
    } else {
      ScanFrame(s, s');
    }
  }

  /** Only saved tasks are pushed. */
  predicate PushesAreSaved(s: State) { s.pushed <= s.saved }

  lemma OutsidePushesNothing(s: State, s': State)
    requires OutsideStep(s, s') || SyncStep(s, s') || EndPass(s, s') || Reload(s, s')
    ensures s'.pushed == s.pushed && s'.saved == s.saved
  {
    hide Sane;
  }

  lemma RetryFramePushesNothing(s: State, s': State)
    requires RetryFrameStep(s, s')
    ensures s'.pushed == s.pushed && s'.saved == s.saved
  {
    hide IsView, RetryUntil;
  }

  lemma ScanPushesSaved(s: State, s': State)
    requires Durable(s) && RetryScanStep(s, s')
    ensures s'.saved == s.saved && s'.pushed <= s.pushed + s.saved
  {
    hide RealRank, Sane, Retryable;
  }

  lemma PushesAreSavedStep(s: State, s': State)
    requires Durable(s) && Tracked(s) && PushesAreSaved(s) && Step(s, s')
    ensures PushesAreSaved(s')
  {
    hide Durable, OutsideStep, BeginPass, SyncStep, EndPass, Replay, Reload, RetryFrameStep, RetryScanStep, RealRank,
      Sane;
    if OutsideStep(s, s') || SyncStep(s, s') || EndPass(s, s') || Reload(s, s') {
      OutsidePushesNothing(s, s');
    } else if tasks :| Replay(s, s', tasks) {
      ReplayFrame(s, s', tasks);
    } else if BeginPass(s, s') {
      BeginFrame(s, s');
    } else if PushNext(s, s') {
      assert s.pass.remaining[0] in s.pass.remaining;
    } else if RetryFrameStep(s, s') {
      RetryFramePushesNothing(s, s');
    } else if RetryScanStep(s, s') {
      ScanPushesSaved(s, s');
    }
  }

  // ---------- Order ----------

  /** What the undelivered reader has pushed since the last reload, and what it will push. */
  predicate Ordered(s: State) {
    && (forall i, j :: 0 <= i < j < |s.order| ==> s.order[i] < s.order[j])
    && (s.order != [] ==> s.order[|s.order| - 1] == s.mem)
    && (forall n :: n in s.order ==> n in s.saved && n in s.pushed)
    && (s.pass.Asked? ==> s.pass.lo == From(s.lane, s.mem))
    && (s.pass.Passing? ==>
          && (forall i, j :: 0 <= i < j < |s.pass.remaining| ==> s.pass.remaining[i] < s.pass.remaining[j])
          && (forall n :: n in s.pass.remaining ==> From(s.lane, s.mem) <= n))
  }

  lemma RealFrom(lane: Lane, n: nat)
    requires RealRank(lane, n)
    ensures From(lane, n) == n + 1
  {
  }

  lemma OrderedPush(s: State, s': State)
    requires Durable(s) && Tracked(s) && Ordered(s) && PushNext(s, s')
    ensures Ordered(s')
  {
    hide StageSane, From, RealRank;
    var rest, n := s.pass.remaining, s'.mem;
    assert n in rest;
    RealFrom(s.lane, n);
    if s.order != [] {
      assert s.mem in s.order;
      RealFrom(s.lane, s.mem);
    }
    forall i, j | 0 <= i < j < |s'.order| ensures s'.order[i] < s'.order[j] {
      if j == |s.order| { assert s.order[i] <= s.order[|s.order| - 1]; }
    }
    forall r | r in rest[1..] ensures From(s.lane, n) <= r {
      var i :| 1 <= i < |rest| && rest[i] == r;
      assert rest[0] < rest[i];
    }
  }

  lemma OrderedBegin(s: State, s': State)
    requires Ordered(s) && (BeginPass(s, s') || EndPass(s, s'))
    ensures Ordered(s')
  {
    hide From, Until;
  }

  lemma OrderedStep(s: State, s': State)
    requires Durable(s) && Tracked(s) && Ordered(s) && Step(s, s')
    ensures Ordered(s')
  {
    hide Durable, Tracked, OutsideStep, BeginPass, PushNext, EndPass, SyncStep, Replay, RetryFrameStep, RetryScanStep,
      From, RealRank, Sane;
    if OutsideStep(s, s') {
      OutsideFrame(s, s');
    } else if BeginPass(s, s') || EndPass(s, s') {
      OrderedBegin(s, s');
    } else if PushNext(s, s') {
      OrderedPush(s, s');
    } else if SyncStep(s, s') {
      SyncFrame(s, s');
    } else if tasks :| Replay(s, s', tasks) {
      ReplayFrame(s, s', tasks);
    } else if RetryFrameStep(s, s') {
      RetryFrame(s, s');
    } else if RetryScanStep(s, s') {
      ScanFrame(s, s');
    }
  }

  // ---------- Nothing is skipped ----------

  /** A task waits when it was saved and neither pushed nor acknowledged. */
  predicate Waiting(s: State, n: nat) { n in s.saved && n !in s.pushed && n !in s.acked }

  /** The checkpoint is the "nothing delivered" one, or lies strictly below the task. */
  predicate Below(lane: Lane, checkpoint: nat, n: nat) { checkpoint == Default(lane) || checkpoint < n }

  /** The task lies above every checkpoint that is in memory, proposed or was ever replicated. */
  predicate AboveCheckpoints(s: State, n: nat) {
    && Below(s.lane, s.mem, n)
    && (forall c :: c in s.pending ==> Below(s.lane, c, n))
    && (forall c :: c in s.committed ==> Below(s.lane, c, n))
  }

  /** Waiting tasks lie above the checkpoints, and a running pass will still reach them or has only
      lower ones left. */
  predicate NothingSkipped(s: State) {
    && (forall n :: n in s.saved && Waiting(s, n) ==> AboveCheckpoints(s, n))
    && (s.pass.Passing? ==>
          forall n :: n in s.saved && Waiting(s, n) && n !in s.pass.remaining ==>
            forall r :: r in s.pass.remaining ==> r < n)
  }

  /** A place where a new task is not skipped: above the checkpoints and above what a running pass has
      left. */
  predicate Orderly(s: State, n: nat) {
    AboveCheckpoints(s, n) && (s.pass.Passing? ==> forall r :: r in s.pass.remaining ==> r < n)
  }

  /** Every task the step saves, unless it is acknowledged already, comes in an orderly place. */
  predicate OrderlyStep(s: State, s': State) {
    forall n :: n in s'.saved && n !in s.saved && n !in s.acked ==> Orderly(s, n)
  }

  lemma UntouchedSkipsNothing(s: State, s': State)
    requires NothingSkipped(s) && FeedUntouched(s, s') && SyncUntouched(s, s')
    ensures NothingSkipped(s')
  {
    hide Below;
    assert forall n :: Waiting(s', n) ==> Waiting(s, n);
  }

  /** A pass that opens now reaches a waiting task exactly when it lies below the end of the range. */
  lemma OpenReaches(s: State, s': State)
    requires Durable(s) && Tracked(s) && Ordered(s) && NothingSkipped(s) && OpenPass(s, s')
    ensures forall n :: n in s.saved && Waiting(s, n) ==> (n in s'.pass.remaining <==> n <= s.pass.hi)
  {
    hide StageSane, Sane, From;
    assert s.mem in s.history;
    forall n | n in s.saved && Waiting(s, n) ensures n in s'.pass.remaining <==> n <= s.pass.hi {
      assert n in s.store && RealRank(s.lane, n);
      FromBelow(s.lane, s.mem, n, s.saved);
    }
  }

  lemma FromBelow(lane: Lane, c: nat, n: nat, saved: set<nat>)
    requires Below(lane, c, n) && RealRank(lane, n)
    requires c == Default(lane) || c in saved
    requires forall m :: m in saved ==> RealRank(lane, m)
    ensures From(lane, c) <= n
  {
    if c != Default(lane) { RealFrom(lane, c); }
  }

  lemma BeginSkipsNothing(s: State, s': State)
    requires Durable(s) && Tracked(s) && Ordered(s) && NothingSkipped(s) && BeginPass(s, s')
    ensures NothingSkipped(s')
  {
    hide Durable, Tracked, Ordered, Below, From, Until;
    if OpenPass(s, s') { OpenReaches(s, s'); }
    assert forall n :: Waiting(s', n) <==> Waiting(s, n);
  }

  lemma PushSkipsNothing(s: State, s': State)
    requires Tracked(s) && Ordered(s) && NothingSkipped(s) && PushNext(s, s')
    ensures NothingSkipped(s')
  {
    hide From, Below;
    var rest, p := s.pass.remaining, s'.mem;
    assert p in rest;
    forall n | n in s'.saved && Waiting(s', n)
      ensures p < n && (n !in rest[1..] ==> forall r :: r in rest[1..] ==> r < n) && AboveCheckpoints(s', n)
    {
      assert Waiting(s, n);
      if n in rest {
        var i :| 0 <= i < |rest| && rest[i] == n;
        assert i != 0 && rest[0] < rest[i] && rest[1..][i - 1] == n;
      } else {
        assert forall r :: r in rest[1..] ==> r in rest;
      }
      IsBelow(s.lane, p, n);
    }
  }

  lemma IsBelow(lane: Lane, c: nat, n: nat)
    requires c < n
    ensures Below(lane, c, n)
  {
  }

  lemma SaveSkipsNothing(s: State, s': State, tasks: map<nat, Info>)
    requires NothingSkipped(s) && Save(s, s', tasks) && OrderlyStep(s, s')
    ensures NothingSkipped(s')
  {
    hide Sane, RealRank, Below;
    assert forall n :: n in s.saved && Waiting(s', n) ==> Waiting(s, n);
    forall n | n in s'.saved && Waiting(s', n) ensures AboveCheckpoints(s', n) {
      if n !in s.saved { assert Orderly(s, n); }
    }
  }

  lemma SyncSkipsNothing(s: State, s': State)
    requires Tracked(s) && NothingSkipped(s) && SyncStep(s, s')
    ensures NothingSkipped(s')
  {
    hide Below;
    assert forall n :: Waiting(s', n) <==> Waiting(s, n);
  }

  lemma ReplaySkipsNothing(s: State, s': State, tasks: map<nat, Info>)
    requires NothingSkipped(s) && Replay(s, s', tasks)
    ensures NothingSkipped(s')
  {
    hide Replay, Below;
    ReplayFrame(s, s', tasks);
    assert forall n :: Waiting(s', n) <==> Waiting(s, n);
  }

  lemma ReloadSkipsNothing(s: State, s': State)
    requires Tracked(s) && NothingSkipped(s) && Reload(s, s')
    ensures NothingSkipped(s')
  {
    assert forall n :: Waiting(s', n) ==> Waiting(s, n);
    assert s.rep.Some? ==> s.rep.value in s.committed;
  }

  lemma NothingSkippedStep(s: State, s': State)
    requires Durable(s) && Tracked(s) && Ordered(s) && NothingSkipped(s) && Step(s, s') && OrderlyStep(s, s')
    ensures NothingSkipped(s')
  {
    hide Durable, Tracked, Ordered, OutsideStep, Save, BeginPass, PushNext, SyncStep, Replay, Reload, RetryFrameStep,
      RetryScanStep, IsView, Below, Orderly;
    if OutsideStep(s, s') {
      OutsideFrame(s, s');
      UntouchedSkipsNothing(s, s');
    } else if tasks :| Save(s, s', tasks) {
      SaveSkipsNothing(s, s', tasks);
    } else if BeginPass(s, s') {
      BeginSkipsNothing(s, s');
    } else if PushNext(s, s') {
      PushSkipsNothing(s, s');
    } else if EndPass(s, s') {
      assert forall n :: Waiting(s', n) ==> Waiting(s, n);
    } else if SyncStep(s, s') {
      SyncSkipsNothing(s, s');
    } else if tasks :| Replay(s, s', tasks) {
      ReplaySkipsNothing(s, s', tasks);
    } else if Reload(s, s') {
      ReloadSkipsNothing(s, s');
    } else if RetryFrameStep(s, s') {
      RetryFrame(s, s');
      UntouchedSkipsNothing(s, s');
    } else {
      ScanFrame(s, s');
      UntouchedSkipsNothing(s, s');
    }
  }

  // ---------- Never early ----------

  /** Scheduled tasks in a running pass, and those already delivered, are due. */
  predicate Timely(s: State) {
    && (s.pass.Asked? ==> s.pass.hi <= s.now * TWO64)
    && (s.pass.Passing? ==> forall n :: n in s.pass.remaining ==> n / TWO64 < s.now)
    && (forall d :: d in s.deliveries ==> d.rank / TWO64 < d.at)
  }

  lemma BeginIsTimely(s: State, s': State)
    requires s.lane.Scheduled? && Durable(s) && Timely(s) && BeginPass(s, s')
    ensures Timely(s')
  {
    hide StageSane, Sane, From;
    if AskPass(s, s') {
      BitsAtMost(s.now);
    } else {
      forall n | n in s'.pass.remaining ensures n / TWO64 < s.now {
        assert n in s.saved && RealRank(s.lane, n);
        Due(n, s.now);
      }
    }
  }

  lemma BitsAtMost(t: int)
    requires 0 <= t
    ensures UnixBits(t) <= t
  {
  }

  lemma Due(n: nat, bits: nat)
    requires 0 < n % TWO64 && n <= bits * TWO64
    ensures n / TWO64 < bits
  {
  }

  lemma PushIsTimely(s: State, s': State)
    requires Timely(s) && PushNext(s, s')
    ensures Timely(s')
  {
    assert s.pass.remaining[0] in s.pass.remaining;
    assert forall n :: n in s'.pass.remaining ==> n in s.pass.remaining;
    assert forall d :: d in s'.deliveries <==> d in s.deliveries || d == Delivery(s'.mem, s.now);
  }

  lemma TimelyStep(s: State, s': State)
    requires s.lane.Scheduled? && Durable(s) && Timely(s) && Step(s, s')
    ensures Timely(s')
  {
    hide Durable, OutsideStep, PushNext, SyncStep, Replay, RetryFrameStep, RetryScanStep, IsView, From, Until, Sane,
      RealRank;
    if OutsideStep(s, s') {
      OutsideFrame(s, s');
    } else if BeginPass(s, s') {
      BeginIsTimely(s, s');
    } else if PushNext(s, s') {
      PushIsTimely(s, s');
    } else if SyncStep(s, s') {
      SyncFrame(s, s');
    } else if tasks :| Replay(s, s', tasks) {
      ReplayFrame(s, s', tasks);
    } else if RetryFrameStep(s, s') {
      RetryFrame(s, s');
    } else if RetryScanStep(s, s') {
      ScanFrame(s, s');
    }
  }

  // ---------- Redelivery ----------

  /** The task carries a retry stamp no older than `at`. */
  predicate StampedAfter(info: Info, at: int) { info.lastRetry.Some? && info.lastRetry.value >= at }

  /** Two redeliveries of one task, with no application of it from the log between them, are more than
      the ack deadline of the second apart. */
  predicate Spaced(retries: seq<Retry>) {
    forall i, j :: 0 <= i < j < |retries| && retries[i].rank == retries[j].rank && retries[i].era == retries[j].era ==>
      retries[j].at - retries[i].at > retries[j].deadline
  }

  /** The task has not been applied again since. */
  predicate Current(eras: map<nat, nat>, p: Retry) { p.era == Era(eras, p.rank) }

  /** The reader is active although no pass is running: it will not run again before a reload. */
  predicate Stuck(s: State) { s.active && s.stage.Off? }

  /** Every redelivered task has its stamp, in the store or in what the running pass will write. */
  predicate Stamped(s: State) {
    !Stuck(s) ==>
      forall p ::
        (&& p in s.retries && Current(s.eras, p) && p.rank in s.store
         && !(s.stage.Scanning? && p.rank in s.stage.taken)) ==> StampedAfter(s.store[p.rank], p.at)
  }

  predicate ScanInv(s: State) {
    s.stage.Scanning? ==>
      && (forall i, j :: 0 <= i < j < |s.stage.remaining| ==> s.stage.remaining[i] < s.stage.remaining[j])
      && (forall n :: n in s.stage.remaining ==> n in s.stage.view && n !in s.stage.taken)
      && (forall p :: p in s.retries && Current(s.eras, p) && p.rank in s.stage.remaining && p.rank in s.stage.view ==>
            StampedAfter(s.stage.view[p.rank], p.at))
      && (forall p :: p in s.retries && Current(s.eras, p) && p.rank in s.stage.taken ==>
            StampedAfter(s.stage.taken[p.rank], p.at))
      && (s.lane.Scheduled? ==> forall n :: n in s.stage.remaining ==> n <= UnixBits(s.stage.end) * TWO64)
  }

  predicate ClockInv(s: State) {
    match s.stage
    case Off => true
    case Started => true
    case Marked(w, d) => w + d <= s.now && d == s.deadline
    case Queried(w, d, end, until) =>
      w <= end && end + d <= s.now && (s.lane.Scheduled? ==> until == UnixBits(end) * TWO64)
    case Scanning(w, d, end, _, _, _) => w <= end && end + d <= s.now
  }

  predicate RetryInv(s: State) {
    && (!s.stage.Off? ==> s.active)
    && (forall p :: p in s.retries ==> p.at <= s.now && p.rank in s.saved && p.era <= Era(s.eras, p.rank))
    && Spaced(s.retries)
    && Stamped(s)
    && ScanInv(s)
    && ClockInv(s)
  }

  lemma RetryOutside(s: State, s': State)
    requires RetryInv(s) && OutsideStep(s, s')
    ensures RetryInv(s')
  {
    hide StampedAfter, Spaced, OutsideStep, ScanInv;
    OutsideRetryFrame(s, s');
    SameScan(s, s');
  }

  lemma SameScan(s: State, s': State)
    requires ScanInv(s) && s'.stage == s.stage && s'.retries == s.retries && s'.eras == s.eras && s'.lane == s.lane
    ensures ScanInv(s')
  {
    hide StampedAfter;
  }

  lemma RetrySave(s: State, s': State, tasks: map<nat, Info>)
    requires RetryInv(s) && Save(s, s', tasks)
    ensures RetryInv(s')
  {
    hide StampedAfter, Spaced, Sane, RealRank;
  }

  lemma RetryFeed(s: State, s': State)
    requires RetryInv(s) && (BeginPass(s, s') || PushNext(s, s') || EndPass(s, s') || SyncStep(s, s'))
    ensures RetryInv(s')
  {
    hide StampedAfter, Spaced, BeginPass, PushNext, EndPass, SyncStep;
    FeedFrame(s, s');
  }

  lemma EraBumped(s: State, s': State, tasks: map<nat, Info>, n: nat)
    requires Replay(s, s', tasks)
    ensures Era(s'.eras, n) == Era(s.eras, n) + if n in tasks then 1 else 0
    ensures n !in tasks ==> (n in s'.store <==> n in s.store) && (n in s.store ==> s'.store[n] == s.store[n])
  {
    hide Sane;
  }

  /** Tasks that are applied again lose their stamps, but no redelivery of theirs is current any more. */
  lemma RetryReplay(s: State, s': State, tasks: map<nat, Info>)
    requires RetryInv(s) && Replay(s, s', tasks)
    ensures RetryInv(s')
  {
    hide Replay, StampedAfter, Spaced, Era;
    ReplayFrame(s, s', tasks);
    forall p | p in s.retries ensures Current(s'.eras, p) ==> Current(s.eras, p) && p.rank !in tasks {
      EraBumped(s, s', tasks, p.rank);
    }
    forall p | p in s.retries ensures p.era <= Era(s'.eras, p.rank) { EraBumped(s, s', tasks, p.rank); }
    forall p | p in s.retries && Current(s'.eras, p)
      ensures (p.rank in s'.store <==> p.rank in s.store) && (p.rank in s.store ==> s'.store[p.rank] == s.store[p.rank])
    {
      EraBumped(s, s', tasks, p.rank);
    }
  }

  lemma RetryReload(s: State, s': State)
    requires Reload(s, s')
    ensures RetryInv(s')
  {
    hide Sane;
  }

  lemma RetryFrameKeeps(s: State, s': State)
    requires RetryInv(s) && RetryFrameStep(s, s')
    ensures RetryInv(s')
  {
    hide StampedAfter, Spaced, Current;
  }

  lemma RetryScanKeeps(s: State, s': State)
    requires RetryInv(s) && (RetrySkip(s, s') || RetryFinish(s, s'))
    ensures RetryInv(s')
  {
    hide StampedAfter, Spaced, Retryable, Era;
    if RetrySkip(s, s') {
      assert forall n :: n in s'.stage.remaining ==> n in s.stage.remaining;
    }
  }

  lemma RetryPushSpaced(s: State, s': State, at: int)
    requires RetryInv(s) && RetryPush(s, s', at)
    ensures Spaced(s'.retries)
  {
    hide Stamped;
    var n := s.stage.remaining[0];
    assert n in s.stage.remaining;
    forall p | p in s.retries && p.rank == n && p.era == Era(s.eras, n) ensures at - p.at > s.stage.deadline {
      assert StampedAfter(s.stage.view[n], p.at);
    }
  }

  lemma RetryPushKeeps(s: State, s': State, at: int)
    requires RetryInv(s) && RetryPush(s, s', at)
    requires StageSane(s)
    ensures RetryInv(s')
  {
    RetryPushSpaced(s, s', at);
    hide Spaced, Retryable, Sane;
    var rest := s.stage.remaining;
    var n := rest[0];
    assert n in rest;
    assert forall p :: p in s'.retries <==> p in s.retries || p == Retry(n, at, s.stage.deadline, Era(s.eras, n));
    forall r | r in rest[1..] ensures r in rest && r != n {
      var i :| 1 <= i < |rest| && rest[i] == r;
      assert rest[0] < rest[i];
    }
    assert Stamped(s');
  }

  lemma RetryStep(s: State, s': State)
    requires Durable(s) && RetryInv(s) && Step(s, s')
    ensures RetryInv(s')
  {
    hide RetryInv, StageSane, OutsideStep, Save, BeginPass, PushNext, EndPass, SyncStep, Replay, Reload,
      RetryFrameStep, RetrySkip, RetryPush, RetryFinish;
    if OutsideStep(s, s') {
      RetryOutside(s, s');
    } else if tasks :| Save(s, s', tasks) {
      RetrySave(s, s', tasks);
    } else if BeginPass(s, s') || PushNext(s, s') || EndPass(s, s') || SyncStep(s, s') {
      RetryFeed(s, s');
    } else if tasks :| Replay(s, s', tasks) {
      RetryReplay(s, s', tasks);
    } else if Reload(s, s') {
      RetryReload(s, s');
    } else if RetryFrameStep(s, s') {
      RetryFrameKeeps(s, s');
    } else if at :| RetryPush(s, s', at) {
      RetryPushKeeps(s, s', at);
    } else {
      RetryScanKeeps(s, s');
    }
  }

  /** Redelivered scheduled tasks were due one ack deadline before. */
  predicate RetriesTimely(s: State) {
    forall p :: p in s.retries ==> p.rank / TWO64 + p.deadline < p.at
  }

  lemma RetryPushTimely(s: State, s': State, at: int)
    requires s.lane.Scheduled? && Durable(s) && RetryInv(s) && RetriesTimely(s) && RetryPush(s, s', at)
    ensures RetriesTimely(s')
  {
    hide Stamped, Spaced;
    var n, end := s.stage.remaining[0], s.stage.end;
    assert n in s.stage.remaining && Sane(s.stage.view[n]) && RealRank(s.lane, n);
    Due(n, UnixBits(end));
    assert end >= 0;
    BitsAtMost(end);
    assert forall p :: p in s'.retries <==> p in s.retries || p == Retry(n, at, s.stage.deadline, Era(s.eras, n));
  }

  /** Only a redelivery adds to the retries. */
  lemma RetriesChange(s: State, s': State)
    requires Step(s, s')
    ensures s'.retries == s.retries || s'.retries == [] || exists at :: RetryPush(s, s', at)
  {
    hide OutsideStep, Save, BeginPass, PushNext, EndPass, SyncStep, Replay, Reload, RetryFrameStep, RetrySkip,
      RetryPush, RetryFinish;
    if OutsideStep(s, s') {
      OutsideRetryFrame(s, s');
    } else if tasks :| Save(s, s', tasks) {
      SaveRetries(s, s', tasks);
    } else if BeginPass(s, s') || PushNext(s, s') || EndPass(s, s') || SyncStep(s, s') {
      FeedFrame(s, s');
    } else if tasks :| Replay(s, s', tasks) {
      ReplayFrame(s, s', tasks);
    } else if Reload(s, s') {
      ReloadRetries(s, s');
    } else if RetryFrameStep(s, s') {
      FrameRetries(s, s');
    } else if RetrySkip(s, s') || RetryFinish(s, s') {
      ScanRetries(s, s');
    }
  }

  lemma SaveRetries(s: State, s': State, tasks: map<nat, Info>)
    requires Save(s, s', tasks)
    ensures s'.retries == s.retries
  {
    hide RealRank, Sane;
  }

  lemma ReloadRetries(s: State, s': State)
    requires Reload(s, s')
    ensures s'.retries == []
  {
  }

  lemma FrameRetries(s: State, s': State)
    requires RetryFrameStep(s, s')
    ensures s'.retries == s.retries
  {
    hide IsView, RetryUntil;
  }

  lemma ScanRetries(s: State, s': State)
    requires RetrySkip(s, s') || RetryFinish(s, s')
    ensures s'.retries == s.retries
  {
    hide Retryable;
  }

  lemma RetriesTimelyStep(s: State, s': State)
    requires s.lane.Scheduled? && Durable(s) && RetryInv(s) && RetriesTimely(s) && Step(s, s')
    ensures RetriesTimely(s')
  {
    hide Durable, RetryInv, RetryPush, Step;
    RetriesChange(s, s');
    if at :| RetryPush(s, s', at) {
      RetryPushTimely(s, s', at);
    }
  }
}
