/** The leased index allocator (storage/sequence.go), over every run of opens, draws, closes and
    crashes, and its hand-over to a follower (storage/task.go). */
module Sequences {
  import opened ByteStrings
  import opened Ids
  import opened Keys
  import opened TaskStores

  /** The in-memory half of a sequence. */
  datatype Lease = Lease(i: nat, nextLease: nat)

  /** The value stored under a sequence key; an absent key counts as 0. */
  function StoredIndex(kv: KV, key: Bytes): nat {
    if key in kv && kv[key].SeqValue? then kv[key].index else 0
  }

  /** reserve: the end of the lease that starts at `i`, in 64-bit arithmetic. */
  function LeaseEnd(i: nat, leaseSize: nat): nat { (i + leaseSize - 1) % TWO64 }

  /** Next, on the in-memory half: a new lease when the old one is used up, then the next index. */
  function Drawn(l: Lease, leaseSize: nat): Lease {
    Lease((l.i + 1) % TWO64, if l.i == l.nextLease then LeaseEnd(l.i, leaseSize) else l.nextLease)
  }

  class Sequence {
    const db: Pebble
    const key: Bytes
    const leaseSize: nat
    var nextLease: nat
    var i: nat

    /** The run of the key that this object is part of. */
    ghost var at: State

    ghost predicate Valid()
      reads this, db
    {
      at.live == Some(Lease(i, nextLease)) && at.stored == StoredIndex(db.kv, key)
    }

    /** NewSequence and init: resume from the stored index and reserve a lease. */
    constructor (db: Pebble, key: Bytes, leaseSize: nat, ghost before: State)
      requires before.live.None? && before.stored == StoredIndex(db.kv, key)
      modifies db
      ensures this.db == db && this.key == key && this.leaseSize == leaseSize
      ensures Valid() && Open(before, at, leaseSize)
      ensures db.kv == old(db.kv)[key := SeqValue(nextLease)]
    {
      this.db := db;
      this.key := key;
      this.leaseSize := leaseSize;
      i := StoredIndex(db.kv, key);
      nextLease := 0;
      new;
      Reserve();
      at := before.(stored := nextLease, live := Some(Lease(i, nextLease)), lost := before.lost + (i - before.mark));
    }

    method Reserve()
      modifies this`nextLease, db
      ensures nextLease == LeaseEnd(i, leaseSize)
      ensures db.kv == old(db.kv)[key := SeqValue(nextLease)]
    {
      nextLease := LeaseEnd(i, leaseSize);
      db.kv := db.kv[key := SeqValue(nextLease)];
    }

    /** Draws the next index. With leases of at least two indexes it lies above every index the key
        has issued, in the lives of other objects too. */
    method Next() returns (index: nat)
      requires Valid()
      modifies this, db
      ensures Valid() && Draw(old(at), at, leaseSize) && at.issued == old(at.issued) + [index]
      ensures leaseSize >= 2 && Inv(old(at), leaseSize) && Position(old(at)) + leaseSize < TWO64 ==>
                Inv(at, leaseSize) && forall n :: n in old(at.issued) ==> n < index
      ensures db.kv == if old(i == nextLease) then old(db.kv)[key := SeqValue(nextLease)] else old(db.kv)
    {
      hide Inv;
      if i == nextLease {
        Reserve();
      }
      i := (i + 1) % TWO64;
      index := i;
      at := at.(stored := StoredIndex(db.kv, key), live := Some(Lease(i, nextLease)), issued := at.issued + [i]);
      if leaseSize >= 2 && Inv(old(at), leaseSize) && Position(old(at)) + leaseSize < TWO64 {
        DrawKeepsInv(old(at), at, leaseSize);
        DrawIsAbove(old(at), at, leaseSize);
      }
    }

    /** Closes cleanly: the key holds the last index handed out, so that the object opened next goes
        on right after it. */
    method Close()
      requires Valid()
      modifies this`at, db
      ensures CloseCleanly(old(at), at) && StoredIndex(db.kv, key) == at.stored
      ensures db.kv == old(db.kv)[key := SeqValue(i)]
      ensures forall s: State :: Open(at, s, leaseSize) ==> s.lost == at.lost && Position(s) == i
    {
      db.kv := db.kv[key := SeqValue(i)];
      at := at.(stored := i, live := None, mark := i, crashed := false);
    }
  }

  // ---------- Runs ----------

  /** A sequence key together with its history. `mark` is where the last object stopped, `lost` the
      indexes skipped so far, and `crashed` says that the last object was not closed. */
  datatype State = State(
    stored: nat,
    live: Option<Lease>,
    issued: seq<nat>,
    mark: nat,
    lost: int,
    crashes: nat,
    crashed: bool)

  const START := State(0, None, [], 0, 0, 0, false)

  predicate Open(s: State, s': State, size: nat) {
    && s.live.None?
    && var end := LeaseEnd(s.stored, size);
       s' == s.(stored := end, live := Some(Lease(s.stored, end)), lost := s.lost + (s.stored - s.mark))
  }

  predicate Draw(s: State, s': State, size: nat) {
    && s.live.Some?
    && var l := Drawn(s.live.value, size);
       s' == s.(stored := if s.live.value.i == s.live.value.nextLease then l.nextLease else s.stored,
                live := Some(l), issued := s.issued + [l.i])
  }

  predicate CloseCleanly(s: State, s': State) {
    && s.live.Some?
    && s' == s.(stored := s.live.value.i, live := None, mark := s.live.value.i, crashed := false)
  }

  predicate Crash(s: State, s': State) {
    && s.live.Some?
    && s' == s.(live := None, mark := s.live.value.i, crashes := s.crashes + 1, crashed := true)
  }

  predicate Step(s: State, s': State, size: nat) {
    Open(s, s', size) || Draw(s, s', size) || CloseCleanly(s, s') || Crash(s, s')
  }

  /** A run that starts with no stored index and never reaches the end of the 64-bit range. */
  predicate Run(states: seq<State>, size: nat) {
    && states != [] && states[0] == START
    && (forall n :: 0 <= n < |states| - 1 ==> Step(states[n], states[n + 1], size))
    && (forall n :: 0 <= n < |states| ==> Position(states[n]) + size < TWO64)
  }

  function Position(s: State): nat { if s.live.Some? then s.live.value.i else s.mark }

  predicate Increasing(ns: seq<nat>) { forall i, j :: 0 <= i < j < |ns| ==> ns[i] < ns[j] }

  /** What every step keeps, for leases of at least two indexes. */
  predicate Inv(s: State, size: nat) {
    && Increasing(s.issued)
    && (forall n :: n in s.issued ==> 0 < n <= Position(s))
    && Position(s) == |s.issued| + s.lost
    && (s.live.Some? ==> s.live.value.i <= s.live.value.nextLease == s.stored)
    && Position(s) <= s.stored
    && s.stored - Position(s) <= (if s.live.None? && !s.crashed then 0 else size - 1)
    && 0 <= s.lost
    && s.lost + (if s.live.None? then s.stored - s.mark else 0) <= s.crashes * (size - 1)
  }

  lemma DrawKeepsInv(s: State, s': State, size: nat)
    requires size >= 2 && Inv(s, size) && Draw(s, s', size)
    requires Position(s) + size < TWO64
    ensures Inv(s', size)
  {
    var l, n := s.live.value, s'.live.value.i;
    assert n == l.i + 1 && LeaseEnd(l.i, size) == l.i + size - 1;
    assert forall k :: k in s'.issued ==> k in s.issued || k == n;
    forall i, j | 0 <= i < j < |s'.issued| ensures s'.issued[i] < s'.issued[j] {
      assert s'.issued[i] in s.issued;
    }
  }

  lemma DrawIsAbove(s: State, s': State, size: nat)
    requires Inv(s, size) && Draw(s, s', size) && Position(s) + size < TWO64 && size >= 2
    ensures Position(s') == Position(s) + 1 && s'.issued == s.issued + [Position(s')]
    ensures forall n :: n in s.issued ==> n < Position(s')
  {
  }

  lemma StepKeepsInv(s: State, s': State, size: nat)
    requires size >= 2 && Inv(s, size) && Step(s, s', size)
    requires Position(s) + size < TWO64 && Position(s') + size < TWO64
    ensures Inv(s', size)
  {
    hide Draw;
    if Crash(s, s') {
      assert s'.crashes * (size - 1) == s.crashes * (size - 1) + (size - 1);
    } else if Open(s, s', size) {
      assert LeaseEnd(s.stored, size) == s.stored + size - 1;
    } else if Draw(s, s', size) {
      DrawKeepsInv(s, s', size);
    }
  }

  lemma {:induction false} RunKeepsInv(states: seq<State>, size: nat)
    requires size >= 2 && Run(states, size)
    ensures Inv(states[|states| - 1], size)
  {
    if |states| > 1 {
      var before := states[..|states| - 1];
      RunKeepsInv(before, size);
      StepKeepsInv(before[|before| - 1], states[|states| - 1], size);
    }
  }

  /** With leases of at least two indexes, in every state of every run: issued indexes strictly
      increase, so none is reused; indexes issued and indexes lost account for the whole range up to
      the current position; a run without crashes loses none, and each crash loses at most
      `size - 1`. */
  lemma AllocatorIsSafe(states: seq<State>, size: nat)
    requires size >= 2 && Run(states, size)
    ensures
      var s := states[|states| - 1];
      && Increasing(s.issued)
      && Position(s) == |s.issued| + s.lost
      && 0 <= s.lost <= s.crashes * (size - 1)
      && (s.crashes == 0 ==> s.issued == seq(|s.issued|, n => n + 1))
  {
    RunKeepsInv(states, size);
    var s := states[|states| - 1];
    if s.crashes == 0 {
      assert |s.issued| == Position(s);
      NoGaps(s.issued, Position(s));
    }
  }

  /** Every step of a run accounts for its indexes: a draw issues the very next one, stopping skips
      none, and opening skips none after a clean close, or at first, and at most `size - 1` after a
      crash. */
  lemma EveryStepAccounts(states: seq<State>, n: nat, size: nat)
    requires size >= 2 && Run(states, size) && n + 1 < |states|
    ensures
      var s, s' := states[n], states[n + 1];
      && (Draw(s, s', size) ==> Position(s') == Position(s) + 1 && s'.issued == s.issued + [Position(s')])
      && (Open(s, s', size) ==>
            && s'.issued == s.issued && Position(s') - Position(s) == s'.lost - s.lost
            && 0 <= s'.lost - s.lost <= if s.crashed then size - 1 else 0)
      && (CloseCleanly(s, s') || Crash(s, s') ==>
            s'.issued == s.issued && Position(s') == Position(s) && s'.lost == s.lost)
  {
    hide Draw;
    var s, s' := states[n], states[n + 1];
    RunKeepsInv(states[..n + 1], size);
    if Draw(s, s', size) { DrawIsAbove(s, s', size); }
  }

  /** As many increasing indexes as there are positions fill the positions. */
  lemma {:induction false} NoGaps(ns: seq<nat>, top: nat)
    requires Increasing(ns) && |ns| == top && forall n :: n in ns ==> 0 < n <= top
    ensures ns == seq(|ns|, n => n + 1)
  {
    if ns != [] {
      forall k | 0 <= k < |ns| ensures ns[k] >= k + 1 { AtLeast(ns, k); }
      forall k | 0 <= k < |ns| ensures ns[k] <= k + 1 { AtMost(ns, k, top); }
    }
  }

  lemma {:induction false} AtLeast(ns: seq<nat>, k: nat)
    requires Increasing(ns) && k < |ns| && forall n :: n in ns ==> 0 < n
    ensures ns[k] >= k + 1
  {
    assert ns[k] in ns;
    if k > 0 { AtLeast(ns, k - 1); }
  }

  lemma {:induction false} AtMost(ns: seq<nat>, k: nat, top: nat)
    requires Increasing(ns) && k < |ns| == top && forall n :: n in ns ==> n <= top
    ensures ns[k] <= k + 1
    decreases top - k
  {
    assert ns[k] in ns;
    if k + 1 < top { AtMost(ns, k + 1, top); }
  }

  lemma Extend(states: seq<State>, s: State, size: nat)
    requires Run(states, size) && Step(states[|states| - 1], s, size) && Position(s) + size < TWO64
    ensures Run(states + [s], size)
  {
    var more := states + [s];
    forall n | 0 <= n < |more| - 1 ensures Step(more[n], more[n + 1], size) {
      if n < |states| - 1 { assert Step(states[n], states[n + 1], size); }
    }
  }

  /** Two lives with one draw each and a crash between them. */
  lemma CrashingRun(b: State, c: State, d: State, e: State, f: State, size: nat) returns (states: seq<State>)
    requires Open(START, b, size) && Draw(b, c, size) && Crash(c, d) && Open(d, e, size) && Draw(e, f, size)
    requires size < TWO64 && Position(b) + size < TWO64 && Position(c) + size < TWO64 && Position(d) + size < TWO64
    requires Position(e) + size < TWO64 && Position(f) + size < TWO64
    ensures Run(states, size) && states != [] && states[|states| - 1] == f
  {
    hide Run, Open, Draw, Crash, CloseCleanly, Position;
    OneStateRun(size);
    Extend([START], b, size);
    Extend([START] + [b], c, size);
    Extend([START] + [b] + [c], d, size);
    Extend([START] + [b] + [c] + [d], e, size);
    Extend([START] + [b] + [c] + [d] + [e], f, size);
    states := [START] + [b] + [c] + [d] + [e] + [f];
  }

  lemma LeaseOfOneRun() returns (states: seq<State>)
    ensures Run(states, 1) && states != [] && states[|states| - 1].issued == [1, 1]
  {
    hide Run, LeaseEnd, Drawn;
    var b := State(0, Some(Lease(0, 0)), [], 0, 0, 0, false);
    var c := b.(live := Some(Lease(1, 0)), issued := [1]);
    var d := c.(live := None, mark := 1, crashes := 1, crashed := true);
    var e := d.(live := Some(Lease(0, 0)), lost := -1);
    var f := e.(live := Some(Lease(1, 0)), issued := [1, 1]);
    assert b.issued + [1] == c.issued && e.issued + [1] == f.issued;
    LeasesOfOne();
    states := CrashingRun(b, c, d, e, f, 1);
  }

  lemma LeasesOfOne()
    ensures LeaseEnd(0, 1) == 0 && Drawn(Lease(0, 0), 1) == Lease(1, 0)
  {
  }

  lemma LeaseOfZeroRun() returns (states: seq<State>)
    ensures Run(states, 0) && states != [] && states[|states| - 1].issued == [1, 0]
  {
    hide Run;
    var end: nat :| end == TWO64 - 1;
    states := EmptyLeaseRun(end);
  }

  lemma EmptyLeaseRun(end: nat) returns (states: seq<State>)
    requires end == TWO64 - 1
    ensures Run(states, 0) && states != [] && states[|states| - 1].issued == [1, 0]
  {
    hide Run, LeaseEnd, Drawn, Open, Draw, Crash;
    var b, c, d := FirstLife(end);
    var e, f := SecondLife(end, d);
    states := CrashingRun(b, c, d, e, f, 0);
  }

  lemma FirstLife(end: nat) returns (b: State, c: State, d: State)
    requires end == TWO64 - 1
    ensures Open(START, b, 0) && Draw(b, c, 0) && Crash(c, d)
    ensures Position(b) == 0 && Position(c) == 1 && d == State(end, None, [1], 1, 0, 1, true)
  {
    hide LeaseEnd, Drawn, Draw, Crash;
    EmptyLeases(end);
    b := START.(stored := end, live := Some(Lease(0, end)));
    c := FirstDraw(b, end);
    d := Crashed(c);
  }

  lemma Crashed(c: State) returns (d: State)
    requires c.live.Some?
    ensures Crash(c, d)
    ensures d == c.(live := None, mark := c.live.value.i, crashes := c.crashes + 1, crashed := true)
  {
    d := c.(live := None, mark := c.live.value.i, crashes := c.crashes + 1, crashed := true);
  }

  lemma FirstDraw(b: State, end: nat) returns (c: State)
    requires end == TWO64 - 1 && b.issued == [] && b.live == Some(Lease(0, end))
    ensures Draw(b, c, 0) && c == b.(live := Some(Lease(1, end)), issued := [1])
  {
    hide LeaseEnd, Drawn;
    EmptyLeases(end);
    c := b.(live := Some(Lease(1, end)), issued := [1]);
    assert b.issued + [1] == [1];
  }

  lemma SecondLife(end: nat, d: State) returns (e: State, f: State)
    requires end == TWO64 - 1 && d == State(end, None, [1], 1, 0, 1, true)
    ensures Open(d, e, 0) && Draw(e, f, 0) && Position(e) == end && Position(f) == 0 && f.issued == [1, 0]
  {
    hide LeaseEnd, Drawn;
    EmptyLeases(end);
    e := d.(stored := end - 1, live := Some(Lease(end, end - 1)), lost := end - 1);
    f := e.(live := Some(Drawn(Lease(end, end - 1), 0)), issued := e.issued + [0]);
    assert [1] + [0] == [1, 0];
  }

  lemma EmptyLeases(end: nat)
    requires end == TWO64 - 1
    ensures LeaseEnd(0, 0) == end && LeaseEnd(end, 0) == end - 1
    ensures Drawn(Lease(0, end), 0) == Lease(1, end) && Drawn(Lease(end, end - 1), 0) == Lease(0, end - 1)
  {
    assert end + 1 == TWO64;
  }

  lemma NotIncreasing(ns: seq<nat>)
    requires |ns| == 2 && ns[0] >= ns[1]
    ensures !Increasing(ns)
  {
  }

  lemma OneStateRun(size: nat)
    requires size < TWO64
    ensures Run([START], size)
  {
  }

  /** Smaller leases do not survive a crash: with leases of one index the same index comes again,
      and with empty leases the counter wraps around. */
  lemma SmallLeasesReuseIndexes(size: nat)
    requires size < 2
    ensures exists states: seq<State> :: Run(states, size) && !Increasing(states[|states| - 1].issued)
  {
    hide Run, Increasing;
    if size == 0 {
      var states := LeaseOfZeroRun();
      NotIncreasing(states[|states| - 1].issued);
    } else {
      var states := LeaseOfOneRun();
      NotIncreasing(states[|states| - 1].issued);
    }
  }

  /** The exact condition: every run issues strictly increasing indexes if and only if the lease
      size is at least 2. */
  lemma SafeExactlyFromTwo(size: nat)
    ensures (forall states: seq<State> :: Run(states, size) ==> Increasing(states[|states| - 1].issued)) <==> size >= 2
  {
    hide Increasing;
    if size >= 2 {
      forall states: seq<State> | Run(states, size) ensures Increasing(states[|states| - 1].issued) {
        AllocatorIsSafe(states, size);
      }
    } else {
      SmallLeasesReuseIndexes(size);
    }
  }

  // ---------- Hand-over to a follower ----------

  predicate AllBatchesStorable(batches: seq<seq<Task>>) {
    forall n :: 0 <= n < |batches| ==> AllStorable(batches[n])
  }

  /** The store after a follower has applied these batches of tasks. */
  function Follow(kv: KV, batches: seq<seq<Task>>): KV
    requires AllBatchesStorable(batches)
  {
    if batches == [] then kv
    else Follow(kv, batches[..|batches| - 1]) + SavePuts(batches[|batches| - 1], true)
  }

  /** The queue's largest index in a batch, 0 when it has none: what that batch leaves in the key. */
  function BatchMax(tasks: seq<Task>, queue: Bytes): U64
    requires AllStorable(tasks)
  {
    if queue in MaxIndexes(tasks) then MaxIndexes(tasks)[queue] else 0
  }

  /** After a batch the sequence key holds the batch's largest index of the queue, whatever it held
      before; a batch without such tasks leaves it alone. */
  lemma BatchSetsKey(kv: KV, tasks: seq<Task>, queue: Bytes)
    requires AllStorable(tasks)
    ensures StoredIndex(kv + SavePuts(tasks, true), SeqKey(queue))
            == if BatchMax(tasks, queue) > 0 then BatchMax(tasks, queue) else StoredIndex(kv, SeqKey(queue))
  {
    hide Parse, SeqPuts, KindOf, MaxIndexes, TaskPuts;
    Kinds(queue, MIN);
    TaskPutsKind(tasks);
    MaxIndexesAt(tasks, queue);
    SeqPutsAt(MaxIndexes(tasks), queue);
  }

  /** Indexes of the queue appear in the log in increasing order, batch after batch. */
  predicate IncreasingIndexes(batches: seq<seq<Task>>, queue: Bytes)
    requires AllBatchesStorable(batches)
  {
    forall m, n :: 0 <= m < n < |batches| ==> AllBelow(batches[m], batches[n], queue)
  }

  predicate AllBelow(a: seq<Task>, b: seq<Task>, queue: Bytes)
    requires AllStorable(a) && AllStorable(b)
  {
    forall t, u :: t in a && u in b && t.queue == u.queue == queue ==> Index(IdOf(t)) < Index(IdOf(u))
  }

  predicate InLog(batches: seq<seq<Task>>, t: Task) { exists n :: 0 <= n < |batches| && t in batches[n] }

  lemma BatchMaxIs(tasks: seq<Task>, queue: Bytes)
    requires AllStorable(tasks)
    ensures forall t :: t in tasks && t.queue == queue ==> Index(IdOf(t)) <= BatchMax(tasks, queue)
    ensures BatchMax(tasks, queue) > 0 ==>
              exists t :: t in tasks && t.queue == queue && Index(IdOf(t)) == BatchMax(tasks, queue)
  {
    hide Parse, Index, MaxIndexes;
    MaxIndexesAt(tasks, queue);
  }

  /** The store and the in-memory half right after opening a sequence, as the constructor leaves them. */
  function Opened(kv: KV, key: Bytes, leaseSize: nat): Lease {
    Lease(StoredIndex(kv, key), LeaseEnd(StoredIndex(kv, key), leaseSize))
  }

  /** `n` draws in a row. */
  function DrawnTimes(l: Lease, leaseSize: nat, n: nat): Lease {
    if n == 0 then l else Drawn(DrawnTimes(l, leaseSize, n - 1), leaseSize)
  }

  lemma {:induction false} DrawsAdvance(l: Lease, leaseSize: nat, n: nat)
    requires l.i + n < TWO64
    ensures DrawnTimes(l, leaseSize, n).i == l.i + n
  {
    if n > 0 { DrawsAdvance(l, leaseSize, n - 1); }
  }

  /** The largest index of the queue in the last batch that has one. */
  function LastMax(batches: seq<seq<Task>>, queue: Bytes): U64
    requires AllBatchesStorable(batches)
  {
    if batches == [] then 0
    else
      var top := BatchMax(batches[|batches| - 1], queue);
      if top > 0 then top else LastMax(batches[..|batches| - 1], queue)
  }

  /** No batch holds an index of the queue above the largest of the last batch that has one. */
  predicate Settled(batches: seq<seq<Task>>, queue: Bytes)
    requires AllBatchesStorable(batches)
  {
    forall n :: 0 <= n < |batches| ==> BatchMax(batches[n], queue) <= LastMax(batches, queue)
  }

  /** The key after the log: what the last batch with an index left there, or the old key. */
  function KeyAfter(kv: KV, batches: seq<seq<Task>>, queue: Bytes): nat
    requires AllBatchesStorable(batches)
  {
    StoredIndex(Follow(kv, batches), SeqKey(queue))
  }

  lemma {:induction false} LastBatchSetsKey(kv: KV, batches: seq<seq<Task>>, queue: Bytes)
    requires AllBatchesStorable(batches)
    ensures KeyAfter(kv, batches, queue)
            == if LastMax(batches, queue) > 0 then LastMax(batches, queue) else StoredIndex(kv, SeqKey(queue))
  {
    hide Parse, SavePuts, BatchMax, SeqKey, Storable, StoredIndex;
    if batches != [] {
      var before, last := batches[..|batches| - 1], batches[|batches| - 1];
      LastBatchSetsKey(kv, before, queue);
      BatchSetsKey(Follow(kv, before), last, queue);
    }
  }

  lemma {:induction false} SomeMax(batches: seq<seq<Task>>, queue: Bytes, n: nat)
    requires AllBatchesStorable(batches) && n < |batches| && BatchMax(batches[n], queue) > 0
    ensures LastMax(batches, queue) > 0
  {
    hide BatchMax, Storable;
    if n < |batches| - 1 && BatchMax(batches[|batches| - 1], queue) == 0 {
      SomeMax(batches[..|batches| - 1], queue, n);
    }
  }

  /** The `n`th index that a sequence opened after the log issues. */
  function IssuedAfter(kv: KV, batches: seq<seq<Task>>, queue: Bytes, leaseSize: nat, n: nat): nat
    requires AllBatchesStorable(batches)
  {
    DrawnTimes(Opened(Follow(kv, batches), SeqKey(queue), leaseSize), leaseSize, n).i
  }

  lemma IssuedIs(kv: KV, batches: seq<seq<Task>>, queue: Bytes, leaseSize: nat, n: nat)
    requires AllBatchesStorable(batches) && KeyAfter(kv, batches, queue) + n < TWO64
    ensures IssuedAfter(kv, batches, queue, leaseSize, n) == KeyAfter(kv, batches, queue) + n
  {
    hide Follow, DrawnTimes;
    DrawsAdvance(Opened(Follow(kv, batches), SeqKey(queue), leaseSize), leaseSize, n);
  }

  /** Every index of a settled log is at most the key. */
  lemma SettledIsBelow(kv: KV, batches: seq<seq<Task>>, queue: Bytes, t: Task)
    requires AllBatchesStorable(batches) && Settled(batches, queue) && InLog(batches, t) && t.queue == queue
    ensures Storable(t) && Index(IdOf(t)) <= KeyAfter(kv, batches, queue)
  {
    hide Parse, Index, BatchMax, KeyAfter, LastMax, Storable;
    var n :| 0 <= n < |batches| && t in batches[n];
    BatchMaxIs(batches[n], queue);
    LastBatchSetsKey(kv, batches, queue);
  }

  /** A log that is not settled holds a task whose index lies above the key. */
  lemma UnsettledIsAbove(kv: KV, batches: seq<seq<Task>>, queue: Bytes) returns (t: Task)
    requires AllBatchesStorable(batches) && !Settled(batches, queue)
    ensures InLog(batches, t) && t.queue == queue && Storable(t) && Index(IdOf(t)) > KeyAfter(kv, batches, queue)
  {
    hide Parse, Index, BatchMax, KeyAfter, LastMax, Storable;
    var n :| 0 <= n < |batches| && BatchMax(batches[n], queue) > LastMax(batches, queue);
    BatchMaxIs(batches[n], queue);
    SomeMax(batches, queue, n);
    LastBatchSetsKey(kv, batches, queue);
    t :| t in batches[n] && t.queue == queue && Index(IdOf(t)) == BatchMax(batches[n], queue);
  }

  /** The `n`th index issued lies above the index of this task of the log. */
  predicate AboveTask(kv: KV, batches: seq<seq<Task>>, queue: Bytes, leaseSize: nat, t: Task, n: nat)
    requires AllBatchesStorable(batches)
  {
    InLog(batches, t) && t.queue == queue && 0 < n < TWO64 - KeyAfter(kv, batches, queue) ==>
      Storable(t) && Index(IdOf(t)) < IssuedAfter(kv, batches, queue, leaseSize, n)
  }

  /** The exact condition: a sequence opened on a follower after any log, over whatever key it held,
      issues only indexes above all of the log if and only if the log is settled. */
  lemma TakeoverIsSafeExactly(kv: KV, batches: seq<seq<Task>>, queue: Bytes, leaseSize: nat)
    requires AllBatchesStorable(batches)
    ensures Settled(batches, queue) <==> forall t, n: nat :: AboveTask(kv, batches, queue, leaseSize, t, n)
  {
    hide Parse, Index, KeyAfter, IssuedAfter, Settled, Storable, InLog, AllBatchesStorable;
    if Settled(batches, queue) {
      forall t, n: nat ensures AboveTask(kv, batches, queue, leaseSize, t, n) {
        if InLog(batches, t) && t.queue == queue && 0 < n < TWO64 - KeyAfter(kv, batches, queue) {
          SettledIsBelow(kv, batches, queue, t);
          IssuedIs(kv, batches, queue, leaseSize, n);
        }
      }
    } else {
      var t := UnsettledIsAbove(kv, batches, queue);
      IssuedIs(kv, batches, queue, leaseSize, 1);
      assert !AboveTask(kv, batches, queue, leaseSize, t, 1);
    }
  }

  /** The `n`th index issued is the index of this task of the log. */
  predicate Reuses(kv: KV, batches: seq<seq<Task>>, queue: Bytes, leaseSize: nat, t: Task, n: nat)
    requires AllBatchesStorable(batches)
  {
    && InLog(batches, t) && t.queue == queue && 0 < n < TWO64 - KeyAfter(kv, batches, queue)
    && Storable(t) && Index(IdOf(t)) == IssuedAfter(kv, batches, queue, leaseSize, n)
  }

  /** When the log is not settled the sequence goes on to issue an index the log already holds; when it
      is, it never does. */
  lemma OutOfOrderLogReuses(kv: KV, batches: seq<seq<Task>>, queue: Bytes, leaseSize: nat)
    requires AllBatchesStorable(batches)
    ensures !Settled(batches, queue) <==> exists t, n: nat :: Reuses(kv, batches, queue, leaseSize, t, n)
  {
    hide Parse, Index, KeyAfter, IssuedAfter, Settled, Storable, InLog, AllBatchesStorable;
    if Settled(batches, queue) {
      forall t, n: nat ensures !Reuses(kv, batches, queue, leaseSize, t, n) {
        assert AboveTask(kv, batches, queue, leaseSize, t, n) by {
          TakeoverIsSafeExactly(kv, batches, queue, leaseSize);
        }
      }
    } else {
      var t := UnsettledIsAbove(kv, batches, queue);
      var n := Index(IdOf(t)) - KeyAfter(kv, batches, queue);
      IssuedIs(kv, batches, queue, leaseSize, n);
      assert Reuses(kv, batches, queue, leaseSize, t, n);
    }
  }

  /** A log whose indexes increase from batch to batch is settled. */
  lemma IncreasingIsSettled(batches: seq<seq<Task>>, queue: Bytes)
    requires AllBatchesStorable(batches) && IncreasingIndexes(batches, queue)
    ensures Settled(batches, queue)
  {
    hide Parse, Index, BatchMax, Storable, LastMax;
    forall n | 0 <= n < |batches| ensures BatchMax(batches[n], queue) <= LastMax(batches, queue) {
      BatchMaxIs(batches[n], queue);
      if BatchMax(batches[n], queue) > 0 {
        SomeMax(batches, queue, n);
        var last := LastMaxIs(batches, queue);
        BatchMaxIs(batches[last], queue);
        assert n < last ==> AllBelow(batches[n], batches[last], queue);
      }
    }
  }

  /** The last batch that has an index of the queue. */
  lemma {:induction false} LastMaxIs(batches: seq<seq<Task>>, queue: Bytes) returns (last: nat)
    requires AllBatchesStorable(batches) && LastMax(batches, queue) > 0
    ensures last < |batches| && BatchMax(batches[last], queue) == LastMax(batches, queue)
    ensures forall n :: last < n < |batches| ==> BatchMax(batches[n], queue) == 0
  {
    hide BatchMax, Storable;
    last := |batches| - 1;
    if BatchMax(batches[last], queue) == 0 {
      last := LastMaxIs(batches[..|batches| - 1], queue);
    }
  }

  /** However an increasing log was cut into batches, and whatever the key held before, it ends up no
      less than any index of the log: it is one of them when the log has a positive index of the queue,
      and else the old key. */
  lemma FollowerKeyIsHighest(kv: KV, batches: seq<seq<Task>>, queue: Bytes)
    requires AllBatchesStorable(batches) && IncreasingIndexes(batches, queue)
    ensures
      var top := KeyAfter(kv, batches, queue);
      && (forall t :: InLog(batches, t) && t.queue == queue ==> Storable(t) && Index(IdOf(t)) <= top)
      && (if exists t :: InLog(batches, t) && t.queue == queue && Storable(t) && Index(IdOf(t)) > 0
          then exists t :: InLog(batches, t) && t.queue == queue && Storable(t) && Index(IdOf(t)) == top
          else top == StoredIndex(kv, SeqKey(queue)))
  {
    hide Parse, Index, KeyAfter, Settled, Storable, LastMax, BatchMax, StoredIndex;
    IncreasingIsSettled(batches, queue);
    forall t | InLog(batches, t) && t.queue == queue
      ensures Storable(t) && Index(IdOf(t)) <= KeyAfter(kv, batches, queue)
    {
      SettledIsBelow(kv, batches, queue, t);
    }
    LastBatchSetsKey(kv, batches, queue);
    if LastMax(batches, queue) > 0 {
      var last := LastMaxIs(batches, queue);
      BatchMaxIs(batches[last], queue);
      var t :| t in batches[last] && t.queue == queue && Index(IdOf(t)) == BatchMax(batches[last], queue);
      assert InLog(batches, t);
    } else {
      forall t | InLog(batches, t) && t.queue == queue && Storable(t) ensures Index(IdOf(t)) == 0 {
        var n :| 0 <= n < |batches| && t in batches[n];
        BatchMaxIs(batches[n], queue);
        if BatchMax(batches[n], queue) > 0 { SomeMax(batches, queue, n); }
      }
    }
  }

  lemma TakeoverIsSafe(kv: KV, batches: seq<seq<Task>>, queue: Bytes, leaseSize: nat, t: Task, n: nat)
    requires AllBatchesStorable(batches) && IncreasingIndexes(batches, queue)
    ensures AboveTask(kv, batches, queue, leaseSize, t, n)
  {
    hide AboveTask, Settled, AllBatchesStorable, IncreasingIndexes;
    IncreasingIsSettled(batches, queue);
    TakeoverIsSafeExactly(kv, batches, queue, leaseSize);
  }

  /** A sequence opened on a follower that takes over issues only indexes above every index in the
      log it applied. */
  lemma TakeoverNeverReuses(kv: KV, batches: seq<seq<Task>>, queue: Bytes, leaseSize: nat, n: nat)
    requires AllBatchesStorable(batches) && IncreasingIndexes(batches, queue)
    requires 0 < n < TWO64 - KeyAfter(kv, batches, queue)
    ensures
      forall t :: InLog(batches, t) && t.queue == queue ==>
        Storable(t) && Index(IdOf(t)) < IssuedAfter(kv, batches, queue, leaseSize, n)
  {
    hide Parse, Index, KeyAfter, IssuedAfter, Settled, Storable, InLog, AllBatchesStorable, IncreasingIndexes;
    forall t | InLog(batches, t) && t.queue == queue
      ensures Storable(t) && Index(IdOf(t)) < IssuedAfter(kv, batches, queue, leaseSize, n)
    {
      assert AboveTask(kv, batches, queue, leaseSize, t, n) by { TakeoverIsSafe(kv, batches, queue, leaseSize, t, n); }
    }
  }

  // ---------- A sequence that stays in the cache ----------

  /** The `n`th index drawn from a lease is the index of this task of the log. */
  predicate DrawsTask(l: Lease, leaseSize: nat, batches: seq<seq<Task>>, queue: Bytes, t: Task, n: nat)
    requires AllBatchesStorable(batches)
  {
    && InLog(batches, t) && t.queue == queue && 0 < n < TWO64 - l.i
    && Storable(t) && Index(IdOf(t)) == DrawnTimes(l, leaseSize, n).i
  }

  /** A sequence object that is kept while the replica follows another leader, and is then drawn from
      again, issues an index of the log it applied meanwhile if and only if that log has an index above
      the position of the object. */
  lemma CachedSequenceReusesExactly(l: Lease, leaseSize: nat, batches: seq<seq<Task>>, queue: Bytes)
    requires AllBatchesStorable(batches)
    ensures (exists t, n: nat :: DrawsTask(l, leaseSize, batches, queue, t, n)) <==>
            exists t :: InLog(batches, t) && t.queue == queue && Storable(t) && Index(IdOf(t)) > l.i
  {
    hide Parse, Index, Storable, InLog, AllBatchesStorable, DrawnTimes;
    forall t, n: nat | DrawsTask(l, leaseSize, batches, queue, t, n) ensures Index(IdOf(t)) > l.i {
      DrawsAdvance(l, leaseSize, n);
    }
    forall t | InLog(batches, t) && t.queue == queue && Storable(t) && Index(IdOf(t)) > l.i
      ensures DrawsTask(l, leaseSize, batches, queue, t, Index(IdOf(t)) - l.i)
    {
      DrawsAdvance(l, leaseSize, Index(IdOf(t)) - l.i);
    }
  }
}
