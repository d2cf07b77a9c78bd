/** Iteration over a range of tasks (storage/iterator.go). */
module Iteration {
  import opened ByteStrings
  import opened Ids
  import opened Keys
  import opened TaskStores

  // ---------- The database in key order ----------

  predicate Ascending(keys: seq<Bytes>) {
    forall i, j :: 0 <= i < j < |keys| ==> Less(keys[i], keys[j])
  }

  predicate IsLeast(k: Bytes, s: set<Bytes>) { k in s && forall x :: x in s ==> !Less(x, k) }

  lemma {:induction false} LeastExists(s: set<Bytes>)
    requires s != {}
    ensures exists k :: IsLeast(k, s)
    decreases |s|
  {
    var a :| a in s;
    var rest := s - {a};
    if rest == {} {
      LessIrreflexive(a);
      assert s == {a} + rest;
      assert IsLeast(a, s);
    } else {
      LeastExists(rest);
      var b :| IsLeast(b, rest);
      LessTotal(a, b);
      LessIrreflexive(a);
      if Less(a, b) {
        forall x | x in s ensures !Less(x, a) {
          if x != a && Less(x, a) { LessTransitive(x, a, b); }
        }
        assert IsLeast(a, s);
      } else {
        assert IsLeast(b, s);
      }
    }
  }

  lemma LeastUnique(a: Bytes, b: Bytes, s: set<Bytes>)
    requires IsLeast(a, s) && IsLeast(b, s)
    ensures a == b
  {
    LessTotal(a, b);
  }

  /** The keys in byte order, each once: what a point-in-time iterator walks over. */
  function SortedKeys(s: set<Bytes>): (keys: seq<Bytes>)
    ensures Ascending(keys)
    ensures forall k :: k in keys <==> k in s
    decreases |s|
  {
    if s == {} then []
    else
      LeastExists(s);
      assert forall a, b :: IsLeast(a, s) && IsLeast(b, s) ==> a == b by {
        forall a, b | IsLeast(a, s) && IsLeast(b, s) ensures a == b { LeastUnique(a, b, s); }
      }
      var k :| IsLeast(k, s);
      var rest := SortedKeys(s - {k});
      assert forall x :: x in rest ==> Less(k, x) by {
        forall x | x in rest ensures Less(k, x) { LessTotal(k, x); }
      }
      [k] + rest
  }

  // ---------- Ranges ----------

  datatype TaskRange =
    | ScheduledRange(queue: Bytes, startId: TaskId, endId: TaskId)
    | FifoRange(queue: Bytes, startIndex: U64, endIndex: U64)
  {
    function Prefix(): Bytes { if ScheduledRange? then SchedPrefix(queue) else FifoPrefix(queue) }

    function Start(): Bytes {
      if ScheduledRange? then SchedKey(queue, startId) else FifoKey(queue, New(ZERO_TIME, startIndex))
    }

    function End(): Bytes {
      if ScheduledRange? then SchedKey(queue, endId) else FifoKey(queue, New(ZERO_TIME, endIndex))
    }

    predicate Covers(key: Bytes) {
      HasPrefix(key, Prefix()) && !Less(key, Start()) && !Less(End(), key)
    }
  }

  /** The keys of `keys` inside the range, in the same order. */
  function Select(keys: seq<Bytes>, r: TaskRange): (chosen: seq<Bytes>)
    ensures forall k :: k in chosen <==> k in keys && r.Covers(k)
  {
    if keys == [] then []
    else if r.Covers(keys[0]) then [keys[0]] + Select(keys[1..], r)
    else Select(keys[1..], r)
  }

  lemma {:induction false} SelectAscending(keys: seq<Bytes>, r: TaskRange)
    requires Ascending(keys)
    ensures Ascending(Select(keys, r))
  {
    if keys != [] {
      SelectAscending(keys[1..], r);
      assert forall k :: k in keys[1..] ==> Less(keys[0], k);
    }
  }

  /** The keys of the database inside the range: filter, then sort. */
  function Window(kv: KV, r: TaskRange): (keys: seq<Bytes>)
    ensures forall k :: k in keys ==> k in kv
  {
    Select(SortedKeys(kv.Keys), r)
  }

  lemma {:induction false} PrefixContiguous(p: Bytes, a: Bytes, b: Bytes, c: Bytes)
    requires HasPrefix(a, p) && !Less(b, a) && !HasPrefix(b, p) && Less(b, c)
    ensures !HasPrefix(c, p)
  {
    if p != [] && HasPrefix(c, p) {
      assert a[0] == p[0] == c[0];
      if b != [] && b[0] == p[0] {
        assert a[1..][..|p| - 1] == p[1..] && c[1..][..|p| - 1] == p[1..];
        assert |b| >= |p| ==> b[..|p|] == [b[0]] + b[1..][..|p| - 1];
        PrefixContiguous(p[1..], a[1..], b[1..], c[1..]);
      }
    }
  }

  /** Once the cursor, moving up from the start of the range, meets a key outside the range,
      no later key is inside. */
  lemma NoneAfter(keys: seq<Bytes>, r: TaskRange)
    requires Ascending(keys) && keys != []
    requires !Less(keys[0], r.Start())
    requires !HasPrefix(keys[0], r.Prefix()) || Less(r.End(), keys[0])
    ensures Select(keys, r) == []
  {
    forall k | k in keys ensures !r.Covers(k) {
      if k != keys[0] {
        assert Less(keys[0], k);
        if Less(r.End(), keys[0]) {
          LessTransitive(r.End(), keys[0], k);
        } else {
          assert HasPrefix(r.Start(), r.Prefix());
          PrefixContiguous(r.Prefix(), r.Start(), keys[0], k);
        }
      }
    }
    NothingCovered(keys, r);
  }

  lemma {:induction false} NothingCovered(keys: seq<Bytes>, r: TaskRange)
    requires forall k :: k in keys ==> !r.Covers(k)
    ensures Select(keys, r) == []
  {
    if keys != [] { NothingCovered(keys[1..], r); }
  }

  lemma NoneBelow(keys: seq<Bytes>, r: TaskRange)
    requires keys != [] && Less(keys[0], r.Start())
    ensures Select(keys, r) == Select(keys[1..], r)
  {
  }

  // ---------- The cursor ----------

  datatype Item = Ok(task: Task) | Failed | Eof

  /** What peek makes of a value: a task with an id, or an error. */
  function Decode(v: Value): Item {
    if v.TaskValue? && v.task.id != "" then Ok(v.task) else Failed
  }

  class TaskIterator {
    const kv: KV
    const keys: seq<Bytes>
    const range: TaskRange
    var pos: nat

    ghost predicate Valid()
      reads this
    {
      && keys == SortedKeys(kv.Keys)
      && pos <= |keys|
      && (pos < |keys| ==> !Less(keys[pos], range.Start()))
    }

    /** The keys still to be visited. */
    ghost function Rest(): (rest: seq<Bytes>)
      reads this
      requires Valid()
      ensures forall k :: k in rest ==> k in kv
    {
      Select(keys[pos..], range)
    }

    /** Takes a view of the database and seeks to the start of the range. */
    constructor (db: Pebble, range: TaskRange)
      ensures Valid() && kv == db.kv && this.range == range
      ensures Rest() == Window(db.kv, range)
    {
      kv := db.kv;
      keys := SortedKeys(db.kv.Keys);
      this.range := range;
      pos := 0;
      new;
      assert keys[0..] == keys;
      while pos < |keys| && Less(keys[pos], range.Start())
        invariant pos <= |keys|
        invariant Select(keys[pos..], range) == Window(kv, range)
      {
        NoneBelow(keys[pos..], range);
        assert keys[pos..][1..] == keys[pos + 1..];
        pos := pos + 1;
      }
    }

    method Next() returns (item: Item)
      requires Valid()
      modifies this
      ensures Valid()
      ensures if old(Rest()) == [] then item == Eof && Rest() == []
              else item == Decode(kv[old(Rest())[0]]) && Rest() == old(Rest())[1..]
    {
      hide Less, Parse, SchedKey, FifoKey, SchedPrefix, FifoPrefix, SortedKeys, TaskRange.Start, TaskRange.End,
        TaskRange.Prefix;
      if !(pos < |keys| && HasPrefix(keys[pos], range.Prefix())) {
        if pos < |keys| { NoneAfter(keys[pos..], range); }
        return Eof;
      }
      if Less(range.End(), keys[pos]) {
        NoneAfter(keys[pos..], range);
        return Eof;
      }
      assert keys[pos..][1..] == keys[pos + 1..];
      item := Decode(kv[keys[pos]]);
      StillAbove(keys, pos, range.Start());
      pos := pos + 1;
    }

    /** Hands tasks to a callback that accepts `accepts` of them and then fails. A value that is not a
        task fails the iteration too. */
    method ForEach(accepts: nat) returns (seen: seq<Task>, failed: bool)
      requires Valid()
      modifies this
      ensures Valid()
      ensures
        var all := Yield(kv, old(Rest()));
        && seen == all[..if accepts < |all| then accepts else |all|]
        && failed == (accepts < |all| || |all| < |old(Rest())|)
    {
      hide Less, Parse, Select, SortedKeys, TaskRange.Start, Valid, Rest, Yield;
      seen := [];
      ghost var keys := Rest();
      ghost var all := Yield(kv, keys);
      while true
        invariant |seen| <= |all| && |seen| <= accepts && seen == all[..|seen|]
        invariant Valid() && Rest() == keys[|seen|..]
        invariant forall j :: 0 <= j < |seen| ==> Decode(kv[keys[j]]).Ok?
        decreases |all| - |seen|
      {
        var item := Next();
        if item.Eof? {
          return seen, false;
        }
        YieldAt(kv, keys, |seen|);
        if item.Failed? || |seen| == accepts {
          return seen, true;
        }
        seen := seen + [item.task];
      }
    }
  }

  lemma IdsAreNotEmpty(t: Task)
    requires Storable(t)
    ensures t.id != ""
  {
  }

  lemma StillAbove(keys: seq<Bytes>, pos: nat, start: Bytes)
    requires Ascending(keys) && pos < |keys| && !Less(keys[pos], start)
    ensures pos + 1 < |keys| ==> !Less(keys[pos + 1], start)
  {
    if pos + 1 < |keys| && Less(keys[pos + 1], start) {
      LessTransitive(keys[pos], keys[pos + 1], start);
    }
  }

  // ---------- Stores that this program writes ----------

  /** Every entry sits under its own key. */
  ghost predicate WellFormed(kv: KV) {
    forall k :: k in kv ==> WellPlaced(k, kv[k])
  }

  predicate WellPlaced(k: Bytes, v: Value) {
    match v
    case TaskValue(t) => Storable(t) && k == TaskKey(t)
    case ConfigValue(c) => k == ConfigKey(c.id)
    case SeqValue(_) => KindOf(k) == SeqKind
  }

  /** How many bytes follow the prefix of a task key. */
  function Width(scheduled: bool): nat { if scheduled then 16 else 8 }

  /** The names of the queues that hold tasks of one kind are separate from `queue`. */
  predicate Apart(kv: KV, queue: Bytes, scheduled: bool) {
    forall k :: k in kv && kv[k].TaskValue? && kv[k].task.scheduleTime.Some? == scheduled ==>
      Separate(queue, kv[k].task.queue, Width(scheduled))
  }

  /** For '#'-free names this always holds. */
  lemma HashFreeIsApart(kv: KV, queue: Bytes, scheduled: bool)
    requires HashFree(queue) && forall k :: k in kv && kv[k].TaskValue? ==> HashFree(kv[k].task.queue)
    ensures Apart(kv, queue, scheduled)
  {
    forall k | k in kv && kv[k].TaskValue? ensures Separate(queue, kv[k].task.queue, Width(scheduled)) {
      HashFreeAreSeparate(queue, kv[k].task.queue, Width(scheduled));
    }
  }

  lemma ApartSave(kv: KV, tasks: seq<Task>, saveIndex: bool, queue: Bytes, scheduled: bool)
    requires Apart(kv, queue, scheduled) && AllStorable(tasks)
    requires forall t :: t in tasks && t.scheduleTime.Some? == scheduled ==> Separate(queue, t.queue, Width(scheduled))
    ensures Apart(kv + SavePuts(tasks, saveIndex), queue, scheduled)
  {
    hide Parse, TaskKey, Separate, SeqPuts, MaxIndexes;
    var puts := SavePuts(tasks, saveIndex);
    forall k | k in puts && puts[k].TaskValue? && puts[k].task.scheduleTime.Some? == scheduled
      ensures Separate(queue, puts[k].task.queue, Width(scheduled))
    {
      TaskPutsAt(tasks, k);
      SeqPutsAreIndexes(MaxIndexes(tasks), k);
      var i: nat :| LastWith(tasks, k, i);
      assert tasks[i] in tasks;
    }
  }

  lemma SeqPutsAreIndexes(indexes: map<Bytes, U64>, k: Bytes)
    ensures k in SeqPuts(indexes) ==> SeqPuts(indexes)[k].SeqValue?
  {
  }

  lemma WellFormedSave(kv: KV, tasks: seq<Task>, saveIndex: bool)
    requires WellFormed(kv) && AllStorable(tasks)
    ensures WellFormed(kv + SavePuts(tasks, saveIndex))
  {
    var puts := SavePuts(tasks, saveIndex);
    forall k | k in kv + puts ensures WellPlaced(k, (kv + puts)[k]) {
      TaskPutsAt(tasks, k);
      if saveIndex && k in SeqPuts(MaxIndexes(tasks)) {
        var q :| q in MaxIndexes(tasks) && k == SeqKey(q);
        SeqPutsAt(MaxIndexes(tasks), q);
        Kinds(q, MIN);
      } else if k in TaskPuts(tasks) {
        var i: nat :| LastWith(tasks, k, i);
        assert tasks[i] in tasks;
      }
    }
  }

  lemma WellFormedDelete(kv: KV, gone: set<Bytes>)
    requires WellFormed(kv)
    ensures WellFormed(kv - gone)
  {
  }

  // ---------- The range as numbers ----------

  /** A stored task of the queue and kind the range asks for. */
  predicate OfRange(t: Task, r: TaskRange) {
    Storable(t) && t.queue == r.queue && t.scheduleTime.Some? == r.ScheduledRange?
  }

  /** The number a range compares: the index (FIFO) or the id as a whole (scheduled). */
  function Rank(t: Task): nat
    requires Storable(t)
  {
    if t.scheduleTime.None? then Index(IdOf(t)) else Number(IdOf(t))
  }

  predicate InBounds(t: Task, r: TaskRange)
    requires Storable(t)
  {
    if r.ScheduledRange? then Number(r.startId) <= Rank(t) <= Number(r.endId)
    else r.startIndex <= Rank(t) <= r.endIndex
  }

  lemma KeyOrder(t: Task, u: Task)
    requires Storable(t) && Storable(u)
    requires t.queue == u.queue && t.scheduleTime.Some? == u.scheduleTime.Some?
    ensures Less(TaskKey(t), TaskKey(u)) <==> Rank(t) < Rank(u)
  {
    if t.scheduleTime.None? {
      IndexOrder(t.queue, Index(IdOf(t)), Index(IdOf(u)));
    } else {
      LessSamePrefix(SchedPrefix(t.queue), IdOf(t), IdOf(u));
      LessIsNumeric(IdOf(t), IdOf(u));
    }
  }

  lemma IndexOrder(queue: Bytes, a: U64, b: U64)
    ensures Less(FifoPrefix(queue) + ToBE(a, 8), FifoPrefix(queue) + ToBE(b, 8)) <==> a < b
  {
    LessSamePrefix(FifoPrefix(queue), ToBE(a, 8), ToBE(b, 8));
    LessIsNumeric(ToBE(a, 8), ToBE(b, 8));
    Pow64();
    DecodeEncode(a, 8);
    DecodeEncode(b, 8);
  }

  lemma CoversSched(t: Task, r: TaskRange)
    requires Storable(t) && t.scheduleTime.Some? && r.ScheduledRange? && t.queue == r.queue
    ensures r.Covers(TaskKey(t)) <==> InBounds(t, r)
  {
    hide Less, Parse, SchedPrefix;
    LessSamePrefix(SchedPrefix(r.queue), IdOf(t), r.startId);
    LessSamePrefix(SchedPrefix(r.queue), r.endId, IdOf(t));
    LessIsNumeric(IdOf(t), r.startId);
    LessIsNumeric(r.endId, IdOf(t));
  }

  lemma CoversFifo(t: Task, r: TaskRange)
    requires Storable(t) && t.scheduleTime.None? && r.FifoRange? && t.queue == r.queue
    ensures r.Covers(TaskKey(t)) <==> InBounds(t, r)
  {
    hide Less, Parse, FifoPrefix, New, Index;
    NewParts(ZERO_TIME, r.startIndex);
    NewParts(ZERO_TIME, r.endIndex);
    IndexOrder(r.queue, Index(IdOf(t)), r.startIndex);
    IndexOrder(r.queue, r.endIndex, Index(IdOf(t)));
  }

  lemma CoversOther(t: Task, r: TaskRange)
    requires Storable(t) && !OfRange(t, r)
    requires t.scheduleTime.Some? == r.ScheduledRange? ==> Separate(r.queue, t.queue, Width(r.ScheduledRange?))
    ensures !r.Covers(TaskKey(t))
  {
    hide Less, Parse, FifoPrefix, SchedPrefix, FifoKey, SchedKey, KindOf, Separate, TaskRange.Start, TaskRange.End;
    PrefixKind(r.queue, TaskKey(t));
    TaskKeyKind(t);
    if t.queue != r.queue { SeparateExactly(r.queue, t.queue); }
  }

  /** A stored entry is inside the range exactly when it is a task of that queue and kind with its
      index or id between the bounds, both included. */
  lemma CoversIsNumeric(kv: KV, key: Bytes, r: TaskRange)
    requires WellFormed(kv) && key in kv && Apart(kv, r.queue, r.ScheduledRange?)
    ensures r.Covers(key) <==> kv[key].TaskValue? && OfRange(kv[key].task, r) && InBounds(kv[key].task, r)
  {
    hide Less, Parse, TaskRange.Start, TaskRange.End, KindOf, InBounds, TaskKey;
    PrefixKind(r.queue, key);
    assert WellPlaced(key, kv[key]);
    match kv[key] {
      case TaskValue(t) =>
        if !OfRange(t, r) {
          CoversOther(t, r);
        } else if r.ScheduledRange? {
          CoversSched(t, r);
        } else {
          CoversFifo(t, r);
        }
      case ConfigValue(c) => Kinds(c.id, MIN);
      case SeqValue(_) =>
    }
  }

  /** The tasks a pass over the range visits, in order. */
  function Visited(kv: KV, r: TaskRange): seq<Task> {
    var keys := Window(kv, r);
    seq(|keys|, i requires 0 <= i < |keys| => TaskAt(kv, keys[i]))
  }

  function TaskAt(kv: KV, key: Bytes): Task {
    if key in kv && kv[key].TaskValue? then kv[key].task
    else Task("", [], map[], [], None, None, 0)
  }

  predicate Stored(kv: KV, t: Task) {
    Storable(t) && TaskKey(t) in kv && kv[TaskKey(t)] == TaskValue(t)
  }

  predicate AscendingRanks(tasks: seq<Task>)
    requires AllStorable(tasks)
  {
    forall i, j :: 0 <= i < j < |tasks| ==> Rank(tasks[i]) < Rank(tasks[j])
  }

  /** Iterating a range is filtering the stored tasks by queue, kind and bounds, then sorting:
      every such task is visited once, nothing else is, and the ranks strictly increase. */
  lemma IterationRefinesFilterAndSort(kv: KV, r: TaskRange)
    requires WellFormed(kv) && Apart(kv, r.queue, r.ScheduledRange?)
    ensures forall k :: k in Window(kv, r) ==> k in kv && Decode(kv[k]).Ok?
    ensures AllStorable(Visited(kv, r)) && AscendingRanks(Visited(kv, r))
    ensures forall t :: t in Visited(kv, r) <==> Stored(kv, t) && OfRange(t, r) && InBounds(t, r)
  {
    hide Less, Parse, Select, SortedKeys, Rank, TaskKey, InBounds, Index, TaskRange.Covers;
    var keys, tasks := Window(kv, r), Visited(kv, r);
    forall k | k in keys
      ensures k in kv && Decode(kv[k]).Ok? && Stored(kv, TaskAt(kv, k))
      ensures OfRange(TaskAt(kv, k), r) && InBounds(TaskAt(kv, k), r) && k == TaskKey(TaskAt(kv, k))
    {
      CoversIsNumeric(kv, k, r);
      assert WellPlaced(k, kv[k]);
      IdsAreNotEmpty(kv[k].task);
    }
    forall t | t in tasks ensures Storable(t) {
      var i :| 0 <= i < |tasks| && t == tasks[i];
      assert keys[i] in keys;
    }
    SelectAscending(SortedKeys(kv.Keys), r);
    forall i, j | 0 <= i < j < |tasks| ensures Rank(tasks[i]) < Rank(tasks[j]) {
      assert keys[i] in keys && keys[j] in keys && Less(keys[i], keys[j]);
      KeyOrder(tasks[i], tasks[j]);
    }
    forall t ensures t in tasks <==> Stored(kv, t) && OfRange(t, r) && InBounds(t, r) {
      if t in tasks {
        var i :| 0 <= i < |tasks| && t == tasks[i];
        assert keys[i] in keys;
      }
      if Stored(kv, t) && OfRange(t, r) && InBounds(t, r) {
        CoversIsNumeric(kv, TaskKey(t), r);
        assert TaskKey(t) in keys;
        var i :| 0 <= i < |keys| && keys[i] == TaskKey(t);
        assert tasks[i] == t;
      }
    }
  }

  /** The tasks an iteration over these keys yields before it meets a value that is not a task. */
  function Yield(kv: KV, keys: seq<Bytes>): (tasks: seq<Task>)
    requires forall k :: k in keys ==> k in kv
    ensures |tasks| <= |keys|
  {
    if keys == [] || !Decode(kv[keys[0]]).Ok? then []
    else [kv[keys[0]].task] + Yield(kv, keys[1..])
  }

  lemma {:induction false} YieldAt(kv: KV, keys: seq<Bytes>, i: nat)
    requires (forall k :: k in keys ==> k in kv) && i < |keys|
    requires forall j :: 0 <= j < i ==> Decode(kv[keys[j]]).Ok?
    ensures i < |Yield(kv, keys)| <==> Decode(kv[keys[i]]).Ok?
    ensures Decode(kv[keys[i]]).Ok? ==> Yield(kv, keys)[i] == kv[keys[i]].task
    ensures i <= |Yield(kv, keys)|
  {
    if i > 0 {
      assert Decode(kv[keys[0]]).Ok?;
      YieldAt(kv, keys[1..], i - 1);
    }
  }

  /** In a store this program wrote, an iteration yields all it visits. */
  lemma {:induction false} YieldsAll(kv: KV, keys: seq<Bytes>)
    requires forall k :: k in keys ==> k in kv && Decode(kv[k]).Ok?
    ensures |Yield(kv, keys)| == |keys|
    ensures forall i :: 0 <= i < |keys| ==> Yield(kv, keys)[i] == TaskAt(kv, keys[i])
  {
    if keys != [] { YieldsAll(kv, keys[1..]); }
  }

  /** In a store this program wrote, a pass over a range yields exactly what it visits. */
  lemma YieldIsVisited(kv: KV, r: TaskRange)
    requires WellFormed(kv) && Apart(kv, r.queue, r.ScheduledRange?)
    ensures Yield(kv, Window(kv, r)) == Visited(kv, r)
  {
    hide Yield, Window, WellFormed, TaskAt, Decode;
    IterationRefinesFilterAndSort(kv, r);
    YieldsAll(kv, Window(kv, r));
  }
}
