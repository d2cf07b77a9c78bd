/** Records and database keys (proto/model.proto, storage/task.go, storage/queue.go).

    Encoding a record to bytes is the identity here: a stored value is the record itself.
 */
module Keys {
  import opened ByteStrings
  import opened Ids

  datatype Task = Task(
    id: string,
    queue: Bytes,
    metadata: map<string, string>,
    payload: Bytes,
    scheduleTime: Option<int>,
    lastRetry: Option<int>,
    createdAt: int)

  datatype Ack = Ack(queue: Bytes, taskId: string)

  datatype QueueConfig = QueueConfig(
    id: Bytes,
    lastScheduled: string,
    lastQueued: string,
    ackDeadlineSeconds: int)

  datatype Value = TaskValue(task: Task) | ConfigValue(config: QueueConfig) | SeqValue(index: nat)

  type KV = map<Bytes, Value>

  const HASH: Byte := 0x23

  const TASK_FIFO: Bytes := [0x74, 0x61, 0x73, 0x6B, 0x23, 0x66, 0x69, 0x66, 0x6F, 0x23]             // "task#fifo#"
  const TASK_SCHED: Bytes := [0x74, 0x61, 0x73, 0x6B, 0x23, 0x73, 0x63, 0x68, 0x65, 0x64, 0x23]      // "task#sched#"
  const QUEUE_CONFIG: Bytes :=
    [0x71, 0x75, 0x65, 0x75, 0x65, 0x23, 0x63, 0x6F, 0x6E, 0x66, 0x69, 0x67, 0x23]                   // "queue#config#"
  const QUEUE_SEQ: Bytes := [0x71, 0x75, 0x65, 0x75, 0x65, 0x23, 0x73, 0x65, 0x71, 0x23]             // "queue#seq#"

  function FifoPrefix(queue: Bytes): Bytes { TASK_FIFO + queue + [HASH] }

  function SchedPrefix(queue: Bytes): Bytes { TASK_SCHED + queue + [HASH] }

  function FifoKey(queue: Bytes, id: TaskId): Bytes { FifoPrefix(queue) + ToBE(Index(id), 8) }

  function SchedKey(queue: Bytes, id: TaskId): Bytes { SchedPrefix(queue) + id }

  function ConfigKey(queue: Bytes): Bytes { QUEUE_CONFIG + queue }

  function SeqKey(queue: Bytes): Bytes { QUEUE_SEQ + queue }

  /** A task that SaveAll accepts: MustParseString panics on any other. */
  predicate Storable(t: Task) { Parse(t.id).Some? }

  function IdOf(t: Task): TaskId
    requires Storable(t)
  {
    Parse(t.id).value
  }

  /** getTaskKey: the schedule time of the record decides between the two kinds. */
  function TaskKey(t: Task): Bytes
    requires Storable(t)
  {
    if t.scheduleTime.None? then FifoKey(t.queue, IdOf(t)) else SchedKey(t.queue, IdOf(t))
  }

  /** getAckKey: here the time inside the id decides; None is an unreadable id. */
  function AckKey(a: Ack): Option<Bytes> {
    match Parse(a.taskId)
    case None => None
    case Some(id) => Some(if Time(id).None? then FifoKey(a.queue, id) else SchedKey(a.queue, id))
  }

  // ---------- Kinds of keys ----------

  datatype Kind = FifoKind | SchedKind | ConfigKind | SeqKind | OtherKind

  function KindOf(key: Bytes): Kind {
    if |key| > 6 && key[0] == 0x74 && key[5] == 0x66 then FifoKind
    else if |key| > 6 && key[0] == 0x74 && key[5] == 0x73 then SchedKind
    else if |key| > 6 && key[0] == 0x71 && key[6] == 0x63 then ConfigKind
    else if |key| > 6 && key[0] == 0x71 && key[6] == 0x73 then SeqKind
    else OtherKind
  }

  /** The four kinds of key never collide, whatever the queue name. */
  lemma Kinds(queue: Bytes, id: TaskId)
    ensures KindOf(FifoKey(queue, id)) == FifoKind
    ensures KindOf(SchedKey(queue, id)) == SchedKind
    ensures KindOf(ConfigKey(queue)) == ConfigKind
    ensures KindOf(SeqKey(queue)) == SeqKind
  {
  }

  lemma SplitTail(a: Bytes, b: Bytes, c: Bytes, d: Bytes)
    requires a + b == c + d && |b| == |d|
    ensures a == c && b == d
  {
    assert (a + b)[..|a|] == a && (c + d)[..|a|] == c;
    assert (a + b)[|a|..] == b && (c + d)[|a|..] == d;
  }

  lemma FifoKeyInjective(q: Bytes, id: TaskId, q': Bytes, id': TaskId)
    ensures FifoKey(q, id) == FifoKey(q', id') <==> q == q' && Index(id) == Index(id')
  {
    if FifoKey(q, id) == FifoKey(q', id') {
      SplitTail(FifoPrefix(q), ToBE(Index(id), 8), FifoPrefix(q'), ToBE(Index(id'), 8));
      SplitTail(TASK_FIFO + q, [HASH], TASK_FIFO + q', [HASH]);
      assert (TASK_FIFO + q)[|TASK_FIFO|..] == q && (TASK_FIFO + q')[|TASK_FIFO|..] == q';
      Pow64();
      DecodeEncode(Index(id), 8);
      DecodeEncode(Index(id'), 8);
    }
  }

  lemma SchedKeyInjective(q: Bytes, id: TaskId, q': Bytes, id': TaskId)
    ensures SchedKey(q, id) == SchedKey(q', id') <==> q == q' && id == id'
  {
    if SchedKey(q, id) == SchedKey(q', id') {
      SplitTail(SchedPrefix(q), id, SchedPrefix(q'), id');
      SplitTail(TASK_SCHED + q, [HASH], TASK_SCHED + q', [HASH]);
      assert (TASK_SCHED + q)[|TASK_SCHED|..] == q && (TASK_SCHED + q')[|TASK_SCHED|..] == q';
    }
  }

  lemma QueueKeysInjective(q: Bytes, q': Bytes)
    ensures SeqKey(q) == SeqKey(q') <==> q == q'
    ensures ConfigKey(q) == ConfigKey(q') <==> q == q'
  {
    assert SeqKey(q)[|QUEUE_SEQ|..] == q && SeqKey(q')[|QUEUE_SEQ|..] == q';
    assert ConfigKey(q)[|QUEUE_CONFIG|..] == q && ConfigKey(q')[|QUEUE_CONFIG|..] == q';
  }

  /** Two tasks share a key exactly when they are of one kind, in one queue, with one index (FIFO)
      or one id (scheduled). */
  lemma TaskKeyInjective(t: Task, u: Task)
    requires Storable(t) && Storable(u)
    ensures TaskKey(t) == TaskKey(u) <==>
            && t.queue == u.queue
            && t.scheduleTime.None? == u.scheduleTime.None?
            && (if t.scheduleTime.None? then Index(IdOf(t)) == Index(IdOf(u)) else IdOf(t) == IdOf(u))
  {
    Kinds(t.queue, IdOf(t));
    Kinds(u.queue, IdOf(u));
    FifoKeyInjective(t.queue, IdOf(t), u.queue, IdOf(u));
    SchedKeyInjective(t.queue, IdOf(t), u.queue, IdOf(u));
  }

  lemma TaskKeyKind(t: Task)
    requires Storable(t)
    ensures KindOf(TaskKey(t)) == if t.scheduleTime.None? then FifoKind else SchedKind
  {
    Kinds(t.queue, IdOf(t));
  }

  lemma AckKeyKind(a: Ack)
    requires AckKey(a).Some?
    ensures KindOf(AckKey(a).value) in {FifoKind, SchedKind}
  {
    Kinds(a.queue, Parse(a.taskId).value);
  }

  // ---------- Isolation between queues ----------

  predicate HashFree(queue: Bytes) { HASH !in queue }

  /** A key of queue `q'` that ends in `tail` falls under the prefix of another queue `q`: either the
      name of `q'` goes on after `q#`, or the name of `q` goes on after `q'#` and the tail happens to
      spell the rest of it. */
  predicate Clash(q: Bytes, q': Bytes, tail: Bytes) {
    || HasPrefix(q', q + [HASH])
    || (HasPrefix(q, q' + [HASH]) && HasPrefix(tail, q[|q'| + 1..] + [HASH]))
  }

  lemma PrefixExactly(p: Bytes, q: Bytes, q': Bytes, tail: Bytes)
    ensures HasPrefix(p + q' + [HASH] + tail, p + q + [HASH]) <==> q == q' || Clash(q, q', tail)
  {
    var key, head := q' + [HASH] + tail, q + [HASH];
    assert p + q' + [HASH] + tail == p + key && p + q + [HASH] == p + head;
    SamePrefix(p, key, head);
    if |q| < |q'| {
      assert HasPrefix(key, head) <==> HasPrefix(q', head) by { assert key[..|head|] == q'[..|head|]; }
    } else if |q| == |q'| {
      assert key[..|head|] == q' + [HASH];
      assert head[..|q|] == q && (q' + [HASH])[..|q|] == q';
    } else {
      var short, rest := q' + [HASH], q[|q'| + 1..] + [HASH];
      assert head == q[..|short|] + rest;
      assert HasPrefix(key, head) ==> key[..|head|][..|short|] == key[..|short|] == short;
      if q[..|short|] == short {
        SamePrefix(short, tail, rest);
      }
    }
  }

  lemma SamePrefix(p: Bytes, a: Bytes, b: Bytes)
    ensures HasPrefix(p + a, p + b) <==> HasPrefix(a, b)
  {
    if |b| <= |a| {
      assert (p + a)[..|p + b|] == p + a[..|b|];
      assert (p + b)[|p|..] == b && (p + a[..|b|])[|p|..] == a[..|b|];
    }
  }

  /** Exactly when a queue's prefix matches a task key, for all queue names. */
  lemma PrefixMatches(q: Bytes, q': Bytes, id: TaskId)
    ensures HasPrefix(FifoKey(q', id), FifoPrefix(q)) <==> q == q' || Clash(q, q', ToBE(Index(id), 8))
    ensures HasPrefix(SchedKey(q', id), SchedPrefix(q)) <==> q == q' || Clash(q, q', id)
  {
    PrefixExactly(TASK_FIFO, q, q', ToBE(Index(id), 8));
    PrefixExactly(TASK_SCHED, q, q', id);
  }

  /** Names whose tasks are kept apart, when the part after the name has `width` bytes. */
  predicate Separate(q: Bytes, q': Bytes, width: nat) {
    !HasPrefix(q', q + [HASH]) && !(HasPrefix(q, q' + [HASH]) && |q| - |q'| <= width)
  }

  /** The exact condition on the names: no task of `q'` falls under the prefix of `q`, whatever its id,
      if and only if the names are separate. */
  lemma SeparateExactly(q: Bytes, q': Bytes)
    requires q != q'
    ensures Separate(q, q', 8) <==> forall id: TaskId :: !HasPrefix(FifoKey(q', id), FifoPrefix(q))
    ensures Separate(q, q', 16) <==> forall id: TaskId :: !HasPrefix(SchedKey(q', id), SchedPrefix(q))
  {
    hide FifoKey, SchedKey, FifoPrefix, SchedPrefix;
    forall id: TaskId ensures Separate(q, q', 8) ==> !HasPrefix(FifoKey(q', id), FifoPrefix(q)) {
      PrefixMatches(q, q', id);
    }
    forall id: TaskId ensures Separate(q, q', 16) ==> !HasPrefix(SchedKey(q', id), SchedPrefix(q)) {
      PrefixMatches(q, q', id);
    }
    if !Separate(q, q', 8) {
      var tail := ClashingTail(q, q', 8);
      var id: TaskId := ToBE(0, 8) + tail;
      Pow64();
      EncodeDecode(tail);
      BoundBE(tail);
      assert id[8..] == tail;
      PrefixMatches(q, q', id);
    }
    if !Separate(q, q', 16) {
      var id := ClashingTail(q, q', 16);
      PrefixMatches(q, q', id);
    }
  }

  lemma ClashingTail(q: Bytes, q': Bytes, width: nat) returns (tail: Bytes)
    requires !Separate(q, q', width)
    ensures |tail| == width && Clash(q, q', tail)
  {
    tail := ToBE(0, width);
    if !HasPrefix(q', q + [HASH]) {
      var rest := q[|q'| + 1..] + [HASH];
      tail := rest + ToBE(0, width - |rest|);
    }
  }

  lemma HashFreeAreSeparate(q: Bytes, q': Bytes, width: nat)
    requires HashFree(q) && HashFree(q')
    ensures Separate(q, q', width)
  {
    HasHash(q', q);
    HasHash(q, q');
  }

  lemma HasHash(a: Bytes, b: Bytes)
    ensures HasPrefix(a, b + [HASH]) ==> HASH in a
  {
    if HasPrefix(a, b + [HASH]) { assert a[..|b| + 1][|b|] == HASH; }
  }

  /** With '#'-free names, a queue's prefix matches that queue's own tasks and nothing else. */
  lemma PrefixIsolation(q: Bytes, q': Bytes, id: TaskId)
    requires HashFree(q) && HashFree(q')
    ensures HasPrefix(FifoKey(q', id), FifoPrefix(q)) <==> q == q'
    ensures HasPrefix(SchedKey(q', id), SchedPrefix(q)) <==> q == q'
  {
    hide FifoKey, SchedKey, FifoPrefix, SchedPrefix;
    HashFreeAreSeparate(q, q', 8);
    HashFreeAreSeparate(q, q', 16);
    PrefixMatches(q, q', id);
    if q != q' { SeparateExactly(q, q'); }
  }

  /** For every queue name there are others whose tasks all match its prefix: those that go on after a
      '#'. */
  lemma HashLeaks(q: Bytes, suffix: Bytes, id: TaskId)
    ensures HasPrefix(FifoKey(q + [HASH] + suffix, id), FifoPrefix(q))
    ensures HasPrefix(SchedKey(q + [HASH] + suffix, id), SchedPrefix(q))
  {
    hide FifoKey, SchedKey, FifoPrefix, SchedPrefix;
    PrefixMatches(q, q + [HASH] + suffix, id);
  }

  /** The other way round, a task of a '#'-free queue can match the prefix of a name with '#': its id
      only has to spell the rest of that name. */
  lemma IdLeaks(q: Bytes, rest: Bytes, id: TaskId)
    requires HasPrefix(id, rest + [HASH])
    ensures HasPrefix(SchedKey(q, id), SchedPrefix(q + [HASH] + rest))
  {
    hide SchedKey, SchedPrefix;
    var q' := q + [HASH] + rest;
    assert q'[|q| + 1..] == rest;
    PrefixMatches(q', q, id);
  }

  /** The prefixes of one kind of task never match keys of another kind. */
  lemma PrefixKind(q: Bytes, key: Bytes)
    ensures HasPrefix(key, FifoPrefix(q)) ==> KindOf(key) == FifoKind
    ensures HasPrefix(key, SchedPrefix(q)) ==> KindOf(key) == SchedKind
  {
    if HasPrefix(key, FifoPrefix(q)) {
      assert key[0] == FifoPrefix(q)[0] && key[5] == FifoPrefix(q)[5];
    }
    if HasPrefix(key, SchedPrefix(q)) {
      assert key[0] == SchedPrefix(q)[0] && key[5] == SchedPrefix(q)[5];
    }
  }
}
