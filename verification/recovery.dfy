/** Losing the in-memory half of a replica: a snapshot followed by the rest of the log
    (server/cluster/sm/fsm.go), and a restart that replays the log over the existing store
    (server/cluster/peer.go). The ack buffer is in neither. */
module Recovery {
  import opened ByteStrings
  import opened Ids
  import opened Keys
  import opened TaskStores
  import opened StateMachines
  import opened Snapshots

  /** `got` holds everything `want` holds, and beyond that only keys of `extra`. */
  predicate Covers(got: KV, want: KV, extra: set<Bytes>) {
    && (forall k :: k in want ==> k in got && got[k] == want[k])
    && (forall k :: k in got ==> k in want || k in extra)
  }

  // ---------- What a log touches ----------

  function Touches(c: Command): set<Bytes>
    requires c.SaveTask? ==> Storable(c.task)
  {
    match c
    case SaveTask(t) => {TaskKey(t)}
    case AckTask(a) => if AckKey(a).Some? then {AckKey(a).value} else {}
    case SaveQueue(q) => {ConfigKey(q.id)}
  }

  function Touched(log: seq<Command>): set<Bytes>
    requires Readable(log)
  {
    if log == [] then {} else Touched(log[..|log| - 1]) + Touches(log[|log| - 1])
  }

  /** The two maps say the same about a key. */
  predicate SameAt(a: KV, b: KV, k: Bytes) {
    (k in a <==> k in b) && (k in a ==> a[k] == b[k])
  }

  lemma ApplyAt(a: KV, b: KV, c: Command, k: Bytes)
    requires c.SaveTask? ==> Storable(c.task)
    ensures k in Touches(c) ==> SameAt(Apply(a, c), Apply(b, c), k)
    ensures k !in Touches(c) ==> SameAt(Apply(a, c), a, k)
  {
    hide Parse, TaskKey, AckKey, ConfigKey;
  }

  /** A touched key ends up the same from every starting point; an untouched one stays as it was. */
  lemma {:induction false} FoldAt(a: KV, b: KV, log: seq<Command>, k: Bytes)
    requires Readable(log)
    ensures k in Touched(log) ==> SameAt(Fold(a, log), Fold(b, log), k)
    ensures k !in Touched(log) ==> SameAt(Fold(a, log), a, k)
    ensures k !in Touched(log) ==> SameAt(Fold(b, log), b, k)
  {
    hide Parse, Touches, Apply;
    if log != [] {
      var rest, c := log[..|log| - 1], log[|log| - 1];
      FoldAt(a, b, rest, k);
      ApplyAt(Fold(a, rest), Fold(b, rest), c, k);
      ApplyAt(Fold(b, rest), Fold(a, rest), c, k);
    }
  }

  lemma FoldKeepsCovers(got: KV, want: KV, extra: set<Bytes>, log: seq<Command>)
    requires Readable(log)
    requires forall k :: k !in Touched(log) ==>
               (k in want ==> k in got && got[k] == want[k]) && (k in got ==> k in want || k in extra)
    ensures Covers(Fold(got, log), Fold(want, log), extra)
  {
    hide Fold, Touched, Readable;
    forall k ensures k in Fold(want, log) ==> k in Fold(got, log) && Fold(got, log)[k] == Fold(want, log)[k]
      ensures k in Fold(got, log) ==> k in Fold(want, log) || k in extra
    {
      FoldAt(got, want, log, k);
    }
  }

  // ---------- Acknowledged tasks stay gone ----------

  /** When no task is saved after its ack, an acknowledged task is not among the tasks the log
      leaves. */
  lemma {:induction false} AckedTasksAreGone(m: KV, log: seq<Command>, k: Bytes)
    requires Readable(log) && NoSaveAfterAck(log) && k in AckKeys(Acks(log))
    ensures k !in Fold(m, log)
  {
    hide Parse, TaskKey, AckKey, ConfigKey, KindOf, Storable, AckKeys, Acks;
    if log == [] {
      NothingAcked();
    } else {
      var rest, c := log[..|log| - 1], log[|log| - 1];
      assert log == rest + [c];
      OneAckMore(rest, c);
      if k in AckKeys(Acks(rest)) {
        AckedTasksAreGone(m, rest, k);
        StaysGone(Fold(m, rest), rest, c, k);
      }
    }
  }

  lemma NothingAcked()
    ensures AckKeys(Acks([])) == {}
  {
  }

  lemma StaysGone(m: KV, rest: seq<Command>, c: Command, k: Bytes)
    requires Readable(rest + [c]) && NoSaveAfterAck(rest + [c])
    requires k in AckKeys(Acks(rest)) && k !in m
    ensures (c.SaveTask? ==> Storable(c.task)) && k !in Apply(m, c)
  {
    hide Parse, TaskKey, AckKey, ConfigKey, KindOf, Storable, AckKeys, Acks;
    assert (rest + [c])[|rest|] == c;
    AckKeysAreTaskKeys(Acks(rest));
    if c.SaveTask? {
      NotSavedAfter(rest, c.task, k);
    } else if c.SaveQueue? {
      Kinds(c.config.id, MIN);
    }
  }

  lemma OneAckMore(rest: seq<Command>, c: Command)
    ensures AckKeys(Acks(rest + [c])) ==
            if c.AckTask? && AckKey(c.ack).Some? then AckKeys(Acks(rest)) + {AckKey(c.ack).value}
            else AckKeys(Acks(rest))
    ensures rest + [c] != []
  {
    hide AckKey, Acks, AckKeys;
    GroupsSnoc(rest, c);
    if c.AckTask? {
      AckKeysConcat(Acks(rest), [c.ack]);
      OneAck(c.ack);
    }
  }

  lemma NotSavedAfter(rest: seq<Command>, t: Task, k: Bytes)
    requires Readable(rest + [SaveTask(t)]) && NoSaveAfterAck(rest + [SaveTask(t)])
    requires k in AckKeys(Acks(rest))
    ensures Storable(t) && TaskKey(t) != k
  {
    hide Parse, TaskKey, AckKey, Acks, Storable;
    var log := rest + [SaveTask(t)];
    assert log[|rest|] == SaveTask(t);
    var a :| a in Acks(rest) && AckKey(a) == Some(k);
    AcksAt(rest, a);
    var i :| 0 <= i < |rest| && rest[i] == AckTask(a);
    assert log[i] == AckTask(a);
  }

  // ---------- Snapshot, then the rest of the log ----------

  /** The bytes of a store, and back. */
  function Image(kv: KV, enc: Value -> Bytes): Raw { map k | k in kv :: enc(kv[k]) }

  function Decoded(raw: Raw, dec: Bytes -> Value): KV { map k | k in raw :: dec(raw[k]) }

  /** A snapshot restored over any store that this program wrote is the store it was taken of, when
      records decode to what was encoded and lengths fit 32 bits. */
  lemma SnapshotIsExact(kv: KV, target: Raw, enc: Value -> Bytes, dec: Bytes -> Value)
    requires forall v :: dec(enc(v)) == v
    requires forall k :: k in kv ==> Fits(k) && Fits(enc(kv[k]))
    requires forall k :: k in target ==> Written(k)
    ensures
      var loaded := Load(Cleared(target), Encode(Records(Image(kv, enc))));
      loaded.ok && Decoded(loaded.kv, dec) == kv
  {
    hide Load, Encode, Written, Cleared, Fits;
    RestoreOfPersist(Image(kv, enc), target);
  }

  lemma SuffixIsGood(prefix: seq<Command>, suffix: seq<Command>, stale: seq<Ack>)
    requires GoodLog(prefix + suffix, {}) && Readable(prefix)
    requires AckKeys(stale) <= AckKeys(Acks(prefix))
    ensures GoodLog(suffix, AckKeys(stale)) && NoSaveAfterAck(prefix)
  {
    hide Parse, TaskKey, AckKey, Acks, Storable;
    var log := prefix + suffix;
    forall n | 0 <= n < |suffix| ensures suffix[n] == log[|prefix| + n] {}
    forall n | 0 <= n < |prefix| ensures prefix[n] == log[n] {}
    forall n | 0 <= n < |suffix| && suffix[n].SaveTask?
      ensures Storable(suffix[n].task) && TaskKey(suffix[n].task) !in AckKeys(stale)
    {
      var t := suffix[n].task;
      forall a | a in Acks(prefix) ensures AckKey(a) != Some(TaskKey(t)) {
        AcksAt(prefix, a);
        var i :| 0 <= i < |prefix| && prefix[i] == AckTask(a);
        assert log[i] == AckTask(a) && log[|prefix| + n].SaveTask?;
      }
    }
    forall i, j | 0 <= i < j < |suffix| && suffix[i].AckTask? && suffix[j].SaveTask?
      ensures AckKey(suffix[i].ack) != Some(TaskKey(suffix[j].task))
    {
      assert log[|prefix| + i].AckTask? && log[|prefix| + j].SaveTask?;
    }
  }

  /** A snapshot followed by the rest of the log loses nothing. One replica runs from an empty store
      to the snapshot point; another starts from the restored store, with an ack buffer that may
      still hold acks of the part the snapshot covers, and runs the rest of the log. It ends with
      every task and setting of the full log, and any task too many is one whose ack was still
      buffered when the snapshot was taken. */
  lemma SnapshotThenSuffix(
      first: seq<Node>, second: seq<Node>, target: Raw, enc: Value -> Bytes, dec: Bytes -> Value)
    requires Run(first) && Run(second)
    requires first[0].kv == map[] && first[0].buffer == []
    requires first[|first| - 1].Idle() && second[|second| - 1].Idle()
    requires
      var at := first[|first| - 1];
      && (forall v :: dec(enc(v)) == v)
      && (forall k :: k in at.kv ==> Fits(k) && Fits(enc(at.kv[k])))
      && (forall k :: k in target ==> Written(k))
      && second[0].kv == Decoded(Load(Cleared(target), Encode(Records(Image(at.kv, enc)))).kv, dec)
      && AckKeys(second[0].buffer) <= AckKeys(Acks(at.log))
    requires GoodLog(first[|first| - 1].log + second[|second| - 1].log, {})
    ensures
      var at, end := first[|first| - 1], second[|second| - 1];
      Covers(Logical(end.kv, end.buffer), Fold(map[], at.log + end.log), AckKeys(at.buffer))
  {
    hide Step, GoodLog, Fold, AckKeys, Acks, Load, Encode, Records, Cleared, Written, Fits, Decoded, Image, SeqPlaced,
      Readable, Visible;
    var at, end := first[|first| - 1], second[|second| - 1];
    SnapshotIsExact(at.kv, target, enc, dec);
    var stale := second[0].buffer;
    GoodLogParts(at.log, end.log);
    SuffixIsGood(at.log, end.log, stale);
    NoAcks();
    BatchingDoesNotMatter(first);
    BatchingDoesNotMatter(second);
    EmptyIsEmpty();
    var want, got := Logical(at.kv, at.buffer), Logical(at.kv, stale);
    forall k | k in want ensures k in got && got[k] == want[k] {
      if k in AckKeys(Acks(at.log)) { AckedTasksAreGone(map[], at.log, k); }
    }
    FoldConcat(map[], at.log, end.log);
    FoldKeepsCovers(got, want, AckKeys(at.buffer), end.log);
  }

  lemma GoodLogParts(a: seq<Command>, b: seq<Command>)
    requires GoodLog(a + b, {})
    ensures Readable(a) && Readable(b) && Readable(a + b) && GoodLog(a, {})
  {
    hide NoSaveAfterAck, Storable, TaskKey;
    var log := a + b;
    forall n | 0 <= n < |b| ensures b[n] == log[|a| + n] {}
    PrefixOfGoodLog(log, |a|, {});
    assert log[..|a|] == a;
  }

  lemma EmptyIsEmpty()
    ensures Logical(map[], []) == map[]
  {
  }

  // ---------- Restart and replay over the existing store ----------

  /** The keys pending work can still write or delete. */
  function PendingKeys(n: Node): set<Bytes>
    requires AllStorable(n.tasks)
  {
    (set t | t in n.tasks :: TaskKey(t)) + (set c | c in n.settings :: ConfigKey(c.id)) + AckKeys(n.acks)
  }

  /** Since the snapshot point the run has only written touched keys, and has only deleted touched
      keys and keys whose ack was buffered at that point. */
  ghost predicate OnlyTouched(first: Node, n: Node) {
    && Readable(n.log) && AllStorable(n.tasks) && SeqPlaced(n.kv)
    && PendingKeys(n) <= Touched(n.log)
    && AckKeys(n.buffer) <= AckKeys(first.buffer) + Touched(n.log)
    && forall k :: k !in Touched(n.log) ==>
         && (k in Visible(n.kv) ==> k in Visible(first.kv) && Visible(n.kv)[k] == Visible(first.kv)[k])
         && (k in Visible(first.kv) ==> k in Visible(n.kv) || k in AckKeys(first.buffer))
  }

  lemma {:induction false} TouchedConcat(a: seq<Command>, b: seq<Command>)
    requires Readable(a) && Readable(b) && Readable(a + b)
    ensures Touched(a + b) == Touched(a) + Touched(b)
  {
    hide Touches, Storable;
    if b == [] {
      assert a + b == a;
    } else {
      var c := b[..|b| - 1];
      assert (a + b)[..|a + b| - 1] == a + c;
      TouchedConcat(a, c);
    }
  }

  lemma {:induction false} GroupsTouch(batch: seq<Command>)
    requires Readable(batch) && AllStorable(Saves(batch))
    ensures forall t :: t in Saves(batch) ==> TaskKey(t) in Touched(batch)
    ensures forall c :: c in Configs(batch) ==> ConfigKey(c.id) in Touched(batch)
    ensures AckKeys(Acks(batch)) <= Touched(batch)
  {
    hide Parse, TaskKey, AckKey, ConfigKey, AckKeys, Storable;
    if batch == [] {
      NoAcks();
    } else {
      var rest, c := batch[..|batch| - 1], batch[|batch| - 1];
      assert batch == rest + [c];
      SavesAreStorable(rest);
      GroupsTouch(rest);
      OneAckMore(rest, c);
    }
  }

  lemma BatchKeepsTouched(first: Node, n: Node, n': Node, batch: seq<Command>)
    requires OnlyTouched(first, n) && BeginBatch(n, n', batch)
    ensures OnlyTouched(first, n')
  {
    hide Parse, TaskKey, AckKey, ConfigKey, AckKeys, Touched, Visible, SeqPlaced, Saves, Acks, Configs, Storable;
    SavesAreStorable(batch);
    GroupsTouch(batch);
    assert Readable(n.log + batch) by {
      forall i | 0 <= i < |n.log + batch| && (n.log + batch)[i].SaveTask? ensures Storable((n.log + batch)[i].task) {}
    }
    TouchedConcat(n.log, batch);
  }

  lemma SettingKeepsTouched(first: Node, n: Node, n': Node)
    requires OnlyTouched(first, n) && WriteSetting(n, n')
    ensures OnlyTouched(first, n')
  {
    hide Parse, TaskKey, AckKey, ConfigKey, AckKeys, Touched, Visible, Storable, KindOf, Readable;
    var c := n.settings[0];
    assert forall x :: x in n'.settings ==> x in n.settings;
    assert c in n.settings;
    assert ConfigKey(c.id) in PendingKeys(n);
    Kinds(c.id, MIN);
    VisiblePut(n.kv, ConfigKey(c.id), ConfigValue(c));
  }

  lemma TasksKeepTouched(first: Node, n: Node, n': Node, isFollower: bool)
    requires OnlyTouched(first, n) && WriteTasks(n, n', isFollower)
    ensures OnlyTouched(first, n')
  {
    hide Parse, TaskKey, AckKey, ConfigKey, AckKeys, Touched, Visible, Storable, SeqPlaced, SavePuts, TaskPuts,
      Readable;
    VisiblePuts(n.kv, n.tasks, isFollower);
    forall k | k in TaskPuts(n.tasks) ensures k in Touched(n.log) {
      TaskPutsAt(n.tasks, k);
      var t :| t in n.tasks && TaskKey(t) == k;
      assert k in PendingKeys(n);
    }
  }

  lemma AcksKeepTouched(first: Node, n: Node, n': Node)
    requires OnlyTouched(first, n) && (BufferAcks(n, n') || FlushDelete(n, n') || FlushClear(n, n'))
    ensures OnlyTouched(first, n')
  {
    hide Parse, TaskKey, AckKey, ConfigKey, AckKeys, Touched, Visible, Storable, KindOf, Readable;
    NoAcks();
    AckKeysConcat(n.buffer, n.acks);
    VisibleRemove(n.kv, AckKeys(n.buffer));
  }

  lemma StepKeepsTouched(first: Node, n: Node, n': Node)
    requires OnlyTouched(first, n) && Step(n, n')
    ensures OnlyTouched(first, n')
  {
    hide OnlyTouched, BeginBatch, GoodBatch, WriteTasks;
    if batch :| GoodBatch(batch) && BeginBatch(n, n', batch) {
      BatchKeepsTouched(first, n, n', batch);
    } else if WriteSetting(n, n') {
      SettingKeepsTouched(first, n, n');
    } else if isFollower :| WriteTasks(n, n', isFollower) {
      TasksKeepTouched(first, n, n', isFollower);
    } else if BufferAcks(n, n') || FlushDelete(n, n') || FlushClear(n, n') {
      AcksKeepTouched(first, n, n');
    } else {
      var queue, index :| WriteSequence(n, n', queue, index);
      SequenceKeepsTouched(first, n, n', queue, index);
    }
  }

  lemma SequenceKeepsTouched(first: Node, n: Node, n': Node, queue: Bytes, index: nat)
    requires OnlyTouched(first, n) && WriteSequence(n, n', queue, index)
    ensures OnlyTouched(first, n')
  {
    hide Parse, AckKeys, Touched, Visible, SeqPlaced, SeqKey, Readable, TaskKey, ConfigKey;
    VisibleSeq(n.kv, queue, index);
  }

  lemma {:induction false} RunKeepsTouched(nodes: seq<Node>)
    requires Run(nodes)
    ensures OnlyTouched(nodes[0], nodes[|nodes| - 1])
  {
    hide Step, Visible, AckKeys, SeqPlaced;
    if |nodes| == 1 {
      NoAcks();
    } else {
      var before := nodes[..|nodes| - 1];
      RunKeepsTouched(before);
      assert Step(before[|before| - 1], nodes[|nodes| - 1]);
      StepKeepsTouched(nodes[0], before[|before| - 1], nodes[|nodes| - 1]);
    }
  }

  /** A crash at any moment, even in the middle of a batch, then a restart that replays over the
      surviving store every command since the last snapshot and goes on with `more`. The result has
      every task and setting that an undisturbed replica has, and any task too many is one whose ack
      was still buffered when the snapshot was taken. */
  lemma CrashThenReplay(nodes: seq<Node>, again: seq<Node>, more: seq<Command>)
    requires Run(nodes) && Run(again)
    requires
      var crashed, end := nodes[|nodes| - 1], again[|again| - 1];
      && again[0].kv == crashed.kv && again[0].buffer == []
      && end.Idle() && end.log == crashed.log + more && GoodLog(end.log, {})
    ensures
      var snapshot, end := nodes[0], again[|again| - 1];
      var want := Fold(Logical(snapshot.kv, snapshot.buffer), end.log);
      Covers(Logical(end.kv, end.buffer), want, AckKeys(snapshot.buffer))
  {
    hide Step, GoodLog, Fold, AckKeys, Touched, SeqPlaced, Visible, PendingKeys;
    var snapshot, crashed, end := nodes[0], nodes[|nodes| - 1], again[|again| - 1];
    RunKeepsTouched(nodes);
    NoAcks();
    BatchingDoesNotMatter(again);
    RemoveNone(Visible(crashed.kv), {});
    GoodLogParts(crashed.log, more);
    TouchedConcat(crashed.log, more);
    FoldKeepsCovers(Logical(crashed.kv, []), Logical(snapshot.kv, snapshot.buffer), AckKeys(snapshot.buffer), end.log);
  }
}
