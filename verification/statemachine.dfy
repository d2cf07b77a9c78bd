/** The replicated state machine: commands from the log are grouped by type and applied by three
    concurrent workers, and acks are buffered before tasks are deleted
    (server/cluster/sm/writer.go, feeds/q/writer.go). */
module StateMachines {
  import opened ByteStrings
  import opened Ids
  import opened Keys
  import opened TaskStores

  datatype Command = SaveTask(task: Task) | AckTask(ack: Ack) | SaveQueue(config: QueueConfig)

  // ---------- One command at a time ----------

  /** The meaning of one command on the tasks and queue settings. */
  function Apply(m: KV, c: Command): KV
    requires c.SaveTask? ==> Storable(c.task)
  {
    match c
    case SaveTask(t) => m[TaskKey(t) := TaskValue(t)]
    case AckTask(a) => if AckKey(a).Some? then m - {AckKey(a).value} else m
    case SaveQueue(c) => m[ConfigKey(c.id) := ConfigValue(c)]
  }

  predicate Readable(log: seq<Command>) {
    forall n :: 0 <= n < |log| && log[n].SaveTask? ==> Storable(log[n].task)
  }

  function Fold(m: KV, log: seq<Command>): KV
    requires Readable(log)
  {
    if log == [] then m else Apply(Fold(m, log[..|log| - 1]), log[|log| - 1])
  }

  lemma {:induction false} FoldConcat(m: KV, a: seq<Command>, b: seq<Command>)
    requires Readable(a) && Readable(b)
    ensures Readable(a + b) && Fold(m, a + b) == Fold(Fold(m, a), b)
  {
    hide Apply, Storable;
    if b == [] {
      assert a + b == a;
    } else {
      var c := b[..|b| - 1];
      FoldConcat(m, a, c);
      assert (a + b)[..|a + b| - 1] == a + c;
    }
  }

  /** The command writes or deletes this key. */
  predicate Concerns(c: Command, k: Bytes) {
    match c
    case SaveTask(t) => Storable(t) && TaskKey(t) == k
    case AckTask(a) => AckKey(a) == Some(k)
    case SaveQueue(q) => ConfigKey(q.id) == k
  }

  predicate LastConcerning(log: seq<Command>, k: Bytes, i: int) {
    0 <= i < |log| && Concerns(log[i], k) && forall j :: i < j < |log| ==> !Concerns(log[j], k)
  }

  /** What a log means, key by key: the last command that concerns a key decides. A saved task or setting is
      there as it was saved, and an acknowledged task is gone. */
  lemma {:induction false} LastCommandDecides(m: KV, log: seq<Command>, k: Bytes, i: int)
    requires Readable(log) && LastConcerning(log, k, i)
    ensures
      match log[i]
      case SaveTask(t) => k in Fold(m, log) && Fold(m, log)[k] == TaskValue(t)
      case AckTask(_) => k !in Fold(m, log)
      case SaveQueue(q) => k in Fold(m, log) && Fold(m, log)[k] == ConfigValue(q)
  {
    hide Parse, TaskKey, AckKey, ConfigKey, Storable;
    var rest, last := log[..|log| - 1], log[|log| - 1];
    if i < |rest| {
      LastCommandDecides(m, rest, k, i);
      Unconcerned(Fold(m, rest), last, k);
    }
  }

  /** A key that no command concerns is as it was before the log. */
  lemma {:induction false} OtherKeysStay(m: KV, log: seq<Command>, k: Bytes)
    requires Readable(log) && forall i :: 0 <= i < |log| ==> !Concerns(log[i], k)
    ensures (k in Fold(m, log) <==> k in m) && (k in m ==> Fold(m, log)[k] == m[k])
  {
    hide Concerns, Apply, Storable;
    if log != [] {
      var rest, last := log[..|log| - 1], log[|log| - 1];
      OtherKeysStay(m, rest, k);
      Unconcerned(Fold(m, rest), last, k);
    }
  }

  lemma Unconcerned(m: KV, c: Command, k: Bytes)
    requires !Concerns(c, k) && (c.SaveTask? ==> Storable(c.task))
    ensures (k in Apply(m, c) <==> k in m) && (k in m ==> Apply(m, c)[k] == m[k])
  {
    hide Parse, TaskKey, AckKey, ConfigKey;
  }

  // ---------- Groups ----------

  function Saves(log: seq<Command>): seq<Task> {
    if log == [] then []
    else
      var c := log[|log| - 1];
      Saves(log[..|log| - 1]) + if c.SaveTask? then [c.task] else []
  }

  function Acks(log: seq<Command>): seq<Ack> {
    if log == [] then []
    else
      var c := log[|log| - 1];
      Acks(log[..|log| - 1]) + if c.AckTask? then [c.ack] else []
  }

  function Configs(log: seq<Command>): seq<QueueConfig> {
    if log == [] then []
    else
      var c := log[|log| - 1];
      Configs(log[..|log| - 1]) + if c.SaveQueue? then [c.config] else []
  }

  function SaveConfigs(m: KV, configs: seq<QueueConfig>): KV {
    if configs == [] then m
    else
      var c := configs[|configs| - 1];
      SaveConfigs(m, configs[..|configs| - 1])[ConfigKey(c.id) := ConfigValue(c)]
  }

  /** All three groups applied, one after the other. */
  function ApplyGroups(m: KV, configs: seq<QueueConfig>, tasks: seq<Task>, acks: seq<Ack>): KV
    requires AllStorable(tasks)
  {
    (SaveConfigs(m, configs) + TaskPuts(tasks)) - AckKeys(acks)
  }

  /** No command of the batch acknowledges a task that another one saves. */
  predicate Disjoint(tasks: seq<Task>, acked: set<Bytes>)
    requires AllStorable(tasks)
  {
    forall t :: t in tasks ==> TaskKey(t) !in acked
  }

  lemma {:induction false} SavesAreStorable(log: seq<Command>)
    requires Readable(log)
    ensures AllStorable(Saves(log))
  {
    if log != [] { SavesAreStorable(log[..|log| - 1]); }
  }

  // ---------- Maps ----------

  lemma PutRemove<K, V>(m: map<K, V>, k: K, v: V, gone: set<K>)
    requires k !in gone
    ensures m[k := v] - gone == (m - gone)[k := v]
  {
  }

  lemma PutsRemove<K, V>(m: map<K, V>, puts: map<K, V>, gone: set<K>)
    requires puts.Keys !! gone
    ensures (m + puts) - gone == (m - gone) + puts
  {
  }

  lemma PutPuts<K, V>(m: map<K, V>, k: K, v: V, puts: map<K, V>)
    requires k !in puts
    ensures m[k := v] + puts == (m + puts)[k := v]
  {
  }

  lemma RemoveTwice<K, V>(m: map<K, V>, a: set<K>, b: set<K>)
    ensures (m - a) - b == m - (a + b)
    ensures (m - b) - a == m - (a + b)
  {
  }

  lemma RemoveNone<K, V>(m: map<K, V>, a: set<K>)
    requires m.Keys !! a
    ensures m - a == m
  {
  }

  lemma AckKeysConcat(a: seq<Ack>, b: seq<Ack>)
    ensures AckKeys(a + b) == AckKeys(a) + AckKeys(b)
  {
    hide AckKey;
    forall k ensures k in AckKeys(a + b) <==> k in AckKeys(a) + AckKeys(b) {
      if k in AckKeys(a + b) {
        var x :| x in a + b && AckKey(x) == Some(k);
        assert x in a || x in b;
      }
      if k in AckKeys(a) {
        var x :| x in a && AckKey(x) == Some(k);
        assert x in a + b;
      }
      if k in AckKeys(b) {
        var x :| x in b && AckKey(x) == Some(k);
        assert x in a + b;
      }
    }
  }

  lemma AckKeysAreTaskKeys(acks: seq<Ack>)
    ensures forall k :: k in AckKeys(acks) ==> KindOf(k) in {FifoKind, SchedKind}
  {
    hide KindOf, AckKey;
    forall k | k in AckKeys(acks) ensures KindOf(k) in {FifoKind, SchedKind} {
      var a :| a in acks && AckKey(a) == Some(k);
      AckKeyKind(a);
    }
  }

  lemma TaskPutsDisjoint(tasks: seq<Task>, gone: set<Bytes>)
    requires AllStorable(tasks) && Disjoint(tasks, gone)
    ensures TaskPuts(tasks).Keys !! gone
  {
    hide Parse, TaskKey, TaskPuts;
    forall k | k in TaskPuts(tasks) ensures k !in gone { TaskPutsAt(tasks, k); }
  }

  lemma {:induction false} ConfigsPuts(m: KV, configs: seq<QueueConfig>, puts: KV)
    requires forall k :: k in puts ==> KindOf(k) != ConfigKind
    ensures SaveConfigs(m + puts, configs) == SaveConfigs(m, configs) + puts
  {
    hide KindOf, ConfigKey;
    if configs != [] {
      var rest, c := configs[..|configs| - 1], configs[|configs| - 1];
      ConfigsPuts(m, rest, puts);
      Kinds(c.id, MIN);
      PutPuts(SaveConfigs(m, rest), ConfigKey(c.id), ConfigValue(c), puts);
    }
  }

  lemma {:induction false} ConfigsRemove(m: KV, configs: seq<QueueConfig>, gone: set<Bytes>)
    requires forall k :: k in gone ==> KindOf(k) != ConfigKind
    ensures SaveConfigs(m - gone, configs) == SaveConfigs(m, configs) - gone
  {
    hide KindOf, ConfigKey;
    if configs != [] {
      var rest, c := configs[..|configs| - 1], configs[|configs| - 1];
      ConfigsRemove(m, rest, gone);
      Kinds(c.id, MIN);
      PutRemove(SaveConfigs(m, rest), ConfigKey(c.id), ConfigValue(c), gone);
    }
  }

  lemma {:induction false} ConfigsFront(m: KV, c: QueueConfig, configs: seq<QueueConfig>)
    ensures SaveConfigs(m, [c] + configs) == SaveConfigs(m[ConfigKey(c.id) := ConfigValue(c)], configs)
  {
    hide ConfigKey;
    if configs == [] {
      assert [c] + configs == [c];
      assert [c][..0] == [];
    } else {
      ConfigsFront(m, c, configs[..|configs| - 1]);
      assert ([c] + configs)[..|configs|] == [c] + configs[..|configs| - 1];
    }
  }

  // ---------- Grouping a batch ----------

  /** Applying a batch by groups equals applying its commands in order, when the batch does not both
      save and acknowledge a task. */
  lemma {:induction false} GroupingKeepsMeaning(m: KV, batch: seq<Command>)
    requires Readable(batch)
    requires AllStorable(Saves(batch)) && Disjoint(Saves(batch), AckKeys(Acks(batch)))
    ensures ApplyGroups(m, Configs(batch), Saves(batch), Acks(batch)) == Fold(m, batch)
  {
    hide Parse, TaskKey, ConfigKey, AckKey, AckKeys, KindOf, TaskPuts, SaveConfigs;
    if batch == [] {
      NoGroups(m);
    } else {
      var rest, c := batch[..|batch| - 1], batch[|batch| - 1];
      SavesAreStorable(rest);
      AckKeysConcat(Acks(rest), if c.AckTask? then [c.ack] else []);
      assert forall t :: t in Saves(rest) ==> t in Saves(batch);
      assert Disjoint(Saves(rest), AckKeys(Acks(rest)));
      GroupingKeepsMeaning(m, rest);
      assert Saves(rest) + [] == Saves(rest) && Acks(rest) + [] == Acks(rest) && Configs(rest) + [] == Configs(rest);
      LastOfGroups(m, rest, c);
    }
  }

  lemma NoGroups(m: KV)
    ensures ApplyGroups(m, [], [], []) == m
  {
  }

  lemma LastOfGroups(m: KV, rest: seq<Command>, c: Command)
    requires Readable(rest) && AllStorable(Saves(rest)) && (c.SaveTask? ==> Storable(c.task))
    requires c.SaveTask? ==> TaskKey(c.task) !in AckKeys(Acks(rest))
    ensures
      var S, T, A := Configs(rest), Saves(rest), Acks(rest);
      match c
      case SaveTask(t) => ApplyGroups(m, S, T + [t], A) == Apply(ApplyGroups(m, S, T, A), c)
      case AckTask(a) => ApplyGroups(m, S, T, A + [a]) == Apply(ApplyGroups(m, S, T, A), c)
      case SaveQueue(q) => ApplyGroups(m, S + [q], T, A) == Apply(ApplyGroups(m, S, T, A), c)
  {
    hide Parse, TaskKey, ConfigKey, KindOf, Saves, Acks, Configs, AckKey, AckKeys;
    var S, T, A := Configs(rest), Saves(rest), Acks(rest);
    match c {
      case SaveTask(t) =>
        assert (T + [t])[..|T|] == T;
        PutAfter(SaveConfigs(m, S), TaskPuts(T), TaskKey(t), TaskValue(t));
        PutRemove(SaveConfigs(m, S) + TaskPuts(T), TaskKey(t), TaskValue(t), AckKeys(A));
      case AckTask(a) =>
        AckKeysConcat(A, [a]);
        OneAck(a);
        RemoveTwice(SaveConfigs(m, S) + TaskPuts(T), AckKeys(A), AckKeys([a]));
      case SaveQueue(q) =>
        assert (S + [q])[..|S|] == S;
        Kinds(q.id, MIN);
        TaskPutsKind(T);
        AckKeysAreTaskKeys(A);
        PutPuts(SaveConfigs(m, S), ConfigKey(q.id), ConfigValue(q), TaskPuts(T));
        PutRemove(SaveConfigs(m, S) + TaskPuts(T), ConfigKey(q.id), ConfigValue(q), AckKeys(A));
    }
  }

  lemma OneAck(a: Ack)
    ensures AckKeys([a]) == if AckKey(a).Some? then {AckKey(a).value} else {}
  {
    hide AckKey;
    assert forall x :: x in [a] <==> x == a;
  }

  // ---------- The workers, interleaved ----------

  /** A replica in the middle of a batch. `settings`, `tasks` and `acks` are the work its three
      workers still have to do; `flushing` says that the flush in progress has deleted the tasks but
      not yet emptied the buffer; `log` is every command received so far. */
  datatype Node = Node(
    kv: KV,
    buffer: seq<Ack>,
    flushing: bool,
    settings: seq<QueueConfig>,
    tasks: seq<Task>,
    acks: seq<Ack>,
    log: seq<Command>)
  {
    predicate Idle() { settings == [] && tasks == [] && acks == [] }
  }

  /** Saving and acknowledging one task never meet in one batch. */
  predicate GoodBatch(batch: seq<Command>) {
    && Readable(batch)
    && forall i, j :: 0 <= i < |batch| && 0 <= j < |batch| && batch[i].SaveTask? && batch[j].AckTask? ==>
         AckKey(batch[j].ack) != Some(TaskKey(batch[i].task))
  }

  /** No task is saved after it has been acknowledged. */
  predicate NoSaveAfterAck(log: seq<Command>)
    requires Readable(log)
  {
    forall i, j :: 0 <= i < j < |log| && log[i].AckTask? && log[j].SaveTask? ==>
      AckKey(log[i].ack) != Some(TaskKey(log[j].task))
  }

  predicate BeginBatch(n: Node, n': Node, batch: seq<Command>) {
    && n.Idle()
    && Readable(batch)
    && n' == n.(settings := Configs(batch), tasks := Saves(batch), acks := Acks(batch), log := n.log + batch)
  }

  /** applySettings writes one queue at a time. */
  predicate WriteSetting(n: Node, n': Node) {
    && n.settings != []
    && var c := n.settings[0];
       n' == n.(kv := n.kv[ConfigKey(c.id) := ConfigValue(c)], settings := n.settings[1..])
  }

  /** applyTasks commits all tasks at once, with the sequence keys on a follower. */
  predicate WriteTasks(n: Node, n': Node, isFollower: bool) {
    && n.tasks != [] && AllStorable(n.tasks)
    && n' == n.(kv := n.kv + SavePuts(n.tasks, isFollower), tasks := [])
  }

  /** applyAcks appends to the buffer, which a running flush has locked. */
  predicate BufferAcks(n: Node, n': Node) {
    && n.acks != [] && !n.flushing
    && n' == n.(buffer := n.buffer + n.acks, acks := [])
  }

  /** A flush, by the ticker or by a full buffer, first commits the deletions ... */
  predicate FlushDelete(n: Node, n': Node) {
    && !n.flushing
    && n' == n.(kv := n.kv - AckKeys(n.buffer), flushing := true)
  }

  /** ... and then empties the buffer. */
  predicate FlushClear(n: Node, n': Node) {
    && n.flushing
    && n' == n.(buffer := [], flushing := false)
  }

  /** Another writer, such as an open sequence on the leader, sets a sequence key. */
  predicate WriteSequence(n: Node, n': Node, queue: Bytes, index: nat) {
    n' == n.(kv := n.kv[SeqKey(queue) := SeqValue(index)])
  }

  /** A step of a worker, of a flush or of an open sequence. */
  ghost predicate WorkStep(n: Node, n': Node) {
    || WriteSetting(n, n')
    || (exists isFollower :: WriteTasks(n, n', isFollower))
    || BufferAcks(n, n')
    || FlushDelete(n, n')
    || FlushClear(n, n')
    || (exists queue, index :: WriteSequence(n, n', queue, index))
  }

  ghost predicate Step(n: Node, n': Node) {
    (exists batch :: GoodBatch(batch) && BeginBatch(n, n', batch)) || WorkStep(n, n')
  }

  // ---------- The abstraction ----------

  /** Tasks and queue settings: the store without the sequence keys. */
  function Visible(kv: KV): KV { map k | k in kv && !kv[k].SeqValue? :: kv[k] }

  /** The tasks and settings a replica stands for: the store minus the buffered acks. */
  function Logical(kv: KV, buffer: seq<Ack>): KV { Visible(kv) - AckKeys(buffer) }

  /** What the replica will stand for when its workers are done. */
  function Target(n: Node): KV
    requires AllStorable(n.tasks)
  {
    ApplyGroups(Logical(n.kv, n.buffer), n.settings, n.tasks, n.acks)
  }

  /** Sequence values sit under sequence keys and nowhere else. */
  predicate SeqPlaced(kv: KV) { forall k :: k in kv ==> (kv[k].SeqValue? <==> KindOf(k) == SeqKind) }

  /** The replica is on its way to standing for `m`. */
  predicate Doing(n: Node, m: KV) {
    && AllStorable(n.tasks)
    && SeqPlaced(n.kv)
    && Disjoint(n.tasks, AckKeys(n.buffer + n.acks))
    && (n.flushing ==> n.kv.Keys !! AckKeys(n.buffer))
    && Target(n) == m
  }

  predicate Inv(n: Node, base: KV) { Readable(n.log) && Doing(n, Fold(base, n.log)) }

  /** The acks that may still be buffered are acks of the log, or were buffered at the start. */
  predicate AcksFromLog(n: Node, initial: set<Bytes>) {
    AckKeys(n.buffer + n.acks) <= initial + AckKeys(Acks(n.log))
  }

  // ---------- Every step keeps the invariant ----------

  lemma VisiblePut(kv: KV, k: Bytes, v: Value)
    requires !v.SeqValue?
    ensures Visible(kv[k := v]) == Visible(kv)[k := v]
  {
  }

  lemma VisiblePuts(kv: KV, tasks: seq<Task>, isFollower: bool)
    requires AllStorable(tasks) && SeqPlaced(kv)
    ensures Visible(kv + SavePuts(tasks, isFollower)) == Visible(kv) + TaskPuts(tasks)
    ensures SeqPlaced(kv + SavePuts(tasks, isFollower))
  {
    hide Parse, TaskPuts, SeqPuts, MaxIndexes, KindOf;
    TaskPutsKind(tasks);
    SeqPutsKind(MaxIndexes(tasks));
    var puts, all := TaskPuts(tasks), kv + SavePuts(tasks, isFollower);
    forall k ensures k in Visible(all) <==> k in Visible(kv) + puts {}
    forall k | k in Visible(all) ensures Visible(all)[k] == (Visible(kv) + puts)[k] {}
  }

  lemma SeqPutsKind(indexes: map<Bytes, U64>)
    ensures forall k :: k in SeqPuts(indexes) ==> KindOf(k) == SeqKind && SeqPuts(indexes)[k].SeqValue?
  {
    hide KindOf, SeqKey;
    forall k | k in SeqPuts(indexes) ensures KindOf(k) == SeqKind && SeqPuts(indexes)[k].SeqValue? {
      var q :| q in indexes && k == SeqKey(q);
      Kinds(q, MIN);
    }
  }

  lemma VisibleRemove(kv: KV, gone: set<Bytes>)
    ensures Visible(kv - gone) == Visible(kv) - gone
  {
  }

  lemma VisibleSeq(kv: KV, queue: Bytes, index: nat)
    requires SeqPlaced(kv)
    ensures Visible(kv[SeqKey(queue) := SeqValue(index)]) == Visible(kv)
    ensures SeqPlaced(kv[SeqKey(queue) := SeqValue(index)])
  {
    hide KindOf, SeqKey;
    Kinds(queue, MIN);
  }

  lemma SettingKeepsDoing(n: Node, n': Node, m: KV)
    requires Doing(n, m) && WriteSetting(n, n')
    ensures Doing(n', m)
  {
    hide Parse, KindOf, AckKeys, Visible, SaveConfigs, TaskPuts, ConfigKey, TaskKey;
    var c, gone := n.settings[0], AckKeys(n.buffer);
    VisiblePut(n.kv, ConfigKey(c.id), ConfigValue(c));
    Kinds(c.id, MIN);
    AckKeysAreTaskKeys(n.buffer);
    PutRemove(Visible(n.kv), ConfigKey(c.id), ConfigValue(c), gone);
    ConfigsFront(Logical(n.kv, n.buffer), c, n.settings[1..]);
    assert [c] + n.settings[1..] == n.settings;
  }

  lemma TasksKeepDoing(n: Node, n': Node, isFollower: bool, m: KV)
    requires Doing(n, m) && WriteTasks(n, n', isFollower)
    ensures Doing(n', m)
  {
    hide Parse, KindOf, AckKeys, Visible, SaveConfigs, TaskPuts, SavePuts, SeqPlaced, TaskKey;
    var gone, puts, now := AckKeys(n.buffer), TaskPuts(n.tasks), Logical(n.kv, n.buffer);
    VisiblePuts(n.kv, n.tasks, isFollower);
    AckKeysConcat(n.buffer, n.acks);
    assert Disjoint(n.tasks, gone);
    TaskPutsDisjoint(n.tasks, gone);
    PutsRemove(Visible(n.kv), puts, gone);
    TaskPutsKind(n.tasks);
    ConfigsPuts(now, n.settings, puts);
    NoPuts();
    PutNone(SaveConfigs(now, n.settings) + puts);
    if n.flushing { SavePutsDisjoint(n, isFollower); }
  }

  lemma NoPuts()
    ensures TaskPuts([]) == map[]
  {
  }

  lemma SavePutsDisjoint(n: Node, isFollower: bool)
    requires AllStorable(n.tasks) && Disjoint(n.tasks, AckKeys(n.buffer))
    requires n.kv.Keys !! AckKeys(n.buffer)
    ensures (n.kv + SavePuts(n.tasks, isFollower)).Keys !! AckKeys(n.buffer)
  {
    hide Parse, KindOf, AckKeys, TaskPuts, SeqPuts, MaxIndexes, TaskKey;
    TaskPutsDisjoint(n.tasks, AckKeys(n.buffer));
    SeqPutsKind(MaxIndexes(n.tasks));
    AckKeysAreTaskKeys(n.buffer);
  }

  lemma BufferKeepsDoing(n: Node, n': Node, m: KV)
    requires Doing(n, m) && BufferAcks(n, n')
    ensures Doing(n', m)
  {
    hide Parse, KindOf, AckKeys, Visible, SaveConfigs, TaskPuts, SeqPlaced, TaskKey;
    var b, a, puts := AckKeys(n.buffer), AckKeys(n.acks), TaskPuts(n.tasks);
    AckKeysConcat(n.buffer, n.acks);
    assert n'.buffer + n'.acks == n.buffer + n.acks;
    RemoveTwice(Visible(n.kv), b, a);
    AckKeysAreTaskKeys(n.acks);
    ConfigsRemove(Visible(n.kv) - b, n.settings, a);
    assert Disjoint(n.tasks, a);
    TaskPutsDisjoint(n.tasks, a);
    PutsRemove(SaveConfigs(Visible(n.kv) - b, n.settings), puts, a);
    NoAcks();
    RemoveNone(SaveConfigs(Logical(n'.kv, n'.buffer), n.settings) + puts, {});
  }

  lemma NoAcks()
    ensures AckKeys([]) == {}
  {
  }

  lemma FlushKeepsDoing(n: Node, n': Node, m: KV)
    requires Doing(n, m) && (FlushDelete(n, n') || FlushClear(n, n'))
    ensures Doing(n', m)
  {
    hide Parse, KindOf, AckKeys, Visible, SaveConfigs, TaskPuts, TaskKey;
    var b := AckKeys(n.buffer);
    if FlushDelete(n, n') {
      VisibleRemove(n.kv, b);
      assert b + b == b;
      RemoveTwice(Visible(n.kv), b, b);
    } else {
      NoAcks();
      AckKeysConcat(n.buffer, n.acks);
      AckKeysConcat([], n.acks);
      VisibleKeys(n.kv);
      RemoveNone(Visible(n.kv), b);
      RemoveNone(Visible(n.kv), {});
    }
  }

  lemma VisibleKeys(kv: KV)
    ensures Visible(kv).Keys <= kv.Keys
  {
  }

  lemma {:induction false} SavesAt(log: seq<Command>, t: Task)
    ensures t in Saves(log) <==> exists i :: 0 <= i < |log| && log[i] == SaveTask(t)
  {
    if log != [] {
      var rest := log[..|log| - 1];
      SavesAt(rest, t);
      if t in Saves(rest) {
        var i :| 0 <= i < |rest| && rest[i] == SaveTask(t);
        assert log[i] == SaveTask(t);
      }
    }
  }

  lemma {:induction false} AcksAt(log: seq<Command>, a: Ack)
    ensures a in Acks(log) <==> exists i :: 0 <= i < |log| && log[i] == AckTask(a)
  {
    if log != [] {
      var rest := log[..|log| - 1];
      AcksAt(rest, a);
      if a in Acks(rest) {
        var i :| 0 <= i < |rest| && rest[i] == AckTask(a);
        assert log[i] == AckTask(a);
      }
    }
  }

  lemma {:induction false} AcksConcat(a: seq<Command>, b: seq<Command>)
    ensures Acks(a + b) == Acks(a) + Acks(b)
  {
    if b == [] {
      assert a + b == a && Acks(a) + [] == Acks(a);
    } else {
      AcksConcat(a, b[..|b| - 1]);
      assert (a + b)[..|a + b| - 1] == a + b[..|b| - 1];
    }
  }

  /** No task of the log is saved after its ack, nor is any of the `initial` keys saved. */
  predicate GoodLog(log: seq<Command>, initial: set<Bytes>) {
    && Readable(log)
    && NoSaveAfterAck(log)
    && forall n :: 0 <= n < |log| && log[n].SaveTask? ==> TaskKey(log[n].task) !in initial
  }

  lemma FreshSaves(log: seq<Command>, batch: seq<Command>, initial: set<Bytes>)
    requires GoodLog(log + batch, initial) && GoodBatch(batch) && AllStorable(Saves(batch))
    ensures Disjoint(Saves(batch), initial + AckKeys(Acks(log)) + AckKeys(Acks(batch)))
  {
    hide Parse, TaskKey, AckKey, Saves, Acks, Storable;
    var all := log + batch;
    forall t | t in Saves(batch) ensures TaskKey(t) !in initial + AckKeys(Acks(log)) + AckKeys(Acks(batch)) {
      SavesAt(batch, t);
      var j :| 0 <= j < |batch| && batch[j] == SaveTask(t);
      assert all[|log| + j] == SaveTask(t);
      forall a | a in Acks(log) ensures AckKey(a) != Some(TaskKey(t)) {
        AcksAt(log, a);
        var i :| 0 <= i < |log| && log[i] == AckTask(a);
        assert all[i] == log[i];
      }
      forall a | a in Acks(batch) ensures AckKey(a) != Some(TaskKey(t)) {
        AcksAt(batch, a);
      }
    }
  }

  lemma BatchKeepsInv(n: Node, n': Node, batch: seq<Command>, base: KV, initial: set<Bytes>)
    requires Inv(n, base) && AcksFromLog(n, initial) && GoodBatch(batch) && BeginBatch(n, n', batch)
    requires GoodLog(n'.log, initial)
    ensures Inv(n', base) && AcksFromLog(n', initial)
  {
    hide Parse, KindOf, AckKeys, Visible, SaveConfigs, TaskPuts, SeqPlaced, Fold, TaskKey, AckKey, Saves, Acks,
      Configs, NoSaveAfterAck, Storable;
    SavesAreStorable(batch);
    FreshSaves(n.log, batch, initial);
    AckKeysConcat(n.buffer, []);
    AckKeysConcat(n.buffer, Acks(batch));
    NoAcks();
    AcksConcat(n.log, batch);
    AckKeysConcat(Acks(n.log), Acks(batch));
    NoGroups(Logical(n.kv, n.buffer));
    GroupingKeepsMeaning(Logical(n.kv, n.buffer), batch);
    FoldConcat(base, n.log, batch);
  }

  lemma SequenceKeepsDoing(n: Node, n': Node, queue: Bytes, index: nat, m: KV)
    requires Doing(n, m) && WriteSequence(n, n', queue, index)
    ensures Doing(n', m)
  {
    hide Parse, KindOf, AckKeys, Visible, SaveConfigs, TaskPuts, TaskKey, SeqKey, SeqPlaced;
    VisibleSeq(n.kv, queue, index);
    Kinds(queue, MIN);
    AckKeysAreTaskKeys(n.buffer);
  }

  lemma WorkKeepsDoing(n: Node, n': Node, m: KV)
    requires Doing(n, m) && WorkStep(n, n')
    ensures Doing(n', m) && n'.log == n.log && AckKeys(n'.buffer + n'.acks) <= AckKeys(n.buffer + n.acks)
  {
    hide Doing, AckKeys, WriteTasks;
    if WriteSetting(n, n') {
      SettingKeepsDoing(n, n', m);
    } else if isFollower :| WriteTasks(n, n', isFollower) {
      TasksKeepDoing(n, n', isFollower, m);
      TasksKeepAcks(n, n', isFollower);
    } else if BufferAcks(n, n') {
      BufferKeepsDoing(n, n', m);
      assert n'.buffer + n'.acks == n.buffer + n.acks;
    } else if FlushDelete(n, n') || FlushClear(n, n') {
      FlushKeepsDoing(n, n', m);
      AckKeysConcat(n.buffer, n.acks);
      AckKeysConcat([], n.acks);
      NoAcks();
    } else {
      var queue, index :| WriteSequence(n, n', queue, index);
      SequenceKeepsDoing(n, n', queue, index, m);
    }
  }

  lemma StepKeepsInv(n: Node, n': Node, base: KV, initial: set<Bytes>)
    requires Inv(n, base) && AcksFromLog(n, initial) && Step(n, n')
    requires GoodLog(n'.log, initial)
    ensures Inv(n', base) && AcksFromLog(n', initial)
  {
    hide Doing, BeginBatch, GoodBatch, GoodLog, AckKeys, WorkStep, Fold, Readable, Acks;
    if batch :| GoodBatch(batch) && BeginBatch(n, n', batch) {
      BatchKeepsInv(n, n', batch, base, initial);
    } else {
      WorkKeepsDoing(n, n', Fold(base, n.log));
    }
  }

  lemma TasksKeepAcks(n: Node, n': Node, isFollower: bool)
    requires WriteTasks(n, n', isFollower)
    ensures n'.log == n.log && n'.buffer == n.buffer && n'.acks == n.acks
  {
  }

  // ---------- Whole runs ----------

  predicate Start(n: Node) { n.Idle() && !n.flushing && n.log == [] && SeqPlaced(n.kv) }

  ghost predicate Run(nodes: seq<Node>) {
    && nodes != [] && Start(nodes[0])
    && forall i :: 0 <= i < |nodes| - 1 ==> Step(nodes[i], nodes[i + 1])
  }

  lemma LogGrows(n: Node, n': Node)
    requires Step(n, n')
    ensures |n.log| <= |n'.log| && n'.log[..|n.log|] == n.log
  {
    hide Configs, Saves, Acks, GoodBatch, SavePuts, AckKeys;
  }

  lemma PrefixOfGoodLog(log: seq<Command>, k: nat, initial: set<Bytes>)
    requires GoodLog(log, initial) && k <= |log|
    ensures GoodLog(log[..k], initial)
  {
    hide Parse, TaskKey, AckKey, Storable;
  }

  lemma {:induction false} RunKeepsInv(nodes: seq<Node>)
    requires Run(nodes) && GoodLog(nodes[|nodes| - 1].log, AckKeys(nodes[0].buffer))
    ensures
      var first, last := nodes[0], nodes[|nodes| - 1];
      && Inv(last, Logical(first.kv, first.buffer))
      && AcksFromLog(last, AckKeys(first.buffer))
  {
    hide GoodLog, Step, AckKeys, ApplyGroups, Logical, SeqPlaced;
    var first, last := nodes[0], nodes[|nodes| - 1];
    var initial := AckKeys(first.buffer);
    if |nodes| == 1 {
      NoGroups(Logical(first.kv, first.buffer));
      assert first.buffer + first.acks == first.buffer;
    } else {
      var before := nodes[..|nodes| - 1];
      var n := before[|before| - 1];
      assert Step(n, last);
      LogGrows(n, last);
      PrefixOfGoodLog(last.log, |n.log|, initial);
      RunKeepsInv(before);
      StepKeepsInv(n, last, Logical(first.kv, first.buffer), initial);
    }
  }

  /** Batching does not matter. Take any run, with any split of the log into batches that never hold
      both the save and the ack of a task, any interleaving of the three workers and any flushes. If
      no task is saved after its ack, then between batches the replica stands for exactly the tasks
      and settings that applying the log one command at a time gives. */
  lemma BatchingDoesNotMatter(nodes: seq<Node>)
    requires Run(nodes) && GoodLog(nodes[|nodes| - 1].log, AckKeys(nodes[0].buffer))
    requires nodes[|nodes| - 1].Idle()
    ensures
      var first, last := nodes[0], nodes[|nodes| - 1];
      Logical(last.kv, last.buffer) == Fold(Logical(first.kv, first.buffer), last.log)
  {
    hide GoodLog, Step, AckKeys, ApplyGroups, Logical, SeqPlaced;
    RunKeepsInv(nodes);
    var last := nodes[|nodes| - 1];
    NoGroups(Logical(last.kv, last.buffer));
  }

  // ---------- Saves and acks of one task in one batch ----------

  function Last(nodes: seq<Node>): Node
    requires nodes != []
  {
    nodes[|nodes| - 1]
  }

  ghost predicate WorkRun(nodes: seq<Node>) {
    nodes != [] && forall i :: 0 <= i < |nodes| - 1 ==> WorkStep(nodes[i], nodes[i + 1])
  }

  /** One batch from its beginning until its workers are done, with any interleaving and flushes. */
  ghost predicate BatchRun(n: Node, batch: seq<Command>, nodes: seq<Node>) {
    nodes != [] && WorkRun(nodes) && BeginBatch(n, nodes[0], batch) && Last(nodes).Idle()
  }

  /** What the replica stands for after a run of the batch does not depend on the run. */
  ghost predicate OneResult(n: Node, batch: seq<Command>) {
    forall a, b :: BatchRun(n, batch, a) && BatchRun(n, batch, b) ==>
      Logical(Last(a).kv, Last(a).buffer) == Logical(Last(b).kv, Last(b).buffer)
  }

  lemma GroupsOfGoodBatch(batch: seq<Command>)
    requires Readable(batch)
    ensures AllStorable(Saves(batch))
    ensures GoodBatch(batch) <==> Disjoint(Saves(batch), AckKeys(Acks(batch)))
  {
    hide Parse, TaskKey, AckKey, Saves, Acks, Storable;
    SavesAreStorable(batch);
    forall t | t in Saves(batch) ensures exists i :: 0 <= i < |batch| && batch[i] == SaveTask(t) { SavesAt(batch, t); }
    forall a | a in Acks(batch) ensures exists i :: 0 <= i < |batch| && batch[i] == AckTask(a) { AcksAt(batch, a); }
    forall i | 0 <= i < |batch| && batch[i].SaveTask? ensures batch[i].task in Saves(batch) {
      SavesAt(batch, batch[i].task);
    }
    forall i | 0 <= i < |batch| && batch[i].AckTask? ensures batch[i].ack in Acks(batch) {
      AcksAt(batch, batch[i].ack);
    }
  }

  lemma {:induction false} WorkRunKeepsDoing(nodes: seq<Node>, m: KV)
    requires WorkRun(nodes) && Doing(nodes[0], m)
    ensures Doing(Last(nodes), m)
  {
    hide Doing, WorkStep;
    if |nodes| > 1 {
      var before := nodes[..|nodes| - 1];
      assert WorkStep(Last(before), Last(nodes));
      WorkRunKeepsDoing(before, m);
      WorkKeepsDoing(Last(before), Last(nodes), m);
    }
  }

  /** A flush in progress has deleted the buffered keys. */
  predicate FlushOk(n: Node) { n.flushing ==> n.kv.Keys !! AckKeys(n.buffer) }

  /** The acks that can still delete a key, or hide it, once the batch has begun: all those of the buffer
      and the batch. A flush in progress leaves those of the buffer no more than a last chance to hide
      keys, and not even that when the batch has acks, which have to wait for it. */
  function RacingAcks(n: Node, batch: seq<Command>): seq<Ack> {
    if !n.flushing then n.buffer + Acks(batch) else if Acks(batch) == [] then n.buffer else Acks(batch)
  }

  /** No task the batch saves is named by a racing ack. */
  predicate RaceFree(n: Node, batch: seq<Command>)
    requires AllStorable(Saves(batch))
  {
    Disjoint(Saves(batch), AckKeys(RacingAcks(n, batch)))
  }

  /** The node once the flush in progress is over. */
  function Flushed(n: Node): Node { n.(buffer := [], flushing := false) }

  /** The flush in which the batch began is still in progress, and acks are waiting for its end. */
  predicate FirstFlush(n: Node, m: KV) { n.flushing && n.acks != [] && Doing(Flushed(n), m) }

  lemma FirstFlushStep(n: Node, n': Node, m: KV)
    requires FirstFlush(n, m) && WorkStep(n, n')
    ensures FirstFlush(n', m) || Doing(n', m)
  {
    hide Doing, SavePuts, ConfigKey, SeqKey, AllStorable;
    if WriteSetting(n, n') {
      SettingKeepsDoing(Flushed(n), Flushed(n'), m);
    } else if isFollower :| WriteTasks(n, n', isFollower) {
      TasksKeepDoing(Flushed(n), Flushed(n'), isFollower, m);
    } else if queue, index :| WriteSequence(n, n', queue, index) {
      SequenceKeepsDoing(Flushed(n), Flushed(n'), queue, index, m);
    }
  }

  lemma {:induction false} FirstFlushRun(nodes: seq<Node>, m: KV)
    requires WorkRun(nodes) && FirstFlush(nodes[0], m)
    ensures FirstFlush(Last(nodes), m) || Doing(Last(nodes), m)
  {
    hide FirstFlush, Doing, WorkStep;
    if |nodes| > 1 {
      var before := nodes[..|nodes| - 1];
      assert WorkStep(Last(before), Last(nodes));
      FirstFlushRun(before, m);
      if FirstFlush(Last(before), m) {
        FirstFlushStep(Last(before), Last(nodes), m);
      } else {
        WorkKeepsDoing(Last(before), Last(nodes), m);
      }
    }
  }

  lemma NothingBuffered(n: Node)
    requires n.kv.Keys !! AckKeys(n.buffer)
    ensures Logical(n.kv, []) == Logical(n.kv, n.buffer)
  {
    hide AckKeys, Visible;
    NoAcks();
    VisibleKeys(n.kv);
    RemoveNone(Visible(n.kv), AckKeys(n.buffer));
    RemoveNone(Visible(n.kv), {});
  }

  /** When no racing ack names a task the batch saves, every run stands for the commands in order. */
  lemma DisjointBatchMeansCommands(n: Node, batch: seq<Command>, nodes: seq<Node>)
    requires FlushOk(n) && SeqPlaced(n.kv) && AllStorable(Saves(batch))
    requires BatchRun(n, batch, nodes) && RaceFree(n, batch)
    ensures Logical(Last(nodes).kv, Last(nodes).buffer) == Fold(Logical(n.kv, n.buffer), batch)
  {
    hide Parse, WorkStep, AckKeys, Logical, ApplyGroups, SeqPlaced, Fold, Saves, Acks, Configs, TaskKey, Storable;
    var a, m := nodes[0], Fold(Logical(n.kv, n.buffer), batch);
    AckKeysConcat(n.buffer, Acks(batch));
    NoAcks();
    GroupingKeepsMeaning(Logical(n.kv, n.buffer), batch);
    if n.flushing && a.acks != [] {
      NothingBuffered(n);
      assert [] + a.acks == a.acks;
      assert FirstFlush(a, m);
      FirstFlushRun(nodes, m);
    } else {
      assert n.buffer + [] == n.buffer;
      WorkRunKeepsDoing(nodes, m);
    }
    NoGroups(Logical(Last(nodes).kv, Last(nodes).buffer));
  }

  lemma ExtendWork(nodes: seq<Node>, n: Node)
    requires nodes != [] && WorkRun(nodes) && WorkStep(Last(nodes), n)
    ensures WorkRun(nodes + [n])
  {
    hide WorkStep;
    var more := nodes + [n];
    forall i | 0 <= i < |more| - 1 ensures WorkStep(more[i], more[i + 1]) {
      if i < |nodes| - 1 { assert WorkStep(nodes[i], nodes[i + 1]); }
    }
  }

  /** The settings worker runs to its end. */
  lemma {:induction false} SettingsRun(n: Node, k: nat) returns (nodes: seq<Node>)
    requires k <= |n.settings|
    ensures nodes != [] && WorkRun(nodes) && nodes[0] == n
    ensures Last(nodes) == n.(kv := SaveConfigs(n.kv, n.settings[..k]), settings := n.settings[k..])
  {
    hide ConfigKey;
    if k == 0 {
      nodes := [n];
      assert n.settings[0..] == n.settings;
    } else {
      var before := SettingsRun(n, k - 1);
      var last, c := Last(before), n.settings[k - 1];
      assert last.settings[0] == c && last.settings[1..] == n.settings[k..];
      assert n.settings[..k][..k - 1] == n.settings[..k - 1];
      var next := last.(kv := last.kv[ConfigKey(c.id) := ConfigValue(c)], settings := n.settings[k..]);
      assert WriteSetting(last, next);
      ExtendWork(before, next);
      nodes := before + [next];
    }
  }

  /** The node holds all tasks of the group. */
  predicate HoldsTasks(n: Node, tasks: seq<Task>)
    requires AllStorable(tasks)
  {
    forall k :: k in TaskPuts(tasks) ==> k in n.kv && n.kv[k] == TaskPuts(tasks)[k]
  }

  /** The tasks are committed before the acks are buffered. */
  lemma SavesFirst(a: Node) returns (nodes: seq<Node>)
    requires a.tasks != [] && AllStorable(a.tasks) && (a.flushing ==> a.acks == [])
    ensures nodes != [] && WorkRun(nodes) && nodes[0] == a && Last(nodes).Idle()
    ensures Last(nodes).buffer == a.buffer + a.acks && HoldsTasks(Last(nodes), a.tasks)
  {
    hide Parse, SaveConfigs, TaskPuts, SeqPuts, MaxIndexes, WorkRun, KindOf;
    nodes := SettingsRun(a, |a.settings|);
    var b := Last(nodes);
    var c := b.(kv := b.kv + SavePuts(b.tasks, false), tasks := []);
    assert WriteTasks(b, c, false);
    ExtendWork(nodes, c);
    nodes := nodes + [c];
    assert a.buffer + [] == a.buffer;
    if c.acks != [] {
      var d := c.(buffer := c.buffer + c.acks, acks := []);
      assert BufferAcks(c, d);
      ExtendWork(nodes, d);
      nodes := nodes + [d];
    }
  }

  /** The acks are buffered and flushed before the tasks are committed. */
  lemma AcksFirst(a: Node) returns (nodes: seq<Node>)
    requires a.tasks != [] && AllStorable(a.tasks) && !a.flushing
    ensures nodes != [] && WorkRun(nodes) && nodes[0] == a && Last(nodes).Idle()
    ensures Last(nodes).buffer == [] && HoldsTasks(Last(nodes), a.tasks)
  {
    hide Parse, SaveConfigs, TaskPuts, SeqPuts, MaxIndexes, WorkRun, AckKeys;
    nodes := SettingsRun(a, |a.settings|);
    var b := Last(nodes);
    if b.acks != [] {
      var b' := b.(buffer := b.buffer + b.acks, acks := []);
      assert BufferAcks(b, b');
      ExtendWork(nodes, b');
      nodes := nodes + [b'];
      b := b';
    }
    var c := b.(kv := b.kv - AckKeys(b.buffer), flushing := true);
    assert FlushDelete(b, c);
    ExtendWork(nodes, c);
    nodes := nodes + [c];
    var d := c.(buffer := [], flushing := false);
    assert FlushClear(c, d);
    ExtendWork(nodes, d);
    nodes := nodes + [d];
    var e := d.(kv := d.kv + SavePuts(d.tasks, false), tasks := []);
    assert WriteTasks(d, e, false);
    ExtendWork(nodes, e);
    nodes := nodes + [e];
  }

  /** The flush in progress ends first. */
  lemma ClearFirst(a: Node, nodes: seq<Node>)
    requires a.flushing && nodes != [] && WorkRun(nodes) && nodes[0] == Flushed(a)
    ensures WorkRun([a] + nodes) && Last([a] + nodes) == Last(nodes)
  {
    var more := [a] + nodes;
    assert FlushClear(a, nodes[0]);
    hide WorkStep;
    assert WorkStep(a, nodes[0]) by { ClearIsWork(a, nodes[0]); }
    forall i | 0 <= i < |more| - 1 ensures WorkStep(more[i], more[i + 1]) {
      if i > 0 { assert WorkStep(nodes[i - 1], nodes[i]); }
    }
  }

  lemma ClearIsWork(n: Node, n': Node)
    requires FlushClear(n, n')
    ensures WorkStep(n, n')
  {
  }

  lemma HeldIsLogical(n: Node, tasks: seq<Task>, t: Task)
    requires AllStorable(tasks) && HoldsTasks(n, tasks) && t in tasks
    ensures TaskKey(t) in Logical(n.kv, n.buffer) <==> TaskKey(t) !in AckKeys(n.buffer)
  {
    hide Parse, TaskKey, TaskPuts, AckKeys;
    TaskPutsAt(tasks, TaskKey(t));
    TaskPutsKind(tasks);
  }

  /** A saved task that a racing ack names ends up gone or stored, depending on the run. */
  lemma SaveAndAckInOneBatchRace(n: Node, batch: seq<Command>, t: Task) returns (a: seq<Node>, b: seq<Node>)
    requires n.Idle() && Readable(batch) && t in Saves(batch) && Storable(t)
    requires TaskKey(t) in AckKeys(RacingAcks(n, batch))
    ensures BatchRun(n, batch, a) && TaskKey(t) !in Logical(Last(a).kv, Last(a).buffer)
    ensures BatchRun(n, batch, b) && TaskKey(t) in Logical(Last(b).kv, Last(b).buffer)
  {
    hide Parse, TaskKey, Saves, Acks, Configs, WorkRun, AckKeys, Logical, HoldsTasks, Readable;
    SavesAreStorable(batch);
    NoAcks();
    var start := n.(settings := Configs(batch), tasks := Saves(batch), acks := Acks(batch), log := n.log + batch);
    assert BeginBatch(n, start, batch);
    if !n.flushing {
      a := SavesFirst(start);
      b := AcksFirst(start);
    } else if start.acks == [] {
      a := SavesFirst(start);
      b := SavesFirst(Flushed(start));
      ClearFirst(start, b);
      b := [start] + b;
      assert [] + start.acks == [] && n.buffer + start.acks == n.buffer;
    } else {
      a := SavesFirst(Flushed(start));
      ClearFirst(start, a);
      a := [start] + a;
      b := AcksFirst(Flushed(start));
      ClearFirst(start, b);
      b := [start] + b;
      assert [] + start.acks == start.acks;
    }
    HeldIsLogical(Last(a), Saves(batch), t);
    HeldIsLogical(Last(b), Saves(batch), t);
  }

  /** The exact condition: what the replica stands for after a batch is the same for every interleaving
      and every flush if and only if no racing ack names a task the batch saves. */
  lemma OneResultExactly(n: Node, batch: seq<Command>)
    requires n.Idle() && FlushOk(n) && SeqPlaced(n.kv) && Readable(batch)
    ensures AllStorable(Saves(batch))
    ensures OneResult(n, batch) <==> RaceFree(n, batch)
  {
    hide Parse, TaskKey, Saves, Acks, WorkRun, BeginBatch, AckKeys, Logical, Fold, SeqPlaced, Readable, Storable, Last,
      RacingAcks, FlushOk;
    SavesAreStorable(batch);
    if RaceFree(n, batch) {
      forall a, b | BatchRun(n, batch, a) && BatchRun(n, batch, b)
        ensures Logical(Last(a).kv, Last(a).buffer) == Logical(Last(b).kv, Last(b).buffer)
      {
        DisjointBatchMeansCommands(n, batch, a);
        DisjointBatchMeansCommands(n, batch, b);
      }
    } else {
      var t :| t in Saves(batch) && TaskKey(t) in AckKeys(RacingAcks(n, batch));
      var a, b := SaveAndAckInOneBatchRace(n, batch, t);
    }
  }

  /** When the buffer holds no ack of a task the batch saves, as in a log that saves no task after its
      ack, the condition is that the batch does not both save and acknowledge a task. */
  lemma OneResultIffGoodBatch(n: Node, batch: seq<Command>)
    requires n.Idle() && FlushOk(n) && SeqPlaced(n.kv) && Readable(batch)
    requires forall t :: t in Saves(batch) && Storable(t) ==> TaskKey(t) !in AckKeys(n.buffer)
    ensures OneResult(n, batch) <==> GoodBatch(batch)
  {
    hide Parse, TaskKey, Saves, Acks, AckKeys, OneResult, GoodBatch, SeqPlaced, Readable, FlushOk;
    OneResultExactly(n, batch);
    GroupsOfGoodBatch(batch);
    AckKeysConcat(n.buffer, Acks(batch));
    NoAcks();
  }

  lemma GroupsSnoc(log: seq<Command>, c: Command)
    ensures Saves(log + [c]) == if c.SaveTask? then Saves(log) + [c.task] else Saves(log)
    ensures Acks(log + [c]) == if c.AckTask? then Acks(log) + [c.ack] else Acks(log)
    ensures Configs(log + [c]) == if c.SaveQueue? then Configs(log) + [c.config] else Configs(log)
  {
    assert (log + [c])[..|log|] == log;
  }
}
