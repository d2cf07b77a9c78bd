/** The database and the task store (storage/task.go).

    A database is a map from keys to values. A batch collects its writes and commits them at once.
 */
module TaskStores {
  import opened ByteStrings
  import opened Ids
  import opened Keys

  class Pebble {
    var kv: KV

    constructor ()
      ensures kv == map[]
    {
      kv := map[];
    }
  }

  predicate AllStorable(tasks: seq<Task>) { forall t :: t in tasks ==> Storable(t) }

  /** The task writes of a batch; a later task with the same key wins. */
  function TaskPuts(tasks: seq<Task>): KV
    requires AllStorable(tasks)
  {
    if tasks == [] then map[]
    else
      var last := tasks[|tasks| - 1];
      TaskPuts(tasks[..|tasks| - 1])[TaskKey(last) := TaskValue(last)]
  }

  /** maxIndexes: an absent queue counts as 0, so index 0 never makes an entry. */
  function MaxIndexes(tasks: seq<Task>): map<Bytes, U64>
    requires AllStorable(tasks)
  {
    if tasks == [] then map[]
    else
      var rest := MaxIndexes(tasks[..|tasks| - 1]);
      var last := tasks[|tasks| - 1];
      var index := Index(IdOf(last));
      if index > (if last.queue in rest then rest[last.queue] else 0) then rest[last.queue := index] else rest
  }

  function SeqPuts(indexes: map<Bytes, U64>): KV {
    assert forall q: Bytes :: SeqKey(q)[|QUEUE_SEQ|..] == q;
    map q | q in indexes :: SeqKey(q) := SeqValue(indexes[q])
  }

  /** Everything SaveAll commits. */
  function SavePuts(tasks: seq<Task>, saveIndex: bool): KV
    requires AllStorable(tasks)
  {
    if saveIndex then TaskPuts(tasks) + SeqPuts(MaxIndexes(tasks)) else TaskPuts(tasks)
  }

  /** The keys a list of acks names; unreadable acks name none. */
  function AckKeys(acks: seq<Ack>): set<Bytes> {
    set a | a in acks && AckKey(a).Some? :: AckKey(a).value
  }

  lemma PutAfter<K, V>(base: map<K, V>, puts: map<K, V>, k: K, v: V)
    ensures (base + puts)[k := v] == base + puts[k := v]
  {
  }

  lemma PutNone<K, V>(base: map<K, V>)
    ensures base + map[] == base
  {
  }

  /** The second loop of SaveAll: one sequence key per queue, in any order. */
  method AddIndexes(base: KV, maxIndexes: map<Bytes, U64>) returns (puts: KV)
    ensures puts == base + SeqPuts(maxIndexes)
  {
    hide SeqPuts;
    puts := base;
    PutNone(base);
    SeqPutsNone();
    var todo := maxIndexes.Keys;
    ghost var written: map<Bytes, U64> := map[];
    while todo != {}
      invariant written.Keys + todo == maxIndexes.Keys
      invariant forall q :: q in written ==> written[q] == maxIndexes[q]
      invariant puts == base + SeqPuts(written)
      decreases todo
    {
      var ns :| ns in todo;
      PutAfter(base, SeqPuts(written), SeqKey(ns), SeqValue(maxIndexes[ns]));
      puts := puts[SeqKey(ns) := SeqValue(maxIndexes[ns])];
      SeqPutsStep(written, ns, maxIndexes[ns]);
      written := written[ns := maxIndexes[ns]];
      todo := todo - {ns};
    }
    assert written == maxIndexes;
  }

  class TaskStore {
    const db: Pebble

    constructor (db: Pebble)
      ensures this.db == db
    {
      this.db := db;
    }

    /** Commits all tasks and, on followers, the highest index per queue. An unreadable id is a panic
        before anything is written: `ok` is false. `commits` says whether the commit succeeds. */
    method SaveAll(tasks: seq<Task>, saveIndex: bool, commits: bool) returns (ok: bool)
      modifies db
      ensures ok == (AllStorable(tasks) && commits)
      ensures db.kv == if ok then old(db.kv) + SavePuts(tasks, saveIndex) else old(db.kv)
    {
      hide SeqPuts, Parse, Index, TaskKey;
      var puts: KV := map[];
      var maxIndexes: map<Bytes, U64> := map[];
      for n := 0 to |tasks|
        invariant AllStorable(tasks[..n])
        invariant puts == TaskPuts(tasks[..n])
        invariant maxIndexes == if saveIndex then MaxIndexes(tasks[..n]) else map[]
        invariant db.kv == old(db.kv)
      {
        var task := tasks[n];
        assert tasks[..n + 1][..n] == tasks[..n];
        assert task in tasks;
        if Parse(task.id).None? {
          return false;
        }
        var index := Index(IdOf(task));
        if saveIndex && index > (if task.queue in maxIndexes then maxIndexes[task.queue] else 0) {
          maxIndexes := maxIndexes[task.queue := index];
        }
        puts := puts[TaskKey(task) := TaskValue(task)];
      }
      assert tasks[..|tasks|] == tasks;
      if saveIndex {
        puts := AddIndexes(puts, maxIndexes);
      }
      assert puts == SavePuts(tasks, saveIndex);
      if commits {
        db.kv := db.kv + puts;
      }
      return commits;
    }

    /** Deletes the tasks the acks name and nothing else, in one commit; unreadable acks are passed over. */
    method DeleteAll(acks: seq<Ack>, commits: bool) returns (ok: bool)
      modifies db
      ensures ok == commits && db.kv == if ok then old(db.kv) - AckKeys(acks) else old(db.kv)
    {
      var deletes: set<Bytes> := {};
      for n := 0 to |acks|
        invariant deletes == AckKeys(acks[..n])
        invariant db.kv == old(db.kv)
      {
        assert acks[..n + 1] == acks[..n] + [acks[n]];
        var key := AckKey(acks[n]);
        if key.Some? {
          deletes := deletes + {key.value};
        }
      }
      assert acks[..|acks|] == acks;
      if commits {
        db.kv := db.kv - deletes;
      }
      return commits;
    }
  }

  lemma SeqPutsAt(indexes: map<Bytes, U64>, q: Bytes)
    ensures SeqKey(q) in SeqPuts(indexes) <==> q in indexes
    ensures q in indexes ==> SeqPuts(indexes)[SeqKey(q)] == SeqValue(indexes[q])
  {
    forall q' | SeqKey(q') == SeqKey(q) ensures q' == q { QueueKeysInjective(q, q'); }
  }

  lemma SeqPutsNone()
    ensures SeqPuts(map[]) == map[]
  {
  }

  lemma SeqPutsStep(indexes: map<Bytes, U64>, ns: Bytes, index: U64)
    ensures SeqPuts(indexes[ns := index]) == SeqPuts(indexes)[SeqKey(ns) := SeqValue(index)]
  {
    var more, less := SeqPuts(indexes[ns := index]), SeqPuts(indexes)[SeqKey(ns) := SeqValue(index)];
    SeqPutsAt(indexes[ns := index], ns);
    forall k | k in more ensures k in less && more[k] == less[k] {
      var q :| q in indexes[ns := index] && k == SeqKey(q);
      SeqPutsAt(indexes[ns := index], q);
      SeqPutsAt(indexes, q);
      QueueKeysInjective(q, ns);
    }
    forall k | k in less ensures k in more {
      if k != SeqKey(ns) {
        var q :| q in indexes && k == SeqKey(q);
        SeqPutsAt(indexes[ns := index], q);
      }
    }
  }

  // ---------- What the puts are ----------

  /** Position `i` holds the last task of the batch with that key. */
  predicate LastWith(tasks: seq<Task>, key: Bytes, i: nat)
    requires AllStorable(tasks)
  {
    && i < |tasks|
    && TaskKey(tasks[i]) == key
    && forall j :: i < j < |tasks| ==> TaskKey(tasks[j]) != key
  }

  /** A key is written exactly when some task of the batch has it, and the last such task is kept. */
  lemma {:induction false} TaskPutsAt(tasks: seq<Task>, key: Bytes)
    requires AllStorable(tasks)
    ensures key in TaskPuts(tasks) <==> exists t :: t in tasks && TaskKey(t) == key
    ensures forall i: nat :: LastWith(tasks, key, i) ==>
              key in TaskPuts(tasks) && TaskPuts(tasks)[key] == TaskValue(tasks[i])
    ensures key in TaskPuts(tasks) ==> exists i: nat :: LastWith(tasks, key, i)
  {
    hide Parse, TaskKey;
    if tasks != [] {
      var rest, last := tasks[..|tasks| - 1], tasks[|tasks| - 1];
      TaskPutsAt(rest, key);
      assert tasks == rest + [last];
      if TaskKey(last) == key {
        assert last in tasks;
        assert LastWith(tasks, key, |rest|);
      } else {
        assert forall i: nat :: LastWith(tasks, key, i) <==> LastWith(rest, key, i);
      }
    }
  }

  lemma TaskPutsKind(tasks: seq<Task>)
    requires AllStorable(tasks)
    ensures forall k :: k in TaskPuts(tasks) ==> KindOf(k) in {FifoKind, SchedKind} && TaskPuts(tasks)[k].TaskValue?
  {
    forall k | k in TaskPuts(tasks)
      ensures KindOf(k) in {FifoKind, SchedKind} && TaskPuts(tasks)[k].TaskValue?
    {
      TaskPutsAt(tasks, k);
      var i: nat :| LastWith(tasks, k, i);
      TaskKeyKind(tasks[i]);
    }
  }

  /** The recorded index of a queue is the largest of the batch: an upper bound that is reached. */
  lemma {:induction false} MaxIndexesAt(tasks: seq<Task>, queue: Bytes)
    requires AllStorable(tasks)
    ensures forall t :: t in tasks && t.queue == queue && Index(IdOf(t)) > 0 ==>
              queue in MaxIndexes(tasks) && Index(IdOf(t)) <= MaxIndexes(tasks)[queue]
    ensures queue in MaxIndexes(tasks) ==>
              && MaxIndexes(tasks)[queue] > 0
              && exists t :: t in tasks && t.queue == queue && Index(IdOf(t)) == MaxIndexes(tasks)[queue]
  {
    hide Parse, Index, IdOf;
    if tasks != [] {
      var rest, last := tasks[..|tasks| - 1], tasks[|tasks| - 1];
      MaxIndexesAt(rest, queue);
      assert tasks == rest + [last] && last in tasks;
    }
  }
}
