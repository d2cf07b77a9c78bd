/** The writers behind the state machine, as objects (feeds/q/writer.go, server/cluster/sm/writer.go). */
module Writers {
  import opened ByteStrings
  import opened Ids
  import opened Keys
  import opened TaskStores
  import opened StateMachines

  const FLUSH_AT: nat := 2000

  /** The buffer and store once some acks have been handed over: a buffer of more than 2000 acks is
      flushed at once, and kept when the flush fails. */
  function BufferAfter(buffer: seq<Ack>, acks: seq<Ack>, commits: bool): seq<Ack> {
    if |buffer + acks| > FLUSH_AT && commits then [] else buffer + acks
  }

  function StoreAfter(kv: KV, buffer: seq<Ack>, acks: seq<Ack>, commits: bool): KV {
    if |buffer + acks| > FLUSH_AT && commits then kv - AckKeys(buffer + acks) else kv
  }

  class TaskWriter {
    const tasks: TaskStore
    var ackBuffer: seq<Ack>

    constructor (tasks: TaskStore)
      ensures this.tasks == tasks && ackBuffer == []
    {
      this.tasks := tasks;
      ackBuffer := [];
    }

    method Push(batch: seq<Task>, isFollower: bool, commits: bool) returns (ok: bool)
      modifies tasks.db
      ensures ok == (AllStorable(batch) && commits)
      ensures tasks.db.kv == if ok then old(tasks.db.kv) + SavePuts(batch, isFollower) else old(tasks.db.kv)
    {
      ok := tasks.SaveAll(batch, isFollower, commits);
    }

    /** Takes the acks over. What the replica stands for loses exactly their keys, whether or not a flush
        happens or succeeds, and the buffer stays small while flushes succeed. */
    method Acknowledge(acks: seq<Ack>, commits: bool)
      modifies this, tasks.db
      ensures ackBuffer == BufferAfter(old(ackBuffer), acks, commits) && (commits ==> |ackBuffer| <= 2000)
      ensures |old(ackBuffer)| + |acks| <= 2000 ==>
                ackBuffer == old(ackBuffer) + acks && tasks.db.kv == old(tasks.db.kv)
      ensures tasks.db.kv == StoreAfter(old(tasks.db.kv), old(ackBuffer), acks, commits)
      ensures Logical(tasks.db.kv, ackBuffer) == Logical(old(tasks.db.kv), old(ackBuffer)) - AckKeys(acks)
    {
      ghost var kv, buffer := tasks.db.kv, ackBuffer;
      ackBuffer := ackBuffer + acks;
      AckKeysConcat(buffer, acks);
      RemoveTwice(Visible(kv), AckKeys(buffer), AckKeys(acks));
      if |ackBuffer| > FLUSH_AT {
        Flush(commits);
      }
    }

    /** The ticker's turn. */
    method Tick(commits: bool)
      modifies this, tasks.db
      ensures commits ==> ackBuffer == []
      ensures Logical(tasks.db.kv, ackBuffer) == Logical(old(tasks.db.kv), old(ackBuffer))
    {
      if |ackBuffer| > 0 {
        Flush(commits);
      }
    }

    /** Deletes the acknowledged tasks and empties the buffer, or keeps both when the commit fails; what
        the replica stands for stays. */
    method Flush(commits: bool)
      modifies this, tasks.db
      ensures ackBuffer == if commits then [] else old(ackBuffer)
      ensures tasks.db.kv == if commits then old(tasks.db.kv) - AckKeys(old(ackBuffer)) else old(tasks.db.kv)
      ensures Logical(tasks.db.kv, ackBuffer) == Logical(old(tasks.db.kv), old(ackBuffer))
    {
      ghost var kv, gone := tasks.db.kv, AckKeys(ackBuffer);
      var ok := tasks.DeleteAll(ackBuffer, commits);
      if ok {
        ackBuffer := [];
        VisibleRemove(kv, gone);
        NoAcks();
        RemoveNone(Visible(kv) - gone, {});
      }
    }
  }

  /** An entry of the raft log: a command, an entry of another type, or data that is not a known
      command. */
  datatype Entry = Cmd(command: Command) | OtherType | Unreadable

  function Commands(logs: seq<Entry>): seq<Command> {
    if logs == [] then []
    else
      var e := logs[|logs| - 1];
      Commands(logs[..|logs| - 1]) + if e.Cmd? then [e.command] else []
  }

  datatype Outcome = Applied | Rejected

  class BatchWriter {
    const tw: TaskWriter
    var acks: seq<Ack>
    var tasks: seq<Task>
    var settings: seq<QueueConfig>

    constructor (tw: TaskWriter)
      ensures this.tw == tw && acks == [] && tasks == [] && settings == []
    {
      this.tw := tw;
      acks, tasks, settings := [], [], [];
    }

    /** Applies a batch and reports one outcome per entry. A single unreadable entry rejects the whole
        batch before anything is written; a failed write, of a setting or of the tasks, is reported for
        every entry although the other groups have been applied. The replica afterwards stands for the old
        tasks and settings with the commands applied in order, but for those whose write failed. On a
        follower the sequence of a queue is set to the highest index of the batch, and else it stays.
        `written` is how many settings get written before a write fails. Task ids are readable, as the
        program panics on any other. */
    method Write(logs: seq<Entry>, isFollower: bool, written: nat, saves: bool, flushes: bool)
      returns (res: seq<Outcome>)
      requires acks == [] && tasks == [] && settings == [] && Readable(Commands(logs))
      modifies this, tw, tw.tasks.db
      ensures acks == [] && tasks == [] && settings == []
      ensures
        var bad := Unreadable in logs || Fails(Commands(logs), written, saves);
        res == seq(|logs|, _ => if bad then Rejected else Applied)
      ensures Unreadable in logs ==> tw.tasks.db.kv == old(tw.tasks.db.kv) && tw.ackBuffer == old(tw.ackBuffer)
      ensures Unreadable !in logs ==>
                var cmds := Commands(logs);
                var stored := Written(old(tw.tasks.db.kv), cmds, isFollower, written, saves);
                && tw.tasks.db.kv == AckedStore(stored, old(tw.ackBuffer), Acks(cmds), flushes)
                && tw.ackBuffer == AckedBuffer(old(tw.ackBuffer), Acks(cmds), flushes)
                && SequencesAfter(old(tw.tasks.db.kv), tw.tasks.db.kv, Saves(cmds), isFollower && saves)
                && (SeqPlaced(old(tw.tasks.db.kv)) && GoodBatch(cmds) && FreshFor(cmds, old(tw.ackBuffer)) ==>
                    && Readable(Surviving(cmds, written, saves))
                    && Logical(tw.tasks.db.kv, tw.ackBuffer)
                       == Fold(Logical(old(tw.tasks.db.kv), old(tw.ackBuffer)), Surviving(cmds, written, saves)))
    {
      hide Parse, Saves, Acks, Configs, SavePuts, AckKeys, ConfigKey, Visible, Logical, Commands, SavesPut, Readable,
        SeqPlaced, GoodBatch, FreshFor, Fold, StoreAfter, BufferAfter, SequencesAfter, Surviving;
      var ok := GroupByType(logs);
      if !ok {
        acks, tasks, settings := [], [], [];
        return seq(|logs|, _ => Rejected);
      }
      ghost var cmds := Commands(logs);
      SavesPutIs(cmds, isFollower);
      var failed := written < |settings|;
      for n := 0 to if failed then written else |settings|
        invariant settings == Configs(cmds) && tasks == Saves(cmds) && acks == Acks(cmds)
        invariant tw.ackBuffer == old(tw.ackBuffer)
        invariant tw.tasks.db.kv == SaveConfigs(old(tw.tasks.db.kv), settings[..n])
      {
        var queue := settings[n];
        assert settings[..n + 1][..n] == settings[..n];
        tw.tasks.db.kv := tw.tasks.db.kv[ConfigKey(queue.id) := ConfigValue(queue)];
      }
      if |tasks| > 0 {
        var saved := tw.Push(tasks, isFollower, saves);
        failed := failed || !saved;
      }
      if |acks| > 0 {
        tw.Acknowledge(acks, flushes);
      }
      acks, tasks, settings := [], [], [];
      WriteSetsSequences(old(tw.tasks.db.kv), cmds, isFollower, written, saves, old(tw.ackBuffer), flushes);
      if SeqPlaced(old(tw.tasks.db.kv)) && GoodBatch(cmds) && FreshFor(cmds, old(tw.ackBuffer)) {
        WriteMeansSurviving(old(tw.tasks.db.kv), old(tw.ackBuffer), cmds, isFollower, written, saves, flushes);
      }
      return seq(|logs|, _ => if failed then Rejected else Applied);
    }

    method GroupByType(logs: seq<Entry>) returns (ok: bool)
      requires acks == [] && tasks == [] && settings == []
      modifies this
      ensures ok == (Unreadable !in logs)
      ensures ok ==> && acks == Acks(Commands(logs)) && tasks == Saves(Commands(logs))
                     && settings == Configs(Commands(logs))
    {
      hide Saves, Acks, Configs, Commands;
      NoCommands();
      assert logs[..0] == [];
      for n := 0 to |logs|
        invariant Unreadable !in logs[..n]
        invariant acks == Acks(Commands(logs[..n]))
        invariant tasks == Saves(Commands(logs[..n]))
        invariant settings == Configs(Commands(logs[..n]))
      {
        assert logs[..n + 1] == logs[..n] + [logs[n]];
        CommandsSnoc(logs[..n], logs[n]);
        match logs[n] {
          case OtherType =>
          case Unreadable =>
            return false;
          case Cmd(c) =>
            GroupsSnoc(Commands(logs[..n]), c);
            match c {
              case SaveTask(t) => tasks := tasks + [t];
              case AckTask(a) => acks := acks + [a];
              case SaveQueue(q) => settings := settings + [q];
            }
        }
      }
      assert logs[..|logs|] == logs;
      return true;
    }
  }

  function SavesPut(cmds: seq<Command>, isFollower: bool): KV
    requires Readable(cmds)
  {
    SavesAreStorable(cmds);
    SavePuts(Saves(cmds), isFollower)
  }

  /** The batch saves no task whose ack is still buffered. */
  predicate FreshFor(cmds: seq<Command>, buffer: seq<Ack>)
    requires Readable(cmds)
  {
    SavesAreStorable(cmds);
    Disjoint(Saves(cmds), AckKeys(buffer))
  }

  lemma {:induction false} VisibleConfigs(kv: KV, configs: seq<QueueConfig>)
    requires SeqPlaced(kv)
    ensures Visible(SaveConfigs(kv, configs)) == SaveConfigs(Visible(kv), configs)
    ensures SeqPlaced(SaveConfigs(kv, configs))
  {
    hide KindOf, ConfigKey, Visible;
    if configs != [] {
      var rest, c := configs[..|configs| - 1], configs[|configs| - 1];
      VisibleConfigs(kv, rest);
      Kinds(c.id, MIN);
      VisiblePut(SaveConfigs(kv, rest), ConfigKey(c.id), ConfigValue(c));
    }
  }

  lemma AfterSettings(kv: KV, buffer: seq<Ack>, cmds: seq<Command>)
    requires SeqPlaced(kv) && GoodBatch(cmds) && FreshFor(cmds, buffer)
    ensures
      var n := Node(SaveConfigs(kv, Configs(cmds)), buffer, false, [], Saves(cmds), Acks(cmds), cmds);
      Doing(n, Fold(Logical(kv, buffer), cmds))
  {
    hide Parse, KindOf, AckKey, TaskKey, SaveConfigs, TaskPuts, Visible, SeqPlaced, Saves, Acks, Configs, Fold,
      AckKeys;
    SavesAreStorable(cmds);
    VisibleConfigs(kv, Configs(cmds));
    AckKeysAreTaskKeys(buffer);
    ConfigsRemove(Visible(kv), Configs(cmds), AckKeys(buffer));
    AckKeysConcat(buffer, Acks(cmds));
    BatchIsDisjoint(cmds);
    GroupingKeepsMeaning(Logical(kv, buffer), cmds);
    NoConfigs(SaveConfigs(Logical(kv, buffer), Configs(cmds)));
  }

  lemma NoConfigs(m: KV)
    ensures SaveConfigs(m, []) == m
  {
  }

  lemma BatchIsDisjoint(cmds: seq<Command>)
    requires GoodBatch(cmds) && AllStorable(Saves(cmds))
    ensures Disjoint(Saves(cmds), AckKeys(Acks(cmds)))
  {
    hide Parse, AckKey, TaskKey, Saves, Acks, Storable;
    forall t | t in Saves(cmds) ensures TaskKey(t) !in AckKeys(Acks(cmds)) {
      SavesAt(cmds, t);
      forall a | a in Acks(cmds) ensures AckKey(a) != Some(TaskKey(t)) { AcksAt(cmds, a); }
    }
  }

  /** A write of the batch fails: not all settings are written, or the tasks are not committed. */
  predicate Fails(cmds: seq<Command>, written: nat, saves: bool) {
    written < |Configs(cmds)| || (Saves(cmds) != [] && !saves)
  }

  /** The store once the settings that get written and the tasks that get committed are in it. */
  function Written(kv: KV, cmds: seq<Command>, isFollower: bool, written: nat, saves: bool): KV
    requires Readable(cmds)
  {
    var configs := Configs(cmds);
    var stored := SaveConfigs(kv, configs[..if written < |configs| then written else |configs|]);
    if Saves(cmds) != [] && saves then stored + SavesPut(cmds, isFollower) else stored
  }

  function AckedStore(kv: KV, buffer: seq<Ack>, acks: seq<Ack>, flushes: bool): KV {
    if acks == [] then kv else StoreAfter(kv, buffer, acks, flushes)
  }

  function AckedBuffer(buffer: seq<Ack>, acks: seq<Ack>, flushes: bool): seq<Ack> {
    if acks == [] then buffer else BufferAfter(buffer, acks, flushes)
  }

  lemma WriteMeansCommands(kv: KV, buffer: seq<Ack>, cmds: seq<Command>, isFollower: bool, written: nat, flushes: bool)
    requires SeqPlaced(kv) && GoodBatch(cmds) && FreshFor(cmds, buffer) && !Fails(cmds, written, true)
    ensures
      var stored := Written(kv, cmds, isFollower, written, true);
      Logical(AckedStore(stored, buffer, Acks(cmds), flushes), AckedBuffer(buffer, Acks(cmds), flushes))
      == Fold(Logical(kv, buffer), cmds)
  {
    hide Parse, SaveConfigs, SavePuts, Saves, Acks, Configs, Fold, AckKeys, Logical, FreshFor, SavesPut, AckKey,
      TaskKey, ApplyGroups, SeqPlaced;
    var m, A := Fold(Logical(kv, buffer), cmds), Acks(cmds);
    AfterSettings(kv, buffer, cmds);
    SavesPutIs(cmds, isFollower);
    assert Configs(cmds)[..|Configs(cmds)|] == Configs(cmds);
    var a := Node(SaveConfigs(kv, Configs(cmds)), buffer, false, [], Saves(cmds), A, cmds);
    var b := a;
    if a.tasks != [] {
      b := a.(kv := a.kv + SavePuts(Saves(cmds), isFollower), tasks := []);
      TasksKeepDoing(a, b, isFollower, m);
    }
    var c := b;
    if A != [] {
      c := b.(buffer := buffer + A, acks := []);
      BufferKeepsDoing(b, c, m);
    }
    var d := c.(kv := c.kv - AckKeys(c.buffer), flushing := true);
    FlushKeepsDoing(c, d, m);
    var e := d.(buffer := [], flushing := false);
    FlushKeepsDoing(d, e, m);
    NoGroups(Logical(c.kv, c.buffer));
    NoGroups(Logical(e.kv, e.buffer));
  }

  // ---------- Sequences ----------

  /** The stored index of a queue is the highest one of the tasks if it is to be set by them, else as before. */
  predicate SequenceAfter(kv: KV, kv': KV, tasks: seq<Task>, sets: bool, queue: Bytes) {
    var k := SeqKey(queue);
    if sets && AllStorable(tasks) && queue in MaxIndexes(tasks)
    then k in kv' && kv'[k] == SeqValue(MaxIndexes(tasks)[queue])
    else (k in kv' <==> k in kv) && (k in kv ==> kv'[k] == kv[k])
  }

  ghost predicate SequencesAfter(kv: KV, kv': KV, tasks: seq<Task>, sets: bool) {
    forall queue :: SequenceAfter(kv, kv', tasks, sets, queue)
  }

  lemma WriteSetsSequences(
      kv: KV, cmds: seq<Command>, isFollower: bool, written: nat, saves: bool, buffer: seq<Ack>, flushes: bool)
    requires Readable(cmds)
    ensures
      var after := AckedStore(Written(kv, cmds, isFollower, written, saves), buffer, Acks(cmds), flushes);
      SequencesAfter(kv, after, Saves(cmds), isFollower && saves)
  {
    hide Parse, SaveConfigs, SavePuts, Saves, Acks, Configs, AckKeys, KindOf, SeqKey, MaxIndexes, TaskKey, AckKey;
    SavesPutIs(cmds, isFollower);
    var configs := Configs(cmds);
    var some := configs[..if written < |configs| then written else |configs|];
    var stored := Written(kv, cmds, isFollower, written, saves);
    var after, sets := AckedStore(stored, buffer, Acks(cmds), flushes), isFollower && saves;
    forall queue ensures SequenceAfter(kv, after, Saves(cmds), sets, queue) {
      ConfigsKeepSequence(kv, some, queue);
      SavesSetSequence(SaveConfigs(kv, some), Saves(cmds), isFollower, queue);
      NoMaxOfNone(Saves(cmds));
      NoAckOfSequence(buffer + Acks(cmds), queue);
    }
  }

  lemma {:induction false} ConfigsKeepSequence(kv: KV, configs: seq<QueueConfig>, queue: Bytes)
    ensures
      var k, after := SeqKey(queue), SaveConfigs(kv, configs);
      (k in after <==> k in kv) && (k in kv ==> after[k] == kv[k])
  {
    hide KindOf, SeqKey, ConfigKey;
    if configs != [] {
      ConfigsKeepSequence(kv, configs[..|configs| - 1], queue);
      Kinds(queue, MIN);
      Kinds(configs[|configs| - 1].id, MIN);
    }
  }

  lemma SavesSetSequence(kv: KV, tasks: seq<Task>, saveIndex: bool, queue: Bytes)
    requires AllStorable(tasks)
    ensures SequenceAfter(kv, kv + SavePuts(tasks, saveIndex), tasks, saveIndex, queue)
  {
    hide Parse, KindOf, SeqKey, TaskPuts, MaxIndexes, SeqPuts;
    TaskPutsKind(tasks);
    Kinds(queue, MIN);
    SeqPutsAt(MaxIndexes(tasks), queue);
  }

  lemma NoMaxOfNone(tasks: seq<Task>)
    ensures tasks == [] ==> AllStorable(tasks) && MaxIndexes(tasks) == map[]
  {
  }

  lemma NoAckOfSequence(acks: seq<Ack>, queue: Bytes)
    ensures SeqKey(queue) !in AckKeys(acks)
  {
    hide Parse, KindOf, SeqKey, AckKey;
    Kinds(queue, MIN);
    AckKeysAreTaskKeys(acks);
  }

  // ---------- Failed writes ----------

  /** The commands of a batch whose writes do not fail: the first `written` settings, the tasks if they are
      committed, and all acks. */
  function Surviving(cmds: seq<Command>, written: nat, saves: bool): seq<Command> {
    if cmds == [] then []
    else
      var rest, c := cmds[..|cmds| - 1], cmds[|cmds| - 1];
      Surviving(rest, written, saves) +
      if c.AckTask? || (c.SaveTask? && saves) || (c.SaveQueue? && |Configs(rest)| < written) then [c] else []
  }

  lemma {:induction false} SurvivingGroups(cmds: seq<Command>, written: nat, saves: bool)
    ensures
      var left, configs := Surviving(cmds, written, saves), Configs(cmds);
      && Saves(left) == (if saves then Saves(cmds) else []) && Acks(left) == Acks(cmds)
      && Configs(left) == configs[..if written < |configs| then written else |configs|]
    ensures forall c :: c in Surviving(cmds, written, saves) ==> c in cmds
  {
    hide Saves, Acks, Configs;
    if cmds == [] {
      NoCommands();
    } else {
      var rest, c := cmds[..|cmds| - 1], cmds[|cmds| - 1];
      SurvivingGroups(rest, written, saves);
      GroupsSnoc(rest, c);
      var left := Surviving(rest, written, saves);
      GroupsSnoc(left, c);
      assert cmds == rest + [c] && left + [] == left;
      if c.SaveQueue? { assert |Configs(cmds)| == |Configs(rest)| + 1; }
    }
  }

  /** Nothing is lost without a failed write. */
  lemma {:induction false} AllSurvive(cmds: seq<Command>, written: nat, saves: bool)
    requires !Fails(cmds, written, saves)
    ensures Surviving(cmds, written, saves) == cmds
  {
    if cmds != [] {
      AllSurvive(cmds[..|cmds| - 1], written, saves);
      assert cmds == cmds[..|cmds| - 1] + [cmds[|cmds| - 1]];
    }
  }

  lemma SurvivingIsGood(cmds: seq<Command>, buffer: seq<Ack>, written: nat, saves: bool)
    requires GoodBatch(cmds) && FreshFor(cmds, buffer)
    ensures GoodBatch(Surviving(cmds, written, saves)) && FreshFor(Surviving(cmds, written, saves), buffer)
  {
    hide Parse, AckKey, TaskKey, AckKeys, Saves, Surviving, Storable, Configs, Acks;
    var left := Surviving(cmds, written, saves);
    SurvivingGroups(cmds, written, saves);
    forall i | 0 <= i < |left| ensures exists j :: 0 <= j < |cmds| && cmds[j] == left[i] { assert left[i] in cmds; }
    SavesAreStorable(left);
  }

  /** Whatever writes fail, the replica afterwards stands for the old tasks and settings with the surviving
      commands applied in order. */
  lemma WriteMeansSurviving(
      kv: KV, buffer: seq<Ack>, cmds: seq<Command>, isFollower: bool, written: nat, saves: bool, flushes: bool)
    requires SeqPlaced(kv) && GoodBatch(cmds) && FreshFor(cmds, buffer)
    ensures
      var stored := Written(kv, cmds, isFollower, written, saves);
      && Readable(Surviving(cmds, written, saves))
      && Logical(AckedStore(stored, buffer, Acks(cmds), flushes), AckedBuffer(buffer, Acks(cmds), flushes))
         == Fold(Logical(kv, buffer), Surviving(cmds, written, saves))
  {
    hide Parse, SaveConfigs, SavePuts, Saves, Acks, Configs, Fold, AckKeys, Logical, FreshFor, AckKey, TaskKey,
      SeqPlaced, StoreAfter, BufferAfter, Surviving;
    var left := Surviving(cmds, written, saves);
    SurvivingGroups(cmds, written, saves);
    SurvivingIsGood(cmds, buffer, written, saves);
    SavesPutIs(cmds, isFollower);
    SavesPutIs(left, isFollower);
    WriteMeansCommands(kv, buffer, left, isFollower, |Configs(left)|, flushes);
    assert Configs(left)[..|Configs(left)|] == Configs(left);
  }

  lemma SavesPutIs(cmds: seq<Command>, isFollower: bool)
    requires Readable(cmds)
    ensures AllStorable(Saves(cmds)) && SavesPut(cmds, isFollower) == SavePuts(Saves(cmds), isFollower)
  {
    SavesAreStorable(cmds);
  }

  lemma NoCommands()
    ensures Commands([]) == [] && Saves([]) == [] && Acks([]) == [] && Configs([]) == []
  {
  }

  lemma CommandsSnoc(logs: seq<Entry>, e: Entry)
    ensures Commands(logs + [e]) == if e.Cmd? then Commands(logs) + [e.command] else Commands(logs)
  {
    assert (logs + [e])[..|logs|] == logs;
  }
}
