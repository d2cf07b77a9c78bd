/** Queue settings kept in memory and replicated from time to time (storage/syncer.go). */
module Syncing {
  import opened ByteStrings
  import opened Ids
  import opened Keys
  import opened TaskStores
  import opened Lanes
  import opened Readers

  /** The settings of a queue nobody has used yet. */
  function DefaultConfig(queue: Bytes): QueueConfig { QueueConfig(queue, Show(MIN), Show(MAX), 300) }

  /** The replicated settings of a queue. */
  function Replicated(kv: KV, queue: Bytes): Option<QueueConfig> {
    if ConfigKey(queue) in kv && kv[ConfigKey(queue)].ConfigValue? then Some(kv[ConfigKey(queue)].config) else None
  }

  /** What becomes of a proposal: applied, refused, or applied although it was reported as failed. */
  datatype Proposal = Applied | Refused | Late

  class SyncedSettings {
    const db: Pebble
    const queue: Bytes
    var S: QueueConfig
    var lastSaved: Option<QueueConfig>

    /** A late proposal has been applied since the last one that was reported as applied. */
    ghost var late: bool

    /** What was saved last is what is replicated, unless a late proposal came after it. */
    ghost predicate Valid()
      reads this, db
    {
      && S.id == queue
      && (lastSaved.Some? && !late ==> Replicated(db.kv, queue) == lastSaved)
    }

    constructor (db: Pebble, queue: Bytes)
      ensures this.db == db && this.queue == queue && S == DefaultConfig(queue) && lastSaved.None? && !late
      ensures Valid()
    {
      this.db := db;
      this.queue := queue;
      S := DefaultConfig(queue);
      lastSaved := None;
      late := false;
    }

    /** Takes over the replicated settings; for a new queue, the defaults are proposed. */
    method Load(outcome: Proposal) returns (ok: bool)
      requires Valid() && lastSaved.None? && !late
      requires Replicated(db.kv, queue).Some? ==> Replicated(db.kv, queue).value.id == queue
      modifies this, db
      ensures Valid()
      ensures
        var found := Replicated(old(db.kv), queue);
        S == (if found.Some? then found.value else DefaultConfig(queue)) && ok == (found.Some? || outcome.Applied?)
      ensures ok ==> Replicated(db.kv, queue) == Some(S)
    {
      var found := Replicated(db.kv, queue);
      if found.Some? {
        S := found.value;
        return true;
      }
      S := DefaultConfig(queue);
      ok := TrySave(outcome);
    }

    /** Proposes the settings unless they are what was saved last. A success leaves memory and replica
        equal, also after late proposals; a refusal changes nothing. */
    method TrySave(outcome: Proposal) returns (ok: bool)
      requires Valid()
      modifies this`lastSaved, this`late, db
      ensures Valid()
      ensures ok == (outcome.Applied? || old(lastSaved) == Some(S))
      ensures ok && !(old(late) && old(lastSaved) == Some(S)) ==> Replicated(db.kv, queue) == Some(S)
      ensures lastSaved == if ok then Some(S) else old(lastSaved)
      ensures
        var proposed := old(lastSaved) != Some(S) && !outcome.Refused?;
        db.kv == if proposed then old(db.kv)[ConfigKey(queue) := ConfigValue(S)] else old(db.kv)
    {
      if lastSaved == Some(S) {
        return true;
      }
      var snapshot := S;
      if !outcome.Refused? {
        db.kv := db.kv[ConfigKey(queue) := ConfigValue(snapshot)];
        late := outcome.Late?;
      }
      if outcome.Applied? {
        lastSaved := Some(snapshot);
      }
      return outcome.Applied?;
    }

    /** Close makes a last attempt and reports nothing. */
    method Close(outcome: Proposal)
      requires Valid()
      modifies this`lastSaved, this`late, db
      ensures Valid()
      ensures outcome.Applied? && !(old(late) && old(lastSaved) == Some(S)) ==> Replicated(db.kv, queue) == Some(S)
      ensures Replicated(db.kv, queue) == Some(S) || Replicated(db.kv, queue) == Replicated(old(db.kv), queue)
    {
      var _ := TrySave(outcome);
    }
  }

  /** A queue without replicated settings starts both lanes at their default checkpoints, with an ack
      deadline of five minutes. */
  lemma NewQueueStartsAtDefaults(queue: Bytes, lane: Lane)
    ensures Parseable(DefaultConfig(queue)) && Checkpoint(lane, DefaultConfig(queue)) == Default(lane)
    ensures DefaultConfig(queue).id == queue && AckDeadline(DefaultConfig(queue)) == 5 * 60 * 1_000_000_000
  {
    hide Parse, Show, Number, Index, New, ToBE;
    DefaultSettings(DefaultConfig(queue), lane);
  }
}
