/** Building tasks from push requests, and the keys they are saved and acknowledged under
    (server/api/queue.go, storage/task.go). */
module TaskCreation {
  import opened ByteStrings
  import opened Ids
  import opened Keys
  import opened TaskStores

  const SECOND: int := 1_000_000_000

  /** The `schedule` choice of a push request. */
  datatype Schedule = Unscheduled | At(t: int) | After(ttsSeconds: int)

  datatype PushRequest = PushRequest(
    queue: Bytes,
    metadata: map<string, string>,
    payload: Bytes,
    schedule: Schedule)

  /** getRunTime: the wait is a 64-bit duration in nanoseconds, which wraps around. */
  function RunTime(req: PushRequest, now: int): int {
    match req.schedule
    case After(s) => if s > 0 then now + Signed(UnixBits(s * SECOND)) else ZERO_TIME
    case At(t) => t
    case Unscheduled => ZERO_TIME
  }

  /** makeTask, with the two clock readings and the index drawn from the sequence as inputs. */
  function MakeTask(req: PushRequest, createdAt: int, now: int, index: U64): Task {
    var ts := RunTime(req, now);
    Task(Show(New(ts, index)), req.queue, req.metadata, req.payload,
         if ts == ZERO_TIME then None else Some(ts), None, createdAt)
  }

  /** The signed 64-bit value of a number. */
  predicate WrapsTo(n: int, wrapped: int) { 0 <= wrapped + TWO63 < TWO64 && (wrapped - n) % TWO64 == 0 }

  /** What the API promises of a task. One pushed without a schedule, or with no wait, is a FIFO task; one with
      a time is scheduled for it, and one with a wait for that many seconds from now. A wait of 2^63
      nanoseconds or more wraps around. A run time that is the zero time counts as none. The content of
      the request stays as it was, and nothing has been retried. */
  lemma MadeAsRequested(req: PushRequest, createdAt: int, now: int, index: U64)
    ensures
      var t := MakeTask(req, createdAt, now, index);
      && t.queue == req.queue && t.metadata == req.metadata && t.payload == req.payload
      && t.createdAt == createdAt && t.lastRetry.None?
    ensures
      var time := MakeTask(req, createdAt, now, index).scheduleTime;
      match req.schedule
      case Unscheduled => time == None
      case At(at) => time == if at == ZERO_TIME then None else Some(at)
      case After(s) =>
        if s <= 0 then time == None
        else exists wait :: && WrapsTo(s * 1_000_000_000, wait)
                            && time == if now + wait == ZERO_TIME then None else Some(now + wait)
    ensures req.schedule.After? && 0 < req.schedule.ttsSeconds && req.schedule.ttsSeconds * 1_000_000_000 < TWO63 ==>
              var at := now + req.schedule.ttsSeconds * 1_000_000_000;
              MakeTask(req, createdAt, now, index).scheduleTime == if at == ZERO_TIME then None else Some(at)
    ensures
      var t := MakeTask(req, createdAt, now, index);
      t.id == Show(New(if t.scheduleTime.Some? then t.scheduleTime.value else ZERO_TIME, index))
  {
    hide Show, New;
    if req.schedule.After? && req.schedule.ttsSeconds > 0 { WrappedWait(req.schedule.ttsSeconds * 1_000_000_000); }
  }

  lemma WrappedWait(wait: int)
    ensures WrapsTo(wait, Signed(UnixBits(wait)))
    ensures 0 <= wait < TWO63 ==> Signed(UnixBits(wait)) == wait
  {
  }

  /** The ack a consumer sends for a task it received. */
  function AckOf(t: Task): Ack { Ack(t.queue, t.id) }

  lemma MadeTasksAreStorable(req: PushRequest, createdAt: int, now: int, index: U64)
    ensures Storable(MakeTask(req, createdAt, now, index))
    ensures IdOf(MakeTask(req, createdAt, now, index)) == AlignLeft(StripZeros(New(RunTime(req, now), index)))
  {
    ParseShow(New(RunTime(req, now), index));
  }

  /** The time half an id has left once its leading zero bytes are gone. */
  function ShiftedTimeBits(ts: int, index: U64): U64 { TimeBits(AlignLeft(StripZeros(New(ts, index)))) }

  /** The ack of a made task computes the key the task was saved under, unless the task is scheduled
      and its shifted time looks like the zero time. */
  lemma SaveKeyIsAckKey(req: PushRequest, createdAt: int, now: int, index: U64)
    ensures
      var ts, t := RunTime(req, now), MakeTask(req, createdAt, now, index);
      && Storable(t)
      && (AckKey(AckOf(t)) == Some(TaskKey(t)) <==>
          ts == ZERO_TIME || ShiftedTimeBits(ts, index) != UnixBits(ZERO_TIME))
  {
    hide Parse, New, TimeBits, FifoKey, SchedKey, RunTime, KindOf, ToBE;
    var ts, t := RunTime(req, now), MakeTask(req, createdAt, now, index);
    MadeTasksAreStorable(req, createdAt, now, index);
    if ts == ZERO_TIME {
      UsualIdsRoundTrip(ts, index);
      NewParts(ts, index);
    }
    Kinds(t.queue, IdOf(t));
    SignedInjective(TimeBits(IdOf(t)), UnixBits(ZERO_TIME));
  }

  lemma SignedInjective(a: U64, b: U64)
    ensures Signed(a) == Signed(b) <==> a == b
  {
  }

  /** For an unscheduled task or a schedule from 1972 to 2262 the ack always finds the task. */
  lemma UsualTasksCanBeAcked(req: PushRequest, createdAt: int, now: int, index: U64)
    requires RunTime(req, now) == ZERO_TIME || Schedulable(RunTime(req, now))
    ensures Storable(MakeTask(req, createdAt, now, index))
    ensures IdOf(MakeTask(req, createdAt, now, index)) == New(RunTime(req, now), index)
    ensures AckKey(AckOf(MakeTask(req, createdAt, now, index))) == Some(TaskKey(MakeTask(req, createdAt, now, index)))
  {
    hide Parse, New, TimeBits, TaskKey, AckKey, ToBE, RunTime, StripZeros, Show;
    var ts := RunTime(req, now);
    UsualIdsRoundTrip(ts, index);
    SaveKeyIsAckKey(req, createdAt, now, index);
    MadeTasksAreStorable(req, createdAt, now, index);
    NewParts(ts, index);
  }

  /** A schedule 2^64 nanoseconds after the zero time is saved as scheduled and acked as FIFO: the
      ack misses. */
  lemma WrappedScheduleCannotBeAcked(queue: Bytes, createdAt: int, now: int, index: U64)
    ensures
      var t := MakeTask(PushRequest(queue, map[], [], At(ZERO_TIME + TWO64)), createdAt, now, index);
      Storable(t) && AckKey(AckOf(t)) != Some(TaskKey(t))
  {
    hide Parse, New, TimeBits, TaskKey, AckKey, StripZeros, AlignLeft, ToBE;
    var req := PushRequest(queue, map[], [], At(ZERO_TIME + TWO64));
    var ts :| ts == ZERO_TIME + TWO64;
    LargeIdsRoundTrip(ts, index);
    ParseShow(New(ts, index));
    NewParts(ts, index);
    SaveKeyIsAckKey(req, createdAt, now, index);
  }

  /** Flushing the acks of some made tasks removes exactly those tasks: any other stored task stays,
      whatever its queue. */
  lemma FlushRemovesExactlyTheAcked(kv: KV, acked: seq<Task>, t: Task)
    requires forall u :: u in acked ==> Storable(u) && AckKey(AckOf(u)) == Some(TaskKey(u))
    requires Storable(t) && TaskKey(t) in kv
    ensures
      var acks := seq(|acked|, i requires 0 <= i < |acked| => AckOf(acked[i]));
      TaskKey(t) !in kv - AckKeys(acks) <==>
      exists u :: && u in acked && u.queue == t.queue && u.scheduleTime.None? == t.scheduleTime.None?
                  && if t.scheduleTime.None? then Index(IdOf(u)) == Index(IdOf(t)) else IdOf(u) == IdOf(t)
  {
    hide Parse, TaskKey, AckKey, Index;
    var acks := seq(|acked|, i requires 0 <= i < |acked| => AckOf(acked[i]));
    if TaskKey(t) in AckKeys(acks) {
      var a :| a in acks && AckKey(a) == Some(TaskKey(t));
      var i :| 0 <= i < |acks| && a == acks[i];
      assert acked[i] in acked;
      TaskKeyInjective(acked[i], t);
    }
    forall u | u in acked && TaskKey(u) == TaskKey(t) ensures TaskKey(t) in AckKeys(acks) {
      var i :| 0 <= i < |acked| && acked[i] == u;
      assert acks[i] == AckOf(u);
    }
    forall u | u in acked ensures TaskKey(u) == TaskKey(t) <==>
        && u.queue == t.queue && u.scheduleTime.None? == t.scheduleTime.None?
        && if t.scheduleTime.None? then Index(IdOf(u)) == Index(IdOf(t)) else IdOf(u) == IdOf(t)
    {
      TaskKeyInjective(u, t);
    }
  }
}
