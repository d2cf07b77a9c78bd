/** Snapshots: length-prefixed records in a byte stream (server/cluster/sm/snapshot.go,
    server/cluster/store.go). Keys and values are raw bytes here. */
module Snapshots {
  import opened ByteStrings
  import opened Ids
  import opened Keys
  import opened Iteration

  type Raw = map<Bytes, Bytes>

  datatype Record = Record(key: Bytes, value: Bytes)

  // ---------- The format ----------

  /** A 32-bit big-endian length, then the bytes; longer strings lose the top of their length. */
  function Frame(s: Bytes): Bytes { ToBE(|s|, 4) + s }

  function Encoded(r: Record): Bytes { Frame(r.key) + Frame(r.value) }

  function Encode(records: seq<Record>): Bytes {
    if records == [] then [] else Encoded(records[0]) + Encode(records[1..])
  }

  function Contents(records: seq<Record>): Raw {
    if records == [] then map[] else map[records[0].key := records[0].value] + Contents(records[1..])
  }

  /** The records of a store in key order. */
  function Records(kv: Raw): (records: seq<Record>)
    ensures |records| == |SortedKeys(kv.Keys)|
    ensures forall i :: 0 <= i < |records| ==> records[i].key in kv && records[i].value == kv[records[i].key]
  {
    var keys := SortedKeys(kv.Keys);
    assert forall i :: 0 <= i < |keys| ==> keys[i] in keys;
    seq(|keys|, i requires 0 <= i < |keys| => Record(keys[i], kv[keys[i]]))
  }

  /** What io.ReadFull and read make of the rest of the stream. `End` is io.EOF, `Torn` is
      io.ErrUnexpectedEOF. A missing body after a length of 0 is not missing. */
  datatype Got = Got(bytes: Bytes, rest: Bytes) | End | Torn

  function ReadFrame(s: Bytes): (g: Got)
    ensures g.Got? ==> |g.rest| < |s|
  {
    if s == [] then End
    else if |s| < 4 then Torn
    else
      var n, body := FromBE(s[..4]), s[4..];
      if n <= |body| then Got(body[..n], body[n..])
      else if body == [] then End
      else Torn
  }

  datatype Loaded = Loaded(kv: Raw, ok: bool)

  /** loadData: an end of stream while reading a key ends the load well; any other is an error. */
  function Load(kv: Raw, s: Bytes): Loaded
    decreases |s|
  {
    match ReadFrame(s)
    case End => Loaded(kv, true)
    case Torn => Loaded(kv, false)
    case Got(key, rest) =>
      match ReadFrame(rest)
      case Got(value, rest') => Load(kv[key := value], rest')
      case _ => Loaded(kv, false)
  }

  // ---------- The writer and the reader ----------

  class RawStore {
    var kv: Raw

    constructor ()
      ensures kv == map[]
    {
      kv := map[];
    }

    /** Removes the keys from `lo` up to but not including `hi`. */
    method DeleteRange(lo: Bytes, hi: Bytes)
      modifies this
      ensures kv == old(kv) - (set k | k in old(kv) && !Less(k, lo) && Less(k, hi))
    {
      kv := kv - (set k | k in kv && !Less(k, lo) && Less(k, hi));
    }

    method DeleteAll()
      modifies this
      ensures kv == Cleared(old(kv))
    {
      DeleteRange(TASK_LO, TASK_HI);
      DeleteRange(QUEUE_LO, QUEUE_HI);
      ClearedInTwo(old(kv));
    }

    method Write(k: Bytes, v: Bytes)
      modifies this
      ensures kv == old(kv)[k := v]
    {
      kv := kv[k := v];
    }
  }

  /** What a sink with room for so many bytes holds after a stream. */
  function Cut(stream: Bytes, room: nat): Bytes { if |stream| <= room then stream else stream[..room] }

  /** write: the length goes through a buffer that must be 4 bytes long, and a full sink takes only the
      part that fits. */
  method WriteFrame(src: Bytes, sink: Bytes, room: nat, lb: array<Byte>) returns (ok: bool, sink': Bytes)
    requires |sink| <= room
    modifies lb
    ensures ok == (lb.Length == 4 && |sink + Frame(src)| <= room)
    ensures sink' == if lb.Length == 4 then Cut(sink + Frame(src), room) else sink
  {
    if lb.Length != 4 {
      return false, sink;
    }
    var length := |src|;
    lb[3] := length % 256;
    lb[2] := length / 256 % 256;
    lb[1] := length / 256 / 256 % 256;
    lb[0] := length / 256 / 256 / 256 % 256;
    FourBytes(length);
    assert lb[..] == [lb[0], lb[1], lb[2], lb[3]];
    assert sink + Frame(src) == sink + lb[..] + src;
    if |sink| + 4 > room {
      return false, sink + lb[..room - |sink|];
    }
    sink' := sink + lb[..];
    if |sink'| + |src| > room {
      return false, sink' + src[..room - |sink'|];
    }
    ok, sink' := true, sink' + src;
  }

  lemma FourBytes(n: nat)
    ensures ToBE(n, 4) == [n / 256 / 256 / 256 % 256, n / 256 / 256 % 256, n / 256 % 256, n % 256]
  {
    var a, b, c := n / 256, n / 256 / 256, n / 256 / 256 / 256;
    assert ToBE(c, 1) == ToBE(c / 256, 0) + [c % 256] == [c % 256];
    assert ToBE(b, 2) == ToBE(c, 1) + [b % 256];
    assert ToBE(a, 3) == ToBE(b, 2) + [a % 256];
  }

  lemma Regroup(a: Bytes, b: Bytes, c: Bytes, d: Bytes)
    ensures a + b + c + d == a + (b + c + d)
  {
  }

  /** Writes all records, or as much of their stream as the sink takes before it fails. */
  method Persist(records: seq<Record>, room: nat) returns (ok: bool, sink: Bytes)
    ensures ok == (|Encode(records)| <= room) && sink == Cut(Encode(records), room)
  {
    hide Frame;
    var lb := new Byte[4](_ => 0);
    sink := [];
    for n := 0 to |records|
      invariant sink + Encode(records[n..]) == Encode(records) && |sink| <= room
    {
      ghost var before := sink;
      assert records[n..] == [records[n]] + records[n + 1..];
      FirstRecord(records[n], records[n + 1..]);
      Regroup(before, Frame(records[n].key), Frame(records[n].value), Encode(records[n + 1..]));
      ok, sink := WriteFrame(records[n].key, sink, room, lb);
      if !ok {
        CutShort(before + Frame(records[n].key), Frame(records[n].value) + Encode(records[n + 1..]), room);
        return false, sink;
      }
      ok, sink := WriteFrame(records[n].value, sink, room, lb);
      if !ok {
        CutShort(before + Frame(records[n].key) + Frame(records[n].value), Encode(records[n + 1..]), room);
        return false, sink;
      }
    }
    ok := true;
  }

  lemma CutShort(a: Bytes, b: Bytes, room: nat)
    requires |a| > room
    ensures Cut(a + b, room) == Cut(a, room) && |a + b| > room
  {
  }

  method Restore(store: RawStore, snapshot: Bytes) returns (ok: bool)
    modifies store
    ensures Loaded(store.kv, ok) == Load(Cleared(old(store.kv)), snapshot)
  {
    store.DeleteAll();
    var src := snapshot;
    while true
      invariant Load(store.kv, src) == Load(Cleared(old(store.kv)), snapshot)
      decreases |src|
    {
      var key := ReadFrame(src);
      if key.End? {
        return true;
      }
      if key.Torn? {
        return false;
      }
      var value := ReadFrame(key.rest);
      if !value.Got? {
        return false;
      }
      store.Write(key.bytes, value.bytes);
      src := value.rest;
    }
  }

  // ---------- Clearing the store ----------

  const TASK_LO: Bytes := [0x74, 0x61, 0x73, 0x6B, 0x23, 0x20]          // "task# "
  const TASK_HI: Bytes := [0x74, 0x61, 0x73, 0x6B, 0x23, 0x7A]          // "task#z"
  const QUEUE_LO: Bytes := [0x71, 0x75, 0x65, 0x75, 0x65, 0x23, 0x20]   // "queue# "
  const QUEUE_HI: Bytes := [0x71, 0x75, 0x65, 0x75, 0x65, 0x23, 0x7A]   // "queue#z"

  predicate Clearable(k: Bytes) {
    (!Less(k, TASK_LO) && Less(k, TASK_HI)) || (!Less(k, QUEUE_LO) && Less(k, QUEUE_HI))
  }

  /** The store after DeleteAll. */
  function Cleared(kv: Raw): Raw { map k | k in kv && !Clearable(k) :: kv[k] }

  lemma ClearedInTwo(kv: Raw)
    ensures
      var once := kv - (set k | k in kv && !Less(k, TASK_LO) && Less(k, TASK_HI));
      once - (set k | k in once && !Less(k, QUEUE_LO) && Less(k, QUEUE_HI)) == Cleared(kv)
  {
    hide Less;
  }

  predicate WrittenFor(k: Bytes, queue: Bytes, id: TaskId) {
    k == FifoKey(queue, id) || k == SchedKey(queue, id) || k == ConfigKey(queue) || k == SeqKey(queue)
  }

  /** A key this program writes. */
  ghost predicate Written(k: Bytes) { exists queue: Bytes, id: TaskId :: WrittenFor(k, queue, id) }

  lemma BetweenLetters(p: Bytes, c: Byte, tail: Bytes)
    requires 0x20 < c < 0x7A
    ensures !Less(p + [c] + tail, p + [0x20]) && Less(p + [c] + tail, p + [0x7A])
  {
    assert p + [c] + tail == p + ([c] + tail);
    LessSamePrefix(p, [c] + tail, [0x20]);
    LessSamePrefix(p, [c] + tail, [0x7A]);
  }

  /** The two range deletions reach every key the program writes, for every queue name. */
  lemma WrittenKeysAreCleared(k: Bytes)
    requires Written(k)
    ensures Clearable(k)
  {
    hide Less;
    var queue: Bytes, id: TaskId :| WrittenFor(k, queue, id);
    var t, q: Bytes := [0x74, 0x61, 0x73, 0x6B, 0x23], [0x71, 0x75, 0x65, 0x75, 0x65, 0x23];
    assert t + [0x20] == TASK_LO && t + [0x7A] == TASK_HI && q + [0x20] == QUEUE_LO && q + [0x7A] == QUEUE_HI;
    if k == FifoKey(queue, id) || k == SchedKey(queue, id) {
      TaskHead(queue, id);
      BetweenLetters(t, k[5], k[6..]);
    } else {
      QueueHead(queue);
      BetweenLetters(q, k[6], k[7..]);
    }
  }

  lemma TaskHead(queue: Bytes, id: TaskId)
    ensures
      var t, f, s := [0x74, 0x61, 0x73, 0x6B, 0x23], FifoKey(queue, id), SchedKey(queue, id);
      && |f| > 6 && f == t + [f[5]] + f[6..] && 0x20 < f[5] < 0x7A
      && |s| > 6 && s == t + [s[5]] + s[6..] && 0x20 < s[5] < 0x7A
  {
  }

  lemma QueueHead(queue: Bytes)
    ensures
      var q, c, s := [0x71, 0x75, 0x65, 0x75, 0x65, 0x23], ConfigKey(queue), SeqKey(queue);
      && |c| > 7 && c == q + [c[6]] + c[7..] && 0x20 < c[6] < 0x7A
      && |s| > 7 && s == q + [s[6]] + s[7..] && 0x20 < s[6] < 0x7A
  {
  }

  // ---------- Round trip ----------

  predicate Fits(s: Bytes) { |s| < 0x1_0000_0000 }

  predicate AllFit(records: seq<Record>) {
    forall i :: 0 <= i < |records| ==> Fits(records[i].key) && Fits(records[i].value)
  }

  lemma FrameRoundTrip(s: Bytes, rest: Bytes)
    requires Fits(s)
    ensures ReadFrame(Frame(s) + rest) == Got(s, rest)
  {
    hide ToBE, FromBE;
    var all := Frame(s) + rest;
    Pow64();
    DecodeEncode(|s|, 4);
    assert all[..4] == ToBE(|s|, 4);
    assert all[4..] == s + rest;
  }

  lemma {:induction false} LoadEncode(kv: Raw, records: seq<Record>)
    requires AllFit(records)
    ensures Load(kv, Encode(records)) == Loaded(kv + Contents(records), true)
    decreases records
  {
    hide Fits, Load, Encoded;
    if records == [] {
      LoadNothing(kv);
    } else {
      var r := records[0];
      LoadRecord(kv, r, Encode(records[1..]));
      LoadEncode(kv[r.key := r.value], records[1..]);
      PutFirst(kv, r.key, r.value, Contents(records[1..]));
    }
  }

  lemma PutFirst<K, V>(m: map<K, V>, k: K, v: V, puts: map<K, V>)
    ensures m[k := v] + puts == m + (map[k := v] + puts)
  {
  }

  lemma LoadNothing(kv: Raw)
    ensures Load(kv, []) == Loaded(kv, true) && kv + map[] == kv
  {
  }

  lemma LoadRecord(kv: Raw, r: Record, rest: Bytes)
    requires Fits(r.key) && Fits(r.value)
    ensures Load(kv, Encoded(r) + rest) == Load(kv[r.key := r.value], rest)
  {
    hide Fits, ReadFrame, Frame;
    FrameRoundTrip(r.key, Frame(r.value) + rest);
    FrameRoundTrip(r.value, rest);
    assert Encoded(r) + rest == Frame(r.key) + (Frame(r.value) + rest);
  }

  lemma {:induction false} ContentsAt(records: seq<Record>, k: Bytes)
    ensures k in Contents(records) <==> exists i :: 0 <= i < |records| && records[i].key == k
    ensures k in Contents(records) ==>
              exists i :: 0 <= i < |records| && records[i].key == k && records[i].value == Contents(records)[k]
  {
    if records != [] {
      var rest := records[1..];
      ContentsAt(rest, k);
      if k in Contents(rest) {
        var i :| 0 <= i < |rest| && rest[i].key == k && rest[i].value == Contents(rest)[k];
        assert records[i + 1] == rest[i];
      } else if records[0].key == k {
        assert Contents(records)[k] == records[0].value;
      } else if i :| 0 <= i < |records| && records[i].key == k {
        assert rest[i - 1].key == k;
      }
    }
  }

  lemma ContentsOfRecords(kv: Raw)
    ensures Contents(Records(kv)) == kv
  {
    var records, keys := Records(kv), SortedKeys(kv.Keys);
    hide Contents, SortedKeys;
    forall k ensures k in Contents(records) <==> k in kv {
      ContentsAt(records, k);
      if k in kv {
        var i :| 0 <= i < |keys| && keys[i] == k;
        assert records[i].key == k;
      }
    }
    forall k | k in kv ensures Contents(records)[k] == kv[k] { ContentsAt(records, k); }
  }

  /** Restoring a persisted store removes what the target held under this program's keys and adds
      exactly the persisted entries; a target that held nothing else ends up equal to the source. */
  lemma RestoreOfPersist(source: Raw, target: Raw)
    requires forall k :: k in source ==> Fits(k) && Fits(source[k])
    ensures Load(Cleared(target), Encode(Records(source))) == Loaded(Cleared(target) + source, true)
    ensures (forall k :: k in target ==> Written(k)) ==>
              Load(Cleared(target), Encode(Records(source))) == Loaded(source, true)
  {
    hide Load, Encode, Contents, Clearable, Written, SortedKeys;
    LoadEncode(Cleared(target), Records(source));
    ContentsOfRecords(source);
    if forall k :: k in target ==> Written(k) {
      forall k | k in target ensures Clearable(k) { WrittenKeysAreCleared(k); }
      assert Cleared(target) == map[];
    }
  }

  // ---------- Truncated streams ----------

  /** How many whole records a cut after `cut` bytes leaves. */
  function Whole(records: seq<Record>, cut: nat): (n: nat)
    ensures n <= |records|
  {
    if records == [] || cut < |Encoded(records[0])| then 0
    else 1 + Whole(records[1..], cut - |Encoded(records[0])|)
  }

  lemma StrictPrefixOfFrame(s: Bytes, cut: nat)
    requires Fits(s) && cut < |Frame(s)|
    ensures ReadFrame(Frame(s)[..cut]) == if cut == 0 || cut == 4 then End else Torn
  {
    hide ToBE, FromBE;
    var p := Frame(s)[..cut];
    Pow64();
    DecodeEncode(|s|, 4);
    if cut >= 4 {
      assert p[..4] == ToBE(|s|, 4);
    }
  }

  lemma CutFirst(kv: Raw, r: Record, rest: Bytes, cut: nat)
    requires Fits(r.key) && Fits(r.value) && r.key != [] && cut < |Encoded(r)|
    ensures Load(kv, (Encoded(r) + rest)[..cut]) == Loaded(kv, cut == 0 || cut == 4)
  {
    hide Fits, ReadFrame;
    var p := (Encoded(r) + rest)[..cut];
    var k := Frame(r.key);
    if cut < |k| {
      assert p == k[..cut];
      StrictPrefixOfFrame(r.key, cut);
    } else {
      var v := Frame(r.value)[..cut - |k|];
      assert p == k + v;
      FrameRoundTrip(r.key, v);
      StrictPrefixOfFrame(r.value, cut - |k|);
    }
  }

  /** Restoring a stream cut after any number of bytes keeps exactly the whole records before the
      cut. It reports success only when the cut falls between records, or right after the 4-byte
      length of a key. */
  lemma {:induction false} RestoreOfTruncated(kv: Raw, records: seq<Record>, cut: nat)
    requires AllFit(records) && forall i :: 0 <= i < |records| ==> records[i].key != []
    requires cut <= |Encode(records)|
    ensures
      var whole := records[..Whole(records, cut)];
      var edge := |Encode(whole)|;
      Load(kv, Encode(records)[..cut]) == Loaded(kv + Contents(whole), cut == edge || cut == edge + 4)
    decreases records
  {
    hide Fits, Encoded, Load;
    if records == [] {
      LoadNothing(kv);
    } else {
      var r, tail := records[0], records[1..];
      if cut < |Encoded(r)| {
        CutFirst(kv, r, Encode(tail), cut);
        LoadNothing(kv);
      } else {
        var n := cut - |Encoded(r)|;
        RestoreOfTruncated(kv[r.key := r.value], tail, n);
        var whole := tail[..Whole(tail, n)];
        assert records[..Whole(records, cut)] == [r] + whole;
        FirstRecord(r, whole);
        assert Encode(records)[..cut] == Encoded(r) + Encode(tail)[..n];
        LoadRecord(kv, r, Encode(tail)[..n]);
        PutFirst(kv, r.key, r.value, Contents(whole));
      }
    }
  }

  lemma FirstRecord(r: Record, rest: seq<Record>)
    ensures Encode([r] + rest) == Encoded(r) + Encode(rest)
    ensures Contents([r] + rest) == map[r.key := r.value] + Contents(rest)
  {
    assert ([r] + rest)[1..] == rest;
  }
}
