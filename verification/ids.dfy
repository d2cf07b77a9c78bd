/** Task identifiers (iden/id.go, iden/parse.go).

    An id is 16 bytes: a big-endian time, then a big-endian index. Instants are
    nanoseconds from the Unix epoch, unbounded; only their low 64 bits reach an id.
 */
module Ids {
  import opened ByteStrings

  datatype Option<+T> = None | Some(value: T)

  type TaskId = id: Bytes | |id| == 16 witness ToBE(0, 16)

  const TWO63: nat := 0x8000_0000_0000_0000

  const MAX_INDEX: U64 := 0xFFFF_FFFF_FFFF_FFFF

  /** The instant of Go's zero time.Time, January 1 of year 1. */
  const ZERO_TIME: int := -62_135_596_800 * 1_000_000_000

  /** uint64(t.UnixNano()), which wraps around. */
  function UnixBits(t: int): U64 { t % TWO64 }

  /** int64(bits) */
  function Signed(bits: U64): int { if bits < TWO63 then bits else bits - TWO64 }

  /** iden.New */
  function New(t: int, index: U64): (id: TaskId) { ToBE(UnixBits(t), 8) + ToBE(index, 8) }

  const MIN: TaskId := New(0, 0)

  const MAX: TaskId := New(0x7FFF_FFFF_FFFF_FFFF * 1_000_000_000, MAX_INDEX)

  /** The time half of an id. */
  function TimeBits(id: TaskId): (bits: U64) {
    BoundBE(id[..8]);
    Pow64();
    FromBE(id[..8])
  }

  /** TaskID.Index */
  function Index(id: TaskId): (index: U64) {
    BoundBE(id[8..]);
    Pow64();
    FromBE(id[8..])
  }

  /** TaskID.MustTime */
  function MustTime(id: TaskId): (t: int) { Signed(TimeBits(id)) }

  /** TaskID.Time: None stands for ErrNoTime. */
  function Time(id: TaskId): (t: Option<int>) {
    if MustTime(id) == Signed(UnixBits(ZERO_TIME)) then None else Some(MustTime(id))
  }

  /** The whole id as one number; ids compare like these numbers. */
  function Number(id: TaskId): nat { FromBE(id) }

  // ---------- Base-62 text ----------

  function Digit(d: nat): (c: char)
    requires d < 62
  {
    if d < 10 then '0' + d as char
    else if d < 36 then 'a' + (d - 10) as char
    else 'A' + (d - 36) as char
  }

  function DigitValue(c: char): (d: Option<nat>)
    ensures d.Some? ==> d.value < 62
  {
    if '0' <= c <= '9' then Some((c - '0') as nat)
    else if 'a' <= c <= 'z' then Some((c - 'a') as nat + 10)
    else if 'A' <= c <= 'Z' then Some((c - 'A') as nat + 36)
    else None
  }

  /** big.Int.Text(62) */
  function Text(n: nat): (s: string)
    ensures s != ""
  {
    if n < 62 then [Digit(n)] else Text(n / 62) + [Digit(n % 62)]
  }

  /** The digits part of big.Int.SetString(s, 62). */
  function Digits(s: string): (n: Option<nat>) {
    if s == "" then Some(0)
    else
      var high := Digits(s[..|s| - 1]);
      var low := DigitValue(s[|s| - 1]);
      if high.Some? && low.Some? then Some(high.value * 62 + low.value) else None
  }

  /** big.Int.SetString(s, 62) followed by Abs: an optional sign and at least one digit. */
  function Magnitude(s: string): (n: Option<nat>) {
    var body := if s != "" && (s[0] == '+' || s[0] == '-') then s[1..] else s;
    if body == "" then None else Digits(body)
  }

  /** copy(id[:], b): the bytes land on the left of the id. */
  function AlignLeft(b: Bytes): (id: TaskId) {
    if |b| >= 16 then b[..16] else b + ToBE(0, 16 - |b|)
  }

  /** TaskID.String */
  function Show(id: TaskId): (s: string) { Text(Number(id)) }

  /** ParseString: None is the "invalid task id" error. */
  function Parse(s: string): (id: Option<TaskId>) {
    var n := Magnitude(s);
    if n.None? then None else Some(AlignLeft(MinBytes(n.value)))
  }

  // ---------- Properties ----------

  lemma {:induction false} TextRoundTrip(n: nat)
    ensures Digits(Text(n)) == Some(n)
    ensures Text(n)[0] != '+' && Text(n)[0] != '-'
  {
    if n < 62 {
      assert Text(n) == [Digit(n)] && Digits("") == Some(0);
      assert Text(n)[..0] == "";
    } else {
      TextRoundTrip(n / 62);
      assert Text(n)[..|Text(n)| - 1] == Text(n / 62);
    }
  }

  /** Printing an id and parsing it back shifts it left by its leading zero bytes. */
  lemma ParseShow(id: TaskId)
    ensures Parse(Show(id)) == Some(AlignLeft(StripZeros(id)))
  {
    TextRoundTrip(Number(id));
    MinBytesStrips(id);
  }

  /** The round trip is exact precisely for ids that start with a non-zero byte, and for zero. */
  lemma ParseShowExact(id: TaskId)
    ensures Parse(Show(id)) == Some(id) <==> id[0] != 0 || Number(id) == 0
  {
    ParseShow(id);
    MinBytesStrips(id);
    assert id[..16] == id;
    if id[0] == 0 {
      var s := StripZeros(id);
      StripZerosFirst(id);
      if Number(id) == 0 {
        EncodeDecode(id);
        assert AlignLeft([]) == ToBE(0, 16) == id;
      } else {
        assert AlignLeft(s)[0] == s[0];
      }
    }
  }

  lemma {:induction false} StripZerosFirst(s: Bytes)
    ensures StripZeros(s) != [] ==> StripZeros(s)[0] != 0
    ensures s != [] && s[0] == 0 ==> |StripZeros(s)| < |s|
  {
    if s != [] && s[0] == 0 { StripZerosFirst(s[1..]); }
  }

  lemma SignedBits(bits: U64)
    ensures UnixBits(Signed(bits)) == bits
  {
  }

  /** The parts of a new id, and its place in the order. */
  lemma NewParts(t: int, index: U64)
    ensures TimeBits(New(t, index)) == UnixBits(t)
    ensures Index(New(t, index)) == index
    ensures Number(New(t, index)) == UnixBits(t) * TWO64 + index
  {
    Pow64();
    DecodeEncode(UnixBits(t), 8);
    DecodeEncode(index, 8);
    var id := New(t, index);
    assert id[..8] == ToBE(UnixBits(t), 8) && id[8..] == ToBE(index, 8);
    ConcatBE(id[..8], id[8..]);
  }

  /** An id is determined by its parts. */
  lemma NumberParts(id: TaskId)
    ensures Number(id) == TimeBits(id) * TWO64 + Index(id)
    ensures id == New(MustTime(id), Index(id))
  {
    Pow64();
    assert id == id[..8] + id[8..];
    ConcatBE(id[..8], id[8..]);
    SignedBits(TimeBits(id));
    EncodeDecode(id[..8]);
    EncodeDecode(id[8..]);
  }

  lemma FirstByte(t: int, index: U64)
    ensures New(t, index)[0] != 0 <==> UnixBits(t) >= 0x100_0000_0000_0000
  {
    Pow64();
    DecodeEncode(UnixBits(t), 8);
    LeadingByte(ToBE(UnixBits(t), 8));
  }

  /** Times whose ids survive the text form: unscheduled, or from 1972 to 2262. */
  predicate Schedulable(t: int) { 0x100_0000_0000_0000 <= t < TWO63 }

  lemma LargeIdsRoundTrip(t: int, index: U64)
    requires UnixBits(t) >= 0x100_0000_0000_0000 || UnixBits(t) == index == 0
    ensures Parse(Show(New(t, index))) == Some(New(t, index))
  {
    FirstByte(t, index);
    NewParts(t, index);
    ParseShowExact(New(t, index));
  }

  /** Every FIFO id and every id with a schedulable time survives the text form. */
  lemma UsualIdsRoundTrip(t: int, index: U64)
    requires t == ZERO_TIME || Schedulable(t)
    ensures Parse(Show(New(t, index))) == Some(New(t, index))
  {
    LargeIdsRoundTrip(t, index);
  }

  /** The default FIFO checkpoint survives the text form and has the largest index. Its time
      wraps around to one second before the epoch. */
  lemma DefaultFifoCheckpoint()
    ensures Parse(Show(MAX)) == Some(MAX) && Index(MAX) == MAX_INDEX
    ensures TimeBits(MAX) == TWO64 - 1_000_000_000
  {
    hide Parse, Show, Index, TimeBits, New, Number, UnixBits;
    var t :| t == 0x7FFF_FFFF_FFFF_FFFF * 1_000_000_000;
    MaxBits(t);
    NewParts(t, MAX_INDEX);
    LargeIdsRoundTrip(t, MAX_INDEX);
  }

  lemma MaxBits(t: int)
    requires t == 0x7FFF_FFFF_FFFF_FFFF * 1_000_000_000
    ensures UnixBits(t) == TWO64 - 1_000_000_000
  {
    assert t == TWO64 * 499_999_999 + (TWO64 - 1_000_000_000);
  }

  /** The default scheduled checkpoint survives the text form and is the least id. */
  lemma DefaultSchedCheckpoint()
    ensures Parse(Show(MIN)) == Some(MIN) && Number(MIN) == 0
  {
    hide Parse, Show, Number, ToBE;
    var t :| t == 0;
    NewParts(t, 0);
    LargeIdsRoundTrip(t, 0);
  }
}
