/** Byte strings, their lexicographic order and big-endian numbers.

    Keys in the database are compared byte by byte, while the program thinks of
    them as numbers (times and indexes). This module shows that the two agree.
 */
module ByteStrings {

  type Byte = b: int | 0 <= b < 256

  type Bytes = seq<Byte>

  const TWO64: nat := 0x1_0000_0000_0000_0000

  type U64 = n: int | 0 <= n < TWO64

  function Pow256(k: nat): (p: nat)
    ensures p >= 1
  {
    if k == 0 then 1 else 256 * Pow256(k - 1)
  }

  /** The `k` low-order bytes of `n`, most significant first (binary.BigEndian). */
  function ToBE(n: nat, k: nat): (s: Bytes)
    ensures |s| == k
  {
    if k == 0 then [] else ToBE(n / 256, k - 1) + [n % 256]
  }

  /** The number a big-endian byte string stands for. */
  function FromBE(s: Bytes): nat {
    if s == [] then 0 else FromBE(s[..|s| - 1]) * 256 + s[|s| - 1]
  }

  /** The shortest big-endian byte string for `n`; empty for 0 (big.Int.Bytes). */
  function MinBytes(n: nat): Bytes {
    if n == 0 then [] else MinBytes(n / 256) + [n % 256]
  }

  function StripZeros(s: Bytes): (r: Bytes)
    ensures |r| <= |s|
  {
    if s == [] || s[0] != 0 then s else StripZeros(s[1..])
  }

  /** bytes.Compare(a, b) < 0 */
  predicate Less(a: Bytes, b: Bytes) {
    b != [] && (a == [] || a[0] < b[0] || (a[0] == b[0] && Less(a[1..], b[1..])))
  }

  /** bytes.HasPrefix(s, p) */
  predicate HasPrefix(s: Bytes, p: Bytes) {
    |p| <= |s| && s[..|p|] == p
  }

  lemma {:induction false} BoundBE(s: Bytes)
    ensures FromBE(s) < Pow256(|s|)
  {
    if s != [] { BoundBE(s[..|s| - 1]); }
  }

  lemma {:induction false} DecodeEncode(n: nat, k: nat)
    requires n < Pow256(k)
    ensures FromBE(ToBE(n, k)) == n
  {
    if k > 0 {
      DecodeEncode(n / 256, k - 1);
      assert ToBE(n, k)[..k - 1] == ToBE(n / 256, k - 1);
    }
  }

  lemma {:induction false} EncodeDecode(s: Bytes)
    ensures ToBE(FromBE(s), |s|) == s
  {
    if s != [] {
      EncodeDecode(s[..|s| - 1]);
      assert s == s[..|s| - 1] + [s[|s| - 1]];
    }
  }

  lemma {:induction false} ConcatBE(a: Bytes, b: Bytes)
    ensures FromBE(a + b) == FromBE(a) * Pow256(|b|) + FromBE(b)
  {
    if b == [] {
      assert a + b == a;
    } else {
      var c := b[..|b| - 1];
      ConcatBE(a, c);
      assert (a + b)[..|a + b| - 1] == a + c;
      assert FromBE(a) * Pow256(|b|) == FromBE(a) * Pow256(|c|) * 256;
    }
  }

  /** The leading byte is non-zero exactly for the numbers that need all the bytes. */
  lemma {:induction false} LeadingByte(s: Bytes)
    requires s != []
    ensures s[0] != 0 <==> FromBE(s) >= Pow256(|s| - 1)
  {
    if |s| > 1 { LeadingByte(s[..|s| - 1]); }
  }

  lemma Pow64()
    ensures Pow256(4) == 0x1_0000_0000 && Pow256(7) == 0x100_0000_0000_0000 && Pow256(8) == TWO64
  {
    assert Pow256(2) == 0x1_0000;
    assert Pow256(4) == 0x1_0000_0000;
    assert Pow256(6) == 0x1_0000_0000_0000;
  }

  // ---------- The order ----------

  lemma {:induction false} LessIrreflexive(a: Bytes)
    ensures !Less(a, a)
  {
    if a != [] { LessIrreflexive(a[1..]); }
  }

  lemma {:induction false} LessTransitive(a: Bytes, b: Bytes, c: Bytes)
    requires Less(a, b) && Less(b, c)
    ensures Less(a, c)
  {
    if a != [] && a[0] == b[0] == c[0] { LessTransitive(a[1..], b[1..], c[1..]); }
  }

  lemma {:induction false} LessTotal(a: Bytes, b: Bytes)
    ensures Less(a, b) || a == b || Less(b, a)
  {
    if a != [] && b != [] && a[0] == b[0] {
      LessTotal(a[1..], b[1..]);
      assert a == [a[0]] + a[1..] && b == [b[0]] + b[1..];
    }
  }

  lemma {:induction false} LessSamePrefix(p: Bytes, a: Bytes, b: Bytes)
    ensures Less(p + a, p + b) <==> Less(a, b)
  {
    if p == [] {
      assert p + a == a && p + b == b;
    } else {
      LessSamePrefix(p[1..], a, b);
      assert (p + a)[1..] == p[1..] + a && (p + b)[1..] == p[1..] + b;
    }
  }

  lemma {:induction false} LessSnoc(a: Bytes, x: Byte, b: Bytes, y: Byte)
    requires |a| == |b|
    ensures Less(a + [x], b + [y]) <==> Less(a, b) || (a == b && x < y)
  {
    if a == [] {
    } else {
      LessSnoc(a[1..], x, b[1..], y);
      assert (a + [x])[1..] == a[1..] + [x] && (b + [y])[1..] == b[1..] + [y];
      assert a == [a[0]] + a[1..] && b == [b[0]] + b[1..];
    }
  }

  /** Byte order equals numeric order on strings of one length. */
  lemma {:induction false} LessIsNumeric(a: Bytes, b: Bytes)
    requires |a| == |b|
    ensures Less(a, b) <==> FromBE(a) < FromBE(b)
    ensures a == b <==> FromBE(a) == FromBE(b)
  {
    EncodeDecode(a);
    EncodeDecode(b);
    if a != [] {
      var c, d := a[..|a| - 1], b[..|b| - 1];
      LessIsNumeric(c, d);
      LessSnoc(c, a[|a| - 1], d, b[|b| - 1]);
      assert a == c + [a[|a| - 1]] && b == d + [b[|b| - 1]];
    }
  }

  // ---------- Leading zeros ----------

  lemma {:induction false} StripZerosSnoc(s: Bytes, x: Byte)
    ensures StripZeros(s + [x]) == if x == 0 && StripZeros(s) == [] then [] else StripZeros(s) + [x]
  {
    if s == [] {
      assert s + [x] == [x];
      assert StripZeros([0]) == StripZeros([0][1..]);
    } else if s[0] == 0 {
      StripZerosSnoc(s[1..], x);
      assert (s + [x])[1..] == s[1..] + [x];
    }
  }

  lemma {:induction false} MinBytesStrips(s: Bytes)
    ensures MinBytes(FromBE(s)) == StripZeros(s)
    ensures FromBE(s) == 0 <==> StripZeros(s) == []
  {
    hide StripZeros, MinBytes, FromBE;
    if s == [] {
      NoBytes();
    } else {
      var t, x := s[..|s| - 1], s[|s| - 1];
      MinBytesStrips(t);
      StripZerosSnoc(t, x);
      assert s == t + [x];
      LastByte(s);
      MinBytesSnoc(FromBE(t), x);
    }
  }

  lemma NoBytes()
    ensures FromBE([]) == 0 && MinBytes(0) == [] && StripZeros([]) == []
  {
  }

  lemma LastByte(s: Bytes)
    requires s != []
    ensures FromBE(s) == FromBE(s[..|s| - 1]) * 256 + s[|s| - 1]
  {
  }

  lemma MinBytesSnoc(n: nat, x: Byte)
    ensures MinBytes(n * 256 + x) == if n == 0 && x == 0 then [] else MinBytes(n) + [x]
  {
  }
}
