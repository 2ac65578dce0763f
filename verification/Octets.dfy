/** Bytes, machine integers, big-endian numbers, UTF-8 and byte order: what both CBOR codecs stand on. */
module Octets {

  const TWO_TO_64: nat := 0x1_0000_0000_0000_0000

  type byte = b: int | 0 <= b < 256
  type u8 = n: int | 0 <= n < 0x100
  type u16 = n: int | 0 <= n < 0x1_0000
  type u32 = n: int | 0 <= n < 0x1_0000_0000
  type u64 = n: int | 0 <= n < TWO_TO_64

  /** A byte vector: its length fits the 64-bit count a CBOR head can carry. */
  type Blob = s: seq<byte> | |s| < TWO_TO_64
  /** A string: a byte vector that is UTF-8. */
  type Text = s: Blob | IsUtf8(s)

  /** A vector: its length fits a CBOR head. */
  type Vec<T> = s: seq<T> | |s| < TWO_TO_64

  datatype Option<+T> = None | Some(value: T)

  datatype Result<+T, +E> = Ok(value: T) | Err(error: E) {
    predicate IsFailure() { Err? }
    function PropagateFailure<U>(): Result<U, E>
      requires Err?
    {
      Err(error)
    }
    function Extract(): T
      requires Ok?
    {
      value
    }
  }

  predicate IsSuffix(tail: seq<byte>, s: seq<byte>) {
    |tail| <= |s| && s[|s| - |tail|..] == tail
  }

  lemma SuffixOfSuffix(a: seq<byte>, b: seq<byte>, c: seq<byte>)
    requires IsSuffix(a, b) && IsSuffix(b, c)
    ensures IsSuffix(a, c)
  {
    assert c[|c| - |a|..] == c[|c| - |b|..][|b| - |a|..];
  }

  // ---------------------------------------------------------------- big endian

  function Pow256(n: nat): (p: nat)
    ensures p >= 1
  {
    if n == 0 then 1 else 256 * Pow256(n - 1)
  }

  /** The low `width` bytes of `value`, most significant first. */
  function BigEndian(value: nat, width: nat): (s: seq<byte>)
    ensures |s| == width
  {
    if width == 0 then [] else BigEndian(value / 256, width - 1) + [value % 256]
  }

  function FromBigEndian(s: seq<byte>): (n: nat)
    ensures n < Pow256(|s|)
  {
    if |s| == 0 then 0 else
      var high := FromBigEndian(s[..|s| - 1]);
      assert high <= Pow256(|s| - 1) - 1;
      high * 256 + s[|s| - 1]
  }

  lemma {:induction false} BigEndianReads(value: nat, width: nat)
    requires value < Pow256(width)
    ensures FromBigEndian(BigEndian(value, width)) == value
  {
    if width > 0 {
      BigEndianReads(value / 256, width - 1);
      var s := BigEndian(value, width);
      assert s[..|s| - 1] == BigEndian(value / 256, width - 1);
    }
  }

  lemma {:induction false} BigEndianWrites(s: seq<byte>)
    ensures BigEndian(FromBigEndian(s), |s|) == s
  {
    if |s| > 0 {
      var high, low := FromBigEndian(s[..|s| - 1]), s[|s| - 1];
      BigEndianWrites(s[..|s| - 1]);
      hide Pow256;
      assert FromBigEndian(s) == high * 256 + low;
      assert (high * 256 + low) / 256 == high && (high * 256 + low) % 256 == low;
      assert s == s[..|s| - 1] + [low];
    }
  }

  lemma PowersOf256()
    ensures Pow256(1) == 0x100
    ensures Pow256(2) == 0x1_0000
    ensures Pow256(4) == 0x1_0000_0000
    ensures Pow256(8) == TWO_TO_64
  {
    assert Pow256(3) == 256 * Pow256(2);
    assert Pow256(5) == 256 * Pow256(4);
    assert Pow256(7) == 256 * Pow256(6);
  }

  // ---------------------------------------------------------------- byte order

  /** Strictly smaller, byte by byte; a proper prefix is smaller. */
  predicate Less(a: seq<byte>, b: seq<byte>) {
    |b| > 0 && (|a| == 0 || a[0] < b[0] || (a[0] == b[0] && Less(a[1..], b[1..])))
  }

  lemma {:induction false} LessIsIrreflexive(a: seq<byte>)
    ensures !Less(a, a)
  {
    if |a| > 0 { LessIsIrreflexive(a[1..]); }
  }

  lemma {:induction false} LessIsAsymmetric(a: seq<byte>, b: seq<byte>)
    requires Less(a, b)
    ensures !Less(b, a)
  {
    if |a| > 0 && a[0] == b[0] { LessIsAsymmetric(a[1..], b[1..]); }
  }

  /** On equal-length prefixes the prefix decides, and on the same prefix the tail does. */
  lemma {:induction false} LessByPrefix(a: seq<byte>, b: seq<byte>, x: seq<byte>, y: seq<byte>)
    requires |a| == |b|
    ensures Less(a, b) ==> Less(a + x, b + y)
    ensures a == b ==> (Less(a + x, b + y) <==> Less(x, y))
  {
    if |a| == 0 {
      assert a + x == x && b + y == y;
    } else {
      LessByPrefix(a[1..], b[1..], x, y);
      assert (a + x)[1..] == a[1..] + x;
      assert (b + y)[1..] == b[1..] + y;
    }
  }

  lemma {:induction false} BigEndianOrder(a: nat, b: nat, width: nat)
    requires a < b < Pow256(width)
    ensures Less(BigEndian(a, width), BigEndian(b, width))
  {
    if a / 256 < b / 256 {
      BigEndianOrder(a / 256, b / 256, width - 1);
      LessByPrefix(BigEndian(a / 256, width - 1), BigEndian(b / 256, width - 1), [a % 256], [b % 256]);
    } else {
      assert a / 256 == b / 256;
      LessByPrefix(BigEndian(a / 256, width - 1), BigEndian(b / 256, width - 1), [a % 256], [b % 256]);
    }
  }

  // --------------------------------------------------------------------- UTF-8

  predicate IsTail(b: byte) { 0x80 <= b <= 0xBF }

  /** Well-formed UTF-8, as the table of well-formed byte sequences of the Unicode Standard lists it. */
  predicate IsUtf8(s: seq<byte>)
    decreases |s|
  {
    if |s| == 0 then true
    else if s[0] <= 0x7F then IsUtf8(s[1..])
    else if 0xC2 <= s[0] <= 0xDF then |s| >= 2 && IsTail(s[1]) && IsUtf8(s[2..])
    else if 0xE0 <= s[0] <= 0xEF then
      && |s| >= 3
      && (if s[0] == 0xE0 then 0xA0 else 0x80) <= s[1] <= (if s[0] == 0xED then 0x9F else 0xBF)
      && IsTail(s[2])
      && IsUtf8(s[3..])
    else if 0xF0 <= s[0] <= 0xF4 then
      && |s| >= 4
      && (if s[0] == 0xF0 then 0x90 else 0x80) <= s[1] <= (if s[0] == 0xF4 then 0x8F else 0xBF)
      && IsTail(s[2])
      && IsTail(s[3])
      && IsUtf8(s[4..])
    else false
  }

  /** The bytes of an ASCII name. */
  function Ascii(name: string): (t: Text)
    requires |name| < TWO_TO_64
    ensures |t| == |name| && forall i | 0 <= i < |name| :: t[i] == name[i] as int % 128
  {
    var s := seq(|name|, i requires 0 <= i < |name| => name[i] as int % 128);
    AsciiIsUtf8(s);
    s
  }

  lemma {:induction false} AsciiIsUtf8(s: seq<byte>)
    requires forall i | 0 <= i < |s| :: s[i] < 128
    ensures IsUtf8(s)
  {
    if |s| > 0 { AsciiIsUtf8(s[1..]); }
  }
}
