/**
 * Items of deterministic CBOR byte by byte, as sections 3 and 4.2.1 of RFC 8949 lay them out, apart from both codecs.
 */
module WireBytes {
  import opened Octets
  import RelayCbor
  import AgentCbor
  import CodecAgreement

  /** An item's first bytes: the major type in the top three bits of `base`, then the shortest form of `n`. */
  function Lead(base: nat, n: nat): seq<byte>
    requires base <= 0xE0 && n < TWO_TO_64
  {
    if n < 24 then [base + n]
    else if n < 0x100 then [base + 24, n]
    else if n < 0x1_0000 then [base + 25, n / 0x100, n % 0x100]
    else if n < 0x1_0000_0000 then
      [base + 26, n / 0x100_0000, n / 0x1_0000 % 0x100, n / 0x100 % 0x100, n % 0x100]
    else
      [base + 27, n / 0x100_0000_0000_0000, n / 0x1_0000_0000_0000 % 0x100, n / 0x100_0000_0000 % 0x100,
       n / 0x1_0000_0000 % 0x100, n / 0x100_0000 % 0x100, n / 0x1_0000 % 0x100, n / 0x100 % 0x100, n % 0x100]
  }

  function Num(n: u64): seq<byte> { Lead(0x00, n) }

  function Str(b: Blob): seq<byte> { Lead(0x40, |b|) + b }

  function Chars(t: Text): seq<byte> { Lead(0x60, |t|) + t }

  /** Items one after the other. */
  function Chain(items: seq<seq<byte>>): seq<byte> {
    if |items| == 0 then [] else items[0] + Chain(items[1..])
  }

  function Strs(parts: seq<Blob>): seq<seq<byte>> {
    if |parts| == 0 then [] else [Str(parts[0])] + Strs(parts[1..])
  }

  function List(items: seq<seq<byte>>): seq<byte>
    requires |items| < TWO_TO_64
  {
    Lead(0x80, |items|) + Chain(items)
  }

  /** How many entries there are, an empty one being none. */
  function Present(entries: seq<seq<byte>>): (n: nat)
    ensures n <= |entries|
  {
    if |entries| == 0 then 0 else (if entries[0] == [] then 0 else 1) + Present(entries[1..])
  }

  /** A map of the entries that are there. */
  function MapOf(entries: seq<seq<byte>>): seq<byte>
    requires |entries| < TWO_TO_64
  {
    Lead(0xA0, Present(entries)) + Chain(entries)
  }

  /** An entry under a key below 24, if there is a value. */
  function OptStr(key: byte, b: Option<Blob>): seq<byte> { if b.Some? then [key] + Str(b.value) else [] }

  function OptChars(key: byte, t: Option<Text>): seq<byte> { if t.Some? then [key] + Chars(t.value) else [] }

  // ------------------------------------------------------- what both codecs write

  lemma TwoDigits(n: nat)
    requires n < 0x1_0000
    ensures BigEndian(n, 2) == [n / 0x100, n % 0x100]
  {
    assert BigEndian(n / 256, 1) == BigEndian(n / 256 / 256, 0) + [n / 256 % 256];
  }

  lemma FourDigits(n: nat)
    requires n < 0x1_0000_0000
    ensures BigEndian(n, 4) == [n / 0x100_0000, n / 0x1_0000 % 0x100, n / 0x100 % 0x100, n % 0x100]
  {
    var m := n / 0x1_0000;
    TwoDigits(m);
    assert BigEndian(n, 4) == BigEndian(n / 0x100, 3) + [n % 0x100];
    assert BigEndian(n / 0x100, 3) == BigEndian(n / 0x100 / 0x100, 2) + [n / 0x100 % 0x100];
    assert n / 0x100 / 0x100 == m && m / 0x100 == n / 0x100_0000;
  }

  lemma LowDigits(n: nat)
    ensures BigEndian(n, 8) == BigEndian(n / 0x1_0000_0000, 4)
                               + [n / 0x100_0000 % 0x100, n / 0x1_0000 % 0x100, n / 0x100 % 0x100, n % 0x100]
  {
    var a := n / 0x100;
    var b := a / 0x100;
    var c := b / 0x100;
    assert BigEndian(n, 8) == BigEndian(a, 7) + [n % 0x100];
    assert BigEndian(a, 7) == BigEndian(b, 6) + [a % 0x100];
    assert BigEndian(b, 6) == BigEndian(c, 5) + [b % 0x100];
    assert BigEndian(c, 5) == BigEndian(c / 0x100, 4) + [c % 0x100];
    hide BigEndian;
    assert b == n / 0x1_0000 && c == n / 0x100_0000 && c / 0x100 == n / 0x1_0000_0000;
  }

  lemma HighDigits(n: nat)
    ensures var m := n / 0x1_0000_0000;
            && m / 0x100_0000 == n / 0x100_0000_0000_0000 && m / 0x1_0000 == n / 0x1_0000_0000_0000
            && m / 0x100 == n / 0x100_0000_0000
  {
  }

  lemma EightDigits(n: nat)
    requires n < TWO_TO_64
    ensures BigEndian(n, 8)
            == [n / 0x100_0000_0000_0000, n / 0x1_0000_0000_0000 % 0x100, n / 0x100_0000_0000 % 0x100,
                n / 0x1_0000_0000 % 0x100, n / 0x100_0000 % 0x100, n / 0x1_0000 % 0x100, n / 0x100 % 0x100, n % 0x100]
  {
    hide BigEndian;
    FourDigits(n / 0x1_0000_0000);
    LowDigits(n);
    HighDigits(n);
  }

  lemma HeadBytes(major: nat, n: u64)
    requires major < 8
    ensures RelayCbor.Head(major, n) == Lead(major * 32, n) == AgentCbor.Head(major, n)
  {
    CodecAgreement.EncodersAgree(major, n, 0, [], [], []);
    hide BigEndian;
    if n < 0x100 {
    } else if n < 0x1_0000 {
      TwoDigits(n);
    } else if n < 0x1_0000_0000 {
      FourDigits(n);
    } else {
      EightDigits(n);
    }
  }

  /** What either codec writes for a number, a byte string or a text is these bytes. */
  lemma ItemBytes(n: u64, b: Blob, t: Text)
    ensures RelayCbor.Uint(n) == Num(n) == AgentCbor.Uint(n)
    ensures RelayCbor.Bytes(b) == Str(b) == AgentCbor.ByteString(b)
    ensures RelayCbor.TextString(t) == Chars(t) == AgentCbor.TextString(t)
    ensures RelayCbor.Boolean(false) == [0xF4] && RelayCbor.Boolean(true) == [0xF5] && RelayCbor.NULL == [0xF6]
  {
    hide RelayCbor.Head, AgentCbor.Head, Lead;
    HeadBytes(0, n);
    HeadBytes(2, |b|);
    HeadBytes(3, |t|);
  }

  lemma {:induction false} ChainBytes(items: seq<seq<byte>>)
    ensures RelayCbor.Concat(items) == Chain(items)
  {
    if |items| > 0 { ChainBytes(items[1..]); }
  }

  lemma ArrayBytes(items: seq<seq<byte>>)
    requires |items| < TWO_TO_64
    ensures RelayCbor.Array(items) == Lead(0x80, |items|) + Chain(items)
  {
    hide RelayCbor.Head, Lead;
    HeadBytes(4, |items|);
    ChainBytes(items);
  }
}
