/** The relay's own deterministic CBOR subset, written apart from the agents' and required to agree with it. */
module RelayCbor {
  import opened Octets

  datatype CborError =
    | Truncated
    | UnsupportedMajor(major: nat)
    | NonCanonicalInteger
    | ReservedAdditionalInfo(info: nat)
    | UnsupportedSimple(simple: u8)
    | TypeMismatch(expectedType: string)
    | WrongLength(expected: nat, got: nat)
    | WrongArrayCount(wanted: nat, found: nat)
    | OutOfRange(value: u64)
    | TrailingBytes(left: nat)
    | InvalidUtf8

  type Read<T> = Result<(T, seq<byte>), CborError>

  const MAJOR_UINT: nat := 0
  const MAJOR_BYTES: nat := 2
  const MAJOR_TEXT: nat := 3
  const MAJOR_ARRAY: nat := 4
  const MAJOR_SIMPLE: nat := 7

  const FALSE: seq<byte> := [0xf4]
  const TRUE: seq<byte> := [0xf5]
  const NULL: seq<byte> := [0xf6]

  // ------------------------------------------------------------------ encoding

  function Head(major: nat, value: nat): (s: seq<byte>)
    requires major < 8
    ensures |s| >= 1
  {
    var tag := major * 32;
    if value < 24 then [tag + value]
    else if value <= 0xFF then [tag + 24, value]
    else if value <= 0xFFFF then [tag + 25] + BigEndian(value, 2)
    else if value <= 0xFFFF_FFFF then [tag + 26] + BigEndian(value, 4)
    else [tag + 27] + BigEndian(value, 8)
  }

  function Uint(value: u64): seq<byte> { Head(MAJOR_UINT, value) }

  function Bytes(value: Blob): seq<byte> { Head(MAJOR_BYTES, |value|) + value }

  function Boolean(value: bool): seq<byte> { if value then TRUE else FALSE }

  function TextString(value: Text): seq<byte> { Head(MAJOR_TEXT, |value|) + value }

  function Concat(items: seq<seq<byte>>): seq<byte> {
    if |items| == 0 then [] else items[0] + Concat(items[1..])
  }

  function Array(items: seq<seq<byte>>): seq<byte> { Head(MAJOR_ARRAY, |items|) + Concat(items) }

  function OptionalBytes(value: Option<Blob>): seq<byte> {
    if value.Some? then Bytes(value.value) else NULL
  }

  // ------------------------------------------------------------------- reading

  /** `1 << n`. */
  function Shifted(n: nat): nat { if n == 0 then 1 else 2 * Shifted(n - 1) }

  /** The first `count` bytes, shifted in one at a time. */
  function Gather(s: seq<byte>, count: nat): Result<nat, CborError> {
    if count == 0 then Ok(0) else
      var value :- Gather(s, count - 1);
      if |s| < count then Err(Truncated) else Ok(value * 256 + s[count - 1])
  }

  function Minimum(width: nat): nat {
    if width == 1 then 24 else if width == 2 then 0x100 else if width == 4 then 0x1_0000 else 0x1_0000_0000
  }

  lemma {:induction false} GatherIsBigEndian(s: seq<byte>, count: nat)
    ensures Gather(s, count) == if |s| < count then Err(Truncated) else Ok(FromBigEndian(s[..count]))
  {
    if count > 0 {
      GatherIsBigEndian(s, count - 1);
      if |s| >= count { assert s[..count][..count - 1] == s[..count - 1]; }
    }
  }

  /** One head with the shortest-form rule. */
  function ReadHead(s: seq<byte>): (r: Result<(nat, u64, seq<byte>), CborError>)
    ensures r.Ok? ==> r.value.0 < 8 && |r.value.2| < |s| && IsSuffix(r.value.2, s)
    ensures r.Err? ==> !r.error.OutOfRange?
  {
    if |s| == 0 then Err(Truncated) else
      var major, info := s[0] / 32, s[0] % 32;
      if info < 24 then Ok((major, info, s[1..]))
      else if info >= 28 then Err(ReservedAdditionalInfo(info))
      else
        var width := Shifted(info - 24);
        GatherIsBigEndian(s[1..], width);
        PowersOf256();
        ShiftedWidths();
        var value :- Gather(s[1..], width);
        assert |s[1..][..width]| == width;
        if value < Minimum(width) then Err(NonCanonicalInteger) else Ok((major, value, s[1 + width..]))
  }

  lemma ShiftedWidths()
    ensures Shifted(0) == 1 && Shifted(1) == 2 && Shifted(2) == 4 && Shifted(3) == 8
  {
    assert Shifted(1) == 2 * Shifted(0);
    assert Shifted(2) == 2 * Shifted(1);
  }

  /** A major the subset never carries is named apart from one in the wrong place. Text counts as never carried. */
  function Mismatch(major: nat, expected: string): CborError {
    if major == MAJOR_UINT || major == MAJOR_BYTES || major == MAJOR_ARRAY || major == MAJOR_SIMPLE
    then TypeMismatch(expected) else UnsupportedMajor(major)
  }

  function ReadUint(s: seq<byte>): Read<u64> {
    var (major, argument, rest) :- ReadHead(s);
    if major != MAJOR_UINT then Err(Mismatch(major, "unsigned integer")) else Ok((argument, rest))
  }

  /** `u8`, `u16` and `u32`: an unsigned integer below a limit. */
  function ReadBelow(limit: nat, s: seq<byte>): (r: Read<u64>)
    ensures r.Ok? ==> r.value.0 < limit
  {
    var (value, rest) :- ReadUint(s);
    if value < limit then Ok((value, rest)) else Err(OutOfRange(value))
  }

  function ReadBytes(s: seq<byte>): Read<Blob> {
    var (major, argument, rest) :- ReadHead(s);
    if major != MAJOR_BYTES then Err(Mismatch(major, "byte string"))
    else if argument > |rest| then Err(Truncated)
    else Ok((rest[..argument], rest[argument..]))
  }

  function ReadBytesOf(count: nat, s: seq<byte>): (r: Read<Blob>)
    ensures r.Ok? ==> |r.value.0| == count
  {
    var (value, rest) :- ReadBytes(s);
    if |value| != count then Err(WrongLength(count, |value|)) else Ok((value, rest))
  }

  function Saturated(n: u64): u8 { if n < 0x100 then n else 0xFF }

  function ReadBoolean(s: seq<byte>): Read<bool> {
    var (major, argument, rest) :- ReadHead(s);
    if major != MAJOR_SIMPLE then Err(Mismatch(major, "boolean"))
    else if argument == 20 then Ok((false, rest))
    else if argument == 21 then Ok((true, rest))
    else Err(UnsupportedSimple(Saturated(argument)))
  }

  function ReadText(s: seq<byte>): Read<Text> {
    var (major, argument, rest) :- ReadHead(s);
    if major != MAJOR_TEXT then Err(Mismatch(major, "text string"))
    else if argument > |rest| then Err(Truncated)
    else if !IsUtf8(rest[..argument]) then Err(InvalidUtf8)
    else Ok((rest[..argument], rest[argument..]))
  }

  function ReadOptionalBytes(s: seq<byte>): Read<Option<Blob>> {
    if |s| == 0 then Err(Truncated)
    else if s[0] / 32 != MAJOR_SIMPLE then
      var (value, rest) :- ReadBytes(s);
      Ok((Some(value), rest))
    else
      var (_, argument, rest) :- ReadHead(s);
      if argument != 22 then Err(UnsupportedSimple(Saturated(argument))) else Ok((None, rest))
  }

  /** The majors the subset has an encoder for. */
  predicate Carried(major: nat) {
    major == MAJOR_UINT || major == MAJOR_BYTES || major == MAJOR_TEXT || major == MAJOR_ARRAY || major == MAJOR_SIMPLE
  }

  function ReadArrayHeader(s: seq<byte>): (r: Read<u64>)
    ensures r.Ok? ==> r.value.0 <= |r.value.1| < |s|
  {
    var (major, argument, rest) :- ReadHead(s);
    if major != MAJOR_ARRAY then Err(Mismatch(major, "array"))
    else if argument > |rest| then Err(Truncated)
    else Ok((argument, rest))
  }

  /** A head of exactly `count` items: the bytes behind it. */
  function ReadArray(count: nat, s: seq<byte>): Result<seq<byte>, CborError> {
    var (found, rest) :- ReadArrayHeader(s);
    if found != count then Err(WrongArrayCount(count, found)) else Ok(rest)
  }

  function Finish(s: seq<byte>): Result<(), CborError> {
    if |s| == 0 then Ok(()) else Err(TrailingBytes(|s|))
  }

  predicate Unsupported<T>(r: Read<T>) { r.Err? && r.error.UnsupportedMajor? }

  /** An item the subset carries is called unsupported by the read it does not suit exactly when it is text. */
  lemma OnlyTextIsCalledUnsupported(s: seq<byte>)
    requires ReadHead(s).Ok? && Carried(ReadHead(s).value.0)
    ensures var text := ReadHead(s).value.0 == MAJOR_TEXT;
            && (Unsupported(ReadUint(s)) <==> text) && (Unsupported(ReadBytes(s)) <==> text)
            && (Unsupported(ReadBoolean(s)) <==> text) && (Unsupported(ReadArrayHeader(s)) <==> text)
            && (Unsupported(ReadOptionalBytes(s)) <==> text) && !Unsupported(ReadText(s))
  {
    hide ReadHead, IsUtf8;
    HeadMajor(s);
  }

  lemma HeadMajor(s: seq<byte>)
    requires ReadHead(s).Ok?
    ensures |s| > 0 && ReadHead(s).value.0 == s[0] / 32
  {
  }
}

/** The two codecs are one codec where they overlap, and number order is byte order. */
module CodecAgreement {
  import opened Octets
  import AgentCbor
  import RelayCbor
  import opened ValueTree

  lemma HeadsAgree(s: seq<byte>)
    ensures var a, b := AgentCbor.ReadHead(s), RelayCbor.ReadHead(s);
            a.Ok? == b.Ok? && (a.Ok? ==> a.value == b.value)
  {
    PowersOf256();
    RelayCbor.ShiftedWidths();
    if |s| > 0 && 24 <= s[0] % 32 < 28 {
      var w := AgentCbor.Width(s[0] % 32);
      RelayCbor.GatherIsBigEndian(s[1..], w);
      if w < |s| {
        assert s[1..][..w] == s[1..1 + w];
      }
    }
  }

  /** What one codec writes, the other writes. */
  lemma EncodersAgree(major: nat, value: nat, n: u64, b: Blob, t: Text, items: seq<seq<byte>>)
    requires major < 8
    ensures AgentCbor.Head(major, value) == RelayCbor.Head(major, value)
    ensures AgentCbor.Uint(n) == RelayCbor.Uint(n)
    ensures AgentCbor.ByteString(b) == RelayCbor.Bytes(b)
    ensures AgentCbor.TextString(t) == RelayCbor.TextString(t)
    ensures AgentCbor.Array(items) == RelayCbor.Array(items)
  {
    ConcatsAgree(items);
  }

  lemma {:induction false} ConcatsAgree(items: seq<seq<byte>>)
    ensures AgentCbor.Concat(items) == RelayCbor.Concat(items)
  {
    if |items| > 0 { ConcatsAgree(items[1..]); }
  }

  /** What one codec accepts, the other accepts, with the same value and the same bytes left over. */
  lemma ReadersAgree(s: seq<byte>)
    ensures AgentCbor.ReadUint(s).Ok? == RelayCbor.ReadUint(s).Ok?
    ensures AgentCbor.ReadUint(s).Ok? ==> AgentCbor.ReadUint(s).value == RelayCbor.ReadUint(s).value
    ensures AgentCbor.ReadBytes(s).Ok? == RelayCbor.ReadBytes(s).Ok?
    ensures AgentCbor.ReadBytes(s).Ok? ==> AgentCbor.ReadBytes(s).value == RelayCbor.ReadBytes(s).value
    ensures AgentCbor.ReadText(s).Ok? == RelayCbor.ReadText(s).Ok?
    ensures AgentCbor.ReadText(s).Ok? ==> AgentCbor.ReadText(s).value == RelayCbor.ReadText(s).value
    ensures AgentCbor.ReadArrayCount(s).Ok? == RelayCbor.ReadArrayHeader(s).Ok?
    ensures AgentCbor.ReadArrayCount(s).Ok? ==> AgentCbor.ReadArrayCount(s).value == RelayCbor.ReadArrayHeader(s).value
  {
    hide AgentCbor.ReadHead, RelayCbor.ReadHead, IsUtf8;
    HeadsAgree(s);
  }

  /** Sorting map keys by number is sorting them by their encoded bytes, as section 4.2.1 of RFC 8949 asks. */
  lemma NumberOrderIsByteOrder(a: u64, b: u64)
    ensures a < b <==> Less(AgentCbor.Uint(a), AgentCbor.Uint(b))
  {
    if a < b { LowerIsLess(a, b); }
    if b < a {
      LowerIsLess(b, a);
      LessIsAsymmetric(AgentCbor.Uint(b), AgentCbor.Uint(a));
    }
    if a == b { LessIsIrreflexive(AgentCbor.Uint(a)); }
  }

  lemma LowerIsLess(a: u64, b: u64)
    requires a < b
    ensures Less(AgentCbor.Uint(a), AgentCbor.Uint(b))
  {
    var s, t := AgentCbor.Uint(a), AgentCbor.Uint(b);
    PowersOf256();
    if s[0] == t[0] {
      assert a >= 24;
      if a > 0xFF {
        var w := |s| - 1;
        assert s[1..] == BigEndian(a, w) && t[1..] == BigEndian(b, w);
        BigEndianOrder(a, b, w);
      }
      assert Less(s[1..], t[1..]);
    }
  }
}
