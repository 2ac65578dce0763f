/** The deterministic CBOR subset of the agent payloads: encoders, and readers as functions of the bytes ahead. */
module AgentCbor {
  import opened Octets

  datatype CborError =
    | Truncated
    | Trailing(left: nat)
    | NonCanonicalInteger
    | UnsupportedMajor(major: nat)
    | ReservedAdditionalInfo(info: nat)
    | UnsupportedSimple(simple: u64)
    | TypeMismatch(expectedType: string)
    | WrongLength(expected: nat, got: nat)
    | WrongArrayCount(wanted: nat, found: nat)
    | InvalidUtf8
    | MapKeysNotAscending(previous: u64, next: u64)
    | UnknownKey(key: u64)
    | MissingKey(missing: u64)
    | TooDeep

  type Read<T> = Result<(T, seq<byte>), CborError>

  // ------------------------------------------------------------------ encoding

  /** One head in shortest form: the major type in the top three bits, the argument below or behind. */
  function Head(major: nat, value: nat): (s: seq<byte>)
    requires major < 8
    ensures |s| >= 1
  {
    if value < 24 then [major * 32 + value]
    else if value <= 0xFF then [major * 32 + 24, value]
    else if value <= 0xFFFF then [major * 32 + 25] + BigEndian(value, 2)
    else if value <= 0xFFFF_FFFF then [major * 32 + 26] + BigEndian(value, 4)
    else [major * 32 + 27] + BigEndian(value, 8)
  }

  function Uint(value: u64): seq<byte> { Head(0, value) }

  function ByteString(value: seq<byte>): seq<byte> { Head(2, |value|) + value }

  function TextString(value: seq<byte>): seq<byte> { Head(3, |value|) + value }

  function Concat(items: seq<seq<byte>>): seq<byte> {
    if |items| == 0 then [] else items[0] + Concat(items[1..])
  }

  /** An array of already-encoded items. */
  function Array(items: seq<seq<byte>>): seq<byte> { Head(4, |items|) + Concat(items) }

  type Slots = seq<(u64, seq<byte>)>

  predicate DistinctKeys(pairs: Slots) {
    forall i, j | 0 <= i < j < |pairs| :: pairs[i].0 != pairs[j].0
  }

  predicate Ascending(pairs: Slots) {
    forall i, j | 0 <= i < j < |pairs| :: pairs[i].0 < pairs[j].0
  }

  function Insert(pair: (u64, seq<byte>), pairs: Slots): (sorted: Slots)
    ensures |sorted| == |pairs| + 1
  {
    if |pairs| == 0 || pair.0 <= pairs[0].0 then [pair] + pairs
    else [pairs[0]] + Insert(pair, pairs[1..])
  }

  /** `sort_by_key` on the map key. */
  function SortByKey(pairs: Slots): (sorted: Slots)
    ensures |sorted| == |pairs|
  {
    if |pairs| == 0 then [] else Insert(pairs[0], SortByKey(pairs[1..]))
  }

  function Entries(pairs: Slots): seq<byte> {
    if |pairs| == 0 then [] else Uint(pairs[0].0) + (pairs[0].1 + Entries(pairs[1..]))
  }

  /** A map of already-encoded values. Two values under one key is a panic, so it is not a call. */
  function Map(pairs: Slots): seq<byte>
    requires DistinctKeys(pairs)
  {
    Head(5, |pairs|) + Entries(SortByKey(pairs))
  }

  // ------------------------------------------------------------------- readers

  function Width(info: nat): (w: nat)
    requires 24 <= info < 28
  {
    if info == 24 then 1 else if info == 25 then 2 else if info == 26 then 4 else 8
  }

  function Minimum(width: nat): nat {
    if width == 1 then 24 else if width == 2 then 0x100 else if width == 4 then 0x1_0000 else 0x1_0000_0000
  }

  /** One head with the shortest-form rule: its major type, its argument, and the bytes behind it. */
  function ReadHead(s: seq<byte>): (r: Result<(nat, u64, seq<byte>), CborError>)
    ensures r.Ok? ==> r.value.0 < 8 && |r.value.2| < |s| && IsSuffix(r.value.2, s)
  {
    if |s| == 0 then Err(Truncated) else
      var info := s[0] % 32;
      if info < 24 then Ok((s[0] / 32, info, s[1..]))
      else if info >= 28 then Err(ReservedAdditionalInfo(info))
      else if Width(info) >= |s| then Err(Truncated)
      else
        var w := Width(info);
        var value := FromBigEndian(s[1..1 + w]);
        if value < Minimum(w) then Err(NonCanonicalInteger)
        else
          PowersOf256();
          assert |s[1..1 + w]| == w;
          assert value < Pow256(w) <= TWO_TO_64;
          Ok((s[0] / 32, value, s[1 + w..]))
  }

  /** The argument of a head of one major type, never larger than the bytes that remain. */
  function ReadCounted(major: nat, name: string, s: seq<byte>): (r: Read<u64>)
    ensures r.Ok? ==> r.value.0 <= |r.value.1| < |s|
  {
    var (found, argument, rest) :- ReadHead(s);
    if found != major then Err(TypeMismatch(name))
    else if argument > |rest| then Err(Truncated)
    else Ok((argument, rest))
  }

  function ReadUint(s: seq<byte>): Read<u64> {
    var (major, value, rest) :- ReadHead(s);
    if major != 0 then Err(TypeMismatch("unsigned integer")) else Ok((value, rest))
  }

  function ReadBytes(s: seq<byte>): Read<Blob> {
    var (length, rest) :- ReadCounted(2, "byte string", s);
    Ok((rest[..length], rest[length..]))
  }

  function ReadBytesExact(expected: nat, s: seq<byte>): (r: Read<Blob>)
    ensures r.Ok? ==> |r.value.0| == expected
  {
    var (value, rest) :- ReadBytes(s);
    if |value| != expected then Err(WrongLength(expected, |value|)) else Ok((value, rest))
  }

  function ReadText(s: seq<byte>): Read<Text> {
    var (length, rest) :- ReadCounted(3, "text string", s);
    if !IsUtf8(rest[..length]) then Err(InvalidUtf8) else Ok((rest[..length], rest[length..]))
  }

  function ReadArrayCount(s: seq<byte>): (r: Read<u64>)
    ensures r.Ok? ==> r.value.0 <= |r.value.1| < |s|
  {
    ReadCounted(4, "array", s)
  }

  function ReadMapCount(s: seq<byte>): (r: Read<u64>)
    ensures r.Ok? ==> r.value.0 <= |r.value.1| < |s|
  {
    ReadCounted(5, "map", s)
  }

  const MAX_SKIP_DEPTH: nat := 32

  /** Where a structural walk ended, and how many heads it tried to read on the way. */
  datatype Walk = Walk(end: Result<seq<byte>, CborError>, heads: nat)

  /** Walk one whole item of any type the subset carries. */
  function Skip(s: seq<byte>, depth: nat): (w: Walk)
    ensures w.end.Ok? ==> |w.end.value| < |s|
    decreases |s|, 0
  {
    if depth > MAX_SKIP_DEPTH then Walk(Err(TooDeep), 0) else
      match ReadHead(s)
      case Err(e) => Walk(Err(e), 1)
      case Ok((major, argument, rest)) =>
        if major == 0 then Walk(Ok(rest), 1)
        else if major == 2 || major == 3 then
          Walk(if argument > |rest| then Err(Truncated) else Ok(rest[argument..]), 1)
        else if major == 4 then
          var w := SkipMany(rest, argument, depth + 1);
          w.(heads := w.heads + 1)
        else if major == 5 then
          var w := SkipMany(rest, 2 * argument, depth + 1);
          w.(heads := w.heads + 1)
        else if major == 7 then
          Walk(if argument != 22 then Err(UnsupportedSimple(argument)) else Ok(rest), 1)
        else Walk(Err(UnsupportedMajor(major)), 1)
  }

  function SkipMany(s: seq<byte>, count: nat, depth: nat): (w: Walk)
    ensures w.end.Ok? ==> |w.end.value| <= |s|
    decreases |s|, 1
  {
    if count == 0 then Walk(Ok(s), 0) else
      var first := Skip(s, depth);
      if first.end.Err? then first else
        var others := SkipMany(first.end.value, count - 1, depth);
        others.(heads := first.heads + others.heads)
  }

  /** One whole item, as its encoded bytes. */
  function ReadRaw(s: seq<byte>): (r: Read<seq<byte>>)
    ensures r.Ok? ==> s == r.value.0 + r.value.1 && |r.value.0| >= 1
  {
    var w := Skip(s, 0);
    if w.end.Err? then Err(w.end.error) else
      SkipEndsInside(s, 0);
      Ok((s[..|s| - |w.end.value|], w.end.value))
  }

  /** `count` map entries: strictly ascending keys, all of them in the schema. */
  function ReadEntries(s: seq<byte>, count: nat, schema: seq<u64>, previous: Option<u64>): Read<Slots>
    decreases count
  {
    if count == 0 then Ok(([], s)) else
      var (key, rest) :- ReadUint(s);
      if previous.Some? && key <= previous.value then Err(MapKeysNotAscending(previous.value, key))
      else if key !in schema then Err(UnknownKey(key))
      else
        var (raw, after) :- ReadRaw(rest);
        var (slots, end) :- ReadEntries(after, count - 1, schema, Some(key));
        Ok(([(key, raw)] + slots, end))
  }

  function ReadSchemaMap(s: seq<byte>, schema: seq<u64>): Read<Slots> {
    var (count, rest) :- ReadMapCount(s);
    ReadEntries(rest, count, schema, None)
  }

  function RequireEnd(s: seq<byte>): (r: Result<(), CborError>)
    ensures r.Ok? <==> s == []
  {
    if |s| == 0 then Ok(()) else Err(Trailing(|s|))
  }

  function OptionalSlot(slots: Slots, key: u64): (r: Option<seq<byte>>)
    ensures r.Some? ==> (key, r.value) in slots
    ensures r.None? ==> forall p | p in slots :: p.0 != key
  {
    if |slots| == 0 then None
    else if slots[0].0 == key then Some(slots[0].1)
    else OptionalSlot(slots[1..], key)
  }

  /** Read one whole item out of a slot and refuse anything behind it. */
  function InSlot<T>(slots: Slots, key: u64, read: seq<byte> -> Read<T>): Result<T, CborError> {
    var raw := OptionalSlot(slots, key);
    if raw.None? then Err(MissingKey(key)) else
      var (value, rest) :- read(raw.value);
      var _ :- RequireEnd(rest);
      Ok(value)
  }

  // ------------------------------------------------------- the walk stays inside

  /** What is left after a walk is a tail of what it walked. */
  lemma {:induction false} SkipEndsInside(s: seq<byte>, depth: nat)
    requires Skip(s, depth).end.Ok?
    ensures IsSuffix(Skip(s, depth).end.value, s)
    decreases |s|, 0
  {
    var (major, argument, rest) := ReadHead(s).value;
    var end := Skip(s, depth).end.value;
    if major == 4 { SkipManyEndsInside(rest, argument, depth + 1); }
    if major == 5 { SkipManyEndsInside(rest, 2 * argument, depth + 1); }
    assert IsSuffix(end, rest);
    SuffixOfSuffix(end, rest, s);
  }

  lemma {:induction false} SkipManyEndsInside(s: seq<byte>, count: nat, depth: nat)
    requires SkipMany(s, count, depth).end.Ok?
    ensures IsSuffix(SkipMany(s, count, depth).end.value, s)
    decreases |s|, 1
  {
    if count > 0 {
      SkipEndsInside(s, depth);
      var first := Skip(s, depth).end.value;
      SkipManyEndsInside(first, count - 1, depth);
      SuffixOfSuffix(SkipMany(s, count, depth).end.value, first, s);
    }
  }

  /** However large the announced counts, the walk tries at most one head per byte ahead, plus one. */
  lemma {:induction false} WalkIsBounded(s: seq<byte>, depth: nat)
    ensures Skip(s, depth).heads <= |s| + 1
    ensures var w := Skip(s, depth); w.end.Ok? ==> w.heads <= |s| - |w.end.value|
    decreases |s|, 0
  {
    if depth <= MAX_SKIP_DEPTH && ReadHead(s).Ok? {
      var (major, argument, rest) := ReadHead(s).value;
      if major == 4 { ManyIsBounded(rest, argument, depth + 1); }
      if major == 5 { ManyIsBounded(rest, 2 * argument, depth + 1); }
    }
  }

  lemma {:induction false} ManyIsBounded(s: seq<byte>, count: nat, depth: nat)
    ensures SkipMany(s, count, depth).heads <= |s| + 1
    ensures var w := SkipMany(s, count, depth); w.end.Ok? ==> w.heads <= |s| - |w.end.value|
    decreases |s|, 1
  {
    if count > 0 {
      WalkIsBounded(s, depth);
      var first := Skip(s, depth);
      if first.end.Ok? { ManyIsBounded(first.end.value, count - 1, depth); }
    }
  }
}
