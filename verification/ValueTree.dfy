/** What the agent codec accepts, stated without its reader: value trees, and their one encoding. */
module ValueTree {
  import opened Octets
  import opened AgentCbor

  /**
   * One item. `Dict` lists key, value, key, value; `Txt` is not required to be UTF-8, because the walk does not ask.
   */
  datatype Value =
    | UInt(n: u64)
    | Str(bytes: Blob)
    | Txt(text: Blob)
    | Arr(items: seq<Value>)
    | Dict(entries: seq<Value>)
    | Null

  function Encode(v: Value): (s: seq<byte>)
    ensures |s| >= 1
    decreases v, 0
  {
    match v
    case UInt(n) => Uint(n)
    case Str(b) => ByteString(b)
    case Txt(t) => TextString(t)
    case Arr(items) => Head(4, |items|) + EncodeAll(items)
    case Dict(entries) => Head(5, |entries| / 2) + EncodeAll(entries)
    case Null => [0xF6]
  }

  function EncodeAll(items: seq<Value>): (s: seq<byte>)
    ensures |s| >= |items|
    decreases items, 1
  {
    if |items| == 0 then [] else Encode(items[0]) + EncodeAll(items[1..])
  }

  /** Counts fit a head, a map has a value per key, and no item sits deeper than the codec walks. */
  predicate Admissible(v: Value, depth: nat)
    decreases v, 0
  {
    && depth <= MAX_SKIP_DEPTH
    && match v
       case Arr(items) => |items| < TWO_TO_64 && AllAdmissible(items, depth + 1)
       case Dict(entries) => |entries| % 2 == 0 && |entries| / 2 < TWO_TO_64 && AllAdmissible(entries, depth + 1)
       case _ => true
  }

  predicate AllAdmissible(items: seq<Value>, depth: nat)
    decreases items, 1
  {
    |items| == 0 || (Admissible(items[0], depth) && AllAdmissible(items[1..], depth))
  }

  lemma Regroup(a: seq<byte>, b: seq<byte>, c: seq<byte>)
    ensures a + (b + c) == a + b + c
  {
  }

  // -------------------------------------------------------------------- heads

  lemma WideHeadReads(major: nat, info: nat, value: u64, rest: seq<byte>)
    requires major < 8 && 24 <= info < 28 && Minimum(Width(info)) <= value < Pow256(Width(info))
    ensures ReadHead([major * 32 + info] + BigEndian(value, Width(info)) + rest) == Ok((major, value, rest))
  {
    var w := Width(info);
    var s := [major * 32 + info] + BigEndian(value, w) + rest;
    BigEndianReads(value, w);
    hide FromBigEndian, BigEndian, Pow256;
    assert s[0] / 32 == major && s[0] % 32 == info;
    assert s[1..1 + w] == BigEndian(value, w) && s[1 + w..] == rest;
  }

  function Info(value: nat): nat {
    if value <= 0xFF then 24 else if value <= 0xFFFF then 25 else if value <= 0xFFFF_FFFF then 26 else 27
  }

  lemma WideHeadForm(major: nat, value: u64)
    requires major < 8 && value >= 24
    ensures Head(major, value) == [major * 32 + Info(value)] + BigEndian(value, Width(Info(value)))
    ensures Minimum(Width(Info(value))) <= value < Pow256(Width(Info(value)))
  {
    PowersOf256();
    hide Pow256;
    if value <= 0xFF { assert BigEndian(value, 1) == [value % 256] && value % 256 == value; }
  }

  lemma HeadReads(major: nat, value: u64, rest: seq<byte>)
    requires major < 8
    ensures ReadHead(Head(major, value) + rest) == Ok((major, value, rest))
  {
    hide FromBigEndian, BigEndian, Pow256;
    if value < 24 {
      var s := Head(major, value) + rest;
      assert s[0] / 32 == major && s[0] % 32 == value;
      assert s[1..] == rest;
    } else {
      hide ReadHead, Head;
      WideHeadForm(major, value);
      WideHeadReads(major, Info(value), value, rest);
    }
  }

  lemma HeadWasWritten(s: seq<byte>)
    ensures var r := ReadHead(s); r.Ok? ==> s == Head(r.value.0, r.value.1) + r.value.2
  {
    PowersOf256();
    if ReadHead(s).Ok? {
      var (major, value, rest) := ReadHead(s).value;
      var info := s[0] % 32;
      if info < 24 {
        assert s == [s[0]] + s[1..];
      } else {
        var w := Width(info);
        var body := s[1..1 + w];
        assert |body| == w;
        BigEndianWrites(body);
        assert s == [s[0]] + body + rest;
        if w == 1 { assert body == [body[0]]; assert FromBigEndian([]) == 0; assert FromBigEndian(body) == body[0]; }
        assert s == Head(major, value) + rest;
      }
    }
  }

  /** The head reader is exactly the inverse of the head writer. */
  lemma HeadExact(s: seq<byte>, major: nat, value: u64, rest: seq<byte>)
    requires major < 8
    ensures ReadHead(s) == Ok((major, value, rest)) <==> s == Head(major, value) + rest
  {
    HeadReads(major, value, rest);
    HeadWasWritten(s);
  }

  // --------------------------------------------------------------------- items

  /** Completeness: an admissible tree is walked, and nothing behind it is. */
  lemma {:induction false} SkipAccepts(v: Value, depth: nat, rest: seq<byte>)
    requires Admissible(v, depth)
    ensures Skip(Encode(v) + rest, depth).end == Ok(rest)
    decreases v, 0
  {
    AdmissibleIsSized(v, depth);
    HeadOf(v, rest);
    match v
    case UInt(_) =>
    case Str(b) => assert (b + rest)[|b|..] == rest;
    case Txt(t) => assert (t + rest)[|t|..] == rest;
    case Arr(items) => SkipManyAccepts(items, depth + 1, rest);
    case Dict(entries) => SkipManyAccepts(entries, depth + 1, rest);
    case Null =>
  }

  lemma {:induction false} AdmissibleIsSized(v: Value, depth: nat)
    requires Admissible(v, depth)
    ensures Sized(v)
    decreases v, 0
  {
    match v
    case Arr(items) => AllAdmissibleIsSized(items, depth + 1);
    case Dict(entries) => AllAdmissibleIsSized(entries, depth + 1);
    case _ =>
  }

  lemma {:induction false} AllAdmissibleIsSized(items: seq<Value>, depth: nat)
    requires AllAdmissible(items, depth)
    ensures AllSized(items)
    decreases items, 1
  {
    if |items| > 0 {
      AdmissibleIsSized(items[0], depth);
      AllAdmissibleIsSized(items[1..], depth);
    }
  }

  lemma {:induction false} SkipManyAccepts(items: seq<Value>, depth: nat, rest: seq<byte>)
    requires AllAdmissible(items, depth)
    ensures SkipMany(EncodeAll(items) + rest, |items|, depth).end == Ok(rest)
    decreases items, 1
  {
    if |items| == 0 {
      assert EncodeAll(items) + rest == rest;
    } else {
      var tail := EncodeAll(items[1..]) + rest;
      Regroup(Encode(items[0]), EncodeAll(items[1..]), rest);
      SkipAccepts(items[0], depth, tail);
      SkipManyAccepts(items[1..], depth, rest);
    }
  }

  /** Soundness: whatever the walk accepts is the encoding of an admissible tree. */
  lemma {:induction false} SkipFindsTree(s: seq<byte>, depth: nat) returns (v: Value)
    requires Skip(s, depth).end.Ok?
    ensures Admissible(v, depth) && Sized(v)
    ensures s == Encode(v) + Skip(s, depth).end.value
    decreases |s|, 0
  {
    var major := ReadHead(s).value.0;
    if major == 4 || major == 5 {
      v := ContainerFound(s, depth);
    } else {
      v := LeafFound(s, depth);
    }
    OpenedBy(v, s, Skip(s, depth).end.value);
  }

  lemma {:induction false} ContainerFound(s: seq<byte>, depth: nat) returns (v: Value)
    requires Skip(s, depth).end.Ok? && 4 <= ReadHead(s).value.0 <= 5
    ensures Admissible(v, depth) && Sized(v)
    ensures Opening(v, Skip(s, depth).end.value) == ReadHead(s).value
    decreases |s|, 0, 0
  {
    hide ReadHead;
    var (major, argument, rest) := ReadHead(s).value;
    var items := SkipManyFindsTrees(rest, if major == 4 then argument else 2 * argument, depth + 1);
    v := if major == 4 then Arr(items) else Dict(items);
  }

  lemma LeafFound(s: seq<byte>, depth: nat) returns (v: Value)
    requires Skip(s, depth).end.Ok? && ReadHead(s).value.0 != 4 && ReadHead(s).value.0 != 5
    ensures Admissible(v, depth) && Sized(v)
    ensures Opening(v, Skip(s, depth).end.value) == ReadHead(s).value
  {
    var (major, argument, rest) := ReadHead(s).value;
    if major == 0 {
      v := UInt(argument);
    } else if major == 7 {
      v := Null;
    } else {
      var b := rest[..argument];
      assert rest == b + rest[argument..];
      v := if major == 2 then Str(b) else Txt(b);
    }
  }

  lemma OpenedBy(v: Value, s: seq<byte>, end: seq<byte>)
    requires Sized(v) && ReadHead(s) == Ok(Opening(v, end))
    ensures s == Encode(v) + end
  {
    HeadWasWritten(s);
    OpeningIsPrefix(v, end);
  }

  lemma {:induction false} SkipManyFindsTrees(s: seq<byte>, count: nat, depth: nat) returns (items: seq<Value>)
    requires SkipMany(s, count, depth).end.Ok?
    ensures |items| == count && AllAdmissible(items, depth) && AllSized(items)
    ensures s == EncodeAll(items) + SkipMany(s, count, depth).end.value
    decreases |s|, 1
  {
    if count == 0 {
      items := [];
    } else {
      var v := SkipFindsTree(s, depth);
      var others := SkipManyFindsTrees(Skip(s, depth).end.value, count - 1, depth);
      items := [v] + others;
      assert items[1..] == others;
      Regroup(Encode(v), EncodeAll(others), SkipMany(s, count, depth).end.value);
    }
  }

  ghost predicate IsItem(raw: seq<byte>) {
    exists v :: Admissible(v, 0) && raw == Encode(v)
  }

  /** `raw_value` accepts exactly the encodings of admissible trees and consumes exactly that encoding. */
  lemma RawValueExact(s: seq<byte>, raw: seq<byte>, rest: seq<byte>)
    ensures ReadRaw(s) == Ok((raw, rest)) <==> IsItem(raw) && s == raw + rest
  {
    if ReadRaw(s) == Ok((raw, rest)) {
      var v := SkipFindsTree(s, 0);
      assert raw == Encode(v) by {
        assert s == raw + rest == Encode(v) + rest;
        assert raw == s[..|s| - |rest|] == Encode(v);
      }
    }
    if IsItem(raw) && s == raw + rest {
      var v :| Admissible(v, 0) && raw == Encode(v);
      SkipAccepts(v, 0, rest);
      assert s[..|s| - |rest|] == raw;
    }
  }

  /** Two well-formed trees of any depth never share an encoding, not even up to what follows. */
  lemma {:induction false} EncodeIsPrefixFree(v: Value, w: Value, x: seq<byte>, y: seq<byte>)
    requires Sized(v) && Sized(w)
    requires Encode(v) + x == Encode(w) + y
    ensures v == w && x == y
    decreases v, 0
  {
    HeadOf(v, x);
    HeadOf(w, y);
    var (_, n, a) := Opening(v, x);
    match v
    case UInt(_) =>
    case Str(bytes) => assert bytes == a[..n] == w.bytes;
    case Txt(text) => assert text == a[..n] == w.text;
    case Arr(items) => EncodeAllIsPrefixFree(items, w.items, x, y);
    case Dict(entries) => EncodeAllIsPrefixFree(entries, w.entries, x, y);
    case Null =>
  }

  lemma {:induction false} EncodeAllIsPrefixFree(vs: seq<Value>, ws: seq<Value>, x: seq<byte>, y: seq<byte>)
    requires AllSized(vs) && AllSized(ws) && |vs| == |ws|
    requires EncodeAll(vs) + x == EncodeAll(ws) + y
    ensures vs == ws && x == y
    decreases vs, 1
  {
    if |vs| == 0 {
      assert EncodeAll(vs) + x == x && EncodeAll(ws) + y == y;
    } else {
      var p, q := EncodeAll(vs[1..]) + x, EncodeAll(ws[1..]) + y;
      assert EncodeAll(vs) + x == Encode(vs[0]) + p;
      assert EncodeAll(ws) + y == Encode(ws[0]) + q;
      EncodeIsPrefixFree(vs[0], ws[0], p, q);
      EncodeAllIsPrefixFree(vs[1..], ws[1..], x, y);
      assert vs == [vs[0]] + vs[1..] && ws == [ws[0]] + ws[1..];
    }
  }

  /** Counts fit a head and a map has a value per key; depth is not bounded. */
  predicate Sized(v: Value)
    decreases v, 0
  {
    match v
    case Arr(items) => |items| < TWO_TO_64 && AllSized(items)
    case Dict(entries) => |entries| % 2 == 0 && |entries| / 2 < TWO_TO_64 && AllSized(entries)
    case _ => true
  }

  predicate AllSized(items: seq<Value>)
    decreases items, 1
  {
    |items| == 0 || (Sized(items[0]) && AllSized(items[1..]))
  }

  /** The head a tree's encoding starts with, and the bytes behind that head. */
  function Opening(v: Value, rest: seq<byte>): (nat, u64, seq<byte>)
    requires Sized(v)
  {
    match v
    case UInt(n) => (0, n, rest)
    case Str(b) => (2, |b|, b + rest)
    case Txt(t) => (3, |t|, t + rest)
    case Arr(items) => (4, |items|, EncodeAll(items) + rest)
    case Dict(entries) => (5, |entries| / 2, EncodeAll(entries) + rest)
    case Null => (7, 22, rest)
  }

  lemma OpeningIsPrefix(v: Value, rest: seq<byte>)
    requires Sized(v)
    ensures var (major, n, behind) := Opening(v, rest);
            Encode(v) + rest == Head(major, n) + behind
  {
    match v
    case UInt(_) =>
    case Str(b) => Regroup(Head(2, |b|), b, rest);
    case Txt(t) => Regroup(Head(3, |t|), t, rest);
    case Arr(items) => Regroup(Head(4, |items|), EncodeAll(items), rest);
    case Dict(entries) => Regroup(Head(5, |entries| / 2), EncodeAll(entries), rest);
    case Null => assert Head(7, 22) == [0xF6];
  }

  lemma HeadOf(v: Value, rest: seq<byte>)
    requires Sized(v)
    ensures ReadHead(Encode(v) + rest) == Ok(Opening(v, rest))
  {
    var (major, n, behind) := Opening(v, rest);
    OpeningIsPrefix(v, rest);
    HeadReads(major, n, behind);
  }
}
