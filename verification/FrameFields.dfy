/** The pieces a frame body is read from, and that each accepts exactly what its encoder writes. */
module FrameFields {
  import opened Octets
  import opened RelayCbor
  import AgentCbor
  import ValueTree
  import CodecAgreement

  datatype FrameDecodeError =
    | TooLarge(size: nat)
    | Cbor(cbor: CborError)
    | UnknownTag(tag: u16)
    | UnsupportedVersion(version: u16)
    | BadField(field: string)
    | BadWakeField(wakeField: string)
    | TooLargeWake(wakeSize: nat)

  type Reading<T> = Result<(T, seq<byte>), FrameDecodeError>

  /** `read` accepts exactly the encodings of the `ok` values, and stops exactly behind them. */
  ghost predicate Exact<T(!new)>(read: seq<byte> -> Reading<T>, enc: T -> seq<byte>, ok: T -> bool) {
    forall s, x, rest :: read(s) == Ok((x, rest)) <==> ok(x) && s == enc(x) + rest
  }

  /** The encodings are at least `n` bytes long. */
  ghost predicate AtLeast<T(!new)>(enc: T -> seq<byte>, n: nat) {
    forall x :: |enc(x)| >= n
  }

  predicate Any<T>(x: T) { true }

  lemma Use<T(!new)>(read: seq<byte> -> Reading<T>, enc: T -> seq<byte>, ok: T -> bool, s: seq<byte>, x: T,
      rest: seq<byte>)
    requires Exact(read, enc, ok)
    ensures read(s) == Ok((x, rest)) <==> ok(x) && s == enc(x) + rest
  {
  }

  // --------------------------------------------------------------- composition

  /** One field and then another. */
  function Both<A, B>(a: seq<byte> -> Reading<A>, b: seq<byte> -> Reading<B>): seq<byte> -> Reading<(A, B)> {
    s => var (x, s1) :- a(s);
         var (y, s2) :- b(s1);
         Ok(((x, y), s2))
  }

  function Cat<A, B>(a: A -> seq<byte>, b: B -> seq<byte>): ((A, B)) -> seq<byte> { (p: (A, B)) => a(p.0) + b(p.1) }

  function AndThen<A, B>(a: A -> bool, b: B -> bool): ((A, B)) -> bool { (p: (A, B)) => a(p.0) && b(p.1) }

  lemma BothExact<A(!new), B(!new)>(
      a: seq<byte> -> Reading<A>, ea: A -> seq<byte>, oka: A -> bool,
      b: seq<byte> -> Reading<B>, eb: B -> seq<byte>, okb: B -> bool, n: nat)
    requires Exact(a, ea, oka) && AtLeast(ea, 1) && Exact(b, eb, okb) && AtLeast(eb, n)
    ensures Exact(Both(a, b), Cat(ea, eb), AndThen(oka, okb)) && AtLeast(Cat(ea, eb), n + 1)
  {
    forall p: (A, B) ensures |Cat(ea, eb)(p)| >= n + 1 { assert |ea(p.0)| >= 1 && |eb(p.1)| >= n; }
    forall s, p: (A, B), rest
      ensures Both(a, b)(s) == Ok((p, rest)) <==> (oka(p.0) && okb(p.1)) && s == ea(p.0) + eb(p.1) + rest
    {
      assert ea(p.0) + (eb(p.1) + rest) == ea(p.0) + eb(p.1) + rest;
      if Both(a, b)(s) == Ok((p, rest)) {
        var (x, s1) := a(s).value;
        var (y, s2) := b(s1).value;
        assert x == p.0 && y == p.1 && s2 == rest;
        assert a(s) == Ok((x, s1)) && b(s1) == Ok((y, s2));
      }
      if oka(p.0) && okb(p.1) && s == ea(p.0) + eb(p.1) + rest {
        assert a(s) == Ok((p.0, eb(p.1) + rest));
        assert b(eb(p.1) + rest) == Ok((p.1, rest));
      }
    }
  }

  /** A field with a rule of its own. */
  function Where<T>(read: seq<byte> -> Reading<T>, good: T -> bool,
      bad: T -> FrameDecodeError): seq<byte> -> Reading<T> {
    s => var (x, rest) :- read(s);
         if good(x) then Ok((x, rest)) else Err(bad(x))
  }

  function Also<T>(a: T -> bool, b: T -> bool): T -> bool { x => a(x) && b(x) }

  lemma WhereExact<T(!new)>(
      read: seq<byte> -> Reading<T>, enc: T -> seq<byte>, ok: T -> bool, good: T -> bool, bad: T -> FrameDecodeError)
    requires Exact(read, enc, ok)
    ensures Exact(Where(read, good, bad), enc, Also(ok, good))
  {
    forall s, x, rest
      ensures Where(read, good, bad)(s) == Ok((x, rest)) <==> (ok(x) && good(x)) && s == enc(x) + rest
    {
      if Where(read, good, bad)(s) == Ok((x, rest)) {
        var (y, t) := read(s).value;
        assert y == x && t == rest;
      }
    }
  }

  // ------------------------------------------------------------------- one field

  /** What a codec error becomes inside a frame. */
  type Blame = CborError -> FrameDecodeError

  function Plain(e: CborError): FrameDecodeError { Cbor(e) }

  /** Inside `WAKE` a broken encoding is told apart from a wrong field. */
  function WakeShape(field: string): Blame {
    (e: CborError) =>
      if e.NonCanonicalInteger? || e.ReservedAdditionalInfo? || e.TrailingBytes? then Cbor(e) else BadField(field)
  }

  function Lift<T>(blame: Blame, r: Read<T>): Reading<T> {
    match r
    case Ok(v) => Ok(v)
    case Err(e) => Err(blame(e))
  }

  function U64(blame: Blame): seq<byte> -> Reading<u64> { s => Lift(blame, ReadUint(s)) }

  function U32(blame: Blame): seq<byte> -> Reading<u32> {
    s => var (n, rest) :- Lift(blame, ReadBelow(0x1_0000_0000, s));
         Ok((n, rest))
  }

  function U16(blame: Blame): seq<byte> -> Reading<u16> {
    s => var (n, rest) :- Lift(blame, ReadBelow(0x1_0000, s));
         Ok((n, rest))
  }

  function U8(blame: Blame): seq<byte> -> Reading<u8> {
    s => var (n, rest) :- Lift(blame, ReadBelow(0x100, s));
         Ok((n, rest))
  }

  function BytesField(blame: Blame): seq<byte> -> Reading<Blob> { s => Lift(blame, ReadBytes(s)) }

  function BytesOf(count: nat): seq<byte> -> Reading<Blob> { s => Lift(Plain, ReadBytesOf(count, s)) }

  function BoolField(blame: Blame): seq<byte> -> Reading<bool> { s => Lift(blame, ReadBoolean(s)) }

  function TextField(blame: Blame): seq<byte> -> Reading<Text> { s => Lift(blame, ReadText(s)) }

  /** An array head of exactly `count` items, and then the items. */
  function Items<T>(blame: Blame, count: u64, read: seq<byte> -> Reading<T>): seq<byte> -> Reading<T> {
    s => match ReadArray(count, s)
         case Ok(rest) => read(rest)
         case Err(e) => Err(blame(e))
  }

  function Nothing(s: seq<byte>): Reading<()> { Ok(((), s)) }

  function EncU64(n: u64): seq<byte> { Uint(n) }
  function EncU32(n: u32): seq<byte> { Uint(n) }
  function EncU16(n: u16): seq<byte> { Uint(n) }
  function EncU8(n: u8): seq<byte> { Uint(n) }
  function EncBytes(b: Blob): seq<byte> { Bytes(b) }
  function EncText(t: Text): seq<byte> { TextString(t) }
  function EncBool(b: bool): seq<byte> { Boolean(b) }
  function EncNothing(u: ()): seq<byte> { [] }

  function EncItems<T>(count: nat, enc: T -> seq<byte>): T -> seq<byte> { x => Head(MAJOR_ARRAY, count) + enc(x) }

  function Wide(count: nat): Blob -> bool { (b: Blob) => |b| == count }

  lemma HeadExact(s: seq<byte>, major: nat, value: u64, rest: seq<byte>)
    requires major < 8
    ensures ReadHead(s) == Ok((major, value, rest)) <==> s == Head(major, value) + rest
  {
    hide ReadHead, Head;
    CodecAgreement.HeadsAgree(s);
    CodecAgreement.EncodersAgree(major, value, 0, [], [], []);
    hide AgentCbor.ReadHead, AgentCbor.Head;
    ValueTree.HeadExact(s, major, value, rest);
  }

  lemma UintExact(s: seq<byte>, n: u64, rest: seq<byte>)
    ensures ReadUint(s) == Ok((n, rest)) <==> s == Uint(n) + rest
  {
    hide ReadHead, Head;
    HeadExact(s, MAJOR_UINT, n, rest);
  }

  lemma BytesExact(s: seq<byte>, b: Blob, rest: seq<byte>)
    ensures ReadBytes(s) == Ok((b, rest)) <==> s == Bytes(b) + rest
  {
    hide ReadHead, Head;
    HeadExact(s, MAJOR_BYTES, |b|, b + rest);
    assert Head(MAJOR_BYTES, |b|) + (b + rest) == Bytes(b) + rest;
    assert (b + rest)[..|b|] == b && (b + rest)[|b|..] == rest;
    if ReadBytes(s) == Ok((b, rest)) {
      var behind := ReadHead(s).value.2;
      assert behind == b + rest;
    }
  }

  lemma TextExact(s: seq<byte>, t: Text, rest: seq<byte>)
    ensures ReadText(s) == Ok((t, rest)) <==> s == TextString(t) + rest
  {
    hide ReadHead, Head;
    HeadExact(s, MAJOR_TEXT, |t|, t + rest);
    assert Head(MAJOR_TEXT, |t|) + (t + rest) == TextString(t) + rest;
    assert (t + rest)[..|t|] == t && (t + rest)[|t|..] == rest;
    if ReadText(s) == Ok((t, rest)) {
      var behind := ReadHead(s).value.2;
      assert behind == t + rest;
    }
  }

  lemma BooleanExact(s: seq<byte>, b: bool, rest: seq<byte>)
    ensures ReadBoolean(s) == Ok((b, rest)) <==> s == Boolean(b) + rest
  {
    hide ReadHead;
    HeadExact(s, MAJOR_SIMPLE, if b then 21 else 20, rest);
  }

  lemma OptionalBytesExact(s: seq<byte>, v: Option<Blob>, rest: seq<byte>)
    ensures ReadOptionalBytes(s) == Ok((v, rest)) <==> s == OptionalBytes(v) + rest
  {
    assert Head(MAJOR_SIMPLE, 22) == NULL;
    hide ReadHead, Bytes, Head;
    if ReadHead(s).Ok? {
      HeadMajor(s);
      HeadExact(s, MAJOR_SIMPLE, 22, ReadHead(s).value.2);
    }
    HeadExact(s, MAJOR_SIMPLE, 22, rest);
    if v.Some? { BytesExact(s, v.value, rest); }
  }

  /** An array head is accepted while the items it announces could still be there. */
  lemma ArrayExact(s: seq<byte>, count: u64, rest: seq<byte>)
    ensures ReadArray(count, s) == Ok(rest) <==> count <= |rest| && s == Head(MAJOR_ARRAY, count) + rest
  {
    hide ReadHead, Head;
    HeadExact(s, MAJOR_ARRAY, count, rest);
  }

  // ----------------------------------------------------------------- field by field

  /** A field: how it is read, how it is written, and which values it may have. */
  datatype Field<!T> = Field(read: seq<byte> -> Reading<T>, enc: T -> seq<byte>, ok: T -> bool)

  /** The reader takes exactly what the encoder writes, which is at least `n` bytes. */
  ghost predicate Sound<T(!new)>(f: Field<T>, n: nat) { Exact(f.read, f.enc, f.ok) && AtLeast(f.enc, n) }

  function FieldU64(blame: Blame): Field<u64> { Field(U64(blame), EncU64, Any) }
  function FieldU32(blame: Blame): Field<u32> { Field(U32(blame), EncU32, Any) }
  function FieldU16(blame: Blame): Field<u16> { Field(U16(blame), EncU16, Any) }
  function FieldU8(blame: Blame): Field<u8> { Field(U8(blame), EncU8, Any) }
  function FieldBytes(blame: Blame): Field<Blob> { Field(BytesField(blame), EncBytes, Any) }
  function FieldFixed(count: nat): Field<Blob> { Field(BytesOf(count), EncBytes, Wide(count)) }
  function FieldBool(blame: Blame): Field<bool> { Field(BoolField(blame), EncBool, Any) }
  function FieldText(blame: Blame): Field<Text> { Field(TextField(blame), EncText, Any) }
  function FieldNothing(): Field<()> { Field(Nothing, EncNothing, Any) }

  function Pair<A, B>(a: Field<A>, b: Field<B>): Field<(A, B)> {
    Field(Both(a.read, b.read), Cat(a.enc, b.enc), AndThen(a.ok, b.ok))
  }

  lemma PairAt<A(!new), B(!new)>(a: Field<A>, b: Field<B>, n: nat, x: A, y: B)
    requires Sound(a, 1) && Sound(b, n)
    ensures Sound(Pair(a, b), n + 1)
    ensures Pair(a, b).enc((x, y)) == a.enc(x) + b.enc(y) && Pair(a, b).ok((x, y)) == (a.ok(x) && b.ok(y))
  {
    hide Exact, AtLeast, Both;
    BothExact(a.read, a.enc, a.ok, b.read, b.enc, b.ok, n);
  }

  function Ruled<T>(f: Field<T>, good: T -> bool, bad: T -> FrameDecodeError): Field<T> {
    Field(Where(f.read, good, bad), f.enc, Also(f.ok, good))
  }

  lemma RuledAt<T(!new)>(f: Field<T>, good: T -> bool, bad: T -> FrameDecodeError, n: nat, x: T)
    requires Sound(f, n)
    ensures Sound(Ruled(f, good, bad), n)
    ensures Ruled(f, good, bad).enc(x) == f.enc(x) && Ruled(f, good, bad).ok(x) == (f.ok(x) && good(x))
  {
    hide Exact, AtLeast, Where;
    WhereExact(f.read, f.enc, f.ok, good, bad);
  }

  function Listed<T>(f: Field<T>): Field<Vec<T>> { Field(ListOf(f.read), EncList(f.enc), Each(f.ok)) }

  lemma ListedAt<T(!new)>(f: Field<T>, xs: Vec<T>)
    requires Sound(f, 1)
    ensures Sound(Listed(f), 1) && Listed(f).ok(xs) == AllOk(f.ok, xs)
  {
    hide Exact, AtLeast, ListOf, EncList;
    ListExact(f.read, f.enc, f.ok);
  }

  /** An array of a field's items, read whole. */
  lemma Row<T(!new)>(blame: Blame, count: u64, f: Field<T>, s: seq<byte>, x: T, rest: seq<byte>)
    requires Sound(f, count)
    ensures Items(blame, count, f.read)(s) == Ok((x, rest))
            <==> f.ok(x) && s == Head(MAJOR_ARRAY, count) + f.enc(x) + rest
  {
    hide Exact, AtLeast, Items, Head;
    ItemsExact(blame, count, f.read, f.enc, f.ok);
    Use(Items(blame, count, f.read), EncItems(count, f.enc), f.ok, s, x, rest);
  }

  lemma U64Exact(blame: Blame)
    ensures Sound(FieldU64(blame), 1)
  {
    hide ReadUint, Head;
    forall s, x: u64, rest ensures U64(blame)(s) == Ok((x, rest)) <==> s == EncU64(x) + rest { UintExact(s, x, rest); }
  }

  lemma BelowExact(limit: nat, s: seq<byte>, n: u64, rest: seq<byte>)
    ensures ReadBelow(limit, s) == Ok((n, rest)) <==> n < limit && s == Uint(n) + rest
  {
    hide ReadUint, Uint;
    UintExact(s, n, rest);
    if ReadBelow(limit, s) == Ok((n, rest)) {
      var (m, t) := ReadUint(s).value;
      assert m == n && t == rest;
    }
  }

  lemma U32Exact(blame: Blame)
    ensures Sound(FieldU32(blame), 1)
  {
    hide ReadBelow, Head;
    forall s, x: u32, rest ensures U32(blame)(s) == Ok((x, rest)) <==> s == EncU32(x) + rest {
      BelowExact(0x1_0000_0000, s, x, rest);
      if U32(blame)(s) == Ok((x, rest)) { var (m, t) := ReadBelow(0x1_0000_0000, s).value; assert m == x && t == rest; }
    }
  }

  lemma U16Exact(blame: Blame)
    ensures Sound(FieldU16(blame), 1)
  {
    hide ReadBelow, Head;
    forall s, x: u16, rest ensures U16(blame)(s) == Ok((x, rest)) <==> s == EncU16(x) + rest {
      BelowExact(0x1_0000, s, x, rest);
      if U16(blame)(s) == Ok((x, rest)) { var (m, t) := ReadBelow(0x1_0000, s).value; assert m == x && t == rest; }
    }
  }

  lemma U8Exact(blame: Blame)
    ensures Sound(FieldU8(blame), 1)
  {
    hide ReadBelow, Head;
    forall s, x: u8, rest ensures U8(blame)(s) == Ok((x, rest)) <==> s == EncU8(x) + rest {
      BelowExact(0x100, s, x, rest);
      if U8(blame)(s) == Ok((x, rest)) { var (m, t) := ReadBelow(0x100, s).value; assert m == x && t == rest; }
    }
  }

  lemma BytesFieldExact(blame: Blame)
    ensures Sound(FieldBytes(blame), 1)
  {
    hide ReadBytes, Head;
    forall s, x: Blob, rest ensures BytesField(blame)(s) == Ok((x, rest)) <==> s == EncBytes(x) + rest {
      BytesExact(s, x, rest);
    }
  }

  lemma BytesOfExact(count: nat)
    ensures Sound(FieldFixed(count), 1)
  {
    hide ReadBytes, Head;
    forall s, x: Blob, rest ensures BytesOf(count)(s) == Ok((x, rest)) <==> |x| == count && s == EncBytes(x) + rest {
      BytesExact(s, x, rest);
      if BytesOf(count)(s) == Ok((x, rest)) { var (m, t) := ReadBytes(s).value; assert m == x && t == rest; }
    }
  }

  lemma BoolFieldExact(blame: Blame)
    ensures Sound(FieldBool(blame), 1)
  {
    hide ReadBoolean;
    forall s, x: bool, rest ensures BoolField(blame)(s) == Ok((x, rest)) <==> s == EncBool(x) + rest {
      BooleanExact(s, x, rest);
    }
  }

  lemma TextFieldExact(blame: Blame)
    ensures Sound(FieldText(blame), 1)
  {
    hide ReadText, Head;
    forall s, x: Text, rest ensures TextField(blame)(s) == Ok((x, rest)) <==> s == EncText(x) + rest {
      TextExact(s, x, rest);
    }
  }

  lemma NothingExact()
    ensures Sound(FieldNothing(), 0)
  {
    forall s, x: (), rest ensures Nothing(s) == Ok((x, rest)) <==> s == EncNothing(x) + rest {
      assert x == ();
      assert [] + rest == rest;
    }
  }

  lemma ItemsExact<T(!new)>(blame: Blame, count: u64, read: seq<byte> -> Reading<T>, enc: T -> seq<byte>, ok: T -> bool)
    requires Exact(read, enc, ok) && AtLeast(enc, count)
    ensures Exact(Items(blame, count, read), EncItems(count, enc), ok)
  {
    hide ReadArray, Head;
    forall s, x, rest
      ensures Items(blame, count, read)(s) == Ok((x, rest)) <==> ok(x) && s == Head(MAJOR_ARRAY, count) + enc(x) + rest
    {
      var behind := enc(x) + rest;
      assert Head(MAJOR_ARRAY, count) + behind == Head(MAJOR_ARRAY, count) + enc(x) + rest;
      ArrayExact(s, count, behind);
      if Items(blame, count, read)(s) == Ok((x, rest)) {
        assert read(ReadArray(count, s).value) == Ok((x, rest));
      }
    }
  }

  // ----------------------------------------------------------------------- lists

  function Many<T>(read: seq<byte> -> Reading<T>, s: seq<byte>, count: nat): (r: Reading<seq<T>>)
    ensures r.Ok? ==> |r.value.0| == count
    decreases count
  {
    if count == 0 then Ok(([], s)) else
      var (x, rest) :- read(s);
      var (xs, end) :- Many(read, rest, count - 1);
      Ok(([x] + xs, end))
  }

  function EncAll<T>(enc: T -> seq<byte>, xs: seq<T>): seq<byte> {
    if |xs| == 0 then [] else enc(xs[0]) + EncAll(enc, xs[1..])
  }

  predicate AllOk<T>(ok: T -> bool, xs: seq<T>) {
    forall i | 0 <= i < |xs| :: ok(xs[i])
  }

  /** An array of any length, item by item. */
  function ListOf<T>(read: seq<byte> -> Reading<T>): seq<byte> -> Reading<Vec<T>> {
    s => var (count, rest) :- Lift(Plain, ReadArrayHeader(s));
         var (xs, end) :- Many(read, rest, count);
         Ok((xs, end))
  }

  function EncList<T>(enc: T -> seq<byte>): Vec<T> -> seq<byte> {
    (xs: Vec<T>) => Head(MAJOR_ARRAY, |xs|) + EncAll(enc, xs)
  }

  function Each<T>(ok: T -> bool): Vec<T> -> bool { (xs: Vec<T>) => AllOk(ok, xs) }

  lemma {:induction false} ManyExact<T(!new)>(
      read: seq<byte> -> Reading<T>, enc: T -> seq<byte>, ok: T -> bool, s: seq<byte>, xs: seq<T>, rest: seq<byte>)
    requires Exact(read, enc, ok)
    ensures Many(read, s, |xs|) == Ok((xs, rest)) <==> AllOk(ok, xs) && s == EncAll(enc, xs) + rest
    decreases |xs|
  {
    if |xs| == 0 {
      assert [] + rest == rest;
    } else {
      var x, more := xs[0], xs[1..];
      var t := EncAll(enc, more) + rest;
      assert xs == [x] + more;
      assert enc(x) + t == EncAll(enc, xs) + rest;
      assert read(s) == Ok((x, t)) <==> ok(x) && s == enc(x) + t;
      if Many(read, s, |xs|) == Ok((xs, rest)) {
        var (y, u) := read(s).value;
        var (ys, e) := Many(read, u, |more|).value;
        assert [y] + ys == xs && y == x && ys == more && e == rest;
        ManyExact(read, enc, ok, u, more, rest);
        assert read(s) == Ok((x, u));
      }
      if AllOk(ok, xs) && s == EncAll(enc, xs) + rest {
        assert forall i | 0 <= i < |more| :: more[i] == xs[i + 1];
        ManyExact(read, enc, ok, t, more, rest);
      }
    }
  }

  lemma {:induction false} ListIsLong<T(!new)>(enc: T -> seq<byte>, xs: seq<T>)
    requires AtLeast(enc, 1)
    ensures |EncAll(enc, xs)| >= |xs|
  {
    if |xs| > 0 { ListIsLong(enc, xs[1..]); }
  }

  lemma ListExact<T(!new)>(read: seq<byte> -> Reading<T>, enc: T -> seq<byte>, ok: T -> bool)
    requires Exact(read, enc, ok) && AtLeast(enc, 1)
    ensures Exact(ListOf(read), EncList(enc), Each(ok)) && AtLeast(EncList(enc), 1)
  {
    hide ReadArrayHeader, Head, AllOk, EncAll, Many;
    forall s, xs: Vec<T>, rest
      ensures ListOf(read)(s) == Ok((xs, rest))
              <==> AllOk(ok, xs) && s == Head(MAJOR_ARRAY, |xs|) + EncAll(enc, xs) + rest
    {
      ListIsLong(enc, xs);
      var behind := EncAll(enc, xs) + rest;
      assert Head(MAJOR_ARRAY, |xs|) + behind == Head(MAJOR_ARRAY, |xs|) + EncAll(enc, xs) + rest;
      ArrayHeaderExact(s, |xs|, behind);
      if ListOf(read)(s) == Ok((xs, rest)) {
        var (count, t) := ReadArrayHeader(s).value;
        var (ys, e) := Many(read, t, count).value;
        assert ys == xs && e == rest && count == |xs|;
        ManyExact(read, enc, ok, t, xs, rest);
        assert ReadArrayHeader(s) == Ok((count, t));
      }
      if AllOk(ok, xs) && s == Head(MAJOR_ARRAY, |xs|) + EncAll(enc, xs) + rest {
        ManyExact(read, enc, ok, behind, xs, rest);
      }
    }
  }

  lemma ArrayHeaderExact(s: seq<byte>, count: u64, rest: seq<byte>)
    ensures ReadArrayHeader(s) == Ok((count, rest)) <==> count <= |rest| && s == Head(MAJOR_ARRAY, count) + rest
  {
    hide ReadHead, Head;
    HeadExact(s, MAJOR_ARRAY, count, rest);
  }
}
