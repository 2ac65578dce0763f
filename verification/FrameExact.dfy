/** Every frame has one encoding up to the error frame's two spellings of nothing, and nothing else decodes. */
module FrameExact {
  import opened Octets
  import opened Frames
  import opened RelayCbor
  import opened FrameFields
  import opened FrameCodec

  // -------------------------------------------------------------------- arrays

  lemma Array0()
    ensures Array([]) == Head(MAJOR_ARRAY, 0) + []
  {
    hide Head;
  }

  lemma Cons(a: seq<byte>, items: seq<seq<byte>>)
    ensures Concat([a] + items) == a + Concat(items)
  {
    assert ([a] + items)[1..] == items;
  }

  lemma Concat1(a: seq<byte>)
    ensures Concat([a]) == a
  {
    Cons(a, []);
    assert [a] + [] == [a] && a + [] == a;
  }

  lemma Concat2(a: seq<byte>, b: seq<byte>)
    ensures Concat([a, b]) == a + b
  {
    hide Concat, Head;
    Cons(a, [b]);
    assert [a] + [b] == [a, b];
    Concat1(b);
  }

  lemma Concat3(a: seq<byte>, b: seq<byte>, c: seq<byte>)
    ensures Concat([a, b, c]) == a + (b + c)
  {
    hide Concat, Head;
    Cons(a, [b, c]);
    assert [a] + [b, c] == [a, b, c];
    Concat2(b, c);
  }

  lemma Array1(a: seq<byte>)
    ensures Array([a]) == Head(MAJOR_ARRAY, 1) + a
  {
    hide Concat, Head;
    Concat1(a);
  }

  lemma Array2(a: seq<byte>, b: seq<byte>)
    ensures Array([a, b]) == Head(MAJOR_ARRAY, 2) + (a + b)
  {
    hide Concat, Head;
    Concat2(a, b);
  }

  lemma Array3(a: seq<byte>, b: seq<byte>, c: seq<byte>)
    ensures Array([a, b, c]) == Head(MAJOR_ARRAY, 3) + (a + (b + c))
  {
    hide Concat, Head;
    Concat3(a, b, c);
  }

  lemma Array4(a: seq<byte>, b: seq<byte>, c: seq<byte>, d: seq<byte>)
    ensures Array([a, b, c, d]) == Head(MAJOR_ARRAY, 4) + (a + (b + (c + d)))
  {
    hide Concat, Head;
    Cons(a, [b, c, d]);
    assert [a] + [b, c, d] == [a, b, c, d];
    Concat3(b, c, d);
  }

  lemma Array5(a: seq<byte>, b: seq<byte>, c: seq<byte>, d: seq<byte>, e: seq<byte>)
    ensures Array([a, b, c, d, e]) == Head(MAJOR_ARRAY, 5) + (a + (b + (c + (d + e))))
  {
    hide Concat, Head;
    Cons(a, [b, c, d, e]);
    assert [a] + [b, c, d, e] == [a, b, c, d, e];
    Cons(b, [c, d, e]);
    assert [b] + [c, d, e] == [b, c, d, e];
    Concat3(c, d, e);
  }

  lemma {:induction false} ArrayOfBlobs(parts: Vec<Blob>)
    ensures Array(ByteStrings(parts)) == EncList(EncBytes)(parts)
  {
    hide Head, Bytes;
    ConcatBlobs(parts);
  }

  lemma {:induction false} ConcatBlobs(parts: seq<Blob>)
    ensures |ByteStrings(parts)| == |parts| && Concat(ByteStrings(parts)) == EncAll(EncBytes, parts)
  {
    hide Bytes;
    if |parts| > 0 {
      ConcatBlobs(parts[1..]);
      assert ByteStrings(parts)[1..] == ByteStrings(parts[1..]);
    }
  }

  // -------------------------------------------------------------------- shapes

  lemma OneReads(s: seq<byte>, b: Blob, rest: seq<byte>)
    ensures OneBlob()(s) == Ok((b, rest))
            <==> s == Array([Bytes(b)]) + rest
  {
    hide Sound, Both, Cat, AndThen, Where, Also, Items, ListOf, EncList, Each, Array, Bytes, Head;
    hide Uint, U64, U32, U16, U8, BytesField, BytesOf;
    BytesFieldExact(Plain);
    Row(Plain, 1, FieldBytes(Plain), s, b, rest);
    Array1(Bytes(b));
  }

  lemma KeyedReads(s: seq<byte>, g: Blob, n: u64, rest: seq<byte>)
    ensures Keyed()(s) == Ok(((g, n), rest))
            <==> |g| == 32 && s == Array([Bytes(g), Uint(n)]) + rest
  {
    hide Sound, Both, Cat, AndThen, Where, Also, Items, ListOf, EncList, Each, Array, Bytes, Head;
    hide Uint, U64, U32, U16, U8, BytesField, BytesOf;
    BytesOfExact(32);
    U64Exact(Plain);
    PairAt(FieldFixed(32), FieldU64(Plain), 1, g, n);
    var two := Pair(FieldFixed(32), FieldU64(Plain));
    Row(Plain, 2, two, s, (g, n), rest);
    Array2(Bytes(g), Uint(n));
  }

  lemma KeyedPayloadReads(s: seq<byte>, g: Blob, n: u64, b: Blob, rest: seq<byte>)
    ensures KeyedPayload()(s) == Ok(((g, (n, b)), rest))
            <==> |g| == 32 && s == Array([Bytes(g), Uint(n), Bytes(b)]) + rest
  {
    hide Sound, Both, Cat, AndThen, Where, Also, Items, ListOf, EncList, Each, Array, Bytes, Head;
    hide Uint, U64, U32, U16, U8, BytesField, BytesOf;
    BytesOfExact(32);
    U64Exact(Plain);
    BytesFieldExact(Plain);
    PairAt(FieldU64(Plain), FieldBytes(Plain), 1, n, b);
    var two := Pair(FieldU64(Plain), FieldBytes(Plain));
    PairAt(FieldFixed(32), two, 2, g, (n, b));
    var three := Pair(FieldFixed(32), two);
    Row(Plain, 3, three, s, (g, (n, b)), rest);
    Array3(Bytes(g), Uint(n), Bytes(b));
  }

  lemma ReconReads(s: seq<byte>, g: Blob, b: Blob, rest: seq<byte>)
    ensures ReconFields()(s) == Ok(((g, b), rest))
            <==> |g| == 32 && s == Array([Bytes(g), Bytes(b)]) + rest
  {
    hide Sound, Both, Cat, AndThen, Where, Also, Items, ListOf, EncList, Each, Array, Bytes, Head;
    hide Uint, U64, U32, U16, U8, BytesField, BytesOf;
    BytesOfExact(32);
    BytesFieldExact(Plain);
    PairAt(FieldFixed(32), FieldBytes(Plain), 1, g, b);
    var two := Pair(FieldFixed(32), FieldBytes(Plain));
    Row(Plain, 2, two, s, (g, b), rest);
    Array2(Bytes(g), Bytes(b));
  }

  lemma AuthReads(s: seq<byte>, k: Blob, g: Blob, rest: seq<byte>)
    ensures AuthFields()(s) == Ok(((k, g), rest))
            <==> |k| == 32 && |g| == 64 && s == Array([Bytes(k), Bytes(g)]) + rest
  {
    hide Sound, Both, Cat, AndThen, Where, Also, Items, ListOf, EncList, Each, Array, Bytes, Head;
    hide Uint, U64, U32, U16, U8, BytesField, BytesOf;
    BytesOfExact(32);
    BytesOfExact(64);
    PairAt(FieldFixed(32), FieldFixed(64), 1, k, g);
    var two := Pair(FieldFixed(32), FieldFixed(64));
    Row(Plain, 2, two, s, (k, g), rest);
    Array2(Bytes(k), Bytes(g));
  }

  lemma AuthAckReads(s: seq<byte>, a: u32, b: u8, c: Blob, d: u8, e: u8, rest: seq<byte>)
    ensures AuthAckFields()(s) == Ok(((a, (b, (c, (d, e)))), rest))
            <==> s == Array([Uint(a), Uint(b), Bytes(c), Uint(d), Uint(e)]) + rest
  {
    hide Sound, Both, Cat, AndThen, Where, Also, Items, ListOf, EncList, Each, Array, Bytes, Head;
    hide Uint, U64, U32, U16, U8, BytesField, BytesOf;
    U32Exact(Plain);
    U8Exact(Plain);
    BytesFieldExact(Plain);
    PairAt(FieldU8(Plain), FieldU8(Plain), 1, d, e);
    var two := Pair(FieldU8(Plain), FieldU8(Plain));
    PairAt(FieldBytes(Plain), two, 2, c, (d, e));
    var three := Pair(FieldBytes(Plain), two);
    PairAt(FieldU8(Plain), three, 3, b, (c, (d, e)));
    var four := Pair(FieldU8(Plain), three);
    PairAt(FieldU32(Plain), four, 4, a, (b, (c, (d, e))));
    var five := Pair(FieldU32(Plain), four);
    Row(Plain, 5, five, s, (a, (b, (c, (d, e)))), rest);
    Array5(Uint(a), Uint(b), Bytes(c), Uint(d), Uint(e));
  }

  lemma CallReads(s: seq<byte>, i: Blob, g: Blob, n: u64, k: u8, b: Blob, rest: seq<byte>)
    ensures CallFields()(s) == Ok(((i, (g, (n, (k, b)))), rest))
            <==> && |i| == CALL_ID_BYTES && |g| == 32
                 && s == Array([Bytes(i), Bytes(g), Uint(n), Uint(k), Bytes(b)]) + rest
  {
    hide Sound, Both, Cat, AndThen, Where, Also, Items, ListOf, EncList, Each, Array, Bytes, Head;
    hide Uint, U64, U32, U16, U8, BytesField, BytesOf;
    BytesOfExact(CALL_ID_BYTES);
    BytesOfExact(32);
    U64Exact(Plain);
    U8Exact(Plain);
    BytesFieldExact(Plain);
    PairAt(FieldU8(Plain), FieldBytes(Plain), 1, k, b);
    var two := Pair(FieldU8(Plain), FieldBytes(Plain));
    PairAt(FieldU64(Plain), two, 2, n, (k, b));
    var three := Pair(FieldU64(Plain), two);
    PairAt(FieldFixed(32), three, 3, g, (n, (k, b)));
    var four := Pair(FieldFixed(32), three);
    PairAt(FieldFixed(CALL_ID_BYTES), four, 4, i, (g, (n, (k, b))));
    var five := Pair(FieldFixed(CALL_ID_BYTES), four);
    Row(Plain, 5, five, s, (i, (g, (n, (k, b)))), rest);
    Array5(Bytes(i), Bytes(g), Uint(n), Uint(k), Bytes(b));
  }

  lemma MediaReads(s: seq<byte>, i: Blob, t: Blob, n: u64, b: Blob, rest: seq<byte>)
    ensures MediaFields()(s) == Ok(((i, (t, (n, b))), rest))
            <==> && |i| == CALL_ID_BYTES && |t| == STREAM_BYTES
                 && s == Array([Bytes(i), Bytes(t), Uint(n), Bytes(b)]) + rest
  {
    hide Sound, Both, Cat, AndThen, Where, Also, Items, ListOf, EncList, Each, Array, Bytes, Head;
    hide Uint, U64, U32, U16, U8, BytesField, BytesOf;
    BytesOfExact(CALL_ID_BYTES);
    BytesOfExact(STREAM_BYTES);
    U64Exact(Plain);
    BytesFieldExact(Plain);
    PairAt(FieldU64(Plain), FieldBytes(Plain), 1, n, b);
    var two := Pair(FieldU64(Plain), FieldBytes(Plain));
    PairAt(FieldFixed(STREAM_BYTES), two, 2, t, (n, b));
    var three := Pair(FieldFixed(STREAM_BYTES), two);
    PairAt(FieldFixed(CALL_ID_BYTES), three, 3, i, (t, (n, b)));
    var four := Pair(FieldFixed(CALL_ID_BYTES), three);
    Row(Plain, 4, four, s, (i, (t, (n, b))), rest);
    Array4(Bytes(i), Bytes(t), Uint(n), Bytes(b));
  }

  lemma ErrorReads(s: seq<byte>, a: Blob, b: Blob, n: u32, d: Blob, rest: seq<byte>)
    ensures ErrorFields()(s) == Ok(((a, (b, (n, d))), rest))
            <==> s == Array([Bytes(a), Bytes(b), Uint(n), Bytes(d)]) + rest
  {
    hide Sound, Both, Cat, AndThen, Where, Also, Items, ListOf, EncList, Each, Array, Bytes, Head;
    hide Uint, U64, U32, U16, U8, BytesField, BytesOf;
    BytesFieldExact(Plain);
    U32Exact(Plain);
    PairAt(FieldU32(Plain), FieldBytes(Plain), 1, n, d);
    var two := Pair(FieldU32(Plain), FieldBytes(Plain));
    PairAt(FieldBytes(Plain), two, 2, b, (n, d));
    var three := Pair(FieldBytes(Plain), two);
    PairAt(FieldBytes(Plain), three, 3, a, (b, (n, d)));
    var four := Pair(FieldBytes(Plain), three);
    Row(Plain, 4, four, s, (a, (b, (n, d))), rest);
    Array4(Bytes(a), Bytes(b), Uint(n), Bytes(d));
  }

  lemma ConnectAckReads(s: seq<byte>, v: u16, t: u64, m: u8, rest: seq<byte>)
    ensures ConnectAckFields()(s) == Ok(((v, (t, m)), rest))
            <==> Spoken(v) && s == Array([Uint(v), Uint(t), Uint(m)]) + rest
  {
    hide Sound, Both, Cat, AndThen, Where, Also, Items, ListOf, EncList, Each, Array, Bytes, Head;
    hide Uint, U64, U32, U16, U8, BytesField, BytesOf;
    U16Exact(Plain);
    RuledAt(FieldU16(Plain), Spoken, BadVersion, 1, v);
    var version := Ruled(FieldU16(Plain), Spoken, BadVersion);
    U64Exact(Plain);
    U8Exact(Plain);
    PairAt(FieldU64(Plain), FieldU8(Plain), 1, t, m);
    var two := Pair(FieldU64(Plain), FieldU8(Plain));
    PairAt(version, two, 2, v, (t, m));
    var three := Pair(version, two);
    Row(Plain, 3, three, s, (v, (t, m)), rest);
    Array3(Uint(v), Uint(t), Uint(m));
  }

  lemma ConnectReads(s: seq<byte>, v: u16, gs: Vec<Blob>, t: u64, rest: seq<byte>)
    ensures ConnectFields()(s) == Ok(((v, (gs, t)), rest))
            <==> && AtLeastMinimum(v) && AllOk(Wide(32), gs)
                 && s == Array([Uint(v), EncList(EncBytes)(gs), Uint(t)]) + rest
  {
    hide Sound, Both, Cat, AndThen, Where, Also, Items, ListOf, EncList, Each, Array, Bytes, Head;
    hide Uint, U64, U32, U16, U8, BytesField, BytesOf;
    U16Exact(Plain);
    RuledAt(FieldU16(Plain), AtLeastMinimum, BadVersion, 1, v);
    var version := Ruled(FieldU16(Plain), AtLeastMinimum, BadVersion);
    BytesOfExact(32);
    ListedAt(FieldFixed(32), gs);
    U64Exact(Plain);
    PairAt(Listed(FieldFixed(32)), FieldU64(Plain), 1, gs, t);
    var two := Pair(Listed(FieldFixed(32)), FieldU64(Plain));
    PairAt(version, two, 2, v, (gs, t));
    var three := Pair(version, two);
    Row(Plain, 3, three, s, (v, (gs, t)), rest);
    Array3(Uint(v), EncList(EncBytes)(gs), Uint(t));
  }

  lemma RegisterReads(s: seq<byte>, h: Blob, m: u8, t: u64, rest: seq<byte>)
    ensures RegisterFields()(s) == Ok(((h, (m, t)), rest))
            <==> |h| == HANDLE_BYTES && ValidMask(m) && s == Array([Bytes(h), Uint(m), Uint(t)]) + rest
  {
    hide Sound, Both, Cat, AndThen, Where, Also, Items, ListOf, EncList, Each, Array, Bytes, Head;
    hide Uint, U64, U32, U16, U8, BytesField, BytesOf;
    BytesFieldExact(WakeShape("handle"));
    var handle := Ruled(FieldBytes(WakeShape("handle")), Wide(HANDLE_BYTES), Refuse(BadWakeField("handle")));
    RuledAt(FieldBytes(WakeShape("handle")), Wide(HANDLE_BYTES), Refuse(BadWakeField("handle")), 1, h);
    U8Exact(WakeShape("categories"));
    var mask := Ruled(FieldU8(WakeShape("categories")), ValidMask, Refuse(BadWakeField("categories")));
    RuledAt(FieldU8(WakeShape("categories")), ValidMask, Refuse(BadWakeField("categories")), 1, m);
    U64Exact(WakeShape("expires_at"));
    PairAt(mask, FieldU64(WakeShape("expires_at")), 1, m, t);
    var two := Pair(mask, FieldU64(WakeShape("expires_at")));
    PairAt(handle, two, 2, h, (m, t));
    var three := Pair(handle, two);
    Row(WakeShape("register"), 3, three, s, (h, (m, t)), rest);
    Array3(Bytes(h), Uint(m), Uint(t));
  }

  lemma CapabilityReads(ok: Text -> bool, s: seq<byte>, e: bool, u: Text, rest: seq<byte>)
    ensures CapabilityFields(ok)(s) == Ok(((e, u), rest))
            <==> GoodUrl(ok)(u) && s == Array([Boolean(e), TextString(u)]) + rest
  {
    hide Sound, Both, Cat, AndThen, Where, Also, Items, ListOf, EncList, Each, Array, Bytes, Head;
    hide Uint, U64, U32, U16, U8, BytesField, BytesOf;
    BoolFieldExact(WakeShape("enabled"));
    TextFieldExact(WakeShape("register_url"));
    var url := Ruled(FieldText(WakeShape("register_url")), GoodUrl(ok), Refuse(BadWakeField("register_url")));
    RuledAt(FieldText(WakeShape("register_url")), GoodUrl(ok), Refuse(BadWakeField("register_url")), 1, u);
    PairAt(FieldBool(WakeShape("enabled")), url, 1, e, u);
    var two := Pair(FieldBool(WakeShape("enabled")), url);
    Row(WakeShape("capability"), 2, two, s, (e, u), rest);
    Array2(Boolean(e), TextString(u));
  }

  lemma FetchReads(s: seq<byte>, d: Blob, n: u8, rest: seq<byte>)
    ensures Items(Plain, 2, Both(BytesOf(32), U8(Plain)))(s) == Ok(((d, n), rest))
            <==> |d| == 32 && s == Array([Bytes(d), Uint(n)]) + rest
  {
    hide Sound, Both, Cat, AndThen, Where, Also, Items, ListOf, EncList, Each, Array, Bytes, Head;
    hide Uint, U64, U32, U16, U8, BytesField, BytesOf;
    BytesOfExact(32);
    U8Exact(Plain);
    PairAt(FieldFixed(32), FieldU8(Plain), 1, d, n);
    var two := Pair(FieldFixed(32), FieldU8(Plain));
    Row(Plain, 2, two, s, (d, n), rest);
    Array2(Bytes(d), Uint(n));
  }

  // -------------------------------------------------------------------- bodies

  predicate WakeInBounds(ok: Text -> bool, b: WakeBody) {
    match b
    case Register(handle, categories, _) => |handle| == HANDLE_BYTES && ValidMask(categories)
    case Capability(_, url) => GoodUrl(ok)(url)
    case _ => true
  }

  /** What the frame set says a frame's fields are. */
  predicate InBounds(ok: Text -> bool, f: Frame) {
    match f
    case Connect(version, groups, _) => AtLeastMinimum(version) && AllOk(Wide(32), groups)
    case ConnectAck(version, _, _) => Spoken(version)
    case Auth(key, signature) => |key| == 32 && |signature| == 64
    case Sub(g, _) => |g| == 32
    case SubAck(g, _) => |g| == 32
    case SendAck(h, _) => |h| == 32
    case Recon(g, _) => |g| == 32
    case Handshake(g, _, _) => |g| == 32
    case Live(g, _, _) => |g| == 32
    case Call(id, g, _, _, _) => |id| == CALL_ID_BYTES && |g| == 32
    case Media(id, stream, _, _) => |id| == CALL_ID_BYTES && |stream| == STREAM_BYTES
    case Keys(Fetch(device, _)) => |device| == 32
    case Wake(b) => WakeInBounds(ok, b)
    case _ => true
  }

  /** An error frame spells no interval and no detail one way each. */
  function Normal(f: Frame): Frame {
    match f
    case Failed(FrameError(code, retry, detail)) =>
      Failed(FrameError(code, if retry == Some(0) then None else retry, if detail == Some([]) then None else detail))
    case _ => f
  }

  /** The read gave exactly this frame, and it is one the frame set allows. */
  ghost predicate BodyIs(read: Reading<Frame>, ok: Text -> bool, tag: u16, s: seq<byte>, f: Frame, rest: seq<byte>) {
    read == Ok((f, rest)) <==> Tag(f) == tag && InBounds(ok, f) && Normal(f) == f && s == BodyBytes(f) + rest
  }

  lemma OneBody(ok: Text -> bool, tag: u16, s: seq<byte>, f: Frame, rest: seq<byte>)
    requires OfOne(tag, []).Some?
    ensures BodyIs(ReadOne(tag, s), ok, tag, s, f, rest)
  {
    hide OneBlob, Array, Bytes, OfOne, Tag, BodyBytes, InBounds, Normal;
    if ReadOne(tag, s) == Ok((f, rest)) {
      var (b, r) := OneBlob()(s).value;
      assert r == rest;
      OneReads(s, b, rest);
      OneFrame(ok, tag, f, b);
    }
    if Tag(f) == tag {
      OneReads(s, TheBlob(f), rest);
      OneFrame(ok, tag, f, TheBlob(f));
    }
  }

  lemma OneFrame(ok: Text -> bool, tag: u16, f: Frame, b: Blob)
    requires OfOne(tag, []).Some?
    ensures OfOne(tag, b) == Some(f) <==> Tag(f) == tag && TheBlob(f) == b
    ensures Tag(f) == tag ==> InBounds(ok, f) && Normal(f) == f && BodyBytes(f) == Array([Bytes(TheBlob(f))])
  {
    hide Array, Bytes;
  }

  function TheBlob(f: Frame): Blob {
    match f
    case AuthChallenge(b) => b
    case Access(b) => b
    case Push(b) => b
    case Send(b) => b
    case Blobs(b) => b
    case Bye(b) => b
    case Wrap(b) => b
    case Join(b) => b
    case Drop(b) => b
    case Invite(b) => b
    case _ => []
  }

  lemma KeyedBody(ok: Text -> bool, tag: u16, s: seq<byte>, f: Frame, rest: seq<byte>)
    requires tag == 7 || tag == 8 || tag == 12
    ensures BodyIs(ReadKeyed(tag, s), ok, tag, s, f, rest)
  {
    hide Keyed, Array, Bytes;
    if ReadKeyed(tag, s) == Ok((f, rest)) {
      var ((g, n), r) := Keyed()(s).value;
      assert r == rest;
      KeyedReads(s, g, n, rest);
    }
    match f
    case Sub(g, n) => KeyedReads(s, g, n, rest);
    case SubAck(g, n) => KeyedReads(s, g, n, rest);
    case SendAck(g, n) => KeyedReads(s, g, n, rest);
    case _ =>
  }

  lemma KeyedPayloadBody(ok: Text -> bool, tag: u16, s: seq<byte>, f: Frame, rest: seq<byte>)
    requires tag == 17 || tag == 21
    ensures BodyIs(ReadKeyedPayload(tag, s), ok, tag, s, f, rest)
  {
    hide KeyedPayload, Array, Bytes;
    if ReadKeyedPayload(tag, s) == Ok((f, rest)) {
      var ((g, (n, b)), r) := KeyedPayload()(s).value;
      assert r == rest;
      KeyedPayloadReads(s, g, n, b, rest);
    }
    match f
    case Handshake(g, n, b) => KeyedPayloadReads(s, g, n, b, rest);
    case Live(g, n, b) => KeyedPayloadReads(s, g, n, b, rest);
    case _ =>
  }

  lemma ConnectBody(ok: Text -> bool, s: seq<byte>, f: Frame, rest: seq<byte>)
    ensures BodyIs(ReadConnect(s), ok, 1, s, f, rest)
  {
    hide ConnectFields, Array, EncList;
    if ReadConnect(s) == Ok((f, rest)) {
      var ((v, (gs, t)), r) := ConnectFields()(s).value;
      assert r == rest;
      ConnectReads(s, v, gs, t, rest);
      ArrayOfBlobs(gs);
    }
    if f.Connect? {
      ConnectReads(s, f.version, f.groups, f.sentAt, rest);
      ArrayOfBlobs(f.groups);
    }
  }

  lemma ConnectAckBody(ok: Text -> bool, s: seq<byte>, f: Frame, rest: seq<byte>)
    ensures BodyIs(ReadConnectAck(s), ok, 2, s, f, rest)
  {
    hide ConnectAckFields, Array;
    if ReadConnectAck(s) == Ok((f, rest)) {
      var ((v, (t, m)), r) := ConnectAckFields()(s).value;
      assert r == rest;
      ConnectAckReads(s, v, t, m, rest);
    }
    if f.ConnectAck? { ConnectAckReads(s, f.chosen, f.serverTime, f.minEnc, rest); }
  }

  lemma AuthBody(ok: Text -> bool, s: seq<byte>, f: Frame, rest: seq<byte>)
    ensures BodyIs(ReadAuth(s), ok, 4, s, f, rest)
  {
    hide AuthFields, Array, Bytes;
    if ReadAuth(s) == Ok((f, rest)) {
      var ((k, g), r) := AuthFields()(s).value;
      assert r == rest;
      AuthReads(s, k, g, rest);
    }
    if f.Auth? { AuthReads(s, f.deviceKey, f.signature, rest); }
  }

  lemma AuthAckBody(ok: Text -> bool, s: seq<byte>, f: Frame, rest: seq<byte>)
    ensures BodyIs(ReadAuthAck(s), ok, 5, s, f, rest)
  {
    hide AuthAckFields, Array, Bytes;
    if ReadAuthAck(s) == Ok((f, rest)) {
      var ((a, (b, (c, (d, e)))), r) := AuthAckFields()(s).value;
      assert r == rest;
      AuthAckReads(s, a, b, c, d, e, rest);
    }
    if f.AuthAck? {
      AuthAckReads(s, f.keyPackagesRemaining, f.writeMode, f.buildDigest, f.accessSet, f.minimumEnc, rest);
    }
  }

  lemma ReconBody(ok: Text -> bool, s: seq<byte>, f: Frame, rest: seq<byte>)
    ensures BodyIs(ReadRecon(s), ok, 9, s, f, rest)
  {
    hide ReconFields, Array, Bytes;
    if ReadRecon(s) == Ok((f, rest)) {
      var ((g, b), r) := ReconFields()(s).value;
      assert r == rest;
      ReconReads(s, g, b, rest);
    }
    if f.Recon? { ReconReads(s, f.reconGroup, f.recon, rest); }
  }

  lemma CallBody(ok: Text -> bool, s: seq<byte>, f: Frame, rest: seq<byte>)
    ensures BodyIs(ReadCall(s), ok, 23, s, f, rest)
  {
    hide CallFields, Array, Bytes;
    if ReadCall(s) == Ok((f, rest)) {
      var ((i, (g, (n, (k, b)))), r) := CallFields()(s).value;
      assert r == rest;
      CallReads(s, i, g, n, k, b, rest);
    }
    if f.Call? { CallReads(s, f.callId, f.callGroup, f.callEpoch, f.kind, f.body, rest); }
  }

  lemma MediaBody(ok: Text -> bool, s: seq<byte>, f: Frame, rest: seq<byte>)
    ensures BodyIs(ReadMedia(s), ok, 24, s, f, rest)
  {
    hide MediaFields, Array, Bytes;
    if ReadMedia(s) == Ok((f, rest)) {
      var ((i, (t, (n, b))), r) := MediaFields()(s).value;
      assert r == rest;
      MediaReads(s, i, t, n, b, rest);
    }
    if f.Media? { MediaReads(s, f.mediaCall, f.stream, f.mediaSeq, f.audio, rest); }
  }

  // -------------------------------------------------------------- the error frame

  /** Length and sixth letter tell the codes apart. */
  function Letters(c: ErrorCode): (nat, char) {
    match c
    case Backpressure => (12, 'r')
    case LockTimeout => (12, 't')
    case Failover => (8, 'v')
    case PushBackpressure => (17, 'b')
    case MalformedHeader => (16, 'r')
    case NoncanonicalCbor => (17, 'n')
    case HashMismatch => (13, 'm')
    case EnvelopeTooLarge => (18, 'o')
    case UnknownRequiredField => (22, 'w')
    case PushHandleMalformed => (21, 'h')
    case PlaintextRefused => (17, 't')
    case WriterNotInAccessSet => (24, 'r')
    case GroupUnknown => (13, '_')
    case ServiceReadOnly => (17, 'c')
    case GroupFrozen => (12, '_')
    case PushNotConfigured => (19, 'n')
    case WrapNotNewer => (14, 'n')
    case StorageExhausted => (17, 'g')
    case LogBudgetExhausted => (20, 'u')
    case RateLimited => (12, 'l')
    case SeatsExhausted => (15, '_')
    case GroupIngressLimited => (21, '_')
    case PushRegistrationRate => (22, 'r')
    case ProtocolUnsupported => (20, 'c')
    case BelowClientFloor => (18, '_')
  }

  predicate Lettered(c: ErrorCode) {
    var n := CodeName(c);
    |n| > 5 && (|n|, n[5] as char) == Letters(c)
  }

  lemma RetryLetters(c: ErrorCode)
    requires Class(c) == Retry
    ensures Lettered(c)
  {
    hide RejectName, DeniedName, QuotaName, IsUtf8;
  }

  lemma RejectLetters(c: ErrorCode)
    requires Class(c) == Reject
    ensures Lettered(c)
  {
    hide RetryName, DeniedName, QuotaName, IsUtf8;
  }

  lemma DeniedLetters(c: ErrorCode)
    requires Class(c) == Denied
    ensures Lettered(c)
  {
    hide RetryName, RejectName, QuotaName, IsUtf8;
  }

  lemma QuotaLetters(c: ErrorCode)
    requires Class(c) == Quota
    ensures Lettered(c)
  {
    hide RetryName, RejectName, DeniedName, IsUtf8;
  }

  lemma CodeLetters(c: ErrorCode)
    ensures Lettered(c)
  {
    hide RetryName, RejectName, DeniedName, QuotaName, IsUtf8;
    match Class(c)
    case Retry => RetryLetters(c);
    case Reject => RejectLetters(c);
    case Denied => DeniedLetters(c);
    case Quota => QuotaLetters(c);
    case _ =>
  }

  lemma LettersDiffer(c: ErrorCode, d: ErrorCode)
    ensures Letters(c) == Letters(d) ==> c == d
  {
  }

  lemma CodesDiffer(c: ErrorCode, d: ErrorCode)
    ensures CodeName(c) == CodeName(d) ==> c == d
  {
    hide CodeName, Letters;
    CodeLetters(c);
    CodeLetters(d);
    LettersDiffer(c, d);
  }

  lemma {:induction false} FirstSpelled(codes: seq<ErrorCode>, name: Blob, class_: Blob, c: ErrorCode)
    requires c in codes
    ensures FindCode(codes, name, class_) == Some(c) <==> Spelled(c, name, class_)
  {
    hide CodeName, ClassName, Class;
    CodesDiffer(codes[0], c);
    if codes[0] != c { FirstSpelled(codes[1..], name, class_, c); }
    SpelledIsFound(codes, name, class_);
  }

  lemma {:induction false} SpelledIsFound(codes: seq<ErrorCode>, name: Blob, class_: Blob)
    ensures var r := FindCode(codes, name, class_); r.Some? ==> Spelled(r.value, name, class_)
  {
    hide CodeName, ClassName, Class;
    if |codes| > 0 { SpelledIsFound(codes[1..], name, class_); }
  }

  lemma EveryCodeIsListed(c: ErrorCode)
    ensures c in ALL_CODES
  {
    match c
    case Backpressure => assert ALL_CODES[0] == c;
    case LockTimeout => assert ALL_CODES[1] == c;
    case Failover => assert ALL_CODES[2] == c;
    case PushBackpressure => assert ALL_CODES[3] == c;
    case MalformedHeader => assert ALL_CODES[4] == c;
    case NoncanonicalCbor => assert ALL_CODES[5] == c;
    case HashMismatch => assert ALL_CODES[6] == c;
    case EnvelopeTooLarge => assert ALL_CODES[7] == c;
    case UnknownRequiredField => assert ALL_CODES[8] == c;
    case PushHandleMalformed => assert ALL_CODES[9] == c;
    case PlaintextRefused => assert ALL_CODES[10] == c;
    case WriterNotInAccessSet => assert ALL_CODES[11] == c;
    case GroupUnknown => assert ALL_CODES[12] == c;
    case ServiceReadOnly => assert ALL_CODES[13] == c;
    case GroupFrozen => assert ALL_CODES[14] == c;
    case PushNotConfigured => assert ALL_CODES[15] == c;
    case WrapNotNewer => assert ALL_CODES[16] == c;
    case StorageExhausted => assert ALL_CODES[17] == c;
    case LogBudgetExhausted => assert ALL_CODES[18] == c;
    case RateLimited => assert ALL_CODES[19] == c;
    case SeatsExhausted => assert ALL_CODES[20] == c;
    case GroupIngressLimited => assert ALL_CODES[21] == c;
    case PushRegistrationRate => assert ALL_CODES[22] == c;
    case ProtocolUnsupported => assert ALL_CODES[23] == c;
    case BelowClientFloor => assert ALL_CODES[24] == c;
  }

  lemma CodeFound(name: Blob, class_: Blob, c: ErrorCode)
    ensures FindCode(ALL_CODES, name, class_) == Some(c) <==> name == CodeName(c) && class_ == ClassName(Class(c))
  {
    hide FindCode, CodeName, ClassName, Class;
    EveryCodeIsListed(c);
    FirstSpelled(ALL_CODES, name, class_, c);
  }

  lemma ErrorBody(ok: Text -> bool, s: seq<byte>, f: Frame, rest: seq<byte>)
    ensures BodyIs(ReadError(s), ok, 15, s, f, rest)
  {
    hide ErrorFields, Array, Bytes, FindCode, CodeName, ClassName, Class;
    if ReadError(s) == Ok((f, rest)) {
      var ((a, (b, (n, d))), r) := ErrorFields()(s).value;
      assert r == rest;
      ErrorReads(s, a, b, n, d, rest);
      CodeFound(b, a, f.error.code);
    }
    if f.Failed? {
      var e := f.error;
      var retry := if e.retryAfter.Some? then e.retryAfter.value else 0;
      var detail: Blob := if e.detail.Some? then e.detail.value else [];
      ErrorReads(s, ClassName(Class(e.code)), CodeName(e.code), retry, detail, rest);
      CodeFound(CodeName(e.code), ClassName(Class(e.code)), e.code);
    }
  }

  // ------------------------------------------------------------------ key packages

  predicate AnyBlob(b: Blob) { true }

  lemma PackagesRead(s: seq<byte>, ps: Vec<Blob>, rest: seq<byte>)
    ensures ListOf(BytesField(Plain))(s) == Ok((ps, rest)) <==> s == Array(ByteStrings(ps)) + rest
  {
    hide ListOf, EncList, Array, ByteStrings, ReadBytes, Head;
    BytesFieldExact(Plain);
    assert Exact(BytesField(Plain), EncBytes, AnyBlob);
    ListExact(BytesField(Plain), EncBytes, AnyBlob);
    hide Exact;
    Use(ListOf(BytesField(Plain)), EncList(EncBytes), Each(AnyBlob), s, ps, rest);
    ArrayOfBlobs(ps);
  }

  lemma PublishedReads(s: seq<byte>, n: u32, rest: seq<byte>)
    ensures Items(Plain, 1, U32(Plain))(s) == Ok((n, rest)) <==> s == Array([Uint(n)]) + rest
  {
    hide Sound, Items, Array, Head;
    U32Exact(Plain);
    Row(Plain, 1, FieldU32(Plain), s, n, rest);
    Array1(Uint(n));
  }

  lemma RegisteredReads(s: seq<byte>, n: u64, rest: seq<byte>)
    ensures Items(WakeShape("registered"), 1, U64(WakeShape("expires_at")))(s) == Ok((n, rest))
            <==> s == Array([Uint(n)]) + rest
  {
    hide Sound, Items, Array, Head;
    U64Exact(WakeShape("expires_at"));
    Row(WakeShape("registered"), 1, FieldU64(WakeShape("expires_at")), s, n, rest);
    Array1(Uint(n));
  }

  lemma NothingReads(blame: Blame, s: seq<byte>, u: (), rest: seq<byte>)
    ensures Items(blame, 0, Nothing)(s) == Ok((u, rest)) <==> s == Array([]) + rest
  {
    hide Sound, Items, Array, Head;
    NothingExact();
    Row(blame, 0, FieldNothing(), s, u, rest);
    Array0();
  }

  predicate KeysInBounds(b: KeysBody) { b.Fetch? ==> |b.device| == 32 }

  lemma KeysFormReads(form: u8, s: seq<byte>, b: KeysBody, rest: seq<byte>)
    ensures ReadKeysForm(form, s) == Ok((b, rest))
            <==> KeysForm(b) == form && KeysInBounds(b) && s == KeysBytes(b) + rest
  {
    hide ListOf, Items, Both, Array, Bytes, ByteStrings;
    if ReadKeysForm(form, s) == Ok((b, rest)) { KeysFormFound(form, s, b, rest); }
    if KeysForm(b) == form && KeysInBounds(b) && s == KeysBytes(b) + rest {
      match b
      case Publish(ps) => PackagesRead(s, ps, rest);
      case Bundles(ps) => PackagesRead(s, ps, rest);
      case Published(n) => PublishedReads(s, n, rest);
      case Fetch(d, n) => FetchReads(s, d, n, rest);
      case ShelfEmpty => NothingReads(Plain, s, (), rest);
    }
  }

  lemma KeysFormFound(form: u8, s: seq<byte>, b: KeysBody, rest: seq<byte>)
    requires ReadKeysForm(form, s) == Ok((b, rest))
    ensures KeysForm(b) == form && KeysInBounds(b) && s == KeysBytes(b) + rest
  {
    hide ListOf, Items, Both, Array, Bytes, ByteStrings;
    if form == 1 || form == 4 {
      var (ps, r) := ListOf(BytesField(Plain))(s).value;
      assert r == rest;
      PackagesRead(s, ps, rest);
    } else if form == 2 {
      var (n, r) := Items(Plain, 1, U32(Plain))(s).value;
      assert r == rest;
      PublishedReads(s, n, rest);
    } else if form == 3 {
      var ((d, n), r) := Items(Plain, 2, Both(BytesOf(32), U8(Plain)))(s).value;
      assert r == rest;
      FetchReads(s, d, n, rest);
    } else {
      var (u, r) := Items(Plain, 0, Nothing)(s).value;
      assert r == rest;
      NothingReads(Plain, s, u, rest);
    }
  }

  lemma FormReads(blame: Blame, s: seq<byte>, form: u8, rest: seq<byte>)
    ensures U8(blame)(s) == Ok((form, rest)) <==> s == Uint(form) + rest
  {
    hide Exact, U8;
    U8Exact(blame);
    Use(U8(blame), EncU8, Any, s, form, rest);
  }

  /** A form number and then the form's fields, in an array of two. */
  lemma FormedExact(s: seq<byte>, form: u8, fields: seq<byte>, rest: seq<byte>)
    ensures s == Array([Uint(form), fields]) + rest <==> s == Head(MAJOR_ARRAY, 2) + (Uint(form) + (fields + rest))
  {
    hide Array, Head;
    Array2(Uint(form), fields);
    assert Head(MAJOR_ARRAY, 2) + (Uint(form) + fields) + rest == Head(MAJOR_ARRAY, 2) + (Uint(form) + (fields + rest));
  }

  lemma KeysBytesLong(b: KeysBody)
    ensures |KeysBytes(b)| >= 1
  {
    hide Concat, Head;
  }

  lemma KeysFound(s: seq<byte>, b: KeysBody, rest: seq<byte>)
    requires ReadKeys(s) == Ok((Keys(b), rest))
    ensures KeysInBounds(b) && s == Array([Uint(KeysForm(b)), KeysBytes(b)]) + rest
  {
    hide ReadArray, U8, ReadKeysForm, KeysBytes, KeysForm, KeysInBounds, Array, Head;
    var s1 := ReadArray(2, s).value;
    var (form, s2) := U8(Plain)(s1).value;
    var (c, r) := ReadKeysForm(form, s2).value;
    assert c == b && r == rest;
    ArrayExact(s, 2, s1);
    FormReads(Plain, s1, form, s2);
    KeysFormReads(form, s2, b, rest);
    FormedExact(s, form, KeysBytes(b), rest);
  }

  lemma KeysAccepted(s: seq<byte>, b: KeysBody, rest: seq<byte>)
    requires KeysInBounds(b) && s == Array([Uint(KeysForm(b)), KeysBytes(b)]) + rest
    ensures ReadKeys(s) == Ok((Keys(b), rest))
  {
    hide ReadArray, U8, ReadKeysForm, KeysBytes, KeysForm, KeysInBounds, Array, Head;
    var form := KeysForm(b);
    var s2 := KeysBytes(b) + rest;
    FormedExact(s, form, KeysBytes(b), rest);
    KeysBytesLong(b);
    ArrayExact(s, 2, Uint(form) + s2);
    FormReads(Plain, Uint(form) + s2, form, s2);
    KeysFormReads(form, s2, b, rest);
  }

  lemma KeysIsKeys(s: seq<byte>)
    ensures ReadKeys(s).Ok? ==> ReadKeys(s).value.0.Keys?
  {
    hide ReadArray, U8, ReadKeysForm;
  }

  lemma KeysBody(ok: Text -> bool, s: seq<byte>, f: Frame, rest: seq<byte>)
    ensures BodyIs(ReadKeys(s), ok, 22, s, f, rest)
  {
    hide Array, KeysForm, KeysBytes, ReadKeys;
    KeysIsKeys(s);
    if ReadKeys(s) == Ok((f, rest)) { KeysFound(s, f.keys, rest); }
    if f.Keys? && InBounds(ok, f) && s == BodyBytes(f) + rest { KeysAccepted(s, f.keys, rest); }
  }

  // ------------------------------------------------------------------------- wake

  lemma WakeFormFound(ok: Text -> bool, form: u8, s: seq<byte>, b: WakeBody, rest: seq<byte>)
    requires ReadWakeForm(ok, form, s) == Ok((b, rest))
    ensures WakeForm(b) == form && WakeInBounds(ok, b) && s == WakeBytes(b) + rest
  {
    hide Items, RegisterFields, CapabilityFields, GoodUrl, Array, Bytes, TextString, Boolean;
    match b
    case Register(h, m, t) =>
      var ((h1, (m1, t1)), r) := RegisterFields()(s).value;
      assert h1 == h && m1 == m && t1 == t && r == rest;
      RegisterReads(s, h, m, t, rest);
    case Registered(n) =>
      assert Items(WakeShape("registered"), 1, U64(WakeShape("expires_at")))(s).value == (n, rest);
      RegisteredReads(s, n, rest);
    case Capability(e, u) =>
      var ((e1, u1), r) := CapabilityFields(ok)(s).value;
      assert e1 == e && u1 == u && r == rest;
      CapabilityReads(ok, s, e, u, rest);
    case _ =>
      var (u, r) := Items(WakeShape("fields"), 0, Nothing)(s).value;
      assert r == rest;
      NothingReads(WakeShape("fields"), s, u, rest);
  }

  lemma WakeFormAccepted(ok: Text -> bool, form: u8, s: seq<byte>, b: WakeBody, rest: seq<byte>)
    requires WakeForm(b) == form && WakeInBounds(ok, b) && s == WakeBytes(b) + rest
    ensures ReadWakeForm(ok, form, s) == Ok((b, rest))
  {
    hide Items, RegisterFields, CapabilityFields, GoodUrl, Array, Bytes, TextString, Boolean;
    match b
    case Register(h, m, t) => RegisterReads(s, h, m, t, rest);
    case Registered(n) => RegisteredReads(s, n, rest);
    case Capability(e, u) => CapabilityReads(ok, s, e, u, rest);
    case _ => NothingReads(WakeShape("fields"), s, (), rest);
  }

  lemma WakeBytesLong(b: WakeBody)
    ensures |WakeBytes(b)| >= 1
  {
    hide Concat, Head;
  }

  lemma WakeFound(ok: Text -> bool, size: nat, s: seq<byte>, b: WakeBody, rest: seq<byte>)
    requires ReadWake(ok, size, s) == Ok((Wake(b), rest))
    ensures WakeInBounds(ok, b) && size <= MAX_WAKE_BYTES && s == Array([Uint(WakeForm(b)), WakeBytes(b)]) + rest
  {
    hide ReadArray, U8, ReadWakeForm, WakeBytes, WakeForm, WakeInBounds, Array, Head;
    var s1 := ReadArray(2, s).value;
    var (form, s2) := U8(WakeShape("form"))(s1).value;
    var (c, r) := ReadWakeForm(ok, form, s2).value;
    assert c == b && r == rest;
    ArrayExact(s, 2, s1);
    FormReads(WakeShape("form"), s1, form, s2);
    WakeFormFound(ok, form, s2, b, rest);
    FormedExact(s, form, WakeBytes(b), rest);
  }

  lemma WakeAccepted(ok: Text -> bool, size: nat, s: seq<byte>, b: WakeBody, rest: seq<byte>)
    requires WakeInBounds(ok, b) && size <= MAX_WAKE_BYTES && s == Array([Uint(WakeForm(b)), WakeBytes(b)]) + rest
    ensures ReadWake(ok, size, s) == Ok((Wake(b), rest))
  {
    hide ReadArray, U8, ReadWakeForm, WakeBytes, WakeForm, WakeInBounds, Array, Head;
    var form := WakeForm(b);
    var s2 := WakeBytes(b) + rest;
    FormedExact(s, form, WakeBytes(b), rest);
    WakeBytesLong(b);
    ArrayExact(s, 2, Uint(form) + s2);
    FormReads(WakeShape("form"), Uint(form) + s2, form, s2);
    WakeFormAccepted(ok, form, s2, b, rest);
  }

  lemma WakeIsWake(ok: Text -> bool, size: nat, s: seq<byte>)
    ensures ReadWake(ok, size, s).Ok? ==> ReadWake(ok, size, s).value.0.Wake?
  {
    hide ReadArray, U8, ReadWakeForm;
  }

  lemma WakeBodyIs(ok: Text -> bool, size: nat, s: seq<byte>, f: Frame, rest: seq<byte>)
    ensures size <= MAX_WAKE_BYTES ==> BodyIs(ReadWake(ok, size, s), ok, 25, s, f, rest)
    ensures size > MAX_WAKE_BYTES ==> ReadWake(ok, size, s).Err?
  {
    hide Array, WakeForm, WakeBytes, WakeInBounds;
    WakeIsWake(ok, size, s);
    if size <= MAX_WAKE_BYTES {
      hide ReadWake;
      if ReadWake(ok, size, s) == Ok((f, rest)) { WakeFound(ok, size, s, f.wake, rest); }
      if f.Wake? && InBounds(ok, f) && s == BodyBytes(f) + rest { WakeAccepted(ok, size, s, f.wake, rest); }
    }
  }

  // -------------------------------------------------------------------- the frame

  lemma BodyExact(ok: Text -> bool, size: nat, tag: u16, s: seq<byte>, f: Frame, rest: seq<byte>)
    requires IsTag(tag)
    ensures ReadBody(ok, size, tag, s) == Ok((f, rest)) <==>
            && Tag(f) == tag && InBounds(ok, f) && Normal(f) == f && (tag == 25 ==> size <= MAX_WAKE_BYTES)
            && s == BodyBytes(f) + rest
  {
    hide ReadConnect, ReadConnectAck, ReadAuth, ReadAuthAck, ReadKeyed, ReadRecon, ReadError, ReadKeyedPayload,
         ReadKeys, ReadCall, ReadMedia, ReadWake, ReadOne, InBounds, Normal, BodyBytes, Tag;
    if tag == 1 { ConnectBody(ok, s, f, rest); }
    else if tag == 2 { ConnectAckBody(ok, s, f, rest); }
    else if tag == 4 { AuthBody(ok, s, f, rest); }
    else if tag == 5 { AuthAckBody(ok, s, f, rest); }
    else if tag == 7 || tag == 8 || tag == 12 { KeyedBody(ok, tag, s, f, rest); }
    else if tag == 9 { ReconBody(ok, s, f, rest); }
    else if tag == 15 { ErrorBody(ok, s, f, rest); }
    else if tag == 17 || tag == 21 { KeyedPayloadBody(ok, tag, s, f, rest); }
    else if tag == 22 { KeysBody(ok, s, f, rest); }
    else if tag == 23 { CallBody(ok, s, f, rest); }
    else if tag == 24 { MediaBody(ok, s, f, rest); }
    else if tag == 25 { WakeBodyIs(ok, size, s, f, rest); }
    else { OneBody(ok, tag, s, f, rest); }
  }

  predicate Fits(f: Frame) {
    |EncodeFrame(f)| <= if f.Wake? then MAX_WAKE_BYTES else MAX_FRAME_BYTES
  }

  lemma FrameFound(ok: Text -> bool, b: seq<byte>, f: Frame)
    requires Decode(ok, b) == Ok(f)
    ensures InBounds(ok, f) && Normal(f) == f && Fits(f) && b == EncodeFrame(f)
  {
    hide ReadArray, ReadBody, InBounds, Normal, BodyBytes, Tag, Array, Head, U64;
    var s1 := ReadArray(2, b).value;
    var (raw, s2) := U64(Plain)(s1).value;
    var (g, rest) := ReadBody(ok, |b|, raw, s2).value;
    assert g == f && rest == [];
    ArrayExact(b, 2, s1);
    TagReads(s1, raw, s2);
    BodyExact(ok, |b|, raw, s2, f, rest);
    EncodedExact(b, f);
    assert BodyBytes(f) + [] == BodyBytes(f);
    WakeTag(f);
  }

  lemma WakeTag(f: Frame)
    ensures Tag(f) == 25 <==> f.Wake?
    ensures IsTag(Tag(f))
  {
  }

  lemma TagReads(s: seq<byte>, n: u64, rest: seq<byte>)
    ensures U64(Plain)(s) == Ok((n, rest)) <==> s == Uint(n) + rest
  {
    hide Exact, U64;
    U64Exact(Plain);
    Use(U64(Plain), EncU64, Any, s, n, rest);
  }

  lemma EncodedExact(b: seq<byte>, f: Frame)
    ensures b == EncodeFrame(f) <==> b == Head(MAJOR_ARRAY, 2) + (Uint(Tag(f)) + BodyBytes(f))
  {
    hide Array, Head, BodyBytes, Tag;
    Array2(Uint(Tag(f)), BodyBytes(f));
  }

  lemma BodyLong(f: Frame)
    ensures |BodyBytes(f)| >= 1
  {
    hide Concat, Head, Bytes, KeysBytes, WakeBytes, ByteStrings, CodeName, ClassName;
  }

  lemma FrameAccepted(ok: Text -> bool, f: Frame)
    requires InBounds(ok, f) && Normal(f) == f && Fits(f)
    ensures Decode(ok, EncodeFrame(f)) == Ok(f)
  {
    hide ReadArray, ReadBody, InBounds, Normal, BodyBytes, Tag, Array, Head, U64;
    var b := EncodeFrame(f);
    EncodedExact(b, f);
    BodyLong(f);
    WakeTag(f);
    var s1 := Uint(Tag(f)) + BodyBytes(f);
    ArrayExact(b, 2, s1);
    TagReads(s1, Tag(f), BodyBytes(f));
    BodyExact(ok, |b|, Tag(f), BodyBytes(f), f, []);
    assert BodyBytes(f) + [] == BodyBytes(f);
  }

  /** A byte string decodes to a frame exactly when it is that in-bounds, normal frame's encoding. */
  lemma FrameExact(ok: Text -> bool, b: seq<byte>, f: Frame)
    ensures Decode(ok, b) == Ok(f) <==> InBounds(ok, f) && Normal(f) == f && Fits(f) && b == EncodeFrame(f)
  {
    hide Decode, InBounds, Normal, Fits, EncodeFrame;
    if Decode(ok, b) == Ok(f) { FrameFound(ok, b, f); }
    if InBounds(ok, f) && Normal(f) == f && Fits(f) && b == EncodeFrame(f) { FrameAccepted(ok, f); }
  }

  /** Every in-bounds frame comes back, an error frame with its two empty spellings normalised. */
  lemma FrameRoundTrip(ok: Text -> bool, f: Frame)
    requires InBounds(ok, f) && Fits(f)
    ensures Decode(ok, EncodeFrame(f)) == Ok(Normal(f))
  {
    hide Decode, EncodeFrame;
    NormalEncodesTheSame(f);
    FrameAccepted(ok, Normal(f));
  }

  lemma NormalEncodesTheSame(f: Frame)
    ensures EncodeFrame(Normal(f)) == EncodeFrame(f) && Normal(Normal(f)) == Normal(f) && (f.Wake? <==> Normal(f).Wake?)
  {
    hide Array, Bytes, CodeName, ClassName, KeysBytes, WakeBytes;
  }
}
