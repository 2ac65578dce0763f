/** Every frame's bytes, written out. */
module FrameBytes {
  import opened Octets
  import opened Frames
  import opened WireBytes
  import opened FrameCodec
  import RelayCbor
  import FrameExact
  import FrameFields

  /** The class a code is sent with. */
  function ClassWord(c: ErrorCode): (w: string)
    ensures |w| < 32
  {
    match c
    case Backpressure => "retry"
    case LockTimeout => "retry"
    case Failover => "retry"
    case PushBackpressure => "retry"
    case MalformedHeader => "reject"
    case NoncanonicalCbor => "reject"
    case HashMismatch => "reject"
    case EnvelopeTooLarge => "reject"
    case UnknownRequiredField => "reject"
    case PushHandleMalformed => "reject"
    case PlaintextRefused => "denied"
    case WriterNotInAccessSet => "denied"
    case GroupUnknown => "denied"
    case ServiceReadOnly => "denied"
    case GroupFrozen => "denied"
    case PushNotConfigured => "denied"
    case WrapNotNewer => "denied"
    case StorageExhausted => "quota"
    case LogBudgetExhausted => "quota"
    case RateLimited => "quota"
    case SeatsExhausted => "quota"
    case GroupIngressLimited => "quota"
    case PushRegistrationRate => "limit"
    case ProtocolUnsupported => "version"
    case BelowClientFloor => "version"
  }

  /** The word a code is sent as. */
  function CodeWord(c: ErrorCode): (w: string)
    ensures |w| < 32
  {
    match c
    case Backpressure => "backpressure"
    case LockTimeout => "lock_timeout"
    case Failover => "failover"
    case PushBackpressure => "push_backpressure"
    case MalformedHeader => "malformed_header"
    case NoncanonicalCbor => "noncanonical_cbor"
    case HashMismatch => "hash_mismatch"
    case EnvelopeTooLarge => "envelope_too_large"
    case UnknownRequiredField => "unknown_required_field"
    case PushHandleMalformed => "push_handle_malformed"
    case PlaintextRefused => "plaintext_refused"
    case WriterNotInAccessSet => "writer_not_in_access_set"
    case GroupUnknown => "group_unknown"
    case ServiceReadOnly => "service_read_only"
    case GroupFrozen => "group_frozen"
    case PushNotConfigured => "push_not_configured"
    case WrapNotNewer => "wrap_not_newer"
    case StorageExhausted => "storage_exhausted"
    case LogBudgetExhausted => "log_budget_exhausted"
    case RateLimited => "rate_limited"
    case SeatsExhausted => "seats_exhausted"
    case GroupIngressLimited => "group_ingress_limited"
    case PushRegistrationRate => "push_registration_rate"
    case ProtocolUnsupported => "protocol_unsupported"
    case BelowClientFloor => "below_client_floor"
  }

  function KeysWire(b: KeysBody): seq<byte> {
    match b
    case Publish(packages) => [0x82, 0x01] + (Lead(0x80, |packages|) + Chain(Strs(packages)))
    case Published(remaining) => [0x82, 0x02, 0x81] + Chain([Num(remaining)])
    case Fetch(device, count) => [0x82, 0x03, 0x82] + Chain([Str(device), Num(count)])
    case Bundles(packages) => [0x82, 0x04] + (Lead(0x80, |packages|) + Chain(Strs(packages)))
    case ShelfEmpty => [0x82, 0x05, 0x80]
  }

  function WakeWire(b: WakeBody): seq<byte> {
    match b
    case Register(handle, categories, expiresAt) =>
      [0x82, 0x01, 0x83] + Chain([Str(handle), Num(categories), Num(expiresAt)])
    case Registered(until) => [0x82, 0x02, 0x81] + Chain([Num(until)])
    case Clear => [0x82, 0x03, 0x80]
    case Cleared => [0x82, 0x04, 0x80]
    case Query => [0x82, 0x05, 0x80]
    case Capability(enabled, url) => [0x82, 0x06, 0x82] + Chain([[if enabled then 0xF5 else 0xF4], Chars(url)])
  }

  function Wire(f: Frame): seq<byte> {
    match f
    case Connect(version, groups, sentAt) =>
      [0x82, 0x01, 0x83] + Chain([Num(version), Lead(0x80, |groups|) + Chain(Strs(groups)), Num(sentAt)])
    case ConnectAck(version, serverTime, minEnc) =>
      [0x82, 0x02, 0x83] + Chain([Num(version), Num(serverTime), Num(minEnc)])
    case AuthChallenge(challenge) => [0x82, 0x03, 0x81] + Chain([Str(challenge)])
    case Auth(key, signature) => [0x82, 0x04, 0x82] + Chain([Str(key), Str(signature)])
    case AuthAck(left, mode, digest, accessSet, minEnc) =>
      [0x82, 0x05, 0x85] + Chain([Num(left), Num(mode), Str(digest), Num(accessSet), Num(minEnc)])
    case Access(body) => [0x82, 0x06, 0x81] + Chain([Str(body)])
    case Sub(g, fromSeq) => [0x82, 0x07, 0x82] + Chain([Str(g), Num(fromSeq)])
    case SubAck(g, headSeq) => [0x82, 0x08, 0x82] + Chain([Str(g), Num(headSeq)])
    case Recon(g, payload) => [0x82, 0x09, 0x82] + Chain([Str(g), Str(payload)])
    case Push(envelope) => [0x82, 0x0A, 0x81] + Chain([Str(envelope)])
    case Send(envelope) => [0x82, 0x0B, 0x81] + Chain([Str(envelope)])
    case SendAck(h, n) => [0x82, 0x0C, 0x82] + Chain([Str(h), Num(n)])
    case Blobs(payload) => [0x82, 0x0D, 0x81] + Chain([Str(payload)])
    case Bye(reason) => [0x82, 0x0E, 0x81] + Chain([Str(reason)])
    case Failed(FrameError(code, retry, detail)) =>
      [0x82, 0x0F, 0x84]
      + Chain([Str(Ascii(ClassWord(code))), Str(Ascii(CodeWord(code))),
               Num(if retry.Some? then retry.value else 0), Str(if detail.Some? then detail.value else [])])
    case Wrap(body) => [0x82, 0x10, 0x81] + Chain([Str(body)])
    case Handshake(g, n, message) => [0x82, 0x11, 0x83] + Chain([Str(g), Num(n), Str(message)])
    case Join(body) => [0x82, 0x12, 0x81] + Chain([Str(body)])
    case Drop(payload) => [0x82, 0x13, 0x81] + Chain([Str(payload)])
    case Invite(body) => [0x82, 0x14, 0x81] + Chain([Str(body)])
    case Live(g, epoch, ct) => [0x82, 0x15, 0x83] + Chain([Str(g), Num(epoch), Str(ct)])
    case Keys(b) => [0x82, 0x16] + KeysWire(b)
    case Call(id, g, epoch, kind, body) =>
      [0x82, 0x17, 0x85] + Chain([Str(id), Str(g), Num(epoch), Num(kind), Str(body)])
    case Media(id, stream, n, ct) => [0x82, 0x18, 0x18, 0x84] + Chain([Str(id), Str(stream), Num(n), Str(ct)])
    case Wake(b) => [0x82, 0x18, 0x19] + WakeWire(b)
  }

  // ---------------------------------------------------------------------- the proof

  lemma ClassWords(c: ErrorCode)
    ensures ClassName(Class(c)) == Ascii(ClassWord(c))
  {
    hide Ascii;
  }

  lemma RetryWords(c: ErrorCode)
    requires Class(c) == Retry
    ensures RetryName(c) == Ascii(CodeWord(c))
  {
    hide Ascii;
  }

  lemma RejectWords(c: ErrorCode)
    requires Class(c) == Reject
    ensures RejectName(c) == Ascii(CodeWord(c))
  {
    hide Ascii;
  }

  lemma DeniedWords(c: ErrorCode)
    requires Class(c) == Denied
    ensures DeniedName(c) == Ascii(CodeWord(c))
  {
    hide Ascii;
  }

  lemma QuotaWords(c: ErrorCode)
    requires Class(c) == Quota
    ensures QuotaName(c) == Ascii(CodeWord(c))
  {
    hide Ascii;
  }

  /** The class and the word of every code. */
  lemma CodeWords(c: ErrorCode)
    ensures ClassName(Class(c)) == Ascii(ClassWord(c)) && CodeName(c) == Ascii(CodeWord(c))
  {
    hide RetryName, RejectName, DeniedName, QuotaName, Ascii;
    ClassWords(c);
    match Class(c)
    case Retry => RetryWords(c);
    case Reject => RejectWords(c);
    case Denied => DeniedWords(c);
    case Quota => QuotaWords(c);
    case _ =>
  }

  lemma LeadOf(n: nat)
    requires n < 24
    ensures Lead(0x80, n) == [0x80 + n] && Lead(0x00, n) == [n]
  {
  }

  lemma ChainTwo(a: seq<byte>, b: seq<byte>)
    ensures Chain([a, b]) == a + b
  {
    assert [a, b][1..] == [b] && [b][1..] == [];
    assert Chain([b]) == b + Chain([]);
    assert b + [] == b;
  }

  /** An array of a number and a body. */
  lemma Pairs(n: u64, body: seq<byte>)
    ensures RelayCbor.Array([RelayCbor.Uint(n), body]) == [0x82] + (Num(n) + body)
  {
    hide Lead, RelayCbor.Uint, Chain;
    ArrayBytes([RelayCbor.Uint(n), body]);
    ItemBytes(n, [], []);
    LeadOf(2);
    ChainTwo(Num(n), body);
  }

  /** A frame, or a form of one, whose number is below 24 and whose fields are few. */
  lemma Framed(n: u64, fields: seq<seq<byte>>)
    requires n < 24 && |fields| < 24
    ensures RelayCbor.Array([RelayCbor.Uint(n), RelayCbor.Array(fields)]) == [0x82, n, 0x80 + |fields|] + Chain(fields)
  {
    hide Lead, RelayCbor.Uint, Chain, RelayCbor.Array;
    Pairs(n, RelayCbor.Array(fields));
    ArrayBytes(fields);
    LeadOf(n);
    LeadOf(|fields|);
    ThreeFirst(0x82, n, 0x80 + |fields|, Chain(fields));
  }

  lemma ThreeFirst(a: byte, b: byte, c: byte, rest: seq<byte>)
    ensures [a] + ([b] + ([c] + rest)) == [a, b, c] + rest
  {
  }

  lemma FourFirst(a: byte, b: byte, c: byte, d: byte, rest: seq<byte>)
    ensures [a] + ([b, c] + ([d] + rest)) == [a, b, c, d] + rest
  {
  }

  lemma {:induction false} StrsBytes(parts: seq<Blob>)
    ensures ByteStrings(parts) == Strs(parts) && |Strs(parts)| == |parts|
  {
    hide Str, RelayCbor.Bytes;
    if |parts| > 0 {
      StrsBytes(parts[1..]);
      ItemBytes(0, parts[0], []);
    }
  }

  lemma ListBytes(parts: Vec<Blob>)
    ensures RelayCbor.Array(ByteStrings(parts)) == Lead(0x80, |parts|) + Chain(Strs(parts))
  {
    hide Lead, Chain, Strs, ByteStrings, RelayCbor.Array;
    StrsBytes(parts);
    ArrayBytes(ByteStrings(parts));
  }

  /** The KEYS forms. */
  lemma KeysBytesWritten(b: KeysBody)
    ensures RelayCbor.Array([RelayCbor.Uint(KeysForm(b)), KeysBytes(b)]) == KeysWire(b)
  {
    hide Lead, Num, Str, Chain, Strs, ByteStrings, RelayCbor.Array, RelayCbor.Uint, RelayCbor.Bytes;
    match b
    case Publish(packages) =>
      Pairs(1, KeysBytes(b));
      ListBytes(packages);
      OneLead(1);
      TwoFirst(0x82, 1, KeysBytes(b));
    case Bundles(packages) =>
      Pairs(4, KeysBytes(b));
      ListBytes(packages);
      OneLead(4);
      TwoFirst(0x82, 4, KeysBytes(b));
    case Published(n) => ItemBytes(n, [], []); Framed(2, [Num(n)]);
    case Fetch(d, n) => ItemBytes(n, d, []); Framed(3, [Str(d), Num(n)]);
    case ShelfEmpty => Framed(5, []); NoChain();
  }

  lemma OneLead(n: u64)
    requires n < 24
    ensures Num(n) == [n]
  {
  }

  lemma TwoFirst(a: byte, b: byte, rest: seq<byte>)
    ensures [a] + ([b] + rest) == [a, b] + rest
  {
  }

  lemma NoChain()
    ensures Chain([]) == []
  {
  }

  /** The WAKE forms. */
  lemma WakeBytesWritten(b: WakeBody)
    ensures RelayCbor.Array([RelayCbor.Uint(WakeForm(b)), WakeBytes(b)]) == WakeWire(b)
  {
    hide Lead, Num, Str, Chars, Chain, RelayCbor.Array, RelayCbor.Uint, RelayCbor.Bytes, RelayCbor.TextString;
    NoChain();
    match b
    case Register(h, m, t) => ItemBytes(m, h, []); ItemBytes(t, [], []); Framed(1, [Str(h), Num(m), Num(t)]);
    case Registered(t) => ItemBytes(t, [], []); Framed(2, [Num(t)]);
    case Clear => Framed(3, []);
    case Cleared => Framed(4, []);
    case Query => Framed(5, []);
    case Capability(e, u) => ItemBytes(0, [], u); Framed(6, [[if e then 0xF5 else 0xF4], Chars(u)]);
  }

  lemma ErrorBytesWritten(e: FrameError)
    ensures EncodeFrame(Failed(e)) == Wire(Failed(e))
  {
    hide Lead, Num, Str, Chain, RelayCbor.Array, RelayCbor.Uint, RelayCbor.Bytes, Ascii, ClassName, CodeName, Class;
    hide ClassWord, CodeWord;
    CodeWords(e.code);
    var retry := if e.retryAfter.Some? then e.retryAfter.value else 0;
    var detail: Blob := if e.detail.Some? then e.detail.value else [];
    ItemBytes(retry, detail, []);
    ItemBytes(0, Ascii(ClassWord(e.code)), []);
    ItemBytes(0, Ascii(CodeWord(e.code)), []);
    Framed(15, [Str(Ascii(ClassWord(e.code))), Str(Ascii(CodeWord(e.code))), Num(retry), Str(detail)]);
  }

  lemma MediaBytesWritten(id: Blob, stream: Blob, n: u64, ct: Blob)
    ensures EncodeFrame(Media(id, stream, n, ct)) == Wire(Media(id, stream, n, ct))
  {
    hide Lead, Str, Chain, RelayCbor.Array, RelayCbor.Uint, RelayCbor.Bytes;
    ItemBytes(n, id, []);
    ItemBytes(n, stream, []);
    ItemBytes(n, ct, []);
    var fields := [Str(id), Str(stream), Num(n), Str(ct)];
    Pairs(24, RelayCbor.Array(fields));
    ArrayBytes(fields);
    LeadOf(4);
    assert Num(24) == [0x18, 0x18] by { TwoByteLead(); }
    FourFirst(0x82, 0x18, 0x18, 0x84, Chain(fields));
  }

  lemma TwoByteLead()
    ensures Num(24) == [0x18, 0x18] && Num(25) == [0x18, 0x19]
  {
  }

  lemma OneBlobWritten(f: Frame, tag: u64, b: Blob)
    requires tag < 24 && EncodeFrame(f) == RelayCbor.Array([RelayCbor.Uint(tag), RelayCbor.Array([RelayCbor.Bytes(b)])])
    ensures EncodeFrame(f) == [0x82, tag, 0x81] + Chain([Str(b)])
  {
    hide Str, Chain, RelayCbor.Array, RelayCbor.Uint, RelayCbor.Bytes, EncodeFrame;
    ItemBytes(0, b, []);
    Framed(tag, [Str(b)]);
  }

  /** The frames that carry one byte string. */
  lemma BlobFrameWritten(f: Frame)
    requires f.AuthChallenge? || f.Access? || f.Push? || f.Send? || f.Blobs? || f.Bye?
             || f.Wrap? || f.Join? || f.Drop? || f.Invite?
    ensures EncodeFrame(f) == Wire(f)
  {
    hide Lead, Str, Chain, RelayCbor.Array, RelayCbor.Uint, RelayCbor.Bytes;
    match f
    case AuthChallenge(b) => OneBlobWritten(f, 3, b);
    case Access(b) => OneBlobWritten(f, 6, b);
    case Push(b) => OneBlobWritten(f, 10, b);
    case Send(b) => OneBlobWritten(f, 11, b);
    case Blobs(b) => OneBlobWritten(f, 13, b);
    case Bye(b) => OneBlobWritten(f, 14, b);
    case Wrap(b) => OneBlobWritten(f, 16, b);
    case Join(b) => OneBlobWritten(f, 18, b);
    case Drop(b) => OneBlobWritten(f, 19, b);
    case Invite(b) => OneBlobWritten(f, 20, b);
  }

  /** The frames that open a connection. */
  lemma OpeningFrameWritten(f: Frame)
    requires f.Connect? || f.ConnectAck? || f.Auth? || f.AuthAck?
    ensures EncodeFrame(f) == Wire(f)
  {
    hide Lead, Num, Str, Chain, Strs, ByteStrings, RelayCbor.Array, RelayCbor.Uint, RelayCbor.Bytes;
    match f
    case Connect(v, gs, t) =>
      ItemBytes(v, [], []);
      ItemBytes(t, [], []);
      ListBytes(gs);
      Framed(1, [Num(v), Lead(0x80, |gs|) + Chain(Strs(gs)), Num(t)]);
    case ConnectAck(v, t, m) =>
      ItemBytes(v, [], []);
      ItemBytes(t, [], []);
      ItemBytes(m, [], []);
      Framed(2, [Num(v), Num(t), Num(m)]);
    case Auth(k, g) => ItemBytes(0, k, []); ItemBytes(0, g, []); Framed(4, [Str(k), Str(g)]);
    case AuthAck(a, b, c, d, e) =>
      ItemBytes(a, c, []);
      ItemBytes(b, c, []);
      ItemBytes(d, c, []);
      ItemBytes(e, c, []);
      Framed(5, [Num(a), Num(b), Str(c), Num(d), Num(e)]);
  }

  /** The frames that bring a reader up to date. */
  lemma GroupFrameWritten(f: Frame)
    requires f.Sub? || f.SubAck? || f.Recon? || f.SendAck?
    ensures EncodeFrame(f) == Wire(f)
  {
    hide Lead, Num, Str, Chain, RelayCbor.Array, RelayCbor.Uint, RelayCbor.Bytes;
    match f
    case Sub(g, n) => ItemBytes(n, g, []); Framed(7, [Str(g), Num(n)]);
    case SubAck(g, n) => ItemBytes(n, g, []); Framed(8, [Str(g), Num(n)]);
    case Recon(g, b) => ItemBytes(0, g, []); ItemBytes(0, b, []); Framed(9, [Str(g), Str(b)]);
    case SendAck(h, n) => ItemBytes(n, h, []); Framed(12, [Str(h), Num(n)]);
  }

  /** The frames that carry a message, a signal or a call. */
  lemma CarrierFrameWritten(f: Frame)
    requires f.Handshake? || f.Live? || f.Call?
    ensures EncodeFrame(f) == Wire(f)
  {
    hide Lead, Num, Str, Chain, RelayCbor.Array, RelayCbor.Uint, RelayCbor.Bytes;
    match f
    case Handshake(g, n, b) => ItemBytes(n, g, []); ItemBytes(n, b, []); Framed(17, [Str(g), Num(n), Str(b)]);
    case Live(g, n, b) => ItemBytes(n, g, []); ItemBytes(n, b, []); Framed(21, [Str(g), Num(n), Str(b)]);
    case Call(i, g, n, k, b) =>
      ItemBytes(n, i, []);
      ItemBytes(k, g, []);
      ItemBytes(n, b, []);
      Framed(23, [Str(i), Str(g), Num(n), Num(k), Str(b)]);
  }

  lemma KeysFrameWritten(b: KeysBody)
    ensures EncodeFrame(Keys(b)) == Wire(Keys(b))
  {
    hide Num, RelayCbor.Array, RelayCbor.Uint, KeysBytes, KeysWire;
    KeysBytesWritten(b);
    Pairs(22, KeysWire(b));
    OneLead(22);
    TwoFirst(0x82, 22, KeysWire(b));
  }

  lemma WakeFrameWritten(b: WakeBody)
    ensures EncodeFrame(Wake(b)) == Wire(Wake(b))
  {
    hide Num, RelayCbor.Array, RelayCbor.Uint, WakeBytes, WakeWire;
    WakeBytesWritten(b);
    Pairs(25, WakeWire(b));
    TwoByteLead();
    assert [0x82] + ([0x18, 0x19] + WakeWire(b)) == [0x82, 0x18, 0x19] + WakeWire(b);
  }

  /** Every frame is written as these bytes. */
  lemma FrameBytesWritten(f: Frame)
    ensures EncodeFrame(f) == Wire(f)
  {
    hide EncodeFrame, Wire;
    match f
    case Connect(_, _, _) | ConnectAck(_, _, _) | Auth(_, _) | AuthAck(_, _, _, _, _) => OpeningFrameWritten(f);
    case Failed(e) => ErrorBytesWritten(e);
    case Keys(b) => KeysFrameWritten(b);
    case Media(i, t, n, b) => MediaBytesWritten(i, t, n, b);
    case Wake(b) => WakeFrameWritten(b);
    case Sub(_, _) | SubAck(_, _) | Recon(_, _) | SendAck(_, _) => GroupFrameWritten(f);
    case Handshake(_, _, _) | Live(_, _, _) | Call(_, _, _, _, _) => CarrierFrameWritten(f);
    case _ => BlobFrameWritten(f);
  }

  /** And these bytes are what decodes to it, and nothing else does. */
  lemma WireExact(ok: Text -> bool, b: seq<byte>, f: Frame)
    ensures Decode(ok, b) == Ok(f)
            <==> && FrameExact.InBounds(ok, f) && FrameExact.Normal(f) == f
                 && |Wire(f)| <= (if f.Wake? then 1024 else 0x10_1000) && b == Wire(f)
  {
    hide Decode, EncodeFrame, Wire, FrameExact.InBounds, FrameExact.Normal;
    FrameBytesWritten(f);
    FrameExact.FrameExact(ok, b, f);
  }

  // ---------------------------------------------------------------------- refusals

  lemma PairHead()
    ensures RelayCbor.Head(4, 2) == [0x82] && RelayCbor.Head(4, 3) == [0x83]
  {
    HeadBytes(4, 2);
    HeadBytes(4, 3);
  }

  /** A pair of a number and something behind it, within the size, is read up to there. */
  lemma TagIsRead(b: seq<byte>, n: u64, body: seq<byte>)
    requires |body| > 0 && b == [0x82] + (Num(n) + body)
    ensures RelayCbor.ReadArray(2, b) == Ok(Num(n) + body)
    ensures FrameFields.U64(FrameFields.Plain)(Num(n) + body) == Ok((n, body))
  {
    hide Num, RelayCbor.ReadArray, RelayCbor.ReadUint, RelayCbor.Uint, RelayCbor.Head;
    PairHead();
    assert |Num(n)| >= 1 by { NumIsLong(n); }
    FrameFields.ArrayExact(b, 2, Num(n) + body);
    ItemBytes(n, [], []);
    FrameFields.UintExact(Num(n) + body, n, body);
  }

  lemma NumIsLong(n: u64)
    ensures |Num(n)| >= 1
  {
  }

  /** What is refused before the fields are looked at, and as what. */
  lemma FramesRefused(ok: Text -> bool, b: seq<byte>, n: u64, body: seq<byte>)
    ensures |b| > 0x10_1000 ==> Decode(ok, b) == Err(FrameFields.TooLarge(|b|))
    ensures |b| <= 0x10_1000 && |body| > 0 && b == [0x82] + (Num(n) + body) && (n == 0 || n > 25) ==>
              Decode(ok, b) == Err(FrameFields.UnknownTag(if n < 0x1_0000 then n else 0xFFFF))
    ensures 1024 < |b| <= 0x10_1000 && |body| > 0 && b == [0x82] + (Num(25) + body) ==>
              Decode(ok, b) == Err(FrameFields.TooLargeWake(|b|))
  {
    hide Num, RelayCbor.ReadArray, FrameFields.U64, ReadBody;
    if |body| > 0 && b == [0x82] + (Num(n) + body) { TagIsRead(b, n, body); }
    if |body| > 0 && b == [0x82] + (Num(25) + body) { TagIsRead(b, 25, body); }
    WakeIsRefused(ok, |b|, body);
  }

  lemma WakeIsRefused(ok: Text -> bool, size: nat, s: seq<byte>)
    ensures size > 1024 ==> ReadBody(ok, size, 25, s) == Err(FrameFields.TooLargeWake(size))
  {
    hide ReadConnect, ReadConnectAck, ReadAuth, ReadAuthAck, ReadKeyed, ReadRecon, ReadError, ReadKeyedPayload,
         ReadKeys, ReadCall, ReadMedia, ReadOne, ReadWakeForm;
  }

  lemma ConnectIsRefused(ok: Text -> bool, size: nat, v: u16, rest: seq<byte>)
    requires |rest| >= 2
    ensures v == 0 ==>
              ReadBody(ok, size, 1, [0x83] + (Num(v) + rest)) == Err(FrameFields.UnsupportedVersion(v))
    ensures v == 0 || v > 4 ==>
              ReadBody(ok, size, 2, [0x83] + (Num(v) + rest)) == Err(FrameFields.UnsupportedVersion(v))
  {
    hide ReadAuth, ReadAuthAck, ReadKeyed, ReadRecon, ReadError, ReadKeyedPayload, ReadKeys, ReadCall, ReadMedia,
         ReadOne, ReadWake, Num, RelayCbor.ReadArray, FrameFields.U16, FrameFields.ListOf;
    VersionIsRead(v, rest);
  }

  lemma BodyDecides(ok: Text -> bool, b: seq<byte>, n: u64, body: seq<byte>)
    requires |b| <= 0x10_1000 && |body| > 0 && 1 <= n <= 25 && b == [0x82] + (Num(n) + body)
    requires ReadBody(ok, |b|, n, body).Err?
    ensures Decode(ok, b) == Err(ReadBody(ok, |b|, n, body).error)
  {
    hide Num, RelayCbor.ReadArray, FrameFields.U64, ReadBody;
    TagIsRead(b, n, body);
  }

  /** A version no build speaks is refused with its number, whatever follows it. */
  lemma VersionsRefused(ok: Text -> bool, v: u16, rest: seq<byte>)
    requires |rest| >= 2 && |rest| < 0x10_0000
    ensures v == 0 ==>
              Decode(ok, [0x82] + (Num(1) + ([0x83] + (Num(v) + rest)))) == Err(FrameFields.UnsupportedVersion(v))
    ensures v == 0 || v > 4 ==>
              Decode(ok, [0x82] + (Num(2) + ([0x83] + (Num(v) + rest)))) == Err(FrameFields.UnsupportedVersion(v))
  {
    hide Num, ReadBody, Decode;
    var body := [0x83] + (Num(v) + rest);
    var b, c := [0x82] + (Num(1) + body), [0x82] + (Num(2) + body);
    NumIsShort(v);
    NumIsShort(1);
    NumIsShort(2);
    ConnectIsRefused(ok, |b|, v, rest);
    ConnectIsRefused(ok, |c|, v, rest);
    if v == 0 { BodyDecides(ok, b, 1, body); }
    if v == 0 || v > 4 { BodyDecides(ok, c, 2, body); }
  }

  lemma NumIsShort(n: u64)
    requires n < 0x1_0000
    ensures 1 <= |Num(n)| <= 3
  {
  }

  lemma VersionIsRead(v: u16, rest: seq<byte>)
    requires |rest| >= 2
    ensures RelayCbor.ReadArray(3, [0x83] + (Num(v) + rest)) == Ok(Num(v) + rest)
    ensures FrameFields.U16(FrameFields.Plain)(Num(v) + rest) == Ok((v, rest))
  {
    hide Num, RelayCbor.ReadArray, RelayCbor.Uint, RelayCbor.Head, RelayCbor.ReadBelow;
    PairHead();
    assert |Num(v)| >= 1 by { NumIsLong(v); }
    FrameFields.ArrayExact([0x83] + (Num(v) + rest), 3, Num(v) + rest);
    ItemBytes(v, [], []);
    FrameFields.BelowExact(0x1_0000, Num(v) + rest, v, rest);
  }

  /** A frame with anything behind it is refused for what is behind it. */
  lemma TrailingRefused(ok: Text -> bool, f: Frame, extra: seq<byte>)
    requires FrameExact.InBounds(ok, f) && FrameExact.Normal(f) == f && extra != []
    requires |Wire(f) + extra| <= if f.Wake? then 1024 else 0x10_1000
    ensures Decode(ok, Wire(f) + extra) == Err(FrameFields.Cbor(RelayCbor.TrailingBytes(|extra|)))
  {
    hide Wire, EncodeFrame, ReadBody, FrameExact.InBounds, FrameExact.Normal, BodyBytes, Tag, RelayCbor.ReadArray;
    hide FrameFields.U64, RelayCbor.Head, RelayCbor.Array, RelayCbor.Uint;
    var b, s1 := Wire(f) + extra, RelayCbor.Uint(Tag(f)) + (BodyBytes(f) + extra);
    FrameBytesWritten(f);
    FrameExact.EncodedExact(EncodeFrame(f), f);
    FrameExact.BodyLong(f);
    FrameExact.WakeTag(f);
    assert b == RelayCbor.Head(4, 2) + s1;
    FrameFields.ArrayExact(b, 2, s1);
    FrameExact.TagReads(s1, Tag(f), BodyBytes(f) + extra);
    FrameExact.BodyExact(ok, |b|, Tag(f), BodyBytes(f) + extra, f, extra);
  }
}
