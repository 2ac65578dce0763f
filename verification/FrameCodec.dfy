/** The frame codec: `[tag, [fields...]]`, as written and as read. */
module FrameCodec {
  import opened Octets
  import opened Frames
  import opened RelayCbor
  import opened FrameFields

  const MAX_FRAME_BYTES: nat := 0x10_0000 + 4096
  const MAX_WAKE_BYTES: nat := 1024
  const HANDLE_BYTES: nat := 16
  const MAX_REGISTER_URL_BYTES: nat := 512
  const CALL_ID_BYTES: nat := 16
  const STREAM_BYTES: nat := 4

  // ----------------------------------------------------------------- vocabulary

  function Class(c: ErrorCode): ErrorClass {
    match c
    case Backpressure => Retry
    case LockTimeout => Retry
    case Failover => Retry
    case PushBackpressure => Retry
    case MalformedHeader => Reject
    case NoncanonicalCbor => Reject
    case HashMismatch => Reject
    case EnvelopeTooLarge => Reject
    case UnknownRequiredField => Reject
    case PushHandleMalformed => Reject
    case PlaintextRefused => Denied
    case WriterNotInAccessSet => Denied
    case GroupUnknown => Denied
    case ServiceReadOnly => Denied
    case GroupFrozen => Denied
    case WrapNotNewer => Denied
    case PushNotConfigured => Denied
    case StorageExhausted => Quota
    case LogBudgetExhausted => Quota
    case RateLimited => Quota
    case SeatsExhausted => Quota
    case GroupIngressLimited => Quota
    case PushRegistrationRate => Limit
    case ProtocolUnsupported => ErrorClass.Version
    case BelowClientFloor => ErrorClass.Version
  }

  function ClassName(c: ErrorClass): Text {
    match c
    case Retry => Ascii("retry")
    case Reject => Ascii("reject")
    case Denied => Ascii("denied")
    case Quota => Ascii("quota")
    case Version => Ascii("version")
    case Limit => Ascii("limit")
  }

  function RetryName(c: ErrorCode): Text
    requires Class(c) == Retry
  {
    match c
    case Backpressure => Ascii("backpressure")
    case LockTimeout => Ascii("lock_timeout")
    case Failover => Ascii("failover")
    case PushBackpressure => Ascii("push_backpressure")
  }

  function RejectName(c: ErrorCode): Text
    requires Class(c) == Reject
  {
    match c
    case MalformedHeader => Ascii("malformed_header")
    case NoncanonicalCbor => Ascii("noncanonical_cbor")
    case HashMismatch => Ascii("hash_mismatch")
    case EnvelopeTooLarge => Ascii("envelope_too_large")
    case UnknownRequiredField => Ascii("unknown_required_field")
    case PushHandleMalformed => Ascii("push_handle_malformed")
  }

  function DeniedName(c: ErrorCode): Text
    requires Class(c) == Denied
  {
    match c
    case PlaintextRefused => Ascii("plaintext_refused")
    case WriterNotInAccessSet => Ascii("writer_not_in_access_set")
    case GroupUnknown => Ascii("group_unknown")
    case ServiceReadOnly => Ascii("service_read_only")
    case GroupFrozen => Ascii("group_frozen")
    case WrapNotNewer => Ascii("wrap_not_newer")
    case PushNotConfigured => Ascii("push_not_configured")
  }

  function QuotaName(c: ErrorCode): Text
    requires Class(c) == Quota
  {
    match c
    case StorageExhausted => Ascii("storage_exhausted")
    case LogBudgetExhausted => Ascii("log_budget_exhausted")
    case RateLimited => Ascii("rate_limited")
    case SeatsExhausted => Ascii("seats_exhausted")
    case GroupIngressLimited => Ascii("group_ingress_limited")
  }

  /** The stable string of each code, listed by class. */
  function CodeName(c: ErrorCode): Text {
    match Class(c)
    case Retry => RetryName(c)
    case Reject => RejectName(c)
    case Denied => DeniedName(c)
    case Quota => QuotaName(c)
    case Limit => Ascii("push_registration_rate")
    case Version => if c == ProtocolUnsupported then Ascii("protocol_unsupported") else Ascii("below_client_floor")
  }

  const ALL_CODES: seq<ErrorCode> := [
    Backpressure, LockTimeout, Failover, PushBackpressure,
    MalformedHeader, NoncanonicalCbor, HashMismatch, EnvelopeTooLarge, UnknownRequiredField, PushHandleMalformed,
    PlaintextRefused, WriterNotInAccessSet, GroupUnknown, ServiceReadOnly, GroupFrozen, PushNotConfigured, WrapNotNewer,
    StorageExhausted, LogBudgetExhausted, RateLimited, SeatsExhausted, GroupIngressLimited,
    PushRegistrationRate, ProtocolUnsupported, BelowClientFloor]

  predicate Spelled(c: ErrorCode, name: Blob, class_: Blob) { CodeName(c) == name && ClassName(Class(c)) == class_ }

  function FindCode(codes: seq<ErrorCode>, name: Blob, class_: Blob): Option<ErrorCode> {
    if |codes| == 0 then None
    else if Spelled(codes[0], name, class_) then Some(codes[0])
    else FindCode(codes[1..], name, class_)
  }

  function Tag(f: Frame): u16 {
    match f
    case Connect(_, _, _) => 1
    case ConnectAck(_, _, _) => 2
    case AuthChallenge(_) => 3
    case Auth(_, _) => 4
    case AuthAck(_, _, _, _, _) => 5
    case Access(_) => 6
    case Sub(_, _) => 7
    case SubAck(_, _) => 8
    case Recon(_, _) => 9
    case Push(_) => 10
    case Send(_) => 11
    case SendAck(_, _) => 12
    case Blobs(_) => 13
    case Bye(_) => 14
    case Failed(_) => 15
    case Wrap(_) => 16
    case Handshake(_, _, _) => 17
    case Join(_) => 18
    case Drop(_) => 19
    case Invite(_) => 20
    case Live(_, _, _) => 21
    case Keys(_) => 22
    case Call(_, _, _, _, _) => 23
    case Media(_, _, _, _) => 24
    case Wake(_) => 25
  }

  function KeysForm(b: KeysBody): u8 {
    match b
    case Publish(_) => 1
    case Published(_) => 2
    case Fetch(_, _) => 3
    case Bundles(_) => 4
    case ShelfEmpty => 5
  }

  function WakeForm(b: WakeBody): u8 {
    match b
    case Register(_, _, _) => 1
    case Registered(_) => 2
    case Clear => 3
    case Cleared => 4
    case Query => 5
    case Capability(_, _) => 6
  }

  // ------------------------------------------------------------------- encoding

  function ByteStrings(parts: seq<Blob>): seq<seq<byte>> {
    if |parts| == 0 then [] else [Bytes(parts[0])] + ByteStrings(parts[1..])
  }

  function KeysBytes(b: KeysBody): seq<byte> {
    match b
    case Publish(packages) => Array(ByteStrings(packages))
    case Bundles(packages) => Array(ByteStrings(packages))
    case Published(remaining) => Array([Uint(remaining)])
    case Fetch(device, count) => Array([Bytes(device), Uint(count)])
    case ShelfEmpty => Array([])
  }

  function WakeBytes(b: WakeBody): seq<byte> {
    match b
    case Register(handle, categories, expiresAt) => Array([Bytes(handle), Uint(categories), Uint(expiresAt)])
    case Registered(until) => Array([Uint(until)])
    case Clear => Array([])
    case Cleared => Array([])
    case Query => Array([])
    case Capability(enabled, url) => Array([Boolean(enabled), TextString(url)])
  }

  function ErrorBytes(e: FrameError): seq<byte> {
    Array([Bytes(ClassName(Class(e.code))), Bytes(CodeName(e.code)),
           Uint(if e.retryAfter.Some? then e.retryAfter.value else 0),
           Bytes(if e.detail.Some? then e.detail.value else [])])
  }

  function BodyBytes(f: Frame): seq<byte> {
    match f
    case Connect(version, groups, sentAt) => Array([Uint(version), Array(ByteStrings(groups)), Uint(sentAt)])
    case ConnectAck(version, serverTime, minEnc) => Array([Uint(version), Uint(serverTime), Uint(minEnc)])
    case AuthChallenge(b) => Array([Bytes(b)])
    case Auth(key, signature) => Array([Bytes(key), Bytes(signature)])
    case AuthAck(left, mode, digest, accessSet, minEnc) =>
      Array([Uint(left), Uint(mode), Bytes(digest), Uint(accessSet), Uint(minEnc)])
    case Access(b) => Array([Bytes(b)])
    case Sub(g, n) => Array([Bytes(g), Uint(n)])
    case SubAck(g, n) => Array([Bytes(g), Uint(n)])
    case Recon(g, b) => Array([Bytes(g), Bytes(b)])
    case Push(b) => Array([Bytes(b)])
    case Send(b) => Array([Bytes(b)])
    case SendAck(h, n) => Array([Bytes(h), Uint(n)])
    case Blobs(b) => Array([Bytes(b)])
    case Bye(b) => Array([Bytes(b)])
    case Failed(e) => ErrorBytes(e)
    case Wrap(b) => Array([Bytes(b)])
    case Handshake(g, n, b) => Array([Bytes(g), Uint(n), Bytes(b)])
    case Join(b) => Array([Bytes(b)])
    case Drop(b) => Array([Bytes(b)])
    case Invite(b) => Array([Bytes(b)])
    case Live(g, n, b) => Array([Bytes(g), Uint(n), Bytes(b)])
    case Keys(b) => Array([Uint(KeysForm(b)), KeysBytes(b)])
    case Call(id, g, n, kind, b) => Array([Bytes(id), Bytes(g), Uint(n), Uint(kind), Bytes(b)])
    case Media(id, stream, n, b) => Array([Bytes(id), Bytes(stream), Uint(n), Bytes(b)])
    case Wake(b) => Array([Uint(WakeForm(b)), WakeBytes(b)])
  }

  function EncodeFrame(f: Frame): seq<byte> { Array([Uint(Tag(f)), BodyBytes(f)]) }

  // ------------------------------------------------------------------- decoding

  function Refuse<T>(e: FrameDecodeError): T -> FrameDecodeError { (_: T) => e }

  function BadVersion(v: u16): FrameDecodeError { UnsupportedVersion(v) }

  predicate AtLeastMinimum(v: u16) { v >= MIN_PROTOCOL_VERSION }

  predicate Spoken(v: u16) { MIN_PROTOCOL_VERSION <= v <= PROTOCOL_VERSION }

  /** At least one bit, and none above the three categories. */
  predicate ValidMask(mask: u8) { 0 < mask <= 7 }

  function OneBlob(): seq<byte> -> Reading<Blob> { Items(Plain, 1, BytesField(Plain)) }

  function Keyed(): seq<byte> -> Reading<(Blob, u64)> { Items(Plain, 2, Both(BytesOf(32), U64(Plain))) }

  function KeyedPayload(): seq<byte> -> Reading<(Blob, (u64, Blob))> {
    Items(Plain, 3, Both(BytesOf(32), Both(U64(Plain), BytesField(Plain))))
  }

  function ConnectFields(): seq<byte> -> Reading<(u16, (Vec<Blob>, u64))> {
    Items(Plain, 3, Both(Where(U16(Plain), AtLeastMinimum, BadVersion), Both(ListOf(BytesOf(32)), U64(Plain))))
  }

  function ConnectAckFields(): seq<byte> -> Reading<(u16, (u64, u8))> {
    Items(Plain, 3, Both(Where(U16(Plain), Spoken, BadVersion), Both(U64(Plain), U8(Plain))))
  }

  function AuthFields(): seq<byte> -> Reading<(Blob, Blob)> { Items(Plain, 2, Both(BytesOf(32), BytesOf(64))) }

  function AuthAckFields(): seq<byte> -> Reading<(u32, (u8, (Blob, (u8, u8))))> {
    Items(Plain, 5, Both(U32(Plain), Both(U8(Plain), Both(BytesField(Plain), Both(U8(Plain), U8(Plain))))))
  }

  function ReconFields(): seq<byte> -> Reading<(Blob, Blob)> { Items(Plain, 2, Both(BytesOf(32), BytesField(Plain))) }

  function CallFields(): seq<byte> -> Reading<(Blob, (Blob, (u64, (u8, Blob))))> {
    Items(Plain, 5, Both(BytesOf(CALL_ID_BYTES),
        Both(BytesOf(32), Both(U64(Plain), Both(U8(Plain), BytesField(Plain))))))
  }

  function MediaFields(): seq<byte> -> Reading<(Blob, (Blob, (u64, Blob)))> {
    Items(Plain, 4, Both(BytesOf(CALL_ID_BYTES), Both(BytesOf(STREAM_BYTES), Both(U64(Plain), BytesField(Plain)))))
  }

  function ErrorFields(): seq<byte> -> Reading<(Blob, (Blob, (u32, Blob)))> {
    Items(Plain, 4, Both(BytesField(Plain), Both(BytesField(Plain), Both(U32(Plain), BytesField(Plain)))))
  }

  function ReadError(s: seq<byte>): Reading<Frame> {
    var ((class_, (code, (retry, detail))), rest) :- ErrorFields()(s);
    match FindCode(ALL_CODES, code, class_)
    case None => Err(BadField("code"))
    case Some(c) =>
      Ok((Failed(FrameError(c, if retry > 0 then Some(retry) else None, if detail != [] then Some(detail) else None)),
          rest))
  }

  function ReadKeysForm(form: u8, s: seq<byte>): Reading<KeysBody> {
    if form == 1 then
      var (packages, rest) :- ListOf(BytesField(Plain))(s);
      Ok((Publish(packages), rest))
    else if form == 4 then
      var (packages, rest) :- ListOf(BytesField(Plain))(s);
      Ok((Bundles(packages), rest))
    else if form == 2 then
      var (remaining, rest) :- Items(Plain, 1, U32(Plain))(s);
      Ok((Published(remaining), rest))
    else if form == 3 then
      var ((device, count), rest) :- Items(Plain, 2, Both(BytesOf(32), U8(Plain)))(s);
      Ok((Fetch(device, count), rest))
    else if form == 5 then
      var (_, rest) :- Items(Plain, 0, Nothing)(s);
      Ok((ShelfEmpty, rest))
    else Err(BadField("form"))
  }

  function ReadKeys(s: seq<byte>): Reading<Frame> {
    match ReadArray(2, s)
    case Err(e) => Err(Cbor(e))
    case Ok(s1) =>
      var (form, s2) :- U8(Plain)(s1);
      var (body, rest) :- ReadKeysForm(form, s2);
      Ok((Keys(body), rest))
  }

  function RegisterFields(): seq<byte> -> Reading<(Blob, (u8, u64))> {
    Items(WakeShape("register"), 3,
          Both(Where(BytesField(WakeShape("handle")), Wide(HANDLE_BYTES), Refuse(BadWakeField("handle"))),
               Both(Where(U8(WakeShape("categories")), ValidMask, Refuse(BadWakeField("categories"))),
                    U64(WakeShape("expires_at")))))
  }

  /** A url a client would take: short enough, and what the configuration rule accepts. */
  function GoodUrl(acceptable: Text -> bool): Text -> bool {
    (t: Text) => |t| <= MAX_REGISTER_URL_BYTES && acceptable(t)
  }

  function CapabilityFields(acceptable: Text -> bool): seq<byte> -> Reading<(bool, Text)> {
    Items(WakeShape("capability"), 2,
          Both(BoolField(WakeShape("enabled")),
               Where(TextField(WakeShape("register_url")), GoodUrl(acceptable), Refuse(BadWakeField("register_url")))))
  }

  function ReadWakeForm(acceptable: Text -> bool, form: u8, s: seq<byte>): Reading<WakeBody> {
    if form == 1 then
      var ((handle, (categories, expiresAt)), rest) :- RegisterFields()(s);
      Ok((Register(handle, categories, expiresAt), rest))
    else if form == 2 then
      var (until, rest) :- Items(WakeShape("registered"), 1, U64(WakeShape("expires_at")))(s);
      Ok((Registered(until), rest))
    else if 3 <= form <= 5 then
      var (_, rest) :- Items(WakeShape("fields"), 0, Nothing)(s);
      Ok((if form == 3 then Clear else if form == 4 then Cleared else Query, rest))
    else if form == 6 then
      var ((enabled, url), rest) :- CapabilityFields(acceptable)(s);
      Ok((Capability(enabled, url), rest))
    else Err(BadField("form"))
  }

  function ReadWake(acceptable: Text -> bool, size: nat, s: seq<byte>): Reading<Frame> {
    if size > MAX_WAKE_BYTES then Err(TooLargeWake(size)) else
      match ReadArray(2, s)
      case Err(e) => Err(WakeShape("wake")(e))
      case Ok(s1) =>
        var (form, s2) :- U8(WakeShape("form"))(s1);
        var (body, rest) :- ReadWakeForm(acceptable, form, s2);
        Ok((Wake(body), rest))
  }

  /** The frames whose whole body is one byte string. */
  function OfOne(tag: u16, b: Blob): Option<Frame> {
    if tag == 3 then Some(AuthChallenge(b))
    else if tag == 6 then Some(Access(b))
    else if tag == 10 then Some(Push(b))
    else if tag == 11 then Some(Send(b))
    else if tag == 13 then Some(Blobs(b))
    else if tag == 14 then Some(Bye(b))
    else if tag == 16 then Some(Wrap(b))
    else if tag == 18 then Some(Join(b))
    else if tag == 19 then Some(Drop(b))
    else if tag == 20 then Some(Invite(b))
    else None
  }

  function ReadConnect(s: seq<byte>): Reading<Frame> {
    var ((version, (groups, sentAt)), rest) :- ConnectFields()(s);
    Ok((Connect(version, groups, sentAt), rest))
  }

  function ReadConnectAck(s: seq<byte>): Reading<Frame> {
    var ((version, (serverTime, minEnc)), rest) :- ConnectAckFields()(s);
    Ok((ConnectAck(version, serverTime, minEnc), rest))
  }

  function ReadAuth(s: seq<byte>): Reading<Frame> {
    var ((key, signature), rest) :- AuthFields()(s);
    Ok((Auth(key, signature), rest))
  }

  function ReadAuthAck(s: seq<byte>): Reading<Frame> {
    var ((left, (mode, (digest, (accessSet, minEnc)))), rest) :- AuthAckFields()(s);
    Ok((AuthAck(left, mode, digest, accessSet, minEnc), rest))
  }

  function ReadRecon(s: seq<byte>): Reading<Frame> {
    var ((g, b), rest) :- ReconFields()(s);
    Ok((Recon(g, b), rest))
  }

  function ReadCall(s: seq<byte>): Reading<Frame> {
    var ((id, (g, (n, (kind, b)))), rest) :- CallFields()(s);
    Ok((Call(id, g, n, kind, b), rest))
  }

  function ReadMedia(s: seq<byte>): Reading<Frame> {
    var ((id, (stream, (n, b))), rest) :- MediaFields()(s);
    Ok((Media(id, stream, n, b), rest))
  }

  /** `SUB`, `SUB_ACK` and `SEND_ACK`. */
  function ReadKeyed(tag: u16, s: seq<byte>): Reading<Frame> {
    var ((g, n), rest) :- Keyed()(s);
    Ok((if tag == 7 then Sub(g, n) else if tag == 8 then SubAck(g, n) else SendAck(g, n), rest))
  }

  /** `HANDSHAKE` and `LIVE`. */
  function ReadKeyedPayload(tag: u16, s: seq<byte>): Reading<Frame> {
    var ((g, (n, b)), rest) :- KeyedPayload()(s);
    Ok((if tag == 17 then Handshake(g, n, b) else Live(g, n, b), rest))
  }

  function ReadOne(tag: u16, s: seq<byte>): Reading<Frame> {
    var (b, rest) :- OneBlob()(s);
    match OfOne(tag, b)
    case None => Err(UnknownTag(tag))
    case Some(f) => Ok((f, rest))
  }

  function ReadBody(acceptable: Text -> bool, size: nat, tag: u16, s: seq<byte>): Reading<Frame> {
    if tag == 1 then ReadConnect(s)
    else if tag == 2 then ReadConnectAck(s)
    else if tag == 4 then ReadAuth(s)
    else if tag == 5 then ReadAuthAck(s)
    else if tag == 7 || tag == 8 || tag == 12 then ReadKeyed(tag, s)
    else if tag == 9 then ReadRecon(s)
    else if tag == 15 then ReadError(s)
    else if tag == 17 || tag == 21 then ReadKeyedPayload(tag, s)
    else if tag == 22 then ReadKeys(s)
    else if tag == 23 then ReadCall(s)
    else if tag == 24 then ReadMedia(s)
    else if tag == 25 then ReadWake(acceptable, size, s)
    else ReadOne(tag, s)
  }

  function Clamped(n: u64): u16 { if n < 0x1_0000 then n else 0xFFFF }

  predicate IsTag(n: nat) { 1 <= n <= 25 }

  /** `acceptable` is the rule for a ringer url that the configuration applies. */
  function Decode(acceptable: Text -> bool, bytes: seq<byte>): Result<Frame, FrameDecodeError> {
    if |bytes| > MAX_FRAME_BYTES then Err(TooLarge(|bytes|)) else
      match ReadArray(2, bytes)
      case Err(e) => Err(Cbor(e))
      case Ok(s1) =>
        var (raw, s2) :- U64(Plain)(s1);
        if !IsTag(raw) then Err(UnknownTag(Clamped(raw))) else
          var (frame, rest) :- ReadBody(acceptable, |bytes|, raw, s2);
          match Finish(rest)
          case Err(e) => Err(Cbor(e))
          case Ok(_) => Ok(frame)
  }
}
