/** The relay's frame set, and what holding a frame in a send queue costs. */
module Frames {
  import opened Octets

  const PROTOCOL_VERSION: u16 := 4
  const MIN_PROTOCOL_VERSION: u16 := 1
  const QUEUE_OVERHEAD: nat := 256

  datatype ErrorClass = Retry | Reject | Denied | Quota | Limit | Version

  datatype ErrorCode =
    | Backpressure | LockTimeout | Failover | PushBackpressure
    | MalformedHeader | NoncanonicalCbor | HashMismatch | EnvelopeTooLarge | UnknownRequiredField | PushHandleMalformed
    | PlaintextRefused | WriterNotInAccessSet | GroupUnknown | ServiceReadOnly | GroupFrozen | PushNotConfigured
    | WrapNotNewer
    | StorageExhausted | LogBudgetExhausted | RateLimited | SeatsExhausted | GroupIngressLimited
    | PushRegistrationRate
    | ProtocolUnsupported | BelowClientFloor

  datatype FrameError = FrameError(code: ErrorCode, retryAfter: Option<u32>, detail: Option<Blob>)

  datatype WakeBody =
    | Register(handle: Blob, categories: u8, expiresAt: u64)
    | Registered(until: u64)
    | Clear
    | Cleared
    | Query
    | Capability(enabled: bool, registerUrl: Text)

  datatype KeysBody =
    | Publish(packages: Vec<Blob>)
    | Published(remaining: u32)
    | Fetch(device: Blob, count: u8)
    | Bundles(bundles: Vec<Blob>)
    | ShelfEmpty

  datatype Frame =
    | Connect(version: u16, groups: Vec<Blob>, sentAt: u64)
    | ConnectAck(chosen: u16, serverTime: u64, minEnc: u8)
    | AuthChallenge(challenge: Blob)
    | Auth(deviceKey: Blob, signature: Blob)
    | AuthAck(keyPackagesRemaining: u32, writeMode: u8, buildDigest: Blob, accessSet: u8, minimumEnc: u8)
    | Access(access: Blob)
    | Sub(subGroup: Blob, fromSeq: u64)
    | SubAck(ackGroup: Blob, headSeq: u64)
    | Recon(reconGroup: Blob, recon: Blob)
    | Push(pushed: Blob)
    | Send(sent: Blob)
    | SendAck(hash: Blob, ackSeq: u64)
    | Blobs(blob: Blob)
    | Bye(reason: Blob)
    | Failed(error: FrameError)
    | Wrap(wrap: Blob)
    | Handshake(group: Blob, seqNo: u64, message: Blob)
    | Join(join: Blob)
    | Drop(drop: Blob)
    | Invite(invite: Blob)
    | Live(liveGroup: Blob, epoch: u64, ct: Blob)
    | Keys(keys: KeysBody)
    | Call(callId: Blob, callGroup: Blob, callEpoch: u64, kind: u8, body: Blob)
    | Media(mediaCall: Blob, stream: Blob, mediaSeq: u64, audio: Blob)
    | Wake(wake: WakeBody)

  function TotalLength(parts: seq<Blob>): nat {
    if |parts| == 0 then 0 else |parts[0]| + TotalLength(parts[1..])
  }

  function PayloadBytes(f: Frame): nat {
    match f
    case Push(b) => |b|
    case Send(b) => |b|
    case Handshake(_, _, b) => |b|
    case Recon(_, b) => |b|
    case Access(b) => |b|
    case Wrap(b) => |b|
    case Join(b) => |b|
    case Invite(b) => |b|
    case Blobs(b) => |b|
    case Connect(_, groups, _) => TotalLength(groups)
    case Live(_, _, b) => |b|
    case Call(_, _, _, _, b) => |b|
    case Media(_, _, _, b) => |b|
    case Keys(Publish(packages)) => TotalLength(packages)
    case Keys(Bundles(packages)) => TotalLength(packages)
    case Wake(Register(handle, _, _)) => |handle|
    case Wake(Capability(_, url)) => |url|
    case _ => 0
  }

  function QueuedBytes(f: Frame): nat { PayloadBytes(f) + QUEUE_OVERHEAD }
}
