/** The closed capability vocabulary that cards and invokes share. */
module AgentCapability {
  import opened Octets

  datatype Capability = ChatReply | ReadChannel | ReadTicket | CodePullRequest | CiReport | ComputeRemote {
    function Name(): Text {
      match this
      case ChatReply => Ascii("chat.reply")
      case ReadChannel => Ascii("read.channel")
      case ReadTicket => Ascii("read.ticket")
      case CodePullRequest => Ascii("code.pullrequest")
      case CiReport => Ascii("ci.report")
      case ComputeRemote => Ascii("compute.remote")
    }

    static function Parse(t: Text): Option<Capability> {
      if t == Ascii("chat.reply") then Some(ChatReply)
      else if t == Ascii("read.channel") then Some(ReadChannel)
      else if t == Ascii("read.ticket") then Some(ReadTicket)
      else if t == Ascii("code.pullrequest") then Some(CodePullRequest)
      else if t == Ascii("ci.report") then Some(CiReport)
      else if t == Ascii("compute.remote") then Some(ComputeRemote)
      else None
    }
  }

  /** Parsing undoes naming, both ways: the lengths tell the names apart. */
  lemma CapabilityNamed(t: Text, c: Capability)
    ensures Capability.Parse(t) == Some(c) <==> t == c.Name()
  {
  }
}

/** `agent.invoke`: a request to an agent, and its all-or-none handoff. */
module AgentInvoke {
  import opened Octets
  import opened AgentCbor
  import opened ValueTree
  import opened Payloads
  import opened AgentCapability

  const INVOCATION_ID_WIDTH: nat := 16
  const IDEMPOTENCY_KEY_WIDTH: nat := 32
  const TARGET_AGENT_ID_WIDTH: nat := 32
  const SOURCE_MESSAGE_ID_WIDTH: nat := 16
  const SCOPE_WIDTH: nat := 32
  const THREAD_REF_WIDTH: nat := 16

  const SCHEMA: seq<u64> := [1, 2, 3, 4, 5, 6, 7, 8, 9, 10, 11, 12, 13, 14, 15, 16, 17, 18]
  /** The order `body_pairs` pushes, which is not key order, and the signature behind it. */
  const BODY: seq<u64> := [1, 2, 3, 4, 5, 6, 7, 8, 9, 14, 10, 11, 12, 15, 16, 17, 18]
  const SIGNED: seq<u64> := [1, 2, 3, 4, 5, 6, 7, 8, 9, 14, 10, 11, 12, 15, 16, 17, 18, 13]

  datatype Handoff = Handoff(parentInvocationId: Blob, hop: u64, delegator: Blob, delegatorSig: Blob)

  datatype Invoke = Invoke(
    v: u64, invocationId: Blob, idempotencyKey: Blob, targetAgentId: Blob, expectedProfileVersion: u64,
    sourceMessageId: Blob, scope: Blob, threadRef: Option<Blob>, ticketRef: Option<Text>, repoRef: Option<Text>,
    requester: Blob, capability: Capability, deadline: u64, sig: Blob, handoff: Option<Handoff>)

  datatype InvokeError =
    | Cbor(cbor: CborError)
    | UnknownCapability(name: Text)

  function Lift<T>(r: Result<T, CborError>): Result<T, InvokeError> {
    match r
    case Ok(v) => Ok(v)
    case Err(e) => Err(Cbor(e))
  }

  function Field(x: Invoke, k: u64): Option<Value> {
    if k == 1 then Some(UInt(x.v))
    else if k == 2 then Some(Str(x.invocationId))
    else if k == 3 then Some(Str(x.idempotencyKey))
    else if k == 4 then Some(Str(x.targetAgentId))
    else if k == 5 then Some(UInt(x.expectedProfileVersion))
    else if k == 6 then Some(Str(x.sourceMessageId))
    else if k == 7 then Some(Str(x.scope))
    else if k == 8 then Tree(BytesTree, x.threadRef)
    else if k == 9 then Tree(TextTree, x.ticketRef)
    else if k == 10 then Some(Str(x.requester))
    else if k == 11 then Some(Txt(x.capability.Name()))
    else if k == 12 then Some(UInt(x.deadline))
    else if k == 13 then Some(Str(x.sig))
    else if k == 14 then Tree(TextTree, x.repoRef)
    else HandoffField(x.handoff, k)
  }

  function HandoffField(h: Option<Handoff>, k: u64): Option<Value> {
    if h.None? then None
    else if k == 15 then Some(Str(h.value.parentInvocationId))
    else if k == 16 then Some(UInt(h.value.hop))
    else if k == 17 then Some(Str(h.value.delegator))
    else if k == 18 then Some(Str(h.value.delegatorSig))
    else None
  }

  function Fields(x: Invoke): u64 -> Option<Value> { (k: u64) => Field(x, k) }

  predicate HandoffFits(h: Option<Handoff>) {
    h.Some? ==> |h.value.parentInvocationId| == INVOCATION_ID_WIDTH
  }

  predicate Valid(x: Invoke) {
    && |x.invocationId| == INVOCATION_ID_WIDTH
    && |x.idempotencyKey| == IDEMPOTENCY_KEY_WIDTH
    && |x.targetAgentId| == TARGET_AGENT_ID_WIDTH
    && |x.sourceMessageId| == SOURCE_MESSAGE_ID_WIDTH
    && |x.scope| == SCOPE_WIDTH
    && (x.threadRef.Some? ==> |x.threadRef.value| == THREAD_REF_WIDTH)
    && HandoffFits(x.handoff)
  }

  lemma KeysFit()
    ensures Distinct(BODY) && Distinct(SIGNED) && SameKeys(SIGNED, SCHEMA)
  {
  }

  lemma Encodable(x: Invoke)
    ensures DistinctKeys(Pairs(BODY, Fields(x))) && DistinctKeys(Pairs(SIGNED, Fields(x)))
  {
    hide Pairs, DistinctKeys, Field;
    KeysFit();
    PairsHold(BODY, Fields(x));
    PairsHold(SIGNED, Fields(x));
  }

  lemma FieldsAdmissible(x: Invoke, order: seq<u64>)
    ensures AllAdmissibleFields(order, Fields(x))
  {
  }

  function SigningInput(x: Invoke): seq<byte> {
    Encodable(x);
    Map(Pairs(BODY, Fields(x)))
  }

  function EncodeInvoke(x: Invoke): seq<byte> {
    Encodable(x);
    Map(Pairs(SIGNED, Fields(x)))
  }

  // ------------------------------------------------------------------ decoding

  function ReadCapability(slots: Slots): Result<Capability, InvokeError> {
    var raw :- Lift(InSlot(slots, 11, ReadText));
    match Capability.Parse(raw)
    case Some(c) => Ok(c)
    case None => Err(UnknownCapability(raw))
  }

  predicate Present(slots: Slots, k: u64) { OptionalSlot(slots, k).Some? }

  /** The four handoff slots together, or none of them. */
  function ReadHandoff(slots: Slots): Result<Option<Handoff>, CborError> {
    if !Present(slots, 15) && !Present(slots, 16) && !Present(slots, 17) && !Present(slots, 18) then Ok(None)
    else if !Present(slots, 15) then Err(MissingKey(15))
    else if !Present(slots, 16) then Err(MissingKey(16))
    else if !Present(slots, 17) then Err(MissingKey(17))
    else if !Present(slots, 18) then Err(MissingKey(18))
    else
      var parent :- InSlot(slots, 15, BytesExactly(INVOCATION_ID_WIDTH));
      var hop :- InSlot(slots, 16, ReadUint);
      var delegator :- InSlot(slots, 17, ReadBytes);
      var delegatorSig :- InSlot(slots, 18, ReadBytes);
      Ok(Some(Handoff(parent, hop, delegator, delegatorSig)))
  }

  datatype Refs = Refs(threadRef: Option<Blob>, ticketRef: Option<Text>, repoRef: Option<Text>)

  function ReadRefs(slots: Slots): Result<Refs, CborError> {
    var threadRef :- OptionalIn(slots, 8, BytesExactly(THREAD_REF_WIDTH));
    var ticketRef :- OptionalIn(slots, 9, ReadText);
    var repoRef :- OptionalIn(slots, 14, ReadText);
    Ok(Refs(threadRef, ticketRef, repoRef))
  }

  datatype Ids = Ids(v: u64, invocationId: Blob, idempotencyKey: Blob, targetAgentId: Blob, expectedProfileVersion: u64)

  function ReadIds(slots: Slots): Result<Ids, CborError> {
    var v :- InSlot(slots, 1, ReadUint);
    var invocationId :- InSlot(slots, 2, BytesExactly(INVOCATION_ID_WIDTH));
    var idempotencyKey :- InSlot(slots, 3, BytesExactly(IDEMPOTENCY_KEY_WIDTH));
    var targetAgentId :- InSlot(slots, 4, BytesExactly(TARGET_AGENT_ID_WIDTH));
    var expectedProfileVersion :- InSlot(slots, 5, ReadUint);
    Ok(Ids(v, invocationId, idempotencyKey, targetAgentId, expectedProfileVersion))
  }

  datatype Late = Late(sourceMessageId: Blob, scope: Blob, requester: Blob, deadline: u64, sig: Blob)

  function ReadLate(slots: Slots): Result<Late, CborError> {
    var sourceMessageId :- InSlot(slots, 6, BytesExactly(SOURCE_MESSAGE_ID_WIDTH));
    var scope :- InSlot(slots, 7, BytesExactly(SCOPE_WIDTH));
    var requester :- InSlot(slots, 10, ReadBytes);
    var deadline :- InSlot(slots, 12, ReadUint);
    var sig :- InSlot(slots, 13, ReadBytes);
    Ok(Late(sourceMessageId, scope, requester, deadline, sig))
  }

  function FromSlots(slots: Slots): Result<Invoke, InvokeError> {
    var capability :- ReadCapability(slots);
    var r :- Lift(ReadRefs(slots));
    var handoff :- Lift(ReadHandoff(slots));
    var i :- Lift(ReadIds(slots));
    var l :- Lift(ReadLate(slots));
    Ok(Invoke(i.v, i.invocationId, i.idempotencyKey, i.targetAgentId, i.expectedProfileVersion,
              l.sourceMessageId, l.scope, r.threadRef, r.ticketRef, r.repoRef,
              l.requester, capability, l.deadline, l.sig, handoff))
  }

  function Decode(data: seq<byte>): Result<Invoke, InvokeError> {
    var (slots, rest) :- Lift(ReadSchemaMap(data, SCHEMA));
    var _ :- Lift(RequireEnd(rest));
    FromSlots(slots)
  }

  // ----------------------------------------------------------------- exactness

  lemma CapabilityExact(slots: Slots, c: Capability)
    ensures ReadCapability(slots) == Ok(c) <==> OptionalSlot(slots, 11) == Raw(Some(Txt(c.Name())))
  {
    hide InSlot, OptionalSlot, Raw;
    TextSlot(slots, 11, c.Name());
    CapabilityNamed(c.Name(), c);
    if ReadCapability(slots) == Ok(c) { CapabilityNamed(InSlot(slots, 11, ReadText).value, c); }
  }

  lemma HandoffExact(slots: Slots, h: Option<Handoff>)
    ensures ReadHandoff(slots) == Ok(h)
            <==> HandoffFits(h) && Carries(slots, [15, 16, 17, 18], (k: u64) => HandoffField(h, k))
  {
    hide InSlot, OptionalSlot, BytesExactly, Encode;
    if h.Some? {
      BytesExactSlot(slots, 15, INVOCATION_ID_WIDTH, h.value.parentInvocationId);
      UintSlot(slots, 16, h.value.hop);
      BytesSlot(slots, 17, h.value.delegator);
      BytesSlot(slots, 18, h.value.delegatorSig);
    }
  }

  lemma RefsExact(slots: Slots, x: Invoke)
    ensures ReadRefs(slots) == Ok(Refs(x.threadRef, x.ticketRef, x.repoRef))
            <==> && (x.threadRef.Some? ==> |x.threadRef.value| == THREAD_REF_WIDTH)
                 && Carries(slots, [8, 9, 14], Fields(x))
  {
    hide InSlot, OptionalIn, OptionalSlot, Raw, BytesExactly, Tree, HandoffField;
    OptionalBytesExactSlot(slots, 8, THREAD_REF_WIDTH, x.threadRef);
    OptionalTextSlot(slots, 9, x.ticketRef);
    OptionalTextSlot(slots, 14, x.repoRef);
  }

  lemma IdsExact(slots: Slots, x: Invoke)
    ensures ReadIds(slots) == Ok(Ids(x.v, x.invocationId, x.idempotencyKey, x.targetAgentId, x.expectedProfileVersion))
            <==> && |x.invocationId| == INVOCATION_ID_WIDTH
                 && |x.idempotencyKey| == IDEMPOTENCY_KEY_WIDTH
                 && |x.targetAgentId| == TARGET_AGENT_ID_WIDTH
                 && Carries(slots, [1, 2, 3, 4, 5], Fields(x))
  {
    hide InSlot, OptionalSlot, Raw, BytesExactly;
    UintSlot(slots, 1, x.v);
    BytesExactSlot(slots, 2, INVOCATION_ID_WIDTH, x.invocationId);
    BytesExactSlot(slots, 3, IDEMPOTENCY_KEY_WIDTH, x.idempotencyKey);
    BytesExactSlot(slots, 4, TARGET_AGENT_ID_WIDTH, x.targetAgentId);
    UintSlot(slots, 5, x.expectedProfileVersion);
  }

  lemma LateExact(slots: Slots, x: Invoke)
    ensures ReadLate(slots) == Ok(Late(x.sourceMessageId, x.scope, x.requester, x.deadline, x.sig))
            <==> && |x.sourceMessageId| == SOURCE_MESSAGE_ID_WIDTH
                 && |x.scope| == SCOPE_WIDTH
                 && Carries(slots, [6, 7, 10, 12, 13], Fields(x))
  {
    hide InSlot, OptionalSlot, Raw, BytesExactly;
    BytesExactSlot(slots, 6, SOURCE_MESSAGE_ID_WIDTH, x.sourceMessageId);
    BytesExactSlot(slots, 7, SCOPE_WIDTH, x.scope);
    BytesSlot(slots, 10, x.requester);
    UintSlot(slots, 12, x.deadline);
    BytesSlot(slots, 13, x.sig);
  }

  lemma SchemaInParts(slots: Slots, fields: u64 -> Option<Value>)
    ensures Carries(slots, SCHEMA, fields) <==>
            && Carries(slots, [1, 2, 3, 4, 5], fields) && Carries(slots, [6, 7, 10, 12, 13], fields)
            && Carries(slots, [8, 9, 14], fields) && OptionalSlot(slots, 11) == Raw(fields(11))
            && Carries(slots, [15, 16, 17, 18], fields)
  {
    hide OptionalSlot, Raw;
    if Carries(slots, SCHEMA, fields) { assert 11 in SCHEMA; }
  }

  lemma HandoffCarried(slots: Slots, x: Invoke)
    ensures Carries(slots, [15, 16, 17, 18], Fields(x))
            <==> Carries(slots, [15, 16, 17, 18], (k: u64) => HandoffField(x.handoff, k))
  {
    hide OptionalSlot, Raw, HandoffField;
  }

  lemma SlotsExact(slots: Slots, x: Invoke)
    ensures FromSlots(slots) == Ok(x) <==> Valid(x) && Carries(slots, SCHEMA, Fields(x))
  {
    hide OptionalSlot, Raw, ReadCapability, ReadRefs, ReadHandoff, ReadIds, ReadLate, HandoffField, Carries;
    CapabilityExact(slots, x.capability);
    RefsExact(slots, x);
    HandoffExact(slots, x.handoff);
    HandoffCarried(slots, x);
    IdsExact(slots, x);
    LateExact(slots, x);
    SchemaInParts(slots, Fields(x));
  }

  /** A byte string decodes to an invoke exactly when it is that valid invoke's one encoding. */
  lemma InvokeExact(data: seq<byte>, x: Invoke)
    ensures Decode(data) == Ok(x) <==> Valid(x) && data == EncodeInvoke(x)
  {
    hide FromSlots, ReadSchemaMap, Map, Pairs, Field;
    KeysFit();
    if Decode(data) == Ok(x) {
      var slots := ReadSchemaMap(data, SCHEMA).value.0;
      SlotsExact(slots, x);
      FieldsWritten(data, SIGNED, SCHEMA, Fields(x), slots);
    }
    if Valid(x) && data == EncodeInvoke(x) {
      FieldsAdmissible(x, SIGNED);
      var slots := SortByKey(Pairs(SIGNED, Fields(x)));
      FieldsRead(SIGNED, SCHEMA, Fields(x), slots);
      SlotsExact(slots, x);
    }
  }
}
