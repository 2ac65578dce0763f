/** `agent.lifecycle`: what a host says happened to one invocation, and the presence rules its codec enforces. */
module AgentLifecycle {
  import opened Octets
  import opened AgentCbor
  import opened ValueTree
  import opened Payloads

  const INVOCATION_ID_WIDTH: nat := 16
  const RESULT_MESSAGE_ID_WIDTH: nat := 16
  const DETAIL_BYTE_LIMIT: nat := 512

  const SCHEMA: seq<u64> := [1, 2, 3, 4, 5, 6, 7, 8, 9, 10]
  /** The order `body_pairs` pushes, and the signature behind it. */
  const BODY: seq<u64> := [1, 2, 3, 4, 5, 6, 7, 8, 10]
  const SIGNED: seq<u64> := [1, 2, 3, 4, 5, 6, 7, 8, 10, 9]

  datatype State = Accepted | Running | Completed | Failed | Declined | Expired | Cancelled {
    function Number(): u64 {
      match this
      case Accepted => 1
      case Running => 2
      case Completed => 3
      case Failed => 4
      case Declined => 5
      case Expired => 6
      case Cancelled => 7
    }

    static function Parse(n: u64): Option<State> {
      if n == 1 then Some(Accepted)
      else if n == 2 then Some(Running)
      else if n == 3 then Some(Completed)
      else if n == 4 then Some(Failed)
      else if n == 5 then Some(Declined)
      else if n == 6 then Some(Expired)
      else if n == 7 then Some(Cancelled)
      else None
    }

    predicate RequiresReason() { Failed? || Declined? || Expired? }
  }

  datatype Phase = Claiming | Checkout | Planning | Editing | Testing | Pushing {
    function Name(): Text {
      match this
      case Claiming => Ascii("claiming")
      case Checkout => Ascii("checkout")
      case Planning => Ascii("planning")
      case Editing => Ascii("editing")
      case Testing => Ascii("testing")
      case Pushing => Ascii("pushing")
    }

    static function Parse(t: Text): Option<Phase> {
      if t == Ascii("claiming") then Some(Claiming)
      else if t == Ascii("checkout") then Some(Checkout)
      else if t == Ascii("planning") then Some(Planning)
      else if t == Ascii("editing") then Some(Editing)
      else if t == Ascii("testing") then Some(Testing)
      else if t == Ascii("pushing") then Some(Pushing)
      else None
    }
  }

  lemma StateNamed(n: u64, state: State)
    ensures State.Parse(n) == Some(state) <==> n == state.Number()
  {
  }

  /** The length and first two letters tell the phase names apart. */
  lemma PhaseLetters(phase: Phase)
    ensures var n := phase.Name();
            |n| >= 2 && (|n|, n[0] as char, n[1] as char) ==
              match phase
              case Claiming => (8, 'c', 'l')
              case Checkout => (8, 'c', 'h')
              case Planning => (8, 'p', 'l')
              case Editing => (7, 'e', 'd')
              case Testing => (7, 't', 'e')
              case Pushing => (7, 'p', 'u')
  {
  }

  lemma PhaseNamed(t: Text, phase: Phase)
    ensures Phase.Parse(t) == Some(phase) <==> t == phase.Name()
  {
    hide Ascii;
    forall q: Phase ensures q.Name() == phase.Name() ==> q == phase {
      PhaseLetters(q);
      PhaseLetters(phase);
    }
    assert Claiming.Name() == Ascii("claiming") && Checkout.Name() == Ascii("checkout");
    assert Planning.Name() == Ascii("planning") && Editing.Name() == Ascii("editing");
    assert Testing.Name() == Ascii("testing") && Pushing.Name() == Ascii("pushing");
  }

  /** Reasons a code run fails with; they are legal on `failed` alone. */
  function FailureReasons(): seq<Text> {
    [Ascii("branch.protected"), Ascii("config.untrusted"), Ascii("egress.refused"), Ascii("budget.reached"),
     Ascii("source.unsupported"), Ascii("patch.invalid"), Ascii("base.stale"), Ascii("tests.failed"),
     Ascii("github.auth"), Ascii("github.ratelimited"), Ascii("github.transport"), Ascii("runner.unavailable")]
  }

  /** The closed vocabulary, in the order the source lists it. */
  function Reasons(): seq<Text> {
    [Ascii("version.unsupported"), Ascii("profile.stale"), Ascii("scope.notmember"), Ascii("scope.unassigned"),
     Ascii("delegation.missing"), Ascii("delegation.expired"), Ascii("capability.denied"),
     Ascii("policy.remote.disabled"), Ascii("budget.rate"), Ascii("budget.cost"), Ascii("tool.tier"),
     Ascii("deadline.passed"), Ascii("host.offline"), Ascii("lease.notheld"), Ascii("agent.revoked"),
     Ascii("org.suspended"), Ascii("org.quota"), Ascii("provider.auth"), Ascii("provider.ratelimited"),
     Ascii("provider.overloaded"), Ascii("provider.badrequest"), Ascii("provider.context"),
     Ascii("provider.filtered"), Ascii("provider.model"), Ascii("provider.transport"),
     Ascii("provider.malformed"), Ascii("repo.unbound")]
    + FailureReasons()
    + [Ascii("handoff.orphan"), Ascii("handoff.depth")]
  }

  datatype Lifecycle = Lifecycle(
    v: u64, invocationId: Blob, state: State, at: u64, host: Blob,
    reason: Option<Text>, detail: Option<Text>, resultMessageId: Option<Blob>, phase: Option<Phase>, sig: Blob)

  datatype LifecycleError =
    | Cbor(cbor: CborError)
    | UnknownState(raw: u64)
    | UnknownReason(reason: Text)
    | ReasonMismatch(state: State, present: bool)
    | ResultMismatch(state: State, present: bool)
    | DetailTooLong(length: nat)
    | UnknownPhase(phase: Text)
    | PhaseMismatch(state: State, present: bool)

  function Lift<T>(r: Result<T, CborError>): Result<T, LifecycleError> {
    match r
    case Ok(v) => Ok(v)
    case Err(e) => Err(Cbor(e))
  }

  function Field(x: Lifecycle, k: u64): Option<Value> {
    if k == 1 then Some(UInt(x.v))
    else if k == 2 then Some(Str(x.invocationId))
    else if k == 3 then Some(UInt(x.state.Number()))
    else if k == 4 then Some(UInt(x.at))
    else if k == 5 then Some(Str(x.host))
    else if k == 6 then Tree(TextTree, x.reason)
    else if k == 7 then Tree(TextTree, x.detail)
    else if k == 8 then Tree(BytesTree, x.resultMessageId)
    else if k == 9 then Some(Str(x.sig))
    else if k == 10 then Tree(PhaseTree, x.phase)
    else None
  }

  function PhaseTree(phase: Phase): Value { Txt(phase.Name()) }

  function Fields(x: Lifecycle): u64 -> Option<Value> { (k: u64) => Field(x, k) }

  predicate ReasonIsLegal(state: State, reason: Text) {
    if reason == Ascii("repo.unbound") then state == Declined
    else if reason in FailureReasons() then state == Failed
    else state.RequiresReason()
  }

  predicate ReasonFits(state: State, reason: Option<Text>) {
    && state.RequiresReason() == reason.Some?
    && (reason.Some? ==> reason.value in Reasons() && ReasonIsLegal(state, reason.value))
  }

  /** What a record has to say to be readable and to mean something. */
  predicate Valid(x: Lifecycle) {
    && |x.invocationId| == INVOCATION_ID_WIDTH
    && ReasonFits(x.state, x.reason)
    && (x.phase.Some? ==> x.state == Running)
    && (x.detail.Some? ==> |x.detail.value| <= DETAIL_BYTE_LIMIT)
    && (x.state == Completed <==> x.resultMessageId.Some?)
    && (x.resultMessageId.Some? ==> |x.resultMessageId.value| == RESULT_MESSAGE_ID_WIDTH)
  }

  lemma KeysFit()
    ensures Distinct(BODY) && Distinct(SIGNED) && SameKeys(SIGNED, SCHEMA)
  {
  }

  lemma Encodable(x: Lifecycle)
    ensures DistinctKeys(Pairs(BODY, Fields(x))) && DistinctKeys(Pairs(SIGNED, Fields(x)))
  {
    hide Pairs, DistinctKeys, Field;
    KeysFit();
    PairsHold(BODY, Fields(x));
    PairsHold(SIGNED, Fields(x));
  }

  lemma FieldsAdmissible(x: Lifecycle, order: seq<u64>)
    ensures AllAdmissibleFields(order, Fields(x))
  {
  }

  function SigningInput(x: Lifecycle): seq<byte> {
    Encodable(x);
    Map(Pairs(BODY, Fields(x)))
  }

  function EncodeLifecycle(x: Lifecycle): seq<byte> {
    Encodable(x);
    Map(Pairs(SIGNED, Fields(x)))
  }

  // ------------------------------------------------------------------ decoding

  function ReadState(slots: Slots): Result<State, LifecycleError> {
    var raw :- Lift(InSlot(slots, 3, ReadUint));
    match State.Parse(raw)
    case Some(state) => Ok(state)
    case None => Err(UnknownState(raw))
  }

  function ReadReason(slots: Slots, state: State): Result<Option<Text>, LifecycleError> {
    var reason :- Lift(OptionalIn(slots, 6, ReadText));
    if reason.Some? && reason.value !in Reasons() then Err(UnknownReason(reason.value))
    else if state.RequiresReason() != reason.Some? then Err(ReasonMismatch(state, reason.Some?))
    else if reason.Some? && !ReasonIsLegal(state, reason.value) then Err(ReasonMismatch(state, true))
    else Ok(reason)
  }

  function ReadPhase(slots: Slots, state: State): Result<Option<Phase>, LifecycleError> {
    var raw :- Lift(OptionalIn(slots, 10, ReadText));
    if raw.None? then Ok(None) else
      match Phase.Parse(raw.value)
      case None => Err(UnknownPhase(raw.value))
      case Some(phase) => if state != Running then Err(PhaseMismatch(state, true)) else Ok(Some(phase))
  }

  function ReadDetail(slots: Slots): Result<Option<Text>, LifecycleError> {
    var detail :- Lift(OptionalIn(slots, 7, ReadText));
    if detail.Some? && |detail.value| > DETAIL_BYTE_LIMIT then Err(DetailTooLong(|detail.value|)) else Ok(detail)
  }

  function ReadResult(slots: Slots, state: State): Result<Option<Blob>, LifecycleError> {
    var id :- Lift(OptionalIn(slots, 8, BytesExactly(RESULT_MESSAGE_ID_WIDTH)));
    if (state == Completed) != id.Some? then Err(ResultMismatch(state, id.Some?)) else Ok(id)
  }

  function FromSlots(slots: Slots): Result<Lifecycle, LifecycleError> {
    var state :- ReadState(slots);
    var reason :- ReadReason(slots, state);
    var phase :- ReadPhase(slots, state);
    var detail :- ReadDetail(slots);
    var resultMessageId :- ReadResult(slots, state);
    Assemble(slots, state, reason, phase, detail, resultMessageId)
  }

  /** The slots read last, and the record they complete. */
  function Assemble(slots: Slots, state: State, reason: Option<Text>, phase: Option<Phase>, detail: Option<Text>,
                    resultMessageId: Option<Blob>): Result<Lifecycle, LifecycleError> {
    var v :- Lift(InSlot(slots, 1, ReadUint));
    var invocationId :- Lift(InSlot(slots, 2, BytesExactly(INVOCATION_ID_WIDTH)));
    var at :- Lift(InSlot(slots, 4, ReadUint));
    var host :- Lift(InSlot(slots, 5, ReadBytes));
    var sig :- Lift(InSlot(slots, 9, ReadBytes));
    Ok(Lifecycle(v, invocationId, state, at, host, reason, detail, resultMessageId, phase, sig))
  }

  function Decode(data: seq<byte>): Result<Lifecycle, LifecycleError> {
    var (slots, rest) :- Lift(ReadSchemaMap(data, SCHEMA));
    var _ :- Lift(RequireEnd(rest));
    FromSlots(slots)
  }

  // ----------------------------------------------------------------- exactness

  lemma StateExact(slots: Slots, state: State)
    ensures ReadState(slots) == Ok(state) <==> OptionalSlot(slots, 3) == Raw(Some(UInt(state.Number())))
  {
    hide InSlot, OptionalSlot, Raw;
    UintSlot(slots, 3, state.Number());
    if ReadState(slots) == Ok(state) { StateNamed(InSlot(slots, 3, ReadUint).value, state); }
  }

  lemma ReasonExact(slots: Slots, state: State, reason: Option<Text>)
    ensures ReadReason(slots, state) == Ok(reason)
            <==> ReasonFits(state, reason) && OptionalSlot(slots, 6) == Raw(Tree(TextTree, reason))
  {
    hide InSlot, OptionalIn, OptionalSlot, Raw, Reasons, ReasonIsLegal;
    OptionalTextSlot(slots, 6, reason);
  }

  lemma PhaseExact(slots: Slots, state: State, phase: Option<Phase>)
    ensures ReadPhase(slots, state) == Ok(phase)
            <==> (phase.Some? ==> state == Running) && OptionalSlot(slots, 10) == Raw(Tree(PhaseTree, phase))
  {
    hide InSlot, OptionalIn, OptionalSlot, Raw;
    var name: Option<Text> := if phase.Some? then Some(phase.value.Name()) else None;
    OptionalTextSlot(slots, 10, name);
    if phase.Some? {
      PhaseNamed(phase.value.Name(), phase.value);
      if ReadPhase(slots, state) == Ok(phase) {
        PhaseNamed(OptionalIn(slots, 10, ReadText).value.value, phase.value);
      }
    }
  }

  lemma DetailExact(slots: Slots, detail: Option<Text>)
    ensures ReadDetail(slots) == Ok(detail)
            <==> && (detail.Some? ==> |detail.value| <= DETAIL_BYTE_LIMIT)
                 && OptionalSlot(slots, 7) == Raw(Tree(TextTree, detail))
  {
    hide InSlot, OptionalIn, OptionalSlot, Raw;
    OptionalTextSlot(slots, 7, detail);
  }

  lemma ResultExact(slots: Slots, state: State, id: Option<Blob>)
    ensures ReadResult(slots, state) == Ok(id)
            <==> && (state == Completed <==> id.Some?)
                 && (id.Some? ==> |id.value| == RESULT_MESSAGE_ID_WIDTH)
                 && OptionalSlot(slots, 8) == Raw(Tree(BytesTree, id))
  {
    hide InSlot, OptionalIn, OptionalSlot, Raw, BytesExactly;
    OptionalBytesExactSlot(slots, 8, RESULT_MESSAGE_ID_WIDTH, id);
  }

  lemma AssembleExact(slots: Slots, state: State, reason: Option<Text>, phase: Option<Phase>, detail: Option<Text>,
                      id: Option<Blob>, x: Lifecycle)
    ensures Assemble(slots, state, reason, phase, detail, id) == Ok(x)
            <==> && state == x.state && reason == x.reason && phase == x.phase
                 && detail == x.detail && id == x.resultMessageId
                 && |x.invocationId| == INVOCATION_ID_WIDTH
                 && Carries(slots, [1, 2, 4, 5, 9], Fields(x))
  {
    hide InSlot, OptionalSlot, Raw, BytesExactly;
    UintSlot(slots, 1, x.v);
    BytesExactSlot(slots, 2, INVOCATION_ID_WIDTH, x.invocationId);
    UintSlot(slots, 4, x.at);
    BytesSlot(slots, 5, x.host);
    BytesSlot(slots, 9, x.sig);
  }

  lemma SlotsExact(slots: Slots, x: Lifecycle)
    ensures FromSlots(slots) == Ok(x) <==> Valid(x) && Carries(slots, SCHEMA, Fields(x))
  {
    hide OptionalSlot, Raw, Assemble, ReadState, ReadReason, ReadPhase, ReadDetail, ReadResult, Tree, ReasonFits;
    StateExact(slots, x.state);
    ReasonExact(slots, x.state, x.reason);
    PhaseExact(slots, x.state, x.phase);
    DetailExact(slots, x.detail);
    ResultExact(slots, x.state, x.resultMessageId);
    if FromSlots(slots) == Ok(x) {
      var state := ReadState(slots).value;
      var reason := ReadReason(slots, state).value;
      var phase := ReadPhase(slots, state).value;
      AssembleExact(slots, state, reason, phase, ReadDetail(slots).value, ReadResult(slots, state).value, x);
    }
    AssembleExact(slots, x.state, x.reason, x.phase, x.detail, x.resultMessageId, x);
  }

  /** A byte string decodes to a record exactly when it is that valid record's one encoding. */
  lemma LifecycleExact(data: seq<byte>, x: Lifecycle)
    ensures Decode(data) == Ok(x) <==> Valid(x) && data == EncodeLifecycle(x)
  {
    hide FromSlots, ReadSchemaMap, Map, Pairs, Field;
    KeysFit();
    if Decode(data) == Ok(x) {
      var slots := ReadSchemaMap(data, SCHEMA).value.0;
      SlotsExact(slots, x);
      FieldsWritten(data, SIGNED, SCHEMA, Fields(x), slots);
    }
    if Valid(x) && data == EncodeLifecycle(x) {
      FieldsAdmissible(x, SIGNED);
      var slots := SortByKey(Pairs(SIGNED, Fields(x)));
      FieldsRead(SIGNED, SCHEMA, Fields(x), slots);
      SlotsExact(slots, x);
    }
  }
}
