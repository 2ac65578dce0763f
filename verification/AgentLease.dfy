/** `agent.lease`: one record of who holds an agent, and for how long. */
module AgentLease {
  import opened Octets
  import opened AgentCbor
  import opened ValueTree
  import opened Payloads

  const AGENT_ID_WIDTH: nat := 32

  const SCHEMA: seq<u64> := [1, 2, 3, 4, 5, 6, 7]
  /** The order `lease_body_pairs` pushes, and the signature behind it. */
  const BODY: seq<u64> := [1, 2, 3, 4, 5, 6]
  const SIGNED: seq<u64> := [1, 2, 3, 4, 5, 6, 7]

  datatype Lease = Lease(
    v: u64, agentId: Blob, holder: Blob, epoch: u64, acquiredAt: u64, expiresAt: u64, sig: Blob)

  datatype LeaseError =
    | Cbor(cbor: CborError)
    | EmptyWindow(acquiredAt: u64, expiresAt: u64)

  function Lift<T>(r: Result<T, CborError>): Result<T, LeaseError> {
    match r
    case Ok(v) => Ok(v)
    case Err(e) => Err(Cbor(e))
  }

  function Field(lease: Lease, k: u64): Option<Value> {
    if k == 1 then Some(UInt(lease.v))
    else if k == 2 then Some(Str(lease.agentId))
    else if k == 3 then Some(Str(lease.holder))
    else if k == 4 then Some(UInt(lease.epoch))
    else if k == 5 then Some(UInt(lease.acquiredAt))
    else if k == 6 then Some(UInt(lease.expiresAt))
    else if k == 7 then Some(Str(lease.sig))
    else None
  }

  function Fields(lease: Lease): u64 -> Option<Value> { (k: u64) => Field(lease, k) }

  predicate Valid(lease: Lease) {
    |lease.agentId| == AGENT_ID_WIDTH && lease.acquiredAt < lease.expiresAt
  }

  lemma KeysFit()
    ensures Distinct(BODY) && Distinct(SIGNED) && SameKeys(SIGNED, SCHEMA)
  {
  }

  lemma Encodable(lease: Lease)
    ensures DistinctKeys(Pairs(BODY, Fields(lease))) && DistinctKeys(Pairs(SIGNED, Fields(lease)))
  {
    hide Pairs, DistinctKeys, Field;
    KeysFit();
    PairsHold(BODY, Fields(lease));
    PairsHold(SIGNED, Fields(lease));
  }

  lemma FieldsAdmissible(lease: Lease, order: seq<u64>)
    ensures AllAdmissibleFields(order, Fields(lease))
  {
  }

  function SigningInput(lease: Lease): seq<byte> {
    Encodable(lease);
    Map(Pairs(BODY, Fields(lease)))
  }

  function EncodeLease(lease: Lease): seq<byte> {
    Encodable(lease);
    Map(Pairs(SIGNED, Fields(lease)))
  }

  function FromSlots(slots: Slots): Result<Lease, LeaseError> {
    var acquiredAt :- Lift(InSlot(slots, 5, ReadUint));
    var expiresAt :- Lift(InSlot(slots, 6, ReadUint));
    if expiresAt <= acquiredAt then Err(EmptyWindow(acquiredAt, expiresAt)) else
      var v :- Lift(InSlot(slots, 1, ReadUint));
      var agentId :- Lift(InSlot(slots, 2, BytesExactly(AGENT_ID_WIDTH)));
      var holder :- Lift(InSlot(slots, 3, ReadBytes));
      var epoch :- Lift(InSlot(slots, 4, ReadUint));
      var sig :- Lift(InSlot(slots, 7, ReadBytes));
      Ok(Lease(v, agentId, holder, epoch, acquiredAt, expiresAt, sig))
  }

  function Decode(data: seq<byte>): Result<Lease, LeaseError> {
    var (slots, rest) :- Lift(ReadSchemaMap(data, SCHEMA));
    var _ :- Lift(RequireEnd(rest));
    FromSlots(slots)
  }

  lemma SlotsExact(slots: Slots, lease: Lease)
    ensures FromSlots(slots) == Ok(lease) <==> Valid(lease) && Carries(slots, SCHEMA, Fields(lease))
  {
    hide InSlot, OptionalSlot, Raw, BytesExactly;
    UintSlot(slots, 1, lease.v);
    BytesExactSlot(slots, 2, AGENT_ID_WIDTH, lease.agentId);
    BytesSlot(slots, 3, lease.holder);
    UintSlot(slots, 4, lease.epoch);
    UintSlot(slots, 5, lease.acquiredAt);
    UintSlot(slots, 6, lease.expiresAt);
    BytesSlot(slots, 7, lease.sig);
  }

  /** A byte string decodes to a lease exactly when it is that valid lease's one encoding. */
  lemma LeaseExact(data: seq<byte>, lease: Lease)
    ensures Decode(data) == Ok(lease) <==> Valid(lease) && data == EncodeLease(lease)
  {
    hide FromSlots, ReadSchemaMap, Map, Pairs, Field;
    KeysFit();
    if Decode(data) == Ok(lease) {
      var slots := ReadSchemaMap(data, SCHEMA).value.0;
      SlotsExact(slots, lease);
      FieldsWritten(data, SIGNED, SCHEMA, Fields(lease), slots);
    }
    if Valid(lease) && data == EncodeLease(lease) {
      FieldsAdmissible(lease, SIGNED);
      var slots := SortByKey(Pairs(SIGNED, Fields(lease)));
      FieldsRead(SIGNED, SCHEMA, Fields(lease), slots);
      SlotsExact(slots, lease);
    }
  }
}
