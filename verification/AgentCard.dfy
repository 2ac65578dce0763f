/** `agent.card`: who an agent is, bound to its own hash and to its owner's signature. */
module AgentCard {
  import opened Octets
  import opened AgentCbor
  import opened ValueTree
  import opened SchemaMaps
  import opened Payloads
  import opened AgentCapability
  import AgentCode

  const AGENT_ID_WIDTH: nat := 32
  const CARD_HASH_WIDTH: nat := 32
  const SCOPE_WIDTH: nat := 32
  const ORG_ID_WIDTH: nat := 32

  const SCHEMA: seq<u64> := [1, 2, 3, 4, 5, 6, 7, 8, 9, 10, 11, 12, 13, 14, 15, 16]
  /** The order `body_pairs` pushes, and the hash and signature `encode` pushes behind it. */
  const BODY: seq<u64> := [1, 2, 3, 4, 5, 6, 7, 8, 9, 10, 12, 13, 14, 16]
  const SIGNED: seq<u64> := [1, 2, 3, 4, 5, 6, 7, 8, 9, 10, 12, 13, 14, 16, 11, 15]

  datatype HostKind = User | Organization {
    function Number(): u64 { if User? then 0 else 1 }
    static function Parse(n: u64): Option<HostKind> {
      if n == 0 then Some(User) else if n == 1 then Some(Organization) else None
    }
  }

  datatype Availability = Online | Offline | Suspended {
    function Number(): u64 { if Online? then 0 else if Offline? then 1 else 2 }
    static function Parse(n: u64): Option<Availability> {
      if n == 0 then Some(Online) else if n == 1 then Some(Offline) else if n == 2 then Some(Suspended) else None
    }
  }

  datatype Org = Org(
    orgId: Blob, gatewayRegion: Text, provider: Text, model: Text, retentionPolicy: Text, costPolicy: Text)

  datatype Card = Card(
    v: u64, agentId: Blob, hostKind: HostKind, ownerPrincipal: Blob, displayName: Text,
    aliases: Vec<Text>, scopes: Vec<Blob>, capabilities: Vec<Capability>, availability: Availability,
    profileVersion: u64, issuedAt: u64, expiresAt: u64, org: Option<Org>, code: Option<AgentCode.Code>, sig: Blob)

  /** What the card codec takes from outside: the digest, and Unicode lowercasing. */
  datatype Primitives = Primitives(blake3: seq<byte> -> Blob, lowercase: Text -> Text)

  ghost predicate DigestIsWide(p: Primitives) {
    forall s :: |p.blake3(s)| == CARD_HASH_WIDTH
  }

  datatype CardError =
    | Cbor(cbor: CborError)
    | Code(code: AgentCode.CodeError)
    | UnknownCapability(name: Text)
    | UnknownHostKind(raw: u64)
    | UnknownAvailability(raw: u64)
    | OrgBlockMismatch(hostKind: HostKind, present: bool)
    | CardHashMismatch(stored: Blob, computed: Blob)
    | ListNotCanonical(field: string)
    | EmptyAlias
    | AliasNotLowercased(alias: Text)
    | CodeBlockMismatch
    | CapabilityExclusive

  function Lift<T>(r: Result<T, CborError>): Result<T, CardError> {
    match r
    case Ok(v) => Ok(v)
    case Err(e) => Err(Cbor(e))
  }

  // ------------------------------------------------------------------ encoding

  function OrgTree(org: Org): Value {
    Arr([Str(org.orgId), Txt(org.gatewayRegion), Txt(org.provider),
         Txt(org.model), Txt(org.retentionPolicy), Txt(org.costPolicy)])
  }

  function CapabilityTree(c: Capability): Value { Txt(c.Name()) }

  /** The item each covered key carries. */
  function Field(card: Card, k: u64): Option<Value> {
    if k == 1 then Some(UInt(card.v))
    else if k == 2 then Some(Str(card.agentId))
    else if k == 3 then Some(UInt(card.hostKind.Number()))
    else if k == 4 then Some(Str(card.ownerPrincipal))
    else if k == 5 then Some(Txt(card.displayName))
    else if k == 6 then Some(Arr(Trees(TextTree, card.aliases)))
    else if k == 7 then Some(Arr(Trees(BytesTree, card.scopes)))
    else if k == 8 then Some(Arr(Trees(CapabilityTree, card.capabilities)))
    else if k == 9 then Some(UInt(card.availability.Number()))
    else if k == 10 then Some(UInt(card.profileVersion))
    else if k == 12 then Some(UInt(card.issuedAt))
    else if k == 13 then Some(UInt(card.expiresAt))
    else if k == 14 then Tree(OrgTree, card.org)
    else if k == 15 then Some(Str(card.sig))
    else if k == 16 then Tree(AgentCode.CodeTree, card.code)
    else None
  }

  function CardFields(card: Card): u64 -> Option<Value> { (k: u64) => Field(card, k) }

  lemma KeysFit()
    ensures Distinct(BODY) && Distinct(SIGNED) && SameKeys(SIGNED, SCHEMA)
  {
  }

  lemma Pairable(order: seq<u64>, fields: u64 -> Option<Value>)
    requires order == BODY || order == SIGNED
    ensures DistinctKeys(Pairs(order, fields))
  {
    hide Pairs, DistinctKeys;
    KeysFit();
    PairsHold(order, fields);
  }

  /** The bytes `cardHash` covers and `sig` signs. */
  function SigningInput(card: Card): seq<byte> {
    Pairable(BODY, CardFields(card));
    Map(Pairs(BODY, CardFields(card)))
  }

  function CardHash(p: Primitives, card: Card): Blob { p.blake3(SigningInput(card)) }

  /** The covered fields and the two slots that are not covered. */
  function FullFields(p: Primitives, card: Card): u64 -> Option<Value> {
    var hash := CardHash(p, card);
    (k: u64) => if k == 11 then Some(Str(hash)) else Field(card, k)
  }

  function EncodeCard(p: Primitives, card: Card): seq<byte> {
    Pairable(SIGNED, FullFields(p, card));
    Map(Pairs(SIGNED, FullFields(p, card)))
  }

  // ------------------------------------------------------------------ validity

  /** Strictly ascending as strings: sorted, with no repeat. */
  predicate Canonical(values: seq<Text>) {
    forall i | 0 <= i < |values| - 1 :: Less(values[i], values[i + 1])
  }

  predicate AliasesOk(p: Primitives, aliases: seq<Text>) {
    Canonical(aliases) && forall i | 0 <= i < |aliases| :: |aliases[i]| > 0 && aliases[i] == p.lowercase(aliases[i])
  }

  function Names(capabilities: seq<Capability>): (names: seq<Text>)
    ensures |names| == |capabilities| && forall i | 0 <= i < |names| :: names[i] == capabilities[i].Name()
  {
    if |capabilities| == 0 then [] else [capabilities[0].Name()] + Names(capabilities[1..])
  }

  predicate OrgOk(org: Org) { |org.orgId| == ORG_ID_WIDTH }

  predicate OrgFits(hostKind: HostKind, org: Option<Org>) {
    (hostKind == Organization <==> org.Some?) && (org.Some? ==> OrgOk(org.value))
  }

  predicate CodeFits(capabilities: seq<Capability>, code: Option<AgentCode.Code>) {
    && !(CiReport in capabilities && CodePullRequest in capabilities)
    && (CodePullRequest in capabilities <==> code.Some?)
    && (code.Some? ==> AgentCode.CodeOk(code.value))
  }

  predicate Valid(p: Primitives, card: Card) {
    && |card.agentId| == AGENT_ID_WIDTH
    && AliasesOk(p, card.aliases)
    && Canonical(Names(card.capabilities))
    && AllOk((b: Blob) => Wide(SCOPE_WIDTH, b), card.scopes)
    && OrgFits(card.hostKind, card.org)
    && CodeFits(card.capabilities, card.code)
  }

  // ------------------------------------------------------------------ decoding

  function ReadHostKind(slots: Slots): Result<HostKind, CardError> {
    var raw :- Lift(InSlot(slots, 3, ReadUint));
    match HostKind.Parse(raw)
    case Some(kind) => Ok(kind)
    case None => Err(UnknownHostKind(raw))
  }

  function ReadAvailability(slots: Slots): Result<Availability, CardError> {
    var raw :- Lift(InSlot(slots, 9, ReadUint));
    match Availability.Parse(raw)
    case Some(availability) => Ok(availability)
    case None => Err(UnknownAvailability(raw))
  }

  function TextList(s: seq<byte>): Read<Vec<Text>> {
    CountBounds(ReadText, s);
    ReadArrayOf(ReadText, s)
  }

  function ScopeList(s: seq<byte>): Read<Vec<Blob>> {
    CountBounds(BytesExactly(SCOPE_WIDTH), s);
    ReadArrayOf(BytesExactly(SCOPE_WIDTH), s)
  }

  lemma CountBounds<T>(read: seq<byte> -> Read<T>, s: seq<byte>)
    ensures var r := ReadArrayOf(read, s); r.Ok? ==> |r.value.0| < TWO_TO_64
  {
    var head := ReadArrayCount(s);
    if head.Ok? { ManyLength(read, head.value.1, head.value.0); }
  }

  /** The first alias that is empty or not lowercased, if any. */
  function CheckAliases(p: Primitives, aliases: seq<Text>): (r: Result<(), CardError>)
    ensures r.Ok? <==> forall i | 0 <= i < |aliases| :: |aliases[i]| > 0 && aliases[i] == p.lowercase(aliases[i])
  {
    if |aliases| == 0 then Ok(())
    else if |aliases[0]| == 0 then Err(EmptyAlias)
    else if aliases[0] != p.lowercase(aliases[0]) then Err(AliasNotLowercased(aliases[0]))
    else
      assert forall i | 0 <= i < |aliases[1..]| :: aliases[1..][i] == aliases[i + 1];
      CheckAliases(p, aliases[1..])
  }

  function ReadAliases(p: Primitives, slots: Slots): Result<Vec<Text>, CardError> {
    var aliases :- Lift(InSlot(slots, 6, TextList));
    if !Canonical(aliases) then Err(ListNotCanonical("aliases")) else
      var _ :- CheckAliases(p, aliases);
      Ok(aliases)
  }

  function ParseCapabilities(names: seq<Text>): (r: Result<seq<Capability>, CardError>)
    ensures r.Ok? ==> Names(r.value) == names
  {
    if |names| == 0 then Ok([]) else
      CapabilityIsNamed(names[0]);
      match Capability.Parse(names[0])
      case None => Err(UnknownCapability(names[0]))
      case Some(c) =>
        var tail :- ParseCapabilities(names[1..]);
        assert ([c] + tail)[1..] == tail;
        Ok([c] + tail)
  }

  lemma CapabilityIsNamed(t: Text)
    ensures var c := Capability.Parse(t); c.Some? ==> c.value.Name() == t
  {
    var c := Capability.Parse(t);
    if c.Some? { CapabilityNamed(t, c.value); }
  }

  function ReadCapabilities(slots: Slots): Result<Vec<Capability>, CardError> {
    var names :- Lift(InSlot(slots, 8, TextList));
    if !Canonical(names) then Err(ListNotCanonical("capabilities")) else
      var capabilities :- ParseCapabilities(names);
      Ok(capabilities)
  }

  function ReadOrg(s: seq<byte>): Read<Org> {
    var (count, s0) :- ReadArrayCount(s);
    if count != 6 then Err(WrongArrayCount(6, count)) else
      var (orgId, s1) :- ReadBytesExact(ORG_ID_WIDTH, s0);
      var (gatewayRegion, s2) :- ReadText(s1);
      var (provider, s3) :- ReadText(s2);
      var (model, s4) :- ReadText(s3);
      var (retentionPolicy, s5) :- ReadText(s4);
      var (costPolicy, s6) :- ReadText(s5);
      Ok((Org(orgId, gatewayRegion, provider, model, retentionPolicy, costPolicy), s6))
  }

  function ReadOrgSlot(slots: Slots, hostKind: HostKind): Result<Option<Org>, CardError> {
    var org :- Lift(OptionalIn(slots, 14, ReadOrg));
    if (hostKind == Organization) != org.Some? then Err(OrgBlockMismatch(hostKind, org.Some?)) else Ok(org)
  }

  function DecodeCode(raw: seq<byte>): Result<AgentCode.Code, AgentCode.CodeError> {
    var (code, rest) :- AgentCode.ReadCodeBlock(raw);
    var _ :- AgentCode.Lift(RequireEnd(rest));
    Ok(code)
  }

  function ReadCodeSlot(slots: Slots, capabilities: seq<Capability>): Result<Option<AgentCode.Code>, CardError> {
    var raw := OptionalSlot(slots, 16);
    var code :- (if raw.None? then Ok(None) else
                   match DecodeCode(raw.value)
                   case Ok(c) => Ok(Some(c))
                   case Err(e) => Err(Code(e)));
    if CiReport in capabilities && CodePullRequest in capabilities then Err(CapabilityExclusive)
    else if (CodePullRequest in capabilities) != code.Some? then Err(CodeBlockMismatch)
    else Ok(code)
  }

  datatype Times = Times(profileVersion: u64, issuedAt: u64, expiresAt: u64, sig: Blob)

  datatype Scalars = Scalars(v: u64, agentId: Blob, ownerPrincipal: Blob, displayName: Text, times: Times)

  function ReadScalars(slots: Slots): Result<Scalars, CborError> {
    var v :- InSlot(slots, 1, ReadUint);
    var agentId :- InSlot(slots, 2, BytesExactly(AGENT_ID_WIDTH));
    var ownerPrincipal :- InSlot(slots, 4, ReadBytes);
    var displayName :- InSlot(slots, 5, ReadText);
    var times :- ReadTimes(slots);
    Ok(Scalars(v, agentId, ownerPrincipal, displayName, times))
  }

  function ReadTimes(slots: Slots): Result<Times, CborError> {
    var profileVersion :- InSlot(slots, 10, ReadUint);
    var issuedAt :- InSlot(slots, 12, ReadUint);
    var expiresAt :- InSlot(slots, 13, ReadUint);
    var sig :- InSlot(slots, 15, ReadBytes);
    Ok(Times(profileVersion, issuedAt, expiresAt, sig))
  }

  /** Every slot except the stored hash, in the order the source checks them. */
  function Unhashed(p: Primitives, slots: Slots): Result<Card, CardError> {
    var hostKind :- ReadHostKind(slots);
    var availability :- ReadAvailability(slots);
    var aliases :- ReadAliases(p, slots);
    var capabilities :- ReadCapabilities(slots);
    var scopes :- Lift(InSlot(slots, 7, ScopeList));
    var org :- ReadOrgSlot(slots, hostKind);
    var code :- ReadCodeSlot(slots, capabilities);
    var s :- Lift(ReadScalars(slots));
    Ok(Card(s.v, s.agentId, hostKind, s.ownerPrincipal, s.displayName, aliases, scopes, capabilities, availability,
            s.times.profileVersion, s.times.issuedAt, s.times.expiresAt, org, code, s.times.sig))
  }

  function FromSlots(p: Primitives, slots: Slots): Result<Card, CardError> {
    var card :- Unhashed(p, slots);
    var stored :- Lift(InSlot(slots, 11, BytesExactly(CARD_HASH_WIDTH)));
    if stored != CardHash(p, card) then Err(CardHashMismatch(stored, CardHash(p, card))) else Ok(card)
  }

  /** Structure and hash; the signature is verified elsewhere. */
  function Decode(p: Primitives, data: seq<byte>): Result<Card, CardError> {
    var (slots, rest) :- Lift(ReadSchemaMap(data, SCHEMA));
    var _ :- Lift(RequireEnd(rest));
    FromSlots(p, slots)
  }
}
