/** What a well-formed payload that breaks a rule is refused as: the first rule it breaks, in the order of asking. */
module PayloadRefusals {
  import opened Octets
  import opened AgentCbor
  import opened ValueTree
  import opened SchemaMaps
  import opened Payloads
  import AgentCapability
  import AgentLease
  import AgentLifecycle
  import AgentCode
  import AgentCard
  import AgentCardExact

  // --------------------------------------------------------------------------- maps

  /** The key in front of an entry, if any. */
  function Before(slots: Slots, previous: Option<u64>): Option<u64> {
    if |slots| == 0 then previous else Some(slots[|slots| - 1].0)
  }

  /** What a key the reader does not take is refused as: for its place first, then for its number. */
  function KeyRefusal(before: Option<u64>, key: u64): CborError {
    if before.Some? && key <= before.value then MapKeysNotAscending(before.value, key) else UnknownKey(key)
  }

  /** Behind a good entry the reader goes on, and its refusal is the one met there. */
  lemma EntryTaken(key: u64, raw: seq<byte>, end: seq<byte>, count: nat, schema: seq<u64>, previous: Option<u64>)
    requires count > 0 && IsItem(raw) && key in schema && (previous.Some? ==> previous.value < key)
    requires ReadEntries(end, count - 1, schema, Some(key)).Err?
    ensures ReadEntries(Uint(key) + (raw + end), count, schema, previous)
            == Err(ReadEntries(end, count - 1, schema, Some(key)).error)
  {
    UintExact(Uint(key) + (raw + end), key, raw + end);
    RawValueExact(raw + end, raw, end);
    hide ReadUint, ReadRaw, Uint, IsItem;
  }

  lemma {:induction false} EntriesRefused(slots: Slots, count: nat, schema: seq<u64>, previous: Option<u64>, key: u64,
      rest: seq<byte>)
    requires AcceptableEntries(slots, |slots|, schema, previous) && |slots| < count
    requires var before := Before(slots, previous); key !in schema || (before.Some? && key <= before.value)
    ensures ReadEntries(Entries(slots) + (Uint(key) + rest), count, schema, previous)
            == Err(KeyRefusal(Before(slots, previous), key))
    decreases |slots|
  {
    hide ReadUint, ReadRaw, Uint, IsItem;
    var behind := Uint(key) + rest;
    if |slots| == 0 {
      assert Entries(slots) + behind == behind;
      UintExact(behind, key, rest);
    } else {
      hide ReadEntries;
      var (first, raw) := slots[0];
      assert (first, raw) in slots;
      var tail := slots[1..];
      TailAcceptable(slots, schema, previous);
      EntriesRefused(tail, count - 1, schema, Some(first), key, rest);
      RegroupEntry(Uint(first), raw, Entries(tail), behind);
      EntryTaken(first, raw, Entries(tail) + behind, count, schema, previous);
    }
  }

  /** A map is refused at its first key that does not rise or that its schema does not name. */
  lemma SchemaMapRefused(slots: Slots, count: u64, schema: seq<u64>, key: u64, rest: seq<byte>)
    requires SchemaMap(slots, schema) && |slots| < count <= |Entries(slots) + (Uint(key) + rest)|
    requires var before := Before(slots, None); key !in schema || (before.Some? && key <= before.value)
    ensures ReadSchemaMap(Head(5, count) + (Entries(slots) + (Uint(key) + rest)), schema)
            == Err(KeyRefusal(Before(slots, None), key))
  {
    hide ReadEntries;
    HeadReads(5, count, Entries(slots) + (Uint(key) + rest));
    EntriesRefused(slots, count, schema, None, key, rest);
  }

  // ------------------------------------------------------------------------- lease

  /** A lease whose window is empty is refused with its two ends. */
  lemma LeaseRefused(x: AgentLease.Lease)
    requires |x.agentId| == 32
    ensures AgentLease.Decode(AgentLease.EncodeLease(x))
            == if x.acquiredAt < x.expiresAt then Ok(x) else Err(AgentLease.EmptyWindow(x.acquiredAt, x.expiresAt))
  {
    if x.acquiredAt < x.expiresAt {
      AgentLease.LeaseExact(AgentLease.EncodeLease(x), x);
    } else {
      hide ReadSchemaMap, Map, Pairs, AgentLease.Field;
      AgentLease.KeysFit();
      AgentLease.FieldsAdmissible(x, AgentLease.SIGNED);
      var slots := SortByKey(Pairs(AgentLease.SIGNED, AgentLease.Fields(x)));
      FieldsRead(AgentLease.SIGNED, AgentLease.SCHEMA, AgentLease.Fields(x), slots);
      LeaseWindow(slots, x);
    }
  }

  lemma LeaseWindow(slots: Slots, x: AgentLease.Lease)
    requires Carries(slots, AgentLease.SCHEMA, AgentLease.Fields(x)) && x.expiresAt <= x.acquiredAt
    ensures AgentLease.FromSlots(slots) == Err(AgentLease.EmptyWindow(x.acquiredAt, x.expiresAt))
  {
    hide InSlot, OptionalSlot, Raw;
    assert 5 in AgentLease.SCHEMA && 6 in AgentLease.SCHEMA;
    UintSlot(slots, 5, x.acquiredAt);
    UintSlot(slots, 6, x.expiresAt);
  }

  // --------------------------------------------------------------------- lifecycle

  function LifecycleVerdict(x: AgentLifecycle.Lifecycle)
      : Result<AgentLifecycle.Lifecycle, AgentLifecycle.LifecycleError> {
    var asked := x.state.Failed? || x.state.Declined? || x.state.Expired?;
    if x.reason.Some? && x.reason.value !in AgentLifecycle.Reasons() then
      Err(AgentLifecycle.UnknownReason(x.reason.value))
    else if asked != x.reason.Some? then Err(AgentLifecycle.ReasonMismatch(x.state, x.reason.Some?))
    else if x.reason.Some? && !BelongsTo(x.reason.value, x.state) then Err(AgentLifecycle.ReasonMismatch(x.state, true))
    else if x.phase.Some? && !x.state.Running? then Err(AgentLifecycle.PhaseMismatch(x.state, true))
    else if x.detail.Some? && |x.detail.value| > 512 then Err(AgentLifecycle.DetailTooLong(|x.detail.value|))
    else if x.state.Completed? != x.resultMessageId.Some? then
      Err(AgentLifecycle.ResultMismatch(x.state, x.resultMessageId.Some?))
    else Ok(x)
  }

  predicate BelongsTo(reason: Text, state: AgentLifecycle.State) {
    if reason == Ascii("repo.unbound") then state.Declined?
    else reason in AgentLifecycle.FailureReasons() ==> state.Failed?
  }

  /** A lifecycle record comes back, or is refused for the first rule it breaks. */
  lemma LifecycleRefused(x: AgentLifecycle.Lifecycle)
    requires |x.invocationId| == 16 && (x.resultMessageId.Some? ==> |x.resultMessageId.value| == 16)
    ensures AgentLifecycle.Decode(AgentLifecycle.EncodeLifecycle(x)) == LifecycleVerdict(x)
  {
    hide ReadSchemaMap, Map, Pairs, AgentLifecycle.Field, AgentLifecycle.FromSlots, LifecycleVerdict;
    AgentLifecycle.KeysFit();
    AgentLifecycle.FieldsAdmissible(x, AgentLifecycle.SIGNED);
    var slots := SortByKey(Pairs(AgentLifecycle.SIGNED, AgentLifecycle.Fields(x)));
    FieldsRead(AgentLifecycle.SIGNED, AgentLifecycle.SCHEMA, AgentLifecycle.Fields(x), slots);
    LifecycleSlots(slots, x);
  }

  lemma ReasonVerdict(slots: Slots, state: AgentLifecycle.State, reason: Option<Text>)
    requires OptionalIn(slots, 6, ReadText) == Ok(reason)
    ensures var asked := state.Failed? || state.Declined? || state.Expired?;
            AgentLifecycle.ReadReason(slots, state)
            == if reason.Some? && reason.value !in AgentLifecycle.Reasons() then
                 Err(AgentLifecycle.UnknownReason(reason.value))
               else if asked != reason.Some? then Err(AgentLifecycle.ReasonMismatch(state, reason.Some?))
               else if reason.Some? && !BelongsTo(reason.value, state) then
                 Err(AgentLifecycle.ReasonMismatch(state, true))
               else Ok(reason)
  {
    hide OptionalIn, AgentLifecycle.Reasons, AgentLifecycle.FailureReasons, Ascii;
  }

  lemma PhaseVerdict(slots: Slots, state: AgentLifecycle.State, phase: Option<AgentLifecycle.Phase>)
    requires OptionalIn(slots, 10, ReadText) == Ok(if phase.Some? then Some(phase.value.Name()) else None)
    ensures AgentLifecycle.ReadPhase(slots, state)
            == if phase.Some? && !state.Running? then Err(AgentLifecycle.PhaseMismatch(state, true)) else Ok(phase)
  {
    hide OptionalIn, Ascii;
    if phase.Some? { AgentLifecycle.PhaseNamed(phase.value.Name(), phase.value); }
  }

  lemma LifecycleSlots(slots: Slots, x: AgentLifecycle.Lifecycle)
    requires Carries(slots, AgentLifecycle.SCHEMA, AgentLifecycle.Fields(x))
    requires |x.invocationId| == 16 && (x.resultMessageId.Some? ==> |x.resultMessageId.value| == 16)
    ensures AgentLifecycle.FromSlots(slots) == LifecycleVerdict(x)
  {
    hide OptionalIn, Carries, BelongsTo, AgentLifecycle.Reasons, AgentLifecycle.Assemble, AgentLifecycle.ReadState;
    hide AgentLifecycle.ReadReason, AgentLifecycle.ReadPhase;
    LifecycleReads(slots, x);
    ReasonVerdict(slots, x.state, x.reason);
    PhaseVerdict(slots, x.state, x.phase);
  }

  lemma LifecycleReads(slots: Slots, x: AgentLifecycle.Lifecycle)
    requires Carries(slots, AgentLifecycle.SCHEMA, AgentLifecycle.Fields(x))
    requires |x.invocationId| == 16 && (x.resultMessageId.Some? ==> |x.resultMessageId.value| == 16)
    ensures AgentLifecycle.ReadState(slots) == Ok(x.state)
    ensures OptionalIn(slots, 6, ReadText) == Ok(x.reason) && OptionalIn(slots, 7, ReadText) == Ok(x.detail)
    ensures OptionalIn(slots, 10, ReadText) == Ok(if x.phase.Some? then Some(x.phase.value.Name()) else None)
    ensures OptionalIn(slots, 8, BytesExactly(16)) == Ok(x.resultMessageId)
    ensures AgentLifecycle.Assemble(slots, x.state, x.reason, x.phase, x.detail, x.resultMessageId) == Ok(x)
  {
    hide InSlot, OptionalIn, OptionalSlot, Raw, BytesExactly, Ascii;
    assert 3 in AgentLifecycle.SCHEMA && 6 in AgentLifecycle.SCHEMA && 7 in AgentLifecycle.SCHEMA;
    assert 8 in AgentLifecycle.SCHEMA && 10 in AgentLifecycle.SCHEMA;
    AgentLifecycle.StateExact(slots, x.state);
    OptionalTextSlot(slots, 6, x.reason);
    OptionalTextSlot(slots, 7, x.detail);
    PhaseReads(slots, x);
    OptionalBytesExactSlot(slots, 8, 16, x.resultMessageId);
    AgentLifecycle.AssembleExact(slots, x.state, x.reason, x.phase, x.detail, x.resultMessageId, x);
  }

  lemma PhaseReads(slots: Slots, x: AgentLifecycle.Lifecycle)
    requires Carries(slots, AgentLifecycle.SCHEMA, AgentLifecycle.Fields(x))
    ensures OptionalIn(slots, 10, ReadText) == Ok(if x.phase.Some? then Some(x.phase.value.Name()) else None)
  {
    hide OptionalIn, OptionalSlot, Raw, Ascii;
    assert 10 in AgentLifecycle.SCHEMA;
    OptionalTextSlot(slots, 10, if x.phase.Some? then Some(x.phase.value.Name()) else None);
  }

  // -------------------------------------------------------------------------- card

  /** The first alias that is empty or not its own lowercase, from the front. */
  function AliasVerdict(p: AgentCard.Primitives, aliases: seq<Text>): Option<AgentCard.CardError> {
    if |aliases| == 0 then None
    else if aliases[0] == [] then Some(AgentCard.EmptyAlias)
    else if p.lowercase(aliases[0]) != aliases[0] then Some(AgentCard.AliasNotLowercased(aliases[0]))
    else AliasVerdict(p, aliases[1..])
  }

  function CardVerdict(p: AgentCard.Primitives, x: AgentCard.Card): Result<AgentCard.Card, AgentCard.CardError> {
    if !AgentCard.Canonical(x.aliases) then Err(AgentCard.ListNotCanonical("aliases"))
    else if AliasVerdict(p, x.aliases).Some? then Err(AliasVerdict(p, x.aliases).value)
    else if !AgentCard.Canonical(AgentCard.Names(x.capabilities)) then Err(AgentCard.ListNotCanonical("capabilities"))
    else if x.hostKind.Organization? != x.org.Some? then Err(AgentCard.OrgBlockMismatch(x.hostKind, x.org.Some?))
    else if AgentCapability.CiReport in x.capabilities && AgentCapability.CodePullRequest in x.capabilities then
      Err(AgentCard.CapabilityExclusive)
    else if (AgentCapability.CodePullRequest in x.capabilities) != x.code.Some? then Err(AgentCard.CodeBlockMismatch)
    else Ok(x)
  }

  lemma {:induction false} AliasesChecked(p: AgentCard.Primitives, aliases: seq<Text>)
    ensures AgentCard.CheckAliases(p, aliases)
            == match AliasVerdict(p, aliases) { case None => Ok(()) case Some(e) => Err(e) }
  {
    if |aliases| > 0 { AliasesChecked(p, aliases[1..]); }
  }

  /** The widths are right and the blocks are sound, so that only the rules above are in question. */
  predicate CardIsSound(x: AgentCard.Card) {
    && |x.agentId| == 32 && (forall i | 0 <= i < |x.scopes| :: |x.scopes[i]| == 32)
    && (x.org.Some? ==> AgentCard.OrgOk(x.org.value)) && (x.code.Some? ==> AgentCode.CodeOk(x.code.value))
  }

  /** A card comes back, or is refused for the first rule it breaks. */
  lemma CardRefused(p: AgentCard.Primitives, x: AgentCard.Card)
    requires AgentCard.DigestIsWide(p) && CardIsSound(x)
    ensures AgentCard.Decode(p, AgentCard.EncodeCard(p, x)) == CardVerdict(p, x)
  {
    hide AgentCard.FromSlots, ReadSchemaMap, Map, Pairs, AgentCard.Field, AgentCard.SigningInput, CardVerdict;
    AgentCard.KeysFit();
    var fields := AgentCard.FullFields(p, x);
    AgentCardExact.FullFieldsAdmissible(p, x, AgentCard.SIGNED);
    var slots := SortByKey(Pairs(AgentCard.SIGNED, fields));
    FieldsRead(AgentCard.SIGNED, AgentCard.SCHEMA, fields, slots);
    CardSlots(p, slots, x);
  }

  lemma CardSlots(p: AgentCard.Primitives, slots: Slots, x: AgentCard.Card)
    requires AgentCard.DigestIsWide(p) && CardIsSound(x)
    requires Carries(slots, AgentCard.SCHEMA, AgentCard.FullFields(p, x))
    ensures AgentCard.FromSlots(p, slots) == CardVerdict(p, x)
  {
    hide Carries, AgentCard.FullFields, AgentCardExact.HoldsCovered, AgentCard.Unhashed, CardIsSound, CardVerdict;
    hide AgentCard.CardHash, InSlot, OptionalSlot, Raw, BytesExactly, AgentCard.Valid, AgentCard.SigningInput;
    AgentCardExact.FullFieldsHeld(p, slots, x);
    CardUnhashed(p, slots, x);
    BytesExactSlot(slots, 11, 32, AgentCard.CardHash(p, x));
    VerdictIsItself(p, x);
    assert |AgentCard.CardHash(p, x)| == 32 by { HashIsWide(p, x); }
  }

  lemma HashIsWide(p: AgentCard.Primitives, x: AgentCard.Card)
    requires AgentCard.DigestIsWide(p)
    ensures |AgentCard.CardHash(p, x)| == 32
  {
  }

  lemma VerdictIsItself(p: AgentCard.Primitives, x: AgentCard.Card)
    ensures CardVerdict(p, x).Ok? ==> CardVerdict(p, x) == Ok(x)
  {
  }

  lemma AliasesRead(p: AgentCard.Primitives, slots: Slots, x: AgentCard.Card)
    requires AgentCardExact.Holds(slots, x, 6)
    ensures AgentCard.ReadAliases(p, slots)
            == if !AgentCard.Canonical(x.aliases) then Err(AgentCard.ListNotCanonical("aliases"))
               else if AliasVerdict(p, x.aliases).Some? then Err(AliasVerdict(p, x.aliases).value)
               else Ok(x.aliases)
  {
    hide InSlot, OptionalSlot, Raw, AgentCard.TextList, AgentCard.Canonical, AliasVerdict, AgentCard.CheckAliases;
    AgentCardExact.TextListSlot(slots, 6, x.aliases);
    AliasesChecked(p, x.aliases);
  }

  lemma CapabilitiesRead(slots: Slots, x: AgentCard.Card)
    requires AgentCardExact.Holds(slots, x, 8)
    ensures AgentCard.ReadCapabilities(slots)
            == if AgentCard.Canonical(AgentCard.Names(x.capabilities)) then Ok(x.capabilities)
               else Err(AgentCard.ListNotCanonical("capabilities"))
  {
    hide InSlot, OptionalSlot, Raw, AgentCard.TextList, AgentCard.Canonical, AgentCard.Names, Trees;
    hide AgentCard.ParseCapabilities;
    AgentCardExact.NamesTree(x.capabilities);
    AgentCardExact.TextListSlot(slots, 8, AgentCard.Names(x.capabilities));
    AgentCardExact.ParseNames(x.capabilities);
  }

  lemma OrgRead(slots: Slots, x: AgentCard.Card)
    requires AgentCardExact.Holds(slots, x, 14) && (x.org.Some? ==> AgentCard.OrgOk(x.org.value))
    ensures AgentCard.ReadOrgSlot(slots, x.hostKind)
            == if x.hostKind.Organization? != x.org.Some?
               then Err(AgentCard.OrgBlockMismatch(x.hostKind, x.org.Some?)) else Ok(x.org)
  {
    hide OptionalIn, OptionalSlot, Raw, AgentCard.ReadOrg, Tree, Exact, AgentCard.OrgOk;
    AgentCardExact.OrgReader();
    OptionalExact(slots, 14, AgentCard.ReadOrg, AgentCard.OrgTree, AgentCard.OrgOk, x.org);
  }

  lemma CodeRead(slots: Slots, x: AgentCard.Card)
    requires AgentCardExact.Holds(slots, x, 16) && (x.code.Some? ==> AgentCode.CodeOk(x.code.value))
    ensures AgentCard.ReadCodeSlot(slots, x.capabilities)
            == if AgentCapability.CiReport in x.capabilities && AgentCapability.CodePullRequest in x.capabilities
               then Err(AgentCard.CapabilityExclusive)
               else if (AgentCapability.CodePullRequest in x.capabilities) != x.code.Some?
               then Err(AgentCard.CodeBlockMismatch) else Ok(x.code)
  {
    hide OptionalSlot, AgentCard.DecodeCode, AgentCode.CodeOk, AgentCode.CodeTree, Encode;
    var raw := OptionalSlot(slots, 16);
    if x.code.Some? { AgentCardExact.CodeBlockExact(raw.value, x.code.value); }
  }

  lemma CardUnhashed(p: AgentCard.Primitives, slots: Slots, x: AgentCard.Card)
    requires CardIsSound(x) && AgentCardExact.HoldsCovered(slots, x)
    ensures AgentCard.Unhashed(p, slots) == CardVerdict(p, x)
  {
    assert AgentCardExact.ScopesOk(x.scopes);
    hide OptionalSlot, Raw, InSlot, AgentCard.ReadHostKind, AgentCard.ReadAvailability, AgentCard.ReadAliases;
    hide AgentCard.ReadCapabilities, AgentCard.ScopeList, AgentCard.ReadOrgSlot, AgentCard.ReadCodeSlot;
    hide AgentCard.ReadScalars, Tree, Trees, AgentCard.Canonical, AgentCard.OrgOk, AgentCode.CodeOk, AliasVerdict;
    hide AgentCardExact.Holds, AgentCardExact.HoldsCovered, AgentCardExact.ScopesOk, AgentCard.Names;
    hide AgentCard.AliasesOk, AgentCard.OrgFits, AgentCard.CodeFits;
    AgentCardExact.CoveredKeys(slots, x);
    AgentCardExact.ListsExact(p, slots, x);
    AgentCardExact.BlocksExact(slots, x);
    AgentCardExact.ScalarsExact(slots, x);
    AliasesRead(p, slots, x);
    CapabilitiesRead(slots, x);
    OrgRead(slots, x);
    CodeRead(slots, x);
  }
}
