/** That a card has one encoding, and that the decoder accepts that encoding and nothing else. */
module AgentCardExact {
  import opened Octets
  import opened AgentCbor
  import opened ValueTree
  import opened SchemaMaps
  import opened Payloads
  import opened AgentCapability
  import opened AgentCard
  import AgentCode

  // ----------------------------------------------------------------- the pieces

  lemma HostKindExact(slots: Slots, kind: HostKind)
    ensures ReadHostKind(slots) == Ok(kind) <==> OptionalSlot(slots, 3) == Raw(Some(UInt(kind.Number())))
  {
    hide InSlot, OptionalSlot, Raw;
    UintSlot(slots, 3, kind.Number());
  }

  lemma AvailabilityExact(slots: Slots, availability: Availability)
    ensures ReadAvailability(slots) == Ok(availability)
            <==> OptionalSlot(slots, 9) == Raw(Some(UInt(availability.Number())))
  {
    hide InSlot, OptionalSlot, Raw;
    UintSlot(slots, 9, availability.Number());
  }

  function TextListTree(ts: Vec<Text>): Value { Arr(Trees(TextTree, ts)) }

  function ScopeListTree(bs: Vec<Blob>): Value { Arr(Trees(BytesTree, bs)) }

  predicate ScopesOk(bs: Vec<Blob>) { AllOk((b: Blob) => Wide(SCOPE_WIDTH, b), bs) }

  lemma TextListReader()
    ensures Exact(TextList, TextListTree, Any)
  {
    hide ReadText, ReadArrayOf, Encode;
    TextReader();
    forall s, x: Vec<Text>, rest ensures TextList(s) == Ok((x, rest)) <==> s == Encode(TextListTree(x)) + rest {
      ArrayOfExact(ReadText, TextTree, Any, s, x, rest);
    }
  }

  lemma ScopeListReader()
    ensures Exact(ScopeList, ScopeListTree, ScopesOk)
  {
    hide BytesExactly, ReadArrayOf, Encode;
    BytesExactReader(SCOPE_WIDTH);
    forall s, x: Vec<Blob>, rest ensures ScopeList(s) == Ok((x, rest))
        <==> ScopesOk(x) && s == Encode(ScopeListTree(x)) + rest {
      ArrayOfExact(BytesExactly(SCOPE_WIDTH), BytesTree, (b: Blob) => Wide(SCOPE_WIDTH, b), s, x, rest);
    }
  }

  lemma TextListSlot(slots: Slots, key: u64, ts: Vec<Text>)
    ensures InSlot(slots, key, TextList) == Ok(ts) <==> OptionalSlot(slots, key) == Raw(Some(TextListTree(ts)))
  {
    hide TextList, OptionalSlot, Encode, InSlot;
    TextListReader();
    SlotExact(slots, key, TextList, TextListTree, Any, ts);
  }

  lemma ScopesExact(slots: Slots, scopes: Vec<Blob>)
    ensures InSlot(slots, 7, ScopeList) == Ok(scopes)
            <==> ScopesOk(scopes) && OptionalSlot(slots, 7) == Raw(Some(ScopeListTree(scopes)))
  {
    hide ScopeList, OptionalSlot, Encode, InSlot;
    ScopeListReader();
    SlotExact(slots, 7, ScopeList, ScopeListTree, ScopesOk, scopes);
  }

  lemma AliasesExact(p: Primitives, slots: Slots, aliases: Vec<Text>)
    ensures ReadAliases(p, slots) == Ok(aliases)
            <==> AliasesOk(p, aliases) && OptionalSlot(slots, 6) == Raw(Some(TextListTree(aliases)))
  {
    hide InSlot, OptionalSlot, Raw, TextList;
    TextListSlot(slots, 6, aliases);
  }

  lemma {:induction false} NamesTree(capabilities: seq<Capability>)
    ensures Trees(TextTree, Names(capabilities)) == Trees(CapabilityTree, capabilities)
  {
    if |capabilities| > 0 {
      NamesTree(capabilities[1..]);
      assert Names(capabilities)[1..] == Names(capabilities[1..]);
    }
  }

  lemma {:induction false} ParseNames(capabilities: seq<Capability>)
    ensures ParseCapabilities(Names(capabilities)) == Ok(capabilities)
  {
    if |capabilities| > 0 {
      ParseNames(capabilities[1..]);
      CapabilityNamed(capabilities[0].Name(), capabilities[0]);
      assert Names(capabilities)[1..] == Names(capabilities[1..]);
      assert capabilities == [capabilities[0]] + capabilities[1..];
    }
  }

  lemma CapabilitiesExact(slots: Slots, capabilities: Vec<Capability>)
    ensures ReadCapabilities(slots) == Ok(capabilities)
            <==> && Canonical(Names(capabilities))
                 && OptionalSlot(slots, 8) == Raw(Some(Arr(Trees(CapabilityTree, capabilities))))
  {
    hide InSlot, OptionalSlot, Raw, TextList, Canonical, Names, Trees, ParseCapabilities;
    NamesTree(capabilities);
    TextListSlot(slots, 8, Names(capabilities));
    ParseNames(capabilities);
  }

  lemma OrgItems(a: Value, b: Value, c: Value, d: Value, e: Value, f: Value, rest: seq<byte>)
    ensures EncodeAll([a, b, c, d, e, f]) + rest
            == Encode(a) + (Encode(b) + (Encode(c) + (Encode(d) + (Encode(e) + (Encode(f) + rest)))))
  {
    hide Encode;
    assert [a, b, c, d, e, f][1..] == [b, c, d, e, f] && [b, c, d, e, f][1..] == [c, d, e, f]
        && [c, d, e, f][1..] == [d, e, f];
    AgentCode.ThreeItems(d, e, f, rest);
    Regroup(Encode(c), EncodeAll([d, e, f]), rest);
    assert EncodeAll([c, d, e, f]) == Encode(c) + EncodeAll([d, e, f]);
    Regroup(Encode(b), EncodeAll([c, d, e, f]), rest);
    assert EncodeAll([b, c, d, e, f]) == Encode(b) + EncodeAll([c, d, e, f]);
    Regroup(Encode(a), EncodeAll([b, c, d, e, f]), rest);
  }

  function OrgFieldTrees(org: Org): seq<Value> {
    [Str(org.orgId), Txt(org.gatewayRegion), Txt(org.provider), Txt(org.model), Txt(org.retentionPolicy),
        Txt(org.costPolicy)]
  }

  lemma OrgAccepted(s: seq<byte>, org: Org, rest: seq<byte>)
    requires OrgOk(org) && s == Encode(OrgTree(org)) + rest
    ensures ReadOrg(s) == Ok((org, rest))
  {
    hide ReadArrayCount, ReadBytesExact, ReadText, Encode, EncodeAll;
    AgentCode.CountExact(s, 6, OrgFieldTrees(org), rest);
    OrgItems(Str(org.orgId), Txt(org.gatewayRegion), Txt(org.provider), Txt(org.model), Txt(org.retentionPolicy),
        Txt(org.costPolicy), rest);
    var s6 := rest;
    var s5 := Encode(Txt(org.costPolicy)) + s6;
    var s4 := Encode(Txt(org.retentionPolicy)) + s5;
    var s3 := Encode(Txt(org.model)) + s4;
    var s2 := Encode(Txt(org.provider)) + s3;
    var s1 := Encode(Txt(org.gatewayRegion)) + s2;
    BytesExactReads(ORG_ID_WIDTH, org.orgId, s1);
    AgentCode.TextReads(org.gatewayRegion, s2);
    AgentCode.TextReads(org.provider, s3);
    AgentCode.TextReads(org.model, s4);
    AgentCode.TextReads(org.retentionPolicy, s5);
    AgentCode.TextReads(org.costPolicy, s6);
  }

  lemma BytesExactReads(width: nat, b: Blob, rest: seq<byte>)
    requires |b| == width
    ensures ReadBytesExact(width, Encode(Str(b)) + rest) == Ok((b, rest))
  {
    BytesExact(Encode(Str(b)) + rest, b, rest);
  }

  lemma BytesExactWas(width: nat, s: seq<byte>, b: Blob, rest: seq<byte>)
    requires ReadBytesExact(width, s) == Ok((b, rest))
    ensures s == Encode(Str(b)) + rest
  {
    BytesExact(s, b, rest);
  }

  lemma OrgFound(s: seq<byte>, org: Org, rest: seq<byte>)
    requires ReadOrg(s) == Ok((org, rest))
    ensures OrgOk(org) && s == Encode(OrgTree(org)) + rest
  {
    hide ReadArrayCount, ReadBytesExact, ReadText, Encode, EncodeAll;
    var s0 := ReadArrayCount(s).value.1;
    var (orgId, s1) := ReadBytesExact(ORG_ID_WIDTH, s0).value;
    var (t2, s2) := ReadText(s1).value;
    var (t3, s3) := ReadText(s2).value;
    var (t4, s4) := ReadText(s3).value;
    var (t5, s5) := ReadText(s4).value;
    var (t6, s6) := ReadText(s5).value;
    BytesExactWas(ORG_ID_WIDTH, s0, orgId, s1);
    AgentCode.TextWas(s1, t2, s2);
    AgentCode.TextWas(s2, t3, s3);
    AgentCode.TextWas(s3, t4, s4);
    AgentCode.TextWas(s4, t5, s5);
    AgentCode.TextWas(s5, t6, s6);
    assert org == Org(orgId, t2, t3, t4, t5, t6) && rest == s6;
    OrgItems(Str(orgId), Txt(t2), Txt(t3), Txt(t4), Txt(t5), Txt(t6), rest);
    AgentCode.CountExact(s, 6, OrgFieldTrees(org), rest);
  }

  lemma OrgReader()
    ensures Exact(ReadOrg, OrgTree, OrgOk)
  {
    hide ReadOrg, OrgTree, OrgOk, Encode;
    forall s, x, rest ensures ReadOrg(s) == Ok((x, rest)) <==> OrgOk(x) && s == Encode(OrgTree(x)) + rest {
      if ReadOrg(s) == Ok((x, rest)) { OrgFound(s, x, rest); }
      if OrgOk(x) && s == Encode(OrgTree(x)) + rest { OrgAccepted(s, x, rest); }
    }
  }

  lemma OrgExact(slots: Slots, kind: HostKind, org: Option<Org>)
    ensures ReadOrgSlot(slots, kind) == Ok(org)
            <==> OrgFits(kind, org) && OptionalSlot(slots, 14) == Raw(Tree(OrgTree, org))
  {
    hide OptionalIn, OptionalSlot, Raw, ReadOrg, Tree, Exact, OrgOk;
    OrgReader();
    OptionalExact(slots, 14, ReadOrg, OrgTree, OrgOk, org);
  }

  lemma CodeBlockExact(raw: seq<byte>, code: AgentCode.Code)
    ensures DecodeCode(raw) == Ok(code) <==> AgentCode.CodeOk(code) && raw == Encode(AgentCode.CodeTree(code))
  {
    hide AgentCode.ReadCodeBlock, AgentCode.CodeOk, AgentCode.CodeTree, Encode;
    AgentCode.CodeExact(raw, code, []);
    assert Encode(AgentCode.CodeTree(code)) + [] == Encode(AgentCode.CodeTree(code));
    if DecodeCode(raw) == Ok(code) {
      assert AgentCode.ReadCodeBlock(raw).value.1 == [];
      assert AgentCode.ReadCodeBlock(raw) == Ok((code, []));
    }
  }

  lemma CodeSlotExact(slots: Slots, capabilities: seq<Capability>, code: Option<AgentCode.Code>)
    ensures ReadCodeSlot(slots, capabilities) == Ok(code)
            <==> CodeFits(capabilities, code) && OptionalSlot(slots, 16) == Raw(Tree(AgentCode.CodeTree, code))
  {
    hide OptionalSlot, DecodeCode, AgentCode.CodeOk, AgentCode.CodeTree, Encode;
    var raw := OptionalSlot(slots, 16);
    if raw.Some? && code.Some? { CodeBlockExact(raw.value, code.value); }
  }

  /** The slot of key `k` holds what the card says it holds. */
  predicate Holds(slots: Slots, card: Card, k: u64) {
    OptionalSlot(slots, k) == Raw(Field(card, k))
  }

  lemma TimesExact(slots: Slots, card: Card)
    ensures ReadTimes(slots) == Ok(Times(card.profileVersion, card.issuedAt, card.expiresAt, card.sig))
            <==> Holds(slots, card, 10) && Holds(slots, card, 12) && Holds(slots, card, 13) && Holds(slots, card, 15)
  {
    hide InSlot, OptionalSlot, Raw;
    UintSlot(slots, 10, card.profileVersion);
    UintSlot(slots, 12, card.issuedAt);
    UintSlot(slots, 13, card.expiresAt);
    BytesSlot(slots, 15, card.sig);
  }

  lemma ScalarsExact(slots: Slots, card: Card)
    ensures ReadScalars(slots)
              == Ok(Scalars(card.v, card.agentId, card.ownerPrincipal, card.displayName,
                            Times(card.profileVersion, card.issuedAt, card.expiresAt, card.sig)))
            <==> && |card.agentId| == AGENT_ID_WIDTH
                 && Holds(slots, card, 1) && Holds(slots, card, 2) && Holds(slots, card, 4) && Holds(slots, card, 5)
                 && Holds(slots, card, 10) && Holds(slots, card, 12) && Holds(slots, card, 13) && Holds(slots, card, 15)
  {
    hide InSlot, OptionalSlot, Raw, BytesExactly, ReadTimes;
    UintSlot(slots, 1, card.v);
    BytesExactSlot(slots, 2, AGENT_ID_WIDTH, card.agentId);
    BytesSlot(slots, 4, card.ownerPrincipal);
    TextSlot(slots, 5, card.displayName);
    TimesExact(slots, card);
  }

  // ------------------------------------------------------------------ the whole

  /** The slots of every key except the stored hash. */
  const COVERED: seq<u64> := [1, 2, 3, 4, 5, 6, 7, 8, 9, 10, 12, 13, 14, 15, 16]

  lemma UnhashedExact(p: Primitives, slots: Slots, card: Card)
    ensures Unhashed(p, slots) == Ok(card) <==> Valid(p, card) && HoldsCovered(slots, card)
  {
    hide OptionalSlot, Raw, InSlot, ReadHostKind, ReadAvailability, ReadAliases, ReadCapabilities, ScopeList,
         ReadOrgSlot, ReadCodeSlot, ReadScalars, Tree, Trees, AliasesOk, Canonical, OrgFits, CodeFits;
    ListsExact(p, slots, card);
    BlocksExact(slots, card);
    ScalarsExact(slots, card);
    hide Holds, HoldsCovered;
    CoveredKeys(slots, card);
  }

  lemma CoveredKeys(slots: Slots, card: Card)
    ensures HoldsCovered(slots, card) <==>
      && Holds(slots, card, 1) && Holds(slots, card, 2) && Holds(slots, card, 3) && Holds(slots, card, 4)
      && Holds(slots, card, 5) && Holds(slots, card, 6) && Holds(slots, card, 7) && Holds(slots, card, 8)
      && Holds(slots, card, 9) && Holds(slots, card, 10) && Holds(slots, card, 12) && Holds(slots, card, 13)
      && Holds(slots, card, 14) && Holds(slots, card, 15) && Holds(slots, card, 16)
  {
    hide Holds;
  }

  lemma ListsExact(p: Primitives, slots: Slots, card: Card)
    ensures ReadAliases(p, slots) == Ok(card.aliases) <==> AliasesOk(p, card.aliases) && Holds(slots, card, 6)
    ensures ReadCapabilities(slots) == Ok(card.capabilities)
            <==> Canonical(Names(card.capabilities)) && Holds(slots, card, 8)
    ensures InSlot(slots, 7, ScopeList) == Ok(card.scopes) <==> ScopesOk(card.scopes) && Holds(slots, card, 7)
  {
    hide OptionalSlot, Raw, InSlot, ReadAliases, ReadCapabilities, ScopeList, Trees, AliasesOk, Canonical, ScopesOk;
    AliasesExact(p, slots, card.aliases);
    CapabilitiesExact(slots, card.capabilities);
    ScopesExact(slots, card.scopes);
  }

  lemma BlocksExact(slots: Slots, card: Card)
    ensures ReadHostKind(slots) == Ok(card.hostKind) <==> Holds(slots, card, 3)
    ensures ReadAvailability(slots) == Ok(card.availability) <==> Holds(slots, card, 9)
    ensures ReadOrgSlot(slots, card.hostKind) == Ok(card.org)
            <==> OrgFits(card.hostKind, card.org) && Holds(slots, card, 14)
    ensures ReadCodeSlot(slots, card.capabilities) == Ok(card.code)
            <==> CodeFits(card.capabilities, card.code) && Holds(slots, card, 16)
  {
    hide OptionalSlot, Raw, ReadHostKind, ReadAvailability, ReadOrgSlot, ReadCodeSlot, Tree, OrgFits, CodeFits;
    HostKindExact(slots, card.hostKind);
    AvailabilityExact(slots, card.availability);
    OrgExact(slots, card.hostKind, card.org);
    CodeSlotExact(slots, card.capabilities, card.code);
  }

  predicate HoldsCovered(slots: Slots, card: Card) {
    forall k | k in COVERED :: Holds(slots, card, k)
  }

  lemma FullFieldsHeld(p: Primitives, slots: Slots, card: Card)
    ensures Carries(slots, SCHEMA, FullFields(p, card))
            <==> HoldsCovered(slots, card) && OptionalSlot(slots, 11) == Raw(Some(Str(CardHash(p, card))))
  {
    hide OptionalSlot, Raw, Field, CardHash;
    if HoldsCovered(slots, card) && OptionalSlot(slots, 11) == Raw(Some(Str(CardHash(p, card)))) {
      forall k | k in SCHEMA ensures OptionalSlot(slots, k) == Raw(FullFields(p, card)(k)) {
        if k != 11 { assert k in COVERED; }
      }
    }
    if Carries(slots, SCHEMA, FullFields(p, card)) {
      assert 11 in SCHEMA;
      forall k | k in COVERED ensures Holds(slots, card, k) { assert k in SCHEMA; }
    }
  }

  lemma SlotsExact(p: Primitives, slots: Slots, card: Card)
    requires DigestIsWide(p)
    ensures FromSlots(p, slots) == Ok(card) <==> Valid(p, card) && Carries(slots, SCHEMA, FullFields(p, card))
  {
    hide OptionalSlot, Raw, InSlot, BytesExactly, Unhashed, Valid, Field, SigningInput, Carries, HoldsCovered,
         FullFields;
    UnhashedExact(p, slots, card);
    FullFieldsHeld(p, slots, card);
    BytesExactSlot(slots, 11, CARD_HASH_WIDTH, CardHash(p, card));
  }

  lemma {:induction false} AnyTextsAdmissible(ts: Vec<Text>, depth: nat)
    requires depth < MAX_SKIP_DEPTH
    ensures Admissible(Arr(Trees(TextTree, ts)), depth)
  {
    TreesAdmissible(TextTree, ts, depth + 1);
  }

  lemma {:induction false} EachAdmissible(items: seq<Value>, depth: nat)
    requires forall i | 0 <= i < |items| :: Admissible(items[i], depth)
    ensures AllAdmissible(items, depth)
  {
    if |items| > 0 { EachAdmissible(items[1..], depth); }
  }

  lemma ReposAdmissible(repos: Vec<AgentCode.Repository>)
    ensures Admissible(Arr(Trees(AgentCode.RepoTree, repos)), 1)
  {
    forall i | 0 <= i < |repos| ensures Admissible(AgentCode.RepoTree(repos[i]), 2) {
      EachAdmissible(AgentCode.RepoTree(repos[i]).items, 3);
    }
    TreesAdmissible(AgentCode.RepoTree, repos, 2);
  }

  lemma CodeAdmissible(code: AgentCode.Code)
    ensures Admissible(AgentCode.CodeTree(code), 0)
  {
    hide AgentCode.RepoTree, Trees;
    ReposAdmissible(code.repos);
    if code.test.Some? {
      AnyTextsAdmissible(code.test.value.argv, 2);
      EachAdmissible(AgentCode.TestTree(code.test.value).items, 2);
    }
    EachAdmissible(AgentCode.CodeTree(code).items, 1);
  }

  lemma OrgAdmissible(org: Org)
    ensures Admissible(OrgTree(org), 0)
  {
    EachAdmissible(OrgTree(org).items, 1);
  }

  lemma FieldsAdmissible(card: Card, order: seq<u64>)
    ensures AllAdmissibleFields(order, CardFields(card))
  {
    hide Trees, OrgTree, AgentCode.CodeTree;
    forall k | k in order && Field(card, k).Some? ensures Admissible(Field(card, k).value, 0) {
      if k == 6 { AnyTextsAdmissible(card.aliases, 0); }
      if k == 7 { TreesAdmissible(BytesTree, card.scopes, 1); }
      if k == 8 { TreesAdmissible(CapabilityTree, card.capabilities, 1); }
      if k == 14 { OrgAdmissible(card.org.value); }
      if k == 16 { CodeAdmissible(card.code.value); }
    }
  }

  lemma FullFieldsAdmissible(p: Primitives, card: Card, order: seq<u64>)
    ensures AllAdmissibleFields(order, FullFields(p, card))
  {
    hide Field;
    FieldsAdmissible(card, order);
  }

  /** A byte string decodes to a card exactly when it is that valid card's one encoding, hash included. */
  lemma CardExact(p: Primitives, data: seq<byte>, card: Card)
    requires DigestIsWide(p)
    ensures Decode(p, data) == Ok(card) <==> Valid(p, card) && data == EncodeCard(p, card)
  {
    hide FromSlots, ReadSchemaMap, Map, Pairs, Field, Valid, SigningInput;
    KeysFit();
    var fields := FullFields(p, card);
    if Decode(p, data) == Ok(card) {
      var slots := ReadSchemaMap(data, SCHEMA).value.0;
      SlotsExact(p, slots, card);
      FieldsWritten(data, SIGNED, SCHEMA, fields, slots);
    }
    if Valid(p, card) && data == EncodeCard(p, card) {
      FullFieldsAdmissible(p, card, SIGNED);
      var slots := SortByKey(Pairs(SIGNED, fields));
      FieldsRead(SIGNED, SCHEMA, fields, slots);
      SlotsExact(p, slots, card);
    }
  }
}
