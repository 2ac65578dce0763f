/** What a signature over an agent payload pins down, across all four kinds of payload. */
module SignedBytes {
  import opened Octets
  import opened AgentCbor
  import opened ValueTree
  import opened Payloads
  import opened AgentCapability
  import AgentCode
  import AgentCard
  import AgentCardExact
  import AgentInvoke
  import AgentLifecycle
  import AgentLease

  datatype Payload =
    | Card(card: AgentCard.Card)
    | Invoke(invoke: AgentInvoke.Invoke)
    | Lifecycle(lifecycle: AgentLifecycle.Lifecycle)
    | Lease(lease: AgentLease.Lease)
  {
    function SigningInput(): seq<byte> {
      match this
      case Card(x) => AgentCard.SigningInput(x)
      case Invoke(x) => AgentInvoke.SigningInput(x)
      case Lifecycle(x) => AgentLifecycle.SigningInput(x)
      case Lease(x) => AgentLease.SigningInput(x)
    }

    /** The payload with its signature taken off. */
    function Unsigned(): Payload {
      match this
      case Card(x) => Card(x.(sig := []))
      case Invoke(x) => Invoke(x.(sig := []))
      case Lifecycle(x) => Lifecycle(x.(sig := []))
      case Lease(x) => Lease(x.(sig := []))
    }

    function Body(): seq<u64> {
      match this
      case Card(_) => AgentCard.BODY
      case Invoke(_) => AgentInvoke.BODY
      case Lifecycle(_) => AgentLifecycle.BODY
      case Lease(_) => AgentLease.BODY
    }

    function Field(k: u64): Option<Value> {
      match this
      case Card(x) => AgentCard.Field(x, k)
      case Invoke(x) => AgentInvoke.Field(x, k)
      case Lifecycle(x) => AgentLifecycle.Field(x, k)
      case Lease(x) => AgentLease.Field(x, k)
    }

    function Signs(k: u64): Option<Value> { if k in Body() then Field(k) else None }
  }

  function FieldsOf(p: Payload): Fields {
    match p
    case Card(x) => AgentCard.CardFields(x)
    case Invoke(x) => AgentInvoke.Fields(x)
    case Lifecycle(x) => AgentLifecycle.Fields(x)
    case Lease(x) => AgentLease.Fields(x)
  }

  lemma BodyIsSignable(p: Payload)
    ensures Distinct(p.Body()) && |p.Body()| < TWO_TO_64
    ensures AllAdmissibleFields(p.Body(), FieldsOf(p))
    ensures DistinctKeys(Pairs(p.Body(), FieldsOf(p)))
    ensures p.SigningInput() == Map(Pairs(p.Body(), FieldsOf(p)))
  {
    hide Pairs, Map, DistinctKeys, AllAdmissibleFields, Distinct;
    match p
    case Card(x) =>
      AgentCard.KeysFit();
      AgentCard.Pairable(AgentCard.BODY, AgentCard.CardFields(x));
      AgentCardExact.FieldsAdmissible(x, AgentCard.BODY);
    case Invoke(x) =>
      AgentInvoke.KeysFit();
      AgentInvoke.Encodable(x);
      AgentInvoke.FieldsAdmissible(x, AgentInvoke.BODY);
    case Lifecycle(x) =>
      AgentLifecycle.KeysFit();
      AgentLifecycle.Encodable(x);
      AgentLifecycle.FieldsAdmissible(x, AgentLifecycle.BODY);
    case Lease(x) =>
      AgentLease.KeysFit();
      AgentLease.Encodable(x);
      AgentLease.FieldsAdmissible(x, AgentLease.BODY);
  }

  lemma SignsTheSame(a: Payload, b: Payload, k: u64)
    requires a.SigningInput() == b.SigningInput()
    ensures a.Signs(k) == b.Signs(k)
  {
    hide Pairs, Map, DistinctKeys, AllAdmissibleFields, Distinct;
    BodyIsSignable(a);
    BodyIsSignable(b);
    SignedBytesAgree(a.Body(), FieldsOf(a), b.Body(), FieldsOf(b), k);
  }

  /** The majors under keys 3 and 4 name the kind. */
  lemma SameKind(a: Payload, b: Payload)
    requires a.Signs(3) == b.Signs(3) && a.Signs(4) == b.Signs(4)
    ensures a.Card? == b.Card? && a.Invoke? == b.Invoke? && a.Lifecycle? == b.Lifecycle? && a.Lease? == b.Lease?
  {
  }

  lemma Signed(a: Payload, b: Payload, k: u64)
    requires a.SigningInput() == b.SigningInput() && k in a.Body() && k in b.Body()
    ensures a.Field(k) == b.Field(k)
  {
    SignsTheSame(a, b, k);
  }

  lemma LeaseDetermined(x: AgentLease.Lease, y: AgentLease.Lease)
    requires AgentLease.Field(x, 1) == AgentLease.Field(y, 1) && AgentLease.Field(x, 2) == AgentLease.Field(y, 2)
    requires AgentLease.Field(x, 3) == AgentLease.Field(y, 3) && AgentLease.Field(x, 4) == AgentLease.Field(y, 4)
    requires AgentLease.Field(x, 5) == AgentLease.Field(y, 5) && AgentLease.Field(x, 6) == AgentLease.Field(y, 6)
    ensures x.(sig := []) == y.(sig := [])
  {
  }

  lemma LeaseSigned(a: Payload, b: Payload)
    requires a.Lease? && b.Lease? && a.SigningInput() == b.SigningInput()
    ensures a.Unsigned() == b.Unsigned()
  {
    hide AgentLease.Field, AgentLease.SigningInput;
    Signed(a, b, 1); Signed(a, b, 2); Signed(a, b, 3); Signed(a, b, 4); Signed(a, b, 5); Signed(a, b, 6);
    LeaseDetermined(a.lease, b.lease);
  }

  lemma LifecycleDetermined(x: AgentLifecycle.Lifecycle, y: AgentLifecycle.Lifecycle)
    requires AgentLifecycle.Field(x, 1) == AgentLifecycle.Field(y, 1)
             && AgentLifecycle.Field(x, 2) == AgentLifecycle.Field(y, 2)
    requires AgentLifecycle.Field(x, 3) == AgentLifecycle.Field(y, 3)
             && AgentLifecycle.Field(x, 4) == AgentLifecycle.Field(y, 4)
    requires AgentLifecycle.Field(x, 5) == AgentLifecycle.Field(y, 5)
             && AgentLifecycle.Field(x, 6) == AgentLifecycle.Field(y, 6)
    requires AgentLifecycle.Field(x, 7) == AgentLifecycle.Field(y, 7)
             && AgentLifecycle.Field(x, 8) == AgentLifecycle.Field(y, 8)
    requires AgentLifecycle.Field(x, 10) == AgentLifecycle.Field(y, 10)
    ensures x.(sig := []) == y.(sig := [])
  {
    hide Ascii;
    if x.phase.Some? && y.phase.Some? {
      AgentLifecycle.PhaseNamed(x.phase.value.Name(), x.phase.value);
      AgentLifecycle.PhaseNamed(x.phase.value.Name(), y.phase.value);
    }
  }

  lemma LifecycleSigned(a: Payload, b: Payload)
    requires a.Lifecycle? && b.Lifecycle? && a.SigningInput() == b.SigningInput()
    ensures a.Unsigned() == b.Unsigned()
  {
    hide AgentLifecycle.Field, AgentLifecycle.SigningInput;
    Signed(a, b, 1); Signed(a, b, 2); Signed(a, b, 3); Signed(a, b, 4); Signed(a, b, 5); Signed(a, b, 6);
    Signed(a, b, 7); Signed(a, b, 8); Signed(a, b, 10);
    LifecycleDetermined(a.lifecycle, b.lifecycle);
  }

  lemma HandoffDetermined(h: Option<AgentInvoke.Handoff>, i: Option<AgentInvoke.Handoff>)
    requires AgentInvoke.HandoffField(h, 15) == AgentInvoke.HandoffField(i, 15)
    requires AgentInvoke.HandoffField(h, 16) == AgentInvoke.HandoffField(i, 16)
    requires AgentInvoke.HandoffField(h, 17) == AgentInvoke.HandoffField(i, 17)
    requires AgentInvoke.HandoffField(h, 18) == AgentInvoke.HandoffField(i, 18)
    ensures h == i
  {
  }

  lemma InvokeDetermined(x: AgentInvoke.Invoke, y: AgentInvoke.Invoke)
    requires AgentInvoke.Field(x, 1) == AgentInvoke.Field(y, 1) && AgentInvoke.Field(x, 2) == AgentInvoke.Field(y, 2)
    requires AgentInvoke.Field(x, 3) == AgentInvoke.Field(y, 3) && AgentInvoke.Field(x, 4) == AgentInvoke.Field(y, 4)
    requires AgentInvoke.Field(x, 5) == AgentInvoke.Field(y, 5) && AgentInvoke.Field(x, 6) == AgentInvoke.Field(y, 6)
    requires AgentInvoke.Field(x, 7) == AgentInvoke.Field(y, 7) && AgentInvoke.Field(x, 8) == AgentInvoke.Field(y, 8)
    requires AgentInvoke.Field(x, 9) == AgentInvoke.Field(y, 9) && AgentInvoke.Field(x, 10) == AgentInvoke.Field(y, 10)
    requires AgentInvoke.Field(x, 11) == AgentInvoke.Field(y, 11)
             && AgentInvoke.Field(x, 12) == AgentInvoke.Field(y, 12)
    requires AgentInvoke.Field(x, 14) == AgentInvoke.Field(y, 14)
             && AgentInvoke.Field(x, 15) == AgentInvoke.Field(y, 15)
    requires AgentInvoke.Field(x, 16) == AgentInvoke.Field(y, 16)
             && AgentInvoke.Field(x, 17) == AgentInvoke.Field(y, 17)
    requires AgentInvoke.Field(x, 18) == AgentInvoke.Field(y, 18)
    ensures x.(sig := []) == y.(sig := [])
  {
    hide Ascii, AgentInvoke.HandoffField;
    HandoffDetermined(x.handoff, y.handoff);
    CapabilityNamed(x.capability.Name(), x.capability);
    CapabilityNamed(x.capability.Name(), y.capability);
  }

  lemma InvokeIdsSigned(x: AgentInvoke.Invoke, y: AgentInvoke.Invoke)
    requires AgentInvoke.SigningInput(x) == AgentInvoke.SigningInput(y)
    ensures AgentInvoke.Field(x, 1) == AgentInvoke.Field(y, 1) && AgentInvoke.Field(x, 2) == AgentInvoke.Field(y, 2)
    ensures AgentInvoke.Field(x, 3) == AgentInvoke.Field(y, 3) && AgentInvoke.Field(x, 4) == AgentInvoke.Field(y, 4)
    ensures AgentInvoke.Field(x, 5) == AgentInvoke.Field(y, 5) && AgentInvoke.Field(x, 6) == AgentInvoke.Field(y, 6)
    ensures AgentInvoke.Field(x, 7) == AgentInvoke.Field(y, 7) && AgentInvoke.Field(x, 8) == AgentInvoke.Field(y, 8)
    ensures AgentInvoke.Field(x, 9) == AgentInvoke.Field(y, 9)
  {
    hide AgentInvoke.Field, AgentInvoke.SigningInput;
    var a, b := Invoke(x), Invoke(y);
    Signed(a, b, 1); Signed(a, b, 2); Signed(a, b, 3); Signed(a, b, 4); Signed(a, b, 5); Signed(a, b, 6);
    Signed(a, b, 7); Signed(a, b, 8); Signed(a, b, 9);
  }

  lemma InvokeRestSigned(x: AgentInvoke.Invoke, y: AgentInvoke.Invoke)
    requires AgentInvoke.SigningInput(x) == AgentInvoke.SigningInput(y)
    ensures AgentInvoke.Field(x, 10) == AgentInvoke.Field(y, 10) && AgentInvoke.Field(x, 11) == AgentInvoke.Field(y, 11)
    ensures AgentInvoke.Field(x, 12) == AgentInvoke.Field(y, 12) && AgentInvoke.Field(x, 14) == AgentInvoke.Field(y, 14)
    ensures AgentInvoke.Field(x, 15) == AgentInvoke.Field(y, 15) && AgentInvoke.Field(x, 16) == AgentInvoke.Field(y, 16)
    ensures AgentInvoke.Field(x, 17) == AgentInvoke.Field(y, 17) && AgentInvoke.Field(x, 18) == AgentInvoke.Field(y, 18)
  {
    hide AgentInvoke.Field, AgentInvoke.SigningInput;
    var a, b := Invoke(x), Invoke(y);
    Signed(a, b, 10); Signed(a, b, 11); Signed(a, b, 12); Signed(a, b, 14); Signed(a, b, 15); Signed(a, b, 16);
    Signed(a, b, 17); Signed(a, b, 18);
  }

  lemma InvokeSigned(a: Payload, b: Payload)
    requires a.Invoke? && b.Invoke? && a.SigningInput() == b.SigningInput()
    ensures a.Unsigned() == b.Unsigned()
  {
    hide AgentInvoke.Field, AgentInvoke.SigningInput;
    InvokeIdsSigned(a.invoke, b.invoke);
    InvokeRestSigned(a.invoke, b.invoke);
    InvokeDetermined(a.invoke, b.invoke);
  }

  lemma CapabilityTreesInjective(xs: seq<Capability>, ys: seq<Capability>)
    requires Trees(AgentCard.CapabilityTree, xs) == Trees(AgentCard.CapabilityTree, ys)
    ensures xs == ys
  {
    forall x, y | AgentCard.CapabilityTree(x) == AgentCard.CapabilityTree(y) ensures x == y {
      CapabilityNamed(x.Name(), x);
      CapabilityNamed(x.Name(), y);
    }
    TreesInjective(AgentCard.CapabilityTree, xs, ys);
  }

  lemma RepoTreeInjective(x: AgentCode.Repository, y: AgentCode.Repository)
    requires AgentCode.RepoTree(x) == AgentCode.RepoTree(y)
    ensures x == y
  {
    var s, t := AgentCode.RepoTree(x).items, AgentCode.RepoTree(y).items;
    assert |s| == |t| && s[0] == t[0] && s[1] == t[1];
    assert |s| == 3 ==> s[2] == t[2];
  }

  lemma CodeTreeInjective(x: AgentCode.Code, y: AgentCode.Code)
    requires AgentCode.CodeTree(x) == AgentCode.CodeTree(y)
    ensures x == y
  {
    var s, t := AgentCode.CodeTree(x).items, AgentCode.CodeTree(y).items;
    assert |s| == |t| && s[0] == t[0] && s[1] == t[1];
    forall p, q | AgentCode.RepoTree(p) == AgentCode.RepoTree(q) ensures p == q { RepoTreeInjective(p, q); }
    TreesInjective(AgentCode.RepoTree, x.repos, y.repos);
    if |s| == 3 {
      var u, w := AgentCode.TestTree(x.test.value).items, AgentCode.TestTree(y.test.value).items;
      assert s[2] == t[2];
      assert u[0] == w[0] && u[1] == w[1];
      TreesInjective(TextTree, x.test.value.argv, y.test.value.argv);
    }
  }

  lemma OrgTreeInjective(x: AgentCard.Org, y: AgentCard.Org)
    requires AgentCard.OrgTree(x) == AgentCard.OrgTree(y)
    ensures x == y
  {
    var s, t := AgentCard.OrgTree(x).items, AgentCard.OrgTree(y).items;
    assert s[0] == t[0] && s[1] == t[1] && s[2] == t[2] && s[3] == t[3] && s[4] == t[4] && s[5] == t[5];
  }

  lemma CardListsSigned(x: AgentCard.Card, y: AgentCard.Card)
    requires AgentCard.Field(x, 6) == AgentCard.Field(y, 6)
    requires AgentCard.Field(x, 7) == AgentCard.Field(y, 7)
    requires AgentCard.Field(x, 8) == AgentCard.Field(y, 8)
    ensures x.aliases == y.aliases && x.scopes == y.scopes && x.capabilities == y.capabilities
  {
    hide Trees;
    TreesInjective(TextTree, x.aliases, y.aliases);
    TreesInjective(BytesTree, x.scopes, y.scopes);
    CapabilityTreesInjective(x.capabilities, y.capabilities);
  }

  lemma CardBlocksSigned(x: AgentCard.Card, y: AgentCard.Card)
    requires AgentCard.Field(x, 14) == AgentCard.Field(y, 14)
    requires AgentCard.Field(x, 16) == AgentCard.Field(y, 16)
    ensures x.org == y.org && x.code == y.code
  {
    hide AgentCode.CodeTree, AgentCard.OrgTree;
    if x.org.Some? && y.org.Some? { OrgTreeInjective(x.org.value, y.org.value); }
    if x.code.Some? && y.code.Some? { CodeTreeInjective(x.code.value, y.code.value); }
  }

  lemma CardDetermined(x: AgentCard.Card, y: AgentCard.Card)
    requires AgentCard.Field(x, 1) == AgentCard.Field(y, 1) && AgentCard.Field(x, 2) == AgentCard.Field(y, 2)
    requires AgentCard.Field(x, 3) == AgentCard.Field(y, 3) && AgentCard.Field(x, 4) == AgentCard.Field(y, 4)
    requires AgentCard.Field(x, 5) == AgentCard.Field(y, 5) && AgentCard.Field(x, 6) == AgentCard.Field(y, 6)
    requires AgentCard.Field(x, 7) == AgentCard.Field(y, 7) && AgentCard.Field(x, 8) == AgentCard.Field(y, 8)
    requires AgentCard.Field(x, 9) == AgentCard.Field(y, 9) && AgentCard.Field(x, 10) == AgentCard.Field(y, 10)
    requires AgentCard.Field(x, 12) == AgentCard.Field(y, 12) && AgentCard.Field(x, 13) == AgentCard.Field(y, 13)
    requires AgentCard.Field(x, 14) == AgentCard.Field(y, 14) && AgentCard.Field(x, 16) == AgentCard.Field(y, 16)
    ensures x.(sig := []) == y.(sig := [])
  {
    hide Trees, Tree, AgentCode.CodeTree, AgentCard.OrgTree;
    CardListsSigned(x, y);
    CardBlocksSigned(x, y);
  }

  lemma CardSigned(a: Payload, b: Payload)
    requires a.Card? && b.Card? && a.SigningInput() == b.SigningInput()
    ensures a.Unsigned() == b.Unsigned()
  {
    hide AgentCard.Field, AgentCard.SigningInput;
    Signed(a, b, 1); Signed(a, b, 2); Signed(a, b, 3); Signed(a, b, 4); Signed(a, b, 5); Signed(a, b, 6);
    Signed(a, b, 7); Signed(a, b, 8); Signed(a, b, 9); Signed(a, b, 10); Signed(a, b, 12); Signed(a, b, 13);
    Signed(a, b, 14); Signed(a, b, 16);
    CardDetermined(a.card, b.card);
  }

  lemma UnsignedSignsTheSame(p: Payload)
    ensures p.SigningInput() == p.Unsigned().SigningInput()
  {
    hide Pairs, Map, DistinctKeys, AllAdmissibleFields, Distinct;
    var q := p.Unsigned();
    BodyIsSignable(p);
    BodyIsSignable(q);
    PairsDependOnBody(p.Body(), FieldsOf(p), FieldsOf(q));
  }

  lemma {:induction false} PairsDependOnBody(order: seq<u64>, f: Fields, g: Fields)
    requires forall k | k in order :: f(k) == g(k)
    ensures Pairs(order, f) == Pairs(order, g)
  {
    if |order| > 0 { PairsDependOnBody(order[1..], f, g); }
  }

  /** Two payloads of any kinds sign the same bytes exactly when they differ in the signature alone. */
  lemma SignatureCoversEverything(a: Payload, b: Payload)
    ensures a.SigningInput() == b.SigningInput() <==> a.Unsigned() == b.Unsigned()
  {
    if a.SigningInput() == b.SigningInput() {
      SignsTheSame(a, b, 3);
      SignsTheSame(a, b, 4);
      SameKind(a, b);
      match a
      case Card(_) => CardSigned(a, b);
      case Invoke(_) => InvokeSigned(a, b);
      case Lifecycle(_) => LifecycleSigned(a, b);
      case Lease(_) => LeaseSigned(a, b);
    }
    if a.Unsigned() == b.Unsigned() {
      UnsignedSignsTheSame(a);
      UnsignedSignsTheSame(b);
    }
  }
}
