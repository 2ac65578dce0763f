/** The four signed payloads and the handshake record, byte by byte. */
module PayloadWire {
  import opened Octets
  import opened AgentCbor
  import opened ValueTree
  import opened SchemaMaps
  import opened Payloads
  import W = WireBytes
  import AgentCapability
  import AgentLease
  import AgentLifecycle
  import AgentInvoke
  import AgentCard
  import AgentCode
  import HandshakeRecord

  // --------------------------------------------------------------- maps in key order

  function Entry(k: u64, v: Option<Value>): seq<byte> {
    if v.Some? then W.Num(k) + Encode(v.value) else []
  }

  /** The entries under a list of keys, an absent or uncovered one being empty. */
  function EntryList(order: seq<u64>, keys: seq<u64>, fields: Fields): seq<seq<byte>> {
    seq(|keys|, i requires 0 <= i < |keys| => Entry(keys[i], Covered(order, fields, keys[i])))
  }

  predicate AscendingKeys(keys: seq<u64>) { forall i, j | 0 <= i < j < |keys| :: keys[i] < keys[j] }

  /** The pairs of the covered keys, in key order. */
  function InOrder(order: seq<u64>, keys: seq<u64>, fields: Fields): Slots {
    if |keys| == 0 then [] else
      var tail, v := InOrder(order, keys[1..], fields), Covered(order, fields, keys[0]);
      if v.Some? then [(keys[0], Encode(v.value))] + tail else tail
  }

  lemma {:induction false} InOrderHolds(order: seq<u64>, keys: seq<u64>, fields: Fields)
    requires AscendingKeys(keys)
    ensures Ascending(InOrder(order, keys, fields))
    ensures forall p :: p in InOrder(order, keys, fields)
                        <==> p.0 in keys && p.0 in order && Raw(fields(p.0)) == Some(p.1)
  {
    if |keys| > 0 {
      InOrderHolds(order, keys[1..], fields);
      var tail := InOrder(order, keys[1..], fields);
      assert forall i | 0 <= i < |tail| :: tail[i] in tail;
      assert keys == [keys[0]] + keys[1..];
    }
  }

  lemma {:induction false} InOrderBytes(order: seq<u64>, keys: seq<u64>, fields: Fields)
    ensures Entries(InOrder(order, keys, fields)) == W.Chain(EntryList(order, keys, fields))
    ensures |InOrder(order, keys, fields)| == W.Present(EntryList(order, keys, fields))
  {
    hide W.Num, Uint;
    if |keys| > 0 {
      InOrderBytes(order, keys[1..], fields);
      var list := EntryList(order, keys, fields);
      assert list[1..] == EntryList(order, keys[1..], fields);
      W.ItemBytes(keys[0], [], []);
      var v := Covered(order, fields, keys[0]);
      if v.Some? {
        var slots := InOrder(order, keys, fields);
        assert slots[1..] == InOrder(order, keys[1..], fields);
        assert Uint(keys[0]) + (Encode(v.value) + Entries(slots[1..])) == list[0] + Entries(slots[1..]);
      }
    }
  }

  /** A payload is a map of its entries in key order, whatever order they were pushed in. */
  lemma MapWritten(order: seq<u64>, keys: seq<u64>, fields: Fields)
    requires Distinct(order) && AscendingKeys(keys) && |keys| < TWO_TO_64 && forall k | k in order :: k in keys
    ensures DistinctKeys(Pairs(order, fields))
    ensures Map(Pairs(order, fields)) == W.MapOf(EntryList(order, keys, fields))
  {
    var pairs, slots := Pairs(order, fields), InOrder(order, keys, fields);
    PairsHold(order, fields);
    InOrderHolds(order, keys, fields);
    forall p | p in slots ensures HasKey(pairs, p.0) { assert p in pairs; }
    Rebuilds(slots, pairs);
    hide SortByKey, Entries, W.Lead, Head, Pairs, InOrder;
    InOrderBytes(order, keys, fields);
    W.HeadBytes(5, |pairs|);
  }

  // ------------------------------------------------------------------------- items

  lemma ItemWritten(n: u64, b: Blob, t: Text)
    ensures Encode(UInt(n)) == W.Num(n) && Encode(Str(b)) == W.Str(b) && Encode(Txt(t)) == W.Chars(t)
  {
    hide W.Num, W.Str, W.Chars, Uint, ByteString, TextString;
    W.ItemBytes(n, b, t);
  }

  function Items(vs: seq<Value>): seq<seq<byte>> { seq(|vs|, i requires 0 <= i < |vs| => Encode(vs[i])) }

  lemma {:induction false} ItemsChain(vs: seq<Value>)
    ensures EncodeAll(vs) == W.Chain(Items(vs))
  {
    hide Encode;
    if |vs| > 0 {
      ItemsChain(vs[1..]);
      assert Items(vs)[1..] == Items(vs[1..]);
    }
  }

  lemma ListWritten(vs: Vec<Value>)
    ensures Encode(Arr(vs)) == W.List(Items(vs))
  {
    hide W.Lead, Head, EncodeAll;
    ItemsChain(vs);
    W.HeadBytes(4, |vs|);
  }

  lemma {:induction false} TreesAt<T>(tree: T -> Value, xs: seq<T>, i: nat)
    requires i < |xs|
    ensures Trees(tree, xs)[i] == tree(xs[i])
  {
    if i > 0 { TreesAt(tree, xs[1..], i - 1); }
  }

  function Texts(ts: seq<Text>): seq<seq<byte>> { seq(|ts|, i requires 0 <= i < |ts| => W.Chars(ts[i])) }

  function Blobs(bs: seq<Blob>): seq<seq<byte>> { seq(|bs|, i requires 0 <= i < |bs| => W.Str(bs[i])) }

  lemma TextsWritten(ts: Vec<Text>)
    ensures Encode(Arr(Trees(TextTree, ts))) == W.List(Texts(ts))
  {
    hide Encode, W.Chars, Trees;
    forall i | 0 <= i < |ts| ensures Encode(Trees(TextTree, ts)[i]) == W.Chars(ts[i]) {
      TreesAt(TextTree, ts, i);
      ItemWritten(0, [], ts[i]);
    }
    ListWritten(Trees(TextTree, ts));
    assert Items(Trees(TextTree, ts)) == Texts(ts);
  }

  lemma BlobsWritten(bs: Vec<Blob>)
    ensures Encode(Arr(Trees(BytesTree, bs))) == W.List(Blobs(bs))
  {
    hide Encode, W.Str, Trees;
    forall i | 0 <= i < |bs| ensures Encode(Trees(BytesTree, bs)[i]) == W.Str(bs[i]) {
      TreesAt(BytesTree, bs, i);
      ItemWritten(0, bs[i], []);
    }
    ListWritten(Trees(BytesTree, bs));
    assert Items(Trees(BytesTree, bs)) == Blobs(bs);
  }

  lemma KeyByte(k: u64)
    requires k < 24
    ensures W.Num(k) == [k]
  {
  }

  // ------------------------------------------------------------------------- lease

  /** `agent.lease`, signed or as it is signed. */
  function LeaseWire(x: AgentLease.Lease, signed: bool): seq<byte> {
    W.MapOf([[0x01] + W.Num(x.v), [0x02] + W.Str(x.agentId), [0x03] + W.Str(x.holder), [0x04] + W.Num(x.epoch),
             [0x05] + W.Num(x.acquiredAt), [0x06] + W.Num(x.expiresAt), if signed then [0x07] + W.Str(x.sig) else []])
  }

  lemma LeaseEntries(x: AgentLease.Lease, signed: bool)
    ensures var order := if signed then AgentLease.SIGNED else AgentLease.BODY;
            W.MapOf(EntryList(order, [1, 2, 3, 4, 5, 6, 7], AgentLease.Fields(x))) == LeaseWire(x, signed)
  {
    hide Encode, W.Num, W.Str, W.Chars, W.MapOf;
    ItemWritten(x.v, x.agentId, []);
    ItemWritten(x.epoch, x.holder, []);
    ItemWritten(x.acquiredAt, x.sig, []);
    ItemWritten(x.expiresAt, x.sig, []);
    forall k: u64 | k < 24 ensures W.Num(k) == [k] { KeyByte(k); }
    var order := if signed then AgentLease.SIGNED else AgentLease.BODY;
    assert EntryList(order, [1, 2, 3, 4, 5, 6, 7], AgentLease.Fields(x))
           == [[0x01] + W.Num(x.v), [0x02] + W.Str(x.agentId), [0x03] + W.Str(x.holder), [0x04] + W.Num(x.epoch),
               [0x05] + W.Num(x.acquiredAt), [0x06] + W.Num(x.expiresAt), if signed then [0x07] + W.Str(x.sig) else []];
  }

  lemma LeaseKeys()
    ensures Distinct(AgentLease.SIGNED) && Distinct(AgentLease.BODY) && AscendingKeys([1, 2, 3, 4, 5, 6, 7])
    ensures forall k | k in AgentLease.SIGNED || k in AgentLease.BODY :: k in [1, 2, 3, 4, 5, 6, 7]
  {
  }

  lemma LeaseWritten(x: AgentLease.Lease)
    ensures AgentLease.EncodeLease(x) == LeaseWire(x, true) && AgentLease.SigningInput(x) == LeaseWire(x, false)
  {
    hide Pairs, Map, EntryList, LeaseWire, AgentLease.Field, Distinct, AscendingKeys;
    LeaseKeys();
    MapWritten(AgentLease.SIGNED, [1, 2, 3, 4, 5, 6, 7], AgentLease.Fields(x));
    MapWritten(AgentLease.BODY, [1, 2, 3, 4, 5, 6, 7], AgentLease.Fields(x));
    LeaseEntries(x, true);
    LeaseEntries(x, false);
  }

  // --------------------------------------------------------------------- lifecycle

  function StateByte(state: AgentLifecycle.State): byte {
    match state
    case Accepted => 0x01
    case Running => 0x02
    case Completed => 0x03
    case Failed => 0x04
    case Declined => 0x05
    case Expired => 0x06
    case Cancelled => 0x07
  }

  function PhaseWord(phase: AgentLifecycle.Phase): Text {
    match phase
    case Claiming => Ascii("claiming")
    case Checkout => Ascii("checkout")
    case Planning => Ascii("planning")
    case Editing => Ascii("editing")
    case Testing => Ascii("testing")
    case Pushing => Ascii("pushing")
  }

  function LifecycleItems(x: AgentLifecycle.Lifecycle, signed: bool): seq<seq<byte>> {
    [[0x01] + W.Num(x.v), [0x02] + W.Str(x.invocationId), [0x03, StateByte(x.state)], [0x04] + W.Num(x.at),
     [0x05] + W.Str(x.host), W.OptChars(0x06, x.reason), W.OptChars(0x07, x.detail), W.OptStr(0x08, x.resultMessageId),
     if signed then [0x09] + W.Str(x.sig) else [],
     if x.phase.Some? then [0x0A] + W.Chars(PhaseWord(x.phase.value)) else []]
  }

  const LIFECYCLE_KEYS: seq<u64> := [1, 2, 3, 4, 5, 6, 7, 8, 9, 10]

  lemma LifecycleList(signed: bool, f: Fields)
    ensures EntryList(if signed then AgentLifecycle.SIGNED else AgentLifecycle.BODY, LIFECYCLE_KEYS, f)
            == [Entry(1, f(1)), Entry(2, f(2)), Entry(3, f(3)), Entry(4, f(4)), Entry(5, f(5)), Entry(6, f(6)),
                Entry(7, f(7)), Entry(8, f(8)), Entry(9, if signed then f(9) else None), Entry(10, f(10))]
  {
    hide Entry;
  }

  lemma LifecycleFirst(x: AgentLifecycle.Lifecycle)
    ensures var f := AgentLifecycle.Fields(x);
            && Entry(1, f(1)) == [0x01] + W.Num(x.v) && Entry(2, f(2)) == [0x02] + W.Str(x.invocationId)
            && Entry(3, f(3)) == [0x03, StateByte(x.state)] && Entry(4, f(4)) == [0x04] + W.Num(x.at)
            && Entry(5, f(5)) == [0x05] + W.Str(x.host)
  {
    hide Encode, W.Num, W.Str, W.Chars, Ascii;
    forall k: u64 | k < 24 ensures W.Num(k) == [k] { KeyByte(k); }
    ItemWritten(x.v, x.invocationId, []);
    ItemWritten(x.at, x.host, []);
    ItemWritten(x.state.Number(), [], []);
    assert [0x03] + [StateByte(x.state)] == [0x03, StateByte(x.state)];
  }

  lemma LifecycleSecond(x: AgentLifecycle.Lifecycle)
    ensures var f := AgentLifecycle.Fields(x);
            && Entry(6, f(6)) == W.OptChars(0x06, x.reason) && Entry(7, f(7)) == W.OptChars(0x07, x.detail)
            && Entry(8, f(8)) == W.OptStr(0x08, x.resultMessageId) && Entry(9, f(9)) == [0x09] + W.Str(x.sig)
            && Entry(9, None) == []
            && Entry(10, f(10)) == if x.phase.Some? then [0x0A] + W.Chars(PhaseWord(x.phase.value)) else []
  {
    hide Encode, W.Num, W.Str, W.Chars, Ascii;
    forall k: u64 | k < 24 ensures W.Num(k) == [k] { KeyByte(k); }
    ItemWritten(0, x.sig, if x.reason.Some? then x.reason.value else []);
    ItemWritten(0, if x.resultMessageId.Some? then x.resultMessageId.value else [],
                if x.detail.Some? then x.detail.value else []);
    if x.phase.Some? {
      ItemWritten(0, [], x.phase.value.Name());
      assert x.phase.value.Name() == PhaseWord(x.phase.value);
    }
  }

  lemma LifecycleEntries(x: AgentLifecycle.Lifecycle, signed: bool)
    ensures var order := if signed then AgentLifecycle.SIGNED else AgentLifecycle.BODY;
            EntryList(order, LIFECYCLE_KEYS, AgentLifecycle.Fields(x)) == LifecycleItems(x, signed)
  {
    hide Entry, EntryList, AgentLifecycle.Fields, W.Num, W.Str, W.Chars, W.OptStr, W.OptChars, PhaseWord, StateByte;
    LifecycleList(signed, AgentLifecycle.Fields(x));
    LifecycleFirst(x);
    LifecycleSecond(x);
  }

  lemma LifecycleKeys()
    ensures Distinct(AgentLifecycle.SIGNED) && Distinct(AgentLifecycle.BODY) && AscendingKeys(LIFECYCLE_KEYS)
    ensures forall k | k in AgentLifecycle.SIGNED || k in AgentLifecycle.BODY :: k in LIFECYCLE_KEYS
  {
    hide AgentLifecycle.Field;
    AgentLifecycle.KeysFit();
  }

  /** `agent.lifecycle`: its bytes, and the bytes its signature covers. */
  lemma LifecycleWritten(x: AgentLifecycle.Lifecycle)
    ensures AgentLifecycle.EncodeLifecycle(x) == W.MapOf(LifecycleItems(x, true))
    ensures AgentLifecycle.SigningInput(x) == W.MapOf(LifecycleItems(x, false))
  {
    hide Pairs, Map, EntryList, AgentLifecycle.Field, Distinct, AscendingKeys, W.MapOf;
    LifecycleKeys();
    MapWritten(AgentLifecycle.SIGNED, LIFECYCLE_KEYS, AgentLifecycle.Fields(x));
    MapWritten(AgentLifecycle.BODY, LIFECYCLE_KEYS, AgentLifecycle.Fields(x));
    LifecycleEntries(x, true);
    LifecycleEntries(x, false);
  }

  /** Which fields a record in each state may carry. */
  lemma LifecycleRules(x: AgentLifecycle.Lifecycle)
    ensures AgentLifecycle.Valid(x)
            <==> && |x.invocationId| == 16
                 && (x.reason.Some? <==> x.state.Failed? || x.state.Declined? || x.state.Expired?)
                 && (x.reason.Some? ==> x.reason.value in AgentLifecycle.Reasons())
                 && (x.reason == Some(Ascii("repo.unbound")) ==> x.state == AgentLifecycle.Declined)
                 && (x.reason.Some? && x.reason != Some(Ascii("repo.unbound")) ==>
                       x.reason.value in AgentLifecycle.FailureReasons() ==> x.state == AgentLifecycle.Failed)
                 && (x.phase.Some? ==> x.state == AgentLifecycle.Running)
                 && (x.detail.Some? ==> |x.detail.value| <= 512)
                 && (x.resultMessageId.Some? <==> x.state == AgentLifecycle.Completed)
                 && (x.resultMessageId.Some? ==> |x.resultMessageId.value| == 16)
  {
    hide AgentLifecycle.Reasons, AgentLifecycle.FailureReasons, Ascii;
  }

  // ------------------------------------------------------------------------ invoke

  function CapabilityWord(c: AgentCapability.Capability): Text {
    match c
    case ChatReply => Ascii("chat.reply")
    case ReadChannel => Ascii("read.channel")
    case ReadTicket => Ascii("read.ticket")
    case CodePullRequest => Ascii("code.pullrequest")
    case CiReport => Ascii("ci.report")
    case ComputeRemote => Ascii("compute.remote")
  }

  function HandoffItems(h: Option<AgentInvoke.Handoff>): seq<seq<byte>> {
    match h
    case None => [[], [], [], []]
    case Some(Handoff(parent, hop, delegator, sig)) =>
      [[0x0F] + W.Str(parent), [0x10] + W.Num(hop), [0x11] + W.Str(delegator), [0x12] + W.Str(sig)]
  }

  function InvokeItems(x: AgentInvoke.Invoke, signed: bool): seq<seq<byte>> {
    [[0x01] + W.Num(x.v), [0x02] + W.Str(x.invocationId), [0x03] + W.Str(x.idempotencyKey),
     [0x04] + W.Str(x.targetAgentId), [0x05] + W.Num(x.expectedProfileVersion), [0x06] + W.Str(x.sourceMessageId),
     [0x07] + W.Str(x.scope)]
    + ([W.OptStr(0x08, x.threadRef), W.OptChars(0x09, x.ticketRef), [0x0A] + W.Str(x.requester),
        [0x0B] + W.Chars(CapabilityWord(x.capability)), [0x0C] + W.Num(x.deadline),
        if signed then [0x0D] + W.Str(x.sig) else [], W.OptChars(0x0E, x.repoRef)]
       + HandoffItems(x.handoff))
  }

  const INVOKE_KEYS: seq<u64> := [1, 2, 3, 4, 5, 6, 7, 8, 9, 10, 11, 12, 13, 14, 15, 16, 17, 18]

  lemma HandoffEntries(x: AgentInvoke.Invoke)
    ensures var f := AgentInvoke.Fields(x);
            [Entry(15, f(15)), Entry(16, f(16)), Entry(17, f(17)), Entry(18, f(18))] == HandoffItems(x.handoff)
  {
    hide Encode, W.Num, W.Str;
    if x.handoff.Some? {
      var h := x.handoff.value;
      ItemWritten(h.hop, h.parentInvocationId, []);
      ItemWritten(h.hop, h.delegator, []);
      ItemWritten(h.hop, h.delegatorSig, []);
      KeyByte(15);
      KeyByte(16);
      KeyByte(17);
      KeyByte(18);
    }
  }

  predicate AllBut(order: seq<u64>, last: u64, out: set<u64>) {
    forall k: u64 | 1 <= k <= last :: k in order <==> k !in out
  }

  lemma EntriesJoin(order: seq<u64>, a: seq<u64>, b: seq<u64>, f: Fields)
    ensures EntryList(order, a + b, f) == EntryList(order, a, f) + EntryList(order, b, f)
  {
    hide Entry, Covered;
  }

  lemma EntriesOne(order: seq<u64>, f: Fields, out: set<u64>, last: u64)
    requires last >= 14 && AllBut(order, last, out) && out !! {1, 2, 3, 4, 5, 6, 7}
    ensures EntryList(order, [1, 2, 3, 4, 5, 6, 7], f)
            == [Entry(1, f(1)), Entry(2, f(2)), Entry(3, f(3)), Entry(4, f(4)), Entry(5, f(5)), Entry(6, f(6)),
                Entry(7, f(7))]
  {
    hide Entry;
  }

  lemma InvokeList(order: seq<u64>, f: Fields, out: set<u64>)
    requires AllBut(order, 18, out) && out <= {13}
    ensures EntryList(order, INVOKE_KEYS, f)
            == [Entry(1, f(1)), Entry(2, f(2)), Entry(3, f(3)), Entry(4, f(4)), Entry(5, f(5)), Entry(6, f(6)),
                Entry(7, f(7))]
               + ([Entry(8, f(8)), Entry(9, f(9)), Entry(10, f(10)), Entry(11, f(11)), Entry(12, f(12)),
                   Entry(13, if 13 in out then None else f(13)), Entry(14, f(14))]
                  + [Entry(15, f(15)), Entry(16, f(16)), Entry(17, f(17)), Entry(18, f(18))])
  {
    var a, b, c := [1, 2, 3, 4, 5, 6, 7], [8, 9, 10, 11, 12, 13, 14], [15, 16, 17, 18];
    assert INVOKE_KEYS == a + (b + c);
    EntriesJoin(order, a, b + c, f);
    EntriesJoin(order, b, c, f);
    EntriesOne(order, f, out, 18);
    hide Entry;
    InvokeMiddle(order, f, out);
    InvokeEnd(order, f, out);
    hide EntryList;
  }

  lemma InvokeMiddle(order: seq<u64>, f: Fields, out: set<u64>)
    requires AllBut(order, 18, out) && out <= {13}
    ensures EntryList(order, [8, 9, 10, 11, 12, 13, 14], f)
            == [Entry(8, f(8)), Entry(9, f(9)), Entry(10, f(10)), Entry(11, f(11)), Entry(12, f(12)),
                Entry(13, if 13 in out then None else f(13)), Entry(14, f(14))]
  {
    hide Entry;
  }

  lemma InvokeEnd(order: seq<u64>, f: Fields, out: set<u64>)
    requires AllBut(order, 18, out) && out <= {13}
    ensures EntryList(order, [15, 16, 17, 18], f)
            == [Entry(15, f(15)), Entry(16, f(16)), Entry(17, f(17)), Entry(18, f(18))]
  {
    hide Entry;
  }

  lemma InvokeEntries(x: AgentInvoke.Invoke, signed: bool)
    ensures EntryList(if signed then AgentInvoke.SIGNED else AgentInvoke.BODY, INVOKE_KEYS, AgentInvoke.Fields(x))
            == InvokeItems(x, signed)
  {
    hide Entry, EntryList, HandoffItems, AgentInvoke.Fields, W.Num, W.Str, W.Chars, W.OptStr, W.OptChars,
         CapabilityWord;
    InvokeCovers(signed);
    hide AllBut;
    var order, out := if signed then AgentInvoke.SIGNED else AgentInvoke.BODY, if signed then {} else {13};
    InvokeList(order, AgentInvoke.Fields(x), out);
    InvokeFirst(x);
    InvokeSecond(x);
    HandoffEntries(x);
  }

  lemma InvokeCovers(signed: bool)
    ensures var order := if signed then AgentInvoke.SIGNED else AgentInvoke.BODY;
            AllBut(order, 18, if signed then {} else {13})
  {
    var b, s := AgentInvoke.BODY, AgentInvoke.SIGNED;
    assert b[0] == 1 && b[1] == 2 && b[2] == 3 && b[3] == 4 && b[4] == 5 && b[5] == 6 && b[6] == 7 && b[7] == 8;
    assert b[8] == 9 && b[9] == 14 && b[10] == 10 && b[11] == 11 && b[12] == 12 && b[13] == 15 && b[14] == 16;
    assert b[15] == 17 && b[16] == 18 && s == b + [13];
  }

  lemma InvokeFirst(x: AgentInvoke.Invoke)
    ensures var f := AgentInvoke.Fields(x);
            && Entry(1, f(1)) == [0x01] + W.Num(x.v) && Entry(2, f(2)) == [0x02] + W.Str(x.invocationId)
            && Entry(3, f(3)) == [0x03] + W.Str(x.idempotencyKey) && Entry(4, f(4)) == [0x04] + W.Str(x.targetAgentId)
            && Entry(5, f(5)) == [0x05] + W.Num(x.expectedProfileVersion)
            && Entry(6, f(6)) == [0x06] + W.Str(x.sourceMessageId) && Entry(7, f(7)) == [0x07] + W.Str(x.scope)
  {
    hide Encode, W.Num, W.Str, W.Chars, AgentInvoke.HandoffField;
    forall k: u64 | k < 24 ensures W.Num(k) == [k] { KeyByte(k); }
    ItemWritten(x.v, x.invocationId, []);
    ItemWritten(x.v, x.idempotencyKey, []);
    ItemWritten(x.v, x.targetAgentId, []);
    ItemWritten(x.expectedProfileVersion, x.sourceMessageId, []);
    ItemWritten(x.v, x.scope, []);
  }

  lemma InvokeSecond(x: AgentInvoke.Invoke)
    ensures var f := AgentInvoke.Fields(x);
            && Entry(8, f(8)) == W.OptStr(0x08, x.threadRef) && Entry(9, f(9)) == W.OptChars(0x09, x.ticketRef)
            && Entry(10, f(10)) == [0x0A] + W.Str(x.requester)
            && Entry(11, f(11)) == [0x0B] + W.Chars(CapabilityWord(x.capability))
            && Entry(12, f(12)) == [0x0C] + W.Num(x.deadline) && Entry(13, f(13)) == [0x0D] + W.Str(x.sig)
            && Entry(14, f(14)) == W.OptChars(0x0E, x.repoRef) && Entry(13, None) == []
  {
    hide Encode, W.Num, W.Str, W.Chars, AgentInvoke.HandoffField, Ascii;
    forall k: u64 | k < 24 ensures W.Num(k) == [k] { KeyByte(k); }
    ItemWritten(x.deadline, if x.threadRef.Some? then x.threadRef.value else [],
                if x.ticketRef.Some? then x.ticketRef.value else []);
    ItemWritten(x.deadline, x.requester, x.capability.Name());
    ItemWritten(x.deadline, x.sig, if x.repoRef.Some? then x.repoRef.value else []);
    assert x.capability.Name() == CapabilityWord(x.capability);
  }

  lemma InvokeKeys()
    ensures Distinct(AgentInvoke.SIGNED) && Distinct(AgentInvoke.BODY) && AscendingKeys(INVOKE_KEYS)
    ensures forall k | k in AgentInvoke.SIGNED || k in AgentInvoke.BODY :: k in INVOKE_KEYS
  {
    hide AgentInvoke.Field;
    AgentInvoke.KeysFit();
    assert forall i | 0 <= i < |INVOKE_KEYS| :: INVOKE_KEYS[i] == i + 1;
    assert AgentInvoke.SIGNED == AgentInvoke.BODY + [13];
  }

  /** `agent.invoke`: its bytes, and the bytes its signature covers. */
  lemma InvokeWritten(x: AgentInvoke.Invoke)
    ensures AgentInvoke.EncodeInvoke(x) == W.MapOf(InvokeItems(x, true))
    ensures AgentInvoke.SigningInput(x) == W.MapOf(InvokeItems(x, false))
  {
    hide Pairs, Map, EntryList, AgentInvoke.Field, Distinct, AscendingKeys, InvokeItems, W.MapOf;
    InvokeKeys();
    MapWritten(AgentInvoke.SIGNED, INVOKE_KEYS, AgentInvoke.Fields(x));
    MapWritten(AgentInvoke.BODY, INVOKE_KEYS, AgentInvoke.Fields(x));
    InvokeEntries(x, true);
    InvokeEntries(x, false);
  }

  // ------------------------------------------------------------- handshake records

  /** A record is its tag and its bytes. */
  lemma RecordWritten(r: HandshakeRecord.Record)
    ensures HandshakeRecord.EncodeRecord(r)
            == [0x82]
               + W.Chain(match r
                         case Mls(b) => [[0x00], W.Str(b)]
                         case Standing(b) => [[0x01], W.Str(b)]
                         case Claim(b) => [[0x02], W.Str(b)]
                         case History(b) => [[0x03], W.Str(b)]
                         case Unknown(tag, b) => [W.Num(tag), W.Str(b)])
  {
    hide Encode, W.Str, W.Chain, EncodeAll;
    var tag, b := r.Tag(), r.Payload();
    HandshakeRecord.RecordTree(r);
    ListWritten([UInt(tag), Str(b)]);
    ItemWritten(tag, b, []);
    assert Items([UInt(tag), Str(b)]) == [W.Num(tag), W.Str(b)];
  }

  // -------------------------------------------------------------------------- card

  function RepoWire(r: AgentCode.Repository): seq<byte> {
    W.List([W.Num(r.repositoryId), W.Chars(r.repoRef)]
           + if r.baseBranch.Some? then [W.Chars(r.baseBranch.value)] else [])
  }

  function RepoWires(rs: seq<AgentCode.Repository>): seq<seq<byte>> {
    seq(|rs|, i requires 0 <= i < |rs| => RepoWire(rs[i]))
  }

  function CodeWire(c: AgentCode.Code): seq<byte> {
    W.List([W.List(RepoWires(c.repos)), W.Num(c.installationId)]
           + match c.test
             case None => []
             case Some(test) => [W.List([W.List(Texts(test.argv)), W.Num(test.timeoutSeconds)])])
  }

  function OrgWire(org: AgentCard.Org): seq<byte> {
    W.List([W.Str(org.orgId), W.Chars(org.gatewayRegion), W.Chars(org.provider), W.Chars(org.model),
            W.Chars(org.retentionPolicy), W.Chars(org.costPolicy)])
  }

  function CapabilityWires(cs: seq<AgentCapability.Capability>): seq<seq<byte>> {
    seq(|cs|, i requires 0 <= i < |cs| => W.Chars(CapabilityWord(cs[i])))
  }

  lemma RepoWritten(r: AgentCode.Repository)
    ensures Encode(AgentCode.RepoTree(r)) == RepoWire(r)
  {
    hide Encode, W.Num, W.Chars, W.List;
    ItemWritten(r.repositoryId, [], r.repoRef);
    match r.baseBranch
    case None =>
      ListWritten([UInt(r.repositoryId), Txt(r.repoRef)]);
      assert Items([UInt(r.repositoryId), Txt(r.repoRef)]) == [W.Num(r.repositoryId), W.Chars(r.repoRef)] + [];
    case Some(b) =>
      ItemWritten(0, [], b);
      ListWritten([UInt(r.repositoryId), Txt(r.repoRef), Txt(b)]);
      assert Items([UInt(r.repositoryId), Txt(r.repoRef), Txt(b)])
             == [W.Num(r.repositoryId), W.Chars(r.repoRef)] + [W.Chars(b)];
  }

  lemma ReposWritten(rs: Vec<AgentCode.Repository>)
    ensures Encode(Arr(Trees(AgentCode.RepoTree, rs))) == W.List(RepoWires(rs))
  {
    hide Encode, RepoWire, Trees, AgentCode.RepoTree;
    forall i | 0 <= i < |rs| ensures Encode(Trees(AgentCode.RepoTree, rs)[i]) == RepoWire(rs[i]) {
      TreesAt(AgentCode.RepoTree, rs, i);
      RepoWritten(rs[i]);
    }
    ListWritten(Trees(AgentCode.RepoTree, rs));
    assert Items(Trees(AgentCode.RepoTree, rs)) == RepoWires(rs);
  }

  lemma TestWritten(t: AgentCode.TestPolicy)
    ensures Encode(AgentCode.TestTree(t)) == W.List([W.List(Texts(t.argv)), W.Num(t.timeoutSeconds)])
  {
    hide Encode, W.Num, W.List, Texts, Trees;
    TextsWritten(t.argv);
    ItemWritten(t.timeoutSeconds, [], []);
    var a, b := Arr(Trees(TextTree, t.argv)), UInt(t.timeoutSeconds);
    ListWritten([a, b]);
    assert Items([a, b]) == [Encode(a), Encode(b)];
  }

  lemma CodeWritten(c: AgentCode.Code)
    ensures Encode(AgentCode.CodeTree(c)) == CodeWire(c)
  {
    hide Encode, W.Num, W.List, RepoWires, Texts, Trees, AgentCode.TestTree;
    ReposWritten(c.repos);
    ItemWritten(c.installationId, [], []);
    var a, b := Arr(Trees(AgentCode.RepoTree, c.repos)), UInt(c.installationId);
    match c.test
    case None =>
      ListWritten([a, b]);
      assert Items([a, b]) == [Encode(a), Encode(b)] + [];
    case Some(test) =>
      TestWritten(test);
      ListWritten([a, b, AgentCode.TestTree(test)]);
      assert Items([a, b, AgentCode.TestTree(test)]) == [Encode(a), Encode(b)] + [Encode(AgentCode.TestTree(test))];
  }

  lemma OrgWritten(org: AgentCard.Org)
    ensures Encode(AgentCard.OrgTree(org)) == OrgWire(org)
  {
    hide Encode, W.Str, W.Chars, W.List;
    ItemWritten(0, org.orgId, org.gatewayRegion);
    ItemWritten(0, [], org.provider);
    ItemWritten(0, [], org.model);
    ItemWritten(0, [], org.retentionPolicy);
    ItemWritten(0, [], org.costPolicy);
    var vs := [Str(org.orgId), Txt(org.gatewayRegion), Txt(org.provider),
               Txt(org.model), Txt(org.retentionPolicy), Txt(org.costPolicy)];
    ListWritten(vs);
    assert Items(vs) == [W.Str(org.orgId), W.Chars(org.gatewayRegion), W.Chars(org.provider), W.Chars(org.model),
                         W.Chars(org.retentionPolicy), W.Chars(org.costPolicy)];
  }

  lemma CapabilitiesWritten(cs: Vec<AgentCapability.Capability>)
    ensures Encode(Arr(Trees(AgentCard.CapabilityTree, cs))) == W.List(CapabilityWires(cs))
  {
    hide Encode, W.Chars, Trees, Ascii;
    forall i | 0 <= i < |cs|
      ensures Encode(Trees(AgentCard.CapabilityTree, cs)[i]) == W.Chars(CapabilityWord(cs[i]))
    {
      TreesAt(AgentCard.CapabilityTree, cs, i);
      ItemWritten(0, [], cs[i].Name());
      assert cs[i].Name() == CapabilityWord(cs[i]);
    }
    ListWritten(Trees(AgentCard.CapabilityTree, cs));
    assert Items(Trees(AgentCard.CapabilityTree, cs)) == CapabilityWires(cs);
  }

  function HostByte(kind: AgentCard.HostKind): byte { match kind case User => 0x00 case Organization => 0x01 }

  function AvailabilityByte(a: AgentCard.Availability): byte {
    match a
    case Online => 0x00
    case Offline => 0x01
    case Suspended => 0x02
  }

  /** What a card covers, and the hash and the signature that `encode` adds. */
  function CardItems(x: AgentCard.Card, hash: Option<Blob>, signed: bool): seq<seq<byte>> {
    [[0x01] + W.Num(x.v), [0x02] + W.Str(x.agentId), [0x03, HostByte(x.hostKind)], [0x04] + W.Str(x.ownerPrincipal),
     [0x05] + W.Chars(x.displayName), [0x06] + W.List(Texts(x.aliases)), [0x07] + W.List(Blobs(x.scopes))]
    + [[0x08] + W.List(CapabilityWires(x.capabilities)), [0x09, AvailabilityByte(x.availability)],
       [0x0A] + W.Num(x.profileVersion), W.OptStr(0x0B, hash), [0x0C] + W.Num(x.issuedAt), [0x0D] + W.Num(x.expiresAt),
       if x.org.Some? then [0x0E] + OrgWire(x.org.value) else [], if signed then [0x0F] + W.Str(x.sig) else [],
       if x.code.Some? then [0x10] + CodeWire(x.code.value) else []]
  }

  const CARD_KEYS: seq<u64> := [1, 2, 3, 4, 5, 6, 7, 8, 9, 10, 11, 12, 13, 14, 15, 16]

  lemma CardList(order: seq<u64>, f: Fields, out: set<u64>)
    requires AllBut(order, 16, out) && out <= {11, 15}
    ensures EntryList(order, CARD_KEYS, f)
            == [Entry(1, f(1)), Entry(2, f(2)), Entry(3, f(3)), Entry(4, f(4)), Entry(5, f(5)), Entry(6, f(6)),
                Entry(7, f(7))]
               + [Entry(8, f(8)), Entry(9, f(9)), Entry(10, f(10)), Entry(11, if 11 in out then None else f(11)),
                  Entry(12, f(12)), Entry(13, f(13)), Entry(14, f(14)), Entry(15, if 15 in out then None else f(15)),
                  Entry(16, f(16))]
  {
    var a, b := [1, 2, 3, 4, 5, 6, 7], [8, 9, 10, 11, 12, 13, 14, 15, 16];
    assert CARD_KEYS == a + b;
    EntriesJoin(order, a, b, f);
    EntriesOne(order, f, out, 16);
    hide Entry;
    CardEnd(order, f, out);
    hide EntryList;
  }

  lemma CardEnd(order: seq<u64>, f: Fields, out: set<u64>)
    requires AllBut(order, 16, out) && out <= {11, 15}
    ensures EntryList(order, [8, 9, 10, 11, 12, 13, 14, 15, 16], f)
            == [Entry(8, f(8)), Entry(9, f(9)), Entry(10, f(10)), Entry(11, if 11 in out then None else f(11)),
                Entry(12, f(12)), Entry(13, f(13)), Entry(14, f(14)), Entry(15, if 15 in out then None else f(15)),
                Entry(16, f(16))]
  {
    hide Entry;
  }

  /** The fields agree on everything a card covers. */
  predicate CardLike(x: AgentCard.Card, f: Fields) { forall k: u64 | k != 11 :: f(k) == AgentCard.Field(x, k) }

  lemma CardFirst(x: AgentCard.Card, f: Fields)
    requires CardLike(x, f)
    ensures && Entry(1, f(1)) == [0x01] + W.Num(x.v) && Entry(2, f(2)) == [0x02] + W.Str(x.agentId)
            && Entry(3, f(3)) == [0x03, HostByte(x.hostKind)] && Entry(4, f(4)) == [0x04] + W.Str(x.ownerPrincipal)
            && Entry(5, f(5)) == [0x05] + W.Chars(x.displayName) && Entry(6, f(6)) == [0x06] + W.List(Texts(x.aliases))
            && Entry(7, f(7)) == [0x07] + W.List(Blobs(x.scopes))
  {
    hide Encode, W.Num, W.Str, W.Chars, W.List, Texts, Blobs, Trees;
    forall k: u64 | k < 24 ensures W.Num(k) == [k] { KeyByte(k); }
    ItemWritten(x.v, x.agentId, x.displayName);
    ItemWritten(x.hostKind.Number(), x.ownerPrincipal, []);
    TextsWritten(x.aliases);
    BlobsWritten(x.scopes);
    assert [0x03] + [HostByte(x.hostKind)] == [0x03, HostByte(x.hostKind)];
  }

  lemma CardSecond(x: AgentCard.Card, f: Fields)
    requires CardLike(x, f)
    ensures && Entry(8, f(8)) == [0x08] + W.List(CapabilityWires(x.capabilities))
            && Entry(9, f(9)) == [0x09, AvailabilityByte(x.availability)]
            && Entry(10, f(10)) == [0x0A] + W.Num(x.profileVersion) && Entry(12, f(12)) == [0x0C] + W.Num(x.issuedAt)
            && Entry(13, f(13)) == [0x0D] + W.Num(x.expiresAt) && Entry(15, f(15)) == [0x0F] + W.Str(x.sig)
  {
    hide Encode, W.Num, W.Str, W.List, CapabilityWires, Trees;
    forall k: u64 | k < 24 ensures W.Num(k) == [k] { KeyByte(k); }
    CapabilitiesWritten(x.capabilities);
    ItemWritten(x.availability.Number(), x.sig, []);
    ItemWritten(x.profileVersion, [], []);
    ItemWritten(x.issuedAt, [], []);
    ItemWritten(x.expiresAt, [], []);
    assert [0x09] + [AvailabilityByte(x.availability)] == [0x09, AvailabilityByte(x.availability)];
  }

  lemma CardBlocks(x: AgentCard.Card, f: Fields)
    requires CardLike(x, f)
    ensures Entry(14, f(14)) == if x.org.Some? then [0x0E] + OrgWire(x.org.value) else []
    ensures Entry(16, f(16)) == if x.code.Some? then [0x10] + CodeWire(x.code.value) else []
  {
    hide Encode, W.Num, OrgWire, CodeWire, AgentCode.CodeTree, AgentCard.OrgTree;
    KeyByte(14);
    KeyByte(16);
    if x.org.Some? { OrgWritten(x.org.value); }
    if x.code.Some? { CodeWritten(x.code.value); }
  }

  lemma CardCovers()
    ensures AllBut(AgentCard.BODY, 16, {11, 15}) && AllBut(AgentCard.SIGNED, 16, {})
  {
    var b, s := AgentCard.BODY, AgentCard.SIGNED;
    assert b[0] == 1 && b[1] == 2 && b[2] == 3 && b[3] == 4 && b[4] == 5 && b[5] == 6 && b[6] == 7 && b[7] == 8;
    assert b[8] == 9 && b[9] == 10 && b[10] == 12 && b[11] == 13 && b[12] == 14 && b[13] == 16 && s == b + [11, 15];
  }

  lemma CardKeys()
    ensures Distinct(AgentCard.SIGNED) && Distinct(AgentCard.BODY) && AscendingKeys(CARD_KEYS)
    ensures forall k | k in AgentCard.SIGNED || k in AgentCard.BODY :: k in CARD_KEYS
  {
    hide AgentCard.Field;
    AgentCard.KeysFit();
    assert forall i | 0 <= i < |CARD_KEYS| :: CARD_KEYS[i] == i + 1;
    assert AgentCard.SIGNED == AgentCard.BODY + [11, 15];
  }

  lemma CardEntries(x: AgentCard.Card, f: Fields, hash: Option<Blob>, signed: bool)
    requires CardLike(x, f) && (signed ==> hash.Some? && f(11) == Some(Str(hash.value)))
    requires signed || hash.None?
    ensures EntryList(if signed then AgentCard.SIGNED else AgentCard.BODY, CARD_KEYS, f) == CardItems(x, hash, signed)
  {
    CardFirst(x, f);
    CardSecond(x, f);
    CardBlocks(x, f);
    HashEntry(f, hash);
    CardCovers();
    hide Entry, EntryList, W.Num, W.Str, W.Chars, W.List, Texts, Blobs, CapabilityWires, OrgWire, CodeWire, AllBut,
         CardLike;
    if signed { CardList(AgentCard.SIGNED, f, {}); } else { CardList(AgentCard.BODY, f, {11, 15}); }
  }

  lemma HashEntry(f: Fields, hash: Option<Blob>)
    ensures Entry(11, None) == [] && Entry(15, None) == []
    ensures hash.Some? && f(11) == Some(Str(hash.value)) ==> Entry(11, f(11)) == W.OptStr(0x0B, hash)
  {
    hide Encode, W.Num, W.Str;
    KeyByte(11);
    if hash.Some? { ItemWritten(0, hash.value, []); }
  }

  /** `agent.card`: its bytes, with the hash of what it covers and its signature, and the bytes they cover. */
  lemma CardWritten(p: AgentCard.Primitives, x: AgentCard.Card)
    ensures AgentCard.SigningInput(x) == W.MapOf(CardItems(x, None, false))
    ensures AgentCard.EncodeCard(p, x)
            == W.MapOf(CardItems(x, Some(p.blake3(W.MapOf(CardItems(x, None, false)))), true))
  {
    hide Pairs, Map, EntryList, Distinct, AscendingKeys, CardItems, W.MapOf;
    CardKeys();
    var hash := AgentCard.CardHash(p, x);
    var full := AgentCard.FullFields(p, x);
    assert CardLike(x, full) && CardLike(x, AgentCard.CardFields(x)) && full(11) == Some(Str(hash));
    hide AgentCard.Field, CardLike;
    MapWritten(AgentCard.BODY, CARD_KEYS, AgentCard.CardFields(x));
    CardEntries(x, AgentCard.CardFields(x), None, false);
    MapWritten(AgentCard.SIGNED, CARD_KEYS, full);
    CardEntries(x, full, Some(hash), true);
  }
}
