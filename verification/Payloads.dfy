/** What the four signed payloads share: fields under keys, one map, and readers that undo the writers exactly. */
module Payloads {
  import opened Octets
  import opened AgentCbor
  import opened ValueTree
  import opened SchemaMaps

  /** The item a payload carries under each key, if it carries one. */
  type Fields = u64 -> Option<Value>

  /** The pairs pushed for `order`, one key after another; an absent field pushes nothing. */
  function Pairs(order: seq<u64>, fields: Fields): Slots {
    if |order| == 0 then [] else
      var tail := Pairs(order[1..], fields);
      match fields(order[0])
      case Some(v) => [(order[0], Encode(v))] + tail
      case None => tail
  }

  predicate Distinct(order: seq<u64>) {
    forall i, j | 0 <= i < j < |order| :: order[i] != order[j]
  }

  predicate AllAdmissibleFields(order: seq<u64>, fields: Fields) {
    forall k | k in order && fields(k).Some? :: Admissible(fields(k).value, 0)
  }

  function Raw(field: Option<Value>): Option<seq<byte>> {
    if field.Some? then Some(Encode(field.value)) else None
  }

  lemma {:induction false} PairsHold(order: seq<u64>, fields: Fields)
    requires Distinct(order)
    ensures DistinctKeys(Pairs(order, fields)) && |Pairs(order, fields)| <= |order|
    ensures forall p :: p in Pairs(order, fields) <==> p.0 in order && Raw(fields(p.0)) == Some(p.1)
  {
    if |order| > 0 {
      PairsHold(order[1..], fields);
      var tail := Pairs(order[1..], fields);
      assert forall i | 0 <= i < |tail| :: tail[i] in tail;
      assert order == [order[0]] + order[1..];
    }
  }

  /** The slots carry exactly the fields, over the whole schema. */
  predicate Carries(slots: Slots, schema: seq<u64>, fields: Fields) {
    forall k | k in schema :: OptionalSlot(slots, k) == Raw(fields(k))
  }

  ghost predicate SameKeys(order: seq<u64>, schema: seq<u64>) {
    forall k :: k in order <==> k in schema
  }

  /** Reading a payload's bytes gives slots that carry its fields. */
  lemma FieldsRead(order: seq<u64>, schema: seq<u64>, fields: Fields, slots: Slots)
    requires Distinct(order) && |order| < TWO_TO_64 && SameKeys(order, schema) && AllAdmissibleFields(order, fields)
    requires slots == SortByKey(Pairs(order, fields))
    ensures DistinctKeys(Pairs(order, fields))
    ensures ReadSchemaMap(Map(Pairs(order, fields)), schema) == Ok((slots, []))
    ensures DistinctKeys(slots) && Carries(slots, schema, fields)
  {
    var pairs := Pairs(order, fields);
    PairsHold(order, fields);
    MapReads(pairs, schema, []);
    assert Map(pairs) + [] == Map(pairs);
    forall k | k in schema ensures OptionalSlot(slots, k) == Raw(fields(k)) {
      if fields(k).Some? {
        assert (k, Encode(fields(k).value)) in pairs;
        SlotFound(slots, k, Encode(fields(k).value));
      }
    }
  }

  /** Slots that carry a payload's fields came from that payload's bytes. */
  lemma FieldsWritten(data: seq<byte>, order: seq<u64>, schema: seq<u64>, fields: Fields, slots: Slots)
    requires Distinct(order) && SameKeys(order, schema)
    requires ReadSchemaMap(data, schema) == Ok((slots, [])) && Carries(slots, schema, fields)
    ensures DistinctKeys(Pairs(order, fields)) && data == Map(Pairs(order, fields))
  {
    var pairs := Pairs(order, fields);
    PairsHold(order, fields);
    SchemaMapExact(data, schema, slots, []);
    forall p | p in pairs ensures p in slots {
      assert OptionalSlot(slots, p.0) == Some(p.1);
    }
    forall p | p in slots ensures HasKey(pairs, p.0) {
      SlotFound(slots, p.0, p.1);
      assert p in pairs;
    }
    Rebuilds(slots, pairs);
    SortedIsFixed(slots);
    assert Map(slots) + [] == Map(slots);
  }

  /** The field a body covers under one key. */
  function Covered(order: seq<u64>, fields: Fields, k: u64): Option<Value> {
    if k in order then fields(k) else None
  }

  /** Equal signed bytes cover the same item under every key, whatever kind each body was. */
  lemma SignedBytesAgree(o1: seq<u64>, f1: Fields, o2: seq<u64>, f2: Fields, k: u64)
    requires Distinct(o1) && |o1| < TWO_TO_64 && AllAdmissibleFields(o1, f1) && DistinctKeys(Pairs(o1, f1))
    requires Distinct(o2) && |o2| < TWO_TO_64 && AllAdmissibleFields(o2, f2) && DistinctKeys(Pairs(o2, f2))
    requires Map(Pairs(o1, f1)) == Map(Pairs(o2, f2))
    ensures Covered(o1, f1, k) == Covered(o2, f2, k)
  {
    var p, q := Pairs(o1, f1), Pairs(o2, f2);
    PairsHold(o1, f1);
    PairsHold(o2, f2);
    MapIsInjective(p, q);
    var a, b := Covered(o1, f1, k), Covered(o2, f2, k);
    assert a.Some? ==> (k, Encode(a.value)) in p;
    assert b.Some? ==> (k, Encode(b.value)) in q;
    if a.Some? && b.Some? {
      EncodeIsInjective(a.value, b.value);
    }
  }

  lemma EncodeIsInjective(v: Value, w: Value)
    requires Admissible(v, 0) && Admissible(w, 0) && Encode(v) == Encode(w)
    ensures v == w
  {
    AdmissibleIsSized(v, 0);
    AdmissibleIsSized(w, 0);
    EncodeIsPrefixFree(v, w, [], []);
  }

  // ----------------------------------------------------------- exact readers

  /** `read` accepts exactly the encodings of the `ok` values, and stops exactly behind them. */
  ghost predicate Exact<T(!new), E(!new)>(read: seq<byte> -> Result<(T, seq<byte>), E>, tree: T -> Value,
      ok: T -> bool) {
    forall s, x, rest :: read(s) == Ok((x, rest)) <==> ok(x) && s == Encode(tree(x)) + rest
  }

  predicate Any<T>(x: T) { true }

  function BytesExactly(width: nat): seq<byte> -> Read<Blob> { s => ReadBytesExact(width, s) }

  predicate Wide(width: nat, b: Blob) { |b| == width }

  lemma UintReader()
    ensures Exact(ReadUint, UintTree, Any)
  {
    forall s, x: u64, rest ensures ReadUint(s) == Ok((x, rest)) <==> s == Encode(UInt(x)) + rest {
      UintExact(s, x, rest);
    }
  }

  lemma StringExact(s: seq<byte>, major: nat, name: string, b: Blob, rest: seq<byte>)
    requires major < 8
    ensures (ReadCounted(major, name, s) == Ok((|b|, b + rest))) <==> s == Head(major, |b|) + b + rest
  {
    Regroup(Head(major, |b|), b, rest);
    HeadExact(s, major, |b|, b + rest);
  }

  lemma BytesExact(s: seq<byte>, b: Blob, rest: seq<byte>)
    ensures ReadBytes(s) == Ok((b, rest)) <==> s == Encode(Str(b)) + rest
  {
    StringExact(s, 2, "byte string", b, rest);
    assert (b + rest)[..|b|] == b && (b + rest)[|b|..] == rest;
    if ReadBytes(s) == Ok((b, rest)) {
      var (length, behind) := ReadCounted(2, "byte string", s).value;
      assert behind == b + rest;
    }
  }

  lemma TextExact(s: seq<byte>, t: Text, rest: seq<byte>)
    ensures ReadText(s) == Ok((t, rest)) <==> s == Encode(Txt(t)) + rest
  {
    StringExact(s, 3, "text string", t, rest);
    assert (t + rest)[..|t|] == t && (t + rest)[|t|..] == rest;
    if ReadText(s) == Ok((t, rest)) {
      var (length, behind) := ReadCounted(3, "text string", s).value;
      assert behind == t + rest;
    }
  }

  lemma BytesReader()
    ensures Exact(ReadBytes, BytesTree, Any)
  {
    forall s, x, rest ensures ReadBytes(s) == Ok((x, rest)) <==> s == Encode(Str(x)) + rest {
      BytesExact(s, x, rest);
    }
  }

  lemma BytesExactReader(width: nat)
    ensures Exact(BytesExactly(width), BytesTree, b => Wide(width, b))
  {
    forall s, x, rest
      ensures ReadBytesExact(width, s) == Ok((x, rest)) <==> Wide(width, x) && s == Encode(Str(x)) + rest
    {
      BytesExact(s, x, rest);
    }
  }

  function UintTree(n: u64): Value { UInt(n) }

  function BytesTree(b: Blob): Value { Str(b) }

  function TextTree(t: Text): Value { Txt(t) }

  lemma TextReader()
    ensures Exact(ReadText, TextTree, Any)
  {
    forall s, x, rest ensures ReadText(s) == Ok((x, rest)) <==> s == Encode(TextTree(x)) + rest {
      TextExact(s, x, rest);
    }
  }

  /** A slot read with an exact reader holds exactly one value's encoding. */
  lemma SlotExact<T(!new)>(slots: Slots, key: u64, read: seq<byte> -> Read<T>, tree: T -> Value, ok: T -> bool, x: T)
    requires Exact(read, tree, ok)
    ensures InSlot(slots, key, read) == Ok(x) <==> ok(x) && OptionalSlot(slots, key) == Some(Encode(tree(x)))
  {
    var raw := OptionalSlot(slots, key);
    hide OptionalSlot, Encode;
    if raw.Some? {
      var s, end: seq<byte> := raw.value, [];
      assert Encode(tree(x)) + end == Encode(tree(x));
      assert read(s) == Ok((x, end)) <==> ok(x) && s == Encode(tree(x)) + end;
      if InSlot(slots, key, read) == Ok(x) {
        assert read(s).value.1 == end;
        assert read(s) == Ok((x, end));
      }
    }
  }

  lemma UintSlot(slots: Slots, key: u64, n: u64)
    ensures InSlot(slots, key, ReadUint) == Ok(n) <==> OptionalSlot(slots, key) == Raw(Some(UInt(n)))
  {
    UintReader();
    SlotExact(slots, key, ReadUint, UintTree, Any, n);
  }

  lemma BytesSlot(slots: Slots, key: u64, b: Blob)
    ensures InSlot(slots, key, ReadBytes) == Ok(b) <==> OptionalSlot(slots, key) == Raw(Some(Str(b)))
  {
    BytesReader();
    SlotExact(slots, key, ReadBytes, BytesTree, Any, b);
  }

  lemma BytesExactSlot(slots: Slots, key: u64, width: nat, b: Blob)
    ensures InSlot(slots, key, BytesExactly(width)) == Ok(b)
            <==> |b| == width && OptionalSlot(slots, key) == Raw(Some(Str(b)))
  {
    BytesExactReader(width);
    SlotExact(slots, key, BytesExactly(width), BytesTree, b => Wide(width, b), b);
  }

  lemma TextSlot(slots: Slots, key: u64, t: Text)
    ensures InSlot(slots, key, ReadText) == Ok(t) <==> OptionalSlot(slots, key) == Raw(Some(Txt(t)))
  {
    TextReader();
    SlotExact(slots, key, ReadText, TextTree, Any, t);
  }

  /** An optional slot: absent, or read like any other. */
  function OptionalIn<T>(slots: Slots, key: u64, read: seq<byte> -> Read<T>): Result<Option<T>, CborError> {
    if OptionalSlot(slots, key).None? then Ok(None) else
      var value :- InSlot(slots, key, read);
      Ok(Some(value))
  }

  lemma OptionalExact<T(!new)>(slots: Slots, key: u64, read: seq<byte> -> Read<T>, tree: T -> Value, ok: T -> bool,
      x: Option<T>)
    requires Exact(read, tree, ok)
    ensures OptionalIn(slots, key, read) == Ok(x)
            <==> (x.Some? ==> ok(x.value)) && OptionalSlot(slots, key) == Raw(Tree(tree, x))
  {
    if x.Some? { SlotExact(slots, key, read, tree, ok, x.value); }
  }

  lemma OptionalTextSlot(slots: Slots, key: u64, t: Option<Text>)
    ensures OptionalIn(slots, key, ReadText) == Ok(t) <==> OptionalSlot(slots, key) == Raw(Tree(TextTree, t))
  {
    TextReader();
    OptionalExact(slots, key, ReadText, TextTree, Any, t);
  }

  lemma OptionalBytesExactSlot(slots: Slots, key: u64, width: nat, b: Option<Blob>)
    ensures OptionalIn(slots, key, BytesExactly(width)) == Ok(b)
            <==> (b.Some? ==> |b.value| == width) && OptionalSlot(slots, key) == Raw(Tree(BytesTree, b))
  {
    BytesExactReader(width);
    OptionalExact(slots, key, BytesExactly(width), BytesTree, b => Wide(width, b), b);
  }

  function Tree<T>(tree: T -> Value, x: Option<T>): Option<Value> {
    if x.Some? then Some(tree(x.value)) else None
  }

  // ------------------------------------------------------------------- lists

  function ReadMany<T, E>(read: seq<byte> -> Result<(T, seq<byte>), E>, s: seq<byte>, count: nat)
      : Result<(seq<T>, seq<byte>), E>
    decreases count
  {
    if count == 0 then Ok(([], s)) else
      var (x, rest) :- read(s);
      var (xs, end) :- ReadMany(read, rest, count - 1);
      Ok(([x] + xs, end))
  }

  function ReadArrayOf<T>(read: seq<byte> -> Read<T>, s: seq<byte>): Read<seq<T>> {
    var (count, rest) :- ReadArrayCount(s);
    ReadMany(read, rest, count)
  }

  function Trees<T>(tree: T -> Value, xs: seq<T>): (vs: seq<Value>)
    ensures |vs| == |xs|
  {
    if |xs| == 0 then [] else [tree(xs[0])] + Trees(tree, xs[1..])
  }

  predicate AllOk<T>(ok: T -> bool, xs: seq<T>) {
    forall i | 0 <= i < |xs| :: ok(xs[i])
  }

  lemma {:induction false} ManyExact<T(!new), E(!new)>(read: seq<byte> -> Result<(T, seq<byte>), E>, tree: T -> Value,
      ok: T -> bool,
                                                       s: seq<byte>, xs: seq<T>, rest: seq<byte>)
    requires Exact(read, tree, ok)
    ensures ReadMany(read, s, |xs|) == Ok((xs, rest)) <==> AllOk(ok, xs) && s == EncodeAll(Trees(tree, xs)) + rest
    decreases |xs|
  {
    if |xs| == 0 {
      assert EncodeAll(Trees(tree, xs)) + rest == rest;
    } else {
      var tail := EncodeAll(Trees(tree, xs[1..])) + rest;
      ManyWritten(tree, xs, rest);
      assert xs == [xs[0]] + xs[1..];
      assert AllOk(ok, xs) <==> ok(xs[0]) && AllOk(ok, xs[1..]);
      if AllOk(ok, xs) && s == Encode(tree(xs[0])) + tail {
        assert read(s) == Ok((xs[0], tail));
        ManyExact(read, tree, ok, tail, xs[1..], rest);
      }
      if ReadMany(read, s, |xs|) == Ok((xs, rest)) {
        var (x, behind) := read(s).value;
        assert x == xs[0] && s == Encode(tree(x)) + behind;
        ManyExact(read, tree, ok, behind, xs[1..], rest);
      }
    }
  }

  lemma ManyWritten<T>(tree: T -> Value, xs: seq<T>, rest: seq<byte>)
    requires |xs| > 0
    ensures EncodeAll(Trees(tree, xs)) + rest == Encode(tree(xs[0])) + (EncodeAll(Trees(tree, xs[1..])) + rest)
  {
    assert Trees(tree, xs)[1..] == Trees(tree, xs[1..]);
    Regroup(Encode(tree(xs[0])), EncodeAll(Trees(tree, xs[1..])), rest);
  }

  lemma {:induction false} ManyLength<T, E>(read: seq<byte> -> Result<(T, seq<byte>), E>, s: seq<byte>, count: nat)
    ensures var r := ReadMany(read, s, count); r.Ok? ==> |r.value.0| == count
    decreases count
  {
    if count > 0 && read(s).Ok? { ManyLength(read, read(s).value.1, count - 1); }
  }

  /** An array of an exact reader's items is read exactly. */
  lemma ArrayOfExact<T(!new)>(read: seq<byte> -> Read<T>, tree: T -> Value, ok: T -> bool,
                              s: seq<byte>, xs: seq<T>, rest: seq<byte>)
    requires Exact(read, tree, ok)
    ensures ReadArrayOf(read, s) == Ok((xs, rest))
            <==> |xs| < TWO_TO_64 && AllOk(ok, xs) && s == Encode(Arr(Trees(tree, xs))) + rest
  {
    hide ReadHead, Head;
    var body := EncodeAll(Trees(tree, xs));
    Regroup(Head(4, |xs|), body, rest);
    if |xs| < TWO_TO_64 && AllOk(ok, xs) && s == Encode(Arr(Trees(tree, xs))) + rest {
      HeadReads(4, |xs|, body + rest);
      ManyExact(read, tree, ok, body + rest, xs, rest);
    }
    if ReadArrayOf(read, s) == Ok((xs, rest)) {
      var (count, behind) := ReadArrayCount(s).value;
      ManyLength(read, behind, count);
      ManyExact(read, tree, ok, behind, xs, rest);
      HeadWasWritten(s);
    }
  }

  lemma {:induction false} TreesAdmissible<T>(tree: T -> Value, xs: seq<T>, depth: nat)
    requires forall i | 0 <= i < |xs| :: Admissible(tree(xs[i]), depth)
    ensures AllAdmissible(Trees(tree, xs), depth)
  {
    if |xs| > 0 {
      TreesAdmissible(tree, xs[1..], depth);
      assert Trees(tree, xs)[1..] == Trees(tree, xs[1..]);
    }
  }

  /** An injective tree makes an injective list of trees. */
  lemma {:induction false} TreesInjective<T(!new)>(tree: T -> Value, xs: seq<T>, ys: seq<T>)
    requires forall x, y :: tree(x) == tree(y) ==> x == y
    requires Trees(tree, xs) == Trees(tree, ys)
    ensures xs == ys
  {
    if |xs| > 0 {
      assert tree(xs[0]) == Trees(tree, xs)[0] == Trees(tree, ys)[0] == tree(ys[0]);
      assert Trees(tree, xs)[1..] == Trees(tree, xs[1..]);
      assert Trees(tree, ys)[1..] == Trees(tree, ys[1..]);
      TreesInjective(tree, xs[1..], ys[1..]);
      assert xs == [xs[0]] + xs[1..] && ys == [ys[0]] + ys[1..];
    }
  }
}
