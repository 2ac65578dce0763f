/** The loops that fill a vector from an array: an agent card's lists and a frame's. */
module AgentLists {
  import opened Octets
  import opened AgentCbor
  import opened AgentReader
  import opened Payloads
  import AgentCard

  /** `text_list`. */
  method TextList(reader: Reader) returns (r: Result<seq<Text>, CborError>)
    requires reader.Valid()
    modifies reader`offset
    ensures reader.Did(ReadArrayOf(ReadText, old(reader.Ahead())), r)
  {
    hide ReadText, ReadArrayCount;
    var count :- reader.ArrayCount();
    var out: seq<Text> := [];
    ghost var spec := ReadMany(ReadText, reader.Ahead(), count);
    assert spec.Ok? ==> [] + spec.value.0 == spec.value.0;
    for i := 0 to count
      invariant reader.Valid() && Reader.Resumes(spec, out, ReadMany(ReadText, reader.Ahead(), count - i))
    {
      var t :- reader.Text();
      Reader.Collect(spec, out, t, ReadMany(ReadText, reader.Ahead(), count - i - 1));
      out := out + [t];
    }
    assert out + [] == out;
    r := Ok(out);
  }

  /** The card's scopes. */
  method Scopes(reader: Reader) returns (r: Result<seq<Blob>, CborError>)
    requires reader.Valid()
    modifies reader`offset
    ensures reader.Did(ReadArrayOf(BytesExactly(AgentCard.SCOPE_WIDTH), old(reader.Ahead())), r)
  {
    hide ReadBytesExact, ReadArrayCount;
    var read := BytesExactly(AgentCard.SCOPE_WIDTH);
    var count :- reader.ArrayCount();
    var out: seq<Blob> := [];
    ghost var spec := ReadMany(read, reader.Ahead(), count);
    assert spec.Ok? ==> [] + spec.value.0 == spec.value.0;
    for i := 0 to count
      invariant reader.Valid() && Reader.Resumes(spec, out, ReadMany(read, reader.Ahead(), count - i))
    {
      var b :- reader.BytesExact(AgentCard.SCOPE_WIDTH);
      Reader.Collect(spec, out, b, ReadMany(read, reader.Ahead(), count - i - 1));
      out := out + [b];
    }
    assert out + [] == out;
    r := Ok(out);
  }

  /** `require_canonical`: neighbours compared over a window of two. */
  method RequireCanonical(values: seq<Text>) returns (ok: bool)
    ensures ok <==> forall i, j | 0 <= i < j < |values| :: Less(values[i], values[j])
    ensures ok <==> AgentCard.Canonical(values)
  {
    var i := 0;
    while i + 1 < |values|
      invariant i <= |values|
      invariant forall a, b | 0 <= a < b <= i && b < |values| :: Less(values[a], values[b])
    {
      if !Less(values[i], values[i + 1]) { return false; }
      forall a | 0 <= a <= i ensures Less(values[a], values[i + 1]) {
        if a < i { LessIsTransitive(values[a], values[i], values[i + 1]); }
      }
      i := i + 1;
    }
    ok := true;
  }

  lemma {:induction false} LessIsTransitive(a: seq<byte>, b: seq<byte>, c: seq<byte>)
    requires Less(a, b) && Less(b, c)
    ensures Less(a, c)
  {
    if |a| > 0 && a[0] == b[0] == c[0] { LessIsTransitive(a[1..], b[1..], c[1..]); }
  }
}

module FrameLists {
  import opened Octets
  import opened RelayCbor
  import opened RelayReader
  import opened FrameFields

  /** The whole list is what has been collected followed by what the rest of the input gives. */
  ghost predicate Resumes<T>(whole: Reading<seq<T>>, done: seq<T>, left: Reading<seq<T>>) {
    if left.Ok? then whole == Ok((done + left.value.0, left.value.1)) else whole == Err(left.error)
  }

  lemma Collect<T>(whole: Reading<seq<T>>, done: seq<T>, x: T, left: Reading<seq<T>>)
    requires Resumes(whole, done, if left.Ok? then Ok(([x] + left.value.0, left.value.1)) else left)
    ensures Resumes(whole, done + [x], left)
  {
    assert left.Ok? ==> done + ([x] + left.value.0) == done + [x] + left.value.0;
  }

  /** A `CONNECT` frame's groups. */
  method Groups(reader: Reader) returns (r: Result<seq<Blob>, CborError>)
    requires reader.Valid()
    modifies reader`offset
    ensures reader.Valid()
    ensures match ListOf(BytesOf(32))(old(reader.Ahead()))
            case Ok((xs, rest)) => r == Ok(xs) && reader.Ahead() == rest
            case Err(e) => r.Err? && e == Cbor(r.error)
  {
    hide ReadBytesOf, ReadArrayHeader;
    var count :- reader.ArrayHeader();
    var out: seq<Blob> := [];
    ghost var spec := Many(BytesOf(32), reader.Ahead(), count);
    assert spec.Ok? ==> [] + spec.value.0 == spec.value.0;
    for i := 0 to count
      invariant reader.Valid() && Resumes(spec, out, Many(BytesOf(32), reader.Ahead(), count - i))
    {
      var b :- reader.BytesOf(32);
      Collect(spec, out, b, Many(BytesOf(32), reader.Ahead(), count - i - 1));
      out := out + [b];
    }
    assert out + [] == out;
    r := Ok(out);
  }

  /** A `KEYS` frame's packages. */
  method Packages(reader: Reader) returns (r: Result<seq<Blob>, CborError>)
    requires reader.Valid()
    modifies reader`offset
    ensures reader.Valid()
    ensures match ListOf(BytesField(Plain))(old(reader.Ahead()))
            case Ok((xs, rest)) => r == Ok(xs) && reader.Ahead() == rest
            case Err(e) => r.Err? && e == Cbor(r.error)
  {
    hide ReadBytes, ReadArrayHeader;
    var count :- reader.ArrayHeader();
    var out: seq<Blob> := [];
    ghost var spec := Many(BytesField(Plain), reader.Ahead(), count);
    assert spec.Ok? ==> [] + spec.value.0 == spec.value.0;
    for i := 0 to count
      invariant reader.Valid() && Resumes(spec, out, Many(BytesField(Plain), reader.Ahead(), count - i))
    {
      var b :- reader.Bytes();
      Collect(spec, out, b, Many(BytesField(Plain), reader.Ahead(), count - i - 1));
      out := out + [b];
    }
    assert out + [] == out;
    r := Ok(out);
  }
}
