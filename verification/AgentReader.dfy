/** The agent codec's cursor: every read moves one offset, and does what the reading functions say. */
module AgentReader {
  import opened Octets
  import opened AgentCbor

  class Reader {
    const data: seq<byte>
    var offset: nat

    ghost predicate Valid()
      reads this
    {
      offset <= |data|
    }

    /** The bytes still ahead of the cursor. */
    ghost function Ahead(): seq<byte>
      requires Valid()
      reads this
    {
      data[offset..]
    }

    /** The read gave what `spec` gives on the bytes that were ahead, and moved to where `spec` stops. */
    ghost predicate Did<T>(spec: Read<T>, r: Result<T, CborError>)
      reads this
    {
      && Valid()
      && (spec.Ok? ==> r == Ok(spec.value.0) && Ahead() == spec.value.1)
      && (spec.Err? ==> r == Err(spec.error))
    }

    constructor (data: seq<byte>)
      ensures this.data == data && Valid() && Ahead() == data
    {
      this.data := data;
      offset := 0;
    }

    /** One head, without moving: major type, argument, and the offset behind it. */
    method Head() returns (r: Result<(nat, u64, nat), CborError>)
      requires Valid()
      ensures match ReadHead(Ahead())
              case Ok((major, value, rest)) =>
                r.Ok? && r.value.0 == major && r.value.1 == value && r.value.2 == |data| - |rest|
                    && data[r.value.2..] == rest
              case Err(e) => r == Err(e)
    {
      if offset >= |data| { return Err(Truncated); }
      var start := offset;
      var initial := data[start];
      var info := initial % 32;
      if info < 24 { return Ok((initial / 32, info, start + 1)); }
      if info >= 28 { return Err(ReservedAdditionalInfo(info)); }
      var width := Width(info);
      if start + width >= |data| { return Err(Truncated); }
      ghost var ahead := Ahead();
      var value: nat := 0;
      for i := 0 to width
        invariant value == FromBigEndian(ahead[1..1 + i])
      {
        assert ahead[1..1 + i + 1][..i] == ahead[1..1 + i];
        value := value * 256 + data[start + 1 + i];
      }
      if value < Minimum(width) { return Err(NonCanonicalInteger); }
      PowersOf256();
      assert data[start + 1 + width..] == ahead[1 + width..];
      r := Ok((initial / 32, value, start + 1 + width));
    }

    method Counted(major: nat, name: string) returns (r: Result<u64, CborError>)
      requires Valid()
      modifies this`offset
      ensures Did(ReadCounted(major, name, old(Ahead())), r)
    {
      var head :- Head();
      var (found, argument, next) := head;
      if found != major { return Err(TypeMismatch(name)); }
      if argument > |data| - next { return Err(Truncated); }
      offset := next;
      r := Ok(argument);
    }

    method Uint() returns (r: Result<u64, CborError>)
      requires Valid()
      modifies this`offset
      ensures Did(ReadUint(old(Ahead())), r)
      ensures r.Err? ==> offset == old(offset)
    {
      var head :- Head();
      var (major, value, next) := head;
      if major != 0 { return Err(TypeMismatch("unsigned integer")); }
      offset := next;
      r := Ok(value);
    }

    method Bytes() returns (r: Result<Blob, CborError>)
      requires Valid()
      modifies this`offset
      ensures Did(ReadBytes(old(Ahead())), r)
    {
      var length :- Counted(2, "byte string");
      var start := offset;
      ghost var ahead := Ahead();
      offset := start + length;
      assert data[start..offset] == ahead[..length];
      r := Ok(data[start..offset]);
    }

    method BytesExact(expected: nat) returns (r: Result<Blob, CborError>)
      requires Valid()
      modifies this`offset
      ensures Did(ReadBytesExact(expected, old(Ahead())), r)
    {
      var value :- Bytes();
      if |value| != expected { return Err(WrongLength(expected, |value|)); }
      r := Ok(value);
    }

    /** A text string whose bytes are not UTF-8 is refused after the cursor has passed it. */
    method Text() returns (r: Result<Text, CborError>)
      requires Valid()
      modifies this`offset
      ensures Did(ReadText(old(Ahead())), r)
    {
      var length :- Counted(3, "text string");
      var start := offset;
      ghost var ahead := Ahead();
      offset := start + length;
      assert data[start..offset] == ahead[..length];
      if !IsUtf8(data[start..offset]) { return Err(InvalidUtf8); }
      r := Ok(data[start..offset]);
    }

    method ArrayCount() returns (r: Result<u64, CborError>)
      requires Valid()
      modifies this`offset
      ensures Did(ReadArrayCount(old(Ahead())), r)
    {
      r := Counted(4, "array");
    }

    method MapCount() returns (r: Result<u64, CborError>)
      requires Valid()
      modifies this`offset
      ensures Did(ReadMapCount(old(Ahead())), r)
    {
      r := Counted(5, "map");
    }

    method RequireEnd() returns (r: Result<(), CborError>)
      requires Valid()
      ensures r.Ok? <==> Ahead() == []
      ensures r == AgentCbor.RequireEnd(Ahead())
    {
      r := if offset == |data| then Ok(()) else Err(Trailing(|data| - offset));
    }

    /** Walk one item; `heads` counts the heads tried, which is what bounds the work. */
    method SkipItemBounded(depth: nat) returns (r: Result<(), CborError>, ghost heads: nat)
      requires Valid()
      modifies this`offset
      ensures Valid()
      ensures Walked(Skip(old(Ahead()), depth), r, heads)
      ensures heads <= |data| - old(offset) + 1
      decreases |data| - offset, 0
    {
      ghost var ahead := Ahead();
      WalkIsBounded(ahead, depth);
      hide ReadHead, SkipMany;
      if depth > MAX_SKIP_DEPTH { return Err(TooDeep), 0; }
      var head := Head();
      if head.Err? { return Err(head.error), 1; }
      var (major, argument, next) := head.value;
      if major == 0 {
        offset := next;
        return Ok(()), 1;
      } else if major == 2 || major == 3 {
        if argument > |data| - next { return Err(Truncated), 1; }
        offset := next + argument;
        assert data[offset..] == data[next..][argument..];
        return Ok(()), 1;
      } else if major == 4 {
        offset := next;
        r, heads := SkipArray(argument, depth + 1);
        heads := heads + 1;
      } else if major == 5 {
        offset := next;
        r, heads := SkipPairs(argument, depth + 1);
        heads := heads + 1;
      } else if major == 7 {
        if argument != 22 { return Err(UnsupportedSimple(argument)), 1; }
        offset := next;
        return Ok(()), 1;
      } else {
        return Err(UnsupportedMajor(major)), 1;
      }
    }

    method SkipArray(argument: u64, depth: nat) returns (r: Result<(), CborError>, ghost heads: nat)
      requires Valid()
      modifies this`offset
      ensures Walked(SkipMany(old(Ahead()), argument, depth), r, heads)
      decreases |data| - offset, 1
    {
      hide Skip;
      ghost var spec := SkipMany(Ahead(), argument, depth);
      heads := 0;
      for i := 0 to argument
        invariant Valid() && offset >= old(offset)
        invariant Counts(spec, heads, SkipMany(Ahead(), argument - i, depth))
      {
        ghost var more: nat;
        r, more := SkipItemBounded(depth);
        heads := heads + more;
        if r.Err? { return; }
      }
      r := Ok(());
    }

    method SkipPairs(argument: u64, depth: nat) returns (r: Result<(), CborError>, ghost heads: nat)
      requires Valid()
      modifies this`offset
      ensures Walked(SkipMany(old(Ahead()), 2 * argument, depth), r, heads)
      decreases |data| - offset, 1
    {
      hide Skip;
      ghost var spec := SkipMany(Ahead(), 2 * argument, depth);
      heads := 0;
      for i := 0 to argument
        invariant Valid() && offset >= old(offset)
        invariant Counts(spec, heads, SkipMany(Ahead(), 2 * (argument - i), depth))
      {
        ghost var more: nat;
        r, more := SkipItemBounded(depth);
        heads := heads + more;
        if r.Err? { return; }
        assert Counts(spec, heads, SkipMany(Ahead(), 2 * (argument - i) - 1, depth));
        r, more := SkipItemBounded(depth);
        heads := heads + more;
        if r.Err? { return; }
      }
      r := Ok(());
    }

    static ghost predicate Counts(whole: Walk, done: nat, left: Walk) {
      whole == left.(heads := done + left.heads)
    }

    ghost predicate Walked(w: Walk, r: Result<(), CborError>, heads: nat)
      reads this
    {
      && Valid()
      && heads == w.heads
      && (w.end.Ok? ==> r == Ok(()) && Ahead() == w.end.value)
      && (w.end.Err? ==> r == Err(w.end.error))
    }

    method RawValue() returns (r: Result<seq<byte>, CborError>)
      requires Valid()
      modifies this`offset
      ensures Did(ReadRaw(old(Ahead())), r)
      ensures r.Ok? ==> offset > old(offset)
    {
      var start := offset;
      ghost var ahead := Ahead();
      var walked, _ := SkipItemBounded(0);
      if walked.Err? { return Err(walked.error); }
      ghost var used := |ahead| - |Ahead()|;
      assert data[start..offset] == ahead[..used];
      r := Ok(data[start..offset]);
    }

    method SchemaMap(schema: seq<u64>) returns (r: Result<Slots, CborError>)
      requires Valid()
      modifies this`offset
      ensures Did(ReadSchemaMap(old(Ahead()), schema), r)
    {
      hide ReadUint, ReadRaw;
      var pairs :- MapCount();
      var out: Slots := [];
      var previous: Option<u64> := None;
      ghost var spec := ReadEntries(Ahead(), pairs, schema, None);
      assert spec.Ok? ==> out + spec.value.0 == spec.value.0;
      for i := 0 to pairs
        invariant Valid()
        invariant Resumes(spec, out, ReadEntries(Ahead(), pairs - i, schema, previous))
      {
        var key :- Uint();
        if previous.Some? && key <= previous.value {
          return Err(MapKeysNotAscending(previous.value, key));
        }
        previous := Some(key);
        if key !in schema { return Err(UnknownKey(key)); }
        var raw :- RawValue();
        Collect(spec, out, (key, raw), ReadEntries(Ahead(), pairs - i - 1, schema, previous));
        out := out + [(key, raw)];
      }
      assert out + [] == out;
      r := Ok(out);
    }

    /** The whole list is what has been collected followed by what the rest of the input gives. */
    static ghost predicate Resumes<T>(whole: Read<seq<T>>, done: seq<T>, left: Read<seq<T>>) {
      if left.Ok? then whole == Ok((done + left.value.0, left.value.1)) else whole == Err(left.error)
    }

    static lemma Collect<T>(whole: Read<seq<T>>, done: seq<T>, x: T, left: Read<seq<T>>)
      requires Resumes(whole, done, if left.Ok? then Ok(([x] + left.value.0, left.value.1)) else left)
      ensures Resumes(whole, done + [x], left)
    {
      assert left.Ok? ==> done + ([x] + left.value.0) == done + [x] + left.value.0;
    }
  }
}
