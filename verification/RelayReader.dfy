/** The relay codec's cursor. A failed read puts the offset back, with one exception that the contracts name. */
module RelayReader {
  import opened Octets
  import opened RelayCbor

  class Reader {
    const data: seq<byte>
    var offset: nat

    ghost predicate Valid()
      reads this
    {
      offset <= |data|
    }

    ghost function Ahead(): seq<byte>
      requires Valid()
      reads this
    {
      data[offset..]
    }

    /** The read gave what `spec` gives, moving behind the item or, on a refusal, not at all. */
    ghost predicate Did<T>(spec: Read<T>, r: Result<T, CborError>, start: nat)
      reads this
    {
      && Valid()
      && (spec.Ok? ==> r == Ok(spec.value.0) && Ahead() == spec.value.1)
      && (spec.Err? ==> r == Err(spec.error) && offset == start)
    }

    constructor (data: seq<byte>)
      ensures this.data == data && Valid() && Ahead() == data && offset == 0
    {
      this.data := data;
      offset := 0;
    }

    method Head() returns (r: Result<(nat, u64), CborError>)
      requires Valid()
      modifies this`offset
      ensures Valid()
      ensures match ReadHead(old(Ahead()))
              case Ok((major, value, rest)) => r == Ok((major, value)) && Ahead() == rest
              case Err(e) => r == Err(e) && offset == old(offset)
    {
      if offset >= |data| { return Err(Truncated); }
      ghost var ahead := Ahead();
      var major, info := data[offset] / 32, data[offset] % 32;
      if info < 24 {
        offset := offset + 1;
        return Ok((major, info));
      }
      if info >= 28 { return Err(ReservedAdditionalInfo(info)); }
      var width := Shifted(info - 24);
      ShiftedWidths();
      var value: nat := 0;
      ghost var behind := ahead[1..];
      var i := 0;
      while i < width
        invariant i <= width && Gather(behind, i) == Ok(value) && offset == old(offset)
      {
        if offset + 1 + i >= |data| {
          GatherIsBigEndian(behind, width);
          return Err(Truncated);
        }
        assert behind[i] == data[offset + 1 + i];
        value := value * 256 + data[offset + 1 + i];
        i := i + 1;
      }
      if value < Minimum(width) { return Err(NonCanonicalInteger); }
      GatherIsBigEndian(behind, width);
      PowersOf256();
      assert |behind[..width]| == width;
      offset := offset + 1 + width;
      assert Ahead() == ahead[1 + width..];
      r := Ok((major, value));
    }

    method Uint() returns (r: Result<u64, CborError>)
      requires Valid()
      modifies this`offset
      ensures Did(ReadUint(old(Ahead())), r, old(offset))
    {
      var start := offset;
      var head :- Head();
      if head.0 != MAJOR_UINT {
        offset := start;
        return Err(Mismatch(head.0, "unsigned integer"));
      }
      r := Ok(head.1);
    }

    /** `u8`, `u16` and `u32`. A refusal has already moved exactly when what is ahead is an integer, and too wide. */
    method Narrow(limit: nat) returns (r: Result<u64, CborError>)
      requires Valid()
      modifies this`offset
      ensures Valid()
      ensures match ReadBelow(limit, old(Ahead()))
              case Ok((value, rest)) => r == Ok(value) && Ahead() == rest
              case Err(e) => r == Err(e)
      ensures r.Err? ==>
                (offset != old(offset) <==> ReadUint(old(Ahead())).Ok? && ReadUint(old(Ahead())).value.0 >= limit)
      ensures r.Err? && offset != old(offset) ==> ReadUint(old(Ahead())) == Ok((r.error.value, Ahead()))
    {
      var value :- Uint();
      if value < limit { return Ok(value); }
      r := Err(OutOfRange(value));
    }

    method Bytes() returns (r: Result<Blob, CborError>)
      requires Valid()
      modifies this`offset
      ensures Did(ReadBytes(old(Ahead())), r, old(offset))
    {
      var start := offset;
      var head :- Head();
      if head.0 != MAJOR_BYTES {
        offset := start;
        return Err(Mismatch(head.0, "byte string"));
      }
      if head.1 > |data| - offset {
        offset := start;
        return Err(Truncated);
      }
      ghost var ahead := Ahead();
      var value := data[offset..offset + head.1];
      assert value == ahead[..head.1];
      offset := offset + head.1;
      r := Ok(value);
    }

    method BytesOf(count: nat) returns (r: Result<Blob, CborError>)
      requires Valid()
      modifies this`offset
      ensures Did(ReadBytesOf(count, old(Ahead())), r, old(offset))
    {
      var start := offset;
      var value :- Bytes();
      if |value| != count {
        offset := start;
        return Err(WrongLength(count, |value|));
      }
      r := Ok(value);
    }

    method Boolean() returns (r: Result<bool, CborError>)
      requires Valid()
      modifies this`offset
      ensures Did(ReadBoolean(old(Ahead())), r, old(offset))
    {
      var start := offset;
      var head :- Head();
      if head.0 != MAJOR_SIMPLE {
        offset := start;
        return Err(Mismatch(head.0, "boolean"));
      }
      if head.1 == 20 { return Ok(false); }
      if head.1 == 21 { return Ok(true); }
      offset := start;
      r := Err(UnsupportedSimple(Saturated(head.1)));
    }

    method TextString() returns (r: Result<Text, CborError>)
      requires Valid()
      modifies this`offset
      ensures Did(ReadText(old(Ahead())), r, old(offset))
    {
      var start := offset;
      var head :- Head();
      if head.0 != MAJOR_TEXT {
        offset := start;
        return Err(Mismatch(head.0, "text string"));
      }
      if head.1 > |data| - offset {
        offset := start;
        return Err(Truncated);
      }
      ghost var ahead := Ahead();
      var value := data[offset..offset + head.1];
      assert value == ahead[..head.1];
      if !IsUtf8(value) {
        offset := start;
        return Err(InvalidUtf8);
      }
      offset := offset + head.1;
      r := Ok(value);
    }

    method OptionalBytes() returns (r: Result<Option<Blob>, CborError>)
      requires Valid()
      modifies this`offset
      ensures Did(ReadOptionalBytes(old(Ahead())), r, old(offset))
    {
      if offset >= |data| { return Err(Truncated); }
      if data[offset] / 32 != MAJOR_SIMPLE {
        var value :- Bytes();
        return Ok(Some(value));
      }
      var start := offset;
      var head :- Head();
      if head.1 != 22 {
        offset := start;
        return Err(UnsupportedSimple(Saturated(head.1)));
      }
      r := Ok(None);
    }

    method ArrayHeader() returns (r: Result<u64, CborError>)
      requires Valid()
      modifies this`offset
      ensures Did(ReadArrayHeader(old(Ahead())), r, old(offset))
    {
      var start := offset;
      var head :- Head();
      if head.0 != MAJOR_ARRAY {
        offset := start;
        return Err(Mismatch(head.0, "array"));
      }
      if head.1 > |data| - offset {
        offset := start;
        return Err(Truncated);
      }
      r := Ok(head.1);
    }

    method Array(count: nat) returns (r: Result<(), CborError>)
      requires Valid()
      modifies this`offset
      ensures Valid()
      ensures match ReadArray(count, old(Ahead()))
              case Ok(rest) => r == Ok(()) && Ahead() == rest
              case Err(e) => r == Err(e) && offset == old(offset)
    {
      var start := offset;
      var found :- ArrayHeader();
      if found != count {
        offset := start;
        return Err(WrongArrayCount(count, found));
      }
      r := Ok(());
    }

    method Finish() returns (r: Result<(), CborError>)
      requires Valid()
      ensures r == RelayCbor.Finish(Ahead())
    {
      if offset == |data| { return Ok(()); }
      r := Err(TrailingBytes(|data| - offset));
    }
  }

  /** A failed `u8` read of 256 leaves the cursor behind the integer. */
  method WideIntegerMovesTheCursor() returns (r: Result<u64, CborError>, offset: nat)
    ensures r == Err(OutOfRange(0x100)) && offset == 3
  {
    var reader := new Reader([0x19, 0x01, 0x00]);
    ghost var ahead := reader.Ahead();
    TwoByteHead(ahead);
    r := reader.Narrow(0x100);
    offset := reader.offset;
    assert reader.Ahead() == [];
  }

  lemma TwoByteHead(s: seq<byte>)
    requires s == [0x19, 0x01, 0x00]
    ensures ReadUint(s) == Ok((0x100, []))
  {
    ShiftedWidths();
    GatherIsBigEndian(s[1..], 2);
    assert s[1..][..2] == [0x01, 0x00] && s[3..] == [];
    assert Gather(s[1..], 1) == Ok(0x01);
  }
}
