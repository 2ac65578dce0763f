/** One record of the handshake stream: a kind and its bytes. */
module HandshakeRecord {
  import opened Octets
  import opened AgentCbor
  import opened ValueTree
  import opened Payloads
  import AgentCode
  import AgentReader

  datatype Record =
    | Mls(message: Blob)
    | Standing(sealed: Blob)
    | Claim(claim: Blob)
    | History(history: Blob)
    | Unknown(tag: u64, payload: Blob)
  {
    function Tag(): u64 {
      match this
      case Mls(_) => 0
      case Standing(_) => 1
      case Claim(_) => 2
      case History(_) => 3
      case Unknown(tag, _) => tag
    }

    function Payload(): Blob {
      match this
      case Mls(b) => b
      case Standing(b) => b
      case Claim(b) => b
      case History(b) => b
      case Unknown(_, b) => b
    }
  }

  /** The kind a tag names. */
  function Named(tag: u64, payload: Blob): Record {
    if tag == 0 then Mls(payload)
    else if tag == 1 then Standing(payload)
    else if tag == 2 then Claim(payload)
    else if tag == 3 then History(payload)
    else Unknown(tag, payload)
  }

  function EncodeRecord(r: Record): seq<byte> { Array([Uint(r.Tag()), ByteString(r.Payload())]) }

  function Decode(bytes: seq<byte>): Result<Record, CborError> {
    var (count, s1) :- ReadArrayCount(bytes);
    if count != 2 then Err(WrongArrayCount(2, count)) else
      var (tag, s2) :- ReadUint(s1);
      var (payload, s3) :- ReadBytes(s2);
      var _ :- RequireEnd(s3);
      Ok(Named(tag, payload))
  }

  method DecodeBytes(bytes: seq<byte>) returns (r: Result<Record, CborError>)
    ensures r == Decode(bytes)
  {
    hide ReadArrayCount, ReadUint, ReadBytes;
    var reader := new AgentReader.Reader(bytes);
    var count :- reader.ArrayCount();
    if count != 2 { return Err(WrongArrayCount(2, count)); }
    var tag :- reader.Uint();
    var payload :- reader.Bytes();
    var _ :- reader.RequireEnd();
    r := Ok(Named(tag, payload));
  }

  lemma RecordTree(r: Record)
    ensures EncodeRecord(r) == Encode(Arr([UInt(r.Tag()), Str(r.Payload())]))
  {
    hide Head;
    var a, b := UInt(r.Tag()), Str(r.Payload());
    assert [a, b][1..] == [b] && [b][1..] == [];
    assert [Encode(a), Encode(b)][1..] == [Encode(b)] && [Encode(b)][1..] == [];
    assert EncodeAll([b]) == Encode(b) + EncodeAll([]);
    assert Concat([Encode(b)]) == Encode(b) + Concat([]);
  }

  lemma RecordFound(bytes: seq<byte>, r: Record)
    requires Decode(bytes) == Ok(r)
    ensures r == Named(r.Tag(), r.Payload()) && bytes == EncodeRecord(r)
  {
    hide ReadArrayCount, ReadUint, ReadBytes, Encode, EncodeAll, EncodeRecord;
    var (count, s1) := ReadArrayCount(bytes).value;
    var (tag, s2) := ReadUint(s1).value;
    var (payload, s3) := ReadBytes(s2).value;
    assert s3 == [];
    AgentCode.UintWas(s1, tag, s2);
    BytesExact(s2, payload, []);
    AgentCode.TwoItems(UInt(tag), Str(payload), []);
    AgentCode.CountExact(bytes, 2, [UInt(tag), Str(payload)], []);
    RecordTree(r);
    var tree := Encode(Arr([UInt(tag), Str(payload)]));
    assert tree + [] == tree;
  }

  lemma RecordAccepted(r: Record)
    ensures Decode(EncodeRecord(r)) == Ok(Named(r.Tag(), r.Payload()))
  {
    hide ReadArrayCount, ReadUint, ReadBytes, Encode, EncodeAll, EncodeRecord;
    var tag, payload := r.Tag(), r.Payload();
    RecordTree(r);
    var tree := Encode(Arr([UInt(tag), Str(payload)]));
    assert tree + [] == tree;
    AgentCode.TwoItems(UInt(tag), Str(payload), []);
    AgentCode.CountExact(tree, 2, [UInt(tag), Str(payload)], []);
    var s2 := Encode(Str(payload)) + [];
    AgentCode.UintReads(tag, s2);
    BytesExact(s2, payload, []);
  }

  /**
   * A byte string decodes to a record exactly when it is that record's encoding and the record is spelled by its name:
   * an unknown kind carries a tag above the four this build names.
   */
  lemma RecordExact(bytes: seq<byte>, r: Record)
    ensures Decode(bytes) == Ok(r) <==> (r.Unknown? ==> r.tag > 3) && bytes == EncodeRecord(r)
  {
    hide Decode, EncodeRecord;
    if Decode(bytes) == Ok(r) { RecordFound(bytes, r); }
    if (r.Unknown? ==> r.tag > 3) && bytes == EncodeRecord(r) { RecordAccepted(r); }
  }

  /** Every record comes back under its name, a misnamed unknown included. */
  lemma RecordRoundTrip(r: Record)
    ensures Decode(EncodeRecord(r)) == Ok(Named(r.Tag(), r.Payload()))
    ensures Decode(EncodeRecord(r)) == Ok(r) <==> (r.Unknown? ==> r.tag > 3)
  {
    hide Decode, EncodeRecord;
    RecordAccepted(r);
  }
}
