/** Schema maps: what the map reader accepts, and that it and the sorting map writer undo each other. */
module SchemaMaps {
  import opened Octets
  import opened AgentCbor
  import opened ValueTree

  predicate HasKey(slots: Slots, key: u64) {
    exists p :: p in slots && p.0 == key
  }

  predicate KeysIn(slots: Slots, schema: seq<u64>) {
    forall p | p in slots :: p.0 in schema
  }

  ghost predicate AllItems(slots: Slots) {
    forall p | p in slots :: IsItem(p.1)
  }

  ghost predicate SamePairs(a: Slots, b: Slots) {
    forall p :: p in a <==> p in b
  }

  // ---------------------------------------------------------------- the sort

  lemma {:induction false} InsertKeeps(pair: (u64, seq<byte>), pairs: Slots)
    ensures forall p :: p in Insert(pair, pairs) <==> p == pair || p in pairs
    ensures Ascending(pairs) && !HasKey(pairs, pair.0) ==> Ascending(Insert(pair, pairs))
  {
    if |pairs| > 0 && pair.0 > pairs[0].0 {
      InsertKeeps(pair, pairs[1..]);
      assert forall p :: p in pairs <==> p == pairs[0] || p in pairs[1..] by {
        assert pairs == [pairs[0]] + pairs[1..];
      }
      if Ascending(pairs) && !HasKey(pairs, pair.0) {
        assert !HasKey(pairs[1..], pair.0);
        var tail := Insert(pair, pairs[1..]);
        forall i | 0 <= i < |tail| ensures pairs[0].0 < tail[i].0 { assert tail[i] in tail; }
      }
    } else if Ascending(pairs) && !HasKey(pairs, pair.0) && |pairs| > 0 {
      assert pairs[0] in pairs;
    }
  }

  /** Sorting distinct keys gives ascending keys and keeps every pair. */
  lemma {:induction false} SortIsSound(pairs: Slots)
    ensures SamePairs(SortByKey(pairs), pairs)
    ensures DistinctKeys(pairs) ==> Ascending(SortByKey(pairs))
  {
    if |pairs| > 0 {
      SortIsSound(pairs[1..]);
      var tail := SortByKey(pairs[1..]);
      InsertKeeps(pairs[0], tail);
      assert pairs == [pairs[0]] + pairs[1..];
      if DistinctKeys(pairs) {
        assert DistinctKeys(pairs[1..]);
        assert !HasKey(tail, pairs[0].0) by {
          forall p | p in tail ensures p.0 != pairs[0].0 {
            assert p in pairs[1..];
            var i :| 0 <= i < |pairs[1..]| && pairs[1..][i] == p;
            assert pairs[i + 1] == p;
          }
        }
      }
    }
  }

  /** An ascending sequence is determined by its set of pairs. */
  lemma {:induction false} AscendingIsCanonical(a: Slots, b: Slots)
    requires Ascending(a) && Ascending(b) && SamePairs(a, b)
    ensures a == b
  {
    assert |a| > 0 ==> a[0] in b;
    assert |b| > 0 ==> b[0] in a;
    if |a| > 0 {
      assert a[0] == b[0] by {
        assert a[0] in b && b[0] in a;
        var i :| 0 <= i < |b| && b[i] == a[0];
        var j :| 0 <= j < |a| && a[j] == b[0];
        assert b[0].0 <= b[i].0 && a[0].0 <= a[j].0;
      }
      forall p ensures p in a[1..] <==> p in b[1..] {
        TailMember(a, p);
        TailMember(b, p);
      }
      AscendingIsCanonical(a[1..], b[1..]);
      assert a == [a[0]] + a[1..] && b == [b[0]] + b[1..];
    }
  }

  lemma TailMember(a: Slots, p: (u64, seq<byte>))
    requires Ascending(a) && |a| > 0
    ensures p in a[1..] <==> p in a && p != a[0]
  {
    assert a == [a[0]] + a[1..];
    forall i | 0 <= i < |a[1..]| ensures a[1..][i] != a[0] { assert a[1..][i] == a[i + 1]; }
  }

  lemma SortedIsFixed(pairs: Slots)
    requires Ascending(pairs)
    ensures SortByKey(pairs) == pairs
  {
    SortIsSound(pairs);
    AscendingIsCanonical(SortByKey(pairs), pairs);
  }

  // ------------------------------------------------------------- the reader

  lemma UintExact(s: seq<byte>, n: u64, rest: seq<byte>)
    ensures ReadUint(s) == Ok((n, rest)) <==> s == Uint(n) + rest
  {
    HeadExact(s, 0, n, rest);
  }

  /** What `count` entries behind `previous` have to look like to be accepted. */
  ghost predicate AcceptableEntries(slots: Slots, count: nat, schema: seq<u64>, previous: Option<u64>) {
    && |slots| == count
    && Ascending(slots)
    && (previous.Some? ==> forall p | p in slots :: previous.value < p.0)
    && KeysIn(slots, schema)
    && AllItems(slots)
  }

  lemma {:induction false} EntriesFound(s: seq<byte>, count: nat, schema: seq<u64>, previous: Option<u64>,
      slots: Slots, rest: seq<byte>)
    requires ReadEntries(s, count, schema, previous) == Ok((slots, rest))
    ensures AcceptableEntries(slots, count, schema, previous)
    ensures s == Entries(slots) + rest
    decreases count
  {
    hide ReadUint, ReadRaw, Uint;
    if count > 0 {
      var (key, behind) := ReadUint(s).value;
      var (raw, after) := ReadRaw(behind).value;
      var tail := slots[1..];
      EntriesFound(after, count - 1, schema, Some(key), tail, rest);
      EntryFound(s, key, behind, raw, after);
      PrependAcceptable(key, raw, tail, schema, previous);
      EntriesPrepend(key, raw, tail, rest);
    }
  }

  lemma EntryFound(s: seq<byte>, key: u64, behind: seq<byte>, raw: seq<byte>, after: seq<byte>)
    requires ReadUint(s) == Ok((key, behind)) && ReadRaw(behind) == Ok((raw, after))
    ensures IsItem(raw) && s == Uint(key) + (raw + after)
  {
    UintExact(s, key, behind);
    RawValueExact(behind, raw, after);
  }

  lemma EntriesPrepend(key: u64, raw: seq<byte>, tail: Slots, rest: seq<byte>)
    ensures Entries([(key, raw)] + tail) + rest == Uint(key) + (raw + (Entries(tail) + rest))
  {
    assert ([(key, raw)] + tail)[1..] == tail;
    RegroupEntry(Uint(key), raw, Entries(tail), rest);
  }

  lemma PrependAcceptable(key: u64, raw: seq<byte>, tail: Slots, schema: seq<u64>, previous: Option<u64>)
    requires AcceptableEntries(tail, |tail|, schema, Some(key))
    requires key in schema && IsItem(raw) && (previous.Some? ==> previous.value < key)
    ensures AcceptableEntries([(key, raw)] + tail, |tail| + 1, schema, previous)
  {
    var slots := [(key, raw)] + tail;
    assert forall p | p in slots :: p == (key, raw) || p in tail;
    forall i, j | 0 <= i < j < |slots| ensures slots[i].0 < slots[j].0 {
      assert slots[j] == tail[j - 1] && tail[j - 1] in tail;
    }
  }

  lemma RegroupEntry(a: seq<byte>, b: seq<byte>, c: seq<byte>, d: seq<byte>)
    ensures a + (b + (c + d)) == a + (b + c) + d
  {
  }

  lemma {:induction false} EntriesAccepted(slots: Slots, schema: seq<u64>, previous: Option<u64>, rest: seq<byte>)
    requires AcceptableEntries(slots, |slots|, schema, previous)
    ensures ReadEntries(Entries(slots) + rest, |slots|, schema, previous) == Ok((slots, rest))
    decreases |slots|
  {
    if |slots| == 0 {
      assert Entries(slots) + rest == rest;
    } else {
      var (key, raw) := slots[0];
      assert (key, raw) in slots;
      var tail := slots[1..];
      assert slots == [slots[0]] + tail;
      TailAcceptable(slots, schema, previous);
      EntriesAccepted(tail, schema, Some(key), rest);
      var end := Entries(tail) + rest;
      RegroupEntry(Uint(key), raw, Entries(tail), rest);
      UintExact(Entries(slots) + rest, key, raw + end);
      RawValueExact(raw + end, raw, end);
    }
  }

  lemma TailAcceptable(slots: Slots, schema: seq<u64>, previous: Option<u64>)
    requires |slots| > 0 && AcceptableEntries(slots, |slots|, schema, previous)
    ensures AcceptableEntries(slots[1..], |slots| - 1, schema, Some(slots[0].0))
  {
    var tail := slots[1..];
    forall p | p in tail ensures p in slots && slots[0].0 < p.0 {
      var i :| 0 <= i < |tail| && tail[i] == p;
      assert slots[i + 1] == p;
    }
  }

  lemma {:induction false} EntriesAreLong(slots: Slots)
    ensures |Entries(slots)| >= |slots|
  {
    if |slots| > 0 { EntriesAreLong(slots[1..]); }
  }

  lemma AscendingIsDistinct(slots: Slots)
    requires Ascending(slots)
    ensures DistinctKeys(slots)
  {
    forall i, j | 0 <= i < j < |slots| ensures slots[i].0 != slots[j].0 { assert slots[i].0 < slots[j].0; }
  }

  /** What a schema map has to be to be accepted: ascending in-schema keys over whole items. */
  ghost predicate SchemaMap(slots: Slots, schema: seq<u64>) {
    && |slots| < TWO_TO_64
    && AcceptableEntries(slots, |slots|, schema, None)
  }

  /** `schema_map` accepts exactly those maps, and `map` rebuilds the bytes it consumed. */
  lemma SchemaMapExact(s: seq<byte>, schema: seq<u64>, slots: Slots, rest: seq<byte>)
    ensures ReadSchemaMap(s, schema) == Ok((slots, rest))
            <==> SchemaMap(slots, schema) && DistinctKeys(slots) && s == Map(slots) + rest
  {
    if ReadSchemaMap(s, schema) == Ok((slots, rest)) {
      var (count, behind) := ReadMapCount(s).value;
      HeadWasWritten(s);
      EntriesFound(behind, count, schema, None, slots, rest);
      AscendingIsDistinct(slots);
      SortedIsFixed(slots);
      Regroup(Head(5, count), Entries(slots), rest);
    }
    if SchemaMap(slots, schema) && DistinctKeys(slots) && s == Map(slots) + rest {
      SortedIsFixed(slots);
      EntriesAreLong(slots);
      Regroup(Head(5, |slots|), Entries(slots), rest);
      HeadReads(5, |slots|, Entries(slots) + rest);
      EntriesAccepted(slots, schema, None, rest);
    }
  }

  /** A map of whole items is read back as its sorted pairs. */
  lemma MapReads(pairs: Slots, schema: seq<u64>, rest: seq<byte>)
    requires DistinctKeys(pairs) && |pairs| < TWO_TO_64 && KeysIn(pairs, schema) && AllItems(pairs)
    ensures ReadSchemaMap(Map(pairs) + rest, schema) == Ok((SortByKey(pairs), rest))
    ensures DistinctKeys(SortByKey(pairs)) && SamePairs(SortByKey(pairs), pairs)
  {
    var sorted := SortByKey(pairs);
    SortIsSound(pairs);
    AscendingIsDistinct(sorted);
    SortedIsFixed(sorted);
    SchemaMapExact(Map(pairs) + rest, schema, sorted, rest);
  }

  function Keys(pairs: Slots): (keys: seq<u64>)
    ensures KeysIn(pairs, keys)
  {
    var keys := seq(|pairs|, i requires 0 <= i < |pairs| => pairs[i].0);
    assert forall i | 0 <= i < |pairs| :: keys[i] == pairs[i].0 && keys[i] in keys;
    keys
  }

  /** Two maps of whole items have the same bytes only when they hold the same pairs. */
  lemma MapIsInjective(p: Slots, q: Slots)
    requires DistinctKeys(p) && |p| < TWO_TO_64 && AllItems(p)
    requires DistinctKeys(q) && |q| < TWO_TO_64 && AllItems(q)
    requires Map(p) == Map(q)
    ensures SamePairs(p, q)
  {
    var schema := Keys(p) + Keys(q);
    MapReads(p, schema, []);
    MapReads(q, schema, []);
  }

  // ------------------------------------------------------------------- slots

  lemma {:induction false} SlotFound(slots: Slots, key: u64, raw: seq<byte>)
    requires DistinctKeys(slots) && (key, raw) in slots
    ensures OptionalSlot(slots, key) == Some(raw)
  {
    OnePerKey(slots, (key, raw), (key, OptionalSlot(slots, key).value));
  }

  lemma OnePerKey(slots: Slots, p: (u64, seq<byte>), q: (u64, seq<byte>))
    requires DistinctKeys(slots) && p in slots && q in slots && p.0 == q.0
    ensures p == q
  {
    var i :| 0 <= i < |slots| && slots[i] == p;
    var j :| 0 <= j < |slots| && slots[j] == q;
  }

  /** Slots that carry every pair of a payload, under no other key, are that payload's pairs in order. */
  lemma Rebuilds(slots: Slots, pairs: Slots)
    requires Ascending(slots) && DistinctKeys(pairs)
    requires forall p | p in pairs :: p in slots
    requires forall p | p in slots :: HasKey(pairs, p.0)
    ensures SortByKey(pairs) == slots
  {
    AscendingIsDistinct(slots);
    SortIsSound(pairs);
    forall p | p in slots ensures p in pairs {
      var q :| q in pairs && q.0 == p.0;
      OnePerKey(slots, p, q);
    }
    AscendingIsCanonical(SortByKey(pairs), slots);
  }
}
