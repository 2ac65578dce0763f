/** The hub's registry stays consistent in every run, and what an undisturbed `evict` leaves behind. */
module HubRegistry {
  import opened Octets
  import opened Frames
  import opened HubState

  predicate OnePerId(subs: seq<Subscriber>) {
    forall i, j | 0 <= i < j < |subs| :: subs[i].id != subs[j].id
  }

  predicate NoRepeats(ids: seq<ConnectionId>) {
    forall i, j | 0 <= i < j < |ids| :: ids[i] != ids[j]
  }

  /** At most one entry per connection per group and per principal, and no empty key. */
  predicate Registry(s: Hub) {
    && (forall g | g in s.groups :: |s.groups[g]| > 0 && OnePerId(s.groups[g]))
    && (forall e | e in s.principals :: |s.principals[e]| > 0 && NoRepeats(s.principals[e]))
  }

  predicate SameIds(a: seq<Subscriber>, b: seq<Subscriber>) {
    |a| == |b| && forall i | 0 <= i < |a| :: a[i].id == b[i].id
  }

  lemma TurnKeepsId(g: Group, f: Frame, except: ConnectionId, floor: u16, sub: Subscriber, c: Channel)
    ensures Deliver(g, f, except, floor, sub, c).sub.id == sub.id
  {
    hide Answer, TryQueue;
  }

  lemma FanoutUnfolds(s: Hub, g: Group, n: nat, f: Frame, except: ConnectionId, floor: u16)
    requires g in s.groups && n < |s.groups[g]|
    ensures FanoutTo(s, g, 0, f, except, floor).hub == s
    ensures var fan := FanoutTo(s, g, n, f, except, floor);
            FanoutTo(s, g, n + 1, f, except, floor) == TakeTurn(fan, g, n, TurnOf(fan.hub, g, n, f, except, floor))
  {
    hide TakeTurn, TurnOf;
  }

  lemma TurnTouches(fan: Fan, g: Group, i: nat, t: Turn)
    requires g in fan.hub.groups && i < |fan.hub.groups[g]|
    ensures var s, r := fan.hub, TakeTurn(fan, g, i, t).hub;
            && r.groups.Keys == s.groups.Keys && |r.groups[g]| == |s.groups[g]|
            && r.groups[g][i] == t.sub
            && (forall j | 0 <= j < |s.groups[g]| && j != i :: r.groups[g][j] == s.groups[g][j])
            && ChannelOf(r, s.groups[g][i].id) == t.channel
            && (forall x: ConnectionId | x != s.groups[g][i].id :: ChannelOf(r, x) == ChannelOf(s, x))
  {
  }

  lemma {:induction false} FanoutKeepsIds(s: Hub, g: Group, n: nat, f: Frame, except: ConnectionId, floor: u16)
    requires g in s.groups && n <= |s.groups[g]|
    ensures SameIds(FanoutTo(s, g, n, f, except, floor).hub.groups[g], s.groups[g])
  {
    hide Deliver, ChannelOf, FanoutTo, TakeTurn;
    if n == 0 {
      if |s.groups[g]| > 0 { FanoutUnfolds(s, g, 0, f, except, floor); }
    } else {
      FanoutKeepsIds(s, g, n - 1, f, except, floor);
      FanoutUnfolds(s, g, n - 1, f, except, floor);
      var fan := FanoutTo(s, g, n - 1, f, except, floor);
      var sub := fan.hub.groups[g][n - 1];
      TurnTouches(fan, g, n - 1, TurnOf(fan.hub, g, n - 1, f, except, floor));
      TurnKeepsId(g, f, except, floor, sub, ChannelOf(fan.hub, sub.id));
    }
  }

  lemma SettleUnfolds(s: Hub, g: Group, n: nat)
    requires g in s.groups && n < |s.groups[g]|
    ensures SettleTo(s, g, n + 1) == SettleAt(SettleTo(s, g, n), g, n)
  {
    hide SettleAt;
  }

  lemma SettleZero(s: Hub, g: Group)
    requires g in s.groups
    ensures SettleTo(s, g, 0) == s
  {
  }

  lemma SettleAtKeepsIds(s: Hub, g: Group, i: nat)
    requires g in s.groups && i < |s.groups[g]|
    ensures SameIds(SettleAt(s, g, i).groups[g], s.groups[g])
  {
    hide Answer, TryQueue;
  }

  lemma {:induction false} SettleToKeepsIds(s: Hub, g: Group, n: nat)
    requires g in s.groups && n <= |s.groups[g]|
    ensures SameIds(SettleTo(s, g, n).groups[g], s.groups[g])
  {
    hide SettleAt, SettleTo;
    if n == 0 {
      SettleZero(s, g);
    } else {
      SettleToKeepsIds(s, g, n - 1);
      SettleUnfolds(s, g, n - 1);
      SettleAtKeepsIds(SettleTo(s, g, n - 1), g, n - 1);
    }
  }

  lemma {:induction false} SettleKeepsIds(s: Hub, order: seq<Group>)
    ensures forall g | g in s.groups :: SameIds(Settle(s, order).groups[g], s.groups[g])
  {
    if |order| > 0 {
      SettleKeepsIds(s, order[..|order| - 1]);
      var r := Settle(s, order[..|order| - 1]);
      var g := order[|order| - 1];
      if g in r.groups { SettleToKeepsIds(r, g, |r.groups[g]|); }
    }
  }

  /** Filtering keeps order, keeps every other entry, and leaves none of the connection's. */
  lemma {:induction false} WithoutKeeps(subs: seq<Subscriber>, id: ConnectionId)
    ensures !Has(Without(subs, id), id)
    ensures forall x :: x in Without(subs, id) <==> x in subs && x.id != id
    ensures OnePerId(subs) ==> OnePerId(Without(subs, id))
  {
    if |subs| > 0 {
      var first, more := subs[0], subs[1..];
      WithoutKeeps(more, id);
      assert subs == [first] + more;
      var kept := Without(more, id);
      assert Without(subs, id) == if first.id == id then kept else [first] + kept;
      hide Without, OnePerId;
      if OnePerId(subs) {
        OnePerIdBehind(first, more);
        OnePerIdInFront(first, kept);
      }
    }
  }

  /** Filtering takes entries one at a time, in their order. */
  lemma {:induction false} WithoutOne(subs: seq<Subscriber>, x: Subscriber, id: ConnectionId)
    ensures Without(subs + [x], id) == Without(subs, id) + if x.id == id then [] else [x]
  {
    if |subs| == 0 {
      assert [x][1..] == [] && subs + [x] == [x];
    } else {
      WithoutOne(subs[1..], x, id);
      assert (subs + [x])[1..] == subs[1..] + [x];
    }
  }

  lemma OnePerIdBehind(first: Subscriber, more: seq<Subscriber>)
    requires OnePerId([first] + more)
    ensures OnePerId(more) && forall x | x in more :: x.id != first.id
  {
    var subs := [first] + more;
    assert forall i | 0 <= i < |more| :: more[i] == subs[i + 1];
    forall x | x in more ensures x.id != first.id {
      var k :| 0 <= k < |more| && more[k] == x;
      assert subs[0].id != subs[k + 1].id;
    }
  }

  lemma OnePerIdInFront(first: Subscriber, more: seq<Subscriber>)
    requires OnePerId(more)
    ensures (forall x | x in more :: x.id != first.id) ==> OnePerId([first] + more)
  {
  }

  lemma {:induction false} WithoutIdKeeps(ids: seq<ConnectionId>, id: ConnectionId)
    ensures id !in WithoutId(ids, id)
    ensures forall x :: x in WithoutId(ids, id) <==> x in ids && x != id
    ensures NoRepeats(ids) ==> NoRepeats(WithoutId(ids, id))
  {
    if |ids| > 0 {
      WithoutIdKeeps(ids[1..], id);
      assert ids == [ids[0]] + ids[1..];
      if NoRepeats(ids) {
        assert forall x | x in ids[1..] :: x != ids[0];
        assert forall i | 0 <= i < |WithoutId(ids[1..], id)| :: WithoutId(ids[1..], id)[i] in ids[1..];
      }
    }
  }

  lemma SameIdsKeepRegistry(s: Hub, r: Hub)
    requires Registry(s) && r.groups.Keys == s.groups.Keys && r.principals == s.principals
    requires forall g | g in s.groups :: SameIds(r.groups[g], s.groups[g])
    ensures Registry(r)
  {
    forall g | g in r.groups ensures |r.groups[g]| > 0 && OnePerId(r.groups[g]) {
      assert SameIds(r.groups[g], s.groups[g]);
    }
  }

  lemma RegistryFanout(s: Hub, g: Group, f: Frame, except: ConnectionId, floor: u16)
    requires Registry(s)
    ensures Registry(Fanout(s, g, f, except, floor).hub)
  {
    if g in s.groups {
      FanoutKeepsIds(s, g, |s.groups[g]|, f, except, floor);
      SameIdsKeepRegistry(s, Fanout(s, g, f, except, floor).hub);
    }
  }

  lemma RegistryRelease(s: Hub, g: Group, id: ConnectionId, to: u64)
    requires Registry(s)
    ensures Registry(Release(s, g, id, to))
  {
    hide DrainAll;
    var r := Release(s, g, id, to);
    if r != s { SameIdsKeepRegistry(s, r); }
  }

  lemma RegistryForget(s: Hub, id: ConnectionId)
    requires Registry(s)
    ensures Registry(DropSubscriptions(s, id)) && Registry(DropIdentity(s, id))
  {
    hide Without, WithoutId;
    forall g | g in s.groups ensures OnePerId(Without(s.groups[g], id)) { WithoutKeeps(s.groups[g], id); }
    forall e | e in s.principals ensures NoRepeats(WithoutId(s.principals[e], id)) {
      WithoutIdKeeps(s.principals[e], id);
    }
  }

  lemma RegistryElsewhere(s: Hub, r: Hub)
    requires Registry(s) && r.groups == s.groups && r.principals == s.principals
    ensures Registry(r)
  {
  }

  lemma RegistryJoin(s: Hub, g: Group, e: EntryHash, id: ConnectionId, version: u16, holding: bool)
    requires Registry(s)
    ensures Registry(Subscribe(s, g, id, version, holding)) && Registry(Identify(s, e, id))
            && Registry(TakePrincipal(s, e))
  {
  }

  lemma RegistryStep(s: Hub, step: Step)
    requires Registry(s)
    ensures Registry(Next(s, step))
  {
    hide Registry, Fanout, Settle, Release, DropSubscriptions, DropIdentity, Subscribe, Identify, TakePrincipal;
    hide HasSlot, Answer, Take, ChannelOf;
    match step
    case FannedOut(g, f, except, floor) => RegistryFanout(s, g, f, except, floor);
    case ReleasedHold(g, id, to) => RegistryRelease(s, g, id, to);
    case SettledDebts(order) =>
      SettleKeepsIds(s, order);
      SameIdsKeepRegistry(s, Next(s, step));
    case Forgotten(id) => RegistryForget(s, id);
    case Unlisted(id) => RegistryForget(s, id);
    case Subscribed(g, id, version, holding) => RegistryJoin(s, g, g, id, version, holding);
    case Identified(e, id) => RegistryJoin(s, e, e, id, 0, false);
    case PrincipalTaken(e) => RegistryJoin(s, e, e, 0, 0, false);
    case _ => RegistryElsewhere(s, Next(s, step));
  }

  /** Whatever the interleaving. */
  lemma {:induction false} RegistryAlways(steps: seq<Step>)
    ensures Registry(After(steps))
  {
    if |steps| > 0 {
      RegistryAlways(steps[..|steps| - 1]);
      RegistryStep(After(steps[..|steps| - 1]), steps[|steps| - 1]);
    }
  }

  // --------------------------------------------------------------------- evict

  predicate Subscribed(s: Hub, g: Group, x: Subscriber) { g in s.groups && x in s.groups[g] }

  predicate Listed(s: Hub, e: EntryHash, x: ConnectionId) { e in s.principals && x in s.principals[e] }

  /** Exactly the entries of the connections in `ids` are gone, from every group and from every principal. */
  ghost predicate Stripped(s: Hub, r: Hub, ids: seq<ConnectionId>) {
    && (forall g, x :: Subscribed(r, g, x) <==> Subscribed(s, g, x) && x.id !in ids)
    && (forall e, x :: Listed(r, e, x) <==> Listed(s, e, x) && x !in ids)
  }

  lemma DisconnectStrips(s: Hub, id: ConnectionId)
    ensures Stripped(s, Disconnect(s, id), [id])
  {
    hide Without, WithoutId;
    var r := Disconnect(s, id);
    forall g, x ensures Subscribed(r, g, x) <==> Subscribed(s, g, x) && x.id != id {
      if g in s.groups { WithoutKeeps(s.groups[g], id); }
    }
    forall e, x ensures Listed(r, e, x) <==> Listed(s, e, x) && x != id {
      if e in s.principals { WithoutIdKeeps(s.principals[e], id); }
    }
  }

  lemma StrippedTwice(s: Hub, q: Hub, r: Hub, front: seq<ConnectionId>, last: ConnectionId)
    requires Stripped(s, q, front) && Stripped(q, r, [last])
    ensures Stripped(s, r, front + [last])
  {
    hide Subscribed, Listed;
    assert forall id :: id in front + [last] <==> id in front || id in [last];
  }

  lemma {:induction false} EndEachStrips(s: Hub, ids: seq<ConnectionId>)
    ensures Stripped(s, EndEach(s, ids), ids)
  {
    hide Disconnect, Stripped;
    if |ids| == 0 {
      EmptyStrip(s);
    } else {
      var front, last := ids[..|ids| - 1], ids[|ids| - 1];
      EndEachStrips(s, front);
      var q := EndEach(s, front);
      DisconnectStrips(Revoke(q, last), last);
      SameEntries(q, Revoke(q, last), EndEach(s, ids), [last]);
      StrippedTwice(s, q, EndEach(s, ids), front, last);
      assert front + [last] == ids;
    }
  }

  lemma EmptyStrip(s: Hub)
    ensures Stripped(s, s, [])
  {
  }

  lemma SameEntries(s: Hub, t: Hub, r: Hub, ids: seq<ConnectionId>)
    requires s.groups == t.groups && s.principals == t.principals && Stripped(t, r, ids)
    ensures Stripped(s, r, ids)
  {
    forall g, x ensures Subscribed(s, g, x) == Subscribed(t, g, x) { }
    forall e, x ensures Listed(s, e, x) == Listed(t, e, x) { }
  }

  lemma {:induction false} EndEachFlags(s: Hub, ids: seq<ConnectionId>)
    ensures forall id | id in ids :: ChannelOf(EndEach(s, ids), id).evicted
    ensures forall id | id !in ids :: ChannelOf(EndEach(s, ids), id) == ChannelOf(s, id)
    ensures EndEach(s, ids).principals.Keys <= s.principals.Keys
  {
    hide Without, WithoutId, HasSlot;
    if |ids| > 0 {
      var front, last := ids[..|ids| - 1], ids[|ids| - 1];
      EndEachFlags(s, front);
      var q := EndEach(s, front);
      assert EndEach(s, ids) == Disconnect(Revoke(q, last), last);
      hide EndEach;
      assert forall id :: id in ids <==> id in front || id == last;
    }
  }

  /**
   * An undisturbed `evict`: the principal is unlisted, its connections' entries are gone everywhere and theirs alone,
   * their senders are flagged, and no other channel moved.
   */
  lemma EvictEnds(s: Hub, entry: EntryHash)
    ensures var r := Evict(s, entry);
            var ids := if entry in s.principals then s.principals[entry] else [];
            && entry !in r.principals
            && Stripped(TakePrincipal(s, entry), r, ids)
            && (forall id | id in ids :: ChannelOf(r, id).evicted)
            && (forall id | id !in ids :: ChannelOf(r, id) == ChannelOf(s, id))
  {
    hide Stripped;
    var q := TakePrincipal(s, entry);
    var ids := if entry in s.principals then s.principals[entry] else [];
    EndEachStrips(q, ids);
    EndEachFlags(q, ids);
  }

  /** An order in which a hash map may yield its keys. */
  ghost predicate EachOnce<T(!new)>(order: seq<T>, keys: set<T>) {
    && (forall k :: k in order <==> k in keys)
    && (forall i, j | 0 <= i < j < |order| :: order[i] != order[j])
  }

  lemma OnceMore<T(!new)>(order: seq<T>, keys: set<T>, k: T)
    requires EachOnce(order, keys) && k !in keys
    ensures EachOnce(order + [k], keys + {k})
  {
    assert forall i | 0 <= i < |order| :: order[i] in order;
  }

  lemma NoneYet<T(!new)>()
    ensures EachOnce<T>([], {})
  {
  }
}
