/** Settlement pays: who is still owed, what was queued for whom, and what the answer counts. */
module HubSettle {
  import opened Octets
  import opened Frames
  import opened HubState
  import opened HubRoom
  import opened HubRegistry
  import opened HubLoss

  // ------------------------------------------------------------------- one group

  /** The subscriber is owed a notice and there is room for it. */
  predicate Pays(s: Hub, g: Group, i: nat)
    requires g in s.groups && i < |s.groups[g]|
  {
    s.groups[g][i].owed && Room(ChannelOf(s, s.groups[g][i].id), SubAck(g, 0))
  }

  function Paid(c: Channel, g: Group): Channel { Queue(c, [Data(SubAck(g, 0))]) }

  lemma SettleAtPays(s: Hub, g: Group, i: nat)
    requires g in s.groups && i < |s.groups[g]|
    ensures var sub, r := s.groups[g][i], SettleAt(s, g, i);
            if Pays(s, g, i) then
              && r.groups == s.groups[g := s.groups[g][i := sub.(owed := false)]]
              && r.channels == s.channels[sub.id := Paid(ChannelOf(s, sub.id), g)]
              && r.log == s.log + [Noticed(g, sub.id)]
              && r == s.(groups := r.groups, channels := r.channels, log := r.log)
              && ChannelOf(r, sub.id) == Paid(ChannelOf(s, sub.id), g)
              && (forall x: ConnectionId | x != sub.id :: ChannelOf(r, x) == ChannelOf(s, x))
            else r == s
  {
    hide Answer, TryQueue, Room;
    TryQueueMeans(ChannelOf(s, s.groups[g][i].id), Notice(g));
  }

  /** The first `n` have been asked: one that was owed and had room was paid, and nothing else of anyone's moved. */
  ghost predicate Asked(s: Hub, r: Hub, g: Group, n: nat)
    requires g in s.groups
  {
    && r == s.(groups := r.groups, channels := r.channels, log := r.log)
    && g in r.groups && r.groups == s.groups[g := r.groups[g]] && |r.groups[g]| == |s.groups[g]|
    && (forall i | 0 <= i < |s.groups[g]| ::
          if i < n && Pays(s, g, i)
          then r.groups[g][i] == s.groups[g][i].(owed := false)
               && ChannelOf(r, s.groups[g][i].id) == Paid(ChannelOf(s, s.groups[g][i].id), g)
          else r.groups[g][i] == s.groups[g][i] && ChannelOf(r, s.groups[g][i].id) == ChannelOf(s, s.groups[g][i].id))
    && (forall x: ConnectionId :: !Has(s.groups[g], x) ==> ChannelOf(r, x) == ChannelOf(s, x))
  }

  lemma AskOne(s: Hub, q: Hub, g: Group, n: nat)
    requires g in s.groups && OnePerId(s.groups[g]) && n < |s.groups[g]| && Asked(s, q, g, n)
    ensures Asked(s, SettleAt(q, g, n), g, n + 1)
  {
    hide SettleAt, Room, ChannelOf;
    SettleAtPays(q, g, n);
    assert Pays(q, g, n) == Pays(s, g, n);
  }

  lemma AskNone(s: Hub, g: Group)
    requires g in s.groups
    ensures Asked(s, s, g, 0)
  {
    hide Room;
    assert s.groups[g := s.groups[g]] == s.groups;
  }

  lemma {:induction false} SettleAsks(s: Hub, g: Group, n: nat)
    requires g in s.groups && OnePerId(s.groups[g]) && n <= |s.groups[g]|
    ensures Asked(s, SettleTo(s, g, n), g, n)
  {
    hide Asked, SettleAt, SettleTo;
    if n == 0 {
      SettleZero(s, g);
      AskNone(s, g);
    } else {
      SettleAsks(s, g, n - 1);
      SettleUnfolds(s, g, n - 1);
      AskOne(s, SettleTo(s, g, n - 1), g, n - 1);
    }
  }

  /** One connection's part in it. */
  lemma GroupSettles(s: Hub, g: Group, id: ConnectionId)
    requires g in s.groups && OnePerId(s.groups[g])
    ensures var r := SettleTo(s, g, |s.groups[g]|);
            var c, pays := ChannelOf(s, id), OwedIn(s, g, id) && Room(ChannelOf(s, id), SubAck(g, 0));
            && ChannelOf(r, id) == (if pays then Paid(c, g) else c)
            && (OwedIn(r, g, id) <==> OwedIn(s, g, id) && !pays)
  {
    hide SettleTo, Room;
    var r, n := SettleTo(s, g, |s.groups[g]|), |s.groups[g]|;
    SettleAsks(s, g, n);
    if Has(s.groups[g], id) {
      var i := IndexOf(s.groups[g], id);
      assert OnePerId(r.groups[g]);
      EntryOwes(s, g, i);
      EntryOwes(r, g, i);
    } else {
      assert forall i | 0 <= i < n :: r.groups[g][i].id == s.groups[g][i].id;
    }
  }

  // ------------------------------------------------------------------ every group

  predicate Distinct(order: seq<Group>) { forall i, j | 0 <= i < j < |order| :: order[i] != order[j] }

  predicate Cleared(s: Hub, r: Hub, g: Group, id: ConnectionId) { OwedIn(s, g, id) && !OwedIn(r, g, id) }

  /** The notices of the groups that no longer owe the connection, in the order they were visited. */
  function Notices(s: Hub, r: Hub, order: seq<Group>, id: ConnectionId): seq<Outbound> {
    if |order| == 0 then [] else
      var g := order[|order| - 1];
      Notices(s, r, order[..|order| - 1], id) + if Cleared(s, r, g, id) then [Data(SubAck(g, 0))] else []
  }

  /** What settling a list of groups does for one connection. */
  ghost predicate Settles(s: Hub, r: Hub, order: seq<Group>, id: ConnectionId) {
    && ChannelOf(r, id) == Queue(ChannelOf(s, id), Notices(s, r, order, id))
    && (forall g | g in order && OwedIn(r, g, id) :: OwedIn(s, g, id) && !Room(ChannelOf(r, id), SubAck(g, 0)))
  }

  lemma {:induction false} SameNotices(s: Hub, q: Hub, r: Hub, order: seq<Group>, id: ConnectionId)
    requires forall g | g in order :: OwedIn(q, g, id) == OwedIn(r, g, id)
    ensures Notices(s, q, order, id) == Notices(s, r, order, id)
  {
    hide OwedIn;
    if |order| > 0 { SameNotices(s, q, r, order[..|order| - 1], id); }
  }

  lemma {:induction false} SettleLeaves(s: Hub, order: seq<Group>, h: Group)
    requires h !in order
    ensures Subscribers(Settle(s, order), h) == Subscribers(s, h)
  {
    if |order| > 0 {
      var front, g := order[..|order| - 1], order[|order| - 1];
      SettleLeaves(s, front, h);
      hide SettleTo;
    }
  }

  lemma SettledRegistry(s: Hub, order: seq<Group>)
    requires Registry(s)
    ensures Registry(Settle(s, order))
  {
    SettleKeepsIds(s, order);
    SameIdsKeepRegistry(s, Settle(s, order));
  }

  lemma SameGroupOwes(s: Hub, r: Hub, g: Group, id: ConnectionId)
    requires Subscribers(r, g) == Subscribers(s, g)
    ensures OwedIn(r, g, id) == OwedIn(s, g, id)
  {
  }

  lemma OneMoreGroup(s: Hub, q: Hub, r: Hub, front: seq<Group>, g: Group, id: ConnectionId)
    requires Settles(s, q, front, id) && g !in front && ChannelOf(s, id).taken <= |ChannelOf(s, id).accepted|
    requires OwedIn(q, g, id) == OwedIn(s, g, id)
    requires forall h | h != g :: OwedIn(r, h, id) == OwedIn(q, h, id)
    requires var c, pays := ChannelOf(q, id), OwedIn(q, g, id) && Room(ChannelOf(q, id), SubAck(g, 0));
             && ChannelOf(r, id) == (if pays then Paid(c, g) else c)
             && (OwedIn(r, g, id) <==> OwedIn(q, g, id) && !pays)
    ensures Settles(s, r, front + [g], id)
  {
    hide OwedIn, Room, ChannelOf;
    SameNotices(s, q, r, front, id);
    var c, d, e := ChannelOf(s, id), ChannelOf(q, id), ChannelOf(r, id);
    assert (front + [g])[..|front|] == front;
    var last: seq<Outbound> := if Cleared(s, r, g, id) then [Data(SubAck(g, 0))] else [];
    assert e == Queue(d, last);
    assert c.accepted + Notices(s, r, front, id) + last == c.accepted + (Notices(s, r, front, id) + last);
    forall h | h in front + [g] && OwedIn(r, h, id) ensures OwedIn(s, h, id) && !Room(e, SubAck(h, 0)) {
      if h != g && Room(e, SubAck(h, 0)) { RoomShrinks(d, last, SubAck(h, 0)); }
    }
  }

  lemma {:induction false} OrderSettles(s: Hub, order: seq<Group>, id: ConnectionId)
    requires Registry(s) && Distinct(order) && ChannelOf(s, id).taken <= |ChannelOf(s, id).accepted|
    ensures Settles(s, Settle(s, order), order, id)
  {
    hide Room, OwedIn, ChannelOf;
    if |order| == 0 {
      assert ChannelOf(s, id).accepted + [] == ChannelOf(s, id).accepted;
    } else {
      hide Settles;
      var front, g := order[..|order| - 1], order[|order| - 1];
      OrderSettles(s, front, id);
      var q, r := Settle(s, front), Settle(s, order);
      SettledRegistry(s, front);
      SettleLeaves(s, front, g);
      SameGroupOwes(s, q, g, id);
      hide SettleTo, Settle;
      GroupOf(s, order, id);
      OneMoreGroup(s, q, r, front, g, id);
      assert front + [g] == order;
    }
  }

  /** The last group of a list, settled on what the others left. */
  lemma GroupOf(s: Hub, order: seq<Group>, id: ConnectionId)
    requires Registry(s) && |order| > 0
    ensures var q, r, g := Settle(s, order[..|order| - 1]), Settle(s, order), order[|order| - 1];
            var c, pays := ChannelOf(q, id), OwedIn(q, g, id) && Room(ChannelOf(q, id), SubAck(g, 0));
            && ChannelOf(r, id) == (if pays then Paid(c, g) else c)
            && (OwedIn(r, g, id) <==> OwedIn(q, g, id) && !pays)
            && forall h | h != g :: OwedIn(r, h, id) == OwedIn(q, h, id)
  {
    hide Room, SettleTo;
    var q, r, g := Settle(s, order[..|order| - 1]), Settle(s, order), order[|order| - 1];
    SettledRegistry(s, order[..|order| - 1]);
    if g in q.groups {
      GroupSettles(q, g, id);
      SettleAsks(q, g, |q.groups[g]|);
    }
  }

  // -------------------------------------------------------------- entries and counts

  function Debts(subs: seq<Subscriber>): nat {
    if |subs| == 0 then 0 else Debts(subs[..|subs| - 1]) + if subs[|subs| - 1].owed then 1 else 0
  }

  function AllDebts(s: Hub, order: seq<Group>): nat {
    if |order| == 0 then 0
    else AllDebts(s, order[..|order| - 1]) + Debts(Subscribers(s, order[|order| - 1]))
  }

  lemma {:induction false} OneDebtLess(subs: seq<Subscriber>, i: nat)
    requires i < |subs| && subs[i].owed
    ensures Debts(subs[i := subs[i].(owed := false)]) == Debts(subs) - 1
  {
    var now, n := subs[i := subs[i].(owed := false)], |subs| - 1;
    if i < n {
      OneDebtLess(subs[..n], i);
      assert now[..n] == subs[..n][i := subs[i].(owed := false)];
    } else {
      assert now[..n] == subs[..n];
    }
  }

  lemma {:induction false} GroupCounts(s: Hub, g: Group, n: nat)
    requires g in s.groups && n <= |s.groups[g]|
    ensures var r := SettleTo(s, g, n); |r.log| + Debts(r.groups[g]) == |s.log| + Debts(s.groups[g])
  {
    hide SettleAt, SettleTo, Debts;
    if n == 0 {
      SettleZero(s, g);
    } else {
      GroupCounts(s, g, n - 1);
      SettleUnfolds(s, g, n - 1);
      TurnCounts(SettleTo(s, g, n - 1), g, n - 1);
    }
  }

  lemma TurnCounts(s: Hub, g: Group, i: nat)
    requires g in s.groups && i < |s.groups[g]|
    ensures var r := SettleAt(s, g, i); |r.log| + Debts(r.groups[g]) == |s.log| + Debts(s.groups[g])
  {
    hide SettleAt, Debts, Room;
    SettleAtPays(s, g, i);
    if s.groups[g][i].owed { OneDebtLess(s.groups[g], i); }
  }

  lemma {:induction false} SameDebts(s: Hub, r: Hub, order: seq<Group>)
    requires forall g | g in order :: Subscribers(r, g) == Subscribers(s, g)
    ensures AllDebts(r, order) == AllDebts(s, order)
  {
    hide Subscribers;
    if |order| > 0 { SameDebts(s, r, order[..|order| - 1]); }
  }

  /** The notices queued are the debts there were and are no more. */
  lemma {:induction false} SettleCounts(s: Hub, order: seq<Group>)
    requires Distinct(order)
    ensures var r := Settle(s, order); |r.log| + AllDebts(r, order) == |s.log| + AllDebts(s, order)
  {
    if |order| > 0 {
      hide SettleTo, Debts;
      var front, g := order[..|order| - 1], order[|order| - 1];
      var q, r := Settle(s, front), Settle(s, order);
      SettleCounts(s, front);
      SettleLeaves(s, front, g);
      if g in q.groups { GroupCounts(q, g, |q.groups[g]|); }
      SameDebts(q, r, front);
    }
  }

  /** No entry moves but for a flag that is cleared. */
  ghost predicate OnlyClears(s: Hub, r: Hub) {
    && r == s.(groups := r.groups, channels := r.channels, log := r.log) && r.groups.Keys == s.groups.Keys
    && forall g | g in s.groups :: OnlyClearsIn(s.groups[g], r.groups[g])
  }

  predicate OnlyClearsIn(was: seq<Subscriber>, now: seq<Subscriber>) {
    |now| == |was| && forall i | 0 <= i < |was| :: now[i] == was[i] || (was[i].owed && now[i] == was[i].(owed := false))
  }

  lemma AskedOnlyClears(s: Hub, r: Hub, g: Group, n: nat)
    requires g in s.groups && Asked(s, r, g, n)
    ensures OnlyClears(s, r)
  {
    hide Room;
    forall h | h in s.groups ensures OnlyClearsIn(s.groups[h], r.groups[h]) { }
  }

  lemma OnlyClearsTwice(s: Hub, q: Hub, r: Hub)
    requires OnlyClears(s, q) && OnlyClears(q, r)
    ensures OnlyClears(s, r)
  {
    forall g | g in s.groups ensures OnlyClearsIn(s.groups[g], r.groups[g]) {
      assert OnlyClearsIn(s.groups[g], q.groups[g]) && OnlyClearsIn(q.groups[g], r.groups[g]);
    }
  }

  lemma {:induction false} SettleOnlyClears(s: Hub, order: seq<Group>)
    requires Registry(s)
    ensures OnlyClears(s, Settle(s, order))
  {
    if |order| > 0 {
      hide SettleTo, OnlyClears, Asked;
      var front, g := order[..|order| - 1], order[|order| - 1];
      SettleOnlyClears(s, front);
      SettledRegistry(s, front);
      var q := Settle(s, front);
      if g in q.groups {
        var n := |q.groups[g]|;
        SettleAsks(q, g, n);
        AskedOnlyClears(q, SettleTo(q, g, n), g, n);
        OnlyClearsTwice(s, q, SettleTo(q, g, n));
      }
    }
  }
}
