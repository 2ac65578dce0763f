/** The hub as the relay runs it: fields updated in place, one method per public operation, each equal to its steps. */
module LiveHub {
  import opened Octets
  import opened Frames
  import opened HubState
  import HubRegistry
  import HubSettle

  /** Putting back what is there changes nothing. */
  lemma PutBack(s: HubState.Hub, g: Group, i: nat)
    requires g in s.groups && i < |s.groups[g]|
    ensures s.groups[g := s.groups[g][i := s.groups[g][i]]] == s.groups
    ensures s.groups[g][i].id in s.channels ==>
              s.channels[s.groups[g][i].id := s.channels[s.groups[g][i].id]] == s.channels
    ensures s.log + [] == s.log
  {
    assert s.groups[g][i := s.groups[g][i]] == s.groups[g];
  }

  lemma SettleNone(s: HubState.Hub)
    ensures Settle(s, []) == s
  {
  }

  lemma SettleMore(s: HubState.Hub, order: seq<Group>, g: Group)
    requires g in s.groups
    ensures var r := Settle(s, order); Settle(s, order + [g]) == SettleTo(r, g, |r.groups[g]|)
  {
    hide SettleTo;
    assert (order + [g])[..|order|] == order;
  }

  lemma OrderIsDistinct(order: seq<Group>, keys: set<Group>)
    requires HubRegistry.EachOnce(order, keys)
    ensures HubSettle.Distinct(order)
  {
  }

  lemma IdleTurn(s: HubState.Hub, g: Group, i: nat, delivery: Option<Delivery>)
    requires g in s.groups && i < |s.groups[g]| && s.groups[g][i].id in s.channels
    requires delivery == None || delivery == Some(NotSpoken)
    ensures Hub.Taken(s, g, i, HubState.Turn(s.groups[g][i], s.channels[s.groups[g][i].id], delivery, [])) == s
  {
    PutBack(s, g, i);
  }

  /** A notice paid and a frame forwarded are one turn. */
  lemma PaidThenForwarded(s: HubState.Hub, paid: HubState.Hub, r: HubState.Hub, g: Group, i: nat, f: Frame)
    requires g in s.groups && i < |s.groups[g]| && s.groups[g][i].id in s.channels
    requires var sub := s.groups[g][i];
             && Answer(s.channels[sub.id], Notice(g)).Sent?
             && paid == s.(groups := s.groups[g := s.groups[g][i := sub.(owed := false)]],
                           channels := s.channels[sub.id := HubState.TryQueue(s.channels[sub.id], Notice(g))],
                           log := s.log + [Noticed(g, sub.id)])
             && r == Hub.Taken(paid, g, i, HubState.Forward(g, f, paid.groups[g][i], paid.channels[sub.id]))
    ensures r == Hub.Taken(s, g, i, Settled(g, f, s.groups[g][i], s.channels[s.groups[g][i].id]))
  {
    hide Answer, HubState.Forward, HubState.TryQueue;
    var sub := s.groups[g][i];
    var t := HubState.Forward(g, f, sub.(owed := false), HubState.TryQueue(s.channels[sub.id], Notice(g)));
    assert s.log + [Noticed(g, sub.id)] + t.events == s.log + ([Noticed(g, sub.id)] + t.events);
    assert s.groups[g][i := sub.(owed := false)][i := t.sub] == s.groups[g][i := t.sub];
  }

  lemma FanoutStarts(s: HubState.Hub, g: Group, f: Frame, except: ConnectionId, floor: u16)
    requires g in s.groups
    ensures FanoutTo(s, g, 0, f, except, floor) == Fan(s, [], [])
  {
  }

  /** Once a held frame found no room the rest of the hold is not looked at. */
  lemma {:induction false} DrainStops(c: Channel, g: Group, id: ConnectionId, held: seq<Frame>, k: nat, to: u64)
    requires k <= |held|
    ensures k == |held| ==> held[..k] == held
    ensures DrainAll(c, g, id, held[..k], to).stopped
            ==> DrainAll(c, g, id, held, to) == DrainAll(c, g, id, held[..k], to)
    decreases |held| - k
  {
    hide Answer;
    if k < |held| {
      assert held[..k + 1][..k] == held[..k];
      DrainStops(c, g, id, held, k + 1, to);
    } else {
      assert held[..k] == held;
    }
  }

  class Hub {
    var groups: map<Group, seq<Subscriber>>
    var principals: map<EntryHash, seq<ConnectionId>>
    var channels: map<ConnectionId, Channel>
    var downgrades: u64
    var shed: u64
    ghost var log: seq<Event>

    ghost function State(): HubState.Hub
      reads this
    {
      HubState.Hub(groups, principals, channels, downgrades, shed, log)
    }

    /** Every entry holds a sender. */
    predicate Valid()
      reads this
    {
      && (forall g, i | g in groups && 0 <= i < |groups[g]| :: groups[g][i].id in channels)
      && (forall e, i | e in principals && 0 <= i < |principals[e]| :: principals[e][i] in channels)
    }

    constructor ()
      ensures Valid() && State() == EMPTY
    {
      groups, principals, channels, downgrades, shed, log := map[], map[], map[], 0, 0, [];
    }

    method Subscribe(g: Group, id: ConnectionId, version: u16, holding: bool)
      requires Valid() && id in channels
      modifies this
      ensures Valid() && State() == HubState.Subscribe(old(State()), g, id, version, holding)
    {
      var subs := if g in groups then groups[g] else [];
      if Has(subs, id) { return; }
      groups := groups[g := subs + [Subscriber(id, version, false, if holding then Some([]) else None)]];
    }

    method Identify(entry: EntryHash, id: ConnectionId)
      requires Valid() && id in channels
      modifies this
      ensures Valid() && State() == HubState.Identify(old(State()), entry, id)
    {
      var connections := if entry in principals then principals[entry] else [];
      if id in connections { return; }
      principals := principals[entry := connections + [id]];
    }

    // ------------------------------------------------------------------ fanout

    method TryQueue(id: ConnectionId, f: Frame) returns (answer: Queued)
      requires id in channels
      modifies this`channels
      ensures answer == Answer(old(channels)[id], f)
      ensures channels == old(channels)[id := HubState.TryQueue(old(channels)[id], f)]
    {
      var c := channels[id];
      var held := HeldPermits(c.Waiting()) + c.reserved;
      if held + Permits(f) > SEND_QUEUE_BYTE_BUDGET { return Full; }
      if c.closed { return Closed; }
      if |c.Waiting()| >= SEND_QUEUE_BOUND { return Full; }
      channels := channels[id := Accept(c, Data(f))];
      return Queued.Sent;
    }

    method EvictSender(id: ConnectionId)
      requires id in channels
      modifies this`channels
      ensures channels == old(channels)[id := old(channels)[id].(evicted := true)]
    {
      channels := channels[id := channels[id].(evicted := true)];
    }

    static ghost function Taken(s: HubState.Hub, g: Group, i: nat, t: HubState.Turn): HubState.Hub
      requires g in s.groups && i < |s.groups[g]|
    {
      TakeTurn(Fan(s, [], []), g, i, t).hub
    }

    method Forward(g: Group, i: nat, f: Frame) returns (delivery: Delivery)
      requires Valid() && g in groups && i < |groups[g]|
      modifies this
      ensures var s := old(State());
              var t := HubState.Forward(g, f, s.groups[g][i], s.channels[s.groups[g][i].id]);
              State() == Taken(s, g, i, t) && t.delivery == Some(delivery)
      ensures Valid()
    {
      hide Answer;
      PutBack(State(), g, i);
      var sub := groups[g][i];
      var answer := TryQueue(sub.id, f);
      match answer
      case Sent =>
        log := log + [Forwarded(g, sub.id, f)];
        delivery := Delivery.Sent;
      case Full =>
        if Ephemeral(f) {
          shed := (shed + 1) % TWO_TO_64;
          delivery := Shed;
        } else if f.Handshake? {
          EvictSender(sub.id);
          log := log + [Ended(g, sub.id, f)];
          delivery := Gone;
        } else {
          groups := groups[g := groups[g][i := sub.(owed := true)]];
          downgrades := (downgrades + 1) % TWO_TO_64;
          log := log + [Owes(g, sub.id), Missed(g, sub.id, f)];
          delivery := Downgraded;
        }
      case Closed =>
        log := log + [ShutOut(g, sub.id, f)];
        delivery := Gone;
    }

    /** Nothing else is tried until an owed notice is queued. */
    method PayFirst(g: Group, i: nat, f: Frame) returns (delivery: Delivery)
      requires Valid() && g in groups && i < |groups[g]| && groups[g][i].owed
      modifies this
      ensures var s := old(State());
              var t := Settled(g, f, s.groups[g][i], s.channels[s.groups[g][i].id]);
              State() == Taken(s, g, i, t) && t.delivery == Some(delivery)
      ensures Valid()
    {
      PutBack(State(), g, i);
      ghost var s := State();
      var sub := groups[g][i];
      var answer := TryQueue(sub.id, Notice(g));
      match answer
      case Sent =>
        groups := groups[g := groups[g][i := sub.(owed := false)]];
        log := log + [Noticed(g, sub.id)];
        ghost var paid := State();
        delivery := Forward(g, i, f);
        PaidThenForwarded(s, paid, State(), g, i, f);
      case Full =>
        if f.Handshake? {
          EvictSender(sub.id);
          log := log + [Ended(g, sub.id, f)];
          delivery := Gone;
        } else {
          log := log + if Ephemeral(f) then [] else [Missed(g, sub.id, f)];
          delivery := Downgraded;
        }
      case Closed =>
        log := log + [ShutOut(g, sub.id, f)];
        delivery := Gone;
    }

    method Hold(g: Group, i: nat, f: Frame) returns (delivery: Delivery)
      requires Valid() && g in groups && i < |groups[g]| && groups[g][i].held.Some?
      modifies this
      ensures var s := old(State());
              var t := HubState.Hold(g, f, s.groups[g][i], s.channels[s.groups[g][i].id]);
              State() == Taken(s, g, i, t) && t.delivery == Some(delivery)
      ensures Valid()
    {
      PutBack(State(), g, i);
      var sub := groups[g][i];
      if |sub.held.value| < MAX_HELD_HANDSHAKES {
        groups := groups[g := groups[g][i := sub.(held := Some(sub.held.value + [f]))]];
        log := log + [HeldBack(g, sub.id, f)];
        delivery := Delivery.Sent;
      } else {
        EvictSender(sub.id);
        log := log + [Ended(g, sub.id, f)];
        delivery := Gone;
      }
    }

    method Turn(g: Group, i: nat, f: Frame, except: ConnectionId, floor: u16) returns (delivery: Option<Delivery>)
      requires Valid() && g in groups && i < |groups[g]|
      modifies this
      ensures var s := old(State());
              var t := TurnOf(s, g, i, f, except, floor);
              State() == Taken(s, g, i, t) && t.delivery == delivery
      ensures Valid()
    {
      hide HubState.Forward, Settled, HubState.Hold, TakeTurn;
      IdleTurn(State(), g, i, None);
      IdleTurn(State(), g, i, Some(NotSpoken));
      var sub := groups[g][i];
      if sub.id == except { return None; }
      if sub.version < floor { return Some(NotSpoken); }
      var d: Delivery;
      if f.Handshake? && sub.held.Some? {
        d := Hold(g, i, f);
      } else if sub.owed {
        d := PayFirst(g, i, f);
      } else {
        d := Forward(g, i, f);
      }
      return Some(d);
    }

    method FanoutFrame(g: Group, f: Frame, except: ConnectionId, floor: u16)
      returns (outcomes: seq<(ConnectionId, Delivery)>)
      requires Valid()
      modifies this
      ensures var fan := Fanout(old(State()), g, f, except, floor);
              State() == DisconnectEach(fan.hub, fan.gone) && outcomes == fan.outcomes
      ensures Valid()
    {
      hide DropSubscriptions, DropIdentity;
      outcomes := [];
      if g !in groups { return; }
      var gone: seq<ConnectionId> := [];
      gone, outcomes := FanoutLocked(g, f, except, floor);
      ghost var s := State();
      var k := 0;
      while k < |gone|
        invariant k <= |gone| && Valid() && State() == DisconnectEach(s, gone[..k])
      {
        Disconnect(gone[k]);
        assert gone[..k + 1][..k] == gone[..k];
        k := k + 1;
      }
      assert gone[..k] == gone;
    }

    method FanoutLocked(g: Group, f: Frame, except: ConnectionId, floor: u16)
      returns (gone: seq<ConnectionId>, outcomes: seq<(ConnectionId, Delivery)>)
      requires Valid() && g in groups
      modifies this
      ensures Fanout(old(State()), g, f, except, floor) == Fan(State(), outcomes, gone)
      ensures Valid()
    {
      hide TurnOf, FanoutTo;
      ghost var s := State();
      FanoutStarts(s, g, f, except, floor);
      gone, outcomes := [], [];
      var i, n := 0, |groups[g]|;
      while i < n
        invariant i <= n == |s.groups[g]| && Valid() && g in groups && |groups[g]| == n
        invariant FanoutTo(s, g, i, f, except, floor) == Fan(State(), outcomes, gone)
      {
        var id := groups[g][i].id;
        HubRegistry.FanoutUnfolds(s, g, i, f, except, floor);
        var delivery := Turn(g, i, f, except, floor);
        if delivery.Some? {
          outcomes := outcomes + [(id, delivery.value)];
          if delivery.value == Gone { gone := gone + [id]; }
        }
        i := i + 1;
      }
    }

    // ----------------------------------------------------------------- release

    method ReleaseHandshakes(g: Group, id: ConnectionId, replayedTo: u64)
      requires Valid()
      modifies this
      ensures var s := old(State());
              var stopped := Holds(s, g, id) && Entry(s, g, id).held.Some?
                             && DrainAll(ChannelOf(s, id), g, id, Entry(s, g, id).held.value, replayedTo).stopped;
              State() == if stopped then HubState.Disconnect(Release(s, g, id, replayedTo), id)
                  else Release(s, g, id, replayedTo)
      ensures Valid()
    {
      hide DropSubscriptions, DropIdentity, Answer;
      if g !in groups || !Has(groups[g], id) { return; }
      var i := IndexOf(groups[g], id);
      var sub := groups[g][i];
      if sub.held.None? { return; }
      var held := sub.held.value;
      ghost var s := State();
      groups := groups[g := groups[g][i := sub.(held := None)]];
      var next, k, stopped := replayedTo, 0, false;
      ghost var events: seq<Event> := [];
      while k < |held| && !stopped
        invariant k <= |held| && id in channels
        invariant State() == s.(groups := groups, channels := s.channels[id := channels[id]])
        invariant groups == s.groups[g := s.groups[g][i := sub.(held := None)]]
        invariant DrainAll(s.channels[id], g, id, held[..k], replayedTo) == Drain(channels[id], next, stopped, events)
      {
        var f := held[k];
        assert held[..k + 1][..k] == held[..k];
        if f.Handshake? && f.seqNo >= next {
          next := SaturatingNext(f.seqNo);
          var answer := TryQueue(id, f);
          if answer.Sent? {
            events := events + [Released(g, id, f)];
          } else {
            EvictSender(id);
            stopped := true;
            events := events + [Ended(g, id, f)];
          }
        }
        k := k + 1;
      }
      DrainStops(s.channels[id], g, id, held, k, replayedTo);
      log := log + events;
      if stopped { Disconnect(id); }
    }

    // --------------------------------------------------------- leaving and eviction

    method Disconnect(id: ConnectionId)
      requires Valid()
      modifies this
      ensures Valid() && State() == HubState.Disconnect(old(State()), id)
      ensures channels == old(channels)
    {
      ForgetSubscriptions(id);
      ForgetIdentity(id);
    }

    method ForgetSubscriptions(id: ConnectionId)
      requires Valid()
      modifies this`groups, this`log
      ensures Valid() && State() == DropSubscriptions(old(State()), id)
    {
      var kept: map<Group, seq<Subscriber>> := map[];
      var todo := groups.Keys;
      while todo != {}
        invariant todo <= groups.Keys
        invariant kept.Keys == set g | g in groups && g !in todo && Without(groups[g], id) != []
        invariant forall g | g in kept :: kept[g] == Without(groups[g], id)
      {
        var g :| g in todo;
        var subs := Without(groups[g], id);
        if subs != [] { kept := kept[g := subs]; }
        todo := todo - {g};
      }
      forall g, i | g in kept && 0 <= i < |kept[g]| ensures kept[g][i].id in channels {
        HubRegistry.WithoutKeeps(groups[g], id);
        assert kept[g][i] in groups[g];
      }
      assert kept == DropSubscriptions(State(), id).groups;
      groups := kept;
      log := log + [Dropped(id)];
    }

    method ForgetIdentity(id: ConnectionId)
      requires Valid()
      modifies this`principals
      ensures Valid() && State() == DropIdentity(old(State()), id)
    {
      var kept: map<EntryHash, seq<ConnectionId>> := map[];
      var todo := principals.Keys;
      while todo != {}
        invariant todo <= principals.Keys
        invariant kept.Keys == set e | e in principals && e !in todo && WithoutId(principals[e], id) != []
        invariant forall e | e in kept :: kept[e] == WithoutId(principals[e], id)
      {
        var e :| e in todo;
        var ids := WithoutId(principals[e], id);
        if ids != [] { kept := kept[e := ids]; }
        todo := todo - {e};
      }
      forall e, i | e in kept && 0 <= i < |kept[e]| ensures kept[e][i] in channels {
        HubRegistry.WithoutIdKeeps(principals[e], id);
        assert kept[e][i] in principals[e];
      }
      assert kept == DropIdentity(State(), id).principals;
      principals := kept;
    }

    method CloseSender(id: ConnectionId)
      requires id in channels
      modifies this`channels, this`log
      ensures State() == Revoke(old(State()), id)
    {
      EvictSender(id);
      var c := channels[id];
      if !c.closed && |c.Waiting()| < SEND_QUEUE_BOUND {
        channels := channels[id := Accept(c, Close)];
        log := log + [Own(id, Close)];
      }
    }

    method Evict(entry: EntryHash) returns (count: nat)
      requires Valid()
      modifies this
      ensures Valid() && State() == HubState.Evict(old(State()), entry)
      ensures count == if entry in old(principals) then |old(principals)[entry]| else 0
    {
      hide DropSubscriptions, DropIdentity, HasSlot;
      var taken := if entry in principals then principals[entry] else [];
      assert forall i | 0 <= i < |taken| :: taken[i] in channels;
      principals := principals - {entry};
      ghost var s := State();
      count := |taken|;
      var k := 0;
      while k < |taken|
        invariant k <= |taken| && Valid() && State() == EndEach(s, taken[..k])
        invariant forall i | 0 <= i < |taken| :: taken[i] in channels
      {
        CloseSender(taken[k]);
        Disconnect(taken[k]);
        assert taken[..k + 1][..k] == taken[..k];
        k := k + 1;
      }
      assert taken[..k] == taken;
    }

    // -------------------------------------------------------------- settlement

    method SettleDowngrades() returns (sent: nat, ghost order: seq<Group>)
      requires Valid()
      modifies this
      ensures Valid() && State() == Settle(old(State()), order)
      ensures HubRegistry.EachOnce(order, old(groups).Keys)
      ensures sent == HubSettle.AllDebts(old(State()), order) - HubSettle.AllDebts(State(), order)
    {
      hide Settle, SettleTo, HubRegistry.EachOnce;
      sent, order := 0, [];
      ghost var s := State();
      var todo := groups.Keys;
      HubRegistry.NoneYet<Group>();
      assert s.groups.Keys - todo == {};
      SettleNone(s);
      while todo != {}
        invariant todo <= groups.Keys == s.groups.Keys && Valid()
        invariant State() == Settle(s, order) && HubRegistry.EachOnce(order, s.groups.Keys - todo)
        invariant sent == |log| - |s.log|
      {
        var g :| g in todo;
        var paid := SettleGroup(g);
        sent := sent + paid;
        SettleMore(s, order, g);
        ghost var done := s.groups.Keys - todo;
        HubRegistry.OnceMore(order, done, g);
        order := order + [g];
        todo := todo - {g};
        assert s.groups.Keys - todo == done + {g};
      }
      assert s.groups.Keys - todo == s.groups.Keys;
      OrderIsDistinct(order, s.groups.Keys);
      HubSettle.SettleCounts(s, order);
    }

    method SettleGroup(g: Group) returns (sent: nat)
      requires Valid() && g in groups
      modifies this
      ensures Valid() && State() == SettleTo(old(State()), g, |old(groups)[g]|)
      ensures sent == |log| - |old(log)|
    {
      hide Answer, SettleAt, SettleTo;
      ghost var s := State();
      HubRegistry.SettleZero(s, g);
      sent := 0;
      var i, n := 0, |groups[g]|;
      while i < n
        invariant i <= n == |s.groups[g]| && Valid() && groups.Keys == s.groups.Keys && |groups[g]| == n
        invariant State() == SettleTo(s, g, i) && sent == |log| - |s.log|
      {
        HubRegistry.SettleUnfolds(s, g, i);
        var paid := SettleOne(g, i);
        if paid { sent := sent + 1; }
        i := i + 1;
      }
    }

    /** One subscriber's turn in that loop. */
    method SettleOne(g: Group, i: nat) returns (paid: bool)
      requires Valid() && g in groups && i < |groups[g]|
      modifies this
      ensures Valid() && State() == SettleAt(old(State()), g, i)
      ensures |log| == |old(log)| + if paid then 1 else 0
    {
      hide Answer;
      var sub := groups[g][i];
      PutBack(State(), g, i);
      paid := false;
      if sub.owed {
        var answer := TryQueue(sub.id, Notice(g));
        if answer.Sent? {
          groups := groups[g := groups[g][i := sub.(owed := false)]];
          log := log + [Noticed(g, sub.id)];
          paid := true;
        }
      }
    }
  }
}
