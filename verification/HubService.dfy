/**
 * What one call of fanout, release and settlement does to every subscriber, from the state before to the state after.
 */
module HubService {
  import opened Octets
  import opened Frames
  import opened HubState
  import opened HubRoom
  import opened HubDrain
  import opened HubRegistry
  import opened HubOrder

  // -------------------------------------------------------------------- one turn

  /** What is left of a subscriber after a fanout: its entry, its queue, what is reported of it, and a new debt. */
  datatype Service = Service(sub: Subscriber, channel: Channel, outcome: Option<Delivery>, newDebt: bool)

  /**
   * The frame behind whatever was queued first: it is queued if there is room. If not, a closed channel goes, an
   * ephemeral frame is shed, a handshake ends the connection, and anything else becomes a debt.
   */
  function Offered(f: Frame, sub: Subscriber, c: Channel): Service {
    if Room(c, f) then Service(sub, Queue(c, [Data(f)]), Some(Delivery.Sent), false)
    else if Unread(c, f) then Service(sub, c, Some(Gone), false)
    else if f.Live? || f.Call? then Service(sub, c, Some(Shed), false)
    else if f.Handshake? then Service(sub, c.(evicted := true), Some(Gone), false)
    else Service(sub.(owed := true), c, Some(Downgraded), true)
  }

  function Serve(g: Group, f: Frame, except: ConnectionId, floor: u16, sub: Subscriber, c: Channel): Service {
    var notice := SubAck(g, 0);
    if sub.id == except then Service(sub, c, None, false)
    else if sub.version < floor then Service(sub, c, Some(NotSpoken), false)
    else if f.Handshake? && sub.held.Some? then
      if |sub.held.value| < 256 then Service(sub.(held := Some(sub.held.value + [f])), c, Some(Delivery.Sent), false)
      else Service(sub, c.(evicted := true), Some(Gone), false)
    else if !sub.owed then Offered(f, sub, c)
    else if Room(c, notice) then Offered(f, sub.(owed := false), Queue(c, [Data(notice)]))
    else if Unread(c, notice) then Service(sub, c, Some(Gone), false)
    else if f.Handshake? then Service(sub, c.(evicted := true), Some(Gone), false)
    else Service(sub, c, Some(Downgraded), false)
  }

  lemma ForwardOffers(g: Group, f: Frame, sub: Subscriber, c: Channel)
    ensures var t, v := Forward(g, f, sub, c), Offered(f, sub, c);
            && t.sub == v.sub && t.channel == v.channel && t.delivery == v.outcome && t.Owed(g) == v.newDebt
  {
    hide Answer, TryQueue, Room, Unread;
    TryQueueMeans(c, f);
  }

  lemma TurnServes(g: Group, f: Frame, except: ConnectionId, floor: u16, sub: Subscriber, c: Channel)
    ensures var t, v := Deliver(g, f, except, floor, sub, c), Serve(g, f, except, floor, sub, c);
            && t.sub == v.sub && t.channel == v.channel && t.delivery == v.outcome && t.Owed(g) == v.newDebt
  {
    hide Answer, TryQueue, Room, Unread, Forward, Offered;
    TryQueueMeans(c, Notice(g));
    ForwardOffers(g, f, sub, c);
    ForwardOffers(g, f, sub.(owed := false), Queue(c, [Data(Notice(g))]));
  }

  function ServeAt(s: Hub, g: Group, i: nat, f: Frame, except: ConnectionId, floor: u16): Service
    requires g in s.groups && i < |s.groups[g]|
  {
    Serve(g, f, except, floor, s.groups[g][i], ChannelOf(s, s.groups[g][i].id))
  }

  // -------------------------------------------------------------------- a fanout

  /** What is reported of the first `n` subscribers, in the order they registered. */
  function Told(s: Hub, g: Group, n: nat, f: Frame, except: ConnectionId, floor: u16): seq<(ConnectionId, Delivery)>
    requires g in s.groups && n <= |s.groups[g]|
  {
    if n == 0 then [] else
      var outcome := ServeAt(s, g, n - 1, f, except, floor).outcome;
      Told(s, g, n - 1, f, except, floor) + if outcome.Some? then [(s.groups[g][n - 1].id, outcome.value)] else []
  }

  function NewDebts(s: Hub, g: Group, n: nat, f: Frame, except: ConnectionId, floor: u16): nat
    requires g in s.groups && n <= |s.groups[g]|
  {
    if n == 0 then 0 else
      NewDebts(s, g, n - 1, f, except, floor) + if ServeAt(s, g, n - 1, f, except, floor).newDebt then 1 else 0
  }

  /** Those reported with one outcome. */
  function With(told: seq<(ConnectionId, Delivery)>, d: Delivery): seq<ConnectionId> {
    if |told| == 0 then [] else
      With(told[..|told| - 1], d) + if told[|told| - 1].1 == d then [told[|told| - 1].0] else []
  }

  lemma WithOne(told: seq<(ConnectionId, Delivery)>, x: (ConnectionId, Delivery), d: Delivery)
    ensures With(told + [x], d) == With(told, d) + if x.1 == d then [x.0] else []
  {
    assert (told + [x])[..|told|] == told;
  }

  /** What a fanout over the first `n` reports and counts. */
  ghost predicate Reported(s: Hub, g: Group, n: nat, f: Frame, except: ConnectionId, floor: u16, fan: Fan)
    requires g in s.groups && n <= |s.groups[g]|
  {
    var told := Told(s, g, n, f, except, floor);
    && fan.outcomes == told && fan.gone == With(told, Gone)
    && fan.hub.shed == (s.shed + |With(told, Shed)|) % TWO_TO_64
    && fan.hub.downgrades == (s.downgrades + NewDebts(s, g, n, f, except, floor)) % TWO_TO_64
  }

  lemma CountOne(was: u64, n: nat, moved: bool)
    ensures Count((was + n) % TWO_TO_64, moved) == (was + n + if moved then 1 else 0) % TWO_TO_64
  {
  }

  lemma TurnReports(fan: Fan, g: Group, i: nat, t: Turn)
    requires g in fan.hub.groups && i < |fan.hub.groups[g]|
    ensures var r, id := TakeTurn(fan, g, i, t), fan.hub.groups[g][i].id;
            && r.outcomes == fan.outcomes + (if t.delivery.Some? then [(id, t.delivery.value)] else [])
            && r.gone == fan.gone + (if t.delivery == Some(Gone) then [id] else [])
            && r.hub.shed == Count(fan.hub.shed, t.delivery == Some(Shed))
            && r.hub.downgrades == Count(fan.hub.downgrades, t.Owed(g))
  {
    hide Count;
    assert fan.outcomes + [] == fan.outcomes && fan.gone + [] == fan.gone;
  }

  lemma ReportOne(s: Hub, g: Group, n: nat, f: Frame, except: ConnectionId, floor: u16, fan: Fan, t: Turn)
    requires g in s.groups && n < |s.groups[g]| && Reported(s, g, n, f, except, floor, fan)
    requires g in fan.hub.groups && n < |fan.hub.groups[g]| && fan.hub.groups[g][n].id == s.groups[g][n].id
    requires var v := ServeAt(s, g, n, f, except, floor); t.delivery == v.outcome && t.Owed(g) == v.newDebt
    ensures Reported(s, g, n + 1, f, except, floor, TakeTurn(fan, g, n, t))
  {
    hide Serve, With, TakeTurn, Count;
    var told, id := Told(s, g, n, f, except, floor), s.groups[g][n].id;
    TurnReports(fan, g, n, t);
    if t.delivery.Some? {
      WithOne(told, (id, t.delivery.value), Gone);
      WithOne(told, (id, t.delivery.value), Shed);
    } else {
      assert told + [] == told;
    }
    CountOne(s.shed, |With(told, Shed)|, t.delivery == Some(Shed));
    CountOne(s.downgrades, NewDebts(s, g, n, f, except, floor), t.Owed(g));
  }

  lemma NothingReported(s: Hub, g: Group, f: Frame, except: ConnectionId, floor: u16)
    requires g in s.groups
    ensures Reported(s, g, 0, f, except, floor, FanoutTo(s, g, 0, f, except, floor))
  {
  }

  lemma {:induction false} FanoutReports(s: Hub, g: Group, n: nat, f: Frame, except: ConnectionId, floor: u16)
    requires g in s.groups && OnePerId(s.groups[g]) && n <= |s.groups[g]|
    ensures Reported(s, g, n, f, except, floor, FanoutTo(s, g, n, f, except, floor))
  {
    hide Reported, TakeTurn, FanoutTo, Deliver, Serve, ChannelOf;
    if n == 0 {
      NothingReported(s, g, f, except, floor);
    } else {
      FanoutReports(s, g, n - 1, f, except, floor);
      var fan := FanoutTo(s, g, n - 1, f, except, floor);
      FanoutUnfolds(s, g, n - 1, f, except, floor);
      FanoutKeepsIds(s, g, n - 1, f, except, floor);
      TurnAt(s, g, n - 1, n - 1, f, except, floor);
      TurnServes(g, f, except, floor, s.groups[g][n - 1], ChannelOf(s, s.groups[g][n - 1].id));
      ReportOne(s, g, n - 1, f, except, floor, fan, TurnOf(fan.hub, g, n - 1, f, except, floor));
    }
  }

  /**
   * One fanout, from the state before to the state after: every subscriber is served on the entry and the queue it had,
   * nobody else's entry or queue moves, and what is reported and counted is what each was served, in their order.
   */
  lemma FanoutServes(s: Hub, g: Group, f: Frame, except: ConnectionId, floor: u16)
    requires Registry(s)
    ensures var fan := Fanout(s, g, f, except, floor);
            if g !in s.groups then fan == Fan(s, [], []) else
              && Reported(s, g, |s.groups[g]|, f, except, floor, fan)
              && fan.hub.groups.Keys == s.groups.Keys && fan.hub.principals == s.principals
              && |fan.hub.groups[g]| == |s.groups[g]|
              && (forall i | 0 <= i < |s.groups[g]| ::
                    var v := ServeAt(s, g, i, f, except, floor);
                    fan.hub.groups[g][i] == v.sub && ChannelOf(fan.hub, s.groups[g][i].id) == v.channel)
              && (forall h | h in s.groups && h != g :: fan.hub.groups[h] == s.groups[h])
              && (forall x: ConnectionId :: !Has(s.groups[g], x) ==> ChannelOf(fan.hub, x) == ChannelOf(s, x))
  {
    hide Reported, FanoutTo, Deliver, Serve, ChannelOf;
    if g in s.groups {
      var n := |s.groups[g]|;
      FanoutReports(s, g, n, f, except, floor);
      forall i | 0 <= i < n
        ensures var v := ServeAt(s, g, i, f, except, floor);
                var r := FanoutTo(s, g, n, f, except, floor).hub;
                r.groups[g][i] == v.sub && ChannelOf(r, s.groups[g][i].id) == v.channel
      {
        TurnAt(s, g, n, i, f, except, floor);
        TurnServes(g, f, except, floor, s.groups[g][i], ChannelOf(s, s.groups[g][i].id));
      }
      forall x: ConnectionId | !Has(s.groups[g], x)
        ensures ChannelOf(FanoutTo(s, g, n, f, except, floor).hub, x) == ChannelOf(s, x)
      {
        Bystander(s, g, n, x, f, except, floor);
      }
    }
  }

  /**
   * A live frame or a call's is queued for everyone it is for, behind the notice owed, exactly if there is room for
   * both. It never becomes a debt. It is reported shed exactly if what is in the way is room and not the reader.
   */
  lemma EphemeralsAreTried(s: Hub, g: Group, f: Frame, except: ConnectionId, floor: u16, id: ConnectionId)
    requires Registry(s) && Holds(s, g, id) && (f.Live? || f.Call?)
    requires id != except && floor <= Entry(s, g, id).version
    ensures var fan := Fanout(s, g, f, except, floor);
            var was, c, d := Entry(s, g, id), ChannelOf(s, id), ChannelOf(fan.hub, id);
            var b := if was.owed && Room(c, SubAck(g, 0)) then Queue(c, [Data(SubAck(g, 0))]) else c;
            var paid := was.owed ==> Room(c, SubAck(g, 0));
            && Holds(fan.hub, g, id) && Entry(fan.hub, g, id) == was.(owed := !paid)
            && d == (if paid && Room(b, f) then Queue(b, [Data(f)]) else b)
            && ((id, Shed) in fan.outcomes <==> paid && !Room(b, f) && !Unread(b, f))
            && ((id, Delivery.Sent) in fan.outcomes <==> paid && Room(b, f))
            && ((id, Gone) in fan.outcomes <==> if paid then Unread(b, f) else Unread(c, SubAck(g, 0)))
            && ((id, Downgraded) in fan.outcomes <==> !paid && !Unread(c, SubAck(g, 0)))
  {
    var was, c := Entry(s, g, id), ChannelOf(s, id);
    var v := Serve(g, f, except, floor, was, c);
    hide Room, Unread;
    assert f.Live? || f.Call? ==> !f.Handshake?;
    SubscriberServed(s, g, f, except, floor, id);
    hide Fanout, Deliver, ChannelOf;
  }

  lemma SubscriberServed(s: Hub, g: Group, f: Frame, except: ConnectionId, floor: u16, id: ConnectionId)
    requires Registry(s) && Holds(s, g, id)
    ensures var fan, v := Fanout(s, g, f, except, floor), Serve(g, f, except, floor, Entry(s, g, id), ChannelOf(s, id));
            && Holds(fan.hub, g, id) && Entry(fan.hub, g, id) == v.sub && ChannelOf(fan.hub, id) == v.channel
            && forall d: Delivery :: (id, d) in fan.outcomes <==> v.outcome == Some(d)
  {
    hide FanoutTo, Deliver, Serve, ChannelOf, Told, With, NewDebts;
    var i, n := IndexOf(s.groups[g], id), |s.groups[g]|;
    FanoutTurn(s, g, f, except, floor, id);
    TurnServes(g, f, except, floor, Entry(s, g, id), ChannelOf(s, id));
    FanoutReports(s, g, n, f, except, floor);
    forall d: Delivery
      ensures (id, d) in Told(s, g, n, f, except, floor) <==> ServeAt(s, g, i, f, except, floor).outcome == Some(d)
    {
      ToldOf(s, g, n, i, f, except, floor, d);
    }
  }

  lemma {:induction false} ToldOf(s: Hub, g: Group, n: nat, i: nat, f: Frame, except: ConnectionId, floor: u16,
      d: Delivery)
    requires g in s.groups && OnePerId(s.groups[g]) && n <= |s.groups[g]| && i < |s.groups[g]|
    ensures (s.groups[g][i].id, d) in Told(s, g, n, f, except, floor)
            <==> i < n && ServeAt(s, g, i, f, except, floor).outcome == Some(d)
  {
    hide Serve;
    if n > 0 { ToldOf(s, g, n - 1, i, f, except, floor, d); }
  }

  // -------------------------------------------------------------------- a release

  /**
   * One release, from the state before to the state after: the hold ends, the frames it kept are queued as they were
   * held for as long as they fit, and nobody else's entry or queue moves. Without a hold nothing happens.
   */
  lemma ReleaseServes(s: Hub, g: Group, id: ConnectionId, to: u64)
    requires Registry(s)
    ensures var r := Release(s, g, id, to);
            if !Holds(s, g, id) || Entry(s, g, id).held.None? then r == s else
              var held := Entry(s, g, id).held.value;
              && Holds(r, g, id) && Entry(r, g, id) == Entry(s, g, id).(held := None)
              && (exists d :: Drained(ChannelOf(s, id), g, id, held, to, d)
                              && ChannelOf(r, id) == d.channel && r.log == s.log + d.events)
              && (forall h, x | (h != g || x != id) && Holds(s, h, x) ::
                    Holds(r, h, x) && Entry(r, h, x) == Entry(s, h, x))
              && (forall x: ConnectionId | x != id :: ChannelOf(r, x) == ChannelOf(s, x))
              && r == s.(groups := r.groups, channels := r.channels, log := r.log)
  {
    if Holds(s, g, id) && Entry(s, g, id).held.Some? {
      hide DrainAll, Drained, Registry;
      var held := Entry(s, g, id).held.value;
      DrainDelivers(ChannelOf(s, id), g, id, held, to);
      ReleaseEntries(s, g, id, to, g, id);
      var r := Release(s, g, id, to);
      forall h, x | (h != g || x != id) && Holds(s, h, x) ensures Holds(r, h, x) && Entry(r, h, x) == Entry(s, h, x) {
        ReleaseEntries(s, g, id, to, h, x);
      }
    }
  }

  // ------------------------------------------------------------ a connection's own task

  /** What a session, a ping and a revocation do to a queue. */
  lemma TasksServe(s: Hub, id: ConnectionId, f: Frame)
    ensures var c := ChannelOf(s, id);
            var slot := !c.closed && |c.Waiting()| < 256;
            && ChannelOf(Next(s, Wrote(id, f)), id) == (if Room(c, f) then Queue(c, [Data(f)]) else c)
            && ChannelOf(Next(s, Pinged(id)), id) == (if slot then Queue(c, [Ping]) else c)
            && ChannelOf(Next(s, Revoked(id)), id) == Queue(c.(evicted := true), if slot then [Close] else [])
  {
    hide Answer, Room;
    TryQueueMeans(ChannelOf(s, id), f);
  }

  /** The writer takes from the front. */
  lemma WriterTakesTheFirst(s: Hub, id: ConnectionId)
    requires ChannelOf(s, id).taken < |ChannelOf(s, id).accepted|
    ensures var c, d := ChannelOf(s, id), ChannelOf(Next(s, Took(id)), id);
            d == c.(taken := d.taken) && d.Waiting() == c.Waiting()[1..]
  {
  }

  /** And none of them touches another queue. */
  lemma TasksLeaveOthers(s: Hub, step: Step, x: ConnectionId)
    requires step.Wrote? || step.Pinged? || step.Revoked? || step.Took?
    ensures x != step.id ==> ChannelOf(Next(s, step), x) == ChannelOf(s, x)
    ensures Next(s, step) == s.(channels := Next(s, step).channels, log := Next(s, step).log)
  {
    hide Answer, HasSlot, Take;
  }
}
