/** Every queue stays within its slots and its bytes in every run, and settlement pays in every run. */
module HubBounds {
  import opened Octets
  import opened Frames
  import opened HubState
  import opened HubRoom
  import opened HubDrain
  import opened HubRegistry
  import opened HubOrder
  import opened HubLoss
  import opened HubService
  import opened HubSettle

  predicate Bounded(c: Channel) {
    c.taken <= |c.accepted| && |c.Waiting()| <= QUEUE_SLOTS && Costs(c.Waiting()) <= QUEUE_BYTES
  }

  ghost predicate AllBounded(s: Hub) { forall x: ConnectionId :: Bounded(ChannelOf(s, x)) }

  lemma CostsOne(items: seq<Outbound>, item: Outbound)
    ensures Costs(items + [item]) == Costs(items) + if item.Data? then Cost(item.frame) else 0
  {
    assert (items + [item])[..|items|] == items;
  }

  lemma QueuedIsBounded(c: Channel, f: Frame)
    requires Bounded(c) && Room(c, f)
    ensures Bounded(Queue(c, [Data(f)]))
  {
    WaitingGrows(c, [Data(f)]);
    CostsOne(c.Waiting(), Data(f));
  }

  lemma SlotIsBounded(c: Channel, item: Outbound)
    requires Bounded(c) && !item.Data? && |c.Waiting()| < QUEUE_SLOTS
    ensures Bounded(Queue(c, [item]))
  {
    WaitingGrows(c, [item]);
    CostsOne(c.Waiting(), item);
  }

  lemma FlagsAreFree(c: Channel, d: Channel)
    requires Bounded(c) && d.accepted == c.accepted && d.taken == c.taken
    ensures Bounded(d)
  {
    assert d.Waiting() == c.Waiting();
  }

  lemma {:induction false} CostsFall(items: seq<Outbound>)
    requires |items| > 0
    ensures Costs(items[1..]) <= Costs(items)
  {
    PermitsAreCosts(items);
    PermitsAreCosts(items[1..]);
  }

  lemma TakenIsBounded(c: Channel)
    requires Bounded(c)
    ensures Bounded(Take(c)) && Take(c).Waiting() == if |c.Waiting()| > 0 then c.Waiting()[1..] else []
  {
    if c.taken < |c.accepted| {
      assert Take(c).Waiting() == c.Waiting()[1..];
      CostsFall(c.Waiting());
    }
  }

  lemma OfferedIsBounded(f: Frame, sub: Subscriber, c: Channel)
    requires Bounded(c)
    ensures Bounded(Offered(f, sub, c).channel)
  {
    if Room(c, f) { QueuedIsBounded(c, f); }
    hide Room, Unread, Costs;
    FlagsAreFree(c, c.(evicted := true));
  }

  lemma ServedIsBounded(g: Group, f: Frame, except: ConnectionId, floor: u16, sub: Subscriber, c: Channel)
    requires Bounded(c)
    ensures Bounded(Serve(g, f, except, floor, sub, c).channel)
  {
    hide Room, Unread, Offered, Bounded;
    FlagsAreFree(c, c.(evicted := true));
    OfferedIsBounded(f, sub, c);
    if Room(c, SubAck(g, 0)) {
      QueuedIsBounded(c, SubAck(g, 0));
      OfferedIsBounded(f, sub.(owed := false), Queue(c, [Data(SubAck(g, 0))]));
    }
  }

  lemma FanoutIsBounded(s: Hub, g: Group, f: Frame, except: ConnectionId, floor: u16)
    requires Registry(s) && AllBounded(s)
    ensures AllBounded(Fanout(s, g, f, except, floor).hub)
  {
    hide Fanout, Bounded, Serve, Reported, ChannelOf;
    FanoutServes(s, g, f, except, floor);
    var r := Fanout(s, g, f, except, floor).hub;
    forall x: ConnectionId ensures Bounded(ChannelOf(r, x)) {
      if g in s.groups && Has(s.groups[g], x) {
        var i := IndexOf(s.groups[g], x);
        ServedIsBounded(g, f, except, floor, s.groups[g][i], ChannelOf(s, x));
      }
    }
  }

  lemma FitFront(c: Channel, frames: seq<Frame>)
    requires |frames| > 0 && AllFit(c, frames)
    ensures var front := frames[..|frames| - 1];
            AllFit(c, front) && Room(Queue(c, Items(front)), frames[|frames| - 1])
  {
    hide Items, Room;
    var front := frames[..|frames| - 1];
    forall k | 0 <= k < |front| ensures Room(Queue(c, Items(front[..k])), front[k]) {
      assert front[..k] == frames[..k] && front[k] == frames[k];
    }
  }

  lemma QueueGrows(c: Channel, frames: seq<Frame>)
    requires |frames| > 0
    ensures Queue(Queue(c, Items(frames[..|frames| - 1])), [Data(frames[|frames| - 1])]) == Queue(c, Items(frames))
  {
    var front, f := frames[..|frames| - 1], frames[|frames| - 1];
    assert c.accepted + Items(front) + [Data(f)] == c.accepted + Items(frames);
  }

  lemma {:induction false} FitIsBounded(c: Channel, frames: seq<Frame>)
    requires Bounded(c) && AllFit(c, frames)
    ensures Bounded(Queue(c, Items(frames)))
  {
    if |frames| == 0 {
      hide Bounded, AllFit;
      FlagsAreFree(c, Queue(c, Items(frames)));
    } else {
      var front, f := frames[..|frames| - 1], frames[|frames| - 1];
      FitFront(c, frames);
      hide Bounded, Room, AllFit, Items, Queue;
      FitIsBounded(c, front);
      QueuedIsBounded(Queue(c, Items(front)), f);
      QueueGrows(c, frames);
    }
  }

  lemma DrainIsBounded(c: Channel, g: Group, id: ConnectionId, held: seq<Frame>, to: u64)
    requires Bounded(c)
    ensures Bounded(DrainAll(c, g, id, held, to).channel)
  {
    hide Bounded, DrainAll, AllFit, Kept, Items, ReleasedAll, Room;
    DrainDelivers(c, g, id, held, to);
    var d, kept := DrainAll(c, g, id, held, to), Kept(held, to);
    if d.stopped {
      var k :| 0 <= k < |kept| && FirstRefused(c, kept, k) && d.channel == Queue(c, Items(kept[..k])).(evicted := true)
               && d.events == ReleasedAll(g, id, kept[..k]) + [Ended(g, id, kept[k])];
      FitIsBounded(c, kept[..k]);
      FlagsAreFree(Queue(c, Items(kept[..k])), d.channel);
    } else {
      FitIsBounded(c, kept);
    }
  }

  lemma {:induction false} SettleIsBounded(s: Hub, order: seq<Group>)
    requires Registry(s) && AllBounded(s)
    ensures AllBounded(Settle(s, order))
  {
    if |order| > 0 {
      SettleIsBounded(s, order[..|order| - 1]);
      hide Settle, Bounded, Room, ChannelOf, OwedIn;
      var q, r := Settle(s, order[..|order| - 1]), Settle(s, order);
      forall x: ConnectionId ensures Bounded(ChannelOf(r, x)) {
        GroupOf(s, order, x);
        if Room(ChannelOf(q, x), SubAck(order[|order| - 1], 0)) {
          QueuedIsBounded(ChannelOf(q, x), SubAck(order[|order| - 1], 0));
        }
      }
    }
  }

  lemma OneIsBounded(s: Hub, r: Hub, id: ConnectionId)
    requires AllBounded(s) && Bounded(ChannelOf(r, id))
    requires forall x: ConnectionId | x != id :: ChannelOf(r, x) == ChannelOf(s, x)
    ensures AllBounded(r)
  {
    hide Bounded;
  }

  lemma OfferIsBounded(s: Hub, id: ConnectionId, c: Channel, item: Outbound, room: bool)
    requires AllBounded(s) && Bounded(c)
    requires room ==> if item.Data? then Room(c, item.frame) else |c.Waiting()| < QUEUE_SLOTS
    ensures AllBounded(Offer(s, id, c, item, room))
  {
    if room { if item.Data? { QueuedIsBounded(c, item.frame); } else { SlotIsBounded(c, item); } }
    hide Bounded, Room;
    OneIsBounded(s, Offer(s, id, c, item, room), id);
  }

  lemma StepIsBounded(s: Hub, step: Step)
    requires Registry(s) && AllBounded(s)
    ensures AllBounded(Next(s, step))
  {
    hide Fanout, Settle, Bounded, Answer, Offer, DrainAll, Registry;
    var r := Next(s, step);
    match step
    case FannedOut(g, f, except, floor) => FanoutIsBounded(s, g, f, except, floor);
    case SettledDebts(order) => SettleIsBounded(s, order);
    case ReleasedHold(g, id, to) =>
      if r != s {
        DrainIsBounded(ChannelOf(s, id), g, id, Entry(s, g, id).held.value, to);
        OneIsBounded(s, r, id);
      }
    case Wrote(id, f) =>
      TryQueueMeans(ChannelOf(s, id), f);
      OfferIsBounded(s, id, ChannelOf(s, id), Data(f), Answer(ChannelOf(s, id), f).Sent?);
    case Pinged(id) => OfferIsBounded(s, id, ChannelOf(s, id), Ping, HasSlot(ChannelOf(s, id)));
    case Revoked(id) =>
      var c := ChannelOf(s, id);
      FlagsAreFree(c, c.(evicted := true));
      OfferIsBounded(s, id, c.(evicted := true), Close, HasSlot(c));
    case Took(id) => TakenIsBounded(ChannelOf(s, id)); OneIsBounded(s, r, id);
    case Reserved(id, n) => FlagsAreFree(ChannelOf(s, id), ChannelOf(s, id).(reserved := n)); OneIsBounded(s, r, id);
    case Shut(id) => FlagsAreFree(ChannelOf(s, id), ChannelOf(s, id).(closed := true)); OneIsBounded(s, r, id);
    case Unlisted(id) => UnlistTouchesPrincipals(s, id); SameChannels(s, r);
    case _ => SameChannels(s, r);
  }

  lemma SameChannels(s: Hub, r: Hub)
    requires AllBounded(s) && r.channels == s.channels
    ensures AllBounded(r)
  {
    hide Bounded;
    forall x: ConnectionId ensures ChannelOf(r, x) == ChannelOf(s, x) { }
  }

  /** In every run every queue holds at most 256 items and at most 8 MiB of them, however fast it is written to. */
  lemma {:induction false} QueuesAreBounded(steps: seq<Step>)
    ensures AllBounded(After(steps))
  {
    if |steps| > 0 {
      hide AllBounded, Next;
      QueuesAreBounded(steps[..|steps| - 1]);
      RegistryAlways(steps[..|steps| - 1]);
      StepIsBounded(After(steps[..|steps| - 1]), steps[|steps| - 1]);
    }
  }

  /**
   * Settlement after any run, in whatever order the groups come. A subscriber is owed a notice afterwards only if it
   * was before and its queue has no room for one even now. Every other debt is gone, its notice stands behind what
   * was queued, and nothing else of anybody's moved. The notices queued are as many as the debts that went.
   */
  lemma SettlementPays(steps: seq<Step>, order: seq<Group>, id: ConnectionId)
    requires EachOnce(order, After(steps).groups.Keys)
    ensures var s, r := After(steps), Settle(After(steps), order);
            && Settles(s, r, order, id) && OnlyClears(s, r)
            && |r.log| - |s.log| == AllDebts(s, order) - AllDebts(r, order)
  {
    hide After, Settle, Settles, OnlyClears, Registry;
    RegistryAlways(steps);
    QueuesAreBounded(steps);
    assert Bounded(ChannelOf(After(steps), id));
    assert Distinct(order);
    OrderSettles(After(steps), order, id);
    SettleOnlyClears(After(steps), order);
    SettleCounts(After(steps), order);
  }
}
