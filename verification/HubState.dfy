/**
 * The live fanout hub as a state machine. One step is one lock section, or one thing a connection's own task does to
 * its outbound channel. The log records what each step did to whom; nothing in the hub reads it.
 */
module HubState {
  import opened Octets
  import opened Frames

  const SEND_QUEUE_BOUND: nat := 256
  const SEND_QUEUE_BYTE_BUDGET: nat := 8 * 1024 * 1024
  const MAX_HELD_HANDSHAKES: nat := 256

  type ConnectionId = u64
  type Group = Blob
  type EntryHash = Blob

  // -------------------------------------------------------------- the channel

  datatype Outbound = Data(frame: Frame) | Ping | Close

  /**
   * A connection's outbound queue, kept as everything it ever accepted and how much of that the writer has taken.
   * `reserved` is what callers hold of the byte budget without having queued yet.
   */
  datatype Channel = Channel(accepted: seq<Outbound>, taken: nat, reserved: nat, closed: bool, evicted: bool) {
    function Waiting(): seq<Outbound> { if taken <= |accepted| then accepted[taken..] else [] }
  }

  const FRESH := Channel([], 0, 0, false, false)

  datatype Queued = Sent | Full | Closed

  function Permits(f: Frame): nat {
    if QueuedBytes(f) <= SEND_QUEUE_BYTE_BUDGET then QueuedBytes(f) else SEND_QUEUE_BYTE_BUDGET
  }

  function HeldPermits(items: seq<Outbound>): nat {
    if |items| == 0 then 0
    else (if items[0].Data? then Permits(items[0].frame) else 0) + HeldPermits(items[1..])
  }

  function Accept(c: Channel, item: Outbound): Channel { c.(accepted := c.accepted + [item]) }

  /** What `try_queue` answers: the byte budget is asked first, then whether anyone still reads, then for a slot. */
  function Answer(c: Channel, f: Frame): Queued {
    if HeldPermits(c.Waiting()) + c.reserved + Permits(f) > SEND_QUEUE_BYTE_BUDGET then Full
    else if c.closed then Closed
    else if |c.Waiting()| >= SEND_QUEUE_BOUND then Full
    else Queued.Sent
  }

  function TryQueue(c: Channel, f: Frame): Channel {
    if Answer(c, f).Sent? then Accept(c, Data(f)) else c
  }

  /** `close` and `try_ping` spend a slot and no budget. */
  predicate HasSlot(c: Channel) { !c.closed && |c.Waiting()| < SEND_QUEUE_BOUND }

  function Take(c: Channel): Channel { if c.taken < |c.accepted| then c.(taken := c.taken + 1) else c }

  // ----------------------------------------------------------------- the state

  datatype Subscriber = Subscriber(id: ConnectionId, version: u16, owed: bool, held: Option<seq<Frame>>)

  datatype Event =
    | Owes(group: Group, id: ConnectionId)                    // a downgrade notice became owed
    | Noticed(group: Group, id: ConnectionId)                 // an owed notice was queued
    | Forwarded(group: Group, id: ConnectionId, frame: Frame) // fanout queued the frame
    | HeldBack(group: Group, id: ConnectionId, frame: Frame)  // fanout held the handshake for the replay
    | Released(group: Group, id: ConnectionId, frame: Frame)  // a held handshake was queued
    | Missed(group: Group, id: ConnectionId, frame: Frame)    // a durable frame found no room
    | Ended(group: Group, id: ConnectionId, frame: Frame)     // a handshake found no room
    | ShutOut(group: Group, id: ConnectionId, frame: Frame)   // nobody reads the channel any more
    | Dropped(id: ConnectionId)                               // every subscription of the connection went
    | Own(id: ConnectionId, item: Outbound)                   // the connection's own task queued the item

  datatype Hub = Hub(
    groups: map<Group, seq<Subscriber>>, principals: map<EntryHash, seq<ConnectionId>>,
    channels: map<ConnectionId, Channel>, downgrades: u64, shed: u64, log: seq<Event>)

  const EMPTY := Hub(map[], map[], map[], 0, 0, [])

  function ChannelOf(s: Hub, id: ConnectionId): Channel { if id in s.channels then s.channels[id] else FRESH }

  function WithChannel(s: Hub, id: ConnectionId, c: Channel): Hub { s.(channels := s.channels[id := c]) }

  /** The connection's own task offers an item to its queue. */
  function Offer(s: Hub, id: ConnectionId, c: Channel, item: Outbound, room: bool): Hub {
    if room then WithChannel(s, id, Accept(c, item)).(log := s.log + [Own(id, item)]) else WithChannel(s, id, c)
  }

  predicate Has(subs: seq<Subscriber>, id: ConnectionId) { exists i | 0 <= i < |subs| :: subs[i].id == id }

  /** `fetch_add` on an `AtomicU64`. */
  function Count(counter: u64, moved: bool): u64 { if moved then (counter + 1) % TWO_TO_64 else counter }

  function Notice(g: Group): Frame { SubAck(g, 0) }

  // ---------------------------------------------------------------- subscribing

  function Subscribers(s: Hub, g: Group): seq<Subscriber> { if g in s.groups then s.groups[g] else [] }

  function Subscribe(s: Hub, g: Group, id: ConnectionId, version: u16, holding: bool): Hub {
    if Has(Subscribers(s, g), id) then s
    else s.(groups := s.groups[g := Subscribers(s, g)
                + [Subscriber(id, version, false, if holding then Some([]) else None)]])
  }

  function Identify(s: Hub, entry: EntryHash, id: ConnectionId): Hub {
    var connections := if entry in s.principals then s.principals[entry] else [];
    if id in connections then s else s.(principals := s.principals[entry := connections + [id]])
  }

  // --------------------------------------------------------------------- fanout

  datatype Delivery = Sent | NotSpoken | Shed | Downgraded | Gone

  predicate Ephemeral(f: Frame) { f.Live? || f.Call? }

  /** What one subscriber's turn in the fanout loop did. */
  datatype Turn = Turn(sub: Subscriber, channel: Channel, delivery: Option<Delivery>, events: seq<Event>) {
    predicate GoesAway() { delivery == Some(Gone) }
    predicate Sheds() { delivery == Some(Shed) }
    predicate Owed(g: Group) { Owes(g, sub.id) in events }
  }

  /** The subscriber owes nothing, and the frame is not one it holds back. */
  function Forward(g: Group, f: Frame, sub: Subscriber, c: Channel): Turn {
    match Answer(c, f)
    case Sent => Turn(sub, TryQueue(c, f), Some(Delivery.Sent), [Forwarded(g, sub.id, f)])
    case Full =>
      if Ephemeral(f) then Turn(sub, c, Some(Shed), [])
      else if f.Handshake? then Turn(sub, c.(evicted := true), Some(Gone), [Ended(g, sub.id, f)])
      else Turn(sub.(owed := true), c, Some(Downgraded), [Owes(g, sub.id), Missed(g, sub.id, f)])
    case Closed => Turn(sub, c, Some(Gone), [ShutOut(g, sub.id, f)])
  }

  /** The notice goes first: nothing else is tried until it is queued. */
  function Settled(g: Group, f: Frame, sub: Subscriber, c: Channel): Turn {
    match Answer(c, Notice(g))
    case Sent =>
      var t := Forward(g, f, sub.(owed := false), TryQueue(c, Notice(g)));
      t.(events := [Noticed(g, sub.id)] + t.events)
    case Full =>
      if f.Handshake? then Turn(sub, c.(evicted := true), Some(Gone), [Ended(g, sub.id, f)])
      else Turn(sub, c, Some(Downgraded), if Ephemeral(f) then [] else [Missed(g, sub.id, f)])
    case Closed => Turn(sub, c, Some(Gone), [ShutOut(g, sub.id, f)])
  }

  function Hold(g: Group, f: Frame, sub: Subscriber, c: Channel): Turn
    requires sub.held.Some?
  {
    if |sub.held.value| < MAX_HELD_HANDSHAKES
    then Turn(sub.(held := Some(sub.held.value + [f])), c, Some(Delivery.Sent), [HeldBack(g, sub.id, f)])
    else Turn(sub, c.(evicted := true), Some(Gone), [Ended(g, sub.id, f)])
  }

  function Deliver(g: Group, f: Frame, except: ConnectionId, floor: u16, sub: Subscriber, c: Channel): Turn {
    if sub.id == except then Turn(sub, c, None, [])
    else if sub.version < floor then Turn(sub, c, Some(NotSpoken), [])
    else if f.Handshake? && sub.held.Some? then Hold(g, f, sub, c)
    else if sub.owed then Settled(g, f, sub, c)
    else Forward(g, f, sub, c)
  }

  datatype Fan = Fan(hub: Hub, outcomes: seq<(ConnectionId, Delivery)>, gone: seq<ConnectionId>)

  function TakeTurn(fan: Fan, g: Group, i: nat, t: Turn): Fan
    requires g in fan.hub.groups && i < |fan.hub.groups[g]|
  {
    var s := fan.hub;
    var id := s.groups[g][i].id;
    Fan(s.(groups := s.groups[g := s.groups[g][i := t.sub]],
           channels := s.channels[id := t.channel],
           downgrades := Count(s.downgrades, t.Owed(g)),
           shed := Count(s.shed, t.Sheds()),
           log := s.log + t.events),
        if t.delivery.Some? then fan.outcomes + [(id, t.delivery.value)] else fan.outcomes,
        if t.GoesAway() then fan.gone + [id] else fan.gone)
  }

  function TurnOf(s: Hub, g: Group, i: nat, f: Frame, except: ConnectionId, floor: u16): Turn
    requires g in s.groups && i < |s.groups[g]|
  {
    Deliver(g, f, except, floor, s.groups[g][i], ChannelOf(s, s.groups[g][i].id))
  }

  /** The first `n` subscribers of the group have had their turn. */
  function FanoutTo(s: Hub, g: Group, n: nat, f: Frame, except: ConnectionId, floor: u16): (fan: Fan)
    requires g in s.groups && n <= |s.groups[g]|
    ensures fan.hub.groups.Keys == s.groups.Keys && fan.hub.principals == s.principals
    ensures |fan.hub.groups[g]| == |s.groups[g]|
    ensures forall h | h in s.groups && h != g :: fan.hub.groups[h] == s.groups[h]
  {
    if n == 0 then Fan(s, [], []) else
      var fan := FanoutTo(s, g, n - 1, f, except, floor);
      TakeTurn(fan, g, n - 1, TurnOf(fan.hub, g, n - 1, f, except, floor))
  }

  /** The lock section of `fanout_frame`; the connections in `gone` are disconnected after it. */
  function Fanout(s: Hub, g: Group, f: Frame, except: ConnectionId, floor: u16): Fan {
    if g in s.groups then FanoutTo(s, g, |s.groups[g]|, f, except, floor) else Fan(s, [], [])
  }

  // -------------------------------------------------------------------- release

  /** Draining a hold: the lowest seq still wanted, and whether a frame found no room. */
  datatype Drain = Drain(channel: Channel, next: u64, stopped: bool, events: seq<Event>)

  function SaturatingNext(n: u64): u64 { if n + 1 < TWO_TO_64 then n + 1 else n }

  function DrainOne(d: Drain, g: Group, id: ConnectionId, f: Frame): Drain {
    if d.stopped || !f.Handshake? || f.seqNo < d.next then d
    else if Answer(d.channel, f).Sent? then
      Drain(TryQueue(d.channel, f), SaturatingNext(f.seqNo), false, d.events + [Released(g, id, f)])
    else
      Drain(d.channel.(evicted := true), SaturatingNext(f.seqNo), true, d.events + [Ended(g, id, f)])
  }

  function DrainAll(c: Channel, g: Group, id: ConnectionId, held: seq<Frame>, replayedTo: u64): Drain {
    if |held| == 0 then Drain(c, replayedTo, false, [])
    else DrainOne(DrainAll(c, g, id, held[..|held| - 1], replayedTo), g, id, held[|held| - 1])
  }

  function IndexOf(subs: seq<Subscriber>, id: ConnectionId): (i: nat)
    requires Has(subs, id)
    ensures i < |subs| && subs[i].id == id && forall j | 0 <= j < i :: subs[j].id != id
  {
    if subs[0].id == id then 0 else
      assert Has(subs[1..], id) by {
        var k :| 0 <= k < |subs| && subs[k].id == id;
        assert subs[1..][k - 1].id == id;
      }
      1 + IndexOf(subs[1..], id)
  }

  predicate Holds(s: Hub, g: Group, id: ConnectionId) {
    g in s.groups && Has(s.groups[g], id)
  }

  function Entry(s: Hub, g: Group, id: ConnectionId): Subscriber
    requires Holds(s, g, id)
  {
    s.groups[g][IndexOf(s.groups[g], id)]
  }

  /** The lock section of `release_handshakes`; a stopped drain is disconnected after it. */
  function Release(s: Hub, g: Group, id: ConnectionId, replayedTo: u64): Hub {
    if !Holds(s, g, id) || Entry(s, g, id).held.None? then s else
      var i := IndexOf(s.groups[g], id);
      var sub := s.groups[g][i];
      var d := DrainAll(ChannelOf(s, id), g, id, sub.held.value, replayedTo);
      s.(groups := s.groups[g := s.groups[g][i := sub.(held := None)]],
         channels := s.channels[id := d.channel],
         log := s.log + d.events)
  }

  // --------------------------------------------------------- leaving and eviction

  function Without(subs: seq<Subscriber>, id: ConnectionId): seq<Subscriber> {
    if |subs| == 0 then []
    else if subs[0].id == id then Without(subs[1..], id)
    else [subs[0]] + Without(subs[1..], id)
  }

  function WithoutId(ids: seq<ConnectionId>, id: ConnectionId): seq<ConnectionId> {
    if |ids| == 0 then []
    else if ids[0] == id then WithoutId(ids[1..], id)
    else [ids[0]] + WithoutId(ids[1..], id)
  }

  /** The first lock section of `disconnect`: every group forgets the connection, and empty groups go. */
  function DropSubscriptions(s: Hub, id: ConnectionId): Hub {
    s.(groups := map g | g in s.groups && Without(s.groups[g], id) != [] :: Without(s.groups[g], id),
       log := s.log + [Dropped(id)])
  }

  /** The second lock section of `disconnect`. */
  function DropIdentity(s: Hub, id: ConnectionId): Hub {
    s.(principals :=
         map e | e in s.principals && WithoutId(s.principals[e], id) != [] :: WithoutId(s.principals[e], id))
  }

  function Disconnect(s: Hub, id: ConnectionId): Hub { DropIdentity(DropSubscriptions(s, id), id) }

  function TakePrincipal(s: Hub, entry: EntryHash): Hub { s.(principals := s.principals - {entry}) }

  /** `sender.evict()` and then `sender.close()`. */
  function Revoke(s: Hub, id: ConnectionId): Hub {
    Offer(s, id, ChannelOf(s, id).(evicted := true), Close, HasSlot(ChannelOf(s, id)))
  }

  function EndEach(s: Hub, ids: seq<ConnectionId>): Hub {
    if |ids| == 0 then s
    else Disconnect(Revoke(EndEach(s, ids[..|ids| - 1]), ids[|ids| - 1]), ids[|ids| - 1])
  }

  /** `evict` with nothing else running. */
  function Evict(s: Hub, entry: EntryHash): Hub {
    EndEach(TakePrincipal(s, entry), if entry in s.principals then s.principals[entry] else [])
  }

  function DisconnectEach(s: Hub, ids: seq<ConnectionId>): Hub {
    if |ids| == 0 then s else Disconnect(DisconnectEach(s, ids[..|ids| - 1]), ids[|ids| - 1])
  }

  // ------------------------------------------------------------------ settlement

  function SettleAt(s: Hub, g: Group, i: nat): (r: Hub)
    requires g in s.groups && i < |s.groups[g]|
    ensures r.groups.Keys == s.groups.Keys && r.principals == s.principals
    ensures |r.groups[g]| == |s.groups[g]| && forall h | h in s.groups && h != g :: r.groups[h] == s.groups[h]
  {
    var sub := s.groups[g][i];
    var c := ChannelOf(s, sub.id);
    if !sub.owed || !Answer(c, Notice(g)).Sent? then s
    else s.(groups := s.groups[g := s.groups[g][i := sub.(owed := false)]],
            channels := s.channels[sub.id := TryQueue(c, Notice(g))],
            log := s.log + [Noticed(g, sub.id)])
  }

  function SettleTo(s: Hub, g: Group, n: nat): (r: Hub)
    requires g in s.groups && n <= |s.groups[g]|
    ensures r.groups.Keys == s.groups.Keys && r.principals == s.principals
    ensures |r.groups[g]| == |s.groups[g]| && forall h | h in s.groups && h != g :: r.groups[h] == s.groups[h]
  {
    if n == 0 then s else SettleAt(SettleTo(s, g, n - 1), g, n - 1)
  }

  /** `settle_downgrades`, visiting the groups in the order the hash map yields them. */
  function Settle(s: Hub, order: seq<Group>): (r: Hub)
    ensures r.groups.Keys == s.groups.Keys && r.principals == s.principals
  {
    if |order| == 0 then s else
      var r := Settle(s, order[..|order| - 1]);
      var g := order[|order| - 1];
      if g in r.groups then SettleTo(r, g, |r.groups[g]|) else r
  }

  // ------------------------------------------------------------------------ runs

  datatype Step =
    | Subscribed(group: Group, id: ConnectionId, version: u16, holding: bool)
    | FannedOut(group: Group, frame: Frame, except: ConnectionId, floor: u16)
    | ReleasedHold(group: Group, id: ConnectionId, replayedTo: u64)
    | Forgotten(id: ConnectionId)
    | Unlisted(id: ConnectionId)
    | Identified(entry: EntryHash, id: ConnectionId)
    | PrincipalTaken(entry: EntryHash)
    | Revoked(id: ConnectionId)
    | SettledDebts(order: seq<Group>)
    | Wrote(id: ConnectionId, frame: Frame)      // the connection's own session queues a frame
    | Pinged(id: ConnectionId)
    | Took(id: ConnectionId)                     // the writer task takes one item
    | Reserved(id: ConnectionId, permits: nat)   // a waiting session holds part of the byte budget
    | Shut(id: ConnectionId)                     // the receiving half is gone

  function Next(s: Hub, step: Step): Hub {
    match step
    case Subscribed(g, id, version, holding) => Subscribe(s, g, id, version, holding)
    case FannedOut(g, f, except, floor) => Fanout(s, g, f, except, floor).hub
    case ReleasedHold(g, id, to) => Release(s, g, id, to)
    case Forgotten(id) => DropSubscriptions(s, id)
    case Unlisted(id) => DropIdentity(s, id)
    case Identified(e, id) => Identify(s, e, id)
    case PrincipalTaken(e) => TakePrincipal(s, e)
    case Revoked(id) => Revoke(s, id)
    case SettledDebts(order) => Settle(s, order)
    case Wrote(id, f) => Offer(s, id, ChannelOf(s, id), Data(f), Answer(ChannelOf(s, id), f).Sent?)
    case Pinged(id) => Offer(s, id, ChannelOf(s, id), Ping, HasSlot(ChannelOf(s, id)))
    case Took(id) => WithChannel(s, id, Take(ChannelOf(s, id)))
    case Reserved(id, n) => WithChannel(s, id, ChannelOf(s, id).(reserved := n))
    case Shut(id) => WithChannel(s, id, ChannelOf(s, id).(closed := true))
  }

  /** The hub after any interleaving of steps from an empty one. */
  function After(steps: seq<Step>): Hub {
    if |steps| == 0 then EMPTY else Next(After(steps[..|steps| - 1]), steps[|steps| - 1])
  }
}
