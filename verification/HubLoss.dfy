/**
 * No silent loss. The owed flags in the registry are exactly what the history says is owed, in every run; the rest
 * follows from the history alone.
 */
module HubLoss {
  import opened Octets
  import opened Frames
  import opened HubState
  import opened HubRegistry

  type Debtor = (Group, ConnectionId)

  // --------------------------------------------------------------- the history

  function Ours(o: set<Debtor>, id: ConnectionId): set<Debtor> { set p | p in o && p.1 == id }

  function Debts(o: set<Debtor>, e: Event): set<Debtor> {
    match e
    case Owes(g, id) => o + {(g, id)}
    case Noticed(g, id) => o - {(g, id)}
    case Dropped(id) => o - Ours(o, id)
    case _ => o
  }

  /** Who is owed a notice, by the history alone. */
  function Owing(log: seq<Event>): set<Debtor> {
    if |log| == 0 then {} else Debts(Owing(log[..|log| - 1]), log[|log| - 1])
  }

  /** A notice answers a debt, a debt is taken once, a miss is covered by a debt, and nothing is forwarded over one. */
  predicate Allowed(o: set<Debtor>, e: Event) {
    match e
    case Owes(g, id) => (g, id) !in o
    case Noticed(g, id) => (g, id) in o
    case Missed(g, id, _) => (g, id) in o
    case Forwarded(g, id, _) => (g, id) !in o
    case _ => true
  }

  predicate Orderly(log: seq<Event>) {
    |log| == 0 || (Orderly(log[..|log| - 1]) && Allowed(Owing(log[..|log| - 1]), log[|log| - 1]))
  }

  function DebtsTaken(log: seq<Event>): nat {
    if |log| == 0 then 0 else DebtsTaken(log[..|log| - 1]) + (if log[|log| - 1].Owes? then 1 else 0)
  }

  function NoticesQueued(log: seq<Event>): nat {
    if |log| == 0 then 0 else NoticesQueued(log[..|log| - 1]) + (if log[|log| - 1].Noticed? then 1 else 0)
  }

  /** Debts a disconnect took away unpaid. */
  function DebtsLost(log: seq<Event>): nat {
    if |log| == 0 then 0 else
      var e := log[|log| - 1];
      DebtsLost(log[..|log| - 1]) + (if e.Dropped? then |Ours(Owing(log[..|log| - 1]), e.id)| else 0)
  }

  /** What an event put on the connection's queue. */
  function Item(e: Event, id: ConnectionId): seq<Outbound> {
    if e.id != id then [] else
      match e
      case Noticed(g, _) => [Data(Notice(g))]
      case Forwarded(_, _, f) => [Data(f)]
      case Released(_, _, f) => [Data(f)]
      case Own(_, item) => [item]
      case _ => []
  }

  /** Everything the history put on one connection's queue, in order. */
  function Traffic(log: seq<Event>, id: ConnectionId): seq<Outbound> {
    if |log| == 0 then [] else Traffic(log[..|log| - 1], id) + Item(log[|log| - 1], id)
  }

  lemma One(log: seq<Event>, e: Event)
    ensures forall id :: Traffic(log + [e], id) == Traffic(log, id) + Item(e, id)
    ensures Owing(log + [e]) == Debts(Owing(log), e)
    ensures Orderly(log + [e]) <==> Orderly(log) && Allowed(Owing(log), e)
    ensures DebtsTaken(log + [e]) == DebtsTaken(log) + (if e.Owes? then 1 else 0)
  {
    assert (log + [e])[..|log|] == log;
  }

  lemma {:induction false} DebtsBalance(log: seq<Event>)
    requires Orderly(log)
    ensures DebtsTaken(log) == NoticesQueued(log) + |Owing(log)| + DebtsLost(log)
  {
    if |log| > 0 {
      DebtsBalance(log[..|log| - 1]);
      var o, e := Owing(log[..|log| - 1]), log[|log| - 1];
      if e.Dropped? {
        assert o == Ours(o, e.id) + (o - Ours(o, e.id));
      }
    }
  }

  // -------------------------------------------------------------- the invariant

  predicate OwedIn(s: Hub, g: Group, id: ConnectionId) {
    g in s.groups && exists i | 0 <= i < |s.groups[g]| :: s.groups[g][i].id == id && s.groups[g][i].owed
  }

  ghost predicate DebtsRecorded(s: Hub) {
    forall g: Group, id: ConnectionId :: OwedIn(s, g, id) <==> (g, id) in Owing(s.log)
  }

  predicate Flagged(s: Hub, e: Event) {
    && (e.Ended? ==> ChannelOf(s, e.id).evicted)
    && (e.ShutOut? ==> ChannelOf(s, e.id).closed)
  }

  predicate AllFlagged(s: Hub) {
    forall i | 0 <= i < |s.log| :: Flagged(s, s.log[i])
  }

  /** Every queue holds what the history says was put on it, and nothing else. */
  ghost predicate Truthful(s: Hub) {
    forall id: ConnectionId :: ChannelOf(s, id).accepted == Traffic(s.log, id)
  }

  ghost predicate Sound(s: Hub) {
    && Registry(s)
    && Orderly(s.log)
    && DebtsRecorded(s)
    && AllFlagged(s)
    && Truthful(s)
    && s.downgrades == DebtsTaken(s.log) % TWO_TO_64
  }

  // ---------------------------------------------------- one entry and one channel

  /** What a step did to one entry: the debts move as the flag does, and every ending left its mark on the channel. */
  ghost predicate Accounted(g: Group, id: ConnectionId, owed: bool, was: Channel, now: Channel, log: seq<Event>,
      events: seq<Event>) {
    && (was.evicted ==> now.evicted) && (was.closed ==> now.closed)
    && (forall i | 0 <= i < |events| && (events[i].Ended? || events[i].ShutOut?) ::
          events[i].id == id && (events[i].Ended? ==> now.evicted) && (events[i].ShutOut? ==> now.closed))
    && Orderly(log + events)
    && (was.accepted == Traffic(log, id) ==> now.accepted == Traffic(log + events, id))
    && (forall x: ConnectionId | x != id :: Traffic(log + events, x) == Traffic(log, x))
    && Owing(log + events) == (if owed then Owing(log) + {(g, id)} else Owing(log) - {(g, id)})
  }

  /** One entry and its connection's channel are replaced, and the log grows. */
  predicate Touched(s: Hub, r: Hub, g: Group, i: nat, sub: Subscriber, c: Channel, events: seq<Event>)
    requires g in s.groups && i < |s.groups[g]|
  {
    && sub.id == s.groups[g][i].id
    && r.groups == s.groups[g := s.groups[g][i := sub]]
    && r.principals == s.principals
    && r.channels == s.channels[sub.id := c]
    && r.log == s.log + events
  }

  lemma ReplacedEntry(s: Hub, r: Hub, g: Group, i: nat, sub: Subscriber, h: Group, id: ConnectionId)
    requires g in s.groups && OnePerId(s.groups[g]) && i < |s.groups[g]| && sub.id == s.groups[g][i].id
    requires r.groups == s.groups[g := s.groups[g][i := sub]]
    ensures OwedIn(r, h, id) == if h == g && id == sub.id then sub.owed else OwedIn(s, h, id)
  {
    var was, now := s.groups[g], r.groups[g];
    assert forall j | 0 <= j < |was| && j != i :: now[j] == was[j] && was[j].id != sub.id;
    assert now[i] == sub;
    if h == g && OwedIn(s, g, id) && id != sub.id {
      var k :| 0 <= k < |was| && was[k].id == id && was[k].owed;
      assert now[k] == was[k];
    }
  }

  lemma TouchedKeepsFlags(s: Hub, r: Hub, g: Group, i: nat, sub: Subscriber, c: Channel, events: seq<Event>)
    requires AllFlagged(s) && g in s.groups && i < |s.groups[g]| && Touched(s, r, g, i, sub, c, events)
    requires Accounted(g, sub.id, sub.owed, ChannelOf(s, sub.id), c, s.log, events)
    ensures AllFlagged(r)
  {
    forall k | 0 <= k < |r.log| ensures Flagged(r, r.log[k]) {
      if k < |s.log| {
        assert Flagged(s, s.log[k]) && r.log[k] == s.log[k];
      } else {
        assert r.log[k] == events[k - |s.log|];
      }
    }
  }

  lemma TouchedKeepsRegistry(s: Hub, r: Hub, g: Group, i: nat, sub: Subscriber, c: Channel, events: seq<Event>)
    requires Registry(s) && g in s.groups && i < |s.groups[g]| && Touched(s, r, g, i, sub, c, events)
    ensures Registry(r)
  {
    forall h | h in s.groups ensures SameIds(r.groups[h], s.groups[h]) { }
    SameIdsKeepRegistry(s, r);
  }

  lemma TouchedIsSound(s: Hub, r: Hub, g: Group, i: nat, sub: Subscriber, c: Channel, events: seq<Event>)
    requires Sound(s) && g in s.groups && i < |s.groups[g]| && Touched(s, r, g, i, sub, c, events)
    requires Accounted(g, sub.id, sub.owed, ChannelOf(s, sub.id), c, s.log, events)
    requires r.downgrades == DebtsTaken(r.log) % TWO_TO_64
    ensures Sound(r)
  {
    TouchedKeepsFlags(s, r, g, i, sub, c, events);
    TouchedKeepsRegistry(s, r, g, i, sub, c, events);
    forall id: ConnectionId ensures ChannelOf(r, id).accepted == Traffic(r.log, id) {
      assert ChannelOf(s, id).accepted == Traffic(s.log, id);
    }
    forall h: Group, id: ConnectionId ensures OwedIn(r, h, id) <==> (h, id) in Owing(r.log) {
      ReplacedEntry(s, r, g, i, sub, h, id);
    }
  }

  // ------------------------------------------------------- one subscriber's turn

  lemma Two(log: seq<Event>, a: Event, b: Event)
    ensures Owing(log + [a, b]) == Debts(Debts(Owing(log), a), b)
    ensures forall id :: Traffic(log + [a, b], id) == Traffic(log, id) + Item(a, id) + Item(b, id)
    ensures Orderly(log + [a, b]) <==> Orderly(log) && Allowed(Owing(log), a) && Allowed(Debts(Owing(log), a), b)
    ensures DebtsTaken(log + [a, b]) == DebtsTaken(log) + (if a.Owes? then 1 else 0) + (if b.Owes? then 1 else 0)
  {
    hide Owing, Orderly, DebtsTaken, Debts, Allowed, Traffic, Item;
    One(log, a);
    One(log + [a], b);
    assert log + [a, b] == log + [a] + [b];
  }

  lemma Three(log: seq<Event>, a: Event, b: Event, c: Event)
    ensures Owing(log + [a, b, c]) == Debts(Debts(Debts(Owing(log), a), b), c)
    ensures forall id :: Traffic(log + [a, b, c], id) == Traffic(log + [a, b], id) + Item(c, id)
    ensures Orderly(log + [a, b, c]) <==>
            Orderly(log + [a, b]) && Allowed(Debts(Debts(Owing(log), a), b), c)
    ensures DebtsTaken(log + [a, b, c]) == DebtsTaken(log + [a, b]) + (if c.Owes? then 1 else 0)
  {
    hide Owing, Orderly, DebtsTaken, Debts, Allowed, Traffic, Item;
    Two(log, a, b);
    One(log + [a, b], c);
    assert log + [a, b, c] == log + [a, b] + [c];
  }

  lemma Spread(log: seq<Event>, events: seq<Event>)
    ensures events == [] ==> log + events == log
    ensures |events| == 1 ==> log + events == log + [events[0]]
    ensures |events| == 2 ==> log + events == log + [events[0], events[1]]
    ensures |events| == 3 ==> log + events == log + [events[0], events[1], events[2]]
  {
  }

  lemma TurnIsAccounted(g: Group, f: Frame, except: ConnectionId, floor: u16, sub: Subscriber, c: Channel,
      log: seq<Event>)
    requires Orderly(log) && (sub.owed <==> (g, sub.id) in Owing(log))
    ensures var t := Deliver(g, f, except, floor, sub, c);
            && Accounted(g, sub.id, t.sub.owed, c, t.channel, log, t.events)
            && DebtsTaken(log + t.events) == DebtsTaken(log) + (if t.Owed(g) then 1 else 0)
  {
    hide Owing, Orderly, DebtsTaken, Traffic, Deliver;
    var t := Deliver(g, f, except, floor, sub, c);
    TurnShape(g, f, except, floor, sub, c);
    Spread(log, t.events);
    if |t.events| == 1 { One(log, t.events[0]); }
    if |t.events| == 2 { Two(log, t.events[0], t.events[1]); }
    if |t.events| == 3 { Two(log, t.events[0], t.events[1]); Three(log, t.events[0], t.events[1], t.events[2]); }
  }

  /** Every way a turn can end. */
  predicate Shape(g: Group, f: Frame, sub: Subscriber, c: Channel, t: Turn) {
    var id := sub.id;
    && t.sub.id == id
    && (c.evicted ==> t.channel.evicted) && (c.closed ==> t.channel.closed)
    && (|| (t.events == [] && t.sub.owed == sub.owed && t.channel.accepted == c.accepted)
        || (t.events == [Forwarded(g, id, f)] && !sub.owed && !t.sub.owed
            && t.channel.accepted == c.accepted + [Data(f)])
        || (t.events == [HeldBack(g, id, f)] && t.sub.owed == sub.owed && t.channel.accepted == c.accepted)
        || (t.events == [Ended(g, id, f)] && t.sub.owed == sub.owed && t.channel.evicted
            && t.channel.accepted == c.accepted)
        || (t.events == [ShutOut(g, id, f)] && t.sub.owed == sub.owed && t.channel.closed
            && t.channel.accepted == c.accepted)
        || (t.events == [Missed(g, id, f)] && sub.owed && t.sub.owed && t.channel.accepted == c.accepted)
        || (t.events == [Owes(g, id), Missed(g, id, f)] && !sub.owed && t.sub.owed && t.channel.accepted == c.accepted)
        || PaidShape(g, f, sub, c, t))
  }

  /** The turns that begin by paying a notice. */
  predicate PaidShape(g: Group, f: Frame, sub: Subscriber, c: Channel, t: Turn) {
    var id, paid := sub.id, c.accepted + [Data(Notice(g))];
    && sub.owed
    && (|| (t.events == [Noticed(g, id)] && !t.sub.owed && t.channel.accepted == paid)
        || (t.events == [Noticed(g, id), Forwarded(g, id, f)] && !t.sub.owed && t.channel.accepted == paid + [Data(f)])
        || (t.events == [Noticed(g, id), Ended(g, id, f)] && !t.sub.owed && t.channel.evicted
            && t.channel.accepted == paid)
        || (t.events == [Noticed(g, id), ShutOut(g, id, f)] && !t.sub.owed && t.channel.closed
            && t.channel.accepted == paid)
        || (t.events == [Noticed(g, id), Owes(g, id), Missed(g, id, f)] && t.sub.owed && t.channel.accepted == paid))
  }

  lemma AnswerMeans(c: Channel, f: Frame)
    ensures Answer(c, f).Closed? ==> c.closed
    ensures TryQueue(c, f).closed == c.closed && TryQueue(c, f).evicted == c.evicted
    ensures TryQueue(c, f).accepted == if Answer(c, f).Sent? then c.accepted + [Data(f)] else c.accepted
  {
  }

  lemma TurnShape(g: Group, f: Frame, except: ConnectionId, floor: u16, sub: Subscriber, c: Channel)
    ensures Shape(g, f, sub, c, Deliver(g, f, except, floor, sub, c))
  {
    hide Answer, TryQueue;
    AnswerMeans(c, f);
    AnswerMeans(c, Notice(g));
    AnswerMeans(TryQueue(c, Notice(g)), f);
  }

  lemma EntryOwes(s: Hub, g: Group, i: nat)
    requires g in s.groups && OnePerId(s.groups[g]) && i < |s.groups[g]|
    ensures OwedIn(s, g, s.groups[g][i].id) <==> s.groups[g][i].owed
  {
    var subs := s.groups[g];
    if OwedIn(s, g, subs[i].id) {
      var k :| 0 <= k < |subs| && subs[k].id == subs[i].id && subs[k].owed;
      assert k == i;
    }
  }

  lemma TurnIsSound(fan: Fan, g: Group, i: nat, f: Frame, except: ConnectionId, floor: u16)
    requires Sound(fan.hub) && g in fan.hub.groups && i < |fan.hub.groups[g]|
    ensures Sound(TakeTurn(fan, g, i, TurnOf(fan.hub, g, i, f, except, floor)).hub)
  {
    hide Deliver, Orderly, Owing, DebtsTaken, Accounted;
    var s := fan.hub;
    var sub := s.groups[g][i];
    var c := ChannelOf(s, sub.id);
    var t := TurnOf(s, g, i, f, except, floor);
    EntryOwes(s, g, i);
    TurnShape(g, f, except, floor, sub, c);
    TurnIsAccounted(g, f, except, floor, sub, c, s.log);
    TouchedIsSound(s, TakeTurn(fan, g, i, t).hub, g, i, t.sub, t.channel, t.events);
  }

  lemma {:induction false} FanoutIsSound(s: Hub, g: Group, n: nat, f: Frame, except: ConnectionId, floor: u16)
    requires Sound(s) && g in s.groups && n <= |s.groups[g]|
    ensures Sound(FanoutTo(s, g, n, f, except, floor).hub)
  {
    hide Sound, TurnOf, TakeTurn;
    if n > 0 {
      FanoutIsSound(s, g, n - 1, f, except, floor);
      TurnIsSound(FanoutTo(s, g, n - 1, f, except, floor), g, n - 1, f, except, floor);
    }
  }

  // ------------------------------------------------------------ the other steps

  lemma SettleAtIsSound(s: Hub, g: Group, i: nat)
    requires Sound(s) && g in s.groups && i < |s.groups[g]|
    ensures Sound(SettleAt(s, g, i))
  {
    hide Answer, TryQueue, Orderly, Owing, DebtsTaken, Traffic;
    var r := SettleAt(s, g, i);
    if r != s {
      var sub := s.groups[g][i];
      var c := ChannelOf(s, sub.id);
      EntryOwes(s, g, i);
      One(s.log, Noticed(g, sub.id));
      AnswerMeans(c, Notice(g));
      TouchedIsSound(s, r, g, i, sub.(owed := false), TryQueue(c, Notice(g)), [Noticed(g, sub.id)]);
    }
  }

  lemma {:induction false} SettleToIsSound(s: Hub, g: Group, n: nat)
    requires Sound(s) && g in s.groups && n <= |s.groups[g]|
    ensures Sound(SettleTo(s, g, n))
  {
    hide Sound, SettleAt;
    if n > 0 {
      SettleToIsSound(s, g, n - 1);
      SettleAtIsSound(SettleTo(s, g, n - 1), g, n - 1);
    }
  }

  lemma {:induction false} SettleIsSound(s: Hub, order: seq<Group>)
    requires Sound(s)
    ensures Sound(Settle(s, order))
  {
    hide Sound, SettleTo;
    if |order| > 0 {
      SettleIsSound(s, order[..|order| - 1]);
      var r := Settle(s, order[..|order| - 1]);
      var g := order[|order| - 1];
      if g in r.groups { SettleToIsSound(r, g, |r.groups[g]|); }
    }
  }

  lemma {:induction false} DrainIsAccounted(c: Channel, g: Group, id: ConnectionId, held: seq<Frame>, to: u64,
      log: seq<Event>)
    requires Orderly(log)
    ensures var d := DrainAll(c, g, id, held, to);
            && d.channel.closed == c.closed && (c.evicted ==> d.channel.evicted) && (d.stopped ==> d.channel.evicted)
            && (forall i | 0 <= i < |d.events| ::
                  d.events[i].id == id && (d.events[i].Released? || (d.events[i].Ended? && d.stopped)))
            && Orderly(log + d.events) && Owing(log + d.events) == Owing(log)
            && DebtsTaken(log + d.events) == DebtsTaken(log)
            && (c.accepted == Traffic(log, id) ==> d.channel.accepted == Traffic(log + d.events, id))
            && (forall x: ConnectionId | x != id :: Traffic(log + d.events, x) == Traffic(log, x))
  {
    hide Answer, TryQueue, Orderly, Owing, DebtsTaken, Traffic;
    var d := DrainAll(c, g, id, held, to);
    if |held| == 0 {
      assert log + d.events == log;
    } else {
      DrainIsAccounted(c, g, id, held[..|held| - 1], to, log);
      var e, f := DrainAll(c, g, id, held[..|held| - 1], to), held[|held| - 1];
      AnswerMeans(e.channel, f);
      if d.events != e.events {
        var last := d.events[|d.events| - 1];
        One(log + e.events, last);
        assert log + d.events == log + e.events + [last];
      }
    }
  }

  lemma ReleaseIsSound(s: Hub, g: Group, id: ConnectionId, to: u64)
    requires Sound(s)
    ensures Sound(Release(s, g, id, to))
  {
    hide DrainAll, Orderly, Owing, DebtsTaken, Traffic;
    var r := Release(s, g, id, to);
    if r != s {
      var i := IndexOf(s.groups[g], id);
      var sub := s.groups[g][i];
      var c := ChannelOf(s, id);
      var d := DrainAll(c, g, id, sub.held.value, to);
      EntryOwes(s, g, i);
      DrainIsAccounted(c, g, id, sub.held.value, to, s.log);
      TouchedIsSound(s, r, g, i, sub.(held := None), d.channel, d.events);
    }
  }

  lemma ForgetIsSound(s: Hub, id: ConnectionId)
    requires Sound(s)
    ensures Sound(DropSubscriptions(s, id))
  {
    hide Without, Orderly, Owing, DebtsTaken, Registry, Traffic;
    var r := DropSubscriptions(s, id);
    RegistryForget(s, id);
    One(s.log, Dropped(id));
    forall h: Group, x: ConnectionId ensures OwedIn(r, h, x) <==> OwedIn(s, h, x) && x != id {
      if h in s.groups { OwedWithout(s, r, h, id, x); }
    }
    forall k | 0 <= k < |r.log| ensures Flagged(r, r.log[k]) {
      if k < |s.log| { assert Flagged(s, s.log[k]) && r.log[k] == s.log[k]; }
    }
    forall x: ConnectionId ensures ChannelOf(r, x).accepted == Traffic(r.log, x) {
      assert ChannelOf(r, x) == ChannelOf(s, x);
    }
  }

  lemma OwedWithout(s: Hub, r: Hub, g: Group, id: ConnectionId, x: ConnectionId)
    requires g in s.groups && r == DropSubscriptions(s, id)
    ensures OwedIn(r, g, x) <==> OwedIn(s, g, x) && x != id
  {
    hide Without;
    var was, now := s.groups[g], Without(s.groups[g], id);
    WithoutKeeps(was, id);
    if OwedIn(r, g, x) {
      var k :| 0 <= k < |now| && now[k].id == x && now[k].owed;
      assert now[k] in was;
    }
    if OwedIn(s, g, x) && x != id {
      var k :| 0 <= k < |was| && was[k].id == x && was[k].owed;
      assert was[k] in now;
      var j :| 0 <= j < |now| && now[j] == was[k];
      assert now != [] && r.groups[g] == now && r.groups[g][j].owed;
    }
  }

  lemma SubscribeIsSound(s: Hub, g: Group, id: ConnectionId, version: u16, holding: bool)
    requires Sound(s)
    ensures Sound(Subscribe(s, g, id, version, holding))
  {
    hide Orderly, Owing, DebtsTaken, Registry, Traffic;
    var r := Subscribe(s, g, id, version, holding);
    RegistryStep(s, HubState.Subscribed(g, id, version, holding));
    if r != s {
      var was, now := Subscribers(s, g), r.groups[g];
      forall h: Group, x: ConnectionId ensures OwedIn(r, h, x) <==> OwedIn(s, h, x) {
        if h == g {
          if OwedIn(s, g, x) {
            var k :| 0 <= k < |was| && was[k].id == x && was[k].owed;
            assert now[k] == was[k];
          }
          assert forall k | 0 <= k < |was| :: now[k] == was[k];
        }
      }
      forall k | 0 <= k < |r.log| ensures Flagged(r, r.log[k]) { assert Flagged(s, s.log[k]); }
      forall x: ConnectionId ensures ChannelOf(r, x).accepted == Traffic(r.log, x) {
        assert ChannelOf(r, x) == ChannelOf(s, x);
      }
    }
  }

  /** A step that changes principals, or one channel's flags and bookkeeping. The flags only ever rise. */
  lemma ElsewhereIsSound(s: Hub, r: Hub, id: ConnectionId)
    requires Sound(s) && Registry(r)
    requires r.groups == s.groups && r.log == s.log && r.downgrades == s.downgrades
    requires forall x: ConnectionId :: x != id ==> ChannelOf(r, x) == ChannelOf(s, x)
    requires (ChannelOf(s, id).evicted ==> ChannelOf(r, id).evicted)
             && (ChannelOf(s, id).closed ==> ChannelOf(r, id).closed)
    requires ChannelOf(r, id).accepted == ChannelOf(s, id).accepted
    ensures Sound(r)
  {
    hide Traffic;
    forall g: Group, x: ConnectionId ensures OwedIn(r, g, x) == OwedIn(s, g, x) { }
    forall k | 0 <= k < |r.log| ensures Flagged(r, r.log[k]) { assert Flagged(s, s.log[k]); }
    forall x: ConnectionId ensures ChannelOf(r, x).accepted == Traffic(r.log, x) {
      assert ChannelOf(r, x).accepted == ChannelOf(s, x).accepted == Traffic(s.log, x);
    }
  }

  lemma ChannelStepIsSound(s: Hub, id: ConnectionId, c: Channel)
    requires Sound(s) && c.accepted == ChannelOf(s, id).accepted
    requires (ChannelOf(s, id).evicted ==> c.evicted) && (ChannelOf(s, id).closed ==> c.closed)
    ensures Sound(WithChannel(s, id, c))
  {
    assert Registry(WithChannel(s, id, c));
    hide Sound;
    ElsewhereIsSound(s, WithChannel(s, id, c), id);
  }

  lemma OfferIsSound(s: Hub, id: ConnectionId, c: Channel, item: Outbound, room: bool)
    requires Sound(s) && c.accepted == ChannelOf(s, id).accepted
    requires (ChannelOf(s, id).evicted ==> c.evicted) && (ChannelOf(s, id).closed ==> c.closed)
    ensures Sound(Offer(s, id, c, item, room))
  {
    hide Orderly, Owing, DebtsTaken, Traffic;
    var r := Offer(s, id, c, item, room);
    assert Registry(r);
    if room {
      One(s.log, Own(id, item));
      forall g: Group, x: ConnectionId ensures OwedIn(r, g, x) == OwedIn(s, g, x) { }
      forall k | 0 <= k < |r.log| ensures Flagged(r, r.log[k]) {
        if k < |s.log| { assert Flagged(s, s.log[k]) && r.log[k] == s.log[k]; }
      }
      forall x: ConnectionId ensures ChannelOf(r, x).accepted == Traffic(r.log, x) {
        assert ChannelOf(s, x).accepted == Traffic(s.log, x);
      }
    } else {
      ElsewhereIsSound(s, r, id);
    }
  }

  lemma StepIsSound(s: Hub, step: Step)
    requires Sound(s)
    ensures Sound(Next(s, step))
  {
    hide Fanout, Settle, Release, Subscribe, DropSubscriptions, DropIdentity, Sound, Answer, HasSlot, Offer;
    RegistryIn(s);
    RegistryStep(s, step);
    match step
    case Subscribed(g, id, version, holding) => SubscribeIsSound(s, g, id, version, holding);
    case FannedOut(g, f, except, floor) => FanoutStepIsSound(s, g, f, except, floor);
    case ReleasedHold(g, id, to) => ReleaseIsSound(s, g, id, to);
    case SettledDebts(order) => SettleIsSound(s, order);
    case Forgotten(id) => ForgetIsSound(s, id);
    case Identified(_, id) => ElsewhereIsSound(s, Next(s, step), id);
    case PrincipalTaken(_) => ElsewhereIsSound(s, Next(s, step), 0);
    case Unlisted(id) => UnlistTouchesPrincipals(s, id); ElsewhereIsSound(s, Next(s, step), id);
    case Wrote(id, f) => OfferIsSound(s, id, ChannelOf(s, id), Data(f), Answer(ChannelOf(s, id), f).Sent?);
    case Pinged(id) => OfferIsSound(s, id, ChannelOf(s, id), Ping, HasSlot(ChannelOf(s, id)));
    case Took(id) => ChannelStepIsSound(s, id, Take(ChannelOf(s, id)));
    case Reserved(id, n) => ChannelStepIsSound(s, id, ChannelOf(s, id).(reserved := n));
    case Shut(id) => ChannelStepIsSound(s, id, ChannelOf(s, id).(closed := true));
    case Revoked(id) => OfferIsSound(s, id, ChannelOf(s, id).(evicted := true), Close, HasSlot(ChannelOf(s, id)));
  }

  lemma RegistryIn(s: Hub)
    requires Sound(s)
    ensures Registry(s)
  {
  }

  lemma UnlistTouchesPrincipals(s: Hub, id: ConnectionId)
    ensures DropIdentity(s, id) == s.(principals := DropIdentity(s, id).principals)
  {
  }

  lemma FanoutStepIsSound(s: Hub, g: Group, f: Frame, except: ConnectionId, floor: u16)
    requires Sound(s)
    ensures Sound(Fanout(s, g, f, except, floor).hub)
  {
    hide Sound, FanoutTo;
    if g in s.groups { FanoutIsSound(s, g, |s.groups[g]|, f, except, floor); }
  }

  lemma {:induction false} SoundAlways(steps: seq<Step>)
    ensures Sound(After(steps))
  {
    hide Next;
    if |steps| > 0 {
      hide Sound;
      SoundAlways(steps[..|steps| - 1]);
      StepIsSound(After(steps[..|steps| - 1]), steps[|steps| - 1]);
    }
  }

  // ------------------------------------------------------------- what it promises

  lemma {:induction false} DebtStays(log: seq<Event>, k: nat, p: Debtor)
    requires k <= |log| && p in Owing(log[..k])
    requires forall j | k <= j < |log| :: log[j] != Noticed(p.0, p.1) && log[j] != Dropped(p.1)
    ensures p in Owing(log)
    decreases |log| - k
  {
    if k == |log| {
      assert log[..k] == log;
    } else {
      assert log[..k + 1][..k] == log[..k];
      DebtStays(log, k + 1, p);
    }
  }

  lemma {:induction false} OrderlyAt(log: seq<Event>, k: nat)
    requires Orderly(log) && k < |log|
    ensures Allowed(Owing(log[..k]), log[k])
  {
    if k < |log| - 1 {
      OrderlyAt(log[..|log| - 1], k);
      assert log[..|log| - 1][..k] == log[..k];
    }
  }

  /** A subscriber still registered since it missed a durable frame is owed a notice, or was sent one after the miss. */
  lemma LossIsDeclared(steps: seq<Step>, k: nat)
    requires k < |After(steps).log| && After(steps).log[k].Missed?
    requires var log := After(steps).log; forall j | k < j < |log| :: log[j] != Dropped(log[k].id)
    ensures var s := After(steps);
            var miss := s.log[k];
            || OwedIn(s, miss.group, miss.id)
            || exists j | k < j < |s.log| :: s.log[j] == Noticed(miss.group, miss.id)
  {
    SoundAlways(steps);
    var s := After(steps);
    var miss := s.log[k];
    OrderlyAt(s.log, k);
    if !exists j | k < j < |s.log| :: s.log[j] == Noticed(miss.group, miss.id) {
      assert s.log[..k + 1][..k] == s.log[..k];
      DebtStays(s.log, k + 1, (miss.group, miss.id));
    }
  }

  lemma DebtBetween(log: seq<Event>, i: nat, k: nat)
    requires Orderly(log) && i < k < |log| && log[i].Missed? && log[k].Forwarded?
    requires log[i].group == log[k].group && log[i].id == log[k].id
    ensures exists j | i < j < k :: log[j] == Noticed(log[k].group, log[k].id) || log[j] == Dropped(log[k].id)
  {
    var g, id := log[k].group, log[k].id;
    OrderlyAt(log, i);
    OrderlyAt(log, k);
    hide Orderly;
    if !exists j | i < j < k :: log[j] == Noticed(g, id) || log[j] == Dropped(id) {
      var front := log[..k];
      assert front[..i + 1][..i] == log[..i];
      assert forall j | i + 1 <= j < k :: front[j] == log[j];
      DebtStays(front, i + 1, (g, id));
    }
  }

  /** Fanout queues nothing for a subscriber between a miss and the notice of it. */
  lemma NothingOverDebt(steps: seq<Step>, i: nat, k: nat)
    requires var log := After(steps).log;
             && i < k < |log| && log[i].Missed? && log[k].Forwarded?
             && log[i].group == log[k].group && log[i].id == log[k].id
    ensures var log := After(steps).log;
            exists j | i < j < k :: log[j] == Noticed(log[k].group, log[k].id) || log[j] == Dropped(log[k].id)
  {
    hide After;
    SoundAlways(steps);
    DebtBetween(After(steps).log, i, k);
  }

  /** Each downgrade counted is a notice queued, a notice owed, or a debt a disconnect took away. */
  lemma DowngradesConserved(steps: seq<Step>)
    ensures var s := After(steps);
            && s.downgrades == (NoticesQueued(s.log) + |Owing(s.log)| + DebtsLost(s.log)) % TWO_TO_64
            && forall g: Group, id: ConnectionId :: (g, id) in Owing(s.log) <==> OwedIn(s, g, id)
  {
    hide After, OwedIn, Owing, NoticesQueued, DebtsTaken, DebtsLost, Orderly, AllFlagged;
    SoundAlways(steps);
    DebtsBalance(After(steps).log);
  }

  /** A handshake that found no room marked its connection's sender, and a frame lost otherwise met a closed channel. */
  lemma MissedHandshakesEvict(steps: seq<Step>, k: nat)
    requires k < |After(steps).log|
    ensures var s := After(steps);
            && (s.log[k].Ended? ==> ChannelOf(s, s.log[k].id).evicted)
            && (s.log[k].ShutOut? ==> ChannelOf(s, s.log[k].id).closed)
  {
    hide After;
    SoundAlways(steps);
    assert Flagged(After(steps), After(steps).log[k]);
  }

  /** The history is what the queues hold. */
  lemma QueuesHoldTheHistory(steps: seq<Step>, id: ConnectionId)
    ensures ChannelOf(After(steps), id).accepted == Traffic(After(steps).log, id)
  {
    hide After;
    SoundAlways(steps);
  }
}
