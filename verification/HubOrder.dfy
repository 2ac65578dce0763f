/** What a replaying subscriber is sent of its group's handshakes, over every interleaving. */
module HubOrder {
  import opened Octets
  import opened Frames
  import opened SeqOrder
  import opened HubState
  import opened HubRoom
  import opened HubDrain
  import opened HubRegistry
  import opened HubLoss

  // -------------------------------------------------------- fanout, one by one

  /** After `n` turns, subscriber `i` has had its turn on the entry and queue it started with, or none yet. */
  predicate TurnDone(s: Hub, r: Hub, g: Group, n: nat, i: nat, f: Frame, except: ConnectionId, floor: u16)
    requires g in s.groups && i < |s.groups[g]|
  {
    && g in r.groups && SameIds(r.groups[g], s.groups[g])
    && var id := s.groups[g][i].id;
    if i < n then r.groups[g][i] == TurnOf(s, g, i, f, except, floor).sub
                  && ChannelOf(r, id) == TurnOf(s, g, i, f, except, floor).channel
    else r.groups[g][i] == s.groups[g][i] && ChannelOf(r, id) == ChannelOf(s, id)
  }

  lemma TurnAdvances(s: Hub, fan: Fan, g: Group, n: nat, i: nat, f: Frame, except: ConnectionId, floor: u16)
    requires g in s.groups && OnePerId(s.groups[g]) && n < |s.groups[g]| && i < |s.groups[g]|
    requires TurnDone(s, fan.hub, g, n, i, f, except, floor) && TurnDone(s, fan.hub, g, n, n, f, except, floor)
    ensures TurnDone(s, TakeTurn(fan, g, n, TurnOf(fan.hub, g, n, f, except, floor)).hub, g, n + 1, i, f, except, floor)
  {
    hide Deliver, TakeTurn, ChannelOf;
    var t := TurnOf(fan.hub, g, n, f, except, floor);
    TurnTouches(fan, g, n, t);
    TurnKeepsId(g, f, except, floor, fan.hub.groups[g][n], ChannelOf(fan.hub, fan.hub.groups[g][n].id));
  }

  lemma TurnStarts(s: Hub, g: Group, i: nat, f: Frame, except: ConnectionId, floor: u16)
    requires g in s.groups && i < |s.groups[g]|
    ensures TurnDone(s, FanoutTo(s, g, 0, f, except, floor).hub, g, 0, i, f, except, floor)
  {
    hide TakeTurn, TurnOf;
    FanoutUnfolds(s, g, 0, f, except, floor);
  }

  lemma {:induction false} TurnAt(s: Hub, g: Group, n: nat, i: nat, f: Frame, except: ConnectionId, floor: u16)
    requires g in s.groups && OnePerId(s.groups[g]) && n <= |s.groups[g]| && i < |s.groups[g]|
    ensures TurnDone(s, FanoutTo(s, g, n, f, except, floor).hub, g, n, i, f, except, floor)
  {
    hide FanoutTo, TakeTurn, TurnOf, TurnDone, OnePerId;
    if n == 0 {
      TurnStarts(s, g, i, f, except, floor);
    } else {
      TurnAt(s, g, n - 1, i, f, except, floor);
      TurnAt(s, g, n - 1, n - 1, f, except, floor);
      FanoutUnfolds(s, g, n - 1, f, except, floor);
      TurnAdvances(s, FanoutTo(s, g, n - 1, f, except, floor), g, n - 1, i, f, except, floor);
    }
  }

  lemma {:induction false} Bystander(s: Hub, g: Group, n: nat, x: ConnectionId, f: Frame, except: ConnectionId,
      floor: u16)
    requires g in s.groups && OnePerId(s.groups[g]) && n <= |s.groups[g]| && |s.groups[g]| > 0 && !Has(s.groups[g], x)
    ensures ChannelOf(FanoutTo(s, g, n, f, except, floor).hub, x) == ChannelOf(s, x)
  {
    hide TakeTurn, ChannelOf, TurnOf, FanoutTo;
    FanoutUnfolds(s, g, if n > 0 then n - 1 else 0, f, except, floor);
    if n > 0 {
      Bystander(s, g, n - 1, x, f, except, floor);
      var fan := FanoutTo(s, g, n - 1, f, except, floor);
      assert fan.hub.groups[g][n - 1].id == s.groups[g][n - 1].id != x by {
        FanoutKeepsIds(s, g, n - 1, f, except, floor);
      }
      TurnTouches(fan, g, n - 1, TurnOf(fan.hub, g, n - 1, f, except, floor));
    }
  }

  // ------------------------------------------------------------------ the watch

  datatype Phase =
    | Before
    | Replaying(version: u16)            // registered, with its live handshakes held
    | Following(version: u16, to: u64)   // released by a replay that ended at `to`
    | Left

  /**
   * One subscription watched: the handshakes of its group that its own session queued before it subscribed, those its
   * session queued while the hold lasted, those fanned out to it meanwhile, and those that came after the release from
   * either.
   */
  datatype Watch = Watch(phase: Phase, own: seq<Frame>, replayed: seq<Frame>, held: seq<Frame>, live: seq<Frame>) {
    predicate Reached(except: ConnectionId, floor: u16, id: ConnectionId) {
      except != id && (phase.Replaying? || phase.Following?) && floor <= phase.version
    }
  }

  const UNWATCHED := Watch(Before, [], [], [], [])

  function Observe(w: Watch, s: Hub, step: Step, g: Group, id: ConnectionId): Watch {
    match step
    case FannedOut(h, f, except, floor) =>
      if h != g || !f.Handshake? || !w.Reached(except, floor, id) then w
      else if w.phase.Replaying? then w.(held := w.held + [f])
      else w.(live := w.live + [f])
    case Subscribed(h, x, version, holding) =>
      if h != g || x != id || !w.phase.Before? then w
      else w.(phase := if holding then Replaying(version) else Following(version, 0))
    case Wrote(x, f) =>
      if x == id && IsCommit(f, g) && Answer(ChannelOf(s, id), f).Sent? then Written(w, f) else w
    case ReleasedHold(h, x, to) =>
      if h == g && x == id && w.phase.Replaying? then w.(phase := Following(w.phase.version, to)) else w
    case Forgotten(x) => if x == id && !w.phase.Before? then w.(phase := Left) else w
    case _ => w
  }

  function Written(w: Watch, f: Frame): Watch {
    match w.phase
    case Before => w.(own := w.own + [f])
    case Replaying(_) => w.(replayed := w.replayed + [f])
    case Following(_, _) => w.(live := w.live + [f])
    case Left => w
  }

  /** A handshake is fanned out to the group it names. */
  predicate Addressed(step: Step) { step.FannedOut? && step.frame.Handshake? ==> step.frame.group == step.group }

  predicate AllAddressed(steps: seq<Step>) {
    forall i | 0 <= i < |steps| :: Addressed(steps[i])
  }

  function WatchOver(steps: seq<Step>, g: Group, id: ConnectionId): Watch {
    if |steps| == 0 then UNWATCHED else
      var front := steps[..|steps| - 1];
      Observe(WatchOver(front, g, id), After(front), steps[|steps| - 1], g, id)
  }

  /** What a released subscriber has been queued of its group's handshakes. */
  function Delivered(w: Watch): seq<Frame>
    requires w.phase.Following?
  {
    w.own + (w.replayed + Kept(w.held, w.phase.to) + w.live)
  }

  predicate Lost(c: Channel) { c.evicted || c.closed }

  predicate Watched(s: Hub, w: Watch, g: Group, id: ConnectionId) {
    var c := ChannelOf(s, id);
    match w.phase
    case Before => !Holds(s, g, id) && w.replayed == w.held == w.live == [] && Handshakes(c.accepted, g) == w.own
    case Replaying(version) =>
      && Holds(s, g, id) && w.live == [] && Handshakes(c.accepted, g) == w.own + w.replayed
      && var sub := Entry(s, g, id);
      && sub.version == version && sub.held.Some?
      && (c.evicted || (AllCommits(sub.held.value, g) && sub.held.value == w.held))
    case Following(version, to) =>
      && Holds(s, g, id)
      && var sub := Entry(s, g, id);
      && sub.version == version && sub.held.None?
      && (Lost(c) || Handshakes(c.accepted, g) == Delivered(w))
    case Left => true
  }

  // ------------------------------------------------------- steps that do not matter

  /** Nothing the watch looks at moved, except that flags may have risen. */
  predicate Unmoved(s: Hub, r: Hub, g: Group, id: ConnectionId) {
    && Holds(r, g, id) == Holds(s, g, id)
    && (Holds(s, g, id) ==>
          Entry(r, g, id).held == Entry(s, g, id).held && Entry(r, g, id).version == Entry(s, g, id).version)
    && Handshakes(ChannelOf(r, id).accepted, g) == Handshakes(ChannelOf(s, id).accepted, g)
    && (ChannelOf(s, id).evicted ==> ChannelOf(r, id).evicted)
    && (ChannelOf(s, id).closed ==> ChannelOf(r, id).closed)
  }

  lemma UnmovedStaysWatched(s: Hub, r: Hub, w: Watch, g: Group, id: ConnectionId)
    requires Watched(s, w, g, id) && Unmoved(s, r, g, id)
    ensures Watched(r, w, g, id)
  {
  }

  lemma UnmovedTwice(s: Hub, q: Hub, r: Hub, g: Group, id: ConnectionId)
    requires Unmoved(s, q, g, id) && Unmoved(q, r, g, id)
    ensures Unmoved(s, r, g, id)
  {
  }

  lemma EntryIs(s: Hub, g: Group, i: nat)
    requires g in s.groups && OnePerId(s.groups[g]) && i < |s.groups[g]|
    ensures Holds(s, g, s.groups[g][i].id) && Entry(s, g, s.groups[g][i].id) == s.groups[g][i]
  {
  }

  lemma HoldsBySameIds(s: Hub, r: Hub, g: Group, id: ConnectionId)
    requires g in s.groups && g in r.groups && SameIds(r.groups[g], s.groups[g])
    ensures Holds(r, g, id) == Holds(s, g, id)
    ensures Holds(s, g, id) ==> IndexOf(r.groups[g], id) == IndexOf(s.groups[g], id)
  {
    var a, b := s.groups[g], r.groups[g];
    if Has(a, id) { assert b[IndexOf(a, id)].id == id; }
    if Has(b, id) { assert a[IndexOf(b, id)].id == id; }
  }

  // ---------------------------------------------------------------------- fanout

  lemma TurnKeepsHold(g: Group, f: Frame, except: ConnectionId, floor: u16, sub: Subscriber, c: Channel)
    ensures var t := Deliver(g, f, except, floor, sub, c);
            && t.sub.version == sub.version
            && (!(f.Handshake? && sub.held.Some?) || sub.id == except || sub.version < floor ==> t.sub.held == sub.held)
  {
    hide Answer, TryQueue;
  }

  /** A turn that queues no commit of `g` leaves the group's seqs on the queue as they were. */
  lemma TurnAddsNoSeq(h: Group, f: Frame, except: ConnectionId, floor: u16, sub: Subscriber, c: Channel, g: Group)
    requires !IsCommit(f, g)
    ensures Handshakes(Deliver(h, f, except, floor, sub, c).channel.accepted, g) == Handshakes(c.accepted, g)
  {
    hide Deliver, Handshakes;
    TurnShape(h, f, except, floor, sub, c);
    HandshakesOne(c.accepted, Data(f), g);
    HandshakesOne(c.accepted, Data(Notice(h)), g);
    HandshakesOne(c.accepted + [Data(Notice(h))], Data(f), g);
  }

  lemma FanoutChannel(s: Hub, h: Group, f: Frame, except: ConnectionId, floor: u16, g: Group, id: ConnectionId)
    requires Registry(s) && !IsCommit(f, g)
    ensures var c, d := ChannelOf(s, id), ChannelOf(Fanout(s, h, f, except, floor).hub, id);
            && Handshakes(d.accepted, g) == Handshakes(c.accepted, g) && (c.evicted ==> d.evicted)
            && (c.closed ==> d.closed)
  {
    hide Deliver, FanoutTo, ChannelOf, Handshakes;
    if h in s.groups {
      if Has(s.groups[h], id) {
        var i := IndexOf(s.groups[h], id);
        TurnAt(s, h, |s.groups[h]|, i, f, except, floor);
        TurnShape(h, f, except, floor, s.groups[h][i], ChannelOf(s, id));
        TurnAddsNoSeq(h, f, except, floor, s.groups[h][i], ChannelOf(s, id), g);
      } else {
        Bystander(s, h, |s.groups[h]|, id, f, except, floor);
      }
    }
  }

  lemma FanoutUnmoved(s: Hub, h: Group, f: Frame, except: ConnectionId, floor: u16, g: Group, id: ConnectionId)
    requires Registry(s) && !IsCommit(f, g) && (f.Handshake? ==> h != g)
    ensures Unmoved(s, Fanout(s, h, f, except, floor).hub, g, id)
  {
    hide Deliver, FanoutTo, ChannelOf, Handshakes;
    FanoutChannel(s, h, f, except, floor, g, id);
    var r := Fanout(s, h, f, except, floor).hub;
    if h == g && g in s.groups {
      FanoutKeepsIds(s, g, |s.groups[g]|, f, except, floor);
      HoldsBySameIds(s, r, g, id);
      if Holds(s, g, id) {
        var i := IndexOf(s.groups[g], id);
        TurnAt(s, g, |s.groups[g]|, i, f, except, floor);
        TurnKeepsHold(g, f, except, floor, s.groups[g][i], ChannelOf(s, id));
      }
    }
  }

  lemma FanoutTurn(s: Hub, g: Group, f: Frame, except: ConnectionId, floor: u16, id: ConnectionId)
    requires Registry(s) && Holds(s, g, id)
    ensures var r := Fanout(s, g, f, except, floor).hub;
            var t := Deliver(g, f, except, floor, Entry(s, g, id), ChannelOf(s, id));
            Holds(r, g, id) && Entry(r, g, id) == t.sub && ChannelOf(r, id) == t.channel
  {
    hide Deliver, FanoutTo, ChannelOf;
    var r := Fanout(s, g, f, except, floor).hub;
    var i := IndexOf(s.groups[g], id);
    FanoutKeepsIds(s, g, |s.groups[g]|, f, except, floor);
    HoldsBySameIds(s, r, g, id);
    TurnAt(s, g, |s.groups[g]|, i, f, except, floor);
  }

  /** A commit of the watched group reaches the hold, the queue, or ends the connection. */
  lemma CommitTurn(g: Group, f: Frame, except: ConnectionId, floor: u16, sub: Subscriber, c: Channel)
    requires IsCommit(f, g) && except != sub.id && floor <= sub.version
    ensures var t := Deliver(g, f, except, floor, sub, c);
            && t.sub.version == sub.version
            && (sub.held.Some? ==>
                  && t.channel.accepted == c.accepted && t.sub.held.Some?
                  && (c.evicted ==> t.channel.evicted)
                  && (t.channel.evicted || t.sub.held.value == sub.held.value + [f]))
            && (sub.held.None? ==>
                  && t.sub.held.None?
                  && (Lost(c) ==> Lost(t.channel))
                  && (Lost(t.channel) || Handshakes(t.channel.accepted, g) == Handshakes(c.accepted, g) + [f]))
  {
    hide Answer, TryQueue, Handshakes;
    AnswerMeans(c, f);
    AnswerMeans(c, Notice(g));
    AnswerMeans(TryQueue(c, Notice(g)), f);
    HandshakesOne(c.accepted, Data(f), g);
    HandshakesOne(c.accepted, Data(Notice(g)), g);
    HandshakesOne(c.accepted + [Data(Notice(g))], Data(f), g);
  }

  lemma HeldOne(held: seq<Frame>, f: Frame, g: Group)
    requires AllCommits(held, g) && IsCommit(f, g)
    ensures AllCommits(held + [f], g)
  {
  }

  /** A turn that passes the subscriber over leaves it and its queue alone. */
  lemma PassedOver(s: Hub, g: Group, id: ConnectionId, f: Frame, except: ConnectionId, floor: u16)
    requires Registry(s) && Holds(s, g, id) && (except == id || Entry(s, g, id).version < floor)
    ensures Unmoved(s, Fanout(s, g, f, except, floor).hub, g, id)
  {
    hide Fanout, ChannelOf, Handshakes, Answer, TryQueue;
    FanoutTurn(s, g, f, except, floor, id);
  }

  lemma CommitWatched(s: Hub, w: Watch, g: Group, id: ConnectionId, f: Frame, except: ConnectionId, floor: u16)
    requires Registry(s) && Watched(s, w, g, id) && IsCommit(f, g) && w.Reached(except, floor, id)
    ensures Watched(Fanout(s, g, f, except, floor).hub, Observe(w, s, FannedOut(g, f, except, floor), g, id), g, id)
  {
    hide Deliver, Fanout, ChannelOf, Handshakes, Kept;
    FanoutTurn(s, g, f, except, floor, id);
    CommitTurn(g, f, except, floor, Entry(s, g, id), ChannelOf(s, id));
    if w.phase.Replaying? {
      if !ChannelOf(s, id).evicted { HeldOne(Entry(s, g, id).held.value, f, g); }
    } else {
      assert Delivered(w.(live := w.live + [f])) == Delivered(w) + [f];
    }
  }

  lemma CommitBeforeJoining(s: Hub, g: Group, id: ConnectionId, f: Frame, except: ConnectionId, floor: u16)
    requires Registry(s) && !Holds(s, g, id)
    ensures var r := Fanout(s, g, f, except, floor).hub; !Holds(r, g, id) && ChannelOf(r, id) == ChannelOf(s, id)
  {
    hide FanoutTo, ChannelOf;
    if g in s.groups {
      Bystander(s, g, |s.groups[g]|, id, f, except, floor);
      FanoutKeepsIds(s, g, |s.groups[g]|, f, except, floor);
      HoldsBySameIds(s, Fanout(s, g, f, except, floor).hub, g, id);
    }
  }

  /**
   * Fanout skips nobody. A durable frame is queued behind the notice owed, or it is not queued, and then the subscriber
   * is left owing exactly when it owed already or its queue was full: a closed channel is the one loss nobody declares.
   */
  lemma FanoutReachesEveryone(s: Hub, g: Group, f: Frame, except: ConnectionId, floor: u16, id: ConnectionId)
    requires Registry(s) && Holds(s, g, id) && id != except && floor <= Entry(s, g, id).version
    requires !Ephemeral(f) && !f.Handshake?
    ensures Holds(Fanout(s, g, f, except, floor).hub, g, id)
    ensures var r := Fanout(s, g, f, except, floor).hub;
            var was, now, c, d := Entry(s, g, id), Entry(r, g, id), ChannelOf(s, id), ChannelOf(r, id);
            || (!now.owed && d.accepted == c.accepted + (if was.owed then [Data(Notice(g))] else []) + [Data(f)])
            || (&& (d.accepted == c.accepted || d.accepted == c.accepted + [Data(Notice(g))])
                && (now.owed <==> was.owed || Answer(c, f).Full?)
                && (!now.owed ==> d.closed))
  {
    hide Fanout, TryQueue, ChannelOf, HeldPermits, Permits;
    FanoutTurn(s, g, f, except, floor, id);
    AnswerMeans(ChannelOf(s, id), f);
    AnswerMeans(ChannelOf(s, id), Notice(g));
    AnswerMeans(TryQueue(ChannelOf(s, id), Notice(g)), f);
  }

  /** A push that meets a channel nobody reads. */
  function ClosedLoss(g: Group): seq<Step> {
    [HubState.Subscribed(g, 1, 1, false), Shut(1), FannedOut(g, Push([]), 2, 1)]
  }

  lemma ClosedLossIsUndeclared(g: Group)
    ensures var s := After(ClosedLoss(g));
            && s.log == [ShutOut(g, 1, Push([]))] && Holds(s, g, 1) && !Entry(s, g, 1).owed
            && ChannelOf(s, 1).closed && ChannelOf(s, 1).accepted == []
  {
    var steps := ClosedLoss(g);
    ClosedLossBefore(g);
    assert steps[..3] == steps;
    AfterNext(steps, 2);
    var s := After(steps[..2]);
    hide After;
    var sub, c := Subscriber(1, 1, false, None), FRESH.(closed := true);
    FanoutUnfolds(s, g, 0, Push([]), 2, 1);
    assert c.Waiting() == [];
    assert Answer(c, Push([])).Closed?;
    assert TurnOf(s, g, 0, Push([]), 2, 1) == Turn(sub, c, Some(Gone), [ShutOut(g, 1, Push([]))]);
    TurnTouches(Fan(s, [], []), g, 0, TurnOf(s, g, 0, Push([]), 2, 1));
    EntryIs(After(steps), g, 0);
  }

  lemma ClosedLossBefore(g: Group)
    ensures var s := After(ClosedLoss(g)[..2]);
            && s.groups == map[g := [Subscriber(1, 1, false, None)]] && s.log == []
            && ChannelOf(s, 1) == FRESH.(closed := true)
  {
    AfterNext(ClosedLoss(g), 0);
    AfterNext(ClosedLoss(g), 1);
    assert [] + [Subscriber(1, 1, false, None)] == [Subscriber(1, 1, false, None)];
  }

  // ---------------------------------------------------------------------- settle

  lemma SettleAtUnmoved(s: Hub, h: Group, i: nat, g: Group, id: ConnectionId)
    requires h in s.groups && i < |s.groups[h]|
    ensures Unmoved(s, SettleAt(s, h, i), g, id)
  {
    hide Answer, Handshakes;
    var r := SettleAt(s, h, i);
    var c := ChannelOf(s, s.groups[h][i].id);
    HandshakesOne(c.accepted, Data(Notice(h)), g);
    if g in s.groups { HoldsBySameIds(s, r, g, id); }
  }

  lemma UnmovedItself(s: Hub, g: Group, id: ConnectionId)
    ensures Unmoved(s, s, g, id)
  {
  }

  lemma {:induction false} SettleToUnmoved(s: Hub, h: Group, n: nat, g: Group, id: ConnectionId)
    requires h in s.groups && n <= |s.groups[h]|
    ensures Unmoved(s, SettleTo(s, h, n), g, id)
  {
    hide Unmoved, SettleAt, SettleTo;
    if n == 0 {
      SettleZero(s, h);
      UnmovedItself(s, g, id);
    } else {
      SettleUnfolds(s, h, n - 1);
      SettleToUnmoved(s, h, n - 1, g, id);
      SettleAtUnmoved(SettleTo(s, h, n - 1), h, n - 1, g, id);
      UnmovedTwice(s, SettleTo(s, h, n - 1), SettleTo(s, h, n), g, id);
    }
  }

  lemma {:induction false} SettleUnmoved(s: Hub, order: seq<Group>, g: Group, id: ConnectionId)
    ensures Unmoved(s, Settle(s, order), g, id)
  {
    if |order| > 0 {
      hide Unmoved, SettleTo;
      SettleUnmoved(s, order[..|order| - 1], g, id);
      var q := Settle(s, order[..|order| - 1]);
      var h := order[|order| - 1];
      if h in q.groups {
        SettleToUnmoved(q, h, |q.groups[h]|, g, id);
        UnmovedTwice(s, q, Settle(s, order), g, id);
      }
    }
  }

  // --------------------------------------------------------------------- release

  /** Every hold of the connection holds its own group's commits. */
  ghost predicate Filed(s: Hub, id: ConnectionId) {
    forall h :: FiledIn(s, h, id)
  }

  predicate FiledIn(s: Hub, h: Group, id: ConnectionId) {
    Holds(s, h, id) && Entry(s, h, id).held.Some? ==> AllCommits(Entry(s, h, id).held.value, h)
  }

  lemma {:induction false} DrainKeeps(c: Channel, h: Group, id: ConnectionId, held: seq<Frame>, to: u64)
    ensures var d := DrainAll(c, h, id, held, to);
            d.channel.closed == c.closed && (c.evicted ==> d.channel.evicted) && (d.stopped ==> d.channel.evicted)
  {
    hide Answer;
    if |held| > 0 { DrainKeeps(c, h, id, held[..|held| - 1], to); }
  }

  /** What a release adds to the handshakes queued: the frames kept, all of them unless it stopped. */
  lemma DrainAdds(c: Channel, h: Group, id: ConnectionId, held: seq<Frame>, to: u64, g: Group)
    requires AllCommits(held, h)
    ensures var d := DrainAll(c, h, id, held, to);
            var before, after := Handshakes(c.accepted, g), Handshakes(d.channel.accepted, g);
            if h != g then after == before else d.stopped || after == before + Kept(held, to)
  {
    hide DrainAll, Handshakes, Kept, AllFit, Items, ReleasedAll, FirstRefused;
    DrainDelivers(c, h, id, held, to);
    KeptAreHeld(held, to, h);
    var d, kept := DrainAll(c, h, id, held, to), Kept(held, to);
    if d.stopped {
      var k :| 0 <= k < |kept| && FirstRefused(c, kept, k) && d.channel == Queue(c, Items(kept[..k])).(evicted := true)
               && d.events == ReleasedAll(h, id, kept[..k]) + [Ended(h, id, kept[k])];
      HandshakesQueued(c.accepted, kept[..k], h, g);
    } else {
      HandshakesQueued(c.accepted, kept, h, g);
    }
  }

  lemma ReleaseEntries(s: Hub, h: Group, x: ConnectionId, to: u64, g: Group, id: ConnectionId)
    requires Registry(s)
    ensures var r := Release(s, h, x, to);
            && Holds(r, g, id) == Holds(s, g, id)
            && (Holds(s, g, id) ==>
                  Entry(r, g, id) == if h == g && x == id then Entry(s, g, id).(held := None) else Entry(s, g, id))
  {
    hide DrainAll;
    var r := Release(s, h, x, to);
    if g in s.groups && r != s {
      HoldsBySameIds(s, r, g, id);
    }
  }

  lemma ReleaseUnmoved(s: Hub, h: Group, x: ConnectionId, to: u64, g: Group, id: ConnectionId)
    requires Registry(s) && Filed(s, id) && (h != g || x != id)
    ensures Unmoved(s, Release(s, h, x, to), g, id)
  {
    hide DrainAll, Handshakes;
    ReleaseEntries(s, h, x, to, g, id);
    var r := Release(s, h, x, to);
    if r != s && x == id {
      assert FiledIn(s, h, id);
      var held := Entry(s, h, id).held.value;
      DrainKeeps(ChannelOf(s, id), h, id, held, to);
      DrainAdds(ChannelOf(s, id), h, id, held, to, g);
    }
  }

  lemma ReleaseWatched(s: Hub, w: Watch, g: Group, id: ConnectionId, to: u64)
    requires Registry(s) && Watched(s, w, g, id) && w.phase.Replaying?
    ensures Watched(Release(s, g, id, to), w.(phase := Following(w.phase.version, to)), g, id)
  {
    hide DrainAll, Handshakes, Kept;
    ReleaseEntries(s, g, id, to, g, id);
    var c := ChannelOf(s, id);
    var held := Entry(s, g, id).held.value;
    DrainKeeps(c, g, id, held, to);
    if !c.evicted {
      DrainAdds(c, g, id, held, to, g);
      assert w.own + (w.replayed + Kept(w.held, to) + []) == w.own + w.replayed + Kept(w.held, to);
    }
  }

  // ----------------------------------------------------------- joining and leaving

  lemma SubscribeEntries(s: Hub, h: Group, x: ConnectionId, version: u16, holding: bool, g: Group, id: ConnectionId)
    requires Registry(s)
    ensures var r := Subscribe(s, h, x, version, holding);
            if h == g && x == id && !Holds(s, g, id)
            then Holds(r, g, id)
                && Entry(r, g, id) == Subscriber(id, version, false, if holding then Some([]) else None)
            else Holds(r, g, id) == Holds(s, g, id) && (Holds(s, g, id) ==> Entry(r, g, id) == Entry(s, g, id))
    ensures Subscribe(s, h, x, version, holding).channels == s.channels
  {
    var r := Subscribe(s, h, x, version, holding);
    if h == g && r != s {
      var was, now := Subscribers(s, g), r.groups[g];
      assert forall i | 0 <= i < |was| :: now[i] == was[i];
      assert now[|was|].id == x;
    }
  }

  lemma ForgetEntries(s: Hub, x: ConnectionId, g: Group, id: ConnectionId)
    requires Registry(s)
    ensures var r := DropSubscriptions(s, x);
            && (Holds(r, g, id) <==> Holds(s, g, id) && x != id)
            && (Holds(r, g, id) ==> Entry(r, g, id) == Entry(s, g, id))
  {
    hide Without;
    var r := DropSubscriptions(s, x);
    if g in s.groups {
      var was, now := s.groups[g], Without(s.groups[g], x);
      WithoutKeeps(was, x);
      if Has(now, id) {
        var e := now[IndexOf(now, id)];
        assert e in now && e in was;
        var k :| 0 <= k < |was| && was[k] == e;
        EntryIs(s, g, k);
      }
      if Has(was, id) && x != id {
        assert was[IndexOf(was, id)] in now;
        var k :| 0 <= k < |now| && now[k] == was[IndexOf(was, id)];
        assert Has(now, id);
      }
    }
  }

  // --------------------------------------------------------------------- the steps

  lemma TurnFiles(g: Group, f: Frame, except: ConnectionId, floor: u16, sub: Subscriber, c: Channel)
    requires sub.held.Some? ==> AllCommits(sub.held.value, g)
    requires IsCommit(f, g)
    ensures var t := Deliver(g, f, except, floor, sub, c); t.sub.held.Some? ==> AllCommits(t.sub.held.value, g)
  {
    hide Answer, TryQueue;
  }

  lemma FanoutFiled(s: Hub, h: Group, f: Frame, except: ConnectionId, floor: u16, g: Group, id: ConnectionId)
    requires Registry(s) && FiledIn(s, g, id) && (f.Handshake? ==> f.group == h)
    ensures FiledIn(Fanout(s, h, f, except, floor).hub, g, id)
  {
    hide Deliver, Fanout, ChannelOf;
    if h == g && f.Handshake? {
      if Holds(s, g, id) {
        FanoutTurn(s, g, f, except, floor, id);
        TurnFiles(g, f, except, floor, Entry(s, g, id), ChannelOf(s, id));
      } else {
        CommitBeforeJoining(s, g, id, f, except, floor);
      }
    } else {
      FanoutUnmoved(s, h, f, except, floor, g, id);
    }
  }

  lemma StepFiled(s: Hub, step: Step, id: ConnectionId)
    requires Registry(s) && Filed(s, id) && Addressed(step)
    ensures Filed(Next(s, step), id)
  {
    hide Next, Addressed, Registry;
    forall h ensures FiledIn(Next(s, step), h, id) {
      assert FiledIn(s, h, id);
      StepFiledIn(s, step, h, id);
    }
  }

  lemma StepFiledIn(s: Hub, step: Step, h: Group, id: ConnectionId)
    requires Registry(s) && FiledIn(s, h, id) && Addressed(step)
    ensures FiledIn(Next(s, step), h, id)
  {
    hide Fanout, Release, Settle, Subscribe, DropSubscriptions, DropIdentity, Answer, HasSlot, Registry;
    var r := Next(s, step);
    match step
    case FannedOut(k, f, except, floor) => FanoutFiled(s, k, f, except, floor, h, id);
    case ReleasedHold(k, x, to) => ReleaseEntries(s, k, x, to, h, id);
    case SettledDebts(order) => SettleUnmoved(s, order, h, id);
    case Subscribed(k, x, version, holding) => SubscribeEntries(s, k, x, version, holding, h, id);
    case Forgotten(x) => ForgetEntries(s, x, h, id);
    case Unlisted(x) => UnlistTouchesPrincipals(s, x); SameGroups(s, r, h, id);
    case _ => SameGroups(s, r, h, id);
  }

  lemma SameGroups(s: Hub, r: Hub, g: Group, id: ConnectionId)
    requires r.groups == s.groups
    ensures Holds(r, g, id) == Holds(s, g, id) && (Holds(s, g, id) ==> Entry(r, g, id) == Entry(s, g, id))
  {
  }

  lemma OfferWatched(s: Hub, w: Watch, g: Group, id: ConnectionId, x: ConnectionId, c: Channel, item: Outbound,
      room: bool)
    requires Watched(s, w, g, id) && c.accepted == ChannelOf(s, x).accepted && c.closed == ChannelOf(s, x).closed
    requires (ChannelOf(s, x).evicted ==> c.evicted) && (x == id ==> !Commits(item, g))
    ensures Watched(Offer(s, x, c, item, room), w, g, id)
  {
    hide Handshakes, Watched;
    var r := Offer(s, x, c, item, room);
    SameGroups(s, r, g, id);
    HandshakesOne(c.accepted, item, g);
    UnmovedStaysWatched(s, r, w, g, id);
  }

  lemma WroteWatched(s: Hub, w: Watch, g: Group, id: ConnectionId, f: Frame)
    requires Watched(s, w, g, id) && IsCommit(f, g) && Answer(ChannelOf(s, id), f).Sent?
    ensures Watched(Offer(s, id, ChannelOf(s, id), Data(f), true), Written(w, f), g, id)
  {
    hide Handshakes, Answer, Kept;
    var r := Offer(s, id, ChannelOf(s, id), Data(f), true);
    SameGroups(s, r, g, id);
    HandshakesOne(ChannelOf(s, id).accepted, Data(f), g);
    if w.phase.Following? { assert Delivered(Written(w, f)) == Delivered(w) + [f]; }
  }

  lemma ChannelStepUnmoved(s: Hub, x: ConnectionId, c: Channel, g: Group, id: ConnectionId)
    requires c.accepted == ChannelOf(s, x).accepted
    requires (ChannelOf(s, x).evicted ==> c.evicted) && (ChannelOf(s, x).closed ==> c.closed)
    ensures Unmoved(s, WithChannel(s, x, c), g, id)
  {
    hide Handshakes;
    SameGroups(s, WithChannel(s, x, c), g, id);
  }

  lemma EntriesStay(s: Hub, r: Hub, w: Watch, g: Group, id: ConnectionId)
    requires Watched(s, w, g, id) && r.channels == s.channels
    requires Holds(r, g, id) == Holds(s, g, id) && (Holds(s, g, id) ==> Entry(r, g, id) == Entry(s, g, id))
    ensures Watched(r, w, g, id)
  {
    hide Handshakes;
  }

  lemma JoinWatched(s: Hub, w: Watch, g: Group, id: ConnectionId, version: u16, holding: bool)
    requires Registry(s) && Watched(s, w, g, id)
    ensures Watched(Subscribe(s, g, id, version, holding),
                    Observe(w, s, HubState.Subscribed(g, id, version, holding), g, id), g, id)
  {
    hide Handshakes, Subscribe;
    SubscribeEntries(s, g, id, version, holding, g, id);
  }

  lemma ForgetWatched(s: Hub, w: Watch, x: ConnectionId, g: Group, id: ConnectionId)
    requires Registry(s) && Watched(s, w, g, id)
    ensures var r := DropSubscriptions(s, x);
            Watched(r, if x == id && !w.phase.Before? then w.(phase := Left) else w, g, id)
  {
    hide Handshakes, Without;
    ForgetEntries(s, x, g, id);
    if x != id { EntriesStay(s, DropSubscriptions(s, x), w, g, id); }
  }

  lemma FanoutWatched(s: Hub, w: Watch, h: Group, f: Frame, except: ConnectionId, floor: u16, g: Group,
      id: ConnectionId)
    requires Registry(s) && Watched(s, w, g, id) && Addressed(FannedOut(h, f, except, floor))
    ensures Watched(Fanout(s, h, f, except, floor).hub, Observe(w, s, FannedOut(h, f, except, floor), g, id), g, id)
  {
    hide Fanout;
    var r := Fanout(s, h, f, except, floor).hub;
    if h != g || !f.Handshake? {
      hide Watched;
      FanoutUnmoved(s, h, f, except, floor, g, id);
      UnmovedStaysWatched(s, r, w, g, id);
    } else if w.Reached(except, floor, id) {
      hide Watched;
      CommitWatched(s, w, g, id, f, except, floor);
    } else if w.phase.Before? {
      hide Handshakes;
      CommitBeforeJoining(s, g, id, f, except, floor);
    } else if !w.phase.Left? {
      hide Handshakes, Unmoved;
      PassedOver(s, g, id, f, except, floor);
      UnmovedStaysWatched(s, r, w, g, id);
    }
  }

  lemma ReleaseStepWatched(s: Hub, w: Watch, h: Group, x: ConnectionId, to: u64, g: Group, id: ConnectionId)
    requires Registry(s) && Filed(s, id) && Watched(s, w, g, id)
    ensures Watched(Release(s, h, x, to), Observe(w, s, ReleasedHold(h, x, to), g, id), g, id)
  {
    if h == g && x == id && w.phase.Replaying? {
      ReleaseWatched(s, w, g, id, to);
    } else if h == g && x == id {
      hide Handshakes, DrainAll;
    } else {
      hide Watched, Release;
      ReleaseUnmoved(s, h, x, to, g, id);
      UnmovedStaysWatched(s, Release(s, h, x, to), w, g, id);
    }
  }

  lemma WroteStepWatched(s: Hub, w: Watch, x: ConnectionId, f: Frame, g: Group, id: ConnectionId)
    requires Watched(s, w, g, id)
    ensures Watched(Next(s, Wrote(x, f)), Observe(w, s, Wrote(x, f), g, id), g, id)
  {
    hide Watched, Answer;
    var sent := Answer(ChannelOf(s, x), f).Sent?;
    if x == id && IsCommit(f, g) {
      if sent {
        WroteWatched(s, w, g, id, f);
      } else {
        ChannelStepUnmoved(s, x, ChannelOf(s, x), g, id);
        UnmovedStaysWatched(s, Next(s, Wrote(x, f)), w, g, id);
      }
    } else {
      OfferWatched(s, w, g, id, x, ChannelOf(s, x), Data(f), sent);
    }
  }

  lemma StepWatched(s: Hub, w: Watch, step: Step, g: Group, id: ConnectionId)
    requires Registry(s) && Filed(s, id) && Watched(s, w, g, id) && Addressed(step)
    ensures Watched(Next(s, step), Observe(w, s, step, g, id), g, id)
  {
    hide Watched, Fanout, Release, Settle, Subscribe, DropSubscriptions, DropIdentity, Answer, HasSlot, Registry,
         Filed, Unmoved;
    var r := Next(s, step);
    match step
    case FannedOut(h, f, except, floor) => FanoutWatched(s, w, h, f, except, floor, g, id);
    case ReleasedHold(h, x, to) => ReleaseStepWatched(s, w, h, x, to, g, id);
    case Wrote(x, f) => WroteStepWatched(s, w, x, f, g, id);
    case SettledDebts(order) => SettleUnmoved(s, order, g, id); UnmovedStaysWatched(s, r, w, g, id);
    case Subscribed(h, x, version, holding) =>
      if h == g && x == id {
        JoinWatched(s, w, g, id, version, holding);
      } else {
        SubscribeEntries(s, h, x, version, holding, g, id);
        EntriesStay(s, r, w, g, id);
      }
    case Forgotten(x) => ForgetWatched(s, w, x, g, id);
    case Unlisted(x) => UnlistTouchesPrincipals(s, x); SameGroups(s, r, g, id); EntriesStay(s, r, w, g, id);
    case Identified(_, _) => SameGroups(s, r, g, id); EntriesStay(s, r, w, g, id);
    case PrincipalTaken(_) => SameGroups(s, r, g, id); EntriesStay(s, r, w, g, id);
    case Revoked(x) => OfferWatched(s, w, g, id, x, ChannelOf(s, x).(evicted := true), Close, HasSlot(ChannelOf(s, x)));
    case Pinged(x) => OfferWatched(s, w, g, id, x, ChannelOf(s, x), Ping, HasSlot(ChannelOf(s, x)));
    case Took(x) => ChannelStepUnmoved(s, x, Take(ChannelOf(s, x)), g, id); UnmovedStaysWatched(s, r, w, g, id);
    case Reserved(x, n) =>
      ChannelStepUnmoved(s, x, ChannelOf(s, x).(reserved := n), g, id);
      UnmovedStaysWatched(s, r, w, g, id);
    case Shut(x) =>
      ChannelStepUnmoved(s, x, ChannelOf(s, x).(closed := true), g, id);
      UnmovedStaysWatched(s, r, w, g, id);
  }

  /** Over every run, what the watched queue accepted is what the watch saw, unless the connection is lost. */
  lemma {:induction false} RunWatched(steps: seq<Step>, g: Group, id: ConnectionId)
    requires AllAddressed(steps)
    ensures Filed(After(steps), id) && Watched(After(steps), WatchOver(steps, g, id), g, id)
  {
    if |steps| > 0 {
      hide Next, Observe, Addressed, Filed, Watched;
      var front, step := steps[..|steps| - 1], steps[|steps| - 1];
      RunWatched(front, g, id);
      RegistryAlways(front);
      StepFiled(After(front), step, id);
      StepWatched(After(front), WatchOver(front, g, id), step, g, id);
    }
  }

  // ------------------------------------------------------------- what it promises

  /** While the hold lasts, the subscriber has been queued what its session queued and nothing live. */
  lemma NothingLiveDuringReplay(steps: seq<Step>, g: Group, id: ConnectionId)
    requires AllAddressed(steps) && WatchOver(steps, g, id).phase.Replaying?
    ensures var w := WatchOver(steps, g, id); Handshakes(ChannelOf(After(steps), id).accepted, g) == w.own + w.replayed
  {
    RunWatched(steps, g, id);
  }

  lemma HandshakesSent(steps: seq<Step>, g: Group, id: ConnectionId)
    requires AllAddressed(steps) && WatchOver(steps, g, id).phase.Following?
    requires !Lost(ChannelOf(After(steps), id))
    ensures Handshakes(ChannelOf(After(steps), id).accepted, g) == Delivered(WatchOver(steps, g, id))
  {
    hide After, Handshakes, WatchOver, Delivered;
    RunWatched(steps, g, id);
  }

  /**
   * In every run, a subscriber that is still registered, not evicted and not closed was queued what its session
   * replayed, then the records of what was fanned out meanwhile, then everything since. If the replay sent each seq
   * below its end, that is every handshake once and in order exactly when each one held from there on came behind all
   * those between and those since go on from the highest, each one next.
   */
  lemma HandshakesOnceInOrder(steps: seq<Step>, g: Group, id: ConnectionId)
    requires AllAddressed(steps) && WatchOver(steps, g, id).phase.Following?
    requires !Lost(ChannelOf(After(steps), id))
    ensures var w := WatchOver(steps, g, id);
            var to, sent := w.phase.to, w.replayed + Kept(w.held, w.phase.to) + w.live;
            && Handshakes(ChannelOf(After(steps), id).accepted, g) == w.own + sent
            && (Numbers(w.replayed) == Range(0, to) ==>
                  var n, held, live := Numbers(sent), Numbers(w.held), Numbers(w.live);
                  var top := Top(held, to);
                  && (n == Range(0, |n|) <==> Covers(held, to) && live == Range(top, top + |live|))
                  && (n == Range(0, |n|) ==> Above(|n|, held) && Above(|n|, live)))
  {
    hide After, Handshakes, WatchOver, Kept, Numbers, Covers, Top, Range, Above, Records;
    HandshakesSent(steps, g, id);
    var w := WatchOver(steps, g, id);
    SentNumbers(w);
    OnceInOrder(w.phase.to, Numbers(w.held), Numbers(w.live));
  }

  lemma SentNumbers(w: Watch)
    requires w.phase.Following?
    ensures Numbers(w.replayed + Kept(w.held, w.phase.to) + w.live)
            == Numbers(w.replayed) + Records(Numbers(w.held), w.phase.to) + Numbers(w.live)
  {
    hide Kept, Numbers, Records;
    NumbersJoin(w.replayed + Kept(w.held, w.phase.to), w.live);
    NumbersJoin(w.replayed, Kept(w.held, w.phase.to));
    KeptNumbers(w.held, w.phase.to);
  }

  /**
   * With the group fanned out in seq order, from `from` at registration to `at` at release to `next` now, that is when
   * the replay ended no lower than the one and no higher than the other.
   */
  lemma HandshakesInOrder(steps: seq<Step>, g: Group, id: ConnectionId, from: nat, at: nat, next: nat)
    requires AllAddressed(steps) && WatchOver(steps, g, id).phase.Following?
    requires !Lost(ChannelOf(After(steps), id)) && from <= at <= next
    requires var w := WatchOver(steps, g, id);
             && w.own == [] && Numbers(w.replayed) == Range(0, w.phase.to)
             && Numbers(w.held) == Range(from, at) && Numbers(w.live) == Range(at, next)
    ensures var sent := Numbers(Handshakes(ChannelOf(After(steps), id).accepted, g));
            var to := WatchOver(steps, g, id).phase.to;
            && sent == Range(0, to) + Range(Max(to, from), at) + Range(at, next)
            && (sent == Range(0, next) <==> from <= to <= at)
  {
    hide After, Handshakes, WatchOver, Kept, Numbers, Records, Range;
    HandshakesSent(steps, g, id);
    var w := WatchOver(steps, g, id);
    SentNumbers(w);
    assert [] + (w.replayed + Kept(w.held, w.phase.to) + w.live) == w.replayed + Kept(w.held, w.phase.to) + w.live;
    InOrder(from, w.phase.to, at, next);
  }

  // ---------------------------------------------------------------------- light runs

  lemma AfterNext(steps: seq<Step>, k: nat)
    requires k < |steps|
    ensures After(steps[..k + 1]) == Next(After(steps[..k]), steps[k])
    ensures After(steps[..0]) == EMPTY
  {
    assert steps[..k + 1][..k] == steps[..k];
  }

  predicate LightFrame(f: Frame, g: Group) { IsCommit(f, g) && f.message == [] }

  /** Empty handshakes of one group, and one connection's hold on it. */
  predicate LightStep(step: Step, g: Group, id: ConnectionId) {
    match step
    case Subscribed(_, _, _, _) => true
    case FannedOut(h, f, _, _) => h == g && LightFrame(f, g)
    case Wrote(x, f) => x == id && LightFrame(f, g)
    case ReleasedHold(h, x, _) => h == g && x == id
    case _ => false
  }

  predicate LightChannel(c: Channel, n: nat, g: Group) {
    && !Lost(c) && c.reserved == 0 && c.taken == 0 && |c.accepted| <= n
    && forall i | 0 <= i < |c.accepted| :: c.accepted[i].Data? && LightFrame(c.accepted[i].frame, g)
  }

  predicate LightHold(held: seq<Frame>, g: Group) {
    forall i | 0 <= i < |held| :: LightFrame(held[i], g)
  }

  /** At most `n` handshakes wait or are held. */
  predicate Light(s: Hub, g: Group, id: ConnectionId, n: nat) {
    var held: seq<Frame> := if Holds(s, g, id) && Entry(s, g, id).held.Some? then Entry(s, g, id).held.value else [];
    && |held| <= n && LightHold(held, g) && LightChannel(ChannelOf(s, id), n - |held|, g)
    && (Holds(s, g, id) ==> !Entry(s, g, id).owed)
  }

  lemma {:induction false} LightPermits(items: seq<Outbound>, g: Group)
    requires forall i | 0 <= i < |items| :: items[i].Data? && LightFrame(items[i].frame, g)
    ensures HeldPermits(items) == |items| * QUEUE_OVERHEAD
  {
    if |items| > 0 { LightPermits(items[1..], g); }
  }

  lemma LightHasRoom(c: Channel, n: nat, f: Frame, g: Group)
    requires LightChannel(c, n, g) && LightFrame(f, g) && n < SEND_QUEUE_BOUND
    ensures Answer(c, f).Sent? && LightChannel(TryQueue(c, f), n + 1, g)
  {
    LightPermits(c.accepted, g);
    assert c.Waiting() == c.accepted;
  }

  lemma {:induction false} LightDrain(c: Channel, n: nat, g: Group, id: ConnectionId, held: seq<Frame>, to: u64)
    requires LightHold(held, g) && LightChannel(c, n, g) && n + |held| <= SEND_QUEUE_BOUND
    ensures !DrainAll(c, g, id, held, to).stopped && LightChannel(DrainAll(c, g, id, held, to).channel, n + |held|, g)
  {
    if |held| > 0 {
      hide Answer, TryQueue;
      var front := held[..|held| - 1];
      LightDrain(c, n, g, id, front, to);
      LightHasRoom(DrainAll(c, g, id, front, to).channel, n + |front|, held[|held| - 1], g);
    }
  }

  lemma LightTurn(s: Hub, g: Group, id: ConnectionId, n: nat, f: Frame, except: ConnectionId, floor: u16)
    requires Registry(s) && Light(s, g, id, n) && n < MAX_HELD_HANDSHAKES && LightFrame(f, g)
    ensures Light(Fanout(s, g, f, except, floor).hub, g, id, n + 1)
  {
    hide Fanout, Answer, TryQueue, ChannelOf;
    if Holds(s, g, id) {
      FanoutTurn(s, g, f, except, floor, id);
      var sub, c := Entry(s, g, id), ChannelOf(s, id);
      if sub.held.None? { LightHasRoom(c, n, f, g); }
    } else {
      CommitBeforeJoining(s, g, id, f, except, floor);
    }
  }

  lemma LightNext(s: Hub, g: Group, id: ConnectionId, n: nat, step: Step)
    requires Registry(s) && Light(s, g, id, n) && n < MAX_HELD_HANDSHAKES && LightStep(step, g, id)
    ensures Light(Next(s, step), g, id, n + 1)
  {
    match step
    case FannedOut(h, f, except, floor) => hide Fanout; LightTurn(s, g, id, n, f, except, floor);
    case Subscribed(h, x, version, holding) => hide Subscribe; SubscribeEntries(s, h, x, version, holding, g, id);
    case Wrote(x, f) =>
      hide Answer;
      SameGroups(s, Next(s, step), g, id);
      LightHasRoom(ChannelOf(s, id), n, f, g);
    case ReleasedHold(h, x, to) => hide Release; LightRelease(s, g, id, n, to);
  }

  lemma LightRelease(s: Hub, g: Group, id: ConnectionId, n: nat, to: u64)
    requires Registry(s) && Light(s, g, id, n) && n < MAX_HELD_HANDSHAKES
    ensures Light(Release(s, g, id, to), g, id, n + 1)
  {
    hide DrainAll;
    ReleaseEntries(s, g, id, to, g, id);
    if Holds(s, g, id) && Entry(s, g, id).held.Some? {
      var held := Entry(s, g, id).held.value;
      LightDrain(ChannelOf(s, id), n - |held|, g, id, held, to);
    }
  }

  /** A short run of empty handshakes finds room for all of them. */
  lemma {:induction false} LightRun(steps: seq<Step>, g: Group, id: ConnectionId)
    requires |steps| <= MAX_HELD_HANDSHAKES && forall i | 0 <= i < |steps| :: LightStep(steps[i], g, id)
    ensures Light(After(steps), g, id, |steps|)
  {
    if |steps| > 0 {
      hide Next, Light, LightStep;
      var front := steps[..|steps| - 1];
      LightRun(front, g, id);
      RegistryAlways(front);
      LightNext(After(front), g, id, |front|, steps[|steps| - 1]);
    }
  }

  lemma LightSends(steps: seq<Step>, g: Group, id: ConnectionId)
    requires |steps| <= MAX_HELD_HANDSHAKES && forall i | 0 <= i < |steps| :: LightStep(steps[i], g, id)
    requires WatchOver(steps, g, id).phase.Following?
    ensures AllAddressed(steps) && !Lost(ChannelOf(After(steps), id))
    ensures Handshakes(ChannelOf(After(steps), id).accepted, g) == Delivered(WatchOver(steps, g, id))
  {
    hide After, Handshakes, WatchOver;
    LightRun(steps, g, id);
    HandshakesSent(steps, g, id);
  }

  /** A run of four steps, watched. */
  lemma FourWatched(steps: seq<Step>, g: Group, id: ConnectionId)
    requires |steps| == 4
    ensures var first := Observe(UNWATCHED, EMPTY, steps[0], g, id);
            var second := Observe(first, After(steps[..1]), steps[1], g, id);
            var third := Observe(second, After(steps[..2]), steps[2], g, id);
            WatchOver(steps, g, id) == Observe(third, After(steps[..3]), steps[3], g, id)
  {
    hide Observe;
    assert steps[..3][..2] == steps[..2] && steps[..2][..1] == steps[..1] && steps[..1][..0] == [];
    assert WatchOver([], g, id) == UNWATCHED && After([]) == EMPTY;
    assert WatchOver(steps[..1], g, id) == Observe(UNWATCHED, EMPTY, steps[0], g, id);
    hide After;
    assert WatchOver(steps[..2], g, id) == Observe(WatchOver(steps[..1], g, id), After(steps[..1]), steps[1], g, id);
    assert WatchOver(steps[..3], g, id) == Observe(WatchOver(steps[..2], g, id), After(steps[..2]), steps[2], g, id);
  }

  // ------------------------------------------------- three runs that are not in order

  function Empty(g: Group, n: u64): Frame { Handshake(g, n, []) }

  /** The handshake is stored, and replayed, before its own fanout takes the lock. */
  function ReplayAhead(g: Group): seq<Step> {
    [HubState.Subscribed(g, 1, 1, true), Wrote(1, Empty(g, 0)), ReleasedHold(g, 1, 1), FannedOut(g, Empty(g, 0), 2, 1)]
  }

  /** Two publishers store in one order and take the lock in the other, while a replay of nothing runs. */
  function Inverted(g: Group): seq<Step> {
    [HubState.Subscribed(g, 1, 1, true), FannedOut(g, Empty(g, 1), 3, 1), FannedOut(g, Empty(g, 0), 2, 1),
     ReleasedHold(g, 1, 0)]
  }

  /** A publisher resends what it stored, and it is fanned out again under the seq it had. */
  function Resent(g: Group): seq<Step> {
    [HubState.Subscribed(g, 1, 1, true), ReleasedHold(g, 1, 0), FannedOut(g, Empty(g, 0), 2, 1),
     FannedOut(g, Empty(g, 0), 2, 1)]
  }

  lemma ReplayAheadWatched(g: Group)
    ensures WatchOver(ReplayAhead(g), g, 1) == Watch(Following(1, 1), [], [Empty(g, 0)], [], [Empty(g, 0)])
  {
    var steps := ReplayAhead(g);
    LightRun(steps[..1], g, 1);
    hide After, Answer, WatchOver, LightChannel;
    LightHasRoom(ChannelOf(After(steps[..1]), 1), 1, Empty(g, 0), g);
    FourWatched(steps, g, 1);
  }

  /** A replay that runs ahead of the fanout sends the handshake twice. */
  lemma ReplayAheadRepeats(g: Group)
    ensures var steps := ReplayAhead(g);
            && AllAddressed(steps) && !Lost(ChannelOf(After(steps), 1))
            && WatchOver(steps, g, 1) == Watch(Following(1, 1), [], [Empty(g, 0)], [], [Empty(g, 0)])
            && Handshakes(ChannelOf(After(steps), 1).accepted, g) == [Empty(g, 0), Empty(g, 0)]
  {
    hide After, WatchOver, Handshakes;
    ReplayAheadWatched(g);
    LightSends(ReplayAhead(g), g, 1);
  }

  lemma InvertedWatched(g: Group)
    ensures WatchOver(Inverted(g), g, 1) == Watch(Following(1, 0), [], [], [Empty(g, 1), Empty(g, 0)], [])
  {
    hide WatchOver;
    FourWatched(Inverted(g), g, 1);
  }

  /** A handshake fanned out behind a higher one, both held, is never sent, and nobody is told. */
  lemma InvertedIsSkipped(g: Group)
    ensures var steps := Inverted(g);
            && AllAddressed(steps) && !Lost(ChannelOf(After(steps), 1))
            && WatchOver(steps, g, 1) == Watch(Following(1, 0), [], [], [Empty(g, 1), Empty(g, 0)], [])
            && Handshakes(ChannelOf(After(steps), 1).accepted, g) == [Empty(g, 1)]
  {
    hide After, WatchOver, Handshakes;
    InvertedWatched(g);
    var a, b := Empty(g, 1), Empty(g, 0);
    assert [a, b][..1] == [a] && [a][..0] == [] && Kept([a], 0) == [a] && Kept([a, b], 0) == [a];
    hide Kept;
    LightSends(Inverted(g), g, 1);
  }

  lemma ResentWatched(g: Group)
    ensures WatchOver(Resent(g), g, 1) == Watch(Following(1, 0), [], [], [], [Empty(g, 0), Empty(g, 0)])
  {
    hide WatchOver;
    FourWatched(Resent(g), g, 1);
  }

  /** A handshake resent once the subscriber is live is sent twice. */
  lemma ResentRepeats(g: Group)
    ensures var steps := Resent(g);
            && AllAddressed(steps) && !Lost(ChannelOf(After(steps), 1))
            && WatchOver(steps, g, 1) == Watch(Following(1, 0), [], [], [], [Empty(g, 0), Empty(g, 0)])
            && Handshakes(ChannelOf(After(steps), 1).accepted, g) == [Empty(g, 0), Empty(g, 0)]
  {
    hide After, WatchOver, Handshakes;
    ResentWatched(g);
    LightSends(Resent(g), g, 1);
  }
}
