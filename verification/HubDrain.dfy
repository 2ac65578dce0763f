/** What a release makes of a hold: which of the frames held it queues, and when it ends the connection instead. */
module HubDrain {
  import opened Octets
  import opened Frames
  import opened SeqOrder
  import opened HubState
  import opened HubRoom

  // ------------------------------------------------------------- handshakes and seqs

  predicate IsCommit(f: Frame, g: Group) { f.Handshake? && f.group == g }

  predicate Commits(item: Outbound, g: Group) {
    item.Data? && item.frame.Handshake? && item.frame.group == g
  }

  /** The handshakes of one group that a queue accepted, in order. */
  function Handshakes(items: seq<Outbound>, g: Group): seq<Frame> {
    if |items| == 0 then []
    else Handshakes(items[..|items| - 1], g)
         + (if Commits(items[|items| - 1], g) then [items[|items| - 1].frame] else [])
  }

  lemma HandshakesOne(items: seq<Outbound>, item: Outbound, g: Group)
    ensures Handshakes(items + [item], g) == Handshakes(items, g) + (if Commits(item, g) then [item.frame] else [])
  {
    assert (items + [item])[..|items|] == items;
  }

  /** The seqs of handshakes. */
  function Numbers(frames: seq<Frame>): seq<u64> {
    if |frames| == 0 then []
    else Numbers(frames[..|frames| - 1])
         + (if frames[|frames| - 1].Handshake? then [frames[|frames| - 1].seqNo] else [])
  }

  lemma NumbersOne(frames: seq<Frame>, f: Frame)
    ensures Numbers(frames + [f]) == Numbers(frames) + (if f.Handshake? then [f.seqNo] else [])
  {
    assert (frames + [f])[..|frames|] == frames;
  }

  lemma {:induction false} NumbersJoin(a: seq<Frame>, b: seq<Frame>)
    ensures Numbers(a + b) == Numbers(a) + Numbers(b)
  {
    if |b| == 0 {
      assert a + b == a;
    } else {
      NumbersJoin(a, b[..|b| - 1]);
      assert (a + b)[..|a + b| - 1] == a + b[..|b| - 1];
    }
  }

  predicate AllCommits(held: seq<Frame>, g: Group) {
    forall i | 0 <= i < |held| :: held[i].Handshake? && held[i].group == g
  }

  // ------------------------------------------------------------------ the hold

  /** A held handshake at or above `to`, and above every one held ahead of it. */
  predicate IsKept(held: seq<Frame>, to: u64, i: nat)
    requires i < |held|
  {
    && held[i].Handshake? && to <= held[i].seqNo
    && (held[i].seqNo == HIGHEST || forall j | 0 <= j < i && held[j].Handshake? :: held[j].seqNo < held[i].seqNo)
  }

  /** The frames a release queues, out of those held. */
  function Kept(held: seq<Frame>, to: u64): seq<Frame> {
    if |held| == 0 then []
    else Kept(held[..|held| - 1], to) + (if IsKept(held, to, |held| - 1) then [held[|held| - 1]] else [])
  }

  function Items(frames: seq<Frame>): seq<Outbound> {
    if |frames| == 0 then [] else Items(frames[..|frames| - 1]) + [Data(frames[|frames| - 1])]
  }

  function ReleasedAll(g: Group, id: ConnectionId, frames: seq<Frame>): seq<Event> {
    if |frames| == 0 then []
    else ReleasedAll(g, id, frames[..|frames| - 1]) + [Released(g, id, frames[|frames| - 1])]
  }

  /** All of the frames fit, one behind the other. */
  predicate AllFit(c: Channel, frames: seq<Frame>) {
    forall k | 0 <= k < |frames| :: Room(Queue(c, Items(frames[..k])), frames[k])
  }

  /** The frames ahead of this one fit, and it does not. */
  predicate FirstRefused(c: Channel, frames: seq<Frame>, k: nat) {
    k < |frames| && AllFit(c, frames[..k]) && !Room(Queue(c, Items(frames[..k])), frames[k])
  }

  /** What a release does to the queue: the frames kept, as many as fit, and the flag raised if one did not. */
  ghost predicate Drains(c: Channel, g: Group, id: ConnectionId, kept: seq<Frame>, d: Drain) {
    if d.stopped then
      exists k | 0 <= k < |kept| ::
        && FirstRefused(c, kept, k) && d.channel == Queue(c, Items(kept[..k])).(evicted := true)
        && d.events == ReleasedAll(g, id, kept[..k]) + [Ended(g, id, kept[k])]
    else
      AllFit(c, kept) && d.channel == Queue(c, Items(kept)) && d.events == ReleasedAll(g, id, kept)
  }

  /** The drain would queue `n` next exactly when it would be kept. */
  predicate Wanted(next: nat, held: seq<Frame>, to: nat, n: nat) {
    next <= n <==> to <= n && (n == HIGHEST || forall j | 0 <= j < |held| && held[j].Handshake? :: held[j].seqNo < n)
  }

  lemma ItemsOne(frames: seq<Frame>, f: Frame)
    ensures Items(frames + [f]) == Items(frames) + [Data(f)]
  {
    assert (frames + [f])[..|frames|] == frames;
  }

  lemma ReleasedOne(g: Group, id: ConnectionId, frames: seq<Frame>, f: Frame)
    ensures ReleasedAll(g, id, frames + [f]) == ReleasedAll(g, id, frames) + [Released(g, id, f)]
  {
    assert (frames + [f])[..|frames|] == frames;
  }

  lemma KeptOne(held: seq<Frame>, f: Frame, to: u64)
    ensures Kept(held + [f], to) == Kept(held, to) + (if IsKept(held + [f], to, |held|) then [f] else [])
  {
    assert (held + [f])[..|held|] == held;
  }

  lemma FitOne(c: Channel, frames: seq<Frame>, f: Frame)
    requires AllFit(c, frames)
    ensures if Room(Queue(c, Items(frames)), f) then AllFit(c, frames + [f])
            else FirstRefused(c, frames + [f], |frames|)
  {
    hide Items, Room;
    var all := frames + [f];
    assert all[..|frames|] == frames;
    forall k | 0 <= k < |frames| ensures all[..k] == frames[..k] && all[k] == frames[k] { }
    if Room(Queue(c, Items(frames)), f) {
      forall k | 0 <= k < |all| ensures Room(Queue(c, Items(all[..k])), all[k]) {
        if k < |frames| { assert all[..k] == frames[..k]; }
      }
    }
  }

  lemma StillRefused(c: Channel, g: Group, id: ConnectionId, kept: seq<Frame>, d: Drain, more: seq<Frame>)
    requires d.stopped && Drains(c, g, id, kept, d)
    ensures Drains(c, g, id, kept + more, d)
  {
    hide AllFit, Items, ReleasedAll, Room;
    var k :| 0 <= k < |kept| && FirstRefused(c, kept, k) && d.channel == Queue(c, Items(kept[..k])).(evicted := true)
             && d.events == ReleasedAll(g, id, kept[..k]) + [Ended(g, id, kept[k])];
    assert (kept + more)[..k] == kept[..k];
    assert FirstRefused(c, kept + more, k);
  }

  lemma DrainsOne(c: Channel, g: Group, id: ConnectionId, kept: seq<Frame>, e: Drain, f: Frame)
    requires !e.stopped && Drains(c, g, id, kept, e) && f.Handshake? && e.next <= f.seqNo
    ensures Drains(c, g, id, kept + [f], DrainOne(e, g, id, f))
  {
    FitOne(c, kept, f);
    ItemsOne(kept, f);
    ReleasedOne(g, id, kept, f);
    TryQueueMeans(e.channel, f);
    hide Answer, TryQueue, Room, AllFit, Items, ReleasedAll;
    var d := DrainOne(e, g, id, f);
    if d.stopped {
      assert (kept + [f])[..|kept|] == kept && (kept + [f])[|kept|] == f;
      assert FirstRefused(c, kept + [f], |kept|);
    } else {
      assert c.accepted + Items(kept) + [Data(f)] == c.accepted + (Items(kept) + [Data(f)]);
    }
  }

  lemma KeptIsWanted(front: seq<Frame>, f: Frame, to: u64, next: nat)
    requires f.Handshake? ==> Wanted(next, front, to, f.seqNo)
    ensures IsKept(front + [f], to, |front|) <==> f.Handshake? && next <= f.seqNo
  {
    var held := front + [f];
    assert forall j | 0 <= j < |front| :: held[j] == front[j];
  }

  lemma WantedOne(front: seq<Frame>, f: Frame, to: u64, e: Drain, g: Group, id: ConnectionId, n: u64)
    requires !e.stopped && Wanted(e.next, front, to, n) && (f.Handshake? ==> Wanted(e.next, front, to, f.seqNo))
    ensures Wanted(DrainOne(e, g, id, f).next, front + [f], to, n)
  {
    hide Answer;
    var held := front + [f];
    assert forall j | 0 <= j < |front| :: held[j] == front[j];
    assert held[|front|] == f;
  }

  ghost predicate Drained(c: Channel, g: Group, id: ConnectionId, held: seq<Frame>, to: u64, d: Drain) {
    Drains(c, g, id, Kept(held, to), d) && (d.stopped || forall n: u64 :: Wanted(d.next, held, to, n))
  }

  lemma DrainNone(c: Channel, g: Group, id: ConnectionId, to: u64)
    ensures Drained(c, g, id, [], to, Drain(c, to, false, []))
  {
    assert c.accepted + [] == c.accepted;
  }

  lemma DrainMore(c: Channel, g: Group, id: ConnectionId, front: seq<Frame>, f: Frame, to: u64, e: Drain)
    requires Drained(c, g, id, front, to, e)
    ensures Drained(c, g, id, front + [f], to, DrainOne(e, g, id, f))
  {
    hide Drains, Kept, IsKept, Wanted, Answer;
    var d, kept := DrainOne(e, g, id, f), Kept(front, to);
    KeptOne(front, f, to);
    assert kept + [] == kept;
    if e.stopped {
      StillRefused(c, g, id, kept, e, [f]);
    } else {
      if f.Handshake? { assert Wanted(e.next, front, to, f.seqNo); }
      KeptIsWanted(front, f, to, e.next);
      if f.Handshake? && e.next <= f.seqNo { DrainsOne(c, g, id, kept, e, f); }
      forall n: u64 ensures Wanted(d.next, front + [f], to, n) { WantedOne(front, f, to, e, g, id, n); }
    }
  }

  /**
   * Draining any hold queues exactly the frames kept, as many as fit, and stops by evicting exactly if one does not.
   */
  lemma {:induction false} DrainDelivers(c: Channel, g: Group, id: ConnectionId, held: seq<Frame>, to: u64)
    ensures Drained(c, g, id, held, to, DrainAll(c, g, id, held, to))
  {
    hide Drained, DrainOne;
    if |held| == 0 {
      DrainNone(c, g, id, to);
    } else {
      var front, f := held[..|held| - 1], held[|held| - 1];
      DrainDelivers(c, g, id, front, to);
      DrainMore(c, g, id, front, f, to, DrainAll(c, g, id, front, to));
      assert held == front + [f];
    }
  }

  // ------------------------------------------------------------- what is queued of it

  predicate AllBelow(frames: seq<Frame>, n: nat) {
    forall j | 0 <= j < |frames| && frames[j].Handshake? :: frames[j].seqNo < n
  }

  lemma BelowOne(frames: seq<Frame>, f: Frame, n: nat)
    ensures AllBelow(frames + [f], n) <==> AllBelow(frames, n) && (f.Handshake? ==> f.seqNo < n)
  {
    var all := frames + [f];
    assert all[|frames|] == f && forall j | 0 <= j < |frames| :: all[j] == frames[j];
  }

  lemma {:induction false} BelowNumbers(frames: seq<Frame>, n: nat)
    ensures AllBelow(frames, n) <==> Above(n, Numbers(frames))
  {
    if |frames| > 0 {
      var front, f := frames[..|frames| - 1], frames[|frames| - 1];
      assert frames == front + [f];
      BelowNumbers(front, n);
      NumbersOne(front, f);
      hide AllBelow, Above, Numbers;
      BelowOne(front, f, n);
      if f.Handshake? {
        AboveOne(Numbers(front), f.seqNo, n);
      } else {
        assert Numbers(front) + [] == Numbers(front);
      }
    }
  }

  lemma KeptByNumber(front: seq<Frame>, f: Frame, to: u64)
    ensures IsKept(front + [f], to, |front|)
            <==> f.Handshake? && to <= f.seqNo && (f.seqNo == HIGHEST || AllBelow(front, f.seqNo))
  {
    var held := front + [f];
    assert held[|front|] == f && forall j | 0 <= j < |front| :: held[j] == front[j];
  }

  /** The seqs kept are the records of the seqs held. */
  lemma {:induction false} KeptNumbers(held: seq<Frame>, to: u64)
    ensures Numbers(Kept(held, to)) == Records(Numbers(held), to)
  {
    if |held| > 0 {
      var front, f := held[..|held| - 1], held[|held| - 1];
      KeptNumbers(front, to);
      assert held == front + [f];
      hide Kept, Numbers, Records, IsKept, AllBelow, Above;
      KeptOne(front, f, to);
      KeptByNumber(front, f, to);
      NumbersOne(front, f);
      NumbersOne(Kept(front, to), f);
      assert Numbers(Kept(front, to)) + [] == Numbers(Kept(front, to)) && Numbers(front) + [] == Numbers(front);
      assert Kept(front, to) + [] == Kept(front, to);
      if f.Handshake? {
        RecordOne(Numbers(front), f.seqNo, to);
        BelowNumbers(front, f.seqNo);
      }
    }
  }

  lemma {:induction false} HandshakesQueued(items: seq<Outbound>, frames: seq<Frame>, h: Group, g: Group)
    requires AllCommits(frames, h)
    ensures Handshakes(items + Items(frames), g) == Handshakes(items, g) + (if h == g then frames else [])
  {
    if |frames| == 0 {
      assert items + [] == items;
    } else {
      var front, f := frames[..|frames| - 1], frames[|frames| - 1];
      HandshakesQueued(items, front, h, g);
      assert items + Items(frames) == items + Items(front) + [Data(f)];
      HandshakesOne(items + Items(front), Data(f), g);
      assert frames == front + [f];
    }
  }

  lemma {:induction false} KeptAreHeld(held: seq<Frame>, to: u64, g: Group)
    requires AllCommits(held, g)
    ensures AllCommits(Kept(held, to), g)
  {
    if |held| > 0 { KeptAreHeld(held[..|held| - 1], to, g); }
  }
}
