/** Who is listed under a principal, by the run alone, and that an evict ends exactly those. */
module HubIdentity {
  import opened Octets
  import opened Frames
  import opened HubState
  import opened HubRegistry

  /** The connection identified as the principal, and neither was disconnected nor was the principal evicted since. */
  predicate Identifies(steps: seq<Step>, entry: EntryHash, id: ConnectionId) {
    |steps| > 0 &&
    var before := Identifies(steps[..|steps| - 1], entry, id);
    match steps[|steps| - 1]
    case Identified(e, x) => before || (e == entry && x == id)
    case Unlisted(x) => before && x != id
    case PrincipalTaken(e) => before && e != entry
    case _ => before
  }

  /** Identifying keeps every listing and adds exactly one. */
  lemma IdentifyAddsOne(s: Hub, e: EntryHash, id: ConnectionId, entry: EntryHash, x: ConnectionId)
    ensures Listed(Identify(s, e, id), entry, x) <==> Listed(s, entry, x) || (entry == e && x == id)
    ensures var r := Identify(s, e, id);
            r.groups == s.groups && r.channels == s.channels && r.log == s.log
  {
  }

  lemma UnlistTakesOne(s: Hub, id: ConnectionId, entry: EntryHash, x: ConnectionId)
    ensures Listed(DropIdentity(s, id), entry, x) <==> Listed(s, entry, x) && x != id
  {
    hide WithoutId;
    if entry in s.principals { WithoutIdKeeps(s.principals[entry], id); }
  }

  lemma StepListed(s: Hub, step: Step, entry: EntryHash, x: ConnectionId)
    ensures Listed(Next(s, step), entry, x)
            <==> match step
                 case Identified(e, id) => Listed(s, entry, x) || (e == entry && id == x)
                 case Unlisted(id) => Listed(s, entry, x) && id != x
                 case PrincipalTaken(e) => Listed(s, entry, x) && e != entry
                 case _ => Listed(s, entry, x)
  {
    hide FanoutTo, Settle, DrainAll, Identify, DropIdentity, Answer, HasSlot, Subscribe;
    match step
    case Identified(e, id) => IdentifyAddsOne(s, e, id, entry, x);
    case Unlisted(id) => UnlistTakesOne(s, id, entry, x);
    case Subscribed(g, id, version, holding) => SubscribeKeepsListings(s, g, id, version, holding);
    case _ =>
  }

  lemma SubscribeKeepsListings(s: Hub, g: Group, id: ConnectionId, version: u16, holding: bool)
    ensures Subscribe(s, g, id, version, holding).principals == s.principals
  {
  }

  /** In every run the listings are what the run says they are. */
  lemma {:induction false} ListingsAreHistory(steps: seq<Step>, entry: EntryHash, id: ConnectionId)
    ensures Listed(After(steps), entry, id) <==> Identifies(steps, entry, id)
  {
    if |steps| > 0 {
      hide Next;
      ListingsAreHistory(steps[..|steps| - 1], entry, id);
      StepListed(After(steps[..|steps| - 1]), steps[|steps| - 1], entry, id);
    }
  }

  /**
   * An undisturbed evict after any run ends every connection that identified as the principal and is not gone since:
   * its sender is flagged and no group or principal names it. A connection that did not is left alone.
   */
  lemma EvictEndsTheIdentified(steps: seq<Step>, entry: EntryHash, id: ConnectionId)
    ensures var s, r := After(steps), Evict(After(steps), entry);
            if Identifies(steps, entry, id) then
              && ChannelOf(r, id).evicted
              && (forall g, x :: HubRegistry.Subscribed(r, g, x) ==> x.id != id) && (forall e :: !Listed(r, e, id))
            else
              && ChannelOf(r, id) == ChannelOf(s, id)
              && (forall g, x: Subscriber | x.id == id ::
                    HubRegistry.Subscribed(r, g, x) <==> HubRegistry.Subscribed(s, g, x))
              && (forall e | e != entry :: Listed(r, e, id) <==> Listed(s, e, id))
  {
    hide After, Evict, HubRegistry.Subscribed;
    var s := After(steps);
    ListingsAreHistory(steps, entry, id);
    EvictEnds(s, entry);
    forall g, x ensures HubRegistry.Subscribed(TakePrincipal(s, entry), g, x) == HubRegistry.Subscribed(s, g, x) {
      TakeKeepsGroups(s, entry, g, x);
    }
  }

  lemma TakeKeepsGroups(s: Hub, entry: EntryHash, g: Group, x: Subscriber)
    ensures HubRegistry.Subscribed(TakePrincipal(s, entry), g, x) == HubRegistry.Subscribed(s, g, x)
  {
  }
}
