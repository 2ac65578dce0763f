/** A connection's deadlines, and the loop that asks them what to do next. Times and durations are milliseconds. */
module Deadline {
  import opened Octets

  const LIVENESS_PROBE_WINDOW: nat := 10_000

  datatype Expiry = Handshake | Idle

  datatype Next = Wait(left: nat) | Probe(window: nat) | Expired(expiry: Expiry)

  datatype Clock = Clock(
    handshake: nat, idle: nat, probe: nat, openedAt: nat, lastSeen: nat, probedAt: Option<nat>, authenticated: bool)

  function FromParts(handshake: nat, idle: nat, now: nat): Clock {
    Clock(handshake, idle, if idle < LIVENESS_PROBE_WINDOW then idle else LIVENESS_PROBE_WINDOW, now, now, None, false)
  }

  function Authenticated(c: Clock, now: nat): Clock {
    if c.authenticated then c else c.(authenticated := true, lastSeen := now, probedAt := None)
  }

  function SawMessage(c: Clock, now: nat): Clock { c.(lastSeen := now, probedAt := None) }

  function Probed(c: Clock, now: nat): Clock { c.(probedAt := Some(now)) }

  function SaturatingSub(a: nat, b: nat): nat { if a < b then 0 else a - b }

  function Remaining(since: nat, window: nat, now: nat): Option<nat> {
    var left := SaturatingSub(window, SaturatingSub(now, since));
    if left == 0 then None else Some(left)
  }

  function Due(c: Clock, now: nat): Next {
    if !c.authenticated then
      match Remaining(c.openedAt, c.handshake, now)
      case None => Expired(Handshake)
      case Some(left) => Wait(left)
    else if c.probedAt.Some? then
      match Remaining(c.probedAt.value, c.probe, now)
      case None => Expired(Idle)
      case Some(left) => Wait(left)
    else
      match Remaining(c.lastSeen, c.idle, now)
      case None => Probe(c.probe)
      case Some(left) => Wait(left)
  }

  /** The struct the connection loop owns. */
  class Deadlines {
    var handshake: nat
    var idle: nat
    var probe: nat
    var openedAt: nat
    var lastSeen: nat
    var probedAt: Option<nat>
    var isAuthenticated: bool

    function State(): Clock
      reads this
    {
      Clock(handshake, idle, probe, openedAt, lastSeen, probedAt, isAuthenticated)
    }

    constructor (handshake: nat, idle: nat, now: nat)
      ensures State() == FromParts(handshake, idle, now)
    {
      this.handshake, this.idle := handshake, idle;
      probe := if LIVENESS_PROBE_WINDOW < idle then LIVENESS_PROBE_WINDOW else idle;
      openedAt, lastSeen, probedAt, isAuthenticated := now, now, None, false;
    }

    method Authenticate(now: nat)
      modifies this
      ensures State() == Authenticated(old(State()), now)
    {
      if isAuthenticated { return; }
      isAuthenticated := true;
      lastSeen := now;
      probedAt := None;
    }

    method Saw(now: nat)
      modifies this
      ensures State() == SawMessage(old(State()), now)
    {
      lastSeen := now;
      probedAt := None;
    }

    method RecordProbe(now: nat)
      modifies this
      ensures State() == Probed(old(State()), now)
    {
      probedAt := Some(now);
    }

    /** One turn of the loop: ask, and record the probe if one is due. */
    method Ask(now: nat) returns (next: Next)
      modifies this
      ensures next == Due(old(State()), now)
      ensures State() == if next.Probe? then Probed(old(State()), now) else old(State())
    {
      next := Due(State(), now);
      if next.Probe? { RecordProbe(now); }
    }
  }

  // ---------------------------------------------------------------------- the loop

  /**
   * A turn: the loop asks, or a message comes and is handled until `done`. The session may be authenticated by then.
   */
  datatype Turn = Asked(at: nat) | Heard(at: nat, done: nat, authenticates: bool)

  /** `due` is when the loop has to have come round again, and `free` when it last finished with a message. */
  datatype Loop = Loop(clock: Clock, now: nat, due: nat, free: nat, waiting: bool, ended: Option<Expiry>)

  function Begin(handshake: nat, idle: nat, now: nat): Loop {
    Loop(FromParts(handshake, idle, now), now, now, now, false, None)
  }

  /** Time does not go back, a wait is not overslept, and a message is taken only while waiting. */
  predicate Punctual(l: Loop, turn: Turn) {
    && l.ended.None? && l.now <= turn.at <= l.due
    && (turn.Heard? ==> l.waiting && turn.at <= turn.done)
  }

  function Take(l: Loop, turn: Turn): Loop {
    match turn
    case Asked(t) =>
      (match Due(l.clock, t)
       case Wait(left) => l.(now := t, due := t + left, waiting := true)
       case Probe(window) => l.(clock := Probed(l.clock, t), now := t, due := t + window, waiting := true)
       case Expired(e) => l.(now := t, due := t, waiting := false, ended := Some(e)))
    case Heard(t, done, authenticates) =>
      var c := SawMessage(l.clock, t);
      Loop(if authenticates then Authenticated(c, done) else c, done, done, done, false, None)
  }

  function Play(l: Loop, turns: seq<Turn>): Loop {
    if |turns| == 0 then l else Take(Play(l, turns[..|turns| - 1]), turns[|turns| - 1])
  }

  predicate AllPunctual(l: Loop, turns: seq<Turn>) {
    |turns| == 0 ||
    (AllPunctual(l, turns[..|turns| - 1]) && Punctual(Play(l, turns[..|turns| - 1]), turns[|turns| - 1]))
  }

  /** No message takes longer than this to handle. */
  predicate HandledWithin(longest: nat, turns: seq<Turn>) {
    forall i | 0 <= i < |turns| :: turns[i].Heard? ==> turns[i].done <= turns[i].at + longest
  }

  // ------------------------------------------------------------------ the promises

  /** A wait is never for no time; a probe is, exactly when the idle interval is nothing. */
  lemma WaitsAreLong(handshake: nat, idle: nat, openedAt: nat, turns: seq<Turn>, now: nat)
    ensures var c := Play(Begin(handshake, idle, openedAt), turns).clock;
            var n := Due(c, now);
            && (n.Wait? ==> n.left > 0)
            && (n.Probe? ==> (n.window == 0 <==> idle == 0))
  {
    SettingsStay(handshake, idle, openedAt, turns);
  }

  lemma {:induction false} SettingsStay(handshake: nat, idle: nat, openedAt: nat, turns: seq<Turn>)
    ensures var c, d := Play(Begin(handshake, idle, openedAt), turns).clock, FromParts(handshake, idle, openedAt);
            c.handshake == d.handshake && c.idle == d.idle && c.probe == d.probe && c.openedAt == d.openedAt
  {
    if |turns| > 0 { SettingsStay(handshake, idle, openedAt, turns[..|turns| - 1]); }
  }

  function Later(a: nat, b: nat): nat { if a < b then b else a }

  /** Where a punctual loop stands against its deadlines. */
  predicate OnTime(l: Loop) {
    var c := l.clock;
    && c.openedAt <= c.lastSeen <= l.free <= l.now <= l.due
    && (l.ended.None? && !l.waiting ==> l.free == l.now == l.due && c.probedAt.None?)
    && (if !c.authenticated then
          && c.probedAt.None? && l.ended != Some(Idle)
          && (l.waiting ==> l.ended.None? && l.due == c.openedAt + c.handshake)
          && (l.ended.Some? ==> l.now == Later(c.openedAt + c.handshake, l.free))
        else
          && l.ended != Some(Handshake)
          && (c.probedAt.None? ==> l.ended.None? && (l.waiting ==> l.due == c.lastSeen + c.idle))
          && (c.probedAt.Some? ==>
                && c.probedAt.value == Later(c.lastSeen + c.idle, l.free) <= l.now
                && (l.waiting ==> l.ended.None? && l.due == c.probedAt.value + c.probe)
                && (l.ended.Some? ==> l.now == c.probedAt.value + c.probe)))
  }

  /** How far the handling of one message can have carried the loop. */
  predicate Prompt(l: Loop, longest: nat) {
    && l.free <= l.clock.lastSeen + longest
    && (!l.clock.authenticated ==> l.free <= l.clock.openedAt + l.clock.handshake + longest)
  }

  lemma AskIsOnTime(l: Loop, t: nat)
    requires OnTime(l) && Punctual(l, Asked(t))
    ensures OnTime(Take(l, Asked(t)))
  {
    hide Remaining;
    var c := l.clock;
    LeftOver(c.openedAt, c.handshake, t);
    LeftOver(c.lastSeen, c.idle, t);
    if c.probedAt.Some? { LeftOver(c.probedAt.value, c.probe, t); }
  }

  lemma LeftOver(since: nat, window: nat, now: nat)
    requires since <= now
    ensures Remaining(since, window, now) == if since + window <= now then None else Some(since + window - now)
  {
  }

  lemma HearIsOnTime(l: Loop, turn: Turn)
    requires OnTime(l) && turn.Heard? && Punctual(l, turn)
    ensures OnTime(Take(l, turn))
  {
  }

  lemma TakeIsPrompt(l: Loop, turn: Turn, longest: nat)
    requires OnTime(l) && Punctual(l, turn) && Prompt(l, longest)
    requires turn.Heard? ==> turn.done <= turn.at + longest
    ensures Prompt(Take(l, turn), longest)
  {
  }

  lemma {:induction false} PlayIsOnTime(handshake: nat, idle: nat, openedAt: nat, turns: seq<Turn>, longest: nat)
    requires AllPunctual(Begin(handshake, idle, openedAt), turns)
    ensures OnTime(Play(Begin(handshake, idle, openedAt), turns))
    ensures HandledWithin(longest, turns) ==> Prompt(Play(Begin(handshake, idle, openedAt), turns), longest)
  {
    if |turns| > 0 {
      hide OnTime, Prompt, Punctual, Take;
      var front, last := turns[..|turns| - 1], turns[|turns| - 1];
      PlayIsOnTime(handshake, idle, openedAt, front, longest);
      var l := Play(Begin(handshake, idle, openedAt), front);
      if last.Asked? { AskIsOnTime(l, last.at); } else { HearIsOnTime(l, last); }
      if HandledWithin(longest, turns) {
        assert HandledWithin(longest, front);
        TakeIsPrompt(l, last, longest);
      }
    }
  }

  /**
   * A connection that has not authenticated ends at the handshake interval, or when the message it was handling then is
   * done, and never outlives the interval by more than the longest handling.
   */
  lemma HandshakeDeadlineHolds(handshake: nat, idle: nat, openedAt: nat, turns: seq<Turn>, longest: nat)
    requires AllPunctual(Begin(handshake, idle, openedAt), turns)
    ensures var l := Play(Begin(handshake, idle, openedAt), turns);
            && (l.ended == Some(Handshake) ==>
                  !l.clock.authenticated && l.now == Later(openedAt + handshake, LastDone(openedAt, turns)))
            && (!l.clock.authenticated ==> l.now <= Later(openedAt + handshake, LastDone(openedAt, turns)))
            && (!l.clock.authenticated && HandledWithin(longest, turns) ==> l.now <= openedAt + handshake + longest)
  {
    PlayIsOnTime(handshake, idle, openedAt, turns, longest);
    SettingsStay(handshake, idle, openedAt, turns);
    LastSeenIsLastHeard(handshake, idle, openedAt, turns);
  }

  predicate HasAuthenticated(turns: seq<Turn>) {
    exists i | 0 <= i < |turns| :: turns[i].Heard? && turns[i].authenticates
  }

  /** The last evidence of the peer, by the run alone: a message, or the end of the handling that authenticated it. */
  function LastHeard(openedAt: nat, turns: seq<Turn>): nat {
    if |turns| == 0 then openedAt else
      var front, last := turns[..|turns| - 1], turns[|turns| - 1];
      if last.Asked? then LastHeard(openedAt, front)
      else if last.authenticates && !HasAuthenticated(front) then last.done
      else last.at
  }

  /** When the last message was done with, by the run alone. */
  function LastDone(openedAt: nat, turns: seq<Turn>): nat {
    if |turns| == 0 then openedAt
    else if turns[|turns| - 1].Heard? then turns[|turns| - 1].done
    else LastDone(openedAt, turns[..|turns| - 1])
  }

  lemma {:induction false} LastSeenIsLastHeard(handshake: nat, idle: nat, openedAt: nat, turns: seq<Turn>)
    ensures var l := Play(Begin(handshake, idle, openedAt), turns);
            && l.clock.lastSeen == LastHeard(openedAt, turns) && l.free == LastDone(openedAt, turns)
            && (l.clock.authenticated <==> HasAuthenticated(turns))
  {
    if |turns| > 0 {
      var front, last := turns[..|turns| - 1], turns[|turns| - 1];
      LastSeenIsLastHeard(handshake, idle, openedAt, front);
      assert turns == front + [last];
      assert HasAuthenticated(turns) <==> HasAuthenticated(front) || (last.Heard? && last.authenticates) by {
        if HasAuthenticated(front) {
          var i :| 0 <= i < |front| && front[i].Heard? && front[i].authenticates;
          assert turns[i] == front[i];
        }
        assert turns[|front|] == last;
      }
    }
  }

  /**
   * An authenticated connection is probed after a full idle interval of silence, or when the message it was handling
   * then is done, ends exactly one silent probe window later, and does not outlive that.
   */
  lemma IdleDeadlineHolds(handshake: nat, idle: nat, openedAt: nat, turns: seq<Turn>, longest: nat)
    requires AllPunctual(Begin(handshake, idle, openedAt), turns)
    ensures var l := Play(Begin(handshake, idle, openedAt), turns);
            var heard := LastHeard(openedAt, turns);
            var probe := if idle < LIVENESS_PROBE_WINDOW then idle else LIVENESS_PROBE_WINDOW;
            var silent := Later(heard + idle, LastDone(openedAt, turns));
            && (l.clock.authenticated ==> l.now <= silent + probe)
            && (l.clock.authenticated && HandledWithin(longest, turns)
                ==> l.now <= heard + Later(idle, longest) + probe)
            && (l.ended == Some(Idle) ==>
                  l.clock.authenticated && l.clock.probedAt == Some(silent) && l.now == silent + probe)
  {
    PlayIsOnTime(handshake, idle, openedAt, turns, longest);
    SettingsStay(handshake, idle, openedAt, turns);
    LastSeenIsLastHeard(handshake, idle, openedAt, turns);
  }
}
