/** What each `accept` call is told, and why: over every run, and for a call with nothing else running. */
module AcceptAnswers {
  import opened Octets
  import opened SeqOrder
  import opened Accept

  // ------------------------------------------------------------------- every run

  predicate Waiting(s: Database, c: CallId, step: Step) {
    step == Advanced(c) && c in s.calls
  }

  /** The one statement that gives a call this answer, and what has to hold when it runs. */
  predicate Causes(config: Config, s: Database, step: Step, c: CallId, a: Answer) {
    match a
    case Refused(ReadOnly) => step.Started? && step.call == c && c !in s.calls && config.readOnly
    case Refused(Invalid) =>
      step.Started? && step.call == c && c !in s.calls && !config.readOnly && !config.valid(step.envelope)
    case Refused(GroupUnknown) =>
      Waiting(s, c, step) && s.calls[c].phase.Beginning? && s.calls[c].envelope.group !in s.groups
    case Refused(GroupFrozen) =>
      && Waiting(s, c, step) && s.calls[c].phase.Beginning?
      && var g := s.calls[c].envelope.group; g in s.groups && g !in s.rowLocks && s.groups[g].frozen
    case Refused(LogBudgetExhausted(limit)) =>
      && Waiting(s, c, step) && s.calls[c].phase.Inserted? && config.limit == Some(limit)
      && var e := s.calls[c].envelope; e.group in s.groups && Used(s, s.groups[e.group].workspace) + e.charge > limit
    case Refused(Backpressure) =>
      && c in s.calls
      && (|| (step == Failed(c) && !s.calls[c].phase.Answered?)
          || (step == Committed(c, false) && s.calls[c].phase.Cleared? && s.calls[c].envelope.group in s.groups))
    case Stored(n) =>
      && step == Committed(c, true) && c in s.calls
      && s.calls[c].phase == Cleared(n) && s.calls[c].envelope.group in s.groups
    case Duplicate(n, fellBack) =>
      && Waiting(s, c, step) && (s.calls[c].phase.Looking? || s.calls[c].phase.Conflicted?)
      && var k := (s.calls[c].envelope.group, s.calls[c].envelope.hash);
      if fellBack then k !in s.envelopes && s.calls[c].phase == Conflicted(n)
      else k in s.envelopes && s.envelopes[k].seqNo == n
  }

  predicate Told(s: Database, c: CallId, a: Answer) { c in s.calls && s.calls[c].phase == Answered(a) }

  predicate Concerns(step: Step, c: CallId) {
    match step
    case Started(d, _) => d == c
    case Advanced(d) => d == c
    case Committed(d, _) => d == c
    case Failed(d) => d == c
    case _ => false
  }

  /** Only the call's own entry moves, and only its phase. */
  predicate Moves(s: Database, r: Database, c: CallId) {
    c in s.calls && c in r.calls && r.calls == s.calls[c := s.calls[c].(phase := r.calls[c].phase)]
  }

  lemma FinishMoves(s: Database, c: CallId, p: Phase)
    requires c in s.calls
    ensures Finish(s, c, p).calls == InPhase(s, c, p).calls
  {
  }

  lemma ClaimTells(s: Database, c: CallId, a: Answer, config: Config)
    requires c in s.calls && s.calls[c].phase.Beginning?
    ensures Moves(s, Claim(s, c), c) && (Told(Claim(s, c), c, a) <==> Causes(config, s, Advanced(c), c, a))
  {
    assert s.calls[c := s.calls[c]] == s.calls;
  }

  lemma InsertTells(s: Database, c: CallId)
    requires c in s.calls && s.calls[c].phase.Claimed?
    ensures Moves(s, Insert(s, c), c) && !Insert(s, c).calls[c].phase.Answered?
  {
    hide Conflicts, Finish;
    FinishMoves(s, c, Conflicted(s.calls[c].phase.mine));
    assert s.calls[c := s.calls[c]] == s.calls;
  }

  lemma CheckTells(config: Config, s: Database, c: CallId, a: Answer)
    requires c in s.calls && s.calls[c].phase.Inserted? && s.calls[c].envelope.group in s.groups
    ensures Moves(s, Check(config, s, c), c)
    ensures Told(Check(config, s, c), c, a) <==> Causes(config, s, Advanced(c), c, a)
  {
    hide Finish;
    if config.limit.Some? { FinishMoves(s, c, Answered(Refused(LogBudgetExhausted(config.limit.value)))); }
  }

  lemma ReadTells(s: Database, c: CallId, a: Answer, config: Config)
    requires c in s.calls
    ensures s.calls[c].phase.Looking? ==>
              Moves(s, Look(s, c), c) && (Told(Look(s, c), c, a) <==> Causes(config, s, Advanced(c), c, a))
    ensures s.calls[c].phase.Conflicted? ==>
              Moves(s, Reread(s, c), c) && (Told(Reread(s, c), c, a) <==> Causes(config, s, Advanced(c), c, a))
  {
  }

  lemma AdvanceTells(config: Config, s: Database, c: CallId, a: Answer)
    ensures if c in s.calls then Moves(s, Advance(config, s, c), c) else Advance(config, s, c) == s
    ensures Told(Advance(config, s, c), c, a) <==> Told(s, c, a) || Causes(config, s, Advanced(c), c, a)
  {
    hide Look, Claim, Insert, Check, Reread;
    if c in s.calls {
      assert s.calls[c := s.calls[c]] == s.calls;
      match s.calls[c].phase
      case Looking => ReadTells(s, c, a, config);
      case Beginning => ClaimTells(s, c, a, config);
      case Claimed(_) => InsertTells(s, c);
      case Inserted(_) => if s.calls[c].envelope.group in s.groups { CheckTells(config, s, c, a); }
      case Conflicted(_) => ReadTells(s, c, a, config);
      case _ =>
    }
  }

  lemma CommitTells(s: Database, c: CallId, heard: bool)
    requires c in s.calls && s.calls[c].phase.Cleared? && s.calls[c].envelope.group in s.groups
    ensures Commit(s, c, heard).calls
            == InPhase(s, c, Answered(if heard then Stored(s.calls[c].phase.mine) else Refused(Backpressure))).calls
  {
  }

  /** A call's phase is its own statements' doing. */
  lemma OthersSay(config: Config, s: Database, step: Step, c: CallId)
    requires !Concerns(step, c)
    ensures var r := Next(config, s, step);
            (c in r.calls <==> c in s.calls) && (c in s.calls ==> r.calls[c] == s.calls[c])
  {
    hide Advance, Commit, Finish, Over;
    match step
    case Advanced(d) => AdvanceTells(config, s, d, Stored(0));
    case Committed(d, heard) =>
      if d in s.calls && s.calls[d].phase.Cleared? && s.calls[d].envelope.group in s.groups {
        CommitTells(s, d, heard);
      }
    case Failed(d) => if d in s.calls { FinishMoves(s, d, Answered(Refused(Backpressure))); }
    case _ =>
  }

  lemma StepTells(config: Config, s: Database, step: Step, c: CallId, a: Answer)
    ensures Told(Next(config, s, step), c, a) <==> Told(s, c, a) || Causes(config, s, step, c, a)
  {
    if !Concerns(step, c) {
      hide Next;
      OthersSay(config, s, step, c);
    } else {
      hide Advance, Commit, Finish, Start, Moves;
      match step
      case Started(_, e) => hide Causes; StartTells(config, s, c, e, a);
      case Advanced(_) => hide Causes; AdvanceTells(config, s, c, a);
      case _ => hide Next; EndTells(config, s, step, c, a);
    }
  }

  lemma EndTells(config: Config, s: Database, step: Step, c: CallId, a: Answer)
    requires step == Failed(c) || (step.Committed? && step.call == c)
    ensures Told(Next(config, s, step), c, a) <==> Told(s, c, a) || Causes(config, s, step, c, a)
  {
    hide Commit, Finish;
    if c in s.calls {
      FinishMoves(s, c, Answered(Refused(Backpressure)));
      if step.Committed? && s.calls[c].phase.Cleared? && s.calls[c].envelope.group in s.groups {
        CommitTells(s, c, step.heard);
      }
    }
  }

  lemma StartTells(config: Config, s: Database, c: CallId, e: Envelope, a: Answer)
    ensures Told(Start(config, s, c, e), c, a) <==> Told(s, c, a) || Causes(config, s, Started(c, e), c, a)
  {
  }

  /** In every run a call has an answer exactly if the statement that gives it ran when its cause held. */
  lemma {:induction false} AnswersHaveTheirCause(config: Config, steps: seq<Step>, c: CallId, a: Answer)
    ensures Told(After(config, steps), c, a)
            <==> exists k | 0 <= k < |steps| :: CausesAt(config, steps, k, c, a)
  {
    if |steps| > 0 {
      var front, last := steps[..|steps| - 1], steps[|steps| - 1];
      AnswersHaveTheirCause(config, front, c, a);
      assert After(config, steps) == Next(config, After(config, front), last);
      StepTells(config, After(config, front), last, c, a);
      hide Causes, Told, Next, After;
      forall k | 0 <= k < |front| ensures CausesAt(config, steps, k, c, a) == CausesAt(config, front, k, c, a) {
        assert steps[..k] == front[..k];
      }
      assert CausesAt(config, steps, |front|, c, a) == Causes(config, After(config, front), last, c, a);
    }
  }

  predicate CausesAt(config: Config, steps: seq<Step>, k: nat, c: CallId, a: Answer)
    requires k < |steps|
  {
    Causes(config, After(config, steps[..k]), steps[k], c, a)
  }

  // ---------------------------------------------------------------- what gets in

  /** A call under way is of a valid envelope, on a relay that takes writes. */
  predicate Admitted(config: Config, s: Database) {
    forall c | c in s.calls && !s.calls[c].phase.Answered? :: !config.readOnly && config.valid(s.calls[c].envelope)
  }

  /** A charge for an envelope is its row's, and the row its call's. */
  predicate Earned(config: Config, s: Database, x: Charge) {
    x.OfEnvelope? ==>
      && !config.readOnly && config.valid(Envelope(x.group, x.hash, x.bytes))
      && x.group in s.groups && s.groups[x.group].workspace == x.workspace
      && (x.group, x.hash) in s.envelopes
      && var row := s.envelopes[(x.group, x.hash)];
      && row.seqNo == x.seqNo && row.writer in s.calls
      && s.calls[row.writer].envelope == Envelope(x.group, x.hash, x.bytes)
  }

  predicate AllEarned(config: Config, s: Database) {
    forall i | 0 <= i < |s.ledger| :: Earned(config, s, s.ledger[i])
  }

  /** No transaction holds a frozen group's row. */
  predicate FrozenIsFree(s: Database) {
    forall g | g in s.groups && s.groups[g].frozen :: g !in s.rowLocks
  }

  ghost predicate Proper(config: Config, s: Database) { Admitted(config, s) && AllEarned(config, s) && FrozenIsFree(s) }

  /** Rows stay, groups keep their workspace and calls their envelope. */
  ghost predicate Grows(s: Database, r: Database) {
    && (forall k | k in s.envelopes :: k in r.envelopes && r.envelopes[k] == s.envelopes[k])
    && (forall g | g in s.groups :: g in r.groups && r.groups[g].workspace == s.groups[g].workspace)
    && (forall c | c in s.calls :: c in r.calls && r.calls[c].envelope == s.calls[c].envelope)
  }

  lemma EarnedStays(config: Config, s: Database, r: Database)
    requires AllEarned(config, s) && Grows(s, r) && s.ledger <= r.ledger
    requires forall i | |s.ledger| <= i < |r.ledger| :: Earned(config, r, r.ledger[i])
    ensures AllEarned(config, r)
  {
    forall i | 0 <= i < |r.ledger| ensures Earned(config, r, r.ledger[i]) {
      if i < |s.ledger| { assert Earned(config, s, s.ledger[i]); }
    }
  }

  /** A statement short of the commit: no row moves, and a lock is taken only on a group that is not frozen. */
  ghost predicate Tentative(s: Database, r: Database, c: CallId) {
    && Moves(s, r, c) && r.groups == s.groups && r.envelopes == s.envelopes && r.used == s.used && r.ledger == s.ledger
    && (s.calls[c].phase.Answered? ==> r.calls[c].phase.Answered?)
    && (forall g | g in r.rowLocks :: g in s.rowLocks || (g in s.groups && !s.groups[g].frozen))
  }

  lemma FinishIsTentative(s: Database, c: CallId, p: Phase)
    requires c in s.calls && (s.calls[c].phase.Answered? ==> p.Answered?)
    ensures Tentative(s, Finish(s, c, p), c) && Tentative(s, InPhase(s, c, p), c)
  {
  }

  lemma ClaimIsTentative(s: Database, c: CallId)
    requires c in s.calls && s.calls[c].phase.Beginning?
    ensures Tentative(s, Claim(s, c), c)
  {
    assert s.calls[c := s.calls[c]] == s.calls;
  }

  lemma InsertIsTentative(s: Database, c: CallId)
    requires c in s.calls && s.calls[c].phase.Claimed?
    ensures Tentative(s, Insert(s, c), c)
  {
    hide Conflicts, Finish;
    FinishIsTentative(s, c, Conflicted(s.calls[c].phase.mine));
    assert s.calls[c := s.calls[c]] == s.calls;
  }

  lemma AdvanceIsTentative(config: Config, s: Database, c: CallId)
    requires c in s.calls
    ensures Tentative(s, Advance(config, s, c), c)
  {
    hide Claim, Insert, Finish;
    assert s.calls[c := s.calls[c]] == s.calls;
    match s.calls[c].phase
    case Looking => FinishIsTentative(s, c, Look(s, c).calls[c].phase);
    case Beginning => ClaimIsTentative(s, c);
    case Claimed(_) => InsertIsTentative(s, c);
    case Inserted(n) =>
      FinishIsTentative(s, c, Cleared(n));
      if config.limit.Some? { FinishIsTentative(s, c, Answered(Refused(LogBudgetExhausted(config.limit.value)))); }
    case Conflicted(_) => FinishIsTentative(s, c, Reread(s, c).calls[c].phase);
    case _ =>
  }

  lemma TentativeIsProper(config: Config, s: Database, r: Database, c: CallId)
    requires Proper(config, s) && Tentative(s, r, c)
    ensures Proper(config, r)
  {
    EarnedStays(config, s, r);
  }

  lemma ClearedIsNew(config: Config, s: Database, c: CallId)
    requires Sound(config, s) && c in s.calls && s.calls[c].phase.Cleared?
    ensures (s.calls[c].envelope.group, s.calls[c].envelope.hash) !in s.envelopes
  {
    assert Truthful(config, s, c);
  }

  lemma CommitGrows(s: Database, c: CallId, heard: bool)
    requires c in s.calls && s.calls[c].phase.Cleared? && s.calls[c].envelope.group in s.groups
    requires (s.calls[c].envelope.group, s.calls[c].envelope.hash) !in s.envelopes
    ensures Grows(s, Commit(s, c, heard))
  {
    CommitTells(s, c, heard);
  }

  lemma CommitEarns(config: Config, s: Database, c: CallId, heard: bool)
    requires Sound(config, s) && Proper(config, s)
    requires c in s.calls && s.calls[c].phase.Cleared? && s.calls[c].envelope.group in s.groups
    ensures AllEarned(config, Commit(s, c, heard))
  {
    hide Sound, Grows, AllEarned;
    ClearedIsNew(config, s, c);
    CommitGrows(s, c, heard);
    CommitTells(s, c, heard);
    EarnedStays(config, s, Commit(s, c, heard));
  }

  lemma CommitIsProper(config: Config, s: Database, c: CallId, heard: bool)
    requires Sound(config, s) && Proper(config, s)
    requires c in s.calls && s.calls[c].phase.Cleared? && s.calls[c].envelope.group in s.groups
    ensures Proper(config, Commit(s, c, heard))
  {
    hide Sound, AllEarned;
    CommitTells(s, c, heard);
    CommitEarns(config, s, c, heard);
  }

  lemma StartIsProper(config: Config, s: Database, c: CallId, e: Envelope)
    requires Proper(config, s)
    ensures Proper(config, Start(config, s, c, e))
  {
    EarnedStays(config, s, Start(config, s, c, e));
    hide AllEarned;
  }

  lemma GroupStepIsProper(config: Config, s: Database, r: Database, g: Group)
    requires Proper(config, s) && r == s.(groups := r.groups) && g in r.groups
             && (r.groups[g].frozen ==> g !in s.rowLocks)
    requires r.groups == s.groups[g := r.groups[g]]
    requires g in s.groups ==> r.groups[g].workspace == s.groups[g].workspace
    ensures Proper(config, r)
  {
    EarnedStays(config, s, r);
    hide AllEarned;
  }

  lemma RowStepIsProper(config: Config, s: Database, step: Step)
    requires Proper(config, s) && (step.Started? || step.GroupAdded? || step.GroupFrozenOrNot?)
    ensures Proper(config, Next(config, s, step))
  {
    hide Proper, Start;
    match step
    case Started(c, e) => StartIsProper(config, s, c, e);
    case GroupAdded(g, _) => if g !in s.groups { GroupStepIsProper(config, s, Next(config, s, step), g); }
    case GroupFrozenOrNot(g, _) =>
      if g in s.groups && g !in s.rowLocks { GroupStepIsProper(config, s, Next(config, s, step), g); }
  }

  lemma HandshakeIsProper(config: Config, s: Database, w: Workspace, n: nat)
    requires Proper(config, s)
    ensures Proper(config, Next(config, s, HandshakeStored(w, n)))
  {
    var r := Next(config, s, HandshakeStored(w, n));
    forall i | 0 <= i < |r.ledger| ensures Earned(config, r, r.ledger[i]) {
      if i < |s.ledger| { assert Earned(config, s, s.ledger[i]) && r.ledger[i] == s.ledger[i]; }
    }
  }

  lemma StepIsProper(config: Config, s: Database, step: Step)
    requires Sound(config, s) && Proper(config, s)
    ensures Proper(config, Next(config, s, step))
  {
    hide Advance, Commit, Finish, Sound, Proper, Tentative;
    match step
    case Advanced(c) =>
      if c in s.calls {
        AdvanceIsTentative(config, s, c);
        TentativeIsProper(config, s, Advance(config, s, c), c);
      } else {
        AdvanceTells(config, s, c, Stored(0));
      }
    case Committed(c, heard) =>
      if c in s.calls && s.calls[c].phase.Cleared? && s.calls[c].envelope.group in s.groups {
        CommitIsProper(config, s, c, heard);
      }
    case Failed(c) =>
      if c in s.calls && !s.calls[c].phase.Answered? {
        FinishIsTentative(s, c, Answered(Refused(Backpressure)));
        TentativeIsProper(config, s, Finish(s, c, Answered(Refused(Backpressure))), c);
      }
    case HandshakeStored(w, n) => HandshakeIsProper(config, s, w, n);
    case _ => RowStepIsProper(config, s, step);
  }

  lemma {:induction false} ProperAlways(config: Config, steps: seq<Step>)
    ensures Proper(config, After(config, steps))
  {
    if |steps| > 0 {
      hide Proper, Next, Sound;
      ProperAlways(config, steps[..|steps| - 1]);
      SoundAlways(config, steps[..|steps| - 1]);
      StepIsProper(config, After(config, steps[..|steps| - 1]), steps[|steps| - 1]);
    }
  }

  /**
   * In every run, whatever was charged for an envelope was a valid one, on a relay that takes writes, and stands in the
   * log under the number it was charged at, written by a call that carried it.
   */
  lemma OnlyValidGetIn(config: Config, steps: seq<Step>, i: nat)
    requires i < |After(config, steps).ledger| && After(config, steps).ledger[i].OfEnvelope?
    ensures var s := After(config, steps);
            var x := s.ledger[i];
            && !config.readOnly && config.valid(Envelope(x.group, x.hash, x.bytes))
            && (x.group, x.hash) in s.envelopes
            && var row := s.envelopes[(x.group, x.hash)];
            row.seqNo == x.seqNo && row.writer in s.calls
            && s.calls[row.writer].envelope == Envelope(x.group, x.hash, x.bytes)
  {
    hide After;
    ProperAlways(config, steps);
    assert Earned(config, After(config, steps), After(config, steps).ledger[i]);
  }

  // -------------------------------------------------------------------- frozen

  predicate Thaws(step: Step, g: Group) { step == GroupFrozenOrNot(g, false) }

  predicate IsFrozen(s: Database, g: Group) { g in s.groups && s.groups[g].frozen }

  /** The group's row, its numbers and its lock are left alone. */
  ghost predicate Shut(s: Database, r: Database, g: Group) {
    && IsFrozen(s, g) && IsFrozen(r, g) && r.groups[g] == s.groups[g] && g !in r.rowLocks
    && Seqs(r.ledger, g) == Seqs(s.ledger, g)
  }

  lemma CommitElsewhere(config: Config, s: Database, c: CallId, heard: bool, g: Group)
    requires Sound(config, s) && Proper(config, s) && IsFrozen(s, g)
    requires c in s.calls && s.calls[c].phase.Cleared? && s.calls[c].envelope.group in s.groups
    ensures Shut(s, Commit(s, c, heard), g)
  {
    assert CallLocks(s, c);
    hide Sound, Seqs, Spent;
    var e := s.calls[c].envelope;
    LedgerOne(s.ledger, OfEnvelope(e.group, e.hash, s.calls[c].phase.mine, s.groups[e.group].workspace, e.charge));
  }

  lemma TentativeElsewhere(s: Database, r: Database, c: CallId, g: Group)
    requires Tentative(s, r, c) && IsFrozen(s, g) && FrozenIsFree(s)
    ensures Shut(s, r, g)
  {
  }

  lemma RowStepElsewhere(config: Config, s: Database, step: Step, g: Group)
    requires FrozenIsFree(s) && IsFrozen(s, g) && !Thaws(step, g)
    requires step.Started? || step.GroupAdded? || step.GroupFrozenOrNot? || step.HandshakeStored?
    ensures Shut(s, Next(config, s, step), g)
  {
    hide Seqs, Spent;
    if step.HandshakeStored? { LedgerOne(s.ledger, OfHandshake(step.workspace, step.bytes)); }
  }

  lemma FrozenStep(config: Config, s: Database, step: Step, g: Group)
    requires Sound(config, s) && Proper(config, s) && IsFrozen(s, g) && !Thaws(step, g)
    ensures Shut(s, Next(config, s, step), g)
  {
    hide Advance, Commit, Finish, Sound, Tentative;
    match step
    case Advanced(c) =>
      if c in s.calls {
        AdvanceIsTentative(config, s, c);
        TentativeElsewhere(s, Advance(config, s, c), c, g);
      } else {
        AdvanceTells(config, s, c, Stored(0));
      }
    case Committed(c, heard) =>
      if c in s.calls && s.calls[c].phase.Cleared? && s.calls[c].envelope.group in s.groups {
        CommitElsewhere(config, s, c, heard, g);
      }
    case Failed(c) =>
      if c in s.calls && !s.calls[c].phase.Answered? {
        FinishIsTentative(s, c, Answered(Refused(Backpressure)));
        TentativeElsewhere(s, Finish(s, c, Answered(Refused(Backpressure))), c, g);
      }
    case _ => RowStepElsewhere(config, s, step, g);
  }

  /** Nothing is stored in a group from the moment it is frozen until it is thawed, whoever was under way. */
  lemma {:induction false} FrozenStaysShut(config: Config, steps: seq<Step>, more: seq<Step>, g: Group)
    requires IsFrozen(After(config, steps), g) && forall k | 0 <= k < |more| :: !Thaws(more[k], g)
    ensures Shut(After(config, steps), After(config, steps + more), g)
  {
    hide Next, Seqs;
    if |more| == 0 {
      assert steps + more == steps;
      ProperAlways(config, steps);
    } else {
      var front := more[..|more| - 1];
      FrozenStaysShut(config, steps, front, g);
      assert (steps + more)[..|steps + more| - 1] == steps + front;
      ProperAlways(config, steps + front);
      SoundAlways(config, steps + front);
      FrozenStep(config, After(config, steps + front), more[|more| - 1], g);
    }
  }

  // ----------------------------------------------------------- nothing else running

  /** What an undisturbed call is told. The causes are asked in this order. */
  function Verdict(config: Config, s: Database, e: Envelope): Answer {
    if config.readOnly then Refused(ReadOnly)
    else if !config.valid(e) then Refused(Invalid)
    else if (e.group, e.hash) in s.envelopes then Duplicate(s.envelopes[(e.group, e.hash)].seqNo, false)
    else if e.group !in s.groups then Refused(GroupUnknown)
    else if s.groups[e.group].frozen then Refused(GroupFrozen)
    else if config.limit.Some? && Used(s, s.groups[e.group].workspace) + e.charge > config.limit.value
    then Refused(LogBudgetExhausted(config.limit.value))
    else Stored(s.groups[e.group].nextSeq)
  }

  function With(s: Database, c: CallId, e: Envelope, p: Phase): Database { s.(calls := s.calls[c := Call(e, p)]) }

  /** What an undisturbed call leaves behind: its answer, and its row and its charge if it was stored. */
  function Left(s: Database, c: CallId, e: Envelope, a: Answer): Database
    requires a.Stored? ==> e.group in s.groups
  {
    var r := With(s, c, e, Answered(a));
    if !a.Stored? then r else
      var row := s.groups[e.group];
      r.(groups := s.groups[e.group := row.(nextSeq := a.seqNo + 1)],
         envelopes := s.envelopes[(e.group, e.hash) := EnvelopeRow(a.seqNo, c)],
         used := s.used[row.workspace := Used(s, row.workspace) + e.charge],
         ledger := s.ledger + [OfEnvelope(e.group, e.hash, a.seqNo, row.workspace, e.charge)])
  }

  function Alone(config: Config, s: Database, c: CallId, e: Envelope): Database {
    var looked := Next(config, Next(config, s, Started(c, e)), Advanced(c));
    var inserted := Next(config, Next(config, looked, Advanced(c)), Advanced(c));
    Next(config, Next(config, inserted, Advanced(c)), Committed(c, true))
  }

  /** No transaction is on the rows the call needs. */
  predicate Free(s: Database, c: CallId, e: Envelope) {
    && c !in s.calls
    && (e.group in s.groups ==> e.group !in s.rowLocks && s.groups[e.group].workspace !in s.budgetLocks)
  }

  function Holding(s: Database, c: CallId, e: Envelope, p: Phase): Database
    requires e.group in s.groups
  {
    With(s, c, e, p).(rowLocks := s.rowLocks[e.group := c],
                      budgetLocks := s.budgetLocks[s.groups[e.group].workspace := c])
  }

  lemma LockReturns<K>(locks: map<K, CallId>, k: K, c: CallId)
    requires k !in locks && forall x | x in locks :: locks[x] != c
    ensures Unlocked(locks[k := c], c) == locks
  {
  }

  lemma HoldsNoLock(s: Database, c: CallId)
    requires LocksHeld(s) && c !in s.calls
    ensures forall g | g in s.rowLocks :: s.rowLocks[g] != c
    ensures forall w | w in s.budgetLocks :: s.budgetLocks[w] != c
  {
    assert forall g | g in s.rowLocks :: RowLock(s, g);
    assert forall w | w in s.budgetLocks :: BudgetLock(s, w);
  }

  lemma LocksReturn(s: Database, c: CallId, e: Envelope, p: Phase, q: Phase)
    requires LocksHeld(s) && Free(s, c, e) && e.group in s.groups
    ensures Finish(Holding(s, c, e, p), c, q) == With(s, c, e, q)
  {
    hide LocksHeld, Unlocked;
    HoldsNoLock(s, c);
    LockReturns(s.rowLocks, e.group, c);
    LockReturns(s.budgetLocks, s.groups[e.group].workspace, c);
    assert Holding(s, c, e, p).calls[c := Call(e, q)] == s.calls[c := Call(e, q)];
  }

  lemma AnswerStands(config: Config, s: Database, c: CallId, e: Envelope, a: Answer)
    ensures var r := With(s, c, e, Answered(a));
            Next(config, r, Advanced(c)) == r && Next(config, r, Committed(c, true)) == r
  {
  }

  function Locking(s: Database, c: CallId, e: Envelope, n: nat): Database {
    With(s, c, e, Claimed(n)).(rowLocks := s.rowLocks[e.group := c])
  }

  lemma ClaimAlone(config: Config, s: Database, c: CallId, e: Envelope)
    requires Free(s, c, e) && e.group in s.groups && !s.groups[e.group].frozen
    ensures Next(config, With(s, c, e, Beginning), Advanced(c)) == Locking(s, c, e, s.groups[e.group].nextSeq)
  {
    var q, n := With(s, c, e, Beginning), s.groups[e.group].nextSeq;
    assert q.calls[c := Call(e, Claimed(n))] == s.calls[c := Call(e, Claimed(n))];
  }

  lemma InsertAlone(config: Config, s: Database, c: CallId, e: Envelope)
    requires Numbered(s) && Free(s, c, e) && e.group in s.groups && (e.group, e.hash) !in s.envelopes
    ensures var n := s.groups[e.group].nextSeq;
            Next(config, Locking(s, c, e, n), Advanced(c)) == Holding(s, c, e, Inserted(n))
  {
    var n := s.groups[e.group].nextSeq;
    var q := Locking(s, c, e, n);
    assert !Conflicts(s, e, n);
    SameConflicts(s, q, e, n);
    hide Conflicts, Numbered;
    assert q.calls[c := Call(e, Inserted(n))] == s.calls[c := Call(e, Inserted(n))];
  }

  lemma SameConflicts(s: Database, r: Database, e: Envelope, n: nat)
    requires s.envelopes == r.envelopes
    ensures Conflicts(s, e, n) == Conflicts(r, e, n)
  {
  }

  lemma CommitAlone(config: Config, s: Database, c: CallId, e: Envelope)
    requires LocksHeld(s) && Free(s, c, e) && e.group in s.groups
    ensures var n := s.groups[e.group].nextSeq;
            Next(config, Holding(s, c, e, Cleared(n)), Committed(c, true)) == Left(s, c, e, Stored(n))
  {
    hide LocksHeld, Finish;
    var n := s.groups[e.group].nextSeq;
    LocksReturn(s, c, e, Cleared(n), Answered(Stored(n)));
    assert Used(Holding(s, c, e, Cleared(n)), s.groups[e.group].workspace) == Used(s, s.groups[e.group].workspace);
  }

  lemma CheckAlone(config: Config, s: Database, c: CallId, e: Envelope)
    requires LocksHeld(s) && Free(s, c, e) && e.group in s.groups
    ensures var n := s.groups[e.group].nextSeq;
            var over := config.limit.Some? && Used(s, s.groups[e.group].workspace) + e.charge > config.limit.value;
            Next(config, Holding(s, c, e, Inserted(n)), Advanced(c))
            == if over then With(s, c, e, Answered(Refused(LogBudgetExhausted(config.limit.value))))
               else Holding(s, c, e, Cleared(n))
  {
    hide LocksHeld, Finish;
    var n := s.groups[e.group].nextSeq;
    var q := Holding(s, c, e, Inserted(n));
    if config.limit.Some? {
      LocksReturn(s, c, e, Inserted(n), Answered(Refused(LogBudgetExhausted(config.limit.value))));
    }
    assert Used(q, s.groups[e.group].workspace) == Used(s, s.groups[e.group].workspace);
    assert q.calls[c := Call(e, Cleared(n))] == s.calls[c := Call(e, Cleared(n))];
  }

  lemma LookAlone(config: Config, s: Database, c: CallId, e: Envelope)
    requires c !in s.calls && !config.readOnly && config.valid(e)
    ensures Next(config, Next(config, s, Started(c, e)), Advanced(c))
            == With(s, c, e, if (e.group, e.hash) in s.envelopes
                             then Answered(Duplicate(s.envelopes[(e.group, e.hash)].seqNo, false)) else Beginning)
  {
    var q := With(s, c, e, Looking);
    assert Next(config, s, Started(c, e)) == q;
    assert forall p :: q.calls[c := Call(e, p)] == s.calls[c := Call(e, p)];
  }

  lemma ClaimRefused(config: Config, s: Database, c: CallId, e: Envelope)
    requires Free(s, c, e) && (e.group in s.groups ==> s.groups[e.group].frozen)
    ensures Next(config, With(s, c, e, Beginning), Advanced(c))
            == With(s, c, e, Answered(Refused(if e.group in s.groups then GroupFrozen else GroupUnknown)))
  {
    var q := With(s, c, e, Beginning);
    assert forall p :: q.calls[c := Call(e, p)] == s.calls[c := Call(e, p)];
  }

  /**
   * A call with nothing else on its rows is told exactly what its causes say, in their order, and leaves its row, its
   * number and its charge if it was stored and nothing if it was not.
   */
  lemma AcceptAlone(config: Config, s: Database, c: CallId, e: Envelope)
    requires Sound(config, s) && Free(s, c, e)
    ensures Alone(config, s, c, e) == Left(s, c, e, Verdict(config, s, e))
  {
    var a := Verdict(config, s, e);
    assert config.readOnly || !config.valid(e) ==> Next(config, s, Started(c, e)) == With(s, c, e, Answered(a));
    assert LocksHeld(s) && Numbered(s);
    hide Sound, Next, With, Holding, Locking, LocksHeld, Numbered;
    AnswerStands(config, s, c, e, a);
    if !config.readOnly && config.valid(e) {
      LookAlone(config, s, c, e);
      if (e.group, e.hash) !in s.envelopes {
        if e.group in s.groups && !s.groups[e.group].frozen {
          ClaimAlone(config, s, c, e);
          InsertAlone(config, s, c, e);
          CheckAlone(config, s, c, e);
          CommitAlone(config, s, c, e);
        } else {
          ClaimRefused(config, s, c, e);
        }
      }
    }
  }

  /** What the rest of the relay does to the rows: a group appears, is frozen or thawed, and a handshake is charged. */
  lemma OthersWrite(config: Config, s: Database, g: Group, frozen: bool, w: Workspace, n: nat)
    ensures g !in s.groups ==> Next(config, s, GroupAdded(g, w)) == s.(groups := s.groups[g := GroupRow(1, false, w)])
    ensures var r := Next(config, s, GroupFrozenOrNot(g, frozen));
            g in s.groups && g !in s.rowLocks ==>
              r.groups[g] == s.groups[g].(frozen := frozen) && r == s.(groups := s.groups[g := r.groups[g]])
    ensures var r := Next(config, s, HandshakeStored(w, n));
            var fits := w !in s.budgetLocks && (config.limit.Some? ==> Used(s, w) + n <= config.limit.value);
            && Used(r, w) == Used(s, w) + (if fits then n else 0)
            && (forall v | v != w :: Used(r, v) == Used(s, v))
            && r.ledger == s.ledger + (if fits then [OfHandshake(w, n)] else [])
  {
  }
}
