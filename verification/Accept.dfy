/**
 * The accept path as a protocol: any number of `accept` calls, each one statement at a time, over committed rows that
 * transactions lock. What a transaction has written and not committed lives in the call's own phase.
 */
module Accept {
  import opened Octets
  import opened SeqOrder

  // Opaque identifiers: the relay compares them and does nothing else.
  type Group = string
  type Hash = string
  type Workspace = string
  type CallId = nat

  datatype Envelope = Envelope(group: Group, hash: Hash, charge: nat)

  datatype Config = Config(readOnly: bool, limit: Option<nat>, valid: Envelope -> bool)

  datatype AcceptError = ReadOnly | Invalid | GroupUnknown | GroupFrozen | LogBudgetExhausted(limit: nat) | Backpressure

  /** `fellBack` marks a duplicate answered with the caller's own number because the row was not there. */
  datatype Answer =
    | Stored(seqNo: nat)
    | Duplicate(seqNo: nat, fellBack: bool)
    | Refused(error: AcceptError)

  datatype Phase =
    | Looking                  // about to read for a duplicate
    | Beginning                // none found; the transaction holds nothing yet
    | Claimed(mine: nat)       // the counter row is locked
    | Inserted(mine: nat)      // the envelope row is written and the budget row locked
    | Cleared(mine: nat)       // the budget allows it
    | Conflicted(mine: nat)    // the insert hit a row, and the transaction was rolled back
    | Answered(answer: Answer)

  datatype Call = Call(envelope: Envelope, phase: Phase) {
    predicate HoldsRow() { phase.Claimed? || phase.Inserted? || phase.Cleared? }
    predicate HoldsBudget() { phase.Inserted? || phase.Cleared? }
  }

  datatype GroupRow = GroupRow(nextSeq: nat, frozen: bool, workspace: Workspace)

  datatype EnvelopeRow = EnvelopeRow(seqNo: nat, writer: CallId)

  /** Committed charges, in commit order. */
  datatype Charge =
    | OfEnvelope(group: Group, hash: Hash, seqNo: nat, workspace: Workspace, bytes: nat)
    | OfHandshake(workspace: Workspace, bytes: nat)

  datatype Database = Database(
    groups: map<Group, GroupRow>, envelopes: map<(Group, Hash), EnvelopeRow>, used: map<Workspace, nat>,
    rowLocks: map<Group, CallId>, budgetLocks: map<Workspace, CallId>,
    calls: map<CallId, Call>, ledger: seq<Charge>)

  const EMPTY := Database(map[], map[], map[], map[], map[], map[], [])

  function Used(s: Database, w: Workspace): nat { if w in s.used then s.used[w] else 0 }

  predicate Over(limit: Option<nat>, used: nat) { limit.Some? && used > limit.value }

  // --------------------------------------------------------------- statements

  function InPhase(s: Database, c: CallId, p: Phase): Database
    requires c in s.calls
  {
    s.(calls := s.calls[c := s.calls[c].(phase := p)])
  }

  /** The transaction ends: its locks go, and what it wrote goes with them unless it was committed. */
  function Finish(s: Database, c: CallId, p: Phase): Database
    requires c in s.calls
  {
    InPhase(s, c, p).(rowLocks := Unlocked(s.rowLocks, c), budgetLocks := Unlocked(s.budgetLocks, c))
  }

  function Unlocked<K>(locks: map<K, CallId>, c: CallId): map<K, CallId> {
    map k | k in locks && locks[k] != c :: locks[k]
  }

  function Start(config: Config, s: Database, c: CallId, e: Envelope): Database {
    if c in s.calls then s else
      s.(calls := s.calls[c := Call(e, if config.readOnly then Answered(Refused(ReadOnly))
                                       else if !config.valid(e) then Answered(Refused(Invalid))
                                       else Looking)])
  }

  function Look(s: Database, c: CallId): Database
    requires c in s.calls && s.calls[c].phase.Looking?
  {
    var e := s.calls[c].envelope;
    if (e.group, e.hash) in s.envelopes
    then InPhase(s, c, Answered(Duplicate(s.envelopes[(e.group, e.hash)].seqNo, false)))
    else InPhase(s, c, Beginning)
  }

  /** `update ... returning`: waits for the row, then reads and locks it. */
  function Claim(s: Database, c: CallId): Database
    requires c in s.calls && s.calls[c].phase.Beginning?
  {
    var g := s.calls[c].envelope.group;
    if g !in s.groups then InPhase(s, c, Answered(Refused(GroupUnknown)))
    else if g in s.rowLocks then s
    else if s.groups[g].frozen then InPhase(s, c, Answered(Refused(GroupFrozen)))
    else InPhase(s, c, Claimed(s.groups[g].nextSeq)).(rowLocks := s.rowLocks[g := c])
  }

  /** Either unique key of the envelope table. */
  predicate Conflicts(s: Database, e: Envelope, seqNo: nat) {
    || (e.group, e.hash) in s.envelopes
    || exists k | k in s.envelopes :: k.0 == e.group && s.envelopes[k].seqNo == seqNo
  }

  /** `insert ... on conflict do nothing`, and the trigger that charges the workspace's budget row. */
  function Insert(s: Database, c: CallId): Database
    requires c in s.calls && s.calls[c].phase.Claimed?
  {
    var e, n := s.calls[c].envelope, s.calls[c].phase.mine;
    if Conflicts(s, e, n) then Finish(s, c, Conflicted(n))
    else if e.group !in s.groups || s.groups[e.group].workspace in s.budgetLocks then s
    else InPhase(s, c, Inserted(n)).(budgetLocks := s.budgetLocks[s.groups[e.group].workspace := c])
  }

  function Check(config: Config, s: Database, c: CallId): Database
    requires c in s.calls && s.calls[c].phase.Inserted? && s.calls[c].envelope.group in s.groups
  {
    var e := s.calls[c].envelope;
    if Over(config.limit, Used(s, s.groups[e.group].workspace) + e.charge)
    then Finish(s, c, Answered(Refused(LogBudgetExhausted(config.limit.value))))
    else InPhase(s, c, Cleared(s.calls[c].phase.mine))
  }

  /** The commit, whose acknowledgement may not arrive. */
  function Commit(s: Database, c: CallId, heard: bool): Database
    requires c in s.calls && s.calls[c].phase.Cleared? && s.calls[c].envelope.group in s.groups
  {
    var e, n := s.calls[c].envelope, s.calls[c].phase.mine;
    var w := s.groups[e.group].workspace;
    Finish(s, c, Answered(if heard then Stored(n) else Refused(Backpressure)))
      .(groups := s.groups[e.group := s.groups[e.group].(nextSeq := n + 1)],
        envelopes := s.envelopes[(e.group, e.hash) := EnvelopeRow(n, c)],
        used := s.used[w := Used(s, w) + e.charge],
        ledger := s.ledger + [OfEnvelope(e.group, e.hash, n, w, e.charge)])
  }

  function Reread(s: Database, c: CallId): Database
    requires c in s.calls && s.calls[c].phase.Conflicted?
  {
    var e := s.calls[c].envelope;
    if (e.group, e.hash) in s.envelopes
    then InPhase(s, c, Answered(Duplicate(s.envelopes[(e.group, e.hash)].seqNo, false)))
    else InPhase(s, c, Answered(Duplicate(s.calls[c].phase.mine, true)))
  }

  // --------------------------------------------------------------------- runs

  datatype Step =
    | Started(call: CallId, envelope: Envelope)
    | Advanced(call: CallId)                  // the call's next statement, or a wait for a lock
    | Committed(call: CallId, heard: bool)
    | Failed(call: CallId)                    // the database, the pool or the process gave up on the call
    | GroupAdded(group: Group, workspace: Workspace)
    | GroupFrozenOrNot(group: Group, frozen: bool)
    | HandshakeStored(workspace: Workspace, bytes: nat)

  function Advance(config: Config, s: Database, c: CallId): Database {
    if c !in s.calls then s else
      match s.calls[c].phase
      case Looking => Look(s, c)
      case Beginning => Claim(s, c)
      case Claimed(_) => Insert(s, c)
      case Inserted(_) => if s.calls[c].envelope.group in s.groups then Check(config, s, c) else s
      case Conflicted(_) => Reread(s, c)
      case _ => s
  }

  function Next(config: Config, s: Database, step: Step): Database {
    match step
    case Started(c, e) => Start(config, s, c, e)
    case Advanced(c) => Advance(config, s, c)
    case Committed(c, heard) =>
      if c in s.calls && s.calls[c].phase.Cleared? && s.calls[c].envelope.group in s.groups then Commit(s, c, heard)
      else s
    case Failed(c) =>
      if c in s.calls && !s.calls[c].phase.Answered? then Finish(s, c, Answered(Refused(Backpressure))) else s
    case GroupAdded(g, w) => if g in s.groups then s else s.(groups := s.groups[g := GroupRow(1, false, w)])
    case GroupFrozenOrNot(g, frozen) =>
      if g in s.groups && g !in s.rowLocks then s.(groups := s.groups[g := s.groups[g].(frozen := frozen)]) else s
    case HandshakeStored(w, n) =>
      if w in s.budgetLocks || Over(config.limit, Used(s, w) + n) then s
      else s.(used := s.used[w := Used(s, w) + n], ledger := s.ledger + [OfHandshake(w, n)])
  }

  function After(config: Config, steps: seq<Step>): Database {
    if |steps| == 0 then EMPTY else Next(config, After(config, steps[..|steps| - 1]), steps[|steps| - 1])
  }

  // ------------------------------------------------------------- the invariant

  /** A group's committed seqs, in commit order. */
  function Seqs(ledger: seq<Charge>, g: Group): seq<nat> {
    if |ledger| == 0 then [] else
      var c := ledger[|ledger| - 1];
      Seqs(ledger[..|ledger| - 1], g) + (if c.OfEnvelope? && c.group == g then [c.seqNo] else [])
  }

  function Spent(ledger: seq<Charge>, w: Workspace): nat {
    if |ledger| == 0 then 0 else
      var c := ledger[|ledger| - 1];
      Spent(ledger[..|ledger| - 1], w) + (if c.workspace == w then c.bytes else 0)
  }

  predicate RowLock(s: Database, g: Group)
    requires g in s.rowLocks
  {
    var c := s.rowLocks[g];
    c in s.calls && s.calls[c].HoldsRow() && s.calls[c].envelope.group == g
  }

  predicate BudgetLock(s: Database, w: Workspace)
    requires w in s.budgetLocks
  {
    s.budgetLocks[w] in s.calls && s.calls[s.budgetLocks[w]].HoldsBudget()
  }

  /** A call past its claim holds its group's row, whose counter has not moved; past its insert, the budget row too. */
  predicate CallLocks(s: Database, c: CallId)
    requires c in s.calls
  {
    var g := s.calls[c].envelope.group;
    && (s.calls[c].HoldsRow() ==>
          g in s.groups && g in s.rowLocks && s.rowLocks[g] == c && s.calls[c].phase.mine == s.groups[g].nextSeq)
    && (s.calls[c].HoldsBudget() ==>
          && g in s.groups && s.groups[g].workspace in s.budgetLocks && s.budgetLocks[s.groups[g].workspace] == c)
  }

  predicate LocksHeld(s: Database) {
    && (forall g | g in s.rowLocks :: RowLock(s, g))
    && (forall w | w in s.budgetLocks :: BudgetLock(s, w))
    && (forall c | c in s.calls :: CallLocks(s, c))
  }

  /** What each call has been told, or knows, about its row. */
  predicate Truthful(config: Config, s: Database, c: CallId)
    requires c in s.calls
  {
    var e := s.calls[c].envelope;
    var k := (e.group, e.hash);
    match s.calls[c].phase
    case Inserted(_) => k !in s.envelopes
    case Cleared(_) =>
      k !in s.envelopes && e.group in s.groups && !Over(config.limit, Used(s, s.groups[e.group].workspace) + e.charge)
    case Conflicted(_) => k in s.envelopes
    case Answered(Stored(n)) => k in s.envelopes && s.envelopes[k] == EnvelopeRow(n, c)
    case Answered(Duplicate(n, fellBack)) => !fellBack && k in s.envelopes && s.envelopes[k].seqNo == n
    case _ => true
  }

  predicate AllTruthful(config: Config, s: Database) {
    forall c | c in s.calls :: Truthful(config, s, c)
  }

  predicate Numbered(s: Database) {
    && (forall k | k in s.envelopes :: k.0 in s.groups && 1 <= s.envelopes[k].seqNo < s.groups[k.0].nextSeq)
    && (forall g | g in s.groups :: s.groups[g].nextSeq >= 1)
  }

  ghost predicate Counted(config: Config, s: Database) {
    && (forall g | g in s.groups :: Seqs(s.ledger, g) == Range(1, s.groups[g].nextSeq))
    && (forall g | g !in s.groups :: Seqs(s.ledger, g) == [])
    && (forall w :: Used(s, w) == Spent(s.ledger, w) && !Over(config.limit, Used(s, w)))
  }

  ghost predicate Sound(config: Config, s: Database) {
    LocksHeld(s) && AllTruthful(config, s) && Numbered(s) && Counted(config, s)
  }

  // ------------------------------------------------------------------- the steps

  lemma LedgerOne(ledger: seq<Charge>, c: Charge)
    ensures forall g ::
              Seqs(ledger + [c], g) == Seqs(ledger, g) + (if c.OfEnvelope? && c.group == g then [c.seqNo] else [])
    ensures forall w :: Spent(ledger + [c], w) == Spent(ledger, w) + (if c.workspace == w then c.bytes else 0)
  {
    assert (ledger + [c])[..|ledger|] == ledger;
  }

  /** A step that leaves the committed rows alone leaves the numbers and the sums alone. */
  lemma SameRows(config: Config, s: Database, r: Database)
    requires Numbered(s) && Counted(config, s)
    requires r.groups == s.groups && r.envelopes == s.envelopes && r.used == s.used && r.ledger == s.ledger
    ensures Numbered(r) && Counted(config, r)
  {
    hide Seqs, Spent, Range;
    forall w ensures Used(r, w) == Used(s, w) { }
  }

  /** The other calls are told what they were told. */
  lemma OthersTruthful(config: Config, s: Database, r: Database, c: CallId)
    requires AllTruthful(config, s)
    requires r.groups == s.groups && r.envelopes == s.envelopes && r.used == s.used
    requires c in r.calls && r.calls.Keys == s.calls.Keys + {c} && Truthful(config, r, c)
    requires forall d | d in s.calls && d != c :: r.calls[d] == s.calls[d]
    ensures AllTruthful(config, r)
  {
    forall d | d in r.calls ensures Truthful(config, r, d) {
      if d != c { assert Truthful(config, s, d); }
    }
  }

  /** One call changes phase and takes what the new phase holds. */
  lemma PhaseLocks(s: Database, r: Database, c: CallId)
    requires LocksHeld(s) && c in r.calls && r.calls.Keys == s.calls.Keys + {c} && r.groups == s.groups
    requires forall d | d in s.calls && d != c :: r.calls[d] == s.calls[d]
    requires c in s.calls ==> r.calls[c].envelope == s.calls[c].envelope
    requires forall g :: g in r.rowLocks && r.rowLocks[g] != c <==> g in s.rowLocks && s.rowLocks[g] != c
    requires forall g | g in r.rowLocks && g in s.rowLocks && s.rowLocks[g] != c :: r.rowLocks[g] == s.rowLocks[g]
    requires forall w :: w in r.budgetLocks && r.budgetLocks[w] != c <==> w in s.budgetLocks && s.budgetLocks[w] != c
    requires forall w | w in r.budgetLocks && w in s.budgetLocks && s.budgetLocks[w] != c ::
             r.budgetLocks[w] == s.budgetLocks[w]
    requires forall g | g in r.rowLocks && r.rowLocks[g] == c :: RowLock(r, g)
    requires forall w | w in r.budgetLocks && r.budgetLocks[w] == c :: BudgetLock(r, w)
    requires CallLocks(r, c)
    ensures LocksHeld(r)
  {
    forall g | g in r.rowLocks ensures RowLock(r, g) {
      if r.rowLocks[g] != c { assert RowLock(s, g); }
    }
    forall w | w in r.budgetLocks ensures BudgetLock(r, w) {
      if r.budgetLocks[w] != c { assert BudgetLock(s, w); }
    }
    forall d | d in r.calls ensures CallLocks(r, d) {
      if d != c { assert CallLocks(s, d); }
    }
  }

  lemma MovesOn(config: Config, s: Database, c: CallId, p: Phase)
    requires Sound(config, s) && c in s.calls && !s.calls[c].HoldsRow() && !p.Claimed? && !p.Inserted? && !p.Cleared?
    requires Truthful(config, InPhase(s, c, p), c)
    ensures Sound(config, InPhase(s, c, p))
  {
    var r := InPhase(s, c, p);
    SameRows(config, s, r);
    OthersTruthful(config, s, r, c);
    FreeOf(s, c);
    PhaseLocks(s, r, c);
  }

  /** A call that holds nothing is named by no lock. */
  lemma FreeOf(s: Database, c: CallId)
    requires LocksHeld(s) && (c in s.calls ==> !s.calls[c].HoldsRow())
    ensures forall g | g in s.rowLocks :: s.rowLocks[g] != c
    ensures forall w | w in s.budgetLocks :: s.budgetLocks[w] != c
  {
    forall g | g in s.rowLocks ensures s.rowLocks[g] != c { assert RowLock(s, g); }
    forall w | w in s.budgetLocks ensures s.budgetLocks[w] != c { assert BudgetLock(s, w); }
  }

  lemma Gives(config: Config, s: Database, c: CallId, p: Phase)
    requires Sound(config, s) && c in s.calls && !p.Claimed? && !p.Inserted? && !p.Cleared?
    requires Truthful(config, Finish(s, c, p), c)
    ensures Sound(config, Finish(s, c, p))
  {
    var r := Finish(s, c, p);
    SameRows(config, s, r);
    OthersTruthful(config, s, r, c);
    PhaseLocks(s, r, c);
  }

  lemma StartIsSound(config: Config, s: Database, c: CallId, e: Envelope)
    requires Sound(config, s)
    ensures Sound(config, Start(config, s, c, e))
  {
    var r := Start(config, s, c, e);
    if c !in s.calls {
      SameRows(config, s, r);
      OthersTruthful(config, s, r, c);
      FreeOf(s, c);
      PhaseLocks(s, r, c);
    }
  }

  lemma ClaimTakes(config: Config, s: Database, c: CallId)
    requires Sound(config, s) && c in s.calls && s.calls[c].phase.Beginning?
    requires s.calls[c].envelope.group in s.groups && s.calls[c].envelope.group !in s.rowLocks
    ensures var g := s.calls[c].envelope.group;
            Sound(config, InPhase(s, c, Claimed(s.groups[g].nextSeq)).(rowLocks := s.rowLocks[g := c]))
  {
    var g := s.calls[c].envelope.group;
    var r := InPhase(s, c, Claimed(s.groups[g].nextSeq)).(rowLocks := s.rowLocks[g := c]);
    SameRows(config, s, r);
    OthersTruthful(config, s, r, c);
    hide AllTruthful, Numbered, Counted;
    FreeOf(s, c);
    PhaseLocks(s, r, c);
  }

  lemma ClaimIsSound(config: Config, s: Database, c: CallId)
    requires Sound(config, s) && c in s.calls && s.calls[c].phase.Beginning?
    ensures Sound(config, Claim(s, c))
  {
    hide Sound;
    var g := s.calls[c].envelope.group;
    HoldsNothing(config, s, c);
    if g !in s.groups {
      MovesOn(config, s, c, Answered(Refused(GroupUnknown)));
    } else if g !in s.rowLocks {
      if s.groups[g].frozen {
        MovesOn(config, s, c, Answered(Refused(GroupFrozen)));
      } else {
        ClaimTakes(config, s, c);
      }
    }
  }

  lemma HoldsNothing(config: Config, s: Database, c: CallId)
    requires Sound(config, s) && c in s.calls && s.calls[c].phase.Beginning?
    ensures !s.calls[c].HoldsRow()
  {
  }

  /** The number a claim took is nobody's: only the content address can conflict. */
  lemma ConflictIsDuplicate(config: Config, s: Database, c: CallId)
    requires Sound(config, s) && c in s.calls && s.calls[c].phase.Claimed?
    ensures var e := s.calls[c].envelope; Conflicts(s, e, s.calls[c].phase.mine) <==> (e.group, e.hash) in s.envelopes
  {
    assert CallLocks(s, c);
  }

  lemma InsertIsSound(config: Config, s: Database, c: CallId)
    requires Sound(config, s) && c in s.calls && s.calls[c].phase.Claimed?
    ensures Sound(config, Insert(s, c))
  {
    var e, n, r := s.calls[c].envelope, s.calls[c].phase.mine, Insert(s, c);
    ConflictIsDuplicate(config, s, c);
    if Conflicts(s, e, n) {
      Gives(config, s, c, Conflicted(n));
    } else if r != s {
      hide Conflicts;
      InsertTakes(config, s, c);
    }
  }

  lemma InsertTakes(config: Config, s: Database, c: CallId)
    requires Sound(config, s) && c in s.calls && s.calls[c].phase.Claimed?
    requires var e := s.calls[c].envelope;
             (e.group, e.hash) !in s.envelopes && e.group in s.groups && s.groups[e.group].workspace !in s.budgetLocks
    ensures var w := s.groups[s.calls[c].envelope.group].workspace;
            Sound(config, InPhase(s, c, Inserted(s.calls[c].phase.mine)).(budgetLocks := s.budgetLocks[w := c]))
  {
    var w := s.groups[s.calls[c].envelope.group].workspace;
    var r := InPhase(s, c, Inserted(s.calls[c].phase.mine)).(budgetLocks := s.budgetLocks[w := c]);
    assert CallLocks(s, c);
    SameRows(config, s, r);
    OthersTruthful(config, s, r, c);
    OnlyItsLocks(s, c);
    PhaseLocks(s, r, c);
  }

  lemma OnlyItsLocks(s: Database, c: CallId)
    requires LocksHeld(s) && c in s.calls
    ensures forall g | g in s.rowLocks && s.rowLocks[g] == c :: g == s.calls[c].envelope.group
    ensures !s.calls[c].HoldsBudget() ==> forall w | w in s.budgetLocks :: s.budgetLocks[w] != c
  {
    forall g | g in s.rowLocks && s.rowLocks[g] == c ensures g == s.calls[c].envelope.group { assert RowLock(s, g); }
    if !s.calls[c].HoldsBudget() {
      forall w | w in s.budgetLocks ensures s.budgetLocks[w] != c { assert BudgetLock(s, w); }
    }
  }

  lemma CheckIsSound(config: Config, s: Database, c: CallId)
    requires Sound(config, s) && c in s.calls && s.calls[c].phase.Inserted? && s.calls[c].envelope.group in s.groups
    ensures Sound(config, Check(config, s, c))
  {
    var e, r := s.calls[c].envelope, Check(config, s, c);
    assert Truthful(config, s, c) && CallLocks(s, c);
    if Over(config.limit, Used(s, s.groups[e.group].workspace) + e.charge) {
      Gives(config, s, c, Answered(Refused(LogBudgetExhausted(config.limit.value))));
    } else {
      hide Numbered, Counted;
      SameRows(config, s, r);
      OthersTruthful(config, s, r, c);
      ClearedLocks(s, c);
    }
  }

  lemma ClearedLocks(s: Database, c: CallId)
    requires LocksHeld(s) && c in s.calls && s.calls[c].phase.Inserted?
    ensures LocksHeld(InPhase(s, c, Cleared(s.calls[c].phase.mine)))
  {
    var r := InPhase(s, c, Cleared(s.calls[c].phase.mine));
    assert CallLocks(s, c);
    forall g | g in r.rowLocks && r.rowLocks[g] == c ensures RowLock(r, g) { assert RowLock(s, g); }
    forall w | w in r.budgetLocks && r.budgetLocks[w] == c ensures BudgetLock(r, w) { assert BudgetLock(s, w); }
    PhaseLocks(s, r, c);
  }

  lemma CommitLocks(config: Config, s: Database, c: CallId, heard: bool)
    requires Sound(config, s) && c in s.calls && s.calls[c].phase.Cleared? && s.calls[c].envelope.group in s.groups
    ensures LocksHeld(Commit(s, c, heard))
  {
    hide AllTruthful, Numbered, Counted;
    var r, g := Commit(s, c, heard), s.calls[c].envelope.group;
    assert CallLocks(s, c);
    forall h | h in r.rowLocks ensures RowLock(r, h) { assert RowLock(s, h); }
    forall w | w in r.budgetLocks ensures BudgetLock(r, w) { assert BudgetLock(s, w); }
    forall d | d in r.calls ensures CallLocks(r, d) { assert CallLocks(s, d); }
  }

  /** Two transactions past their inserts are in different groups and different workspaces. */
  lemma HoldersDiffer(s: Database, c: CallId, d: CallId)
    requires LocksHeld(s) && c in s.calls && d in s.calls && c != d
    requires s.calls[c].HoldsBudget() && s.calls[d].HoldsBudget()
    ensures var g, h := s.calls[c].envelope.group, s.calls[d].envelope.group;
            g != h && g in s.groups && h in s.groups && s.groups[g].workspace != s.groups[h].workspace
  {
    assert CallLocks(s, c) && CallLocks(s, d);
  }

  /** A call stays truthful while rows are only added, none of them its own, and its workspace is not charged. */
  lemma StaysTruthful(config: Config, s: Database, r: Database, d: CallId)
    requires d in s.calls && Truthful(config, s, d) && d in r.calls && r.calls[d] == s.calls[d]
    requires forall k | k in s.envelopes :: k in r.envelopes && r.envelopes[k] == s.envelopes[k]
    requires s.calls[d].HoldsBudget() ==>
               var e := s.calls[d].envelope;
               && (e.group, e.hash) !in r.envelopes && e.group in s.groups && e.group in r.groups
               && Used(r, r.groups[e.group].workspace) == Used(s, s.groups[e.group].workspace)
    ensures Truthful(config, r, d)
  {
  }

  lemma CommitWrites(s: Database, c: CallId, heard: bool)
    requires c in s.calls && s.calls[c].phase.Cleared? && s.calls[c].envelope.group in s.groups
    ensures var r, e, n := Commit(s, c, heard), s.calls[c].envelope, s.calls[c].phase.mine;
            var w := s.groups[e.group].workspace;
            && r.calls.Keys == s.calls.Keys && (forall d | d in s.calls && d != c :: r.calls[d] == s.calls[d])
            && r.groups == s.groups[e.group := s.groups[e.group].(nextSeq := n + 1)]
            && r.envelopes == s.envelopes[(e.group, e.hash) := EnvelopeRow(n, c)]
            && r.used == s.used[w := Used(s, w) + e.charge]
            && r.ledger == s.ledger + [OfEnvelope(e.group, e.hash, n, w, e.charge)]
  {
  }

  lemma CommitTruthful(config: Config, s: Database, c: CallId, heard: bool, d: CallId)
    requires LocksHeld(s) && AllTruthful(config, s)
    requires c in s.calls && s.calls[c].phase.Cleared? && s.calls[c].envelope.group in s.groups && d in s.calls
             && d != c
    ensures Truthful(config, Commit(s, c, heard), d)
  {
    if s.calls[d].HoldsBudget() { HoldersDiffer(s, c, d); }
    TruthOf(config, s, c);
    TruthOf(config, s, d);
    CommitWrites(s, c, heard);
    hide LocksHeld, AllTruthful, Truthful, Commit;
    StaysTruthful(config, s, Commit(s, c, heard), d);
  }

  lemma TruthOf(config: Config, s: Database, d: CallId)
    requires AllTruthful(config, s) && d in s.calls
    ensures Truthful(config, s, d)
    ensures s.calls[d].HoldsBudget() ==> (s.calls[d].envelope.group, s.calls[d].envelope.hash) !in s.envelopes
  {
  }

  lemma CommitNumbers(config: Config, s: Database, c: CallId, heard: bool)
    requires Sound(config, s) && c in s.calls && s.calls[c].phase.Cleared? && s.calls[c].envelope.group in s.groups
    ensures Numbered(Commit(s, c, heard))
  {
    assert CallLocks(s, c);
  }

  lemma CountsGrow(config: Config, s: Database, r: Database, e: Envelope, n: nat, w: Workspace)
    requires Counted(config, s) && e.group in s.groups && s.groups[e.group].nextSeq == n >= 1
    requires !Over(config.limit, Used(s, w) + e.charge)
    requires r.groups.Keys == s.groups.Keys && r.groups[e.group].nextSeq == n + 1
    requires forall g | g in s.groups && g != e.group :: r.groups[g] == s.groups[g]
    requires r.used == s.used[w := Used(s, w) + e.charge]
    requires r.ledger == s.ledger + [OfEnvelope(e.group, e.hash, n, w, e.charge)]
    ensures Counted(config, r)
  {
    RangeGrows(1, n);
    hide Seqs, Spent, Range, Over;
    LedgerOne(s.ledger, OfEnvelope(e.group, e.hash, n, w, e.charge));
  }

  lemma CommitCounts(config: Config, s: Database, c: CallId, heard: bool)
    requires Sound(config, s) && c in s.calls && s.calls[c].phase.Cleared? && s.calls[c].envelope.group in s.groups
    ensures Counted(config, Commit(s, c, heard))
  {
    assert CallLocks(s, c) && Truthful(config, s, c);
    hide LocksHeld, AllTruthful, Counted;
    CommitWrites(s, c, heard);
    var e := s.calls[c].envelope;
    CountsGrow(config, s, Commit(s, c, heard), e, s.calls[c].phase.mine, s.groups[e.group].workspace);
  }

  lemma CommitIsSound(config: Config, s: Database, c: CallId, heard: bool)
    requires Sound(config, s) && c in s.calls && s.calls[c].phase.Cleared? && s.calls[c].envelope.group in s.groups
    ensures Sound(config, Commit(s, c, heard))
  {
    CommitLocks(config, s, c, heard);
    CommitNumbers(config, s, c, heard);
    CommitCounts(config, s, c, heard);
    var r := Commit(s, c, heard);
    forall d | d in r.calls ensures Truthful(config, r, d) {
      if d != c { CommitTruthful(config, s, c, heard, d); }
    }
  }

  lemma GroupAddedIsSound(config: Config, s: Database, g: Group, w: Workspace)
    requires Sound(config, s) && g !in s.groups
    ensures Sound(config, s.(groups := s.groups[g := GroupRow(1, false, w)]))
  {
    var r := s.(groups := s.groups[g := GroupRow(1, false, w)]);
    hide Seqs, Spent;
    SameLocks(s, r);
    forall d | d in s.calls ensures Truthful(config, r, d) { assert Truthful(config, s, d); }
    forall v ensures Used(r, v) == Used(s, v) { }
  }

  lemma FreezeIsSound(config: Config, s: Database, g: Group, frozen: bool)
    requires Sound(config, s) && g in s.groups && g !in s.rowLocks
    ensures Sound(config, s.(groups := s.groups[g := s.groups[g].(frozen := frozen)]))
  {
    var r := s.(groups := s.groups[g := s.groups[g].(frozen := frozen)]);
    hide Seqs, Spent;
    SameLocks(s, r);
    forall d | d in s.calls ensures Truthful(config, r, d) { assert Truthful(config, s, d); }
    forall v ensures Used(r, v) == Used(s, v) { }
  }

  lemma HandshakeCounts(config: Config, s: Database, r: Database, w: Workspace, n: nat)
    requires Counted(config, s) && !Over(config.limit, Used(s, w) + n) && r.groups == s.groups
    requires r.used == s.used[w := Used(s, w) + n] && r.ledger == s.ledger + [OfHandshake(w, n)]
    ensures Counted(config, r)
  {
    LedgerOne(s.ledger, OfHandshake(w, n));
    hide Seqs, Spent, Range;
  }

  lemma HandshakeIsSound(config: Config, s: Database, w: Workspace, n: nat)
    requires Sound(config, s) && w !in s.budgetLocks && !Over(config.limit, Used(s, w) + n)
    ensures Sound(config, s.(used := s.used[w := Used(s, w) + n], ledger := s.ledger + [OfHandshake(w, n)]))
  {
    var r := s.(used := s.used[w := Used(s, w) + n], ledger := s.ledger + [OfHandshake(w, n)]);
    HandshakeCounts(config, s, r, w, n);
    SameLocks(s, r);
    hide Counted, Over;
    forall d | d in s.calls ensures Truthful(config, r, d) {
      TruthOf(config, s, d);
      assert CallLocks(s, d);
      StaysTruthful(config, s, r, d);
    }
  }

  lemma SameLocks(s: Database, r: Database)
    requires LocksHeld(s) && r.calls == s.calls && r.rowLocks == s.rowLocks && r.budgetLocks == s.budgetLocks
    requires forall g | g in s.groups :: g in r.groups && r.groups[g].nextSeq == s.groups[g].nextSeq
                                         && r.groups[g].workspace == s.groups[g].workspace
    ensures LocksHeld(r)
  {
    forall d | d in r.calls ensures CallLocks(r, d) { assert CallLocks(s, d); }
    forall h | h in r.rowLocks ensures RowLock(r, h) { assert RowLock(s, h); }
    forall v | v in r.budgetLocks ensures BudgetLock(r, v) { assert BudgetLock(s, v); }
  }

  lemma AdvanceIsSound(config: Config, s: Database, c: CallId)
    requires Sound(config, s)
    ensures Sound(config, Advance(config, s, c))
  {
    hide Sound, Claim, Insert, Check;
    if c in s.calls {
      match s.calls[c].phase
      case Looking => LookIsSound(config, s, c);
      case Beginning => ClaimIsSound(config, s, c);
      case Claimed(_) => InsertIsSound(config, s, c);
      case Inserted(_) => if s.calls[c].envelope.group in s.groups { CheckIsSound(config, s, c); }
      case Conflicted(_) => RereadIsSound(config, s, c);
      case _ =>
    }
  }

  lemma LookIsSound(config: Config, s: Database, c: CallId)
    requires Sound(config, s) && c in s.calls && s.calls[c].phase.Looking?
    ensures Sound(config, Look(s, c))
  {
    var e := s.calls[c].envelope;
    if (e.group, e.hash) in s.envelopes {
      MovesOn(config, s, c, Answered(Duplicate(s.envelopes[(e.group, e.hash)].seqNo, false)));
    } else {
      MovesOn(config, s, c, Beginning);
    }
  }

  /** The row that was conflicted with is still there, so the caller's own number is never the answer. */
  lemma RereadIsSound(config: Config, s: Database, c: CallId)
    requires Sound(config, s) && c in s.calls && s.calls[c].phase.Conflicted?
    ensures Sound(config, Reread(s, c))
  {
    var e := s.calls[c].envelope;
    assert Truthful(config, s, c);
    MovesOn(config, s, c, Answered(Duplicate(s.envelopes[(e.group, e.hash)].seqNo, false)));
  }

  lemma StepIsSound(config: Config, s: Database, step: Step)
    requires Sound(config, s)
    ensures Sound(config, Next(config, s, step))
  {
    hide Sound, Advance, Commit;
    match step
    case Started(c, e) => StartIsSound(config, s, c, e);
    case Advanced(c) => AdvanceIsSound(config, s, c);
    case Committed(c, heard) =>
      if c in s.calls && s.calls[c].phase.Cleared? && s.calls[c].envelope.group in s.groups {
        CommitIsSound(config, s, c, heard);
      }
    case Failed(c) =>
      if c in s.calls && !s.calls[c].phase.Answered? { Gives(config, s, c, Answered(Refused(Backpressure))); }
    case GroupAdded(g, w) => if g !in s.groups { GroupAddedIsSound(config, s, g, w); }
    case GroupFrozenOrNot(g, frozen) => if g in s.groups && g !in s.rowLocks { FreezeIsSound(config, s, g, frozen); }
    case HandshakeStored(w, n) =>
      if w !in s.budgetLocks && !Over(config.limit, Used(s, w) + n) { HandshakeIsSound(config, s, w, n); }
  }

  lemma {:induction false} SoundAlways(config: Config, steps: seq<Step>)
    ensures Sound(config, After(config, steps))
  {
    if |steps| > 0 {
      hide Sound, Next;
      SoundAlways(config, steps[..|steps| - 1]);
      StepIsSound(config, After(config, steps[..|steps| - 1]), steps[|steps| - 1]);
    }
  }

  // ------------------------------------------------------------- what it promises

  predicate SaysSeq(a: Answer) { a.Stored? || a.Duplicate? }

  predicate AnsweredFor(s: Database, c: CallId, g: Group, h: Hash) {
    && c in s.calls && s.calls[c].envelope.group == g && s.calls[c].envelope.hash == h
    && s.calls[c].phase.Answered? && SaysSeq(s.calls[c].phase.answer)
  }

  /**
   * In every interleaving, all the numbers given out for one content address are one number, the row's; at most one
   * call is told it stored it; and the answer for a conflict whose row is missing is never given.
   */
  lemma RetriesAreSafe(config: Config, steps: seq<Step>, c: CallId, d: CallId, g: Group, h: Hash)
    requires AnsweredFor(After(config, steps), c, g, h) && AnsweredFor(After(config, steps), d, g, h)
    ensures var s := After(config, steps);
            var a, b := s.calls[c].phase.answer, s.calls[d].phase.answer;
            && (g, h) in s.envelopes && a.seqNo == b.seqNo == s.envelopes[(g, h)].seqNo
            && (a.Stored? && b.Stored? ==> c == d)
            && (a.Duplicate? ==> !a.fellBack)
  {
    hide After;
    SoundAlways(config, steps);
    var s := After(config, steps);
    assert Truthful(config, s, c) && Truthful(config, s, d);
  }

  /** A group's committed numbers are 1, 2, 3 and so on in commit order, up to the counter, whatever was rolled back. */
  lemma NoGaps(config: Config, steps: seq<Step>, g: Group)
    requires g in After(config, steps).groups
    ensures var s := After(config, steps); Seqs(s.ledger, g) == Range(1, s.groups[g].nextSeq)
  {
    hide After;
    SoundAlways(config, steps);
  }

  /** The budget row is the sum of what was committed against it, and never passes the limit. */
  lemma BudgetIsKept(config: Config, steps: seq<Step>, w: Workspace)
    ensures var s := After(config, steps);
            && Used(s, w) == Spent(s.ledger, w)
            && (config.limit.Some? ==> Used(s, w) <= config.limit.value)
  {
    hide After;
    SoundAlways(config, steps);
  }
}
