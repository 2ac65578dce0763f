/** Schema migration under an advisory lock: one transaction per migration, any number of processes, any crash. */
module Migrations {
  import opened Octets

  datatype Migration = Migration(name: string, sql: string)

  /** `schema` is every migration text applied to the database, in order. */
  datatype Database = Database(ledger: map<string, string>, schema: seq<string>)

  const EMPTY := Database(map[], [])

  type Fingerprint = string -> string

  /** The ledger's word on one migration. */
  datatype Standing = AppliedAlready | Edited | New

  function StandingOf(fp: Fingerprint, db: Database, m: Migration): Standing {
    if m.name !in db.ledger then New
    else if db.ledger[m.name] == fp(m.sql) then AppliedAlready
    else Edited
  }

  /** The migration's text and its ledger row, in one transaction. */
  function Applied(fp: Fingerprint, db: Database, m: Migration): Database {
    Database(db.ledger[m.name := fp(m.sql)], db.schema + [m.sql])
  }

  /** `apply_all` over a list with nothing else running: how far it went and whether it went through. */
  datatype Pass = Pass(db: Database, ok: bool)

  function Continued(fp: Fingerprint, db: Database, m: Migration): Pass {
    match StandingOf(fp, db, m)
    case AppliedAlready => Pass(db, true)
    case Edited => Pass(db, false)
    case New => Pass(Applied(fp, db, m), true)
  }

  function AppliedFrom(fp: Fingerprint, db: Database, list: seq<Migration>): Pass {
    if |list| == 0 then Pass(db, true) else
      var p := AppliedFrom(fp, db, list[..|list| - 1]);
      if p.ok then Continued(fp, p.db, list[|list| - 1]) else p
  }

  lemma AppliedNext(fp: Fingerprint, db: Database, list: seq<Migration>, i: nat)
    requires i < |list| && AppliedFrom(fp, db, list[..i]).ok
    ensures AppliedFrom(fp, db, list[..i + 1]) == Continued(fp, AppliedFrom(fp, db, list[..i]).db, list[i])
  {
    assert list[..i + 1][..i] == list[..i];
  }

  class Schema {
    var ledger: map<string, string>
    var applied: seq<string>

    function State(): Database
      reads this
    {
      Database(ledger, applied)
    }

    constructor ()
      ensures State() == EMPTY
    {
      ledger, applied := map[], [];
    }

    method ApplyAll(fp: Fingerprint, list: seq<Migration>) returns (ok: bool)
      modifies this
      ensures AppliedFrom(fp, old(State()), list) == Pass(State(), ok)
    {
      var i := 0;
      assert list[..i] == [];
      while i < |list|
        invariant i <= |list| && AppliedFrom(fp, old(State()), list[..i]) == Pass(State(), true)
      {
        hide AppliedFrom;
        AppliedNext(fp, old(State()), list, i);
        var m := list[i];
        var digest := fp(m.sql);
        if m.name in ledger {
          if ledger[m.name] != digest {
            RefusalStays(fp, old(State()), list, i + 1);
            return false;
          }
        } else {
          ledger, applied := ledger[m.name := digest], applied + [m.sql];
        }
        i := i + 1;
      }
      assert list[..i] == list;
      ok := true;
    }
  }

  lemma {:induction false} RefusalStays(fp: Fingerprint, db: Database, list: seq<Migration>, k: nat)
    requires k <= |list| && !AppliedFrom(fp, db, list[..k]).ok
    ensures AppliedFrom(fp, db, list) == AppliedFrom(fp, db, list[..k])
    decreases |list| - k
  {
    if k < |list| {
      assert list[..k + 1][..k] == list[..k];
      RefusalStays(fp, db, list, k + 1);
    } else {
      assert list[..k] == list;
    }
  }

  // -------------------------------------------------------------------- the processes

  type ProcessId = nat

  datatype Phase =
    | Waiting                    // for the advisory lock
    | Looking(index: nat)        // about to read the ledger for its next migration
    | Writing(index: nat)        // inside the transaction that applies it
    | Finished
    | Refused                    // an applied migration's text differs

  /** A build carries a prefix of the longest list, by its length. */
  datatype Process = Process(length: nat, phase: Phase) {
    predicate Holds() { phase.Looking? || phase.Writing? }
  }

  datatype Cluster = Cluster(db: Database, holder: Option<ProcessId>, processes: map<ProcessId, Process>)

  datatype Step =
    | Started(id: ProcessId, length: nat)
    | Locked(id: ProcessId)
    | Looked(id: ProcessId)
    | Committed(id: ProcessId)
    | Crashed(id: ProcessId)     // the session dies: its transaction rolls back and its lock goes

  function To(c: Cluster, id: ProcessId, phase: Phase): Cluster
    requires id in c.processes
  {
    var p := c.processes[id].(phase := phase);
    c.(processes := c.processes[id := p],
       holder := if p.Holds() then c.holder else if c.holder == Some(id) then None else c.holder)
  }

  function Next(fp: Fingerprint, longest: seq<Migration>, c: Cluster, step: Step): Cluster {
    match step
    case Started(id, length) =>
      if id in c.processes || length > |longest| then c
      else c.(processes := c.processes[id := Process(length, Waiting)])
    case Locked(id) =>
      if id in c.processes && c.processes[id].phase.Waiting? && c.holder.None?
      then To(c.(holder := Some(id)), id, Looking(0)) else c
    case Looked(id) =>
      if id !in c.processes || !c.processes[id].phase.Looking? then c else
        var p := c.processes[id];
        var i := p.phase.index;
        if i >= p.length || i >= |longest| then To(c, id, Finished)
        else
          (match StandingOf(fp, c.db, longest[i])
           case AppliedAlready => To(c, id, Looking(i + 1))
           case Edited => To(c, id, Refused)
           case New => To(c, id, Writing(i)))
    case Committed(id) =>
      if id !in c.processes || !c.processes[id].phase.Writing? || c.processes[id].phase.index >= |longest| then c else
        var i := c.processes[id].phase.index;
        To(c, id, Looking(i + 1)).(db := Applied(fp, c.db, longest[i]))
    case Crashed(id) =>
      if id !in c.processes then c else
        c.(processes := c.processes - {id}, holder := if c.holder == Some(id) then None else c.holder)
  }

  function After(fp: Fingerprint, longest: seq<Migration>, steps: seq<Step>): Cluster {
    if |steps| == 0 then Cluster(EMPTY, None, map[])
    else Next(fp, longest, After(fp, longest, steps[..|steps| - 1]), steps[|steps| - 1])
  }

  // ---------------------------------------------------------------------- the invariant

  predicate DistinctNames(list: seq<Migration>) {
    forall i, j | 0 <= i < j < |list| :: list[i].name != list[j].name
  }

  function Texts(list: seq<Migration>): (texts: seq<string>)
    ensures |texts| == |list|
  {
    if |list| == 0 then [] else Texts(list[..|list| - 1]) + [list[|list| - 1].sql]
  }

  function Rows(fp: Fingerprint, list: seq<Migration>): map<string, string> {
    if |list| == 0 then map[] else Rows(fp, list[..|list| - 1])[list[|list| - 1].name := fp(list[|list| - 1].sql)]
  }

  /** The database is the first `n` migrations, applied once each in order. */
  predicate IsPrefix(fp: Fingerprint, longest: seq<Migration>, db: Database, n: nat) {
    n <= |longest| && db.schema == Texts(longest[..n]) && db.ledger == Rows(fp, longest[..n])
  }

  /**
   * Where a process stands: only the lock's holder works, and it is never ahead of the database by more than its own
   * write.
   */
  predicate InStep(c: Cluster, id: ProcessId, n: nat)
    requires id in c.processes
  {
    var p := c.processes[id];
    && (p.Holds() <==> c.holder == Some(id))
    && (p.phase.Looking? ==> p.phase.index <= n && p.phase.index <= p.length)
    && (p.phase.Writing? ==> p.phase.index == n < p.length)
    && (p.phase.Finished? ==> p.length <= n)
    && !p.phase.Refused?
  }

  predicate Sound(fp: Fingerprint, longest: seq<Migration>, c: Cluster, n: nat) {
    && IsPrefix(fp, longest, c.db, n)
    && (c.holder.Some? ==> c.holder.value in c.processes)
    && (forall id | id in c.processes :: c.processes[id].length <= |longest| && InStep(c, id, n))
  }

  lemma {:induction false} RowsAre(fp: Fingerprint, list: seq<Migration>, i: nat)
    requires DistinctNames(list) && i < |list|
    ensures list[i].name in Rows(fp, list) && Rows(fp, list)[list[i].name] == fp(list[i].sql)
  {
    if i < |list| - 1 { RowsAre(fp, list[..|list| - 1], i); }
  }

  lemma {:induction false} RowsAreOnly(fp: Fingerprint, list: seq<Migration>, name: string)
    requires forall i | 0 <= i < |list| :: list[i].name != name
    ensures name !in Rows(fp, list)
  {
    if |list| > 0 { RowsAreOnly(fp, list[..|list| - 1], name); }
  }

  /** The ledger of a prefix knows exactly the prefix. */
  lemma PrefixStanding(fp: Fingerprint, longest: seq<Migration>, db: Database, n: nat, i: nat)
    requires DistinctNames(longest) && IsPrefix(fp, longest, db, n) && i < |longest|
    ensures StandingOf(fp, db, longest[i]) == if i < n then AppliedAlready else New
  {
    if i < n { RowsAre(fp, longest[..n], i); } else { RowsAreOnly(fp, longest[..n], longest[i].name); }
  }

  lemma AppliedGrows(fp: Fingerprint, longest: seq<Migration>, db: Database, n: nat)
    requires IsPrefix(fp, longest, db, n) && n < |longest|
    ensures IsPrefix(fp, longest, Applied(fp, db, longest[n]), n + 1)
  {
    assert longest[..n + 1][..n] == longest[..n];
  }

  /** One process moves on and the database with it, by one migration at most; the others stay in step. */
  lemma OthersInStep(longest: seq<Migration>, c: Cluster, d: Cluster, id: ProcessId, n: nat, m: nat)
    requires n <= m && id in c.processes && d.processes.Keys == c.processes.Keys
    requires forall x | x in c.processes && x != id :: d.processes[x] == c.processes[x]
    requires forall x | x in c.processes :: c.processes[x].length <= |longest| && InStep(c, x, n)
    requires d.processes[id].length == c.processes[id].length && InStep(d, id, m)
    requires c.holder == Some(id) && (d.holder == Some(id) || d.holder.None?)
    ensures forall x | x in d.processes :: d.processes[x].length <= |longest| && InStep(d, x, m)
  {
    forall x | x in d.processes ensures d.processes[x].length <= |longest| && InStep(d, x, m) {
      assert InStep(c, x, n);
    }
  }

  lemma LookIsSound(fp: Fingerprint, longest: seq<Migration>, c: Cluster, n: nat, id: ProcessId)
    requires DistinctNames(longest) && Sound(fp, longest, c, n)
    ensures Sound(fp, longest, Next(fp, longest, c, Looked(id)), n)
  {
    hide IsPrefix;
    if id in c.processes && c.processes[id].phase.Looking? {
      assert InStep(c, id, n);
      var i := c.processes[id].phase.index;
      if i < c.processes[id].length { PrefixStanding(fp, longest, c.db, n, i); }
      OthersInStep(longest, c, Next(fp, longest, c, Looked(id)), id, n, n);
    }
  }

  lemma CommitIsSound(fp: Fingerprint, longest: seq<Migration>, c: Cluster, n: nat, id: ProcessId)
    requires Sound(fp, longest, c, n)
    requires id in c.processes && c.processes[id].phase.Writing? && c.processes[id].phase.index < |longest|
    ensures Sound(fp, longest, Next(fp, longest, c, Committed(id)), n + 1)
  {
    hide IsPrefix, Applied;
    assert InStep(c, id, n);
    AppliedGrows(fp, longest, c.db, n);
    OthersInStep(longest, c, Next(fp, longest, c, Committed(id)), id, n, n + 1);
  }

  lemma StepIsSound(fp: Fingerprint, longest: seq<Migration>, c: Cluster, n: nat, step: Step) returns (m: nat)
    requires DistinctNames(longest) && Sound(fp, longest, c, n)
    ensures n <= m && Sound(fp, longest, Next(fp, longest, c, step), m)
  {
    hide IsPrefix;
    m := n;
    var d := Next(fp, longest, c, step);
    match step
    case Looked(id) => LookIsSound(fp, longest, c, n, id);
    case Committed(id) =>
      if id in c.processes && c.processes[id].phase.Writing? && c.processes[id].phase.index < |longest| {
        CommitIsSound(fp, longest, c, n, id);
        m := n + 1;
      }
    case _ =>
      forall x | x in d.processes ensures d.processes[x].length <= |longest| && InStep(d, x, n) {
        assert x in c.processes ==> InStep(c, x, n);
      }
  }

  lemma {:induction false} RunIsSound(fp: Fingerprint, longest: seq<Migration>, steps: seq<Step>) returns (n: nat)
    requires DistinctNames(longest)
    ensures Sound(fp, longest, After(fp, longest, steps), n)
  {
    if |steps| == 0 {
      n := 0;
      assert longest[..0] == [];
    } else {
      n := RunIsSound(fp, longest, steps[..|steps| - 1]);
      n := StepIsSound(fp, longest, After(fp, longest, steps[..|steps| - 1]), n, steps[|steps| - 1]);
    }
  }

  /**
   * Over any contention and any crashes the database is some prefix of the longest list, each migration applied once
   * and in order and the ledger saying so; a process that finished finds its whole list in it; and none is ever
   * refused.
   */
  lemma LedgerIsAPrefix(fp: Fingerprint, longest: seq<Migration>, steps: seq<Step>)
    requires DistinctNames(longest)
    ensures var c := After(fp, longest, steps);
            && IsPrefix(fp, longest, c.db, |c.db.schema|)
            && forall id | id in c.processes ::
                 && (c.processes[id].phase.Finished? ==> c.processes[id].length <= |c.db.schema|)
                 && !c.processes[id].phase.Refused?
  {
    hide After;
    var n := RunIsSound(fp, longest, steps);
    var c := After(fp, longest, steps);
    assert |c.db.schema| == n;
    forall id | id in c.processes
      ensures (c.processes[id].phase.Finished? ==> c.processes[id].length <= n) && !c.processes[id].phase.Refused?
    {
      assert InStep(c, id, n);
    }
  }

  // -------------------------------------------------- a pass over any list and any database

  /** The `i`th text is the one the ledger and the list itself record under its name. */
  predicate Unedited(fp: Fingerprint, db: Database, list: seq<Migration>, i: nat)
    requires i < |list|
  {
    && (list[i].name in db.ledger ==> db.ledger[list[i].name] == fp(list[i].sql))
    && (forall j | 0 <= j < i && list[j].name == list[i].name :: fp(list[j].sql) == fp(list[i].sql))
  }

  predicate Named(list: seq<Migration>, name: string) {
    exists i | 0 <= i < |list| :: list[i].name == name
  }

  /** The texts whose names neither the ledger nor an earlier place of the list has, in order. */
  function Missing(db: Database, list: seq<Migration>): seq<string> {
    if |list| == 0 then [] else
      var front, m := list[..|list| - 1], list[|list| - 1];
      Missing(db, front) + (if m.name in db.ledger || Named(front, m.name) then [] else [m.sql])
  }

  /** The ledger `after` is the one before and a row for each name of the list. */
  ghost predicate Recorded(fp: Fingerprint, db: Database, list: seq<Migration>, after: map<string, string>) {
    && (forall name :: name in after <==> name in db.ledger || Named(list, name))
    && (forall name | name in db.ledger && name in after :: after[name] == db.ledger[name])
    && (forall i | 0 <= i < |list| && list[i].name in after :: after[list[i].name] == fp(list[i].sql))
  }

  lemma {:induction false} PassRecords(fp: Fingerprint, db: Database, list: seq<Migration>)
    requires forall i | 0 <= i < |list| :: Unedited(fp, db, list, i)
    ensures var p := AppliedFrom(fp, db, list);
            p.ok && p.db.schema == db.schema + Missing(db, list) && Recorded(fp, db, list, p.db.ledger)
  {
    if |list| > 0 {
      var front, m := list[..|list| - 1], list[|list| - 1];
      forall i | 0 <= i < |front| ensures Unedited(fp, db, front, i) {
        assert Unedited(fp, db, list, i);
      }
      PassRecords(fp, db, front);
      assert Unedited(fp, db, list, |list| - 1);
      LastRecorded(fp, db, list, AppliedFrom(fp, db, front).db);
    }
  }

  lemma LastRecorded(fp: Fingerprint, db: Database, list: seq<Migration>, q: Database)
    requires |list| > 0 && Unedited(fp, db, list, |list| - 1) && Recorded(fp, db, list[..|list| - 1], q.ledger)
    ensures var p := Continued(fp, q, list[|list| - 1]);
            && p.ok && Recorded(fp, db, list, p.db.ledger)
            && p.db.schema == q.schema + (if list[|list| - 1].name in q.ledger then [] else [list[|list| - 1].sql])
  {
    var front, m := list[..|list| - 1], list[|list| - 1];
    var p := Continued(fp, q, m);
    if m.name in q.ledger && m.name !in db.ledger {
      var i :| 0 <= i < |front| && front[i].name == m.name;
      assert list[i] == front[i];
    }
    forall name ensures name in p.db.ledger <==> name in db.ledger || Named(list, name) {
      if Named(front, name) {
        var i :| 0 <= i < |front| && front[i].name == name;
        assert list[i].name == name;
      }
      if Named(list, name) && name != m.name {
        var i :| 0 <= i < |list| && list[i].name == name;
        assert front[i].name == name;
      }
    }
    forall i | 0 <= i < |list| && list[i].name in p.db.ledger
      ensures p.db.ledger[list[i].name] == fp(list[i].sql)
    {
      if i < |front| { assert front[i] == list[i] && Named(front, list[i].name); }
    }
  }

  /**
   * Whatever its list and whatever the database, a build whose text of a recorded migration differs stops at the first
   * such migration and has changed nothing past it.
   */
  lemma EditedIsRefused(fp: Fingerprint, db: Database, list: seq<Migration>, i: nat)
    requires i < |list| && !Unedited(fp, db, list, i) && forall j | 0 <= j < i :: Unedited(fp, db, list, j)
    ensures var before := AppliedFrom(fp, db, list[..i]);
            && before.ok && before.db.schema == db.schema + Missing(db, list[..i])
            && AppliedFrom(fp, db, list) == Pass(before.db, false)
  {
    var front, m := list[..i], list[i];
    forall j | 0 <= j < i ensures Unedited(fp, db, front, j) {
      assert Unedited(fp, db, list, j);
    }
    PassRecords(fp, db, front);
    var q := AppliedFrom(fp, db, front).db;
    assert StandingOf(fp, q, m) == Edited by {
      if m.name !in db.ledger || db.ledger[m.name] == fp(m.sql) {
        var j :| 0 <= j < i && list[j].name == m.name && fp(list[j].sql) != fp(m.sql);
        assert front[j] == list[j] && Named(front, m.name);
      }
    }
    assert list[..i + 1][..i] == front;
    RefusalStays(fp, db, list, i + 1);
  }

  /**
   * A pass over any list and any database goes through iff no text differs from what is recorded under its name, and
   * then the schema has gained the missing texts once each in order and the ledger their rows.
   */
  lemma PassIsExact(fp: Fingerprint, db: Database, list: seq<Migration>)
    ensures var p := AppliedFrom(fp, db, list);
            && (p.ok <==> forall i | 0 <= i < |list| :: Unedited(fp, db, list, i))
            && (p.ok ==> p.db.schema == db.schema + Missing(db, list) && Recorded(fp, db, list, p.db.ledger))
  {
    if forall i | 0 <= i < |list| :: Unedited(fp, db, list, i) {
      PassRecords(fp, db, list);
    } else {
      var i := FirstEdited(fp, db, list, |list|);
      EditedIsRefused(fp, db, list, i);
    }
  }

  lemma {:induction false} FirstEdited(fp: Fingerprint, db: Database, list: seq<Migration>, n: nat) returns (i: nat)
    requires n <= |list| && exists i | 0 <= i < n :: !Unedited(fp, db, list, i)
    ensures i < n && !Unedited(fp, db, list, i) && forall j | 0 <= j < i :: Unedited(fp, db, list, j)
  {
    i := n - 1;
    if exists j | 0 <= j < n - 1 :: !Unedited(fp, db, list, j) {
      i := FirstEdited(fp, db, list, n - 1);
    }
  }

  /** Running a build's list against a database some build of the same history left behind only adds what is missing. */
  lemma {:induction false} MigrateExtends(fp: Fingerprint, longest: seq<Migration>, db: Database, n: nat, k: nat)
    requires DistinctNames(longest) && IsPrefix(fp, longest, db, n) && k <= |longest|
    ensures var p := AppliedFrom(fp, db, longest[..k]);
            p.ok && IsPrefix(fp, longest, p.db, if n < k then k else n)
  {
    hide IsPrefix, Applied;
    if k > 0 {
      MigrateExtends(fp, longest, db, n, k - 1);
      assert longest[..k][..k - 1] == longest[..k - 1];
      var q := AppliedFrom(fp, db, longest[..k - 1]).db;
      PrefixStanding(fp, longest, q, if n < k - 1 then k - 1 else n, k - 1);
      if n < k { AppliedGrows(fp, longest, q, k - 1); }
    }
  }
}
