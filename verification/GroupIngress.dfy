/** The ingress budget: lazily reset, swept counters, and the plain history they must agree with. */
module GroupIngress {
  import opened Octets

  const WINDOW_MS: nat := 60_000
  const MAX_TRACKED_KEYS: nat := 16_384
  const MAX: u64 := TWO_TO_64 - 1

  // Opaque identifiers.
  type Principal = string
  type Group = string
  type Workspace = string
  type Pair = (Principal, Group)

  datatype Refusal = OverPrincipalGroup | OverWorkspace

  datatype Usage = Usage(window: u64, bytes: u64)

  datatype Limits = Limits(pair: u64, workspace: u64)

  datatype Counters = Counters(pairs: map<Pair, Usage>, workspaces: map<Workspace, Usage>, refused: u64)

  datatype Request = Request(principal: Principal, group: Group, workspace: Workspace, bytes: u64, now: u64) {
    function Key(): Pair { (principal, group) }
    function Window(): u64 { now / WINDOW_MS }
  }

  const FRESH := Counters(map[], map[], 0)

  function SaturatingAdd(a: u64, b: u64): u64 { if a + b < TWO_TO_64 then a + b else MAX }

  function Swept<K(==)>(m: map<K, Usage>, window: u64): map<K, Usage> {
    if |m| > MAX_TRACKED_KEYS then map k | k in m && m[k].window == window :: m[k] else m
  }

  /** The entry as `current` leaves it: made if missing, reset if it belongs to another window. */
  function Touched<K(==)>(m: map<K, Usage>, k: K, window: u64): map<K, Usage> {
    if k in m && m[k].window == window then m else m[k := Usage(window, 0)]
  }

  datatype Outcome = Outcome(counters: Counters, verdict: Result<(), Refusal>)

  function Charged(limits: Limits, c: Counters, q: Request): Outcome {
    var window := q.Window();
    var pairs := Touched(Swept(c.pairs, window), q.Key(), window);
    var workspaces := Touched(Swept(c.workspaces, window), q.workspace, window);
    var pair := SaturatingAdd(pairs[q.Key()].bytes, q.bytes);
    var whole := SaturatingAdd(workspaces[q.workspace].bytes, q.bytes);
    if pair > limits.pair then
      Outcome(Counters(pairs, workspaces, (c.refused + 1) % TWO_TO_64), Err(OverPrincipalGroup))
    else if whole > limits.workspace then
      Outcome(Counters(pairs, workspaces, (c.refused + 1) % TWO_TO_64), Err(OverWorkspace))
    else
      Outcome(Counters(pairs[q.Key() := Usage(window, pair)], workspaces[q.workspace := Usage(window, whole)],
                       c.refused), Ok(()))
  }

  /** The budget as the relay runs it. */
  class GroupIngressBudget {
    const limits: Limits
    var pairs: map<Pair, Usage>
    var workspaces: map<Workspace, Usage>
    var refused: u64

    function State(): Counters
      reads this
    {
      Counters(pairs, workspaces, refused)
    }

    constructor (limits: Limits)
      ensures this.limits == limits && State() == FRESH
    {
      this.limits := limits;
      pairs, workspaces, refused := map[], map[], 0;
    }

    method CurrentPair(key: Pair, window: u64) returns (bytes: u64)
      modifies this`pairs
      ensures pairs == Touched(old(pairs), key, window) && bytes == pairs[key].bytes
    {
      if key !in pairs { pairs := pairs[key := Usage(0, 0)]; }
      if pairs[key].window != window { pairs := pairs[key := Usage(window, 0)]; }
      if key !in old(pairs) { assert pairs == old(pairs)[key := Usage(window, 0)]; }
      bytes := pairs[key].bytes;
    }

    method CurrentWorkspace(key: Workspace, window: u64) returns (bytes: u64)
      modifies this`workspaces
      ensures workspaces == Touched(old(workspaces), key, window) && bytes == workspaces[key].bytes
    {
      if key !in workspaces { workspaces := workspaces[key := Usage(0, 0)]; }
      if workspaces[key].window != window { workspaces := workspaces[key := Usage(window, 0)]; }
      if key !in old(workspaces) { assert workspaces == old(workspaces)[key := Usage(window, 0)]; }
      bytes := workspaces[key].bytes;
    }

    method Charge(q: Request) returns (verdict: Result<(), Refusal>)
      modifies this
      ensures var o := Charged(limits, old(State()), q); State() == o.counters && verdict == o.verdict
    {
      var window := q.now / WINDOW_MS;
      if |pairs| > MAX_TRACKED_KEYS {
        pairs := map k | k in pairs && pairs[k].window == window :: pairs[k];
      }
      if |workspaces| > MAX_TRACKED_KEYS {
        workspaces := map k | k in workspaces && workspaces[k].window == window :: workspaces[k];
      }
      var key := (q.principal, q.group);
      var pair := CurrentPair(key, window);
      pair := SaturatingAdd(pair, q.bytes);
      var whole := CurrentWorkspace(q.workspace, window);
      whole := SaturatingAdd(whole, q.bytes);
      if pair > limits.pair {
        refused := (refused + 1) % TWO_TO_64;
        return Err(OverPrincipalGroup);
      }
      if whole > limits.workspace {
        refused := (refused + 1) % TWO_TO_64;
        return Err(OverWorkspace);
      }
      pairs := pairs[key := Usage(window, pair)];
      workspaces := workspaces[q.workspace := Usage(window, whole)];
      verdict := Ok(());
    }
  }

  // ------------------------------------------------------------------ the history

  function After(limits: Limits, qs: seq<Request>): Counters {
    if |qs| == 0 then FRESH else Charged(limits, After(limits, qs[..|qs| - 1]), qs[|qs| - 1]).counters
  }

  /** What the budget answered the last request of a run. */
  function Verdict(limits: Limits, qs: seq<Request>): Result<(), Refusal>
    requires |qs| > 0
  {
    Charged(limits, After(limits, qs[..|qs| - 1]), qs[|qs| - 1]).verdict
  }

  /** The bytes accepted so far for one pair in one window. */
  function PairSum(limits: Limits, qs: seq<Request>, k: Pair, window: nat): nat {
    if |qs| == 0 then 0 else
      var q := qs[|qs| - 1];
      PairSum(limits, qs[..|qs| - 1], k, window)
      + (if Verdict(limits, qs).Ok? && q.Key() == k && q.Window() == window then q.bytes else 0)
  }

  /** The bytes accepted so far for one workspace in one window. */
  function WorkspaceSum(limits: Limits, qs: seq<Request>, w: Workspace, window: nat): nat {
    if |qs| == 0 then 0 else
      var q := qs[|qs| - 1];
      WorkspaceSum(limits, qs[..|qs| - 1], w, window)
      + (if Verdict(limits, qs).Ok? && q.workspace == w && q.Window() == window then q.bytes else 0)
  }

  predicate Timely(qs: seq<Request>) {
    forall i, j | 0 <= i < j < |qs| :: qs[i].now <= qs[j].now
  }

  /** A limit of 2^64 - 1 is no limit: a saturated sum never passes it. */
  predicate Fits(limit: u64, total: nat) { limit == MAX || total <= limit }

  /** The decision, from plain sums of what was accepted before. */
  function Decision(limits: Limits, before: seq<Request>, q: Request): Result<(), Refusal> {
    if !Fits(limits.pair, PairSum(limits, before, q.Key(), q.Window()) + q.bytes) then Err(OverPrincipalGroup)
    else if !Fits(limits.workspace, WorkspaceSum(limits, before, q.workspace, q.Window()) + q.bytes)
    then Err(OverWorkspace)
    else Ok(())
  }

  // ---------------------------------------------------------------- the invariant

  function Clamped(n: nat): u64 { if n < TWO_TO_64 then n else MAX }

  /** A counter, a stale counter or a missing one: each says how much was accepted in this window. */
  predicate Records<K(==)>(m: map<K, Usage>, k: K, sum: nat, window: nat) {
    if k in m && m[k].window == window then m[k].bytes == Clamped(sum)
    else sum == 0 && (k in m ==> m[k].window < window)
  }

  lemma SweptRecords<K>(m: map<K, Usage>, k: K, sum: nat, window: u64)
    requires Records(m, k, sum, window)
    ensures Records(Swept(m, window), k, sum, window)
  {
  }

  lemma TouchedRecords<K>(m: map<K, Usage>, j: K, k: K, sum: nat, window: u64)
    requires Records(m, k, sum, window)
    ensures Records(Touched(m, j, window), k, sum, window)
    ensures j == k ==> Touched(m, j, window)[k] == Usage(window, Clamped(sum))
  {
  }

  function LastWindow(qs: seq<Request>): nat { if |qs| == 0 then 0 else qs[|qs| - 1].Window() }

  ghost predicate Agrees(limits: Limits, qs: seq<Request>, window: nat) {
    && (forall k :: Records(After(limits, qs).pairs, k, PairSum(limits, qs, k, window), window))
    && (forall w :: Records(After(limits, qs).workspaces, w, WorkspaceSum(limits, qs, w, window), window))
  }

  lemma {:induction false} NothingLater(limits: Limits, qs: seq<Request>, k: Pair, w: Workspace, window: nat)
    requires Timely(qs) && LastWindow(qs) < window
    ensures PairSum(limits, qs, k, window) == 0 && WorkspaceSum(limits, qs, w, window) == 0
  {
    if |qs| > 0 {
      var front := qs[..|qs| - 1];
      if |front| > 0 { assert front[|front| - 1].now <= qs[|qs| - 1].now; }
      NothingLater(limits, front, k, w, window);
    }
  }

  /** A counter that agreed about the last window agrees about any later one. */
  lemma LaterAgrees(limits: Limits, qs: seq<Request>, window: nat)
    requires Timely(qs) && Agrees(limits, qs, LastWindow(qs)) && LastWindow(qs) <= window
    ensures Agrees(limits, qs, window)
  {
    if LastWindow(qs) < window {
      forall k ensures Records(After(limits, qs).pairs, k, PairSum(limits, qs, k, window), window) {
        NothingLater(limits, qs, k, "", window);
        assert Records(After(limits, qs).pairs, k, PairSum(limits, qs, k, LastWindow(qs)), LastWindow(qs));
      }
      forall w ensures Records(After(limits, qs).workspaces, w, WorkspaceSum(limits, qs, w, window), window) {
        NothingLater(limits, qs, ("", ""), w, window);
        assert Records(After(limits, qs).workspaces, w, WorkspaceSum(limits, qs, w, LastWindow(qs)), LastWindow(qs));
      }
    }
  }

  /** Agreeing counters decide as the history does. */
  lemma ChargeDecides(limits: Limits, qs: seq<Request>, q: Request)
    requires Agrees(limits, qs, q.Window())
    ensures Charged(limits, After(limits, qs), q).verdict == Decision(limits, qs, q)
  {
    var c, v := After(limits, qs), q.Window();
    var a, b := PairSum(limits, qs, q.Key(), v), WorkspaceSum(limits, qs, q.workspace, v);
    SweptRecords(c.pairs, q.Key(), a, v);
    TouchedRecords(Swept(c.pairs, v), q.Key(), q.Key(), a, v);
    SweptRecords(c.workspaces, q.workspace, b, v);
    TouchedRecords(Swept(c.workspaces, v), q.workspace, q.workspace, b, v);
  }

  lemma ChargeRecordsPair(limits: Limits, qs: seq<Request>, q: Request, k: Pair)
    requires Agrees(limits, qs, q.Window())
    ensures var o := Charged(limits, After(limits, qs), q);
            Records(o.counters.pairs, k,
                    PairSum(limits, qs, k, q.Window()) + (if o.verdict.Ok? && q.Key() == k then q.bytes else 0),
                        q.Window())
  {
    hide PairSum, WorkspaceSum;
    var c, v := After(limits, qs), q.Window();
    hide After;
    assert Records(c.pairs, k, PairSum(limits, qs, k, v), v);
    SweptRecords(c.pairs, k, PairSum(limits, qs, k, v), v);
    TouchedRecords(Swept(c.pairs, v), q.Key(), k, PairSum(limits, qs, k, v), v);
  }

  lemma ChargeRecordsWorkspace(limits: Limits, qs: seq<Request>, q: Request, w: Workspace)
    requires Agrees(limits, qs, q.Window())
    ensures var o := Charged(limits, After(limits, qs), q);
            Records(o.counters.workspaces, w,
                    WorkspaceSum(limits, qs, w, q.Window())
                        + (if o.verdict.Ok? && q.workspace == w then q.bytes else 0), q.Window())
  {
    hide PairSum, WorkspaceSum;
    var c, v := After(limits, qs), q.Window();
    hide After;
    assert Records(c.workspaces, w, WorkspaceSum(limits, qs, w, v), v);
    SweptRecords(c.workspaces, w, WorkspaceSum(limits, qs, w, v), v);
    TouchedRecords(Swept(c.workspaces, v), q.workspace, w, WorkspaceSum(limits, qs, w, v), v);
  }

  lemma NextAgrees(limits: Limits, qs: seq<Request>)
    requires |qs| > 0 && Agrees(limits, qs[..|qs| - 1], qs[|qs| - 1].Window())
    ensures Agrees(limits, qs, LastWindow(qs))
  {
    hide Charged, Records;
    var front, q := qs[..|qs| - 1], qs[|qs| - 1];
    forall k ensures Records(After(limits, qs).pairs, k, PairSum(limits, qs, k, q.Window()), q.Window()) {
      ChargeRecordsPair(limits, front, q, k);
    }
    forall w ensures Records(After(limits, qs).workspaces, w, WorkspaceSum(limits, qs, w, q.Window()), q.Window()) {
      ChargeRecordsWorkspace(limits, front, q, w);
    }
  }

  lemma {:induction false} AgreesAlways(limits: Limits, qs: seq<Request>)
    requires Timely(qs)
    ensures Agrees(limits, qs, LastWindow(qs))
  {
    if |qs| > 0 {
      hide Agrees;
      var front := qs[..|qs| - 1];
      AgreesAlways(limits, front);
      LastWindowRises(qs);
      LaterAgrees(limits, front, qs[|qs| - 1].Window());
      NextAgrees(limits, qs);
    }
  }

  lemma LastWindowRises(qs: seq<Request>)
    requires Timely(qs) && |qs| > 0
    ensures LastWindow(qs[..|qs| - 1]) <= qs[|qs| - 1].Window()
  {
    if |qs| > 1 { assert qs[|qs| - 2].now <= qs[|qs| - 1].now; }
  }

  // ------------------------------------------------------------- what it promises

  /**
   * In every run with time not going backwards, and for every pair of limits, each answer is the one plain sums of the
   * accepted bytes give: the sweep, the lazy reset and refusals leave no trace.
   */
  lemma BudgetRefinesHistory(limits: Limits, before: seq<Request>, q: Request)
    requires Timely(before + [q])
    ensures Charged(limits, After(limits, before), q).verdict == Decision(limits, before, q)
  {
    assert (before + [q])[..|before|] == before;
    TimelyPrefix(before, q);
    AgreesAlways(limits, before);
    LastWindowRises(before + [q]);
    LaterAgrees(limits, before, q.Window());
    ChargeDecides(limits, before, q);
  }

  lemma TimelyPrefix(before: seq<Request>, q: Request)
    requires Timely(before + [q])
    ensures Timely(before)
  {
    forall i, j | 0 <= i < j < |before| ensures before[i].now <= before[j].now {
      assert (before + [q])[i] == before[i] && (before + [q])[j] == before[j];
    }
  }

  /** One window accepts at most the limit. */
  lemma {:induction false} WindowIsBounded(limits: Limits, qs: seq<Request>, k: Pair, w: Workspace, window: nat)
    requires Timely(qs)
    ensures limits.pair < MAX ==> PairSum(limits, qs, k, window) <= limits.pair
    ensures limits.workspace < MAX ==> WorkspaceSum(limits, qs, w, window) <= limits.workspace
  {
    if |qs| > 0 {
      var front, q := qs[..|qs| - 1], qs[|qs| - 1];
      WindowIsBounded(limits, front, k, w, window);
      assert front + [q] == qs;
      BudgetRefinesHistory(limits, front, q);
    }
  }

  /** The bytes accepted for one pair while the clock read from `t` up to, not including, `t + WINDOW_MS`. */
  function PairSpan(limits: Limits, qs: seq<Request>, k: Pair, t: nat): nat {
    if |qs| == 0 then 0 else
      var q := qs[|qs| - 1];
      PairSpan(limits, qs[..|qs| - 1], k, t)
      + (if Verdict(limits, qs).Ok? && q.Key() == k && t <= q.now < t + WINDOW_MS then q.bytes else 0)
  }

  function WorkspaceSpan(limits: Limits, qs: seq<Request>, w: Workspace, t: nat): nat {
    if |qs| == 0 then 0 else
      var q := qs[|qs| - 1];
      WorkspaceSpan(limits, qs[..|qs| - 1], w, t)
      + (if Verdict(limits, qs).Ok? && q.workspace == w && t <= q.now < t + WINDOW_MS then q.bytes else 0)
  }

  /** A span of one window's length touches two windows. */
  lemma {:induction false} SpanInTwoWindows(limits: Limits, qs: seq<Request>, k: Pair, w: Workspace, t: nat)
    ensures var v := t / WINDOW_MS;
            && PairSpan(limits, qs, k, t) <= PairSum(limits, qs, k, v) + PairSum(limits, qs, k, v + 1)
            && WorkspaceSpan(limits, qs, w, t) <= WorkspaceSum(limits, qs, w, v) + WorkspaceSum(limits, qs, w, v + 1)
  {
    if |qs| > 0 { SpanInTwoWindows(limits, qs[..|qs| - 1], k, w, t); }
  }

  /** Any sixty seconds accept at most twice each limit. */
  lemma SpanIsBounded(limits: Limits, qs: seq<Request>, k: Pair, w: Workspace, t: nat)
    requires Timely(qs)
    ensures limits.pair < MAX ==> PairSpan(limits, qs, k, t) <= 2 * limits.pair
    ensures limits.workspace < MAX ==> WorkspaceSpan(limits, qs, w, t) <= 2 * limits.workspace
  {
    var v := t / WINDOW_MS;
    SpanInTwoWindows(limits, qs, k, w, t);
    WindowIsBounded(limits, qs, k, w, v);
    WindowIsBounded(limits, qs, k, w, v + 1);
  }

  function Refusals(limits: Limits, qs: seq<Request>): nat {
    if |qs| == 0 then 0 else Refusals(limits, qs[..|qs| - 1]) + (if Verdict(limits, qs).Err? then 1 else 0)
  }

  lemma RefusalCounts(limits: Limits, c: Counters, q: Request)
    ensures var o := Charged(limits, c, q);
            o.counters.refused == if o.verdict.Err? then (c.refused + 1) % TWO_TO_64 else c.refused
  {
    hide Touched, Swept;
  }

  lemma {:induction false} RefusalsAreCounted(limits: Limits, qs: seq<Request>)
    ensures After(limits, qs).refused == Refusals(limits, qs) % TWO_TO_64
  {
    hide Charged;
    if |qs| > 0 {
      RefusalsAreCounted(limits, qs[..|qs| - 1]);
      RefusalCounts(limits, After(limits, qs[..|qs| - 1]), qs[|qs| - 1]);
    }
  }

  // ------------------------------------------------------------------- what it keeps

  function Keys(qs: seq<Request>, window: nat): set<Pair> {
    set i | 0 <= i < |qs| && qs[i].Window() == window :: qs[i].Key()
  }

  function Workspaces(qs: seq<Request>, window: nat): set<Workspace> {
    set i | 0 <= i < |qs| && qs[i].Window() == window :: qs[i].workspace
  }

  /** Every counter is for a request of its window. */
  ghost predicate Asked<K(!new)>(m: map<K, Usage>, asked: nat -> set<K>) {
    forall k | k in m :: k in asked(m[k].window)
  }

  /** One charge: the other entries are the ones before, and one past the cap only entries of this window are left. */
  predicate Trimmed<K(==)>(m: map<K, Usage>, after: map<K, Usage>, k: K, window: nat) {
    && k in after && after[k].window == window
    && (forall j | j in after && j != k :: j in m && after[j] == m[j])
    && (|after| <= MAX_TRACKED_KEYS + 1 || forall j | j in after :: after[j].window == window)
  }

  lemma TouchTrims<K>(m: map<K, Usage>, k: K, window: u64)
    ensures Trimmed(m, Touched(Swept(m, window), k, window), k, window)
  {
    var t := Touched(Swept(m, window), k, window);
    if |m| <= MAX_TRACKED_KEYS { assert t.Keys == m.Keys + {k}; }
  }

  lemma UpdateTrims<K>(m: map<K, Usage>, t: map<K, Usage>, k: K, window: u64, bytes: u64)
    requires Trimmed(m, t, k, window)
    ensures Trimmed(m, t[k := Usage(window, bytes)], k, window)
  {
    assert t[k := Usage(window, bytes)].Keys == t.Keys;
  }

  lemma ChargeTrims(limits: Limits, c: Counters, q: Request)
    ensures var d := Charged(limits, c, q).counters;
            && Trimmed(c.pairs, d.pairs, q.Key(), q.Window())
            && Trimmed(c.workspaces, d.workspaces, q.workspace, q.Window())
  {
    var w := q.Window();
    var p, v := Touched(Swept(c.pairs, w), q.Key(), w), Touched(Swept(c.workspaces, w), q.workspace, w);
    var pair, whole := SaturatingAdd(p[q.Key()].bytes, q.bytes), SaturatingAdd(v[q.workspace].bytes, q.bytes);
    hide Trimmed, Touched, Swept;
    TouchTrims(c.pairs, q.Key(), w);
    UpdateTrims(c.pairs, p, q.Key(), w, pair);
    TouchTrims(c.workspaces, q.workspace, w);
    UpdateTrims(c.workspaces, v, q.workspace, w, whole);
  }

  /** Requests asked for so far stay asked for, and the one charged is asked for in its own window. */
  lemma TrimAsked<K(!new)>(m: map<K, Usage>, after: map<K, Usage>, k: K, window: nat, was: nat -> set<K>,
      now: nat -> set<K>)
    requires Trimmed(m, after, k, window) && Asked(m, was)
    requires k in now(window) && forall w :: was(w) <= now(w)
    ensures Asked(after, now)
    ensures |after| <= MAX_TRACKED_KEYS + 1 || after.Keys <= now(window)
  {
    forall j | j in after ensures j in now(after[j].window) {
      assert was(after[j].window) <= now(after[j].window);
    }
  }

  lemma KeysGrow(qs: seq<Request>, window: nat)
    requires |qs| > 0
    ensures Keys(qs[..|qs| - 1], window) <= Keys(qs, window)
    ensures Workspaces(qs[..|qs| - 1], window) <= Workspaces(qs, window)
  {
    var front := qs[..|qs| - 1];
    assert forall i | 0 <= i < |front| :: front[i] == qs[i];
  }

  /**
   * However many pairs and workspaces ever spoke, every counter kept is for a request of its window, and there are at
   * most one past the cap of them or they are all for requests of the last window.
   */
  lemma {:induction false} TrackedIsBounded(limits: Limits, qs: seq<Request>)
    ensures var c := After(limits, qs);
            && Asked(c.pairs, w => Keys(qs, w)) && Asked(c.workspaces, w => Workspaces(qs, w))
            && (|c.pairs| <= MAX_TRACKED_KEYS + 1 || c.pairs.Keys <= Keys(qs, LastWindow(qs)))
            && (|c.workspaces| <= MAX_TRACKED_KEYS + 1 || c.workspaces.Keys <= Workspaces(qs, LastWindow(qs)))
  {
    if |qs| > 0 {
      var front, q := qs[..|qs| - 1], qs[|qs| - 1];
      TrackedIsBounded(limits, front);
      var c, d := After(limits, front), After(limits, qs);
      ChargeTrims(limits, c, q);
      assert q.Key() in Keys(qs, q.Window()) && q.workspace in Workspaces(qs, q.Window());
      hide After, Asked, Trimmed, Keys, Workspaces;
      forall w: nat ensures Keys(front, w) <= Keys(qs, w) && Workspaces(front, w) <= Workspaces(qs, w) {
        KeysGrow(qs, w);
      }
      TrimAsked(c.pairs, d.pairs, q.Key(), q.Window(), w => Keys(front, w), w => Keys(qs, w));
      TrimAsked(c.workspaces, d.workspaces, q.workspace, q.Window(), w => Workspaces(front, w),
                w => Workspaces(qs, w));
    }
  }
}
