/** Runs of sequence numbers, and what a release makes of numbers held in any order. */
module SeqOrder {
  import opened Octets

  const HIGHEST: nat := TWO_TO_64 - 1

  /** The numbers from `a` up to, not including, `b`. */
  function Range(a: nat, b: nat): (r: seq<nat>)
    ensures |r| == if a < b then b - a else 0
  {
    if a >= b then [] else Range(a, b - 1) + [b - 1]
  }

  lemma {:induction false} RangeAt(a: nat, b: nat)
    ensures forall i | 0 <= i < |Range(a, b)| :: Range(a, b)[i] == a + i
  {
    if a < b { RangeAt(a, b - 1); }
  }

  lemma {:induction false} RangesJoin(a: nat, b: nat, c: nat)
    requires a <= b <= c
    ensures Range(a, b) + Range(b, c) == Range(a, c)
  {
    if b < c {
      RangesJoin(a, b, c - 1);
      assert Range(a, b) + (Range(b, c - 1) + [c - 1]) == Range(a, b) + Range(b, c - 1) + [c - 1];
    }
  }

  /** Two stretches make one gap-free run exactly when each is one and they meet. */
  lemma StretchesMeet(a: nat, s: seq<nat>, t: seq<nat>)
    ensures s + t == Range(a, a + |s + t|)
            <==> s == Range(a, a + |s|) && t == Range(a + |s|, a + |s| + |t|)
  {
    hide Range;
    var b, c := a + |s|, a + |s| + |t|;
    RangesJoin(a, b, c);
    if s + t == Range(a, c) {
      assert s == (s + t)[..|s|] == (Range(a, b) + Range(b, c))[..|s|];
      assert t == (s + t)[|s|..] == (Range(a, b) + Range(b, c))[|s|..];
    }
  }

  // ---------------------------------------------------------------------- records

  predicate Above(n: nat, seqs: seq<nat>) {
    forall i | 0 <= i < |seqs| :: seqs[i] < n
  }

  /** At or above `to`, and above everything held ahead of it. Nothing is above the highest number. */
  predicate IsRecord(held: seq<nat>, to: nat, i: nat)
    requires i < |held|
  {
    to <= held[i] && (held[i] == HIGHEST || forall j | 0 <= j < i :: held[j] < held[i])
  }

  function Records(held: seq<nat>, to: nat): seq<nat> {
    if |held| == 0 then []
    else Records(held[..|held| - 1], to) + (if IsRecord(held, to, |held| - 1) then [held[|held| - 1]] else [])
  }

  lemma RecordOne(held: seq<nat>, n: nat, to: nat)
    ensures Records(held + [n], to)
            == Records(held, to) + if to <= n && (n == HIGHEST || Above(n, held)) then [n] else []
  {
    var all := held + [n];
    assert all[..|held|] == held && all[|held|] == n;
    assert forall i | 0 <= i < |held| :: all[i] == held[i];
  }

  lemma AboveOne(held: seq<nat>, n: nat, m: nat)
    ensures Above(m, held + [n]) <==> Above(m, held) && n < m
  {
    var all := held + [n];
    assert all[|held|] == n && forall i | 0 <= i < |held| :: all[i] == held[i];
  }

  /** One past the highest number held, and at least `to`. */
  function Top(held: seq<nat>, to: nat): nat {
    if |held| == 0 then to else Max(Top(held[..|held| - 1], to), held[|held| - 1] + 1)
  }

  function Max(a: nat, b: nat): nat { if a < b then b else a }

  /** Each number held from `to` on comes behind all those between, and the highest one comes once. */
  predicate Covers(held: seq<nat>, to: nat) {
    forall i | 0 <= i < |held| && to <= held[i] :: Covered(held[..i], to, held[i])
  }

  predicate Covered(ahead: seq<nat>, to: nat, n: nat) {
    (forall k | to <= k < n :: k in ahead) && (n == HIGHEST ==> HIGHEST !in ahead)
  }

  lemma {:induction false} TopIsBound(held: seq<nat>, to: nat)
    ensures to <= Top(held, to) && Above(Top(held, to), held)
    ensures Top(held, to) > to ==> Top(held, to) - 1 in held
  {
    if |held| > 0 {
      var front, n := held[..|held| - 1], held[|held| - 1];
      TopIsBound(front, to);
      assert held == front + [n];
    }
  }

  lemma AboveIsTop(front: seq<nat>, to: nat, n: nat)
    ensures to <= Top(front, to) && (to <= n ==> (Above(n, front) <==> Top(front, to) <= n))
  {
    hide Top;
    TopIsBound(front, to);
  }

  /** The last record is the highest number held, if that is not below `to`. */
  lemma {:induction false} LastRecord(held: seq<nat>, to: nat)
    requires forall i | 0 <= i < |held| :: held[i] <= HIGHEST
    ensures var r := Records(held, to);
            if Top(held, to) == to then r == [] else |r| > 0 && r[|r| - 1] == Top(held, to) - 1
    ensures forall k | k in Records(held, to) :: k in held
  {
    if |held| > 0 {
      var front, n := held[..|held| - 1], held[|held| - 1];
      LastRecord(front, to);
      assert held == front + [n];
      hide Top, Records;
      RecordStep(front, to, n);
      TopIsBound(front, to);
    }
  }

  lemma CoversFront(held: seq<nat>, to: nat)
    requires |held| > 0
    ensures var front, n := held[..|held| - 1], held[|held| - 1];
            Covers(held, to) <==> Covers(front, to) && (to <= n ==> Covered(front, to, n))
  {
    var front := held[..|held| - 1];
    assert forall i | 0 <= i < |front| :: front[..i] == held[..i] && front[i] == held[i];
  }

  /** A held number is queued exactly when it is at or above `to` and stands once ahead of everything as high. */
  lemma {:induction false} KeptOrSkipped(held: seq<nat>, to: nat, k: nat)
    ensures k in Records(held, to) <==> exists i | 0 <= i < |held| :: held[i] == k && IsRecord(held, to, i)
  {
    if |held| > 0 {
      var front := held[..|held| - 1];
      KeptOrSkipped(front, to, k);
      assert forall i | 0 <= i < |front| :: IsRecord(front, to, i) == IsRecord(held, to, i);
    }
  }

  ghost predicate GapFree(held: seq<nat>, to: nat) {
    Covers(held, to) <==> Records(held, to) == Range(to, Top(held, to))
  }

  lemma NewRecord(front: seq<nat>, to: nat, n: nat)
    requires forall i | 0 <= i < |front| :: front[i] <= HIGHEST
    requires to <= n <= HIGHEST && Top(front, to) <= n && GapFree(front, to)
    ensures Covers(front, to) && Covered(front, to, n) <==> Records(front, to) + [n] == Range(to, n + 1)
  {
    LastRecord(front, to);
    TopIsBound(front, to);
    hide Covers, Top;
    var r := Records(front, to);
    assert Range(to, n + 1) == Range(to, n) + [n];
    assert Top(front, to) !in front;
    if r + [n] == Range(to, n + 1) {
      assert r == (r + [n])[..|r|] == Range(to, n);
      RangeReachesTop(front, to);
      RangeAt(to, n);
      forall k | to <= k < n ensures k in front { assert r[k - to] == k; }
    }
  }

  lemma OldNumber(front: seq<nat>, to: nat, n: nat)
    requires forall i | 0 <= i < |front| :: front[i] <= HIGHEST
    requires to <= n <= HIGHEST && n < Top(front, to) && GapFree(front, to)
    ensures var r := if n == HIGHEST then Records(front, to) + [n] else Records(front, to);
            Covers(front, to) && Covered(front, to, n) <==> r == Range(to, Top(front, to))
  {
    LastRecord(front, to);
    TopIsBound(front, to);
    var m := Top(front, to) - 1;
    if n == HIGHEST {
      assert m == HIGHEST;
      var r := Records(front, to);
      assert (r + [n])[|r| - 1] == m;
      RangeAt(to, m + 1);
    } else if Covers(front, to) {
      var i :| 0 <= i < |front| && front[i] == m;
      assert Covered(front[..i], to, front[i]);
      forall k | to <= k < m ensures k in front { assert k in front[..i]; }
    }
  }

  /** What is queued is everything from `to` to the top exactly when the hold covers it. */
  lemma {:induction false} RecordsAreGapFree(held: seq<nat>, to: nat)
    requires forall i | 0 <= i < |held| :: held[i] <= HIGHEST
    ensures Covers(held, to) <==> Records(held, to) == Range(to, Top(held, to))
  {
    if |held| > 0 {
      var front, n := held[..|held| - 1], held[|held| - 1];
      RecordsAreGapFree(front, to);
      assert held == front + [n];
      hide Covers, Records, Top, Range;
      OneMore(front, to, n);
    }
  }

  lemma OneMore(front: seq<nat>, to: nat, n: nat)
    requires forall i | 0 <= i < |front| :: front[i] <= HIGHEST
    requires n <= HIGHEST && GapFree(front, to)
    ensures GapFree(front + [n], to)
  {
    var held := front + [n];
    assert held[..|held| - 1] == front;
    CoversFront(held, to);
    hide Records, Covers, Covered, Top, Range, Above;
    RecordStep(front, to, n);
    if to <= n {
      if Top(front, to) <= n { NewRecord(front, to, n); } else { OldNumber(front, to, n); }
    }
  }

  lemma RecordStep(front: seq<nat>, to: nat, n: nat)
    requires (forall i | 0 <= i < |front| :: front[i] <= HIGHEST) && n <= HIGHEST
    ensures Records(front + [n], to) == if n < to then Records(front, to)
                                        else if Top(front, to) <= n || n == HIGHEST then Records(front, to) + [n]
                                        else Records(front, to)
    ensures Top(front + [n], to) == if Top(front, to) <= n then n + 1 else Top(front, to)
    ensures to <= Top(front, to)
  {
    assert (front + [n])[..|front|] == front;
    hide Records;
    RecordOne(front, n, to);
    AboveIsTop(front, to, n);
    assert Records(front, to) + [] == Records(front, to);
  }

  lemma RangeReachesTop(held: seq<nat>, to: nat)
    requires forall i | 0 <= i < |held| :: held[i] <= HIGHEST
    ensures var r := Records(held, to); r == Range(to, to + |r|) ==> to + |r| == Top(held, to)
  {
    hide Records, Top, Range;
    LastRecord(held, to);
    TopIsBound(held, to);
    RangeAt(to, to + |Records(held, to)|);
  }

  // ------------------------------------------------------------------ what is sent

  /** A replay that ended at `to`, then what a release queued, then what came since. */
  function Joined(to: nat, held: seq<nat>, live: seq<nat>): seq<nat> { Range(0, to) + Records(held, to) + live }

  /**
   * Every number once and in order, exactly when the hold covers the replay's end and the rest goes on from its top.
   * Nothing that was held or came since is then missing.
   */
  lemma OnceInOrder(to: nat, held: seq<nat>, live: seq<nat>)
    requires forall i | 0 <= i < |held| :: held[i] <= HIGHEST
    ensures var sent, top := Joined(to, held, live), Top(held, to);
            sent == Range(0, |sent|) <==> Covers(held, to) && live == Range(top, top + |live|)
    ensures var sent := Joined(to, held, live); sent == Range(0, |sent|) ==> Above(|sent|, held) && Above(|sent|, live)
  {
    hide Covers, Records, Top, Range, Above;
    RecordsAreGapFree(held, to);
    RangeReachesTop(held, to);
    ThreeStretches(to, Records(held, to), live);
    var top := Top(held, to);
    AboveIsTop(held, to, top + |live|);
    RangeIsBelow(top, top + |live|);
  }

  lemma ThreeStretches(to: nat, r: seq<nat>, live: seq<nat>)
    ensures var sent := Range(0, to) + r + live;
            sent == Range(0, |sent|) <==> r == Range(to, to + |r|) && live == Range(to + |r|, to + |r| + |live|)
  {
    hide Range;
    StretchesMeet(0, Range(0, to) + r, live);
    StretchesMeet(0, Range(0, to), r);
  }

  lemma {:induction false} RecordsOfRange(from: nat, at: nat, to: nat)
    requires from <= at
    ensures Records(Range(from, at), to) == Range(Max(to, from), at)
  {
    hide Range;
    if from < at {
      hide Records, Above;
      RecordsOfRange(from, at - 1, to);
      RecordsGrow(from, at - 1, to);
    }
  }

  lemma RecordsGrow(from: nat, at: nat, to: nat)
    requires from <= at && Records(Range(from, at), to) == Range(Max(to, from), at)
    ensures Records(Range(from, at + 1), to) == Range(Max(to, from), at + 1)
  {
    hide Range, Records, Above;
    RangeGrows(from, at);
    RangeIsBelow(from, at);
    RecordOne(Range(from, at), at, to);
    if to <= at { RangeGrows(Max(to, from), at); }
  }

  lemma RangeGrows(a: nat, b: nat)
    requires a <= b
    ensures Range(a, b + 1) == Range(a, b) + [b]
  {
  }

  lemma RangeIsBelow(a: nat, b: nat)
    ensures Above(b, Range(a, b))
  {
    RangeAt(a, b);
  }

  /** With numbers held and sent on in order, that is when the replay ended between the two marks. */
  lemma InOrder(from: nat, to: nat, at: nat, next: nat)
    requires from <= at <= next
    ensures Joined(to, Range(from, at), Range(at, next)) == Range(0, to) + Range(Max(to, from), at) + Range(at, next)
    ensures Joined(to, Range(from, at), Range(at, next)) == Range(0, next) <==> from <= to <= at
  {
    RecordsOfRange(from, at, to);
    if from <= to <= at {
      RangesJoin(0, to, at);
      RangesJoin(0, at, next);
    }
  }
}
