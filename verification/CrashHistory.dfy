/**
 * What survives is the runs that committed: their links, their names, their bodies and their epochs, in their order.
 */
module CrashHistory {
  import opened Octets
  import opened CrashVictim

  /**
   * The run's transaction went through: there is a group, its message merges, its name is new and it lived that long.
   */
  predicate Counts(start: Option<u64>, h: seq<Run>, run: Run) {
    && run.Process? && start.Some? && run.merged.Some? && !Named(h, run.doc)
    && run.point !in {BeforeBegin, AfterBegin, AfterProcessMessage, AfterMlsStateWrite, AfterChainReservation,
                      AfterDocumentWrite, BeforeCommit}
  }

  predicate Named(h: seq<Run>, doc: string) { exists i | 0 <= i < |h| :: h[i].Process? && h[i].doc == doc }

  /** The runs that committed, in order. */
  function History(start: Option<u64>, runs: seq<Run>): seq<Run> {
    if |runs| == 0 then [] else
      var h := History(start, runs[..|runs| - 1]);
      if Counts(start, h, runs[|runs| - 1]) then h + [runs[|runs| - 1]] else h
  }

  /** What the columns of one committed run hold. */
  predicate Stored(d: Disk, h: seq<Run>, i: nat)
    requires i < |h|
  {
    && h[i].Process? && h[i].merged.Some?
    && var epoch := h[i].merged.value;
    && h[i].doc in d.documents
    && d.documents[h[i].doc] == Document(h[i].body, if epoch < 0x8000_0000_0000_0000 then epoch else -1)
    && (i + 1) in d.chain
    && d.chain[i + 1].envelope == "weald/v1;link=" + Decimal(i + 1) + ";doc=" + h[i].doc + ";body=" + h[i].body
    && (h[i].point in {MidSend, AfterSend, Never} ==> (i + 1) in d.outbox)
    && (h[i].point in {AfterSend, Never} ==> d.chain[i + 1].sent)
  }

  ghost predicate Recorded(d: Disk, start: Option<u64>, h: seq<Run>) {
    && (forall i | 0 <= i < |h| :: Stored(d, h, i))
    && (forall l :: l in d.chain <==> 1 <= l <= |h|)
    && (forall doc :: doc in d.documents <==> Named(h, doc))
    && d.mlsEpoch == (if h == [] then start else if h[|h| - 1].Process? then h[|h| - 1].merged else None)
    && (d.appEpoch.Some? <==> h != []) && (h != [] ==> start.Some?)
  }

  /** A later disk that lost nothing. */
  ghost predicate Keeps(d: Disk, r: Disk) {
    && r.documents == d.documents && r.mlsEpoch == d.mlsEpoch && r.appEpoch == d.appEpoch
    && r.chain.Keys == d.chain.Keys && d.outbox.Keys <= r.outbox.Keys
    && forall l | l in d.chain ::
         r.chain[l].envelope == d.chain[l].envelope && (d.chain[l].sent ==> r.chain[l].sent)
  }

  lemma SendKeeps(d: Disk, r: Disk, link: nat, bytes: string)
    requires Keeps(d, r)
    ensures Keeps(d, Appended(r, link, bytes)) && Keeps(d, Marked(Appended(r, link, bytes), link))
  {
  }

  lemma {:induction false} ResentKeepsAll(d: Disk, links: seq<nat>, k: nat)
    requires k <= |links| && forall i | 0 <= i < |links| :: links[i] in d.chain
    ensures Keeps(d, Resent(d, links, k))
  {
    if k > 0 {
      hide Keeps, Appended, Marked;
      ResentKeepsAll(d, links, k - 1);
      SendKeeps(d, Resent(d, links, k - 1), links[k - 1], d.chain[links[k - 1]].envelope);
    }
  }

  lemma ResumedKeepsAll(d: Disk, k: nat, mid: bool)
    ensures Keeps(d, Resumed(d, k, mid))
  {
    hide Keeps, Appended, Marked, Resent;
    UnsentAreLinks(d, MaxLink(d.chain.Keys));
    var links := Unsent(d);
    ResentKeepsAll(d, links, if k < |links| then k else |links|);
    if k < |links| { SendKeeps(d, Resent(d, links, k), links[k], d.chain[links[k]].envelope); }
  }

  lemma KeptIsRecorded(d: Disk, r: Disk, start: Option<u64>, h: seq<Run>)
    requires Recorded(d, start, h) && Keeps(d, r)
    ensures Recorded(r, start, h)
  {
    forall i | 0 <= i < |h| ensures Stored(r, h, i) { assert Stored(d, h, i); }
  }

  lemma NextIsCount(d: Disk, start: Option<u64>, h: seq<Run>)
    requires Consistent(d) && Recorded(d, start, h)
    ensures NextLink(d) == |h| + 1
  {
    MaxIsCount(d);
    var m := |d.documents|;
    assert m in d.chain || m == 0;
    assert |h| in d.chain || |h| == 0;
    assert (m + 1) !in d.chain && (|h| + 1) !in d.chain;
  }

  /** What a run that counts does to the disk. */
  ghost predicate Adds(d: Disk, r: Disk, run: Run, n: nat)
    requires run.Process? && run.merged.Some?
  {
    && r.documents == d.documents[run.doc := Document(run.body, AsI64(run.merged.value))]
    && n in r.chain && r.chain == d.chain[n := r.chain[n]] && r.chain[n].envelope == Envelope(n, run.doc, run.body)
    && (run.point.Marks() ==> r.chain[n].sent) && (run.point.Appends() ==> n in r.outbox)
    && d.outbox.Keys <= r.outbox.Keys && r.mlsEpoch == run.merged && r.appEpoch.Some?
  }

  lemma StepAdds(d: Disk, run: Run, n: nat)
    requires run.Process? && Proceeds(d, run.doc, run.merged) && run.point.Commits() && n == NextLink(d)
    ensures Adds(d, Step(d, run), run, n)
  {
    hide Envelope;
    var c := Committed(d, run.doc, run.body, run.merged.value);
    assert c.chain[n].envelope == Envelope(n, run.doc, run.body);
  }

  lemma NamedMore(h: seq<Run>, run: Run, doc: string)
    requires run.Process?
    ensures Named(h + [run], doc) <==> Named(h, doc) || doc == run.doc
  {
    var all := h + [run];
    assert all[|h|] == run;
    if Named(h, doc) {
      var i :| 0 <= i < |h| && h[i].Process? && h[i].doc == doc;
      assert all[i] == h[i];
    }
  }

  lemma StoredStays(d: Disk, r: Disk, h: seq<Run>, run: Run, i: nat)
    requires i < |h| && Stored(d, h, i) && run.Process? && run.merged.Some? && Adds(d, r, run, |h| + 1)
    requires !Named(h, run.doc)
    ensures Stored(r, h + [run], i)
  {
    hide Envelope;
    assert (h + [run])[i] == h[i] && h[i].doc != run.doc;
  }

  lemma StoredNew(d: Disk, r: Disk, h: seq<Run>, run: Run)
    requires run.Process? && run.merged.Some? && Adds(d, r, run, |h| + 1)
    ensures Stored(r, h + [run], |h|)
  {
    assert (h + [run])[|h|] == run;
  }

  lemma CommitRecords(d: Disk, start: Option<u64>, h: seq<Run>, run: Run)
    requires Consistent(d) && Recorded(d, start, h) && Counts(start, h, run)
    ensures Recorded(Step(d, run), start, h + [run])
  {
    NextIsCount(d, start, h);
    GroupStays(d, start, h);
    var r, all := Step(d, run), h + [run];
    StepAdds(d, run, |h| + 1);
    hide Step, Stored, Consistent, Envelope;
    forall i | 0 <= i < |all| ensures Stored(r, all, i) {
      if i < |h| { StoredStays(d, r, h, run, i); } else { StoredNew(d, r, h, run); }
    }
    hide Named;
    forall doc ensures doc in r.documents <==> Named(all, doc) { NamedMore(h, run, doc); }
    assert all[|all| - 1] == run;
  }

  lemma StepRecords(d: Disk, start: Option<u64>, h: seq<Run>, run: Run)
    requires Consistent(d) && Recorded(d, start, h)
    ensures Recorded(Step(d, run), start, if Counts(start, h, run) then h + [run] else h)
  {
    if Counts(start, h, run) {
      CommitRecords(d, start, h, run);
    } else if run.Resume? {
      ResumedKeepsAll(d, run.sends, run.mid);
      KeptIsRecorded(d, Step(d, run), start, h);
    } else {
      assert d.mlsEpoch.Some? <==> start.Some? by { GroupStays(d, start, h); }
      assert Step(d, run) == d;
    }
  }

  lemma GroupStays(d: Disk, start: Option<u64>, h: seq<Run>)
    requires Recorded(d, start, h)
    ensures d.mlsEpoch.Some? <==> start.Some?
  {
    if h != [] { assert Stored(d, h, |h| - 1); }
  }

  /**
   * After any runs and crashes the chain, the documents, the marks and the epochs are those of the runs that committed:
   * link by link in their order, under their names, with their bodies, and of no other run.
   */
  lemma {:induction false} DiskIsItsHistory(start: Option<u64>, runs: seq<Run>)
    ensures Recorded(After(start, runs), start, History(start, runs))
  {
    if |runs| > 0 {
      hide Recorded, Counts, Step, Consistent;
      var front := runs[..|runs| - 1];
      DiskIsItsHistory(start, front);
      AlwaysConsistent(start, front);
      StepRecords(After(start, front), start, History(start, front), runs[|runs| - 1]);
    }
  }

  /** How many links below this one wait to be sent. */
  ghost function WaitingBelow(d: Disk, l: nat): nat {
    if l <= 1 then 0 else WaitingBelow(d, l - 1) + if (l - 1) in d.chain && !d.chain[l - 1].sent then 1 else 0
  }

  lemma {:induction false} UnsentAt(d: Disk, l: nat, n: nat)
    requires 1 <= l <= n && l in d.chain && !d.chain[l].sent
    ensures WaitingBelow(d, l) == |UnsentUpTo(d, l - 1)| < |UnsentUpTo(d, n)|
    ensures UnsentUpTo(d, n)[WaitingBelow(d, l)] == l
  {
    WaitingCounts(d, l);
    if l < n { UnsentAt(d, l, n - 1); }
  }

  lemma {:induction false} WaitingCounts(d: Disk, l: nat)
    requires l >= 1
    ensures WaitingBelow(d, l) == |UnsentUpTo(d, l - 1)|
  {
    if l > 1 { WaitingCounts(d, l - 1); }
  }

  /** A resume sends the lowest links first: one that waited is marked exactly if fewer than `k` waited below it. */
  lemma ResumeSendsTheLowest(start: Option<u64>, runs: seq<Run>, k: nat, mid: bool, l: nat)
    requires l in After(start, runs).chain && !After(start, runs).chain[l].sent
    ensures var d, r := After(start, runs), Step(After(start, runs), Resume(k, mid));
            l in r.chain && (r.chain[l].sent <==> WaitingBelow(d, l) < k)
  {
    AlwaysConsistent(start, runs);
    var d := After(start, runs);
    hide After;
    MaxIsCount(d);
    var n, links := MaxLink(d.chain.Keys), Unsent(d);
    UnsentAreLinks(d, n);
    UnsentAt(d, l, n);
    hide UnsentUpTo, Resent, Consistent;
    var sent := if k < |links| then k else |links|;
    ResentChain(d, links, sent);
    var w := WaitingBelow(d, l);
    AmongTheFirst(links, w, sent);
  }

  lemma AmongTheFirst(links: seq<nat>, w: nat, sent: nat)
    requires w < |links| && sent <= |links| && forall i, j | 0 <= i < j < |links| :: links[i] != links[j]
    ensures links[w] in links[..sent] <==> w < sent
  {
    if w < sent { assert links[..sent][w] == links[w]; }
  }

  // ------------------------------------------------------------ reading an envelope back

  predicate AllDigits(s: string) { forall i | 0 <= i < |s| :: '0' <= s[i] <= '9' }

  lemma {:induction false} DecimalDigits(n: nat)
    ensures AllDigits(Decimal(n))
  {
    if n >= 10 { DecimalDigits(n / 10); }
  }

  lemma {:induction false} DecimalIsInjective(m: nat, n: nat)
    requires Decimal(m) == Decimal(n)
    ensures m == n
  {
    assert (m >= 10 <==> |Decimal(m)| >= 2) && (n >= 10 <==> |Decimal(n)| >= 2);
    var a, b := Decimal(m), Decimal(n);
    assert a[|a| - 1] == b[|b| - 1];
    if m >= 10 {
      assert a[..|a| - 1] == Decimal(m / 10) && b[..|b| - 1] == Decimal(n / 10);
      DecimalIsInjective(m / 10, n / 10);
    }
  }

  lemma EndsNoLater(a: string, b: string, s: string, t: string)
    requires AllDigits(b) && a + (";" + s) == b + (";" + t)
    ensures |b| <= |a|
  {
    var x := a + (";" + s);
    assert x[|a|] == ';';
  }

  lemma DigitsEnd(a: string, b: string, s: string, t: string)
    requires AllDigits(a) && AllDigits(b) && a + (";" + s) == b + (";" + t)
    ensures a == b && s == t
  {
    EndsNoLater(a, b, s, t);
    EndsNoLater(b, a, t, s);
    var x := a + (";" + s);
    assert a == x[..|a|] == b;
    assert s == x[|a| + 1..] == t;
  }

  /** An envelope always names its link; its document and body only together, as the marker between them may recur. */
  lemma EnvelopeNamesItsLink(l: nat, doc: string, body: string, m: nat, other: string, text: string)
    ensures Envelope(l, doc, body) == Envelope(m, other, text)
            <==> l == m && doc + ";body=" + body == other + ";body=" + text
  {
    var s, t := "doc=" + doc + ";body=" + body, "doc=" + other + ";body=" + text;
    var x, y := Envelope(l, doc, body), Envelope(m, other, text);
    assert x == "weald/v1;link=" + (Decimal(l) + (";" + s)) && y == "weald/v1;link=" + (Decimal(m) + (";" + t));
    assert s == "doc=" + (doc + ";body=" + body) && t == "doc=" + (other + ";body=" + text);
    if x == y {
      assert Decimal(l) + (";" + s) == x[|"weald/v1;link="|..] == y[|"weald/v1;link="|..] == Decimal(m) + (";" + t);
      DecimalDigits(l);
      DecimalDigits(m);
      DigitsEnd(Decimal(l), Decimal(m), s, t);
      DecimalIsInjective(l, m);
      assert doc + ";body=" + body == s[4..] == t[4..] == other + ";body=" + text;
    }
  }
}
