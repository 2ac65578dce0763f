/** Reserve, commit, send, mark: the author chain over any sequence of runs, each dying wherever it can. */
module CrashVictim {
  import opened Octets

  const I64_MAX: nat := 0x7FFF_FFFF_FFFF_FFFF

  /** Where a run dies. `MidSend` is between the append to the outbox and the mark in the chain. */
  datatype Point =
    | BeforeBegin | AfterBegin | AfterProcessMessage | AfterMlsStateWrite | AfterChainReservation | AfterDocumentWrite
    | BeforeCommit | AfterCommit | MidSend | AfterSend | Never
  {
    predicate Commits() { AfterCommit? || Appends() }
    predicate Appends() { MidSend? || Marks() }
    predicate Marks() { AfterSend? || Never? }
  }

  datatype Document = Document(body: string, epoch: int)

  datatype Link = Link(envelope: string, sent: bool)

  /** What survives a crash: one database and a directory of outbox files. */
  datatype Disk = Disk(
    mlsEpoch: Option<u64>, documents: map<string, Document>, chain: map<nat, Link>, appEpoch: Option<int>,
    outbox: map<nat, string>)

  function Decimal(n: nat): (s: string)
    ensures |s| >= 1
  {
    if n < 10 then [('0' as int + n) as char] else Decimal(n / 10) + [('0' as int + n % 10) as char]
  }

  /** The bytes a device means to send for one link. */
  function Envelope(link: nat, doc: string, body: string): (e: string)
    ensures |e| > 0
  {
    "weald/v1;link=" + Decimal(link) + ";doc=" + doc + ";body=" + body
  }

  /** `i64::try_from(epoch).unwrap_or(-1)`. */
  function AsI64(epoch: u64): int { if epoch <= I64_MAX then epoch else -1 }

  // ------------------------------------------------------------------ one run

  /** `coalesce(max(link), 0)`. */
  ghost function MaxLink(links: set<nat>): (m: nat)
    ensures forall l | l in links :: l <= m
    ensures links == {} ==> m == 0
    ensures links != {} ==> m in links
  {
    if links == {} then 0 else
      var l :| l in links;
      var m := MaxLink(links - {l});
      assert forall k | k in links :: k == l || k in links - {l};
      if l < m then m else l
  }

  ghost function NextLink(d: Disk): nat { MaxLink(d.chain.Keys) + 1 }

  /** What one run commits in its one transaction. */
  ghost function Committed(d: Disk, doc: string, body: string, epoch: u64): Disk {
    var link := NextLink(d);
    d.(mlsEpoch := Some(epoch),
       chain := d.chain[link := Link(Envelope(link, doc, body), false)],
       documents := d.documents[doc := Document(body, AsI64(epoch))],
       appEpoch := Some(AsI64(epoch)))
  }

  function Appended(d: Disk, link: nat, bytes: string): Disk {
    d.(outbox := d.outbox[link := (if link in d.outbox then d.outbox[link] else "") + bytes])
  }

  function Marked(d: Disk, link: nat): Disk {
    if link in d.chain then d.(chain := d.chain[link := d.chain[link].(sent := true)]) else d
  }

  /** The run goes through: there is a group, the message is a commit it takes, and the document is new. */
  predicate Proceeds(d: Disk, doc: string, merged: Option<u64>) {
    d.mlsEpoch.Some? && merged.Some? && doc !in d.documents
  }

  ghost function Processed(d: Disk, doc: string, body: string, merged: Option<u64>, point: Point): Disk {
    if !Proceeds(d, doc, merged) || !point.Commits() then d else
      var c := Committed(d, doc, body, merged.value);
      var link := NextLink(d);
      var bytes := Envelope(link, doc, body);
      if !point.Appends() then c
      else if !point.Marks() then Appended(c, link, bytes)
      else Marked(Appended(c, link, bytes), link)
  }

  /** The links reserved and not marked, lowest first. */
  ghost function UnsentUpTo(d: Disk, n: nat): seq<nat> {
    if n == 0 then []
    else UnsentUpTo(d, n - 1) + (if n in d.chain && !d.chain[n].sent then [n] else [])
  }

  ghost function Unsent(d: Disk): seq<nat> { UnsentUpTo(d, MaxLink(d.chain.Keys)) }

  /** The first `k` of `links` are sent and marked, with the bytes that were read before the first send. */
  ghost function Resent(d: Disk, links: seq<nat>, k: nat): Disk
    requires k <= |links| && forall i | 0 <= i < |links| :: links[i] in d.chain
  {
    if k == 0 then d else
      var r := Resent(d, links, k - 1);
      Marked(Appended(r, links[k - 1], d.chain[links[k - 1]].envelope), links[k - 1])
  }

  /** A resume that dies after `k` sends, or in the middle of the next one. */
  ghost function Resumed(d: Disk, k: nat, mid: bool): Disk {
    UnsentAreLinks(d, MaxLink(d.chain.Keys));
    var links := Unsent(d);
    if k >= |links| then Resent(d, links, |links|)
    else if mid then Appended(Resent(d, links, k), links[k], d.chain[links[k]].envelope)
    else Resent(d, links, k)
  }

  lemma {:induction false} UnsentAreLinks(d: Disk, n: nat)
    ensures forall i | 0 <= i < |UnsentUpTo(d, n)| ::
              UnsentUpTo(d, n)[i] in d.chain && !d.chain[UnsentUpTo(d, n)[i]].sent
    ensures forall i | 0 <= i < |UnsentUpTo(d, n)| :: 1 <= UnsentUpTo(d, n)[i] <= n
    ensures forall i, j | 0 <= i < j < |UnsentUpTo(d, n)| :: UnsentUpTo(d, n)[i] < UnsentUpTo(d, n)[j]
    ensures forall l | 1 <= l <= n && l in d.chain && !d.chain[l].sent :: l in UnsentUpTo(d, n)
  {
    if n > 0 { UnsentAreLinks(d, n - 1); }
  }

  // -------------------------------------------------------------- as it is written

  class Victim {
    var mlsEpoch: Option<u64>
    var documents: map<string, Document>
    var chain: map<nat, Link>
    var appEpoch: Option<int>
    var outbox: map<nat, string>

    ghost function State(): Disk
      reads this
    {
      Disk(mlsEpoch, documents, chain, appEpoch, outbox)
    }

    constructor (mlsEpoch: Option<u64>)
      ensures State() == Disk(mlsEpoch, map[], map[], None, map[])
    {
      this.mlsEpoch := mlsEpoch;
      documents, chain, appEpoch, outbox := map[], map[], None, map[];
    }

    method HighestLink() returns (m: nat)
      ensures m == MaxLink(chain.Keys)
    {
      m := 0;
      var todo := chain.Keys;
      while todo != {}
        invariant todo <= chain.Keys
        invariant forall l | l in chain && l !in todo :: l <= m
        invariant m == 0 || m in chain
      {
        var l :| l in todo;
        if l > m { m := l; }
        todo := todo - {l};
      }
    }

    /** Append, then mark: the one order that cannot lose a link. Answers whether the run is still alive. */
    method Send(link: nat, bytes: string, mid: bool) returns (alive: bool)
      requires link in chain
      modifies this`outbox, this`chain
      ensures alive == !mid
      ensures State() == if mid then Appended(old(State()), link, bytes)
              else Marked(Appended(old(State()), link, bytes), link)
    {
      var file := if link in outbox then outbox[link] else "";
      outbox := outbox[link := file + bytes];
      if mid { return false; }
      chain := chain[link := chain[link].(sent := true)];
      alive := true;
    }

    /** One transaction covers the MLS state, the reservation, the document and the epoch the app believes in. */
    method Process(doc: string, body: string, merged: Option<u64>, point: Point)
      modifies this
      ensures State() == Processed(old(State()), doc, body, merged, point)
    {
      hide Envelope, MaxLink, Appended, Marked;
      if mlsEpoch.None? || point.BeforeBegin? || point.AfterBegin? { return; }
      if merged.None? || point.AfterProcessMessage? { return; }
      var epoch := merged.value;
      var newMls := Some(epoch);
      if point.AfterMlsStateWrite? { return; }
      var highest := HighestLink();
      var link := highest + 1;
      var bytes := Envelope(link, doc, body);
      var newChain := chain[link := Link(bytes, false)];
      if point.AfterChainReservation? || doc in documents { return; }
      var newDocuments := documents[doc := Document(body, AsI64(epoch))];
      if point.AfterDocumentWrite? { return; }
      var newApp := Some(AsI64(epoch));
      if point.BeforeCommit? { return; }
      mlsEpoch, chain, documents, appEpoch := newMls, newChain, newDocuments, newApp;
      if point.AfterCommit? { return; }
      var _ := Send(link, bytes, point.MidSend?);
    }

    /** The rows a resume reads before it sends anything. */
    method ReadUnsent() returns (unsent: seq<(nat, string)>)
      ensures |unsent| == |Unsent(State())|
      ensures forall i | 0 <= i < |unsent| ::
                unsent[i].0 == Unsent(State())[i] && unsent[i].0 in chain && unsent[i].1 == chain[unsent[i].0].envelope
    {
      var highest := HighestLink();
      unsent := [];
      ghost var d := State();
      for l := 1 to highest + 1
        invariant |unsent| == |UnsentUpTo(d, l - 1)|
        invariant forall i | 0 <= i < |unsent| ::
                    unsent[i].0 == UnsentUpTo(d, l - 1)[i] && unsent[i].0 in chain
                        && unsent[i].1 == chain[unsent[i].0].envelope
      {
        if l in chain && !chain[l].sent { unsent := unsent + [(l, chain[l].envelope)]; }
      }
    }

    /** Send and mark the first `k` of the rows read. */
    method SendFirst(unsent: seq<(nat, string)>, k: nat, ghost links: seq<nat>)
      requires k <= |unsent| == |links| && forall i | 0 <= i < |links| :: links[i] in chain
      requires forall i | 0 <= i < |links| :: unsent[i].0 == links[i] && unsent[i].1 == chain[links[i]].envelope
      modifies this
      ensures State() == Resent(old(State()), links, k)
    {
      hide Appended, Marked;
      ghost var d := State();
      var i := 0;
      while i < k
        invariant i <= k && State() == Resent(d, links, i)
      {
        ResentLinks(d, links, i);
        var _ := Send(unsent[i].0, unsent[i].1, false);
        i := i + 1;
      }
    }

    /** Resend what was reserved and not marked, with the reserved bytes, dying after `k` sends if it comes to that. */
    method Resume(k: nat, mid: bool)
      modifies this
      ensures State() == Resumed(old(State()), k, mid)
    {
      hide Unsent, MaxLink, Resent, Appended, Marked;
      var unsent := ReadUnsent();
      ghost var d := State();
      ghost var links := Unsent(d);
      var sends := if k < |unsent| then k else |unsent|;
      SendFirst(unsent, sends, links);
      ResentLinks(d, links, sends);
      if sends < |unsent| && mid { var _ := Send(unsent[sends].0, unsent[sends].1, true); }
    }
  }

  lemma {:induction false} ResentLinks(d: Disk, links: seq<nat>, k: nat)
    requires k <= |links| && forall i | 0 <= i < |links| :: links[i] in d.chain
    ensures Resent(d, links, k).chain.Keys == d.chain.Keys
  {
    if k > 0 { ResentLinks(d, links, k - 1); }
  }

  // ------------------------------------------------------------------ the invariant

  function Repeat(e: string, k: nat): string { if k == 0 then "" else Repeat(e, k - 1) + e }

  ghost predicate IsCopies(file: string, e: string) { exists k: nat :: file == Repeat(e, k) }

  /** An outbox file is whole copies of its link's one envelope, and a marked link has at least one. */
  ghost predicate Copied(d: Disk, l: nat) {
    && (l in d.outbox ==> l in d.chain && IsCopies(d.outbox[l], d.chain[l].envelope))
    && (l in d.chain && d.chain[l].sent ==> l in d.outbox && |d.outbox[l]| > 0)
  }

  predicate LinksCount(d: Disk) {
    && (forall l | l in d.chain :: 1 <= l <= |d.documents| && |d.chain[l].envelope| > 0)
    && (forall l | 1 <= l <= |d.documents| :: l in d.chain)
  }

  predicate EpochsAgree(d: Disk) {
    d.appEpoch.Some? ==> d.mlsEpoch.Some? && d.appEpoch.value == AsI64(d.mlsEpoch.value)
  }

  ghost predicate Consistent(d: Disk) {
    LinksCount(d) && EpochsAgree(d) && forall l :: Copied(d, l)
  }

  lemma MaxIsCount(d: Disk)
    requires LinksCount(d)
    ensures MaxLink(d.chain.Keys) == |d.documents| && NextLink(d) !in d.chain
  {
    if |d.documents| > 0 { assert |d.documents| in d.chain; }
  }

  lemma CommittedKeeps(d: Disk, doc: string, body: string, epoch: u64)
    requires Consistent(d) && doc !in d.documents
    ensures Consistent(Committed(d, doc, body, epoch)) && NextLink(d) in Committed(d, doc, body, epoch).chain
  {
    MaxIsCount(d);
    var c := Committed(d, doc, body, epoch);
    assert |c.documents| == |d.documents| + 1;
    forall l ensures Copied(c, l) { assert Copied(d, l); }
  }

  lemma AppendedKeeps(d: Disk, link: nat)
    requires Consistent(d) && link in d.chain
    ensures var a := Appended(d, link, d.chain[link].envelope);
            Consistent(a) && link in a.outbox && |a.outbox[link]| > 0
  {
    var e := d.chain[link].envelope;
    var a := Appended(d, link, e);
    assert Copied(d, link);
    if link in d.outbox {
      var k: nat :| d.outbox[link] == Repeat(e, k);
      assert a.outbox[link] == Repeat(e, k + 1);
    } else {
      assert Repeat(e, 1) == Repeat(e, 0) + e;
      assert a.outbox[link] == Repeat(e, 1);
    }
    forall l ensures Copied(a, l) { assert Copied(d, l); }
  }

  lemma MarkedKeeps(d: Disk, link: nat)
    requires Consistent(d) && link in d.chain && link in d.outbox && |d.outbox[link]| > 0
    ensures Consistent(Marked(d, link))
  {
    forall l ensures Copied(Marked(d, link), l) { assert Copied(d, l); }
  }

  lemma SentKeeps(d: Disk, link: nat)
    requires Consistent(d) && link in d.chain
    ensures Consistent(Marked(Appended(d, link, d.chain[link].envelope), link))
  {
    AppendedKeeps(d, link);
    MarkedKeeps(Appended(d, link, d.chain[link].envelope), link);
  }

  lemma ProcessedKeeps(d: Disk, doc: string, body: string, merged: Option<u64>, point: Point)
    requires Consistent(d)
    ensures Consistent(Processed(d, doc, body, merged, point))
  {
    if Proceeds(d, doc, merged) && point.Commits() {
      CommittedKeeps(d, doc, body, merged.value);
      var c := Committed(d, doc, body, merged.value);
      if point.Appends() {
        AppendedKeeps(c, NextLink(d));
        if point.Marks() { SentKeeps(c, NextLink(d)); }
      }
    }
  }

  /** Sending touches no envelope, and marks exactly what was sent. */
  lemma {:induction false} ResentChain(d: Disk, links: seq<nat>, k: nat)
    requires k <= |links| && forall i | 0 <= i < |links| :: links[i] in d.chain
    ensures var r := Resent(d, links, k);
            && r.chain.Keys == d.chain.Keys
            && (forall l | l in d.chain :: r.chain[l].envelope == d.chain[l].envelope)
            && (forall l | l in d.chain :: r.chain[l].sent == (d.chain[l].sent || l in links[..k]))
  {
    if k > 0 {
      ResentChain(d, links, k - 1);
      assert links[..k] == links[..k - 1] + [links[k - 1]];
    }
  }

  lemma {:induction false} ResentKeeps(d: Disk, links: seq<nat>, k: nat)
    requires Consistent(d) && k <= |links| && forall i | 0 <= i < |links| :: links[i] in d.chain
    ensures Consistent(Resent(d, links, k))
  {
    hide Consistent, Appended, Marked;
    if k > 0 {
      ResentKeeps(d, links, k - 1);
      ResentChain(d, links, k - 1);
      SentKeeps(Resent(d, links, k - 1), links[k - 1]);
    }
  }

  lemma ResumedKeeps(d: Disk, k: nat, mid: bool)
    requires Consistent(d)
    ensures Consistent(Resumed(d, k, mid))
    ensures Resumed(d, k, mid).chain.Keys == d.chain.Keys
    ensures forall l | l in d.chain :: Resumed(d, k, mid).chain[l].envelope == d.chain[l].envelope
  {
    var links := Unsent(d);
    UnsentAreLinks(d, MaxLink(d.chain.Keys));
    var sent := if k < |links| then k else |links|;
    ResentKeeps(d, links, sent);
    ResentChain(d, links, sent);
    hide Consistent, Resent;
    if k < |links| && mid { AppendedKeeps(Resent(d, links, k), links[k]); }
  }

  // ---------------------------------------------------------------------------- runs

  datatype Run =
    | Process(doc: string, body: string, merged: Option<u64>, point: Point)
    | Resume(sends: nat, mid: bool)

  ghost function Step(d: Disk, run: Run): Disk {
    match run
    case Process(doc, body, merged, point) => Processed(d, doc, body, merged, point)
    case Resume(k, mid) => Resumed(d, k, mid)
  }

  function Fresh(mlsEpoch: Option<u64>): Disk { Disk(mlsEpoch, map[], map[], None, map[]) }

  ghost function After(start: Option<u64>, runs: seq<Run>): Disk {
    if |runs| == 0 then Fresh(start) else Step(After(start, runs[..|runs| - 1]), runs[|runs| - 1])
  }

  lemma StepKeeps(d: Disk, run: Run)
    requires Consistent(d)
    ensures Consistent(Step(d, run))
    ensures forall l | l in d.chain :: l in Step(d, run).chain && Step(d, run).chain[l].envelope == d.chain[l].envelope
  {
    match run
    case Process(doc, body, merged, point) =>
      ProcessedKeeps(d, doc, body, merged, point);
      MaxIsCount(d);
    case Resume(k, mid) => ResumedKeeps(d, k, mid);
  }

  lemma {:induction false} AlwaysConsistent(start: Option<u64>, runs: seq<Run>)
    ensures Consistent(After(start, runs))
  {
    if |runs| > 0 {
      AlwaysConsistent(start, runs[..|runs| - 1]);
      StepKeeps(After(start, runs[..|runs| - 1]), runs[|runs| - 1]);
    }
  }

  /**
   * No fork: whatever was sent for a link is whole copies of the one envelope reserved for it, and marked means sent.
   */
  lemma NoFork(start: Option<u64>, runs: seq<Run>, l: nat)
    ensures var d := After(start, runs);
            && (l in d.outbox ==> l in d.chain && IsCopies(d.outbox[l], d.chain[l].envelope))
            && (l in d.chain && d.chain[l].sent ==> l in d.outbox && |d.outbox[l]| >= |d.chain[l].envelope| > 0)
  {
    AlwaysConsistent(start, runs);
    var d := After(start, runs);
    assert Copied(d, l);
    if l in d.outbox {
      var k: nat :| d.outbox[l] == Repeat(d.chain[l].envelope, k);
      if k > 0 { assert d.outbox[l] == Repeat(d.chain[l].envelope, k - 1) + d.chain[l].envelope; }
    }
  }

  /** A reserved envelope is the link's for good. */
  lemma {:induction false} EnvelopesAreForGood(start: Option<u64>, runs: seq<Run>, more: seq<Run>, l: nat)
    requires l in After(start, runs).chain
    ensures var d := After(start, runs + more);
            l in d.chain && d.chain[l].envelope == After(start, runs).chain[l].envelope
    decreases |more|
  {
    if |more| == 0 {
      assert runs + more == runs;
    } else {
      var front := more[..|more| - 1];
      EnvelopesAreForGood(start, runs, front, l);
      AlwaysConsistent(start, runs + front);
      assert (runs + more)[..|runs + more| - 1] == runs + front;
      StepKeeps(After(start, runs + front), more[|more| - 1]);
    }
  }

  /** A resume that gets through leaves nothing unsent. */
  lemma ResumeFinishes(start: Option<u64>, runs: seq<Run>, sends: nat, mid: bool)
    requires sends >= |Unsent(After(start, runs))|
    ensures var d := Step(After(start, runs), Resume(sends, mid)); forall l | l in d.chain :: d.chain[l].sent
  {
    AlwaysConsistent(start, runs);
    var d := After(start, runs);
    MaxIsCount(d);
    var links := Unsent(d);
    UnsentAreLinks(d, MaxLink(d.chain.Keys));
    ResentChain(d, links, |links|);
    hide Resent;
    assert links[..|links|] == links;
  }

  /**
   * The app and the group agree on the epoch as far as the column can hold it, and the links are 1 to the documents'
   * count.
   */
  lemma CrashAgreement(start: Option<u64>, runs: seq<Run>)
    ensures var d := After(start, runs);
            && (d.appEpoch.Some? ==>
                  d.mlsEpoch.Some? && (d.appEpoch.value == d.mlsEpoch.value <==> d.mlsEpoch.value <= I64_MAX))
            && (forall l :: l in d.chain <==> 1 <= l <= |d.documents|)
            && |d.chain| == |d.documents|
  {
    AlwaysConsistent(start, runs);
    var d := After(start, runs);
    CountTo(|d.documents|);
    assert d.chain.Keys == UpTo(|d.documents|);
    assert |d.chain| == |d.chain.Keys|;
  }

  function UpTo(n: nat): set<nat> { if n == 0 then {} else UpTo(n - 1) + {n} }

  lemma {:induction false} CountTo(n: nat)
    ensures |UpTo(n)| == n && forall l: nat :: l in UpTo(n) <==> 1 <= l <= n
  {
    if n > 0 { CountTo(n - 1); }
  }

  lemma EpochTooWide()
    ensures var d := After(Some(I64_MAX), [Process("d", "b", Some(I64_MAX + 1), Never)]);
            d.mlsEpoch == Some(I64_MAX + 1) && d.appEpoch == Some(-1)
  {
    var runs := [Process("d", "b", Some(I64_MAX + 1), Never)];
    assert runs[..0] == [];
    MaxIsCount(Fresh(Some(I64_MAX)));
  }
}
