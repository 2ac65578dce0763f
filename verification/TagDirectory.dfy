/** The two-phase tag directory of recovery, and the log it stands for. */
module TagDirectory {
  import opened Octets

  // Thirty-two opaque bytes each.
  type Tag = Blob
  type CommitHash = Blob
  type Group = Blob

  datatype Entry = Entry(
    group: Group, current: Option<Tag>, candidate: Option<Tag>, fallback: Option<Tag>,
    target: Option<CommitHash>, activated: Option<CommitHash>)

  function NewEntry(group: Group): Entry { Entry(group, None, None, None, None, None) }

  function Prepared(e: Entry, candidate: Tag, target: CommitHash): Entry {
    if e.target == Some(target) then e else e.(candidate := Some(candidate), target := Some(target))
  }

  datatype Activation = Activation(entry: Entry, accepted: bool)

  function Activating(e: Entry, target: CommitHash): Activation {
    if e.target != Some(target) then Activation(e, e.activated == Some(target))
    else if e.candidate.None? then Activation(e, true)
    else Activation(e.(candidate := None, fallback := e.current, current := e.candidate, target := None,
                       activated := Some(target)), true)
  }

  function OptionSeq(t: Option<Tag>): seq<Tag> { if t.Some? then [t.value] else [] }

  function Tags(e: Entry): seq<Tag> { OptionSeq(e.candidate) + OptionSeq(e.current) + OptionSeq(e.fallback) }

  /** One group's entry, updated in place. */
  class DirectoryEntry {
    const group: Group
    var current: Option<Tag>
    var candidate: Option<Tag>
    var fallback: Option<Tag>
    var target: Option<CommitHash>
    var activated: Option<CommitHash>

    function State(): Entry
      reads this
    {
      Entry(group, current, candidate, fallback, target, activated)
    }

    constructor (group: Group)
      ensures State() == NewEntry(group)
    {
      this.group := group;
      current, candidate, fallback, target, activated := None, None, None, None, None;
    }

    method Prepare(tag: Tag, commit: CommitHash)
      modifies this
      ensures State() == Prepared(old(State()), tag, commit)
    {
      if target == Some(commit) { return; }
      candidate := Some(tag);
      target := Some(commit);
    }

    /** A refused activate changes nothing. */
    method Activate(commit: CommitHash) returns (accepted: bool)
      modifies this
      ensures var a := Activating(old(State()), commit); State() == a.entry && accepted == a.accepted
    {
      if target != Some(commit) { return activated == Some(commit); }
      if candidate.None? { return true; }
      var tag := candidate;
      candidate := None;
      fallback := current;
      current := tag;
      target := None;
      activated := Some(commit);
      accepted := true;
    }
  }

  // ------------------------------------------------------------------------ the log

  datatype Op = Prepare(tag: Tag, commit: CommitHash) | Activate(done: CommitHash)

  function Apply(e: Entry, op: Op): Entry {
    match op
    case Prepare(tag, commit) => Prepared(e, tag, commit)
    case Activate(commit) => Activating(e, commit).entry
  }

  function After(group: Group, ops: seq<Op>): Entry {
    if |ops| == 0 then NewEntry(group) else Apply(After(group, ops[..|ops| - 1]), ops[|ops| - 1])
  }

  /** What was activated, in order, and what is prepared and not yet activated. */
  datatype Log = Log(activations: seq<(Tag, CommitHash)>, pending: Option<(Tag, CommitHash)>)

  function Logged(ops: seq<Op>): Log {
    if |ops| == 0 then Log([], None) else
      var l := Logged(ops[..|ops| - 1]);
      match ops[|ops| - 1]
      case Prepare(tag, commit) =>
        if l.pending.Some? && l.pending.value.1 == commit then l else l.(pending := Some((tag, commit)))
      case Activate(commit) =>
        if l.pending.Some? && l.pending.value.1 == commit then Log(l.activations + [l.pending.value], None) else l
  }

  /** The tag `back` activations ago. */
  function Nth(l: Log, back: nat): Option<Tag> {
    if |l.activations| > back then Some(l.activations[|l.activations| - 1 - back].0) else None
  }

  predicate Stands(e: Entry, l: Log) {
    && e.current == Nth(l, 0) && e.fallback == Nth(l, 1)
    && e.candidate == (if l.pending.Some? then Some(l.pending.value.0) else None)
    && e.target == (if l.pending.Some? then Some(l.pending.value.1) else None)
    && e.activated == (if |l.activations| > 0 then Some(l.activations[|l.activations| - 1].1) else None)
  }

  /**
   * The entry is its log's last two activated tags and its pending preparation: a candidate exists exactly when a
   * target does, and the tags to try are the candidate and then those two.
   */
  lemma {:induction false} EntryIsItsLog(group: Group, ops: seq<Op>)
    ensures var e, l := After(group, ops), Logged(ops);
            && e.group == group && Stands(e, l)
            && (e.candidate.Some? <==> e.target.Some?)
            && Tags(e) == OptionSeq(if l.pending.Some? then Some(l.pending.value.0) else None)
                          + OptionSeq(Nth(l, 0)) + OptionSeq(Nth(l, 1))
  {
    if |ops| > 0 { EntryIsItsLog(group, ops[..|ops| - 1]); }
  }

  /**
   * An activate is taken exactly when it names the pending commit or the last activated one, and changes the entry
   * exactly when it names the pending one.
   */
  lemma ActivateAnswers(group: Group, ops: seq<Op>, commit: CommitHash)
    ensures var e, l := After(group, ops), Logged(ops);
            var a := Activating(e, commit);
            var ours, again := l.pending.Some? && l.pending.value.1 == commit,
                               |l.activations| > 0 && l.activations[|l.activations| - 1].1 == commit;
            && (a.accepted <==> ours || again)
            && (a.entry != e <==> ours) && (ours ==> a.entry.current == e.candidate && a.entry.fallback == e.current)
  {
    EntryIsItsLog(group, ops);
  }

  /**
   * A prepare changes nothing exactly while its commit is pending, so after its own activate it never does. An activate
   * is taken without changing anything exactly when its commit is the last activated one and not pending again.
   */
  lemma RetriesChangeNothing(group: Group, ops: seq<Op>, tag: Tag, commit: CommitHash)
    ensures var e, l := After(group, ops), Logged(ops);
            var pending := l.pending.Some? && l.pending.value.1 == commit;
            && (Prepared(e, tag, commit) == e <==> pending)
            && (Activating(e, commit) == Activation(e, true)
                <==> !pending && |l.activations| > 0 && l.activations[|l.activations| - 1].1 == commit)
  {
    EntryIsItsLog(group, ops);
  }

  /** A prepare that arrives after its own activate opens the slot again. */
  lemma LatePrepareReopens(group: Group, tag: Tag, commit: CommitHash)
    ensures var ops := [Prepare(tag, commit), Activate(commit)];
            && After(group, ops).candidate.None?
            && After(group, ops + [Prepare(tag, commit)]).candidate == Some(tag)
            && Tags(After(group, ops + [Prepare(tag, commit)])) == [tag, tag]
  {
    var a, b := Prepare(tag, commit), Activate(commit);
    assert [a][..0] == [] && [a, b][..1] == [a] && ([a, b] + [a])[..2] == [a, b];
    assert After(group, [a]) == Apply(NewEntry(group), a);
    assert After(group, [a, b]) == Apply(After(group, [a]), b);
  }

  // ------------------------------------------------------------------- the directory

  predicate Listed(entries: seq<Entry>, group: Group) { exists i | 0 <= i < |entries| :: entries[i].group == group }

  predicate OnePerGroup(entries: seq<Entry>) {
    forall i, j | 0 <= i < j < |entries| :: entries[i].group != entries[j].group
  }

  /** A recovery principal's directory. */
  class Directory {
    var entries: seq<Entry>

    constructor ()
      ensures entries == []
    {
      entries := [];
    }

    /** Where the group's entry is, made if this is its first wrap. */
    method EntryOf(group: Group) returns (i: nat)
      requires OnePerGroup(entries)
      modifies this
      ensures OnePerGroup(entries) && i < |entries| && entries[i].group == group
      ensures entries == if Listed(old(entries), group) then old(entries) else old(entries) + [NewEntry(group)]
      ensures !Listed(old(entries), group) ==> i == |old(entries)|
    {
      i := 0;
      while i < |entries|
        invariant i <= |entries| && forall j | 0 <= j < i :: entries[j].group != group
      {
        if entries[i].group == group { return; }
        i := i + 1;
      }
      entries := entries + [NewEntry(group)];
    }

    method Get(group: Group) returns (e: Option<Entry>)
      ensures e.Some? <==> Listed(entries, group)
      ensures e.Some? ==> e.value in entries && e.value.group == group
    {
      var i := 0;
      while i < |entries|
        invariant i <= |entries| && forall j | 0 <= j < i :: entries[j].group != group
      {
        if entries[i].group == group { return Some(entries[i]); }
        i := i + 1;
      }
      e := None;
    }

    /** `entry(group).prepare(..)` or `entry(group).activate(..)`. */
    method Update(group: Group, op: Op)
      requires OnePerGroup(entries)
      modifies this
      ensures OnePerGroup(entries) && entries == Updated(old(entries), group, op)
    {
      var i := EntryOf(group);
      UpdatedAt(old(entries), entries, i, op);
      entries := entries[i := Apply(entries[i], op)];
    }
  }

  /** A group's entry, or a new one. */
  function Found(entries: seq<Entry>, group: Group): Entry {
    if |entries| == 0 then NewEntry(group)
    else if entries[0].group == group then entries[0]
    else Found(entries[1..], group)
  }

  function Updated(entries: seq<Entry>, group: Group, op: Op): seq<Entry> {
    if |entries| == 0 then [Apply(NewEntry(group), op)]
    else if entries[0].group == group then [Apply(entries[0], op)] + entries[1..]
    else [entries[0]] + Updated(entries[1..], group, op)
  }

  lemma {:induction false} UpdatedAt(was: seq<Entry>, now: seq<Entry>, i: nat, op: Op)
    requires OnePerGroup(now) && i < |now|
    requires now == was || (now == was + [NewEntry(now[i].group)] && i == |was|)
    ensures Updated(was, now[i].group, op) == now[i := Apply(now[i], op)]
  {
    var group, e := now[i].group, Apply(now[i], op);
    if |was| == 0 {
      assert now[i := e] == [e];
    } else if i == 0 {
      assert now[0 := e] == [e] + now[1..];
    } else {
      assert was[0].group != group;
      assert now[1..] == was[1..] || now[1..] == was[1..] + [NewEntry(group)];
      assert forall j, k | 0 <= j < k < |now[1..]| :: now[1..][j] == now[j + 1] && now[1..][k] == now[k + 1];
      UpdatedAt(was[1..], now[1..], i - 1, op);
      assert now[i := e] == [now[0]] + now[1..][i - 1 := e];
    }
  }

  /** The other groups do not notice an update. */
  lemma {:induction false} FoundAfterUpdate(entries: seq<Entry>, group: Group, op: Op, g: Group)
    ensures Found(Updated(entries, group, op), g) == if g == group then Apply(Found(entries, g), op)
            else Found(entries, g)
  {
    if |entries| > 0 && entries[0].group != group {
      FoundAfterUpdate(entries[1..], group, op, g);
      assert ([entries[0]] + Updated(entries[1..], group, op))[1..] == Updated(entries[1..], group, op);
    } else if |entries| > 0 {
      assert ([Apply(entries[0], op)] + entries[1..])[1..] == entries[1..];
    }
  }

  function DirectoryAfter(updates: seq<(Group, Op)>): seq<Entry> {
    if |updates| == 0 then [] else
      Updated(DirectoryAfter(updates[..|updates| - 1]), updates[|updates| - 1].0, updates[|updates| - 1].1)
  }

  /** One group's calls among a directory's. */
  function OwnOps(updates: seq<(Group, Op)>, g: Group): seq<Op> {
    if |updates| == 0 then [] else
      OwnOps(updates[..|updates| - 1], g) + (if updates[|updates| - 1].0 == g then [updates[|updates| - 1].1] else [])
  }

  /** Whatever the other groups did, a group's entry is the one its own calls make. */
  lemma {:induction false} GroupsAreApart(updates: seq<(Group, Op)>, g: Group)
    ensures Found(DirectoryAfter(updates), g) == After(g, OwnOps(updates, g))
  {
    if |updates| > 0 {
      var front, last := updates[..|updates| - 1], updates[|updates| - 1];
      GroupsAreApart(front, g);
      FoundAfterUpdate(DirectoryAfter(front), last.0, last.1, g);
      var own := OwnOps(front, g);
      assert (own + [last.1])[..|own|] == own;
      assert own + [] == own;
    }
  }
}
