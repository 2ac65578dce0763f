/** The code block of an agent card: the repositories it may touch and how it runs their tests. */
module AgentCode {
  import opened Octets
  import opened AgentCbor
  import opened ValueTree
  import opened SchemaMaps
  import opened Payloads

  datatype Repository = Repository(repositoryId: u64, repoRef: Text, baseBranch: Option<Text>)

  datatype TestPolicy = TestPolicy(argv: Vec<Text>, timeoutSeconds: u64)

  datatype Code = Code(repos: Vec<Repository>, installationId: u64, test: Option<TestPolicy>)

  datatype CodeError =
    | Cbor(cbor: CborError)
    | RepositoriesInvalid
    | RepositoryRefInvalid(repoRef: Text)
    | BranchInvalid(branch: Text)
    | TestPolicyInvalid

  function Lift<T>(r: Result<T, CborError>): Result<T, CodeError> {
    match r
    case Ok(v) => Ok(v)
    case Err(e) => Err(Cbor(e))
  }

  // --------------------------------------------------------------------- names

  predicate IsAlphanumeric(b: byte) {
    '0' as int <= b <= '9' as int || 'A' as int <= b <= 'Z' as int || 'a' as int <= b <= 'z' as int
  }

  predicate IsPunctuation(b: byte) { b == '.' as int || b == '_' as int || b == '-' as int }

  function IndexOf(s: seq<byte>, b: byte): (i: nat)
    ensures i <= |s|
  {
    if |s| == 0 || s[0] == b then 0 else 1 + IndexOf(s[1..], b)
  }

  /** `owner/name`: exactly one slash, an owner of at most 39 bytes, and no byte outside the closed set. */
  predicate ValidRepoRef(value: Text) {
    var slash := IndexOf(value, '/' as int);
    && slash < |value|
    && var owner, repo := value[..slash], value[slash + 1..];
       && 0 < |owner| <= 39
       && 0 < |repo|
       && (forall i | 0 <= i < |owner| :: IsAlphanumeric(owner[i]) || (i > 0 && IsPunctuation(owner[i])))
       && (forall i | 0 <= i < |repo| :: IsAlphanumeric(repo[i]) || IsPunctuation(repo[i]))
  }

  predicate Contains(s: seq<byte>, needle: seq<byte>) {
    |needle| <= |s| && (needle <= s || (|s| > 0 && Contains(s[1..], needle)))
  }

  predicate ValidBranch(value: Text) {
    && |value| > 0
    && value[0] !in Ascii("/.-")
    && value[|value| - 1] !in Ascii("/.")
    && !Contains(value, Ascii(".."))
    && !Contains(value, Ascii("@{"))
    && !Contains(value, Ascii("//"))
    && (forall b | b in value :: b !in Ascii("\\ ~^:?*["))
    && (forall b | b in value :: 0x20 <= b < 0x7F)
  }

  function LowerAscii(s: seq<byte>): seq<byte> {
    seq(|s|, i requires 0 <= i < |s| => if 'A' as int <= s[i] <= 'Z' as int then s[i] + 32 else s[i])
  }

  // ------------------------------------------------------------------ encoding

  function RepoTree(r: Repository): Value {
    match r.baseBranch
    case Some(branch) => Arr([UInt(r.repositoryId), Txt(r.repoRef), Txt(branch)])
    case None => Arr([UInt(r.repositoryId), Txt(r.repoRef)])
  }

  function TestTree(t: TestPolicy): Value { Arr([Arr(Trees(TextTree, t.argv)), UInt(t.timeoutSeconds)]) }

  function CodeTree(c: Code): Value {
    var repos := Arr(Trees(RepoTree, c.repos));
    match c.test
    case Some(test) => Arr([repos, UInt(c.installationId), TestTree(test)])
    case None => Arr([repos, UInt(c.installationId)])
  }

  // ------------------------------------------------------------------ validity

  predicate RepoOk(r: Repository) {
    ValidRepoRef(r.repoRef) && (r.baseBranch.Some? ==> ValidBranch(r.baseBranch.value))
  }

  predicate AscendingIds(repos: seq<Repository>) {
    forall i | 0 <= i < |repos| - 1 :: repos[i].repositoryId < repos[i + 1].repositoryId
  }

  predicate DistinctRefs(repos: seq<Repository>) {
    forall i, j | 0 <= i < j < |repos| :: LowerAscii(repos[i].repoRef) != LowerAscii(repos[j].repoRef)
  }

  predicate ReposOk(repos: seq<Repository>) {
    1 <= |repos| <= 100 && AllOk(RepoOk, repos) && AscendingIds(repos) && DistinctRefs(repos)
  }

  predicate ArgOk(arg: Text) { 0 < |arg| <= 1024 }

  predicate TestOk(t: TestPolicy) {
    1 <= |t.argv| <= 32 && AllOk(ArgOk, t.argv) && 1 <= t.timeoutSeconds <= 900
  }

  predicate CodeOk(c: Code) {
    ReposOk(c.repos) && (c.test.Some? ==> TestOk(c.test.value))
  }

  // ------------------------------------------------------------------ decoding

  type ReadCode<T> = Result<(T, seq<byte>), CodeError>

  function ReadRepo(s: seq<byte>): ReadCode<Repository> {
    var (fields, s0) :- Lift(ReadArrayCount(s));
    if fields != 2 && fields != 3 then Err(Cbor(WrongArrayCount(2, fields))) else
      var (id, s1) :- Lift(ReadUint(s0));
      var (repoRef, s2) :- Lift(ReadText(s1));
      if !ValidRepoRef(repoRef) then Err(RepositoryRefInvalid(repoRef))
      else if fields == 2 then Ok((Repository(id, repoRef, None), s2))
      else
        var (branch, s3) :- Lift(ReadText(s2));
        if !ValidBranch(branch) then Err(BranchInvalid(branch))
        else Ok((Repository(id, repoRef, Some(branch)), s3))
  }

  function ReadRepos(s: seq<byte>): ReadCode<seq<Repository>> {
    var (count, s0) :- Lift(ReadArrayCount(s));
    if !(1 <= count <= 100) then Err(RepositoriesInvalid) else
      var (repos, s1) :- ReadMany(ReadRepo, s0, count);
      if !AscendingIds(repos) || !DistinctRefs(repos) then Err(RepositoriesInvalid) else Ok((repos, s1))
  }

  function ReadArg(s: seq<byte>): ReadCode<Text> {
    var (arg, rest) :- Lift(ReadText(s));
    if !ArgOk(arg) then Err(TestPolicyInvalid) else Ok((arg, rest))
  }

  function ReadTest(s: seq<byte>): ReadCode<TestPolicy> {
    var (fields, s0) :- Lift(ReadArrayCount(s));
    if fields != 2 then Err(Cbor(WrongArrayCount(2, fields))) else
      var (argc, s1) :- Lift(ReadArrayCount(s0));
      if !(1 <= argc <= 32) then Err(TestPolicyInvalid) else
        var (argv, s2) :- ReadMany(ReadArg, s1, argc);
        ManyLength(ReadArg, s1, argc);
        var (timeout, s3) :- Lift(ReadUint(s2));
        if !(1 <= timeout <= 900) then Err(TestPolicyInvalid) else Ok((TestPolicy(argv, timeout), s3))
  }

  function ReadCodeBlock(s: seq<byte>): ReadCode<Code> {
    var (count, s0) :- Lift(ReadArrayCount(s));
    if count != 2 && count != 3 then Err(Cbor(WrongArrayCount(2, count))) else
      var (repos, s1) :- ReadRepos(s0);
      ReposLength(s0);
      var (installation, s2) :- Lift(ReadUint(s1));
      if count == 2 then Ok((Code(repos, installation, None), s2))
      else
        var (test, s3) :- ReadTest(s2);
        Ok((Code(repos, installation, Some(test)), s3))
  }

  lemma ReposLength(s: seq<byte>)
    ensures ReadRepos(s).Ok? ==> 1 <= |ReadRepos(s).value.0| <= 100
  {
    var head := ReadArrayCount(s);
    if head.Ok? { ManyLength(ReadRepo, head.value.1, head.value.0); }
  }

  // ----------------------------------------------------------------- exactness

  /** An array reads as its head and then item after item. */
  lemma ArrOpens(items: seq<Value>, rest: seq<byte>)
    requires |items| < TWO_TO_64
    ensures Encode(Arr(items)) + rest == Head(4, |items|) + (EncodeAll(items) + rest)
  {
    Regroup(Head(4, |items|), EncodeAll(items), rest);
  }

  lemma CountExact(s: seq<byte>, n: u64, items: seq<Value>, rest: seq<byte>)
    requires n == |items|
    ensures s == Encode(Arr(items)) + rest <==> ReadArrayCount(s) == Ok((n, EncodeAll(items) + rest))
  {
    hide ReadHead, Head;
    ArrOpens(items, rest);
    HeadExact(s, 4, n, EncodeAll(items) + rest);
  }

  lemma TwoItems(a: Value, b: Value, rest: seq<byte>)
    ensures EncodeAll([a, b]) + rest == Encode(a) + (Encode(b) + rest)
  {
    hide Encode;
    assert [a, b][1..] == [b] && [b][1..] == [];
    assert EncodeAll([b]) == Encode(b) + [];
    assert EncodeAll([a, b]) == Encode(a) + EncodeAll([b]);
    Regroup(Encode(a), Encode(b), rest);
  }

  lemma ThreeItems(a: Value, b: Value, c: Value, rest: seq<byte>)
    ensures EncodeAll([a, b, c]) + rest == Encode(a) + (Encode(b) + (Encode(c) + rest))
  {
    hide Encode;
    assert [a, b, c][1..] == [b, c];
    TwoItems(b, c, rest);
    Regroup(Encode(a), EncodeAll([b, c]), rest);
  }

  lemma RepoExact(s: seq<byte>, r: Repository, rest: seq<byte>)
    ensures ReadRepo(s) == Ok((r, rest)) <==> RepoOk(r) && s == Encode(RepoTree(r)) + rest
  {
    hide ReadArrayCount, ReadUint, ReadText, ValidRepoRef, ValidBranch, Encode;
    if RepoOk(r) && s == Encode(RepoTree(r)) + rest {
      RepoAccepted(s, r, rest);
    }
    if ReadRepo(s) == Ok((r, rest)) {
      RepoFound(s, r, rest);
    }
  }

  lemma RepoAccepted(s: seq<byte>, r: Repository, rest: seq<byte>)
    requires RepoOk(r) && s == Encode(RepoTree(r)) + rest
    ensures ReadRepo(s) == Ok((r, rest))
  {
    hide ReadArrayCount, ReadUint, ReadText, ValidRepoRef, ValidBranch, Encode, EncodeAll;
    var id, name := UInt(r.repositoryId), Txt(r.repoRef);
    match r.baseBranch
    case Some(branch) =>
      CountExact(s, 3, [id, name, Txt(branch)], rest);
      ThreeItems(id, name, Txt(branch), rest);
      UintReads(r.repositoryId, Encode(name) + (Encode(Txt(branch)) + rest));
      TextReads(r.repoRef, Encode(Txt(branch)) + rest);
      TextReads(branch, rest);
    case None =>
      CountExact(s, 2, [id, name], rest);
      TwoItems(id, name, rest);
      UintReads(r.repositoryId, Encode(name) + rest);
      TextReads(r.repoRef, rest);
  }

  lemma UintReads(n: u64, rest: seq<byte>)
    ensures ReadUint(Encode(UInt(n)) + rest) == Ok((n, rest))
  {
    UintExact(Encode(UInt(n)) + rest, n, rest);
  }

  lemma TextReads(t: Text, rest: seq<byte>)
    ensures ReadText(Encode(Txt(t)) + rest) == Ok((t, rest))
  {
    TextExact(Encode(Txt(t)) + rest, t, rest);
  }

  lemma RepoFound(s: seq<byte>, r: Repository, rest: seq<byte>)
    requires ReadRepo(s) == Ok((r, rest))
    ensures RepoOk(r) && s == Encode(RepoTree(r)) + rest
  {
    hide ReadArrayCount, ReadUint, ReadText, ValidRepoRef, ValidBranch, Encode, EncodeAll;
    var (fields, s0) := ReadArrayCount(s).value;
    var (id, s1) := ReadUint(s0).value;
    var (name, s2) := ReadText(s1).value;
    UintWas(s0, id, s1);
    TextWas(s1, name, s2);
    if fields == 3 {
      var (branch, s3) := ReadText(s2).value;
      TextWas(s2, branch, s3);
      ThreeItems(UInt(id), Txt(name), Txt(branch), rest);
      CountExact(s, 3, [UInt(id), Txt(name), Txt(branch)], rest);
    } else {
      TwoItems(UInt(id), Txt(name), rest);
      CountExact(s, 2, [UInt(id), Txt(name)], rest);
    }
  }

  lemma UintWas(s: seq<byte>, n: u64, rest: seq<byte>)
    requires ReadUint(s) == Ok((n, rest))
    ensures s == Encode(UInt(n)) + rest
  {
    UintExact(s, n, rest);
  }

  lemma TextWas(s: seq<byte>, t: Text, rest: seq<byte>)
    requires ReadText(s) == Ok((t, rest))
    ensures s == Encode(Txt(t)) + rest
  {
    TextExact(s, t, rest);
  }

  lemma RepoReader()
    ensures Exact(ReadRepo, RepoTree, RepoOk)
  {
    hide ReadRepo, RepoTree, RepoOk, Encode;
    forall s, x, rest ensures ReadRepo(s) == Ok((x, rest)) <==> RepoOk(x) && s == Encode(RepoTree(x)) + rest {
      RepoExact(s, x, rest);
    }
  }

  lemma ArgReader()
    ensures Exact(ReadArg, TextTree, ArgOk)
  {
    forall s, x, rest ensures ReadArg(s) == Ok((x, rest)) <==> ArgOk(x) && s == Encode(TextTree(x)) + rest {
      hide ReadText, Encode;
      TextExact(s, x, rest);
    }
  }

  lemma ReposExact(s: seq<byte>, repos: Vec<Repository>, rest: seq<byte>)
    ensures ReadRepos(s) == Ok((repos, rest)) <==> ReposOk(repos) && s == Encode(Arr(Trees(RepoTree, repos))) + rest
  {
    hide ReadArrayCount, ReadRepo, Encode, EncodeAll, AscendingIds, DistinctRefs, Trees, RepoTree, RepoOk, Exact;
    RepoReader();
    var items := Trees(RepoTree, repos);
    CountExact(s, |repos|, items, rest);
    ManyExact(ReadRepo, RepoTree, RepoOk, EncodeAll(items) + rest, repos, rest);
    if ReadRepos(s) == Ok((repos, rest)) {
      var (count, s0) := ReadArrayCount(s).value;
      ManyLength(ReadRepo, s0, count);
      ManyExact(ReadRepo, RepoTree, RepoOk, s0, repos, rest);
    }
  }

  lemma ArgvExact(s: seq<byte>, argv: seq<Text>, rest: seq<byte>)
    ensures ReadMany(ReadArg, s, |argv|) == Ok((argv, rest))
            <==> AllOk(ArgOk, argv) && s == EncodeAll(Trees(TextTree, argv)) + rest
  {
    ArgReader();
    ManyExact(ReadArg, TextTree, ArgOk, s, argv, rest);
  }

  lemma TestAccepted(s: seq<byte>, t: TestPolicy, rest: seq<byte>)
    requires TestOk(t) && s == Encode(TestTree(t)) + rest
    ensures ReadTest(s) == Ok((t, rest))
  {
    hide ReadArrayCount, ReadUint, ReadArg, ReadMany, Encode, EncodeAll, Trees;
    var argv, timeout := Trees(TextTree, t.argv), UInt(t.timeoutSeconds);
    CountExact(s, 2, [Arr(argv), timeout], rest);
    TwoItems(Arr(argv), timeout, rest);
    CountExact(Encode(Arr(argv)) + (Encode(timeout) + rest), |t.argv|, argv, Encode(timeout) + rest);
    ArgvExact(EncodeAll(argv) + (Encode(timeout) + rest), t.argv, Encode(timeout) + rest);
    UintReads(t.timeoutSeconds, rest);
  }

  lemma TestFound(s: seq<byte>, t: TestPolicy, rest: seq<byte>)
    requires ReadTest(s) == Ok((t, rest))
    ensures TestOk(t) && s == Encode(TestTree(t)) + rest
  {
    hide ReadArrayCount, ReadUint, ReadArg, ReadMany, Encode, EncodeAll, Trees;
    var (fields, s0) := ReadArrayCount(s).value;
    var (argc, s1) := ReadArrayCount(s0).value;
    var (argv, s2) := ReadMany(ReadArg, s1, argc).value;
    ManyLength(ReadArg, s1, argc);
    var items, timeout := Trees(TextTree, argv), UInt(t.timeoutSeconds);
    var (n, s3) := ReadUint(s2).value;
    assert n == t.timeoutSeconds && s3 == rest;
    UintWas(s2, n, s3);
    ArgvExact(s1, argv, s2);
    CountExact(s0, argc, items, s2);
    TwoItems(Arr(items), timeout, rest);
    CountExact(s, 2, [Arr(items), timeout], rest);
  }

  lemma CodeAccepted(s: seq<byte>, c: Code, rest: seq<byte>)
    requires CodeOk(c) && s == Encode(CodeTree(c)) + rest
    ensures ReadCodeBlock(s) == Ok((c, rest))
  {
    hide ReadArrayCount, ReadUint, ReadRepos, ReadTest, Encode, EncodeAll, Trees, ReposOk, TestOk, TestTree;
    var repos, id := Arr(Trees(RepoTree, c.repos)), UInt(c.installationId);
    match c.test
    case Some(test) =>
      CountExact(s, 3, [repos, id, TestTree(test)], rest);
      ThreeItems(repos, id, TestTree(test), rest);
      var s2 := Encode(TestTree(test)) + rest;
      ReposExact(Encode(repos) + (Encode(id) + s2), c.repos, Encode(id) + s2);
      UintReads(c.installationId, s2);
      TestAccepted(s2, test, rest);
    case None =>
      CountExact(s, 2, [repos, id], rest);
      TwoItems(repos, id, rest);
      ReposExact(Encode(repos) + (Encode(id) + rest), c.repos, Encode(id) + rest);
      UintReads(c.installationId, rest);
  }

  lemma CodeFound(s: seq<byte>, c: Code, rest: seq<byte>)
    requires ReadCodeBlock(s) == Ok((c, rest))
    ensures CodeOk(c) && s == Encode(CodeTree(c)) + rest
  {
    hide ReadArrayCount, ReadUint, ReadRepos, ReadTest, Encode, EncodeAll, Trees, ReposOk, TestOk, TestTree;
    var (count, s0) := ReadArrayCount(s).value;
    var s1 := ReadRepos(s0).value.1;
    var s2 := ReadUint(s1).value.1;
    ReposExact(s0, c.repos, s1);
    UintWas(s1, c.installationId, s2);
    var repos, id := Arr(Trees(RepoTree, c.repos)), UInt(c.installationId);
    if count == 3 {
      var (test, s3) := ReadTest(s2).value;
      assert test == c.test.value && s3 == rest;
      TestFound(s2, test, s3);
      ThreeItems(repos, id, TestTree(c.test.value), rest);
      CountExact(s, 3, [repos, id, TestTree(c.test.value)], rest);
    } else {
      TwoItems(repos, id, rest);
      CountExact(s, 2, [repos, id], rest);
    }
  }

  /** The code block is read exactly: valid blocks, in their one encoding, and nothing else. */
  lemma CodeExact(s: seq<byte>, c: Code, rest: seq<byte>)
    ensures ReadCodeBlock(s) == Ok((c, rest)) <==> CodeOk(c) && s == Encode(CodeTree(c)) + rest
  {
    hide ReadCodeBlock, CodeOk, CodeTree, Encode;
    if ReadCodeBlock(s) == Ok((c, rest)) { CodeFound(s, c, rest); }
    if CodeOk(c) && s == Encode(CodeTree(c)) + rest { CodeAccepted(s, c, rest); }
  }
}
