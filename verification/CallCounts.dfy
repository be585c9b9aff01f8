/** What single calls count in the end; an `if` without else splits the statement's count between its arms. */
module CallCounts {
  import opened Wrappers
  import opened V8Ranges
  import RangeNormalizer
  import opened CoverageModel
  import opened CoverageBuilder
  import opened AstWalk
  import P = AstPaths
  import R = AstReports
  import opened Entries
  import opened Prepare
  import opened Convert

  // One call, and no other, stands for a key.
  ghost predicate IsAlone(getLoc: Locator, calls: seq<Call>, m: nat, file: string, key: Key) {
    m < |calls| && KeyFor(getLoc, calls[m], file) == Some(key)
    && forall j :: 0 <= j < |calls| && j != m ==> KeyFor(getLoc, calls[j], file) != Some(key)
  }

  lemma {:induction false} OtherHasNoHits(getLoc: Locator, c: Call, file: string, locations: seq<Location>, k: nat,
      count: CountOf)
    requires KeyFor(getLoc, c, file) != Some(BranchKey(locations))
    ensures ArmHitsOf(getLoc, c, file, locations, k, count) == 0
  {
  }

  lemma {:induction false} NoHits(getLoc: Locator, calls: seq<Call>, file: string, locations: seq<Location>, k: nat,
      count: CountOf)
    requires forall j :: 0 <= j < |calls| ==> KeyFor(getLoc, calls[j], file) != Some(BranchKey(locations))
    ensures ArmHits(getLoc, calls, file, locations, k, count) == 0
  {
    if calls != [] {
      var n := |calls| - 1;
      NoHits(getLoc, calls[..n], file, locations, k, count);
      OtherHasNoHits(getLoc, calls[n], file, locations, k, count);
    }
  }

  lemma {:induction false} HitsOfAlone(getLoc: Locator, calls: seq<Call>, m: nat, file: string,
      locations: seq<Location>, k: nat, count: CountOf)
    requires IsAlone(getLoc, calls, m, file, BranchKey(locations))
    ensures ArmHits(getLoc, calls, file, locations, k, count)
         == ArmHitsOf(getLoc, calls[m], file, locations, k, count)
  {
    var n := |calls| - 1;
    if m == n {
      NoHits(getLoc, calls[..n], file, locations, k, count);
    } else {
      HitsOfAlone(getLoc, calls[..n], m, file, locations, k, count);
      OtherHasNoHits(getLoc, calls[n], file, locations, k, count);
    }
  }

  // The entry of a branch call that stands alone, and what its arms count.
  lemma {:induction false} AloneCounts(prepared: Prepared, data: CoverageData, getLoc: Locator, calls: seq<Call>,
      count: CountOf, file: string, m: nat, locations: seq<Location>) returns (i: nat)
    requires CountersMean(prepared, data, getLoc, calls, count, file)
    requires ComeFrom(prepared.files[file], file, getLoc, calls)
    requires IsAlone(getLoc, calls, m, file, BranchKey(locations))
    ensures i in prepared.files[file].branchMap && i in data[file].b
    ensures prepared.files[file].branchMap[i].locations == locations
    ensures prepared.files[file].branchMap[i].branchType == calls[m].branchType
    ensures |data[file].b[i]| == |locations|
    ensures forall k :: 0 <= k < |locations| ==>
      data[file].b[i][k] == Count(ArmHitsOf(getLoc, calls[m], file, locations, k, count))
  {
    var t, key := prepared.files[file], BranchKey(locations);
    assert KeyFor(getLoc, calls[m], file).value == key;
    i :| IsEntry(t, key, i);
    assert FirstMakes(t, key, i, getLoc, calls, file);
    assert ArmsMean(data[file].b[i], getLoc, calls, file, locations, count);
    forall k: nat | k < |locations|
      ensures data[file].b[i][k] == Count(ArmHitsOf(getLoc, calls[m], file, locations, k, count))
    {
      HitsOfAlone(getLoc, calls, m, file, locations, k, count);
    }
  }

  // Where a block's or another arm's code starts.
  ghost function StartOf(arm: Arm): int {
    if arm.isBlock then arm.span.start + 1 else arm.span.start
  }

  /**
   Any arm that is there counts where its code starts, behind the brace of a block, and has its own location, but that
   the first arm of an `if` has the statement's.
   */
  lemma {:induction false} ArmCounts(getLoc: Locator, c: Call, file: string, locations: seq<Location>, k: nat, arm: Arm,
      count: CountOf)
    requires c.AddBranch? && KeyFor(getLoc, c, file) == Some(BranchKey(locations))
    requires k < |MappedArms(getLoc, c.arms)| && MappedArms(getLoc, c.arms)[k] == Some(arm)
    ensures ArmHitsOf(getLoc, c, file, locations, k, count) == count(StartOf(arm))
    ensures ArmRanges(getLoc, c)[k].endOffset == if arm.isBlock then arm.span.end - 1 else arm.span.end
    ensures k < |locations| && Some(arm) in c.arms && getLoc(arm.span).Some?
    ensures locations[k] == if c.branchType == IfBranch && k == 0 then getLoc(c.node).value.loc
      else getLoc(arm.span).value.loc
  {
    MappedAre(getLoc, c.arms);
    ArmHitSplits(ArmRanges(getLoc, c), k, count);
  }

  // What the builder makes of an `if` with an arm and a missing one.
  lemma {:induction false} IfWithoutElseKey(getLoc: Locator, node: Span, arm: Arm, file: string, own: Location,
      count: CountOf)
    requires getLoc(node) == Some(Mapped(file, own)) && getLoc(arm.span).Some?
    ensures var c := AddBranch(IfBranch, node, [Some(arm), None]);
      && KeyFor(getLoc, c, file) == Some(BranchKey([own, own]))
      && ArmHitsOf(getLoc, c, file, [own, own], 0, count) == count(StartOf(arm))
      && ArmHitsOf(getLoc, c, file, [own, own], 1, count) == count(node.start) - count(StartOf(arm))
  {
    var arms := [Some(arm), None];
    MappedAre(getLoc, arms);
    var c := AddBranch(IfBranch, node, arms);
    assert BranchLocations(getLoc, IfBranch, own, arms) == [own, own];
    ArmHitSplits(ArmRanges(getLoc, c), 0, count);
    ArmHitSplits(ArmRanges(getLoc, c), 1, count);
  }

  // And of one with two arms.
  lemma {:induction false} IfElseKey(getLoc: Locator, node: Span, arm: Arm, other: Arm, file: string, own: Location,
      count: CountOf)
    requires getLoc(node) == Some(Mapped(file, own)) && getLoc(arm.span).Some? && getLoc(other.span).Some?
    ensures var c := AddBranch(IfBranch, node, [Some(arm), Some(other)]);
      var locations := [own, getLoc(other.span).value.loc];
      && KeyFor(getLoc, c, file) == Some(BranchKey(locations))
      && ArmHitsOf(getLoc, c, file, locations, 0, count) == count(StartOf(arm))
      && ArmHitsOf(getLoc, c, file, locations, 1, count) == count(StartOf(other))
  {
    var arms := [Some(arm), Some(other)];
    MappedAre(getLoc, arms);
    var c := AddBranch(IfBranch, node, arms);
    assert BranchLocations(getLoc, IfBranch, own, arms) == [own, getLoc(other.span).value.loc];
    ArmHitSplits(ArmRanges(getLoc, c), 0, count);
    ArmHitSplits(ArmRanges(getLoc, c), 1, count);
  }

  // A branch call that stands for some arms, as no other does.
  ghost predicate StandsAlone(getLoc: Locator, calls: seq<Call>, file: string, c: Call, locations: seq<Location>) {
    && c in calls && KeyFor(getLoc, c, file) == Some(BranchKey(locations))
    && forall j, k :: 0 <= j < k < |calls| ==>
         !(KeyFor(getLoc, calls[j], file) == Some(BranchKey(locations)) == KeyFor(getLoc, calls[k], file))
  }

  // A branch whose arms have what the ranges of one call give.
  ghost predicate HasArms(data: CoverageData, file: string, i: nat, getLoc: Locator, c: Call,
      locations: seq<Location>, count: CountOf)
  {
    && file in data && i in data[file].b && |data[file].b[i]| == |locations|
    && forall k: nat :: k < |locations| ==>
         data[file].b[i][k] == Count(ArmHitsOf(getLoc, c, file, locations, k, count))
  }

  /** In converted coverage every branch call that stands alone has its branch, with its own arms' hits. */
  ghost predicate AloneHaveArms(data: CoverageData, getLoc: Locator, calls: seq<Call>, count: CountOf, file: string) {
    forall c, locations :: StandsAlone(getLoc, calls, file, c, locations) ==>
      exists i :: HasArms(data, file, i, getLoc, c, locations, count)
  }

  lemma {:induction false} ConvertedHaveArms(prepared: Prepared, data: CoverageData, getLoc: Locator, calls: seq<Call>,
      count: CountOf, file: string)
    requires CountersMean(prepared, data, getLoc, calls, count, file)
    requires ComeFrom(prepared.files[file], file, getLoc, calls)
    ensures AloneHaveArms(data, getLoc, calls, count, file)
  {
    forall c, locations | StandsAlone(getLoc, calls, file, c, locations)
      ensures exists i :: HasArms(data, file, i, getLoc, c, locations, count)
    {
      var m :| 0 <= m < |calls| && calls[m] == c;
      AloneAt(getLoc, calls, file, m, locations);
      var i := AloneCounts(prepared, data, getLoc, calls, count, file, m, locations);
      assert HasArms(data, file, i, getLoc, c, locations, count);
    }
  }

  lemma {:induction false} AloneAt(getLoc: Locator, calls: seq<Call>, file: string, m: nat, locations: seq<Location>)
    requires m < |calls| && StandsAlone(getLoc, calls, file, calls[m], locations)
    ensures IsAlone(getLoc, calls, m, file, BranchKey(locations))
  {
    forall j | 0 <= j < |calls| && j != m ensures KeyFor(getLoc, calls[j], file) != Some(BranchKey(locations)) {
      var low, high := if j < m then j else m, if j < m then m else j;
      assert low < high;
    }
  }

  /**
   An `if` without else that alone stands for its location: the count of the statement is split between the block,
   which has its own, and the missing else, which has the rest.
   */
  lemma {:induction false} CountIsSplit(data: CoverageData, getLoc: Locator, calls: seq<Call>, count: CountOf,
      file: string, c: Call, node: Span, arm: Arm, own: Location) returns (i: nat)
    requires AloneHaveArms(data, getLoc, calls, count, file)
    requires c == AddBranch(IfBranch, node, [Some(arm), None]) && StandsAlone(getLoc, calls, file, c, [own, own])
    requires getLoc(node) == Some(Mapped(file, own)) && getLoc(arm.span).Some?
    ensures file in data && i in data[file].b
    ensures data[file].b[i] == [Count(count(StartOf(arm))), Count(count(node.start) - count(StartOf(arm)))]
  {
    IfWithoutElseKey(getLoc, node, arm, file, own, count);
    i :| HasArms(data, file, i, getLoc, c, [own, own], count);
  }

  /** And one with an else: the consequent's count first, then the alternate's. */
  lemma {:induction false} CountsFollow(data: CoverageData, getLoc: Locator, calls: seq<Call>, count: CountOf,
      file: string, c: Call, node: Span, arm: Arm, other: Arm, own: Location) returns (i: nat)
    requires AloneHaveArms(data, getLoc, calls, count, file)
    requires c == AddBranch(IfBranch, node, [Some(arm), Some(other)])
    requires getLoc(node) == Some(Mapped(file, own)) && getLoc(arm.span).Some? && getLoc(other.span).Some?
    requires StandsAlone(getLoc, calls, file, c, [own, getLoc(other.span).value.loc])
    ensures file in data && i in data[file].b
    ensures data[file].b[i] == [Count(count(StartOf(arm))), Count(count(StartOf(other)))]
  {
    IfElseKey(getLoc, node, arm, other, file, own, count);
    i :| HasArms(data, file, i, getLoc, c, [own, getLoc(other.span).value.loc], count);
  }

  // ----- statements and functions -----

  lemma {:induction false} NoStatementHits(getLoc: Locator, calls: seq<Call>, at: Mapped, count: CountOf)
    requires forall j :: 0 <= j < |calls| ==> KeyFor(getLoc, calls[j], at.filename) != Some(StatementKey(at.loc))
    ensures StatementHits(getLoc, calls, at, count) == 0
  {
    if calls != [] {
      NoStatementHits(getLoc, calls[..|calls| - 1], at, count);
    }
  }

  lemma {:induction false} HitsOfAloneStatement(getLoc: Locator, calls: seq<Call>, m: nat, at: Mapped, count: CountOf)
    requires IsAlone(getLoc, calls, m, at.filename, StatementKey(at.loc))
    ensures StatementHits(getLoc, calls, at, count) == count(calls[m].coverage.start)
  {
    var n := |calls| - 1;
    if m == n {
      NoStatementHits(getLoc, calls[..n], at, count);
    } else {
      HitsOfAloneStatement(getLoc, calls[..n], m, at, count);
    }
  }

  lemma {:induction false} NoFunctionHits(getLoc: Locator, calls: seq<Call>, file: string, decl: Location,
      count: CountOf)
    requires forall j :: 0 <= j < |calls| ==> KeyFor(getLoc, calls[j], file) != Some(FunctionKey(decl))
    ensures FunctionHits(getLoc, calls, file, decl, count) == 0
  {
    if calls != [] {
      NoFunctionHits(getLoc, calls[..|calls| - 1], file, decl, count);
    }
  }

  lemma {:induction false} HitsOfAloneFunction(getLoc: Locator, calls: seq<Call>, m: nat, file: string, decl: Location,
      count: CountOf)
    requires IsAlone(getLoc, calls, m, file, FunctionKey(decl))
    ensures FunctionHits(getLoc, calls, file, decl, count) == count(calls[m].coverage.start)
  {
    var n := |calls| - 1;
    if m == n {
      NoFunctionHits(getLoc, calls[..n], file, decl, count);
    } else {
      HitsOfAloneFunction(getLoc, calls[..n], m, file, decl, count);
    }
  }

  /** A statement call that alone stands for its location: its counter is the count where the call's span starts. */
  lemma {:induction false} StatementCounts(prepared: Prepared, data: CoverageData, getLoc: Locator, calls: seq<Call>,
      count: CountOf, file: string, m: nat, loc: Location) returns (i: nat)
    requires CountersMean(prepared, data, getLoc, calls, count, file)
    requires ComeFrom(prepared.files[file], file, getLoc, calls)
    requires IsAlone(getLoc, calls, m, file, StatementKey(loc))
    ensures i in prepared.files[file].statementMap && prepared.files[file].statementMap[i] == loc
    ensures i in data[file].s && data[file].s[i] == Count(count(calls[m].coverage.start))
  {
    var t, key := prepared.files[file], StatementKey(loc);
    assert KeyFor(getLoc, calls[m], file).value == key;
    i :| IsEntry(t, key, i);
    HitsOfAloneStatement(getLoc, calls, m, Mapped(file, loc), count);
  }

  /** And a function call that alone stands for its declaration. */
  lemma {:induction false} FunctionCounts(prepared: Prepared, data: CoverageData, getLoc: Locator, calls: seq<Call>,
      count: CountOf, file: string, m: nat, decl: Location) returns (i: nat)
    requires CountersMean(prepared, data, getLoc, calls, count, file)
    requires ComeFrom(prepared.files[file], file, getLoc, calls)
    requires IsAlone(getLoc, calls, m, file, FunctionKey(decl))
    ensures i in prepared.files[file].fnMap && prepared.files[file].fnMap[i].decl == decl
    ensures i in data[file].f && data[file].f[i] == Count(count(calls[m].coverage.start))
  {
    var t, key := prepared.files[file], FunctionKey(decl);
    assert KeyFor(getLoc, calls[m], file).value == key;
    i :| IsEntry(t, key, i);
    HitsOfAloneFunction(getLoc, calls, m, file, decl, count);
  }

  // ----- in a converted script -----

  // An `if` no arm of which is ignored.
  ghost predicate IsPlainIf(n: Node, hints: Hints) {
    n.IfStatement? && hints(n.start) != IfHint && hints(n.start) != ElseHint
  }

  ghost function ArmsOfIf(n: Node): seq<Option<Arm>>
    requires n.IfStatement?
  {
    [Some(Arm(SpanOf(n.consequent), true)),
     if n.alternate.Some? then Some(Arm(SpanOf(n.alternate.value), true)) else None]
  }

  lemma {:induction false} IfCallIs(n: Node) returns (c: Call)
    requires n.IfStatement?
    ensures c == AddBranch(IfBranch, SpanOf(n), ArmsOfIf(n))
    ensures n.alternate == None ==> c == AddBranch(IfBranch, SpanOf(n), [Some(Arm(SpanOf(n.consequent), true)), None])
    ensures n.alternate.Some? ==> c == AddBranch(IfBranch, SpanOf(n),
        [Some(Arm(SpanOf(n.consequent), true)), Some(Arm(SpanOf(n.alternate.value), true))])
  {
    c := AddBranch(IfBranch, SpanOf(n), ArmsOfIf(n));
  }

  lemma {:induction false} IfCall(n: Node, hints: Hints, covered: bool)
    requires IsPlainIf(n, hints)
    ensures AddBranch(IfBranch, SpanOf(n), ArmsOfIf(n)) in Own(n, hints, covered)
  {
    R.IfArmsAre(n, hints(n.start));
    assert IfArms(n, hints(n.start)) == ArmsOfIf(n);
    assert Own(n, hints, covered)[0] == AddBranch(IfBranch, SpanOf(n), ArmsOfIf(n));
  }

  // A node of a script, reached by the walk that makes the calls.
  ghost predicate IsReported(program: Node, hints: Hints, p: Path, n: Node, calls: seq<Call>) {
    P.Reached(program, hints, p) && n == P.NodeAt(program, p) && calls == Traverse(program, hints, false, false)
  }

  // The branch call of a reached `if` is among the calls.
  lemma {:induction false} IfIsCalled(program: Node, hints: Hints, p: Path, n: Node, calls: seq<Call>)
    requires IsReported(program, hints, p, n, calls) && IsPlainIf(n, hints)
    ensures AddBranch(IfBranch, SpanOf(n), ArmsOfIf(n)) in calls
  {
    IfCall(n, hints, P.CoveredAt(program, p, false));
    P.ReportedIsCalled(program, hints, p, AddBranch(IfBranch, SpanOf(n), ArmsOfIf(n)));
  }

  // No other call stands for the arms of an `if`.
  ghost predicate HasOwnKey(getLoc: Locator, calls: seq<Call>, file: string, n: Node, locations: seq<Location>)
    requires n.IfStatement?
  {
    AddBranch(IfBranch, SpanOf(n), ArmsOfIf(n)) in calls ==>
      StandsAlone(getLoc, calls, file, AddBranch(IfBranch, SpanOf(n), ArmsOfIf(n)), locations)
  }

  /** A converted `if` without else, anywhere in a script: its block has its own count, the missing else the rest. */
  lemma {:induction false} IfWithoutElse(program: Node, hints: Hints, p: Path, n: Node, calls: seq<Call>,
      data: CoverageData, getLoc: Locator, count: CountOf, file: string, own: Location) returns (i: nat)
    requires IsReported(program, hints, p, n, calls) && IsPlainIf(n, hints) && n.alternate == None
    requires getLoc(SpanOf(n)) == Some(Mapped(file, own)) && getLoc(SpanOf(n.consequent)).Some?
    requires AloneHaveArms(data, getLoc, calls, count, file) && HasOwnKey(getLoc, calls, file, n, [own, own])
    ensures var taken, all := count(n.consequent.start + 1), count(n.start);
      file in data && i in data[file].b && data[file].b[i] == [Count(taken), Count(all - taken)]
  {
    IfIsCalled(program, hints, p, n, calls);
    var c := IfCallIs(n);
    i := CountIsSplit(data, getLoc, calls, count, file, c, SpanOf(n), Arm(SpanOf(n.consequent), true), own);
  }

  /** And one with an else. */
  lemma {:induction false} IfElse(program: Node, hints: Hints, p: Path, n: Node, calls: seq<Call>,
      data: CoverageData, getLoc: Locator, count: CountOf, file: string, own: Location) returns (i: nat)
    requires IsReported(program, hints, p, n, calls) && IsPlainIf(n, hints) && n.alternate.Some?
    requires getLoc(SpanOf(n)) == Some(Mapped(file, own)) && getLoc(SpanOf(n.consequent)).Some?
    requires getLoc(SpanOf(n.alternate.value)).Some? && AloneHaveArms(data, getLoc, calls, count, file)
    requires HasOwnKey(getLoc, calls, file, n, [own, getLoc(SpanOf(n.alternate.value)).value.loc])
    ensures file in data && i in data[file].b
    ensures data[file].b[i] == [Count(count(n.consequent.start + 1)), Count(count(n.alternate.value.start + 1))]
  {
    IfIsCalled(program, hints, p, n, calls);
    var c := IfCallIs(n);
    i := CountsFollow(data, getLoc, calls, count, file, c, SpanOf(n), Arm(SpanOf(n.consequent), true),
        Arm(SpanOf(n.alternate.value), true), own);
  }

  /**
   Converting a script leaves every branch call that stands alone its branch, by the counts V8 reports if they fit.
   */
  method ConvertBranches(program: Node, hints: Hints, sources: set<string>, getLoc: Locator,
      functions: seq<FunctionCoverage>) returns (data: CoverageData)
    requires WellNamed(program) && AllWellFormed(Flatten(functions))
    ensures data.Keys == sources && forall f :: f in sources ==> data[f].path == f
    ensures forall f :: f in sources ==>
      AloneHaveArms(data, getLoc, Traverse(program, hints, false, false), StoredCounts(Flatten(functions)), f)
    ensures AllFit(Flatten(functions)) ==> forall f :: f in sources ==>
      AloneHaveArms(data, getLoc, Traverse(program, hints, false, false), ReportedCounts(Flatten(functions)), f)
  {
    var prepared;
    prepared, data := ConvertCoverage(program, hints, sources, getLoc, functions);
    ghost var calls, report := Traverse(program, hints, false, false), Flatten(functions);
    AllHaveArms(prepared, data, getLoc, calls, StoredCounts(report));
    if AllFit(report) {
      AllHaveArms(prepared, data, getLoc, calls, ReportedCounts(report));
    }
  }

  lemma {:induction false} AllHaveArms(prepared: Prepared, data: CoverageData, getLoc: Locator, calls: seq<Call>,
      count: CountOf)
    requires AllMean(prepared, data, getLoc, calls, count) && AllComeFrom(prepared.files, getLoc, calls)
    ensures forall f :: f in prepared.files ==> AloneHaveArms(data, getLoc, calls, count, f)
  {
    forall f | f in prepared.files ensures AloneHaveArms(data, getLoc, calls, count, f) {
      ConvertedHaveArms(prepared, data, getLoc, calls, count, f);
    }
  }

  // ----- a run -----

  // if (x) { return; }
  function OneIf(): Node {
    IfStatement(0, 18, Identifier(4, 5, "x"), BlockStatement(7, 18, [PlainStatement(9, 16, [])]), None)
  }

  function NoHints(): Hints {
    _ => NoHint
  }

  // The statement is run five times, its block three times.
  function FiveAndThree(): seq<FunctionCoverage> {
    [FunctionCoverage("", true, [V8Range(0, 18, 5), V8Range(7, 18, 3)])]
  }

  // One line of one file.
  function OneLine(): Locator {
    (span: Span) => Some(Mapped("/src/a.ts", Location(1, span.start, 1, span.end - 1)))
  }

  lemma {:induction false} LeafCalls(n: Node, hints: Hints)
    requires Children(n) == [] && hints(n.start) != NextHint
    ensures Traverse(n, hints, false, false) == Own(n, hints, false)
  {
    var parts := PartsOf(n, hints, false, false);
    assert Joined(parts, |parts|) == [];
  }

  lemma {:induction false} BlockCalls()
    ensures Traverse(OneIf().consequent, NoHints(), false, false) == [AddStatement(Span(9, 16), Span(9, 16))]
  {
    var block, leaf := OneIf().consequent, OneIf().consequent.children[0];
    var parts := PartsOf(block, NoHints(), false, false);
    LeafCalls(leaf, NoHints());
    assert Children(block)[0] == leaf;
    assert Joined(parts, 0) == [] && Joined(parts, 1) == parts[0];
  }

  function OneIfCall(): Call {
    AddBranch(IfBranch, Span(0, 18), [Some(Arm(Span(7, 18), true)), None])
  }

  lemma {:induction false} OneIfOwn()
    ensures Own(OneIf(), NoHints(), false) == [OneIfCall(), AddStatement(Span(0, 18), Span(0, 18))]
  {
    assert IfArms(OneIf(), NoHint) == [Some(Arm(Span(7, 18), true)), None];
  }

  lemma {:induction false} OneIfCalls()
    ensures Traverse(OneIf(), NoHints(), false, false) ==
      [OneIfCall(), AddStatement(Span(0, 18), Span(0, 18)), AddStatement(Span(9, 16), Span(9, 16))]
  {
    var n := OneIf();
    var parts := PartsOf(n, NoHints(), false, false);
    assert Children(n)[0] == n.test && Children(n)[1] == n.consequent;
    LeafCalls(n.test, NoHints());
    BlockCalls();
    JoinedPair(parts);
    OneIfOwn();
  }

  lemma {:induction false} OneIfNames()
    ensures WellNamed(OneIf())
  {
    var n := OneIf();
    var leaf := n.consequent.children[0];
    assert Children(leaf) == [] && Children(n.test) == [];
    assert WellNamed(leaf) && WellNamed(n.test);
    assert Children(n.consequent) == [leaf];
    assert WellNamed(n.consequent);
    assert Children(n) == [n.test, n.consequent];
  }

  lemma {:induction false} FiveAndThreeCounts()
    ensures var report := Flatten(FiveAndThree());
      AllWellFormed(report) && CountAt(report, 0) == 5 && CountAt(report, 8) == 3 && AllFit(report)
  {
    var report := [V8Range(0, 18, 5), V8Range(7, 18, 3)];
    assert FiveAndThree()[..0] == [] && Flatten([]) == [] && Flatten(FiveAndThree()) == report;
    assert IsMostSpecific(report, 0, 0) && IsMostSpecific(report, 8, 1);
    forall x ensures RangeNormalizer.FitsAt(report, x) {
      if exists j :: 0 <= j < |report| && Covers(report[j], x) {
        var i := MostSpecificExists(report, x);
      }
    }
  }

  /** Run five times with the condition true three times: the block counts 3, the missing else 2. */
  method RunFiveTimes() returns (data: CoverageData)
    ensures data.Keys == {"/src/a.ts"} && data["/src/a.ts"].path == "/src/a.ts"
    ensures exists i :: i in data["/src/a.ts"].b && data["/src/a.ts"].b[i] == [Count(3), Count(2)]
  {
    OneIfNames();
    FiveAndThreeCounts();
    data := ConvertBranches(OneIf(), NoHints(), {"/src/a.ts"}, OneLine(), FiveAndThree());
    OneIfCalls();
    ghost var i := OneIfCounts(data, Traverse(OneIf(), NoHints(), false, false),
        ReportedCounts(Flatten(FiveAndThree())));
  }

  lemma {:induction false} OneIfCounts(data: CoverageData, calls: seq<Call>, count: CountOf) returns (i: nat)
    requires |calls| == 3 && calls[0] == OneIfCall() && !calls[1].AddBranch? && !calls[2].AddBranch?
    requires count(0) == 5 && count(8) == 3 && AloneHaveArms(data, OneLine(), calls, count, "/src/a.ts")
    ensures "/src/a.ts" in data && i in data["/src/a.ts"].b && data["/src/a.ts"].b[i] == [Count(3), Count(2)]
  {
    var own, arm := Location(1, 0, 1, 17), Arm(Span(7, 18), true);
    IfWithoutElseKey(OneLine(), Span(0, 18), arm, "/src/a.ts", own, count);
    i := CountIsSplit(data, OneLine(), calls, count, "/src/a.ts", OneIfCall(), Span(0, 18), arm, own);
  }
}
