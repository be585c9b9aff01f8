/** Creating zeroed coverage from templates and adding a script's hits in place. */
module CoverageApply {
  import opened Wrappers
  import opened CoverageModel
  import opened CoverageRuns

  ghost function Counts(ranges: seq<Run>): CountOf {
    x => Lookup(ranges, x)
  }

  // ----- zeroed coverage -----

  method CreateFileCoverage(template: FileTemplate) returns (fc: FileCoverage)
    ensures fc == ZeroOf(template)
  {
    var s: Counters := map[];
    var f: Counters := map[];
    var b: BranchHits := map[];
    var index := 0;
    while index < template.statementCount
      invariant index <= template.statementCount && s == Zeros(index)
    {
      s := s[index := Count(0)];
      index := index + 1;
    }
    index := 0;
    while index < template.functionCount
      invariant index <= template.functionCount && f == Zeros(index)
    {
      f := f[index := Count(0)];
      index := index + 1;
    }
    var pending := template.branchLengths.Keys;
    while pending != {}
      invariant pending <= template.branchLengths.Keys
      invariant b.Keys == template.branchLengths.Keys - pending
      invariant forall i :: i in b ==> b[i] == ZeroArms(template.branchLengths)[i]
    {
      var i :| i in pending;
      b := b[i := seq(template.branchLengths[i], _ => Count(0))];
      pending := pending - {i};
    }
    assert b == ZeroArms(template.branchLengths);
    fc := FileCoverage(template.path, template.statementMap, template.fnMap, template.branchMap, s, f, b, false, None,
        None);
  }

  // ----- adding hits -----

  // The hits of the first nf function, ns statement and nb branch descriptors.
  ghost function Stage(p: Prepared, nf: nat, ns: nat, nb: nat): Prepared
    requires nf <= |p.functions| && ns <= |p.statements| && nb <= |p.branches|
  {
    Prepared(p.files, p.functions[..nf], p.statements[..ns], p.branches[..nb])
  }

  // A counter that is not there becomes no number.
  function Bump(counters: Counters, index: nat, hits: int): Counters {
    counters[index := if index in counters then Plus(counters[index], Count(hits)) else NotANumber]
  }

  lemma {:induction false} NothingAddedAt(fc: FileCoverage, file: string, count: CountOf)
    ensures AddCounters(fc.f, [], file, count) == fc.f && AddCounters(fc.s, [], file, count) == fc.s
    ensures AddArms(fc.b, [], file, count) == fc.b
  {
    SameMap(AddCounters(fc.f, [], file, count), fc.f);
    SameMap(AddCounters(fc.s, [], file, count), fc.s);
    forall i | i in fc.b ensures ArmsPlus(fc.b[i], [], file, i, count) == fc.b[i] {
    }
    SameMap(AddArms(fc.b, [], file, count), fc.b);
  }

  lemma {:induction false} NothingAdded(data: CoverageData, p: Prepared, count: CountOf)
    ensures AddHits(data, Stage(p, 0, 0, 0), count) == data
  {
    forall file | file in data ensures AddFile(data[file], file, Stage(p, 0, 0, 0), count) == data[file] {
      NothingAddedAt(data[file], file, count);
    }
    SameMap(AddHits(data, Stage(p, 0, 0, 0), count), data);
  }

  lemma {:induction false} CounterAdded(counters: Counters, ds: seq<Descriptor>, n: nat, file: string, count: CountOf)
    requires n < |ds|
    ensures AddCounters(counters, ds[..n + 1], file, count)
         == if ds[n].filename == file
             then Bump(AddCounters(counters, ds[..n], file, count), ds[n].index, count(ds[n].startOffset))
            else AddCounters(counters, ds[..n], file, count)
  {
    assert ds[..n + 1][..n] == ds[..n];
  }

  ghost predicate Differs(data: CoverageData, q: Prepared, r: Prepared, count: CountOf, file: string, filename: string,
      fc: FileCoverage)
    requires file in data
  {
    AddFile(data[file], file, r, count) == if file == filename then fc else AddFile(data[file], file, q, count)
  }

  // Two scripts whose hits differ in one file only.
  lemma {:induction false} OneFileDiffers(data: CoverageData, q: Prepared, r: Prepared, count: CountOf,
      filename: string,
      fc: FileCoverage)
    requires filename in data
    requires forall file :: file in data ==> Differs(data, q, r, count, file, filename, fc)
    ensures AddHits(data, r, count) == AddHits(data, q, count)[filename := fc]
  {
    var before, after := AddHits(data, q, count), AddHits(data, r, count);
    forall file | file in data ensures after[file] == before[filename := fc][file] {
      assert Differs(data, q, r, count, file, filename, fc);
    }
    SameMap(after, before[filename := fc]);
  }

  lemma {:induction false} FunctionAddedAt(fc: FileCoverage, file: string, p: Prepared, n: nat, count: CountOf)
    requires n < |p.functions|
    ensures var before, d := AddFile(fc, file, Stage(p, n, 0, 0), count), p.functions[n];
      AddFile(fc, file, Stage(p, n + 1, 0, 0), count)
      == if file == d.filename then before.(f := Bump(before.f, d.index, count(d.startOffset))) else before
  {
    CounterAdded(fc.f, p.functions, n, file, count);
  }

  lemma {:induction false} FunctionAdded(data: CoverageData, p: Prepared, n: nat, count: CountOf)
    requires n < |p.functions| && p.functions[n].filename in data
    ensures var before, d := AddHits(data, Stage(p, n, 0, 0), count), p.functions[n];
      d.filename in before
      && AddHits(data, Stage(p, n + 1, 0, 0), count)
         == before[d.filename := before[d.filename].(f := Bump(before[d.filename].f, d.index, count(d.startOffset)))]
  {
    var q, r, d := Stage(p, n, 0, 0), Stage(p, n + 1, 0, 0), p.functions[n];
    var was := AddFile(data[d.filename], d.filename, q, count);
    var fc := was.(f := Bump(was.f, d.index, count(d.startOffset)));
    forall file | file in data ensures Differs(data, q, r, count, file, d.filename, fc) {
      FunctionAddedAt(data[file], file, p, n, count);
    }
    OneFileDiffers(data, q, r, count, d.filename, fc);
  }

  // All functions, and the first n statements.
  ghost function WithStatements(p: Prepared, n: nat): Prepared
    requires n <= |p.statements|
  {
    Stage(p, |p.functions|, n, 0)
  }

  // All functions and statements, and the first n branches.
  ghost function WithBranches(p: Prepared, n: nat): Prepared
    requires n <= |p.branches|
  {
    Stage(p, |p.functions|, |p.statements|, n)
  }

  lemma {:induction false} StatementAddedAt(fc: FileCoverage, file: string, p: Prepared, n: nat, count: CountOf)
    requires n < |p.statements|
    ensures var before, d := AddFile(fc, file, WithStatements(p, n), count), p.statements[n];
      AddFile(fc, file, WithStatements(p, n + 1), count)
      == if file == d.filename then before.(s := Bump(before.s, d.index, count(d.startOffset))) else before
  {
    CounterAdded(fc.s, p.statements, n, file, count);
  }

  lemma {:induction false} StatementAdded(data: CoverageData, p: Prepared, n: nat, count: CountOf)
    requires n < |p.statements| && p.statements[n].filename in data
    ensures var before, d := AddHits(data, WithStatements(p, n), count), p.statements[n];
      d.filename in before
      && AddHits(data, WithStatements(p, n + 1), count)
         == before[d.filename := before[d.filename].(s := Bump(before[d.filename].s, d.index, count(d.startOffset)))]
  {
    var q, r, d := WithStatements(p, n), WithStatements(p, n + 1), p.statements[n];
    var was := AddFile(data[d.filename], d.filename, q, count);
    var fc := was.(s := Bump(was.s, d.index, count(d.startOffset)));
    forall file | file in data ensures Differs(data, q, r, count, file, d.filename, fc) {
      StatementAddedAt(data[file], file, p, n, count);
    }
    OneFileDiffers(data, q, r, count, d.filename, fc);
  }

  ghost function Larger(a: nat, b: nat): nat {
    if a < b then b else a
  }

  // The first n arms have their hits added; those that were not there are no numbers.
  ghost predicate ArmsAdded(before: seq<Tally>, after: seq<Tally>, ranges: seq<BranchRange>, n: nat, count: CountOf) {
    && n <= |ranges|
    && |after| == Larger(|before|, n)
    && forall k :: 0 <= k < |after| ==>
         after[k] ==
           if k >= |before| then NotANumber
           else if k < n then Plus(before[k], Count(ArmHit(ranges, k, count))) else before[k]
  }

  lemma {:induction false} ArmsPlusMore(hits: seq<Tally>, ds: seq<BranchDescriptor>, n: nat, file: string, index: nat,
      count: CountOf, after: seq<Tally>)
    requires n < |ds| && ds[n].filename == file && ds[n].index == index
    requires ArmsAdded(ArmsPlus(hits, ds[..n], file, index, count), after, ds[n].ranges, |ds[n].ranges|, count)
    ensures ArmsPlus(hits, ds[..n + 1], file, index, count) == after
  {
    assert ds[..n + 1][..n] == ds[..n];
  }

  lemma {:induction false} ArmsPlusSame(hits: seq<Tally>, ds: seq<BranchDescriptor>, n: nat, file: string, index: nat,
      count: CountOf)
    requires n < |ds| && (ds[n].filename != file || ds[n].index != index || ds[n].ranges == [])
    ensures ArmsPlus(hits, ds[..n + 1], file, index, count) == ArmsPlus(hits, ds[..n], file, index, count)
  {
    assert ds[..n + 1][..n] == ds[..n];
  }

  lemma {:induction false} BranchArmsAdded(arms: BranchHits, ds: seq<BranchDescriptor>, n: nat, file: string,
      count: CountOf, hits: seq<Tally>)
    requires n < |ds| && ds[n].filename == file && ds[n].index in arms
    requires ArmsAdded(AddArms(arms, ds[..n], file, count)[ds[n].index], hits, ds[n].ranges, |ds[n].ranges|, count)
    ensures AddArms(arms, ds[..n + 1], file, count) == AddArms(arms, ds[..n], file, count)[ds[n].index := hits]
  {
    var before, after := AddArms(arms, ds[..n], file, count), AddArms(arms, ds[..n + 1], file, count);
    forall i | i in arms ensures after[i] == if i == ds[n].index then hits else before[i] {
      if i == ds[n].index {
        ArmsPlusMore(arms[i], ds, n, file, i, count, hits);
      } else {
        ArmsPlusSame(arms[i], ds, n, file, i, count);
      }
    }
    SameMap(after, before[ds[n].index := hits]);
  }

  // A descriptor of another file, or of a branch that is not there, leaves the arms as they are.
  lemma {:induction false} OtherArmsSame(arms: BranchHits, ds: seq<BranchDescriptor>, n: nat, file: string,
      count: CountOf)
    requires n < |ds| && (ds[n].filename != file || ds[n].index !in arms)
    ensures AddArms(arms, ds[..n + 1], file, count) == AddArms(arms, ds[..n], file, count)
  {
    var before, after := AddArms(arms, ds[..n], file, count), AddArms(arms, ds[..n + 1], file, count);
    forall i | i in arms ensures after[i] == before[i] {
      ArmsPlusSame(arms[i], ds, n, file, i, count);
    }
    SameMap(after, before);
  }

  lemma {:induction false} BranchAddedAt(fc: FileCoverage, p: Prepared, n: nat, count: CountOf, hits: seq<Tally>)
    requires n < |p.branches| && p.branches[n].index in fc.b
    requires var d := p.branches[n];
      ArmsAdded(AddFile(fc, d.filename, WithBranches(p, n), count).b[d.index], hits, d.ranges, |d.ranges|, count)
    ensures var d := p.branches[n];
      var before := AddFile(fc, d.filename, WithBranches(p, n), count);
      AddFile(fc, d.filename, WithBranches(p, n + 1), count) == before.(b := before.b[d.index := hits])
  {
    BranchArmsAdded(fc.b, p.branches, n, p.branches[n].filename, count, hits);
  }

  lemma {:induction false} BranchAdded(data: CoverageData, p: Prepared, n: nat, count: CountOf, hits: seq<Tally>)
    requires n < |p.branches| && p.branches[n].filename in data
    requires var before, d := AddHits(data, WithBranches(p, n), count), p.branches[n];
      d.index in data[d.filename].b && ArmsAdded(before[d.filename].b[d.index], hits, d.ranges, |d.ranges|, count)
    ensures var before, d := AddHits(data, WithBranches(p, n), count), p.branches[n];
      AddHits(data, WithBranches(p, n + 1), count)
        == before[d.filename := before[d.filename].(b := before[d.filename].b[d.index := hits])]
  {
    var q, r, d := WithBranches(p, n), WithBranches(p, n + 1), p.branches[n];
    var was := AddFile(data[d.filename], d.filename, q, count);
    var fc := was.(b := was.b[d.index := hits]);
    forall file | file in data ensures Differs(data, q, r, count, file, d.filename, fc) {
      if file == d.filename {
        BranchAddedAt(data[file], p, n, count, hits);
      } else {
        OtherArmsSame(data[file].b, p.branches, n, file, count);
      }
    }
    OneFileDiffers(data, q, r, count, d.filename, fc);
  }

  lemma {:induction false} BranchPassed(data: CoverageData, p: Prepared, n: nat, count: CountOf)
    requires n < |p.branches| && p.branches[n].filename in data
    requires p.branches[n].index !in data[p.branches[n].filename].b
    ensures AddHits(data, WithBranches(p, n + 1), count) == AddHits(data, WithBranches(p, n), count)
  {
    forall file | file in data
      ensures AddFile(data[file], file, WithBranches(p, n), count)
           == AddFile(data[file], file, WithBranches(p, n + 1), count)
    {
      OtherArmsSame(data[file].b, p.branches, n, file, count);
    }
  }

  // How much a counter has grown.
  ghost function Growth(before: Tally, after: Tally): int
    requires before.Count? && after.Count?
  {
    after.value - before.value
  }

  ghost predicate BothCount(before: seq<Tally>, after: seq<Tally>, k: nat) {
    k < |before| && k < |after| && before[k].Count? && after[k].Count?
  }

  /**
   An explicit arm grows by the count at its own start; an implicit arm and the one before it together by the count at
   the implicit arm's start.
   */
  ghost predicate ArmsGrow(before: seq<Tally>, after: seq<Tally>, branch: seq<BranchRange>, count: CountOf) {
    && |before| <= |after|
    && (forall k :: 0 <= k < |before| ==> (before[k].Count? <==> after[k].Count?))
    && forall k: nat {:trigger branch[k]} :: k < |branch| && BothCount(before, after, k) ==>
         if branch[k].implicit && k > 0
         then BothCount(before, after, k - 1) ==>
           Growth(before[k - 1], after[k - 1]) + Growth(before[k], after[k]) == count(branch[k].startOffset)
         else Growth(before[k], after[k]) == count(branch[k].startOffset)
  }

  lemma {:induction false} AddedArmsGrow(before: seq<Tally>, after: seq<Tally>, branch: seq<BranchRange>,
      count: CountOf)
    requires ArmsAdded(before, after, branch, |branch|, count)
    ensures ArmsGrow(before, after, branch, count)
  {
    forall k: nat {:trigger branch[k]} | k < |branch| && BothCount(before, after, k)
      ensures if branch[k].implicit && k > 0
         then BothCount(before, after, k - 1) ==>
           Growth(before[k - 1], after[k - 1]) + Growth(before[k], after[k]) == count(branch[k].startOffset)
         else Growth(before[k], after[k]) == count(branch[k].startOffset)
    {
      ArmHitSplits(branch, k, count);
    }
  }

  /** One branch: the implicit arm's hit is the count less the previous arm's hit. */
  method AddArmHits(hits: seq<Tally>, branch: seq<BranchRange>, ranges: seq<Run>) returns (more: seq<Tally>)
    requires Canonical(ranges)
    ensures ArmsAdded(hits, more, branch, |branch|, Counts(ranges))
    ensures ArmsGrow(hits, more, branch, Counts(ranges))
  {
    more := hits;
    var previousHit: int := 0;
    var index := 0;
    while index < |branch|
      invariant index <= |branch|
      invariant ArmsAdded(hits, more, branch, index, Counts(ranges))
      invariant previousHit == if index == 0 then 0 else ArmHit(branch, index - 1, Counts(ranges))
    {
      var range := branch[index];
      var count := GetCount(range.startOffset, ranges);
      var hit: int := if range.implicit then count - previousHit else count;
      if index < |more| {
        more := more[index := Plus(more[index], Count(hit))];
      } else {
        more := more + [NotANumber];
      }
      previousHit := hit;
      index := index + 1;
    }
    AddedArmsGrow(hits, more, branch, Counts(ranges));
  }

  /** What a script adds to the arms of a branch, by the counts at their starts. */
  lemma {:induction false} ScriptArmsGrow(data: CoverageData, p: Prepared, count: CountOf, file: string, i: nat, k: nat)
    requires file in data && i in data[file].b && k < |data[file].b[i]| && data[file].b[i][k].Count?
    ensures var before, after := data[file].b[i], AddHits(data, p, count)[file].b[i];
      && k < |after| && after[k].Count?
      && (ArmIs(p.branches, file, i, k, false) ==>
            Growth(before[k], after[k]) == StartSum(p.branches, file, i, k, count))
      && (k > 0 && ArmIs(p.branches, file, i, k, true) && before[k - 1].Count? ==>
            && after[k - 1].Count?
            && Growth(before[k - 1], after[k - 1]) + Growth(before[k], after[k])
                == StartSum(p.branches, file, i, k, count))
  {
    ArmSumsSplit(p.branches, file, i, k, count);
  }

  ghost function JustFiles(p: Prepared, names: set<string>): Prepared {
    Prepared(map file | file in p.files && file in names :: p.files[file], [], [], [])
  }

  // Every file but the pending ones has its coverage.
  ghost predicate CreatedBut(before: CoverageData, p: Prepared, pending: set<string>, data: CoverageData) {
    data == WithTemplates(before, JustFiles(p, p.files.Keys - pending))
  }

  lemma {:induction false} NothingCreated(before: CoverageData, p: Prepared)
    ensures CreatedBut(before, p, p.files.Keys, before)
  {
    SameMap(WithTemplates(before, JustFiles(p, p.files.Keys - p.files.Keys)), before);
  }

  lemma {:induction false} AllCreated(before: CoverageData, p: Prepared, data: CoverageData)
    requires CreatedBut(before, p, {}, data)
    ensures data == WithTemplates(before, p)
  {
    SameMap(data, WithTemplates(before, p));
  }

  lemma {:induction false} FileCreated(before: CoverageData, p: Prepared, pending: set<string>, data: CoverageData,
      filename: string)
    requires CreatedBut(before, p, pending, data) && filename in pending && pending <= p.files.Keys
    ensures CreatedBut(before, p, pending - {filename},
        if filename in data then data else data[filename := ZeroOf(p.files[filename])])
  {
    SameMap(WithTemplates(before, JustFiles(p, p.files.Keys - (pending - {filename}))),
            if filename in data then data else data[filename := ZeroOf(p.files[filename])]);
  }

  // What of a script is applied: all of it, or all before the first branch that throws.
  ghost function AppliedPart(p: Prepared, data: CoverageData): Prepared {
    WithBranches(p, Reached(p.branches, data))
  }

  ghost predicate BranchesFound(p: Prepared, data: CoverageData) {
    forall i :: 0 <= i < |p.branches| ==> !Throws(p.branches[i], data)
  }

  lemma {:induction false} AllApplied(p: Prepared, data: CoverageData)
    ensures BranchesFound(p, data) <==> Reached(p.branches, data) == |p.branches|
    ensures BranchesFound(p, data) ==> AppliedPart(p, data) == p
  {
    var n := Reached(p.branches, data);
    if n == |p.branches| {
      assert p.branches[..n] == p.branches;
    }
  }

  lemma {:induction false} NothingThrows(p: Prepared, data: CoverageData)
    requires InBounds(p, data)
    ensures BranchesFound(p, data)
  {
    forall i | 0 <= i < |p.branches| ensures !Throws(p.branches[i], data) {
      assert BranchInBounds(p.branches[i], data);
    }
  }

  lemma {:induction false} SameBranches(data: CoverageData, p: Prepared, count: CountOf, file: string)
    requires file in data
    ensures file in AddHits(data, p, count) && AddHits(data, p, count)[file].b.Keys == data[file].b.Keys
  {
  }

  class CoverageStore {
    var data: CoverageData

    method AddFunctionHits(prepared: Prepared, ranges: seq<Run>)
      requires Canonical(ranges) && OwnFiles(prepared) && prepared.files.Keys <= data.Keys
      modifies this
      ensures data == AddHits(old(data), WithStatements(prepared, 0), Counts(ranges))
    {
      ghost var count := Counts(ranges);
      NothingAdded(data, prepared, count);
      var n := 0;
      while n < |prepared.functions|
        invariant n <= |prepared.functions|
        invariant data == AddHits(old(data), Stage(prepared, n, 0, 0), count)
      {
        var d := prepared.functions[n];
        FunctionAdded(old(data), prepared, n, count);
        var c := GetCount(d.startOffset, ranges);
        data := data[d.filename := data[d.filename].(f := Bump(data[d.filename].f, d.index, c))];
        n := n + 1;
      }
    }

    method AddStatementHits(prepared: Prepared, ranges: seq<Run>, ghost before: CoverageData)
      requires Canonical(ranges) && OwnFiles(prepared) && prepared.files.Keys <= before.Keys
      requires data == AddHits(before, WithStatements(prepared, 0), Counts(ranges))
      modifies this
      ensures data == AddHits(before, WithBranches(prepared, 0), Counts(ranges))
    {
      ghost var count := Counts(ranges);
      var n := 0;
      while n < |prepared.statements|
        invariant n <= |prepared.statements|
        invariant data == AddHits(before, WithStatements(prepared, n), count)
      {
        var d := prepared.statements[n];
        StatementAdded(before, prepared, n, count);
        var c := GetCount(d.startOffset, ranges);
        data := data[d.filename := data[d.filename].(s := Bump(data[d.filename].s, d.index, c))];
        n := n + 1;
      }
    }

    method AddOneBranch(prepared: Prepared, n: nat, ranges: seq<Run>, ghost before: CoverageData) returns (thrown: bool)
      requires Canonical(ranges) && n < |prepared.branches| && prepared.branches[n].filename in before
      requires data == AddHits(before, WithBranches(prepared, n), Counts(ranges))
      modifies this
      ensures thrown <==> Throws(prepared.branches[n], before)
      ensures data == AddHits(before, WithBranches(prepared, if thrown then n else n + 1), Counts(ranges))
    {
      var d := prepared.branches[n];
      SameBranches(before, WithBranches(prepared, n), Counts(ranges), d.filename);
      thrown := false;
      if d.index in data[d.filename].b {
        var hits := AddArmHits(data[d.filename].b[d.index], d.ranges, ranges);
        BranchAdded(before, prepared, n, Counts(ranges), hits);
        data := data[d.filename := data[d.filename].(b := data[d.filename].b[d.index := hits])];
      } else if d.ranges != [] {
        thrown := true;
      } else {
        BranchPassed(before, prepared, n, Counts(ranges));
      }
    }

    method AddBranchHits(prepared: Prepared, ranges: seq<Run>, ghost before: CoverageData) returns (thrown: bool)
      requires Canonical(ranges) && OwnFiles(prepared) && prepared.files.Keys <= before.Keys
      requires data == AddHits(before, WithBranches(prepared, 0), Counts(ranges))
      modifies this
      ensures thrown <==> !BranchesFound(prepared, before)
      ensures data == AddHits(before, AppliedPart(prepared, before), Counts(ranges))
    {
      ghost var stop := Reached(prepared.branches, before);
      thrown := false;
      var n := 0;
      while n < |prepared.branches| && !thrown
        invariant n <= stop && (thrown ==> n == stop < |prepared.branches|)
        invariant data == AddHits(before, WithBranches(prepared, n), Counts(ranges))
        decreases |prepared.branches| - n, !thrown
      {
        thrown := AddOneBranch(prepared, n, ranges, before);
        n := if thrown then n else n + 1;
      }
      AllApplied(prepared, before);
      assert WithBranches(prepared, n) == AppliedPart(prepared, before);
    }

    method ApplyCoverageHits(prepared: Prepared, ranges: seq<Run>) returns (thrown: bool)
      requires Canonical(ranges) && OwnFiles(prepared) && prepared.files.Keys <= data.Keys
      modifies this
      ensures thrown <==> !BranchesFound(prepared, old(data))
      ensures data == AddHits(old(data), AppliedPart(prepared, old(data)), Counts(ranges))
    {
      ghost var before := data;
      AddFunctionHits(prepared, ranges);
      AddStatementHits(prepared, ranges, before);
      thrown := AddBranchHits(prepared, ranges, before);
    }

    method CreateMissing(prepared: Prepared)
      modifies this
      ensures data == WithTemplates(old(data), prepared)
    {
      ghost var before := data;
      var pending := prepared.files.Keys;
      NothingCreated(before, prepared);
      while pending != {}
        invariant pending <= prepared.files.Keys && CreatedBut(before, prepared, pending, data)
      {
        var filename :| filename in pending;
        FileCreated(before, prepared, pending, data, filename);
        if filename !in data {
          var zero := CreateFileCoverage(prepared.files[filename]);
          data := data[filename := zero];
        }
        pending := pending - {filename};
      }
      AllCreated(before, prepared, data);
    }

    /**
     Adds to existing coverage, creating it from the template where there is none. A counter the existing coverage lacks
     becomes no number; a branch it lacks throws, with all before it applied.
     */
    method ApplyCoverageToMap(prepared: Prepared, ranges: seq<Run>) returns (thrown: bool)
      requires Canonical(ranges) && OwnFiles(prepared)
      modifies this
      ensures var start := WithTemplates(old(data), prepared);
        && (thrown <==> !BranchesFound(prepared, start))
        && data == AddHits(start, AppliedPart(prepared, start), Counts(ranges))
      ensures !thrown ==> data == ApplyScript(old(data), prepared, Counts(ranges))
    {
      CreateMissing(prepared);
      AllApplied(prepared, data);
      thrown := ApplyCoverageHits(prepared, ranges);
    }
  }

  // A script that names only its own counters throws on no coverage built from its templates.
  lemma {:induction false} NeverThrows(data: CoverageData, p: Prepared)
    requires SelfContained(p) && Compatible(data, p)
    ensures OwnFiles(p) && BranchesFound(p, WithTemplates(data, p))
  {
    NeverMissing(data, p);
    NothingThrows(p, WithTemplates(data, p));
    ContainedFiles(p);
  }

  lemma {:induction false} ContainedFiles(p: Prepared)
    requires SelfContained(p)
    ensures OwnFiles(p)
  {
    var own := WithTemplates(map[], p);
    assert own.Keys == p.files.Keys;
    assert forall i :: 0 <= i < |p.functions| ==> FunctionInBounds(p.functions[i], own);
    assert forall i :: 0 <= i < |p.statements| ==> StatementInBounds(p.statements[i], own);
    assert forall i :: 0 <= i < |p.branches| ==> BranchInBounds(p.branches[i], own);
  }

  /** Converting one script into coverage of its own. */
  method ApplyCoverage(prepared: Prepared, ranges: seq<Run>) returns (data: CoverageData)
    requires Canonical(ranges) && SelfContained(prepared)
    ensures data == ApplyScript(map[], prepared, Counts(ranges))
  {
    var store := new CoverageStore;
    store.data := map[];
    NeverThrows(map[], prepared);
    var _ := store.ApplyCoverageToMap(prepared, ranges);
    data := store.data;
  }
}
