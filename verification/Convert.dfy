/** The whole conversion of one script, and what its counters mean in terms of the syntax tree and the V8 report. */
module Convert {
  import opened Wrappers
  import opened V8Ranges
  import opened RangeNormalizer
  import opened CoverageModel
  import opened CoverageApply
  import opened CoverageBuilder
  import opened AstWalk
  import opened Entries
  import opened Prepare

  // The hits of all statement calls with one location: their counts at the starts of their spans.
  ghost function StatementHits(getLoc: Locator, calls: seq<Call>, at: Mapped, count: CountOf): int {
    if calls == [] then 0 else
      StatementHits(getLoc, calls[..|calls| - 1], at, count) + StatementHitsOf(getLoc, calls[|calls| - 1], at, count)
  }

  ghost function StatementHitsOf(getLoc: Locator, c: Call, at: Mapped, count: CountOf): int {
    if c.AddStatement? && getLoc(c.node) == Some(at) then count(c.coverage.start) else 0
  }

  lemma {:induction false} StatementHitsMore(getLoc: Locator, calls: seq<Call>, c: Call, at: Mapped, count: CountOf)
    ensures StatementHits(getLoc, calls + [c], at, count)
        == StatementHits(getLoc, calls, at, count) + StatementHitsOf(getLoc, c, at, count)
  {
    assert (calls + [c])[..|calls|] == calls;
  }

  // Functions are told apart by where they are declared.
  ghost function FunctionHits(getLoc: Locator, calls: seq<Call>, filename: string, decl: Location,
      count: CountOf): int
  {
    if calls == [] then 0 else
      FunctionHits(getLoc, calls[..|calls| - 1], filename, decl, count)
          + FunctionHitsOf(getLoc, calls[|calls| - 1], filename, decl, count)
  }

  ghost function FunctionHitsOf(getLoc: Locator, c: Call, filename: string, decl: Location, count: CountOf): int {
    if c.AddFunction? && getLoc(c.loc).Some? && getLoc(c.loc).value.filename == filename && getLoc(c.decl).Some?
        && getLoc(c.decl).value.loc == decl
    then count(c.coverage.start) else 0
  }

  lemma {:induction false} FunctionHitsMore(getLoc: Locator, calls: seq<Call>, c: Call, filename: string,
      decl: Location, count: CountOf)
    ensures FunctionHits(getLoc, calls + [c], filename, decl, count)
         == FunctionHits(getLoc, calls, filename, decl, count) + FunctionHitsOf(getLoc, c, filename, decl, count)
  {
    assert (calls + [c])[..|calls|] == calls;
  }

  // The ranges of a branch call's mapped arms.
  ghost function ArmRanges(getLoc: Locator, c: Call): seq<BranchRange>
    requires c.AddBranch?
  {
    var mapped := MappedArms(getLoc, c.arms);
    seq(|mapped|, k requires 0 <= k < |mapped| => ArmRange(c.node, mapped[k]))
  }

  // Branches are told apart by the locations of their arms.
  ghost predicate BranchStandsFor(getLoc: Locator, c: Call, filename: string, locations: seq<Location>) {
    && c.AddBranch? && getLoc(c.node).Some? && getLoc(c.node).value.filename == filename
    && BranchLocations(getLoc, c.branchType, getLoc(c.node).value.loc, c.arms) == locations
  }

  // The hits of arm k of all branch calls with the same arms.
  ghost function ArmHits(getLoc: Locator, calls: seq<Call>, filename: string, locations: seq<Location>, k: nat,
      count: CountOf): int
  {
    if calls == [] then 0 else
      ArmHits(getLoc, calls[..|calls| - 1], filename, locations, k, count)
          + ArmHitsOf(getLoc, calls[|calls| - 1], filename, locations, k, count)
  }

  ghost function ArmHitsOf(getLoc: Locator, c: Call, filename: string, locations: seq<Location>, k: nat,
      count: CountOf): int
  {
    if BranchStandsFor(getLoc, c, filename, locations) && k < |ArmRanges(getLoc, c)|
        then ArmHit(ArmRanges(getLoc, c), k, count) else 0
  }

  lemma {:induction false} ArmHitsMore(getLoc: Locator, calls: seq<Call>, c: Call, filename: string,
      locations: seq<Location>, k: nat, count: CountOf)
    ensures ArmHits(getLoc, calls + [c], filename, locations, k, count)
         == ArmHits(getLoc, calls, filename, locations, k, count) + ArmHitsOf(getLoc, c, filename, locations, k, count)
  {
    assert (calls + [c])[..|calls|] == calls;
  }

  lemma {:induction false} UnlocatedHasNoArm(getLoc: Locator, sources: set<string>, c: Call, filename: string,
      locations: seq<Location>, k: nat, count: CountOf)
    requires filename in sources && !IsLocated(getLoc, sources, c, Branches)
    ensures ArmHitsOf(getLoc, c, filename, locations, k, count) == 0
  {
  }

  lemma {:induction false} FittingArm(files: map<string, FileTemplate>, getLoc: Locator, c: Call, d: BranchDescriptor,
      file: string, index: nat, k: nat, count: CountOf)
    requires BranchFits(files, getLoc, c, d)
    requires file in files && ExactTemplate(files[file]) && index in files[file].branchMap
    ensures ArmHitsOf(getLoc, c, file, files[file].branchMap[index].locations, k, count)
         == if d.filename == file && d.index == index && k < |d.ranges| then ArmHit(d.ranges, k, count) else 0
  {
    assert d.ranges == ArmRanges(getLoc, c);
    assert d.filename == file && d.index == index
        <==> BranchStandsFor(getLoc, c, file, files[file].branchMap[index].locations);
  }

  lemma {:induction false} BranchesFitFront(files: map<string, FileTemplate>, getLoc: Locator, cs: seq<Call>,
      ds: seq<BranchDescriptor>, n: nat)
    requires BranchesFit(files, getLoc, cs, ds) && n <= |ds|
    ensures BranchesFit(files, getLoc, cs[..n], ds[..n])
  {
  }

  lemma {:induction false} ArmsSum(files: map<string, FileTemplate>, getLoc: Locator, cs: seq<Call>,
      ds: seq<BranchDescriptor>, file: string, index: nat, k: nat, count: CountOf)
    requires BranchesFit(files, getLoc, cs, ds)
    requires file in files && ExactTemplate(files[file]) && index in files[file].branchMap
    ensures ArmSum(ds, file, index, k, count)
        == ArmHits(getLoc, cs, file, files[file].branchMap[index].locations, k, count)
  {
    if ds != [] {
      var n := |ds| - 1;
      BranchesFitFront(files, getLoc, cs, ds, n);
      FittingArm(files, getLoc, cs[n], ds[n], file, index, k, count);
      ArmsSum(files, getLoc, cs[..n], ds[..n], file, index, k, count);
    }
  }

  lemma {:induction false} OnlyLocatedBranches(getLoc: Locator, sources: set<string>, calls: seq<Call>,
      filename: string, locations: seq<Location>, k: nat, count: CountOf)
    requires filename in sources
    ensures ArmHits(getLoc, Located(getLoc, sources, calls, Branches), filename, locations, k, count)
        == ArmHits(getLoc, calls, filename, locations, k, count)
  {
    if calls != [] {
      var n := |calls| - 1;
      OnlyLocatedBranches(getLoc, sources, calls[..n], filename, locations, k, count);
      LocatedNext(getLoc, sources, calls, n, Branches);
      assert calls[..n + 1] == calls
          && Located(getLoc, sources, calls[..n], Branches) + [] == Located(getLoc, sources, calls[..n], Branches);
      if IsLocated(getLoc, sources, calls[n], Branches) {
        ArmHitsMore(getLoc, Located(getLoc, sources, calls[..n], Branches), calls[n], filename, locations, k, count);
      } else {
        UnlocatedHasNoArm(getLoc, sources, calls[n], filename, locations, k, count);
      }
    }
  }

  lemma {:induction false} FittingStatement(files: map<string, FileTemplate>, getLoc: Locator, c: Call, d: Descriptor,
      file: string, index: nat, count: CountOf)
    requires StatementFits(files, getLoc, c, d)
    requires file in files && ExactTemplate(files[file]) && index in files[file].statementMap
    ensures StatementHitsOf(getLoc, c, Mapped(file, files[file].statementMap[index]), count)
         == if d.filename == file && d.index == index then count(d.startOffset) else 0
  {
  }

  lemma {:induction false} FittingFunction(files: map<string, FileTemplate>, getLoc: Locator, c: Call, d: Descriptor,
      file: string, index: nat, count: CountOf)
    requires FunctionFits(files, getLoc, c, d)
    requires file in files && ExactTemplate(files[file]) && index in files[file].fnMap
    ensures FunctionHitsOf(getLoc, c, file, files[file].fnMap[index].decl, count)
         == if d.filename == file && d.index == index then count(d.startOffset) else 0
  {
  }

  lemma {:induction false} StatementSum(files: map<string, FileTemplate>, getLoc: Locator, cs: seq<Call>,
      ds: seq<Descriptor>, file: string, index: nat, count: CountOf)
    requires StatementsFit(files, getLoc, cs, ds)
    requires file in files && ExactTemplate(files[file]) && index in files[file].statementMap
    ensures HitSum(ds, file, index, count)
        == StatementHits(getLoc, cs, Mapped(file, files[file].statementMap[index]), count)
  {
    if ds != [] {
      var n := |ds| - 1;
      FittingStatement(files, getLoc, cs[n], ds[n], file, index, count);
      StatementSum(files, getLoc, cs[..n], ds[..n], file, index, count);
    }
  }

  lemma {:induction false} FunctionsFitFront(files: map<string, FileTemplate>, getLoc: Locator, cs: seq<Call>,
      ds: seq<Descriptor>, n: nat)
    requires FunctionsFit(files, getLoc, cs, ds) && n <= |ds|
    ensures FunctionsFit(files, getLoc, cs[..n], ds[..n])
  {
  }

  lemma {:induction false} FunctionSum(files: map<string, FileTemplate>, getLoc: Locator, cs: seq<Call>,
      ds: seq<Descriptor>, file: string, index: nat, count: CountOf)
    requires FunctionsFit(files, getLoc, cs, ds)
    requires file in files && ExactTemplate(files[file]) && index in files[file].fnMap
    ensures HitSum(ds, file, index, count) == FunctionHits(getLoc, cs, file, files[file].fnMap[index].decl, count)
  {
    if ds != [] {
      var n := |ds| - 1;
      FunctionsFitFront(files, getLoc, cs, ds, n);
      FittingFunction(files, getLoc, cs[n], ds[n], file, index, count);
      FunctionSum(files, getLoc, cs[..n], ds[..n], file, index, count);
    }
  }

  // Calls that yield no descriptor have no part in any sum.
  lemma {:induction false} OnlyLocatedStatements(getLoc: Locator, sources: set<string>, calls: seq<Call>, at: Mapped,
      count: CountOf)
    requires at.filename in sources
    ensures StatementHits(getLoc, Located(getLoc, sources, calls, Statements), at, count)
        == StatementHits(getLoc, calls, at, count)
  {
    if calls != [] {
      var n := |calls| - 1;
      OnlyLocatedStatements(getLoc, sources, calls[..n], at, count);
      LocatedNext(getLoc, sources, calls, n, Statements);
      assert calls[..n + 1] == calls
          && Located(getLoc, sources, calls[..n], Statements) + [] == Located(getLoc, sources, calls[..n], Statements);
      if IsLocated(getLoc, sources, calls[n], Statements) {
        StatementHitsMore(getLoc, Located(getLoc, sources, calls[..n], Statements), calls[n], at, count);
      }
    }
  }

  lemma {:induction false} OnlyLocatedFunctions(getLoc: Locator, sources: set<string>, calls: seq<Call>,
      filename: string, decl: Location, count: CountOf)
    requires filename in sources
    ensures FunctionHits(getLoc, Located(getLoc, sources, calls, Functions), filename, decl, count)
        == FunctionHits(getLoc, calls, filename, decl, count)
  {
    if calls != [] {
      var n := |calls| - 1;
      OnlyLocatedFunctions(getLoc, sources, calls[..n], filename, decl, count);
      LocatedNext(getLoc, sources, calls, n, Functions);
      assert calls[..n + 1] == calls
          && Located(getLoc, sources, calls[..n], Functions) + [] == Located(getLoc, sources, calls[..n], Functions);
      if IsLocated(getLoc, sources, calls[n], Functions) {
        FunctionHitsMore(getLoc, Located(getLoc, sources, calls[..n], Functions), calls[n], filename, decl, count);
      }
    }
  }

  ghost function StoredCounts(report: seq<V8Range>): CountOf {
    x => StoredCount(report, x)
  }

  ghost predicate StatementsMean(template: FileTemplate, s: Counters, getLoc: Locator, calls: seq<Call>,
      count: CountOf, file: string)
  {
    && s.Keys == template.statementMap.Keys
    && forall i :: i in s ==> s[i] == Count(StatementHits(getLoc, calls, Mapped(file, template.statementMap[i]), count))
  }

  ghost predicate FunctionsMean(template: FileTemplate, f: Counters, getLoc: Locator, calls: seq<Call>,
      count: CountOf, file: string)
  {
    && f.Keys == template.fnMap.Keys
    && forall i :: i in f ==> f[i] == Count(FunctionHits(getLoc, calls, file, template.fnMap[i].decl, count))
  }

  // Counters that start at zero end at their sums.
  lemma {:induction false} FromZero(n: nat, ds: seq<Descriptor>, file: string, count: CountOf)
    requires Named(ds, file) <= Zeros(n).Keys
    ensures AddCounters(Zeros(n), ds, file, count).Keys == Zeros(n).Keys
    ensures forall i :: i in Zeros(n) ==> AddCounters(Zeros(n), ds, file, count)[i] == Count(HitSum(ds, file, i, count))
  {
    assert Zeros(n).Keys + Named(ds, file) == Zeros(n).Keys;
  }

  ghost predicate ArmsAreSums(hits: seq<Tally>, ds: seq<BranchDescriptor>, file: string, i: nat, count: CountOf) {
    forall k: nat :: k < |hits| ==> hits[k] == Count(ArmSum(ds, file, i, k, count))
  }

  lemma {:induction false} ArmsFromZero(lengths: map<nat, nat>, ds: seq<BranchDescriptor>, file: string, i: nat,
      count: CountOf)
    requires i in lengths && Widest(ds, file, i) <= lengths[i]
    ensures var hits := AddArms(ZeroArms(lengths), ds, file, count);
      i in hits && |hits[i]| == lengths[i] && ArmsAreSums(hits[i], ds, file, i, count)
  {
  }

  lemma {:induction false} StatementsAt(prepared: Prepared, getLoc: Locator, calls: seq<Call>, count: CountOf,
      file: string)
    requires SelfContained(prepared)
    requires file in prepared.files && ExactTemplate(prepared.files[file])
    requires StatementsFit(prepared.files, getLoc, Located(getLoc, prepared.files.Keys, calls, Statements),
        prepared.statements)
    ensures var template := prepared.files[file];
      StatementsMean(template, AddCounters(Zeros(template.statementCount), prepared.statements, file, count), getLoc,
          calls, count, file)
  {
    var template := prepared.files[file];
    NamesOwn(prepared, file, ZeroOf(template));
    FromZero(template.statementCount, prepared.statements, file, count);
    forall i | i in template.statementMap
      ensures HitSum(prepared.statements, file, i, count)
          == StatementHits(getLoc, calls, Mapped(file, template.statementMap[i]), count)
    {
      StatementSum(prepared.files, getLoc, Located(getLoc, prepared.files.Keys, calls, Statements), prepared.statements,
          file, i, count);
      OnlyLocatedStatements(getLoc, prepared.files.Keys, calls, Mapped(file, template.statementMap[i]), count);
    }
  }

  lemma {:induction false} FunctionsAt(prepared: Prepared, getLoc: Locator, calls: seq<Call>, count: CountOf,
      file: string)
    requires SelfContained(prepared)
    requires file in prepared.files && ExactTemplate(prepared.files[file])
    requires FunctionsFit(prepared.files, getLoc, Located(getLoc, prepared.files.Keys, calls, Functions),
        prepared.functions)
    ensures var template := prepared.files[file];
      FunctionsMean(template, AddCounters(Zeros(template.functionCount), prepared.functions, file, count), getLoc,
          calls, count, file)
  {
    var template := prepared.files[file];
    NamesOwn(prepared, file, ZeroOf(template));
    FromZero(template.functionCount, prepared.functions, file, count);
    forall i | i in template.fnMap
      ensures HitSum(prepared.functions, file, i, count)
          == FunctionHits(getLoc, calls, file, template.fnMap[i].decl, count)
    {
      FunctionSum(prepared.files, getLoc, Located(getLoc, prepared.files.Keys, calls, Functions), prepared.functions,
          file, i, count);
      OnlyLocatedFunctions(getLoc, prepared.files.Keys, calls, file, template.fnMap[i].decl, count);
    }
  }

  ghost predicate BranchesMean(template: FileTemplate, b: BranchHits, getLoc: Locator, calls: seq<Call>, count: CountOf,
      file: string)
  {
    && b.Keys == template.branchMap.Keys
    && forall i :: i in b ==> ArmsMean(b[i], getLoc, calls, file, template.branchMap[i].locations, count)
  }

  ghost predicate ArmsMean(hits: seq<Tally>, getLoc: Locator, calls: seq<Call>, file: string, locations: seq<Location>,
      count: CountOf)
  {
    |hits| == |locations| && forall k :: 0 <= k < |hits| ==>
        hits[k] == Count(ArmHits(getLoc, calls, file, locations, k, count))
  }

  lemma {:induction false} BranchAt(prepared: Prepared, getLoc: Locator, calls: seq<Call>, count: CountOf, file: string,
      i: nat, hits: seq<Tally>)
    requires file in prepared.files && ExactTemplate(prepared.files[file]) && i in prepared.files[file].branchMap
    requires BranchesFit(prepared.files, getLoc, Located(getLoc, prepared.files.Keys, calls, Branches),
        prepared.branches)
    requires |hits| == |prepared.files[file].branchMap[i].locations|
    requires ArmsAreSums(hits, prepared.branches, file, i, count)
    ensures ArmsMean(hits, getLoc, calls, file, prepared.files[file].branchMap[i].locations, count)
  {
    var locations := prepared.files[file].branchMap[i].locations;
    forall k: nat | k < |hits| ensures hits[k] == Count(ArmHits(getLoc, calls, file, locations, k, count)) {
      ArmsSum(prepared.files, getLoc, Located(getLoc, prepared.files.Keys, calls, Branches), prepared.branches, file, i,
          k, count);
      OnlyLocatedBranches(getLoc, prepared.files.Keys, calls, file, locations, k, count);
    }
  }

  lemma {:induction false} BranchesAt(prepared: Prepared, getLoc: Locator, calls: seq<Call>, count: CountOf,
      file: string)
    requires SelfContained(prepared)
    requires file in prepared.files && ExactTemplate(prepared.files[file])
    requires BranchesFit(prepared.files, getLoc, Located(getLoc, prepared.files.Keys, calls, Branches),
        prepared.branches)
    ensures var template := prepared.files[file];
      BranchesMean(template, AddArms(ZeroArms(template.branchLengths), prepared.branches, file, count), getLoc, calls,
          count, file)
  {
    var template := prepared.files[file];
    NamesOwn(prepared, file, ZeroOf(template));
    var hits := AddArms(ZeroArms(template.branchLengths), prepared.branches, file, count);
    forall i | i in template.branchMap
      ensures ArmsMean(hits[i], getLoc, calls, file, template.branchMap[i].locations, count)
    {
      ArmsFromZero(template.branchLengths, prepared.branches, file, i, count);
      BranchAt(prepared, getLoc, calls, count, file, i, hits[i]);
    }
  }

  ghost predicate CountersMean(prepared: Prepared, data: CoverageData, getLoc: Locator, calls: seq<Call>,
      count: CountOf, file: string)
  {
    && file in prepared.files && file in data
    && StatementsMean(prepared.files[file], data[file].s, getLoc, calls, count, file)
    && FunctionsMean(prepared.files[file], data[file].f, getLoc, calls, count, file)
    && BranchesMean(prepared.files[file], data[file].b, getLoc, calls, count, file)
  }

  lemma {:induction false} CountersAt(prepared: Prepared, getLoc: Locator, calls: seq<Call>, count: CountOf,
      file: string)
    requires SelfContained(prepared)
    requires file in prepared.files && ExactTemplate(prepared.files[file])
    requires Describes(prepared.files, getLoc, calls, prepared.functions, prepared.statements, prepared.branches)
    ensures CountersMean(prepared, ApplyScript(map[], prepared, count), getLoc, calls, count, file)
  {
    TemplatesAt(map[], prepared);
    StatementsAt(prepared, getLoc, calls, count, file);
    FunctionsAt(prepared, getLoc, calls, count, file);
    BranchesAt(prepared, getLoc, calls, count, file);
  }

  ghost predicate AllMean(prepared: Prepared, data: CoverageData, getLoc: Locator, calls: seq<Call>, count: CountOf) {
    forall file :: file in prepared.files ==> CountersMean(prepared, data, getLoc, calls, count, file)
  }

  lemma {:induction false} AllCountersAt(prepared: Prepared, getLoc: Locator, calls: seq<Call>, count: CountOf)
    requires SelfContained(prepared) && ExactTemplates(prepared.files)
    requires Describes(prepared.files, getLoc, calls, prepared.functions, prepared.statements, prepared.branches)
    ensures AllMean(prepared, ApplyScript(map[], prepared, count), getLoc, calls, count)
  {
    forall file | file in prepared.files
      ensures CountersMean(prepared, ApplyScript(map[], prepared, count), getLoc, calls, count, file)
    {
      CountersAt(prepared, getLoc, calls, count, file);
    }
  }

  // The counts V8 reported: at every offset that of the most specific range.
  ghost function ReportedCounts(report: seq<V8Range>): CountOf {
    x => CountAt(report, x)
  }

  // Every count that shows anywhere fits the form the report is flattened by.
  ghost predicate AllFit(report: seq<V8Range>) {
    IsSmall(report) ==> forall x :: FitsAt(report, x)
  }

  lemma {:induction false} StoredAreReportedIff(report: seq<V8Range>)
    ensures (forall x :: StoredCounts(report)(x) == ReportedCounts(report)(x)) <==> AllFit(report)
  {
    forall x ensures StoredCounts(report)(x) == ReportedCounts(report)(x) <==> (IsSmall(report) ==> FitsAt(report, x)) {
      FitsAtIff(report, x);
    }
    if x :| IsSmall(report) && !FitsAt(report, x) {
      assert StoredCounts(report)(x) != ReportedCounts(report)(x);
    }
  }

  // Coverage of a file that holds what a template describes, and nothing that only merging brings.
  ghost predicate HasMapsOf(fc: FileCoverage, template: FileTemplate, path: string) {
    && fc.path == path && fc.statementMap == template.statementMap && fc.fnMap == template.fnMap
    && fc.branchMap == template.branchMap && !fc.all && fc.bT == None && fc.hash == None
  }

  // Converted coverage has its file's path and its template's maps and counters.
  lemma {:induction false} ConvertedIsBuilt(prepared: Prepared, count: CountOf, f: string)
    requires SelfContained(prepared) && f in prepared.files
    ensures f in ApplyScript(map[], prepared, count)
    ensures BuiltFrom(ApplyScript(map[], prepared, count)[f], prepared.files[f])
  {
    var zero := ZeroOf(prepared.files[f]);
    TemplatesAt(map[], prepared);
    ZeroIsBuilt(prepared.files[f]);
    NamesOwn(prepared, f, zero);
    AddFileKeepsShape(zero, f, prepared, count, prepared.files[f]);
  }

  /**
   Converting a script: every statement, function and branch arm counter is the sum, over the calls of the recursive
   traversal that stand for its location, of the count stored for the call's start; where all counts fit, that is the
   count of the most specific V8 range there. Each file's coverage has its path and exactly the entries the calls stand
   for.
   */
  method ConvertCoverage(program: Node, hints: Hints, sources: set<string>, getLoc: Locator,
      functions: seq<FunctionCoverage>)
    returns (prepared: Prepared, data: CoverageData)
    requires WellNamed(program) && AllWellFormed(Flatten(functions))
    ensures prepared.files.Keys == sources && data.Keys == sources
    ensures data == ApplyScript(map[], prepared, StoredCounts(Flatten(functions)))
    ensures AllComeFrom(prepared.files, getLoc, Traverse(program, hints, false, false))
    ensures forall f :: f in sources ==> HasMapsOf(data[f], prepared.files[f], f)
    ensures AllMean(prepared, data, getLoc, Traverse(program, hints, false, false), StoredCounts(Flatten(functions)))
    ensures AllFit(Flatten(functions)) ==>
      AllMean(prepared, data, getLoc, Traverse(program, hints, false, false), ReportedCounts(Flatten(functions)))
  {
    prepared := PrepareCoverage(program, hints, sources, getLoc);
    var ranges := Normalize(functions);
    data := ApplyCoverage(prepared, ranges);
    ghost var report, calls := Flatten(functions), Traverse(program, hints, false, false);
    SameHits(prepared, Counts(ranges), StoredCounts(report));
    AllCountersAt(prepared, getLoc, calls, StoredCounts(report));
    if AllFit(report) {
      StoredAreReportedIff(report);
      SameHits(prepared, StoredCounts(report), ReportedCounts(report));
      AllCountersAt(prepared, getLoc, calls, ReportedCounts(report));
    }
    forall f | f in sources ensures HasMapsOf(data[f], prepared.files[f], f) {
      ConvertedIsBuilt(prepared, StoredCounts(report), f);
    }
  }

  lemma {:induction false} SameHits(prepared: Prepared, a: CountOf, b: CountOf)
    requires forall x :: a(x) == b(x)
    ensures ApplyScript(map[], prepared, a) == ApplyScript(map[], prepared, b)
  {
    var zero: CountOf := _ => 0;
    AddHitsTwice(WithTemplates(map[], prepared), prepared, zero, a, a);
    AddHitsTwice(WithTemplates(map[], prepared), prepared, zero, a, b);
  }
}
