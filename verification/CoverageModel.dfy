/** Istanbul file coverage, the prepared templates, and what adding one script's hits means. */
module CoverageModel {
  import opened Wrappers

  datatype Location = Location(startLine: int, startColumn: int, endLine: int, endColumn: int)

  datatype BranchType = IfBranch | BinaryExpr | CondExpr | Switch | DefaultArg

  datatype FunctionEntry = FunctionEntry(name: string, decl: Location, loc: Location, line: int)

  datatype BranchEntry = BranchEntry(loc: Location, branchType: BranchType, locations: seq<Location>, line: int)

  // A counter; adding to one that is not there gives no number.
  datatype Tally = Count(value: int) | NotANumber

  type Counters = map<nat, Tally>

  type BranchHits = map<nat, seq<Tally>>

  datatype FileCoverage = FileCoverage(
    path: string,
    statementMap: map<nat, Location>,
    fnMap: map<nat, FunctionEntry>,
    branchMap: map<nat, BranchEntry>,
    s: Counters,
    f: Counters,
    b: BranchHits,
    all: bool,
    bT: Option<BranchHits>,
    hash: Option<string>)

  datatype FileTemplate = FileTemplate(
    path: string,
    statementMap: map<nat, Location>,
    fnMap: map<nat, FunctionEntry>,
    branchMap: map<nat, BranchEntry>,
    statementCount: nat,
    functionCount: nat,
    branchLengths: map<nat, nat>,
    branchCount: nat)

  datatype Descriptor = Descriptor(filename: string, index: nat, startOffset: int, endOffset: int)

  datatype BranchRange = BranchRange(startOffset: int, endOffset: int, implicit: bool)

  datatype BranchDescriptor = BranchDescriptor(filename: string, index: nat, ranges: seq<BranchRange>)

  datatype Prepared = Prepared(
    files: map<string, FileTemplate>,
    functions: seq<Descriptor>,
    statements: seq<Descriptor>,
    branches: seq<BranchDescriptor>)

  type CoverageData = map<string, FileCoverage>

  // ----- counters never missing -----

  ghost predicate FunctionInBounds(d: Descriptor, data: CoverageData) {
    d.filename in data && d.index in data[d.filename].f
  }

  ghost predicate StatementInBounds(d: Descriptor, data: CoverageData) {
    d.filename in data && d.index in data[d.filename].s
  }

  ghost predicate BranchInBounds(d: BranchDescriptor, data: CoverageData) {
    d.filename in data && d.index in data[d.filename].b && |d.ranges| <= |data[d.filename].b[d.index]|
  }

  // Every descriptor of the prepared script has its counters in data.
  ghost predicate InBounds(p: Prepared, data: CoverageData) {
    && (forall i :: 0 <= i < |p.functions| ==> FunctionInBounds(p.functions[i], data))
    && (forall i :: 0 <= i < |p.statements| ==> StatementInBounds(p.statements[i], data))
    && (forall i :: 0 <= i < |p.branches| ==> BranchInBounds(p.branches[i], data))
  }

  // The script names no file but its own.
  ghost predicate OwnFiles(p: Prepared) {
    && (forall i :: 0 <= i < |p.functions| ==> p.functions[i].filename in p.files)
    && (forall i :: 0 <= i < |p.statements| ==> p.statements[i].filename in p.files)
    && (forall i :: 0 <= i < |p.branches| ==> p.branches[i].filename in p.files)
  }

  // Adding to the arms of a branch that is not there throws, when there are any to add to.
  ghost predicate Throws(d: BranchDescriptor, data: CoverageData) {
    d.filename in data && d.index !in data[d.filename].b && d.ranges != []
  }

  // How many branch descriptors come before the first that throws.
  ghost function Reached(ds: seq<BranchDescriptor>, data: CoverageData): (n: nat)
    ensures n <= |ds| && (forall i :: 0 <= i < n ==> !Throws(ds[i], data)) && (n < |ds| ==> Throws(ds[n], data))
  {
    if ds == [] then 0 else
      var last := |ds| - 1;
      var n := Reached(ds[..last], data);
      if n < last || Throws(ds[last], data) then n else |ds|
  }

  // ----- the hits one script adds to one counter -----

  type CountOf = int -> int

  ghost function HitSum(ds: seq<Descriptor>, file: string, index: nat, count: CountOf): int {
    if ds == [] then 0 else
      var d := ds[|ds| - 1];
      HitSum(ds[..|ds| - 1], file, index, count)
      + if d.filename == file && d.index == index then count(d.startOffset) else 0
  }

  // An implicit arm gets what its predecessor left of the count.
  ghost function ArmHit(ranges: seq<BranchRange>, k: nat, count: CountOf): int
    requires k < |ranges|
  {
    var c := count(ranges[k].startOffset);
    if ranges[k].implicit && k > 0 then c - ArmHit(ranges, k - 1, count) else c
  }

  ghost function ArmSum(ds: seq<BranchDescriptor>, file: string, index: nat, k: nat, count: CountOf): int {
    if ds == [] then 0 else
      var d := ds[|ds| - 1];
      ArmSum(ds[..|ds| - 1], file, index, k, count)
      + if d.filename == file && d.index == index && k < |d.ranges| then ArmHit(d.ranges, k, count) else 0
  }

  function Plus(a: Tally, b: Tally): Tally {
    if a.Count? && b.Count? then Count(a.value + b.value) else NotANumber
  }

  // The counters the descriptors name in a file.
  ghost function Named(ds: seq<Descriptor>, file: string): set<nat> {
    if ds == [] then {} else
      var d := ds[|ds| - 1];
      Named(ds[..|ds| - 1], file) + if d.filename == file then {d.index} else {}
  }

  // The most arms a descriptor gives a branch.
  ghost function Widest(ds: seq<BranchDescriptor>, file: string, index: nat): nat {
    if ds == [] then 0 else
      var d, front := ds[|ds| - 1], Widest(ds[..|ds| - 1], file, index);
      if d.filename == file && d.index == index && |d.ranges| > front then |d.ranges| else front
  }

  ghost function AddCounters(counters: Counters, ds: seq<Descriptor>, file: string, count: CountOf): Counters {
    map i | i in counters.Keys + Named(ds, file) ::
      if i in counters then Plus(counters[i], Count(HitSum(ds, file, i, count))) else NotANumber
  }

  // One branch's arms with the hits added; those it lacks but a descriptor has get no number.
  ghost function ArmsPlus(hits: seq<Tally>, ds: seq<BranchDescriptor>, file: string, index: nat, count: CountOf):
    seq<Tally>
  {
    var width := Widest(ds, file, index);
    seq(if |hits| < width then width else |hits|, k requires 0 <= k =>
      if k < |hits| then Plus(hits[k], Count(ArmSum(ds, file, index, k, count))) else NotANumber)
  }

  ghost function AddArms(arms: BranchHits, ds: seq<BranchDescriptor>, file: string, count: CountOf): BranchHits {
    map i | i in arms :: ArmsPlus(arms[i], ds, file, i, count)
  }

  ghost function AddFile(fc: FileCoverage, file: string, p: Prepared, count: CountOf): FileCoverage {
    fc.(f := AddCounters(fc.f, p.functions, file, count),
        s := AddCounters(fc.s, p.statements, file, count),
        b := AddArms(fc.b, p.branches, file, count))
  }

  /** Every counter grows by the hits of the descriptors that name it; nothing else changes. */
  ghost function AddHits(data: CoverageData, p: Prepared, count: CountOf): CoverageData {
    map file | file in data :: AddFile(data[file], file, p, count)
  }

  // ----- what arms get -----

  /** An arm and the implicit one behind it share the count at the implicit one's start; any other arm has its own. */
  lemma {:induction false} ArmHitSplits(ranges: seq<BranchRange>, k: nat, count: CountOf)
    requires k < |ranges|
    ensures if k > 0 && ranges[k].implicit
      then ArmHit(ranges, k - 1, count) + ArmHit(ranges, k, count) == count(ranges[k].startOffset)
      else ArmHit(ranges, k, count) == count(ranges[k].startOffset)
  {
  }

  // The counts at the starts of arm k, over all descriptors of a branch.
  ghost function StartSum(ds: seq<BranchDescriptor>, file: string, index: nat, k: nat, count: CountOf): int {
    if ds == [] then 0 else
      var d := ds[|ds| - 1];
      StartSum(ds[..|ds| - 1], file, index, k, count)
      + if d.filename == file && d.index == index && k < |d.ranges| then count(d.ranges[k].startOffset) else 0
  }

  ghost predicate ArmIs(ds: seq<BranchDescriptor>, file: string, index: nat, k: nat, implicit: bool) {
    forall i :: 0 <= i < |ds| && ds[i].filename == file && ds[i].index == index ==>
        k < |ds[i].ranges| && ds[i].ranges[k].implicit == implicit
  }

  /** The same over all a script adds to a branch. */
  lemma {:induction false} ArmSumsSplit(ds: seq<BranchDescriptor>, file: string, index: nat, k: nat, count: CountOf)
    ensures ArmIs(ds, file, index, k, false) ==>
      ArmSum(ds, file, index, k, count) == StartSum(ds, file, index, k, count)
    ensures k > 0 && ArmIs(ds, file, index, k, true) ==>
      ArmSum(ds, file, index, k - 1, count) + ArmSum(ds, file, index, k, count) == StartSum(ds, file, index, k, count)
  {
    if ds != [] {
      var d := ds[|ds| - 1];
      ArmSumsSplit(ds[..|ds| - 1], file, index, k, count);
      if d.filename == file && d.index == index && k < |d.ranges| {
        ArmHitSplits(d.ranges, k, count);
      }
    }
  }

  // ----- linearity -----

  ghost predicate IsSum(c: CountOf, a: CountOf, b: CountOf) {
    forall x :: c(x) == a(x) + b(x)
  }

  lemma {:induction false} HitSumAdds(ds: seq<Descriptor>, file: string, index: nat, a: CountOf, b: CountOf, c: CountOf)
    requires IsSum(c, a, b)
    ensures HitSum(ds, file, index, c) == HitSum(ds, file, index, a) + HitSum(ds, file, index, b)
  {
    if ds != [] {
      HitSumAdds(ds[..|ds| - 1], file, index, a, b, c);
    }
  }

  lemma {:induction false} ArmHitAdds(ranges: seq<BranchRange>, k: nat, a: CountOf, b: CountOf, c: CountOf)
    requires IsSum(c, a, b) && k < |ranges|
    ensures ArmHit(ranges, k, c) == ArmHit(ranges, k, a) + ArmHit(ranges, k, b)
  {
    if k > 0 {
      ArmHitAdds(ranges, k - 1, a, b, c);
    }
  }

  lemma {:induction false} ArmSumAdds(ds: seq<BranchDescriptor>, file: string, index: nat, k: nat, a: CountOf,
      b: CountOf, c: CountOf)
    requires IsSum(c, a, b)
    ensures ArmSum(ds, file, index, k, c) == ArmSum(ds, file, index, k, a) + ArmSum(ds, file, index, k, b)
  {
    if ds != [] {
      ArmSumAdds(ds[..|ds| - 1], file, index, k, a, b, c);
      if k < |ds[|ds| - 1].ranges| {
        ArmHitAdds(ds[|ds| - 1].ranges, k, a, b, c);
      }
    }
  }

  /** Adding two scripts' hits one after the other is adding the hits of the summed counts. */
  lemma {:induction false} AddHitsTwice(data: CoverageData, p: Prepared, a: CountOf, b: CountOf, c: CountOf)
    requires IsSum(c, a, b)
    ensures AddHits(AddHits(data, p, a), p, b) == AddHits(data, p, c)
  {
    forall file | file in data
      ensures AddFile(AddFile(data[file], file, p, a), file, p, b) == AddFile(data[file], file, p, c)
    {
      AddFileTwice(data[file], file, p, a, b, c);
    }
  }

  lemma {:induction false} AddCountersTwice(counters: Counters, ds: seq<Descriptor>, file: string, a: CountOf,
      b: CountOf, c: CountOf)
    requires IsSum(c, a, b)
    ensures AddCounters(AddCounters(counters, ds, file, a), ds, file, b) == AddCounters(counters, ds, file, c)
  {
    forall i | i in counters
      ensures HitSum(ds, file, i, c) == HitSum(ds, file, i, a) + HitSum(ds, file, i, b)
    {
      HitSumAdds(ds, file, i, a, b, c);
    }
  }

  lemma {:induction false} ArmsPlusTwice(hits: seq<Tally>, ds: seq<BranchDescriptor>, file: string, index: nat,
      a: CountOf, b: CountOf, c: CountOf)
    requires IsSum(c, a, b)
    ensures ArmsPlus(ArmsPlus(hits, ds, file, index, a), ds, file, index, b) == ArmsPlus(hits, ds, file, index, c)
  {
    var twice := ArmsPlus(ArmsPlus(hits, ds, file, index, a), ds, file, index, b);
    var once := ArmsPlus(hits, ds, file, index, c);
    forall k | 0 <= k < |hits| ensures twice[k] == once[k] {
      ArmSumAdds(ds, file, index, k, a, b, c);
    }
    assert twice == once;
  }

  lemma {:induction false} AddArmsTwice(arms: BranchHits, ds: seq<BranchDescriptor>, file: string, a: CountOf,
      b: CountOf, c: CountOf)
    requires IsSum(c, a, b)
    ensures AddArms(AddArms(arms, ds, file, a), ds, file, b) == AddArms(arms, ds, file, c)
  {
    var twice, once := AddArms(AddArms(arms, ds, file, a), ds, file, b), AddArms(arms, ds, file, c);
    forall i | i in arms ensures twice[i] == once[i] {
      ArmsPlusTwice(arms[i], ds, file, i, a, b, c);
    }
  }

  lemma {:induction false} AddFileTwice(fc: FileCoverage, file: string, p: Prepared, a: CountOf, b: CountOf, c: CountOf)
    requires IsSum(c, a, b)
    ensures AddFile(AddFile(fc, file, p, a), file, p, b) == AddFile(fc, file, p, c)
  {
    AddCountersTwice(fc.f, p.functions, file, a, b, c);
    AddCountersTwice(fc.s, p.statements, file, a, b, c);
    AddArmsTwice(fc.b, p.branches, file, a, b, c);
  }

  // ----- fresh coverage and whole scripts -----

  ghost function Zeros(n: nat): (zeros: Counters)
    ensures forall i: nat :: i in zeros <==> i < n
    ensures forall i: nat :: i in zeros ==> zeros[i] == Count(0)
  {
    if n == 0 then map[] else Zeros(n - 1)[n - 1 := Count(0)]
  }

  ghost function ZeroArms(lengths: map<nat, nat>): BranchHits {
    map i | i in lengths :: seq(lengths[i], _ => Count(0))
  }

  // A template with every counter at zero.
  ghost function ZeroOf(template: FileTemplate): FileCoverage {
    FileCoverage(template.path, template.statementMap, template.fnMap, template.branchMap,
                 Zeros(template.statementCount), Zeros(template.functionCount), ZeroArms(template.branchLengths),
                 false, None, None)
  }

  lemma {:induction false} SameMap<K, V>(a: map<K, V>, b: map<K, V>)
    requires forall k :: k in a <==> k in b
    requires forall k :: k in a ==> a[k] == b[k]
    ensures a == b
  {
  }

  ghost function WithTemplates(data: CoverageData, p: Prepared): CoverageData {
    map file | file in data.Keys + p.files.Keys :: if file in data then data[file] else ZeroOf(p.files[file])
  }

  lemma {:induction false} TemplatesAt(data: CoverageData, p: Prepared)
    ensures WithTemplates(data, p).Keys == data.Keys + p.files.Keys
    ensures forall file :: file in data ==> WithTemplates(data, p)[file] == data[file]
    ensures forall file :: file in p.files && file !in data ==> WithTemplates(data, p)[file] == ZeroOf(p.files[file])
  {
  }

  // The prepared script's own templates hold every counter its descriptors name.
  ghost predicate SelfContained(p: Prepared) {
    InBounds(p, WithTemplates(map[], p))
  }

  // Coverage built from the template: same maps, same counters, any counts.
  ghost predicate BuiltFrom(fc: FileCoverage, template: FileTemplate) {
    var zero := ZeroOf(template);
    && fc == zero.(s := fc.s, f := fc.f, b := fc.b)
    && fc.s.Keys == zero.s.Keys
    && fc.f.Keys == zero.f.Keys
    && fc.b.Keys == zero.b.Keys
    && forall i :: i in fc.b ==> |fc.b[i]| == |zero.b[i]|
  }

  ghost predicate Compatible(data: CoverageData, p: Prepared) {
    forall file :: file in data && file in p.files ==> BuiltFrom(data[file], p.files[file])
  }

  /** The effect of one script on the coverage map. */
  ghost function ApplyScript(data: CoverageData, p: Prepared, count: CountOf): CoverageData {
    AddHits(WithTemplates(data, p), p, count)
  }

  // Whatever compatible coverage exists, no descriptor misses its counter.
  lemma {:induction false} NeverMissing(data: CoverageData, p: Prepared)
    requires SelfContained(p) && Compatible(data, p)
    ensures InBounds(p, WithTemplates(data, p))
  {
    var own := WithTemplates(map[], p);
    forall i | 0 <= i < |p.functions| ensures FunctionInBounds(p.functions[i], WithTemplates(data, p)) {
      assert FunctionInBounds(p.functions[i], own);
    }
    forall i | 0 <= i < |p.statements| ensures StatementInBounds(p.statements[i], WithTemplates(data, p)) {
      assert StatementInBounds(p.statements[i], own);
    }
    forall i | 0 <= i < |p.branches| ensures BranchInBounds(p.branches[i], WithTemplates(data, p)) {
      assert BranchInBounds(p.branches[i], own);
    }
  }

  // Every counter the script names in the file is there.
  ghost predicate NamesOnly(p: Prepared, file: string, fc: FileCoverage) {
    && Named(p.functions, file) <= fc.f.Keys && Named(p.statements, file) <= fc.s.Keys
    && forall i :: i in fc.b ==> Widest(p.branches, file, i) <= |fc.b[i]|
  }

  lemma {:induction false} NamedAre(ds: seq<Descriptor>, file: string, keys: set<nat>)
    requires forall i :: 0 <= i < |ds| && ds[i].filename == file ==> ds[i].index in keys
    ensures Named(ds, file) <= keys
  {
    if ds != [] {
      NamedAre(ds[..|ds| - 1], file, keys);
    }
  }

  lemma {:induction false} WidestIs(ds: seq<BranchDescriptor>, file: string, index: nat, width: nat)
    requires forall i :: 0 <= i < |ds| && ds[i].filename == file && ds[i].index == index ==> |ds[i].ranges| <= width
    ensures Widest(ds, file, index) <= width
  {
    if ds != [] {
      WidestIs(ds[..|ds| - 1], file, index, width);
    }
  }

  // A script names in a file only what its template of the file has, and nothing in a file it has no template of.
  lemma {:induction false} NamesOwn(p: Prepared, file: string, fc: FileCoverage)
    requires SelfContained(p) && (file in p.files ==> BuiltFrom(fc, p.files[file]))
    ensures NamesOnly(p, file, fc)
  {
    var own := WithTemplates(map[], p);
    forall i | 0 <= i < |p.functions| && p.functions[i].filename == file ensures p.functions[i].index in fc.f.Keys {
      assert FunctionInBounds(p.functions[i], own);
    }
    NamedAre(p.functions, file, fc.f.Keys);
    forall i | 0 <= i < |p.statements| && p.statements[i].filename == file ensures p.statements[i].index in fc.s.Keys {
      assert StatementInBounds(p.statements[i], own);
    }
    NamedAre(p.statements, file, fc.s.Keys);
    forall index | index in fc.b ensures Widest(p.branches, file, index) <= |fc.b[index]| {
      forall i | 0 <= i < |p.branches| && p.branches[i].filename == file && p.branches[i].index == index
        ensures |p.branches[i].ranges| <= |fc.b[index]|
      {
        assert BranchInBounds(p.branches[i], own);
      }
      WidestIs(p.branches, file, index, |fc.b[index]|);
    }
  }

  lemma {:induction false} AddFileKeepsShape(fc: FileCoverage, file: string, p: Prepared, count: CountOf,
      template: FileTemplate)
    requires BuiltFrom(fc, template) && NamesOnly(p, file, fc)
    ensures BuiltFrom(AddFile(fc, file, p, count), template)
  {
    assert fc.f.Keys + Named(p.functions, file) == fc.f.Keys && fc.s.Keys + Named(p.statements, file) == fc.s.Keys;
  }

  // Same templates where both scripts have one.
  ghost predicate ShareTemplates(p: Prepared, q: Prepared) {
    forall file :: file in p.files && file in q.files ==> p.files[file] == q.files[file]
  }

  lemma {:induction false} KeepsShapeAt(fc: FileCoverage, file: string, p: Prepared, count: CountOf, q: Prepared)
    requires SelfContained(p) && ShareTemplates(p, q) && file in q.files && BuiltFrom(fc, q.files[file])
    ensures BuiltFrom(AddFile(fc, file, p, count), q.files[file])
  {
    NamesOwn(p, file, fc);
    AddFileKeepsShape(fc, file, p, count, q.files[file]);
  }

  lemma {:induction false} ZeroIsBuilt(template: FileTemplate)
    ensures BuiltFrom(ZeroOf(template), template)
  {
  }

  lemma {:induction false} StartIsBuilt(data: CoverageData, p: Prepared, q: Prepared, file: string)
    requires Compatible(data, q) && ShareTemplates(p, q) && file in q.files && (file in data || file in p.files)
    ensures file in WithTemplates(data, p) && BuiltFrom(WithTemplates(data, p)[file], q.files[file])
  {
    TemplatesAt(data, p);
    if file !in data {
      ZeroIsBuilt(p.files[file]);
    }
  }

  lemma {:induction false} ScriptKeepsShape(data: CoverageData, p: Prepared, count: CountOf, q: Prepared)
    requires SelfContained(p) && Compatible(data, q) && ShareTemplates(p, q)
    ensures Compatible(ApplyScript(data, p, count), q)
  {
    var start := WithTemplates(data, p);
    forall file | file in start && file in q.files
      ensures BuiltFrom(ApplyScript(data, p, count)[file], q.files[file])
    {
      StartIsBuilt(data, p, q, file);
      KeepsShapeAt(start[file], file, p, count, q);
    }
  }
}
