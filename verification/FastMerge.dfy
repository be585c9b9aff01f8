/** The fast merge of file coverage: when it applies, and what it leaves. */
module FastMerge {
  import opened Wrappers
  import opened CoverageModel
  import opened CoverageRuns
  import opened CoverageApply
  import Order = ScriptOrder

  // ----- the shape comparison -----

  predicate HasSameKeys<T>(a: map<nat, T>, b: map<nat, T>) {
    |a.Keys| == |b.Keys| && forall key :: key in a ==> key in b
  }

  lemma {:induction false} SubsetOfSameSize(a: set<nat>, b: set<nat>)
    requires a <= b && |a| == |b|
    ensures a == b
  {
    assert b == a + (b - a);
    assert |b| == |a| + |b - a|;
  }

  /** Counting keys and testing one inclusion compares the key sets. */
  lemma {:induction false} SameKeysIff<T>(a: map<nat, T>, b: map<nat, T>)
    ensures HasSameKeys(a, b) <==> a.Keys == b.Keys
  {
    if HasSameKeys(a, b) {
      SubsetOfSameSize(a.Keys, b.Keys);
    }
  }

  predicate HasSameBranchHitShape(a: BranchHits, b: BranchHits) {
    HasSameKeys(a, b) && forall key :: key in a ==> |a[key]| == |b[key]|
  }

  predicate HasSameOptionalBranchHitShape(a: Option<BranchHits>, b: Option<BranchHits>) {
    if a.None? && b.None? then true
    else if a.None? || b.None? then false
    else HasSameBranchHitShape(a.value, b.value)
  }

  predicate IsSameRange(a: Location, b: Location) {
    a.startLine == b.startLine && a.startColumn == b.startColumn && a.endLine == b.endLine && a.endColumn == b.endColumn
  }

  predicate HasSameStatementMap(a: map<nat, Location>, b: map<nat, Location>) {
    HasSameKeys(a, b) && forall key :: key in a ==> IsSameRange(a[key], b[key])
  }

  predicate HasSameFunctionMap(a: map<nat, FunctionEntry>, b: map<nat, FunctionEntry>) {
    HasSameKeys(a, b) && forall key :: key in a ==>
      a[key].name == b[key].name && a[key].line == b[key].line && IsSameRange(a[key].decl, b[key].decl)
          && IsSameRange(a[key].loc, b[key].loc)
  }

  predicate HasSameBranchMap(a: map<nat, BranchEntry>, b: map<nat, BranchEntry>) {
    HasSameKeys(a, b) && forall key :: key in a ==>
      && a[key].branchType == b[key].branchType
      && a[key].line == b[key].line
      && IsSameRange(a[key].loc, b[key].loc)
      && |a[key].locations| == |b[key].locations|
      && forall i :: 0 <= i < |a[key].locations| ==> IsSameRange(a[key].locations[i], b[key].locations[i])
  }

  // A missing hash and an empty one are both falsy.
  predicate IsTruthy(hash: Option<string>) {
    hash.Some? && hash.value != ""
  }

  predicate CanFastMergeCoverage(existing: FileCoverage, incoming: FileCoverage) {
    if incoming.all then true
    else if existing.all then false
    else if !HasSameOptionalBranchHitShape(existing.bT, incoming.bT) then false
    else if IsTruthy(existing.hash) && IsTruthy(incoming.hash) then existing.hash == incoming.hash
    else if !HasSameKeys(existing.s, incoming.s) || !HasSameKeys(existing.f, incoming.f)
        || !HasSameBranchHitShape(existing.b, incoming.b) then false
    else
      && HasSameStatementMap(existing.statementMap, incoming.statementMap)
      && HasSameFunctionMap(existing.fnMap, incoming.fnMap)
      && HasSameBranchMap(existing.branchMap, incoming.branchMap)
  }

  // The two carry the same counters.
  ghost predicate SameCounters(a: FileCoverage, b: FileCoverage) {
    && a.s.Keys == b.s.Keys
    && a.f.Keys == b.f.Keys
    && SameArms(a.b, b.b)
  }

  ghost predicate SameArms(a: BranchHits, b: BranchHits) {
    a.Keys == b.Keys && forall key :: key in a ==> |a[key]| == |b[key]|
  }

  lemma {:induction false} SameMapsIff(a: FileCoverage, b: FileCoverage)
    ensures HasSameStatementMap(a.statementMap, b.statementMap) <==> a.statementMap == b.statementMap
    ensures HasSameFunctionMap(a.fnMap, b.fnMap) <==> a.fnMap == b.fnMap
    ensures HasSameBranchMap(a.branchMap, b.branchMap) <==> a.branchMap == b.branchMap
  {
    SameKeysIff(a.statementMap, b.statementMap);
    SameKeysIff(a.fnMap, b.fnMap);
    SameKeysIff(a.branchMap, b.branchMap);
    if HasSameBranchMap(a.branchMap, b.branchMap) {
      forall key | key in a.branchMap ensures a.branchMap[key] == b.branchMap[key] {
        assert a.branchMap[key].locations == b.branchMap[key].locations;
      }
    }
  }

  // The optional counters that go with `b`, shaped alike or missing alike.
  ghost predicate SameOptionalArms(a: Option<BranchHits>, b: Option<BranchHits>) {
    a.Some? == b.Some? && (a.Some? ==> SameArms(a.value, b.value))
  }

  ghost predicate SameMaps(a: FileCoverage, b: FileCoverage) {
    a.statementMap == b.statementMap && a.fnMap == b.fnMap && a.branchMap == b.branchMap
  }

  ghost predicate Hashed(a: Option<string>, b: Option<string>) {
    IsTruthy(a) && IsTruthy(b)
  }

  /**
   What the test accepts: incoming `all` coverage always and otherwise never existing `all` coverage; beyond that, two
   hashes decide alone by being equal, and without two the maps and counters must be the same.
   */
  lemma {:induction false} AcceptsIff(existing: FileCoverage, incoming: FileCoverage)
    ensures CanFastMergeCoverage(existing, incoming) <==>
      || incoming.all
      || (&& !existing.all
          && SameOptionalArms(existing.bT, incoming.bT)
          && if Hashed(existing.hash, incoming.hash) then existing.hash == incoming.hash
             else SameMaps(existing, incoming) && SameCounters(existing, incoming))
  {
    SameKeysIff(existing.s, incoming.s);
    SameKeysIff(existing.f, incoming.f);
    SameKeysIff(existing.b, incoming.b);
    if existing.bT.Some? && incoming.bT.Some? {
      SameKeysIff(existing.bT.value, incoming.bT.value);
    }
    SameMapsIff(existing, incoming);
  }

  ghost predicate AcceptedUnequal(existing: FileCoverage, incoming: FileCoverage) {
    CanFastMergeCoverage(existing, incoming) && !incoming.all && !SameCounters(existing, incoming)
  }

  /**
   Acceptance guarantees the same counters for all coverage of two hashes exactly when these are not equal and truthy.
   */
  lemma {:induction false} AcceptanceIsSafeIff(existingHash: Option<string>, incomingHash: Option<string>)
    ensures (forall existing: FileCoverage, incoming: FileCoverage ::
               existing.hash == existingHash && incoming.hash == incomingHash ==> !AcceptedUnequal(existing, incoming))
       <==> !(IsTruthy(existingHash) && existingHash == incomingHash)
  {
    if IsTruthy(existingHash) && existingHash == incomingHash {
      var existing, incoming := HashHidesShape(existingHash);
      assert AcceptedUnequal(existing, incoming);
    } else {
      forall existing: FileCoverage, incoming: FileCoverage |
        existing.hash == existingHash && incoming.hash == incomingHash
        ensures !AcceptedUnequal(existing, incoming)
      {
        AcceptsIff(existing, incoming);
      }
    }
  }

  // Every counter stands for an entry of its map, and every arm for a location.
  ghost predicate WellCounted(fc: FileCoverage) {
    && fc.s.Keys == fc.statementMap.Keys && fc.f.Keys == fc.fnMap.Keys && fc.b.Keys == fc.branchMap.Keys
    && forall key :: key in fc.b ==> |fc.b[key]| == |fc.branchMap[key].locations|
  }

  /** Two equal hashes are believed: a file with one statement is taken for the same file without it. */
  lemma {:induction false} HashHidesShape(hash: Option<string>) returns (existing: FileCoverage, incoming: FileCoverage)
    requires IsTruthy(hash)
    ensures existing.hash == hash == incoming.hash && WellCounted(existing) && WellCounted(incoming)
    ensures CanFastMergeCoverage(existing, incoming) && !incoming.all
    ensures !SameCounters(existing, incoming) && !NothingMissing(existing, incoming)
  {
    existing := FileCoverage("a", map[], map[], map[], map[], map[], map[], false, None, hash);
    incoming := existing.(statementMap := map[0 := Location(1, 0, 1, 5)], s := map[0 := Count(1)]);
    assert 0 in incoming.s.Keys && 0 !in existing.s.Keys;
  }

  // ----- the merge -----

  ghost function AddTallies(target: Counters, source: Counters): Counters {
    map key | key in target.Keys + source.Keys ::
      if key in target then Plus(target[key], if key in source then source[key] else Count(0)) else NotANumber
  }

  ghost function TallyArms(target: seq<Tally>, source: seq<Tally>): seq<Tally> {
    seq(Larger(|target|, |source|), i requires 0 <= i =>
      if i < |target| then Plus(target[i], if i < |source| then source[i] else Count(0)) else NotANumber)
  }

  // The source's branches below a key added.
  ghost function AddArmsBelow(target: BranchHits, source: BranchHits, limit: nat): BranchHits {
    map key | key in target :: if key in source && key < limit then TallyArms(target[key], source[key]) else target[key]
  }

  ghost function AddArmTallies(target: BranchHits, source: BranchHits): BranchHits {
    map key | key in target :: if key in source then TallyArms(target[key], source[key]) else target[key]
  }

  // A branch the target lacks has no arms to add to.
  ghost predicate IsMissing(target: BranchHits, source: BranchHits, key: nat) {
    key in source && key !in target && source[key] != []
  }

  ghost predicate MissesBranch(target: BranchHits, source: BranchHits) {
    exists key :: IsMissing(target, source, key)
  }

  ghost predicate IsFirstMissing(target: BranchHits, source: BranchHits, key: nat) {
    IsMissing(target, source, key) && forall other :: IsMissing(target, source, other) ==> key <= other
  }

  ghost function FirstMissing(target: BranchHits, source: BranchHits): (key: nat)
    requires MissesBranch(target, source)
    ensures IsFirstMissing(target, source, key)
  {
    var some :| IsMissing(target, source, some);
    FirstMissingFrom(target, source, some)
  }

  ghost function FirstMissingFrom(target: BranchHits, source: BranchHits, key: nat): (first: nat)
    requires IsMissing(target, source, key)
    ensures IsFirstMissing(target, source, first)
    decreases key
  {
    if other: nat :| other < key && IsMissing(target, source, other) then FirstMissingFrom(target, source, other)
        else key
  }

  method MergeNumberHits(target: Counters, source: Counters) returns (merged: Counters)
    ensures merged == AddTallies(target, source)
  {
    merged := target;
    var pending := source.Keys;
    while pending != {}
      invariant pending <= source.Keys && merged.Keys == target.Keys + (source.Keys - pending)
      invariant forall key :: key in target && key in pending ==> merged[key] == target[key]
      invariant forall key :: key in merged && key !in pending ==> merged[key] == AddTallies(target, source)[key]
    {
      var key :| key in pending;
      merged := merged[key := if key in merged then Plus(merged[key], source[key]) else NotANumber];
      pending := pending - {key};
    }
    SameMap(merged, AddTallies(target, source));
  }

  method MergeArms(target: seq<Tally>, source: seq<Tally>) returns (merged: seq<Tally>)
    ensures merged == TallyArms(target, source)
  {
    merged := target;
    var index := 0;
    while index < |source|
      invariant index <= |source| && merged == TallyArms(target, source[..index])
    {
      if index < |merged| {
        merged := merged[index := Plus(merged[index], source[index])];
      } else {
        merged := merged + [NotANumber];
      }
      index := index + 1;
    }
    assert source[..|source|] == source;
  }

  // Numeric keys are enumerated in ascending order.
  method Least(keys: set<nat>) returns (least: nat)
    requires keys != {}
    ensures least in keys && forall key :: key in keys ==> least <= key
  {
    least :| least in keys;
    var rest := keys - {least};
    while rest != {}
      invariant rest <= keys && least in keys
      invariant forall key :: key in keys && key !in rest ==> least <= key
    {
      var key :| key in rest;
      least := if key < least then key else least;
      rest := rest - {key};
    }
  }

  // The source's branches but the pending ones, which come after all others, are added.
  ghost predicate ArmsMergedBut(target: BranchHits, source: BranchHits, pending: set<nat>, merged: BranchHits) {
    && pending <= source.Keys && merged.Keys == target.Keys
    && (forall done, key :: done in source && done !in pending && key in pending ==> done < key)
    && (forall key :: key in source && key !in pending ==> !IsMissing(target, source, key))
    && (forall key :: key in target ==>
          merged[key] ==
            if key in source && key !in pending then TallyArms(target[key], source[key]) else target[key])
  }

  lemma {:induction false} ThrowsHere(target: BranchHits, source: BranchHits, pending: set<nat>, merged: BranchHits,
      key: nat)
    requires ArmsMergedBut(target, source, pending, merged)
    requires key in pending && (forall other :: other in pending ==> key <= other) && IsMissing(target, source, key)
    ensures MissesBranch(target, source) && merged == AddArmsBelow(target, source, FirstMissing(target, source))
  {
    var first := FirstMissing(target, source);
    assert first == key;
    forall other | other in target && other in source ensures other < key <==> other !in pending {
    }
    SameMap(merged, AddArmsBelow(target, source, key));
  }

  /**
   Branches are added in the order of their keys. At the first one that the target lacks and the source has arms of, it
   throws, with those before it added.
   */
  method MergeBranchHits(target: BranchHits, source: BranchHits) returns (thrown: bool, merged: BranchHits)
    ensures thrown <==> MissesBranch(target, source)
    ensures merged == if MissesBranch(target, source) then AddArmsBelow(target, source, FirstMissing(target, source))
      else AddArmTallies(target, source)
  {
    thrown := false;
    merged := target;
    var pending := source.Keys;
    while pending != {}
      invariant ArmsMergedBut(target, source, pending, merged)
    {
      var key := Least(pending);
      if key in target {
        var arms := MergeArms(merged[key], source[key]);
        merged := merged[key := arms];
      } else if source[key] != [] {
        ThrowsHere(target, source, pending, merged, key);
        return true, merged;
      }
      pending := pending - {key};
    }
    SameMap(merged, AddArmTallies(target, source));
  }

  // What a fast merge comes to, and the existing coverage as it leaves it.
  datatype Outcome = Refused | Ignored | Thrown(left: FileCoverage) | Added(left: FileCoverage)

  ghost function MergeOutcome(existing: FileCoverage, incoming: FileCoverage): Outcome {
    if !CanFastMergeCoverage(existing, incoming) then Refused
    else if incoming.all then Ignored
    else
      var counted := existing.(s := AddTallies(existing.s, incoming.s), f := AddTallies(existing.f, incoming.f));
      if MissesBranch(existing.b, incoming.b)
      then Thrown(counted.(b := AddArmsBelow(existing.b, incoming.b, FirstMissing(existing.b, incoming.b))))
      else Added(counted.(b := AddArmTallies(existing.b, incoming.b), bT := AddTypes(existing.bT, incoming.bT)))
  }

  ghost function AddTypes(existing: Option<BranchHits>, incoming: Option<BranchHits>): Option<BranchHits> {
    if existing.Some? && incoming.Some? then Some(AddArmTallies(existing.value, incoming.value)) else existing
  }

  method FastMergeFileCoverage(existing: FileCoverage, incoming: FileCoverage) returns (outcome: Outcome)
    ensures outcome == MergeOutcome(existing, incoming)
  {
    if !CanFastMergeCoverage(existing, incoming) {
      return Refused;
    }
    if incoming.all {
      return Ignored;
    }
    AcceptsIff(existing, incoming);
    var s := MergeNumberHits(existing.s, incoming.s);
    var f := MergeNumberHits(existing.f, incoming.f);
    var thrown, b := MergeBranchHits(existing.b, incoming.b);
    if thrown {
      return Thrown(existing.(s := s, f := f, b := b));
    }
    var bT := existing.bT;
    if existing.bT.Some? && incoming.bT.Some? {
      var _, types := MergeBranchHits(existing.bT.value, incoming.bT.value);
      bT := Some(types);
    }
    outcome := Added(existing.(s := s, f := f, b := b, bT := bT));
  }

  // ----- when a merge is right -----

  // No incoming counter and no incoming arm is without its counterpart.
  ghost predicate NothingMissing(existing: FileCoverage, incoming: FileCoverage) {
    incoming.s.Keys <= existing.s.Keys && incoming.f.Keys <= existing.f.Keys && NoArmMissing(existing.b, incoming.b)
  }

  ghost predicate NoArmMissing(target: BranchHits, source: BranchHits) {
    forall key :: key in source && source[key] != [] ==> key in target && |source[key]| <= |target[key]|
  }

  ghost function AddNumbers(target: Counters, source: Counters): Counters {
    map key | key in target :: Plus(target[key], if key in source then source[key] else Count(0))
  }

  ghost function AddArmHitsOf(target: BranchHits, source: BranchHits): BranchHits {
    map key | key in target :: seq(|target[key]|, i requires 0 <= i < |target[key]| =>
      Plus(target[key][i], if key in source && i < |source[key]| then source[key][i] else Count(0)))
  }

  // The existing coverage with the incoming counts added to its own counters, and no others.
  ghost function Merged(existing: FileCoverage, incoming: FileCoverage): FileCoverage {
    existing.(
      s := AddNumbers(existing.s, incoming.s),
      f := AddNumbers(existing.f, incoming.f),
      b := AddArmHitsOf(existing.b, incoming.b),
      bT := if existing.bT.Some? && incoming.bT.Some? then Some(AddArmHitsOf(existing.bT.value, incoming.bT.value))
            else existing.bT)
  }

  lemma {:induction false} NumbersSumIff(target: Counters, source: Counters)
    ensures AddTallies(target, source) == AddNumbers(target, source) <==> source.Keys <= target.Keys
  {
    if source.Keys <= target.Keys {
      SameMap(AddTallies(target, source), AddNumbers(target, source));
    } else {
      var key :| key in source && key !in target;
      assert key in AddTallies(target, source) && key !in AddNumbers(target, source);
    }
  }

  lemma {:induction false} ArmsSum(target: BranchHits, source: BranchHits)
    requires NoArmMissing(target, source)
    ensures !MissesBranch(target, source) && AddArmTallies(target, source) == AddArmHitsOf(target, source)
  {
    var tallies, sums := AddArmTallies(target, source), AddArmHitsOf(target, source);
    forall key | key in target ensures tallies[key] == sums[key] {
      assert |tallies[key]| == |sums[key]| == |target[key]|;
    }
    SameMap(tallies, sums);
  }

  lemma {:induction false} ArmsSumOnly(target: BranchHits, source: BranchHits)
    requires !MissesBranch(target, source) && AddArmTallies(target, source) == AddArmHitsOf(target, source)
    ensures NoArmMissing(target, source)
  {
    forall key | key in source && source[key] != [] ensures key in target && |source[key]| <= |target[key]| {
      assert !IsMissing(target, source, key);
      assert |AddArmTallies(target, source)[key]| == |AddArmHitsOf(target, source)[key]| == |target[key]|;
    }
  }

  lemma {:induction false} ArmsSumIff(target: BranchHits, source: BranchHits)
    ensures !MissesBranch(target, source) && AddArmTallies(target, source) == AddArmHitsOf(target, source)
       <==> NoArmMissing(target, source)
  {
    if NoArmMissing(target, source) {
      ArmsSum(target, source);
    } else if !MissesBranch(target, source) {
      if AddArmTallies(target, source) == AddArmHitsOf(target, source) {
        ArmsSumOnly(target, source);
      }
    }
  }

  /** An accepted merge leaves the sums exactly when no incoming counter or arm is missing in the existing coverage. */
  lemma {:induction false} MergeIsRightIff(existing: FileCoverage, incoming: FileCoverage)
    requires CanFastMergeCoverage(existing, incoming) && !incoming.all
    ensures MergeOutcome(existing, incoming) == Added(Merged(existing, incoming))
        <==> NothingMissing(existing, incoming)
  {
    AcceptsIff(existing, incoming);
    NumbersSumIff(existing.s, incoming.s);
    NumbersSumIff(existing.f, incoming.f);
    ArmsSumIff(existing.b, incoming.b);
    if existing.bT.Some? {
      ArmsSumIff(existing.bT.value, incoming.bT.value);
    }
  }

  /** Without two equal truthy hashes an accepted merge is always right. */
  lemma {:induction false} UnhashedMergeIsRight(existing: FileCoverage, incoming: FileCoverage)
    requires CanFastMergeCoverage(existing, incoming) && !incoming.all && !Hashed(existing.hash, incoming.hash)
    ensures NothingMissing(existing, incoming) && MergeOutcome(existing, incoming) == Added(Merged(existing, incoming))
  {
    AcceptsIff(existing, incoming);
    MergeIsRightIff(existing, incoming);
  }

  // ----- direct application equals conversion and merge -----

  lemma {:induction false} FreshCounters(target: Counters, n: nat, ds: seq<Descriptor>, file: string, count: CountOf)
    requires target.Keys == Zeros(n).Keys && Named(ds, file) <= Zeros(n).Keys
    ensures AddNumbers(target, AddCounters(Zeros(n), ds, file, count)) == AddCounters(target, ds, file, count)
  {
    SameMap(AddNumbers(target, AddCounters(Zeros(n), ds, file, count)), AddCounters(target, ds, file, count));
  }

  lemma {:induction false} FreshBranch(hits: seq<Tally>, ds: seq<BranchDescriptor>, file: string, i: nat,
      count: CountOf)
    requires Widest(ds, file, i) <= |hits|
    ensures var own := ArmsPlus(seq(|hits|, _ => Count(0)), ds, file, i, count);
      |own| == |hits|
      && ArmsPlus(hits, ds, file, i, count) == seq(|hits|, k requires 0 <= k < |hits| => Plus(hits[k], own[k]))
  {
  }

  lemma {:induction false} FreshArms(target: BranchHits, lengths: map<nat, nat>, ds: seq<BranchDescriptor>,
      file: string, count: CountOf)
    requires target.Keys == lengths.Keys
    requires forall i :: i in target ==> |target[i]| == lengths[i] && Widest(ds, file, i) <= lengths[i]
    ensures AddArmHitsOf(target, AddArms(ZeroArms(lengths), ds, file, count)) == AddArms(target, ds, file, count)
  {
    var own := AddArms(ZeroArms(lengths), ds, file, count);
    forall i | i in target ensures AddArmHitsOf(target, own)[i] == AddArms(target, ds, file, count)[i] {
      FreshBranch(target[i], ds, file, i, count);
      assert ZeroArms(lengths)[i] == seq(|target[i]|, _ => Count(0));
    }
    SameMap(AddArmHitsOf(target, own), AddArms(target, ds, file, count));
  }

  // A script's coverage of its own for one of its files.
  ghost function OwnCoverage(p: Prepared, file: string, count: CountOf): FileCoverage
    requires file in p.files
  {
    AddFile(ZeroOf(p.files[file]), file, p, count)
  }

  // The template's counters are all there, and no branch type is counted apart.
  ghost predicate CountsTemplate(fc: FileCoverage, template: FileTemplate) {
    && fc.s.Keys == Zeros(template.statementCount).Keys
    && fc.f.Keys == Zeros(template.functionCount).Keys
    && fc.b.Keys == template.branchLengths.Keys && (forall i :: i in fc.b ==> |fc.b[i]| == template.branchLengths[i])
    && fc.bT.None?
  }

  lemma {:induction false} OwnCountsTemplate(p: Prepared, file: string, count: CountOf)
    requires SelfContained(p) && file in p.files
    ensures var own := OwnCoverage(p, file, count);
      CountsTemplate(own, p.files[file]) && own.hash.None? && !own.all && BuiltFrom(own, p.files[file])
  {
    NamesOwn(p, file, ZeroOf(p.files[file]));
    AddFileKeepsShape(ZeroOf(p.files[file]), file, p, count, p.files[file]);
  }

  lemma {:induction false} AcceptedCountsTemplate(existing: FileCoverage, p: Prepared, file: string, count: CountOf)
    requires SelfContained(p) && file in p.files && CanFastMergeCoverage(existing, OwnCoverage(p, file, count))
    ensures CountsTemplate(existing, p.files[file])
  {
    OwnCountsTemplate(p, file, count);
    AcceptsIff(existing, OwnCoverage(p, file, count));
  }

  lemma {:induction false} MergedIsAdded(existing: FileCoverage, p: Prepared, file: string, count: CountOf)
    requires SelfContained(p) && file in p.files && CountsTemplate(existing, p.files[file])
    ensures Merged(existing, OwnCoverage(p, file, count)) == AddFile(existing, file, p, count)
  {
    var template := p.files[file];
    NamesOwn(p, file, ZeroOf(template));
    FreshCounters(existing.s, template.statementCount, p.statements, file, count);
    FreshCounters(existing.f, template.functionCount, p.functions, file, count);
    FreshArms(existing.b, template.branchLengths, p.branches, file, count);
  }

  /** Whenever freshly converted coverage is accepted, merging it is right and equals adding the hits in place. */
  lemma {:induction false} MergeEqualsAdd(existing: FileCoverage, p: Prepared, file: string, count: CountOf)
    requires SelfContained(p) && file in p.files && CanFastMergeCoverage(existing, OwnCoverage(p, file, count))
    ensures NothingMissing(existing, OwnCoverage(p, file, count))
    ensures MergeOutcome(existing, OwnCoverage(p, file, count)) == Added(AddFile(existing, file, p, count))
  {
    OwnCountsTemplate(p, file, count);
    UnhashedMergeIsRight(existing, OwnCoverage(p, file, count));
    AcceptedCountsTemplate(existing, p, file, count);
    MergedIsAdded(existing, p, file, count);
  }

  /** Coverage built from the script's template accepts it, and keeps its shape. */
  lemma {:induction false} BuiltIsAccepted(existing: FileCoverage, p: Prepared, file: string, count: CountOf)
    requires SelfContained(p) && file in p.files && BuiltFrom(existing, p.files[file])
    ensures CanFastMergeCoverage(existing, OwnCoverage(p, file, count))
    ensures BuiltFrom(Merged(existing, OwnCoverage(p, file, count)), p.files[file])
  {
    OwnCountsTemplate(p, file, count);
    AcceptsIff(existing, OwnCoverage(p, file, count));
    MergedIsAdded(existing, p, file, count);
    NamesOwn(p, file, existing);
    AddFileKeepsShape(existing, file, p, count, p.files[file]);
  }

  // ----- the coverage map -----

  type SlowMerge = (FileCoverage, FileCoverage) -> FileCoverage

  // Adding coverage of a file that is there: the fast merge where it is accepted, else the slow one.
  ghost function AddedTo(existing: FileCoverage, incoming: FileCoverage, slow: SlowMerge): FileCoverage {
    match MergeOutcome(existing, incoming)
    case Refused => slow(existing, incoming)
    case Ignored => existing
    case Thrown(left) => left
    case Added(left) => left
  }

  ghost predicate ThrowsOn(data: CoverageData, file: string, coverage: FileCoverage) {
    file in data && MergeOutcome(data[file], coverage).Thrown?
  }

  // Merging whole maps; the first merge ever goes the slow way for every file.
  ghost function MergedMaps(data: CoverageData, own: CoverageData, slow: SlowMerge, fast: bool): CoverageData {
    map file | file in data.Keys + own.Keys ::
      if file !in data then own[file]
      else if file !in own then data[file]
      else MergedFile(data[file], own[file], slow, fast)
  }

  ghost function MergedFile(existing: FileCoverage, incoming: FileCoverage, slow: SlowMerge, fast: bool): FileCoverage {
    if fast then AddedTo(existing, incoming, slow) else slow(existing, incoming)
  }

  // Every file but the pending ones is merged; those are as before.
  ghost predicate MergedBut(before: CoverageData, target: CoverageData, pending: set<string>, data: CoverageData) {
    && data.Keys == target.Keys - (pending - before.Keys)
    && forall file :: file in data ==>
         if file in pending then file in before && data[file] == before[file] else data[file] == target[file]
  }

  lemma {:induction false} MergedTurn(before: CoverageData, target: CoverageData, pending: set<string>,
      data: CoverageData, file: string)
    requires MergedBut(before, target, pending, data) && file in pending && file in target
    ensures MergedBut(before, target, pending - {file}, data[file := target[file]])
    ensures if file in before then file in data && data[file] == before[file] else file !in data
    ensures forall coverage: FileCoverage :: ThrowsOn(data, file, coverage) <==> ThrowsOn(before, file, coverage)
  {
  }

  ghost predicate NoneThrew(before: CoverageData, coverage: CoverageData, pending: set<string>) {
    forall file :: file in coverage && file !in pending ==> !ThrowsOn(before, file, coverage[file])
  }

  // Some file throws; the files that come before it in some order, and it, are merged, and the rest is as before.
  ghost predicate StoppedMidway(before: CoverageData, coverage: CoverageData, slow: SlowMerge, data: CoverageData) {
    exists pending, file ::
      && file in coverage && file !in pending && ThrowsOn(before, file, coverage[file])
      && MergedBut(before, MergedMaps(before, coverage, slow, true), pending, data)
  }

  class FastCoverageMap {
    const slow: SlowMerge
    var data: CoverageData
    var hasMergedCoverage: bool

    constructor (slow: SlowMerge)
      ensures this.slow == slow && data == map[] && !hasMergedCoverage
    {
      this.slow := slow;
      data, hasMergedCoverage := map[], false;
    }

    method AddFileCoverage(file: string, coverage: FileCoverage) returns (thrown: bool)
      modifies this`data
      ensures thrown <==> ThrowsOn(old(data), file, coverage)
      ensures data == old(data)[file :=
        if file in old(data) then AddedTo(old(data)[file], coverage, slow) else coverage]
    {
      if file !in data {
        data := data[file := coverage];
        return false;
      }
      var outcome := FastMergeFileCoverage(data[file], coverage);
      match outcome {
        case Refused => data := data[file := slow(data[file], coverage)];
        case Ignored => assert data == data[file := data[file]];
        case Thrown(left) => data := data[file := left];
        case Added(left) => data := data[file := left];
      }
      thrown := outcome.Thrown?;
    }

    method MergeFile(file: string, coverage: FileCoverage) returns (thrown: bool)
      modifies this`data
      ensures thrown <==> hasMergedCoverage && ThrowsOn(old(data), file, coverage)
      ensures data == old(data)[file :=
        if file in old(data) then MergedFile(old(data)[file], coverage, slow, hasMergedCoverage) else coverage]
    {
      if hasMergedCoverage {
        thrown := AddFileCoverage(file, coverage);
      } else {
        data := data[file := if file in data then slow(data[file], coverage) else coverage];
        thrown := false;
      }
    }

    /** Merges file by file, and stops at the first one that throws. */
    method Merge(coverage: CoverageData) returns (thrown: bool)
      modifies this
      ensures thrown <==>
        old(hasMergedCoverage) && exists file :: file in coverage && ThrowsOn(old(data), file, coverage[file])
      ensures !thrown ==> data == MergedMaps(old(data), coverage, slow, old(hasMergedCoverage))
      ensures thrown ==> StoppedMidway(old(data), coverage, slow, data)
      ensures hasMergedCoverage
    {
      ghost var before, target := data, MergedMaps(data, coverage, slow, hasMergedCoverage);
      var pending := coverage.Keys;
      while pending != {}
        invariant pending <= coverage.Keys && hasMergedCoverage == old(hasMergedCoverage)
        invariant MergedBut(before, target, pending, data)
        invariant hasMergedCoverage ==> NoneThrew(before, coverage, pending)
      {
        var file :| file in pending;
        MergedTurn(before, target, pending, data, file);
        ghost var was := data;
        thrown := MergeFile(file, coverage[file]);
        assert data == was[file := target[file]];
        pending := pending - {file};
        if thrown {
          assert StoppedMidway(before, coverage, slow, data);
          return;
        }
      }
      SameMap(data, target);
      hasMergedCoverage := true;
      thrown := false;
    }
  }

  lemma {:induction false} OwnAt(prepared: Prepared, count: CountOf, file: string)
    requires file in prepared.files
    ensures file in ApplyScript(map[], prepared, count)
    ensures ApplyScript(map[], prepared, count)[file] == OwnCoverage(prepared, file, count)
  {
    TemplatesAt(map[], prepared);
  }

  // What merging a script's own coverage makes of a file that is there.
  ghost function WithScript(existing: FileCoverage, prepared: Prepared, file: string, count: CountOf, slow: SlowMerge):
    FileCoverage
    requires file in prepared.files
  {
    var own := OwnCoverage(prepared, file, count);
    if CanFastMergeCoverage(existing, own) then AddFile(existing, file, prepared, count) else slow(existing, own)
  }

  // Whatever is there, a script's own coverage never throws; where it is accepted it is added in place.
  lemma {:induction false} OwnNeverThrows(existing: FileCoverage, prepared: Prepared, count: CountOf, slow: SlowMerge,
      file: string)
    requires SelfContained(prepared) && file in prepared.files
    ensures !MergeOutcome(existing, OwnCoverage(prepared, file, count)).Thrown?
    ensures AddedTo(existing, OwnCoverage(prepared, file, count), slow)
         == WithScript(existing, prepared, file, count, slow)
  {
    if CanFastMergeCoverage(existing, OwnCoverage(prepared, file, count)) {
      MergeEqualsAdd(existing, prepared, file, count);
    }
  }

  /** Merging a script's own coverage into coverage built from its templates is applying the script directly. */
  lemma {:induction false} MergeIsApply(data: CoverageData, prepared: Prepared, count: CountOf, slow: SlowMerge)
    requires SelfContained(prepared) && Compatible(data, prepared)
    ensures MergedMaps(data, ApplyScript(map[], prepared, count), slow, true) == ApplyScript(data, prepared, count)
  {
    var own, target := ApplyScript(map[], prepared, count), ApplyScript(data, prepared, count);
    TemplatesAt(map[], prepared);
    TemplatesAt(data, prepared);
    var merged := MergedMaps(data, own, slow, true);
    forall file | file in merged ensures merged[file] == target[file] {
      MergedAt(data, prepared, count, slow, file);
    }
    SameMap(merged, target);
  }

  lemma {:induction false} MergedAt(data: CoverageData, prepared: Prepared, count: CountOf, slow: SlowMerge,
      file: string)
    requires SelfContained(prepared) && Compatible(data, prepared)
    requires file in data || file in prepared.files
    ensures file in ApplyScript(data, prepared, count) && file in data.Keys + ApplyScript(map[], prepared, count).Keys
    ensures MergedMaps(data, ApplyScript(map[], prepared, count), slow, true)[file]
        == ApplyScript(data, prepared, count)[file]
  {
    TemplatesAt(map[], prepared);
    TemplatesAt(data, prepared);
    if file in data && file in prepared.files {
      OwnAt(prepared, count, file);
      BuiltIsAccepted(data[file], prepared, file, count);
      OwnNeverThrows(data[file], prepared, count, slow, file);
    } else if file in data {
      Order.UntouchedFile(data[file], file, prepared, count);
    }
  }

  ghost predicate MergesInto(data: CoverageData, prepared: Prepared, count: CountOf, slow: SlowMerge, own: CoverageData,
      file: string)
    requires file in data && file in own && file in prepared.files
  {
    && !ThrowsOn(data, file, own[file])
    && AddedTo(data[file], own[file], slow) == WithScript(data[file], prepared, file, count, slow)
  }

  lemma {:induction false} OwnMerges(data: CoverageData, prepared: Prepared, count: CountOf, slow: SlowMerge,
      own: CoverageData)
    requires SelfContained(prepared) && own == ApplyScript(map[], prepared, count)
    ensures own.Keys == prepared.files.Keys
    ensures forall file :: file in data && file in own ==> MergesInto(data, prepared, count, slow, own, file)
  {
    TemplatesAt(map[], prepared);
    forall file | file in data && file in own ensures MergesInto(data, prepared, count, slow, own, file) {
      OwnAt(prepared, count, file);
      OwnNeverThrows(data[file], prepared, count, slow, file);
    }
  }

  /**
   Converting a script on its own and merging the result into any map: it never throws, files the test accepts get the
   script's hits added in place, files it refuses go to the slow merge. Over coverage built from the script's templates
   the whole map is what direct application leaves.
   */
  method ConvertAndMerge(coverageMap: FastCoverageMap, prepared: Prepared, ranges: seq<Run>) returns (thrown: bool)
    requires Canonical(ranges) && SelfContained(prepared)
    modifies coverageMap
    ensures !thrown
    ensures coverageMap.data
         == MergedMaps(old(coverageMap.data), ApplyScript(map[], prepared, Counts(ranges)), coverageMap.slow,
             old(coverageMap.hasMergedCoverage))
    ensures old(coverageMap.hasMergedCoverage) ==>
      forall file :: file in old(coverageMap.data) && file in prepared.files ==>
        && file in coverageMap.data
        && coverageMap.data[file]
           == WithScript(old(coverageMap.data)[file], prepared, file, Counts(ranges), coverageMap.slow)
    ensures old(coverageMap.hasMergedCoverage) && Compatible(old(coverageMap.data), prepared) ==>
      coverageMap.data == ApplyScript(old(coverageMap.data), prepared, Counts(ranges))
  {
    ghost var data := coverageMap.data;
    var own := ApplyCoverage(prepared, ranges);
    OwnMerges(data, prepared, Counts(ranges), coverageMap.slow, own);
    thrown := coverageMap.Merge(own);
    if Compatible(data, prepared) {
      MergeIsApply(data, prepared, Counts(ranges), coverageMap.slow);
    }
  }
}
