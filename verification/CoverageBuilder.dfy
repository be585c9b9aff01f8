/** Allocating statement, function and branch indexes for the locations the converter meets. */
module CoverageBuilder {
  import opened Wrappers
  import opened CoverageModel
  import Decimal

  datatype Span = Span(start: int, end: int)

  // A generated span mapped to its original file and location.
  datatype Mapped = Mapped(filename: string, loc: Location)

  // A branch arm; the source passes null for a missing else.
  datatype Arm = Arm(span: Span, isBlock: bool)

  datatype Key = FunctionKey(decl: Location) | StatementKey(loc: Location) | BranchKey(locations: seq<Location>)

  datatype FileState = FileState(template: FileTemplate, seen: map<Key, nat>, fnNames: map<string, nat>)

  // ----- function names -----

  function Numbered(base: string, count: nat): string {
    base + "_" + Decimal.ToString(count)
  }

  function Anonymous(index: nat): string {
    "(anonymous_" + Decimal.ToString(index) + ")"
  }

  lemma {:induction false} NumberedInjective(base: string, i: nat, j: nat)
    ensures Numbered(base, i) == Numbered(base, j) ==> i == j
    ensures Numbered(base, i) != base
  {
    if Numbered(base, i) == Numbered(base, j) {
      var s, t := Numbered(base, i), Numbered(base, j);
      assert Decimal.ToString(i) == s[|base| + 1..] == t[|base| + 1..] == Decimal.ToString(j);
      Decimal.Injective(i, j);
    }
  }

  lemma {:induction false} AnonymousInjective(i: nat, j: nat)
    ensures Anonymous(i) == Anonymous(j) ==> i == j
  {
    if Anonymous(i) == Anonymous(j) {
      var s, t := Anonymous(i), Anonymous(j);
      var n := |"(anonymous_"|;
      assert Decimal.ToString(i) == s[n..|s| - 1] && Decimal.ToString(j) == t[n..|t| - 1];
      Decimal.Injective(i, j);
    }
  }

  /**
   A name not handed out before; the base itself when it is free. The search ends because the taken names are finitely
   many.
   */
  method UniqueName(base: string, fnNames: map<string, nat>) returns (name: string, updated: map<string, nat>)
    ensures name !in fnNames && updated.Keys == fnNames.Keys + {name}
    ensures base !in fnNames ==> name == base
    ensures base in fnNames ==> exists k: nat :: k >= 2 && name == Numbered(base, k)
  {
    var count := (if base in fnNames then fnNames[base] else 0) + 1;
    name := if count > 1 then Numbered(base, count) else base;
    ghost var tried: set<string> := {};
    while name in fnNames
      invariant count >= 1
      invariant name == if count > 1 then Numbered(base, count) else base
      invariant base !in fnNames ==> count == 1
      invariant tried <= fnNames.Keys
      invariant forall t :: t in tried ==> t == base || exists j: nat :: j < count && t == Numbered(base, j)
      invariant name !in tried
      decreases fnNames.Keys - tried
    {
      tried := tried + {name};
      count := count + 1;
      name := Numbered(base, count);
      forall t | t in tried ensures t != name {
        if t != base {
          var j: nat :| j < count && t == Numbered(base, j);
          NumberedInjective(base, j, count);
        }
        NumberedInjective(base, count, count);
      }
    }
    updated := fnNames[base := count];
    if name != base {
      updated := updated[name := 0];
    }
  }

  // ----- what a file's state means -----

  // Indexes 0..count-1, one per distinct location.
  ghost predicate StatementsOk(entries: map<nat, Location>, count: nat, seen: map<Key, nat>) {
    && (forall i: nat :: i in entries <==> i < count)
    && (forall i :: i in entries ==> StatementKey(entries[i]) in seen && seen[StatementKey(entries[i])] == i)
    && (forall l :: StatementKey(l) in seen ==> seen[StatementKey(l)] in entries && entries[seen[StatementKey(l)]] == l)
  }

  ghost predicate FunctionsOk(entries: map<nat, FunctionEntry>, count: nat, seen: map<Key, nat>) {
    && (forall i: nat :: i in entries <==> i < count)
    && (forall i :: i in entries ==> FunctionKey(entries[i].decl) in seen && seen[FunctionKey(entries[i].decl)] == i)
    && (forall l :: FunctionKey(l) in seen ==>
        seen[FunctionKey(l)] in entries && entries[seen[FunctionKey(l)]].decl == l)
  }

  ghost predicate BranchesOk(entries: map<nat, BranchEntry>, lengths: map<nat, nat>, count: nat, seen: map<Key, nat>) {
    && (forall i: nat :: i in entries <==> i < count)
    && lengths.Keys == entries.Keys
    && (forall i :: i in entries ==> lengths[i] == |entries[i].locations|)
    && (forall i :: i in entries ==>
        BranchKey(entries[i].locations) in seen && seen[BranchKey(entries[i].locations)] == i)
    && (forall ls :: BranchKey(ls) in seen ==>
        seen[BranchKey(ls)] in entries && entries[seen[BranchKey(ls)]].locations == ls)
  }

  // An identifier never opens with a parenthesis.
  predicate IsIdentifier(name: string) {
    name != "" && name[0] != '('
  }

  // A function has a taken name or the anonymous one of its index.
  ghost predicate NameOk(entries: map<nat, FunctionEntry>, fnNames: map<string, nat>, i: nat)
    requires i in entries
  {
    entries[i].name in fnNames || entries[i].name == Anonymous(i)
  }

  ghost predicate IsTaken(entries: map<nat, FunctionEntry>, name: string) {
    exists i :: i in entries && entries[i].name == name
  }

  // The name of the function at an index: without one it is anonymous, and one already taken is numbered.
  ghost predicate IsNamed(entries: map<nat, FunctionEntry>, index: nat, name: string)
    requires index in entries
  {
    if name == "" then entries[index].name == Anonymous(index)
    else if exists j :: j in entries && j < index && entries[j].name == name
    then exists k: nat :: k >= 2 && entries[index].name == Numbered(name, k)
    else entries[index].name == name
  }

  // Pairwise distinct function names.
  ghost predicate NamesOk(entries: map<nat, FunctionEntry>, fnNames: map<string, nat>) {
    && (forall n :: n in fnNames ==> IsIdentifier(n) && IsTaken(entries, n))
    && (forall i {:trigger NameOk(entries, fnNames, i)} :: i in entries ==> NameOk(entries, fnNames, i))
    && (forall i, j {:trigger entries[i].name, entries[j].name} :: i in entries && j in entries && i != j ==>
        entries[i].name != entries[j].name)
  }

  ghost predicate FileOk(file: FileState) {
    && StatementsOk(file.template.statementMap, file.template.statementCount, file.seen)
    && FunctionsOk(file.template.fnMap, file.template.functionCount, file.seen)
    && BranchesOk(file.template.branchMap, file.template.branchLengths, file.template.branchCount, file.seen)
    && NamesOk(file.template.fnMap, file.fnNames)
  }

  /**
   Indexes are exactly 0..count-1, one per distinct location; function names never repeat; a branch has a counter per
   arm.
   */
  ghost predicate ExactTemplate(t: FileTemplate) {
    && (forall i: nat :: i in t.statementMap <==> i < t.statementCount)
    && (forall i: nat :: i in t.fnMap <==> i < t.functionCount)
    && (forall i: nat :: i in t.branchMap <==> i < t.branchCount)
    && (forall i, j :: i in t.statementMap && j in t.statementMap && i != j ==> t.statementMap[i] != t.statementMap[j])
    && (forall i, j :: i in t.fnMap && j in t.fnMap && i != j ==>
        t.fnMap[i].decl != t.fnMap[j].decl && t.fnMap[i].name != t.fnMap[j].name)
    && (forall i, j :: i in t.branchMap && j in t.branchMap && i != j ==>
        t.branchMap[i].locations != t.branchMap[j].locations)
    && t.branchLengths.Keys == t.branchMap.Keys
    && (forall i :: i in t.branchMap ==> t.branchLengths[i] == |t.branchMap[i].locations|)
  }

  ghost predicate ExactTemplates(files: map<string, FileTemplate>) {
    forall f :: f in files ==> ExactTemplate(files[f])
  }

  lemma {:induction false} OkIsExact(file: FileState)
    requires FileOk(file)
    ensures ExactTemplate(file.template)
  {
  }

  // What was allocated stays allocated.
  ghost predicate Grows(before: FileState, after: FileState) {
    && before.template.path == after.template.path
    && before.template.statementCount <= after.template.statementCount
    && before.template.functionCount <= after.template.functionCount
    && before.template.branchCount <= after.template.branchCount
    && (forall i :: i in before.template.statementMap ==>
        i in after.template.statementMap && after.template.statementMap[i] == before.template.statementMap[i])
    && (forall i :: i in before.template.fnMap ==>
        i in after.template.fnMap && after.template.fnMap[i] == before.template.fnMap[i])
    && (forall i :: i in before.template.branchMap ==>
        i in after.template.branchMap && after.template.branchMap[i] == before.template.branchMap[i])
    && (forall k :: k in before.seen ==> k in after.seen && after.seen[k] == before.seen[k])
  }

  function Index(file: FileState, key: Key, count: nat): nat {
    if key in file.seen then file.seen[key] else count
  }

  // How many indexes a key's kind has.
  ghost function KindCount(t: FileTemplate, key: Key): nat {
    match key
    case FunctionKey(_) => t.functionCount
    case StatementKey(_) => t.statementCount
    case BranchKey(_) => t.branchCount
  }

  ghost predicate IsEntry(t: FileTemplate, key: Key, index: nat) {
    match key
    case FunctionKey(decl) => index in t.fnMap && t.fnMap[index].decl == decl
    case StatementKey(loc) => index in t.statementMap && t.statementMap[index] == loc
    case BranchKey(locations) => index in t.branchMap && t.branchMap[index].locations == locations
  }

  // A key has the index it had, or the next one of its kind; the file changes by nothing else.
  ghost predicate Entered(file: FileState, after: FileState, key: Key, index: nat) {
    && index == Index(file, key, KindCount(file.template, key)) && IsEntry(after.template, key, index)
    && (key in file.seen ==> after == file)
    && (key !in file.seen ==> after.seen == file.seen[key := index])
  }

  // ----- one allocation -----

  method AllocateStatement(file: FileState, loc: Location) returns (index: nat, after: FileState)
    requires FileOk(file)
    ensures FileOk(after) && Grows(file, after)
    ensures Entered(file, after, StatementKey(loc), index)
  {
    var key := StatementKey(loc);
    var t := file.template;
    if key in file.seen {
      return file.seen[key], file;
    }
    index := t.statementCount;
    after := file.(seen := file.seen[key := index],
                   template := t.(statementCount := t.statementCount + 1,
                       statementMap := t.statementMap[index := loc]));
  }

  lemma {:induction false} TakenStays(entries: map<nat, FunctionEntry>, fnNames: map<string, nat>, index: nat,
      entry: FunctionEntry, name: string)
    requires NamesOk(entries, fnNames) && index !in entries && (name in fnNames || name == entry.name)
    ensures IsTaken(entries[index := entry], name)
  {
    var more := entries[index := entry];
    if name in fnNames {
      var i :| i in entries && entries[i].name == name;
      assert more[i].name == name;
    } else {
      assert more[index].name == name;
    }
  }

  // A new name keeps the names distinct.
  lemma {:induction false} NamesGrow(entries: map<nat, FunctionEntry>, fnNames: map<string, nat>, index: nat,
      entry: FunctionEntry, updated: map<string, nat>)
    requires NamesOk(entries, fnNames) && index !in entries
    requires if entry.name == Anonymous(index) then updated == fnNames
      else updated.Keys == fnNames.Keys + {entry.name} && IsIdentifier(entry.name) && entry.name !in fnNames
    ensures NamesOk(entries[index := entry], updated)
  {
    var more := entries[index := entry];
    forall i | i in more ensures NameOk(more, updated, i) {
      assert i in entries ==> NameOk(entries, fnNames, i);
    }
    forall n | n in updated ensures IsIdentifier(n) && IsTaken(more, n) {
      TakenStays(entries, fnNames, index, entry, n);
    }
    forall i | i in entries ensures entries[i].name != entry.name {
      assert NameOk(entries, fnNames, i);
      AnonymousInjective(i, index);
      assert Anonymous(i)[0] == '(' && Anonymous(index)[0] == '(';
    }
  }

  method FunctionName(name: string, index: nat, fnNames: map<string, nat>)
    returns (given: string, updated: map<string, nat>)
    requires name != "" ==> IsIdentifier(name)
    ensures if given == Anonymous(index) then updated == fnNames
      else updated.Keys == fnNames.Keys + {given} && IsIdentifier(given) && given !in fnNames
    ensures IsGiven(name, index, fnNames, given)
  {
    given, updated := name, fnNames;
    if given != "" {
      given, updated := UniqueName(name, fnNames);
      assert given[0] == name[0] && Anonymous(index)[0] == '(';
    } else {
      given := Anonymous(index);
    }
  }

  lemma {:induction false} FunctionEntered(file: FileState, entry: FunctionEntry, fnNames: map<string, nat>)
    requires FileOk(file) && FunctionKey(entry.decl) !in file.seen
    requires NamesOk(file.template.fnMap[file.template.functionCount := entry], fnNames)
    ensures var t, index := file.template, file.template.functionCount;
      var after := FileState(t.(functionCount := index + 1, fnMap := t.fnMap[index := entry]),
          file.seen[FunctionKey(entry.decl) := index], fnNames);
      FileOk(after) && Grows(file, after)
  {
    var t, index, key := file.template, file.template.functionCount, FunctionKey(entry.decl);
    FunctionInserted(t.fnMap, index, file.seen, entry);
    OtherKindsKept(t, file.seen, key, index);
  }

  lemma {:induction false} FunctionInserted(entries: map<nat, FunctionEntry>, count: nat, seen: map<Key, nat>,
      entry: FunctionEntry)
    requires FunctionsOk(entries, count, seen) && FunctionKey(entry.decl) !in seen
    ensures FunctionsOk(entries[count := entry], count + 1, seen[FunctionKey(entry.decl) := count])
  {
  }

  lemma {:induction false} OtherKindsKept(t: FileTemplate, seen: map<Key, nat>, key: Key, index: nat)
    requires key.FunctionKey? && StatementsOk(t.statementMap, t.statementCount, seen)
    requires BranchesOk(t.branchMap, t.branchLengths, t.branchCount, seen)
    ensures StatementsOk(t.statementMap, t.statementCount, seen[key := index])
    ensures BranchesOk(t.branchMap, t.branchLengths, t.branchCount, seen[key := index])
  {
  }

  ghost predicate IsNewFunction(t: FileTemplate, index: nat, name: string, decl: Location, loc: Location) {
    && index in t.fnMap && IsNamed(t.fnMap, index, name)
    && t.fnMap[index] == FunctionEntry(t.fnMap[index].name, decl, loc, loc.startLine)
  }

  // The name given to the next function is the one its place in the list calls for.
  lemma {:induction false} NextIsNamed(entries: map<nat, FunctionEntry>, fnNames: map<string, nat>, index: nat,
      name: string, entry: FunctionEntry)
    requires NamesOk(entries, fnNames) && (forall i: nat :: i in entries <==> i < index)
    requires name != "" ==> IsIdentifier(name)
    requires IsGiven(name, index, fnNames, entry.name)
    ensures IsNamed(entries[index := entry], index, name)
  {
    var more := entries[index := entry];
    if name != "" {
      if name in fnNames {
        var j :| j in entries && entries[j].name == name;
        assert more[j].name == name;
      } else {
        forall j | j in entries ensures more[j].name != name {
          assert NameOk(entries, fnNames, j);
        }
      }
    }
  }

  ghost predicate IsGiven(name: string, index: nat, fnNames: map<string, nat>, given: string) {
    if name == "" then given == Anonymous(index)
    else if name in fnNames then exists k: nat :: k >= 2 && given == Numbered(name, k)
    else given == name
  }

  method AllocateFunction(file: FileState, name: string, decl: Location, loc: Location)
      returns (index: nat, after: FileState)
    requires FileOk(file)
    requires name != "" ==> IsIdentifier(name)
    ensures FileOk(after) && Grows(file, after)
    ensures Entered(file, after, FunctionKey(decl), index)
    ensures FunctionKey(decl) !in file.seen ==> IsNewFunction(after.template, index, name, decl, loc)
  {
    var key := FunctionKey(decl);
    var t := file.template;
    if key in file.seen {
      return file.seen[key], file;
    }
    index := t.functionCount;
    var given, fnNames := FunctionName(name, index, file.fnNames);
    var entry := FunctionEntry(given, decl, loc, loc.startLine);
    NamesGrow(t.fnMap, file.fnNames, index, entry, fnNames);
    NextIsNamed(t.fnMap, file.fnNames, index, name, entry);
    FunctionEntered(file, entry, fnNames);
    after := FileState(t.(functionCount := t.functionCount + 1, fnMap := t.fnMap[index := entry]),
        file.seen[key := index], fnNames);
  }

  method AllocateBranch(file: FileState, branchType: BranchType, loc: Location, locations: seq<Location>)
      returns (index: nat, after: FileState)
    requires FileOk(file)
    ensures FileOk(after) && Grows(file, after)
    ensures Entered(file, after, BranchKey(locations), index)
    ensures BranchKey(locations) !in file.seen ==>
      after.template.branchMap[index] == BranchEntry(loc, branchType, locations, loc.startLine)
  {
    var key := BranchKey(locations);
    var t := file.template;
    if key in file.seen {
      return file.seen[key], file;
    }
    index := t.branchCount;
    after := file.(seen := file.seen[key := index],
                   template := t.(branchCount := t.branchCount + 1,
                                  branchMap := t.branchMap[index :=
                                      BranchEntry(loc, branchType, locations, loc.startLine)],
                                  branchLengths := t.branchLengths[index := |locations|]));
  }

  // ----- the arms of a branch -----

  type Locator = Span -> Option<Mapped>

  // The arms that count: a missing else, and the arms the locator can map.
  ghost function MappedArms(getLoc: Locator, arms: seq<Option<Arm>>): seq<Option<Arm>> {
    if arms == [] then [] else
      var last := arms[|arms| - 1];
      MappedArms(getLoc, arms[..|arms| - 1]) + (if last.None? || getLoc(last.value.span).Some? then [last] else [])
  }

  ghost predicate IsKept(getLoc: Locator, arm: Option<Arm>) {
    arm.None? || getLoc(arm.value.span).Some?
  }

  /** Exactly the arms that are missing or located are kept, in order; all of them when all are. */
  lemma {:induction false} MappedAre(getLoc: Locator, arms: seq<Option<Arm>>)
    ensures forall arm :: arm in MappedArms(getLoc, arms) <==> arm in arms && IsKept(getLoc, arm)
    ensures (forall arm :: arm in arms ==> IsKept(getLoc, arm)) ==> MappedArms(getLoc, arms) == arms
    ensures |MappedArms(getLoc, arms)| <= |arms|
  {
    if arms != [] {
      var n := |arms| - 1;
      MappedAre(getLoc, arms[..n]);
      assert arms == arms[..n] + [arms[n]];
      assert arms[n] in arms && forall arm :: arm in arms[..n] ==> arm in arms;
    }
  }

  ghost function ArmLocation(getLoc: Locator, own: Location, arm: Option<Arm>): Location {
    if arm.Some? && getLoc(arm.value.span).Some? then getLoc(arm.value.span).value.loc else own
  }

  // A block's braces do not belong to its range.
  function ArmRange(node: Span, arm: Option<Arm>): BranchRange {
    if arm.None? then BranchRange(node.start, node.end, true)
    else
      var bias := if arm.value.isBlock then 1 else 0;
      BranchRange(arm.value.span.start + bias, arm.value.span.end - bias, false)
  }

  method CollectArms(getLoc: Locator, node: Span, own: Location, arms: seq<Option<Arm>>)
    returns (locations: seq<Location>, ranges: seq<BranchRange>)
    ensures |locations| == |ranges| == |MappedArms(getLoc, arms)|
    ensures forall k :: 0 <= k < |locations| ==> locations[k] == ArmLocation(getLoc, own, MappedArms(getLoc, arms)[k])
    ensures forall k :: 0 <= k < |ranges| ==> ranges[k] == ArmRange(node, MappedArms(getLoc, arms)[k])
  {
    locations, ranges := [], [];
    var i := 0;
    while i < |arms|
      invariant i <= |arms|
      invariant |locations| == |ranges| == |MappedArms(getLoc, arms[..i])|
      invariant forall k :: 0 <= k < |locations| ==>
          locations[k] == ArmLocation(getLoc, own, MappedArms(getLoc, arms[..i])[k])
      invariant forall k :: 0 <= k < |ranges| ==> ranges[k] == ArmRange(node, MappedArms(getLoc, arms[..i])[k])
    {
      var branch := arms[i];
      assert arms[..i + 1][..i] == arms[..i];
      i := i + 1;
      if branch.None? {
        locations := locations + [own];
        ranges := ranges + [BranchRange(node.start, node.end, true)];
        continue;
      }
      var location := getLoc(branch.value.span);
      if location.None? {
        continue;
      }
      locations := locations + [location.value.loc];
      var bias := if branch.value.isBlock then 1 else 0;
      ranges := ranges + [BranchRange(branch.value.span.start + bias, branch.value.span.end - bias, false)];
    }
    assert arms[..|arms|] == arms;
  }

  // ----- the builder -----

  ghost predicate FilesOk(files: map<string, FileState>) {
    forall f :: f in files ==> FileOk(files[f]) && files[f].template.path == f
  }

  ghost predicate FunctionOk(d: Descriptor, files: map<string, FileState>) {
    d.filename in files && d.index < files[d.filename].template.functionCount
  }

  ghost predicate StatementOk(d: Descriptor, files: map<string, FileState>) {
    d.filename in files && d.index < files[d.filename].template.statementCount
  }

  ghost predicate BranchOk(d: BranchDescriptor, files: map<string, FileState>) {
    && d.filename in files
    && d.index in files[d.filename].template.branchMap
    && 0 < |d.ranges| == |files[d.filename].template.branchMap[d.index].locations|
  }

  ghost function Templates(files: map<string, FileState>): map<string, FileTemplate> {
    map f | f in files :: files[f].template
  }

  ghost predicate OneRangePerArm(p: Prepared) {
    forall i :: 0 <= i < |p.branches| ==>
      && p.branches[i].filename in p.files
      && p.branches[i].index in p.files[p.branches[i].filename].branchLengths
      && |p.branches[i].ranges| == p.files[p.branches[i].filename].branchLengths[p.branches[i].index]
  }

  ghost predicate GrowsAt(before: map<string, FileState>, after: map<string, FileState>, filename: string) {
    filename in before && filename in after && after == before[filename := after[filename]]
        && Grows(before[filename], after[filename])
  }

  // Every descriptor names an existing file and an allocated index; a branch descriptor has one range per arm.
  ghost predicate StateOk(files: map<string, FileState>, functions: seq<Descriptor>, statements: seq<Descriptor>,
      branches: seq<BranchDescriptor>)
  {
    && FilesOk(files)
    && (forall i :: 0 <= i < |functions| ==> FunctionOk(functions[i], files))
    && (forall i :: 0 <= i < |statements| ==> StatementOk(statements[i], files))
    && (forall i :: 0 <= i < |branches| ==> BranchOk(branches[i], files))
  }

  lemma {:induction false} FilesStayOk(files: map<string, FileState>, filename: string, after: FileState)
    requires FilesOk(files) && filename in files && FileOk(after) && Grows(files[filename], after)
    ensures FilesOk(files[filename := after]) && GrowsAt(files, files[filename := after], filename)
  {
  }

  lemma {:induction false} BranchStaysOk(files: map<string, FileState>, filename: string, after: FileState,
      d: BranchDescriptor)
    requires BranchOk(d, files) && filename in files && Grows(files[filename], after)
    ensures BranchOk(d, files[filename := after])
  {
  }

  lemma {:induction false} OthersStayOk(files: map<string, FileState>, filename: string, after: FileState,
      d: Descriptor)
    requires filename in files && Grows(files[filename], after)
    ensures FunctionOk(d, files) ==> FunctionOk(d, files[filename := after])
    ensures StatementOk(d, files) ==> StatementOk(d, files[filename := after])
  {
  }

  // Allocating in one file keeps every descriptor good.
  lemma {:induction false} FilesGrow(files: map<string, FileState>, functions: seq<Descriptor>,
      statements: seq<Descriptor>, branches: seq<BranchDescriptor>, filename: string, after: FileState)
    requires StateOk(files, functions, statements, branches)
    requires filename in files && FileOk(after) && Grows(files[filename], after)
    ensures StateOk(files[filename := after], functions, statements, branches)
    ensures GrowsAt(files, files[filename := after], filename)
  {
    var more := files[filename := after];
    FilesStayOk(files, filename, after);
    forall i | 0 <= i < |functions| ensures FunctionOk(functions[i], more) {
      OthersStayOk(files, filename, after, functions[i]);
    }
    forall i | 0 <= i < |statements| ensures StatementOk(statements[i], more) {
      OthersStayOk(files, filename, after, statements[i]);
    }
    forall i | 0 <= i < |branches| ensures BranchOk(branches[i], more) {
      BranchStaysOk(files, filename, after, branches[i]);
    }
  }

  // One more good descriptor.
  lemma {:induction false} OneMoreFunction(files: map<string, FileState>, functions: seq<Descriptor>,
      statements: seq<Descriptor>, branches: seq<BranchDescriptor>, d: Descriptor)
    requires StateOk(files, functions, statements, branches) && FunctionOk(d, files)
    ensures StateOk(files, functions + [d], statements, branches)
  {
  }

  lemma {:induction false} OneMoreStatement(files: map<string, FileState>, functions: seq<Descriptor>,
      statements: seq<Descriptor>, branches: seq<BranchDescriptor>, d: Descriptor)
    requires StateOk(files, functions, statements, branches) && StatementOk(d, files)
    ensures StateOk(files, functions, statements + [d], branches)
  {
  }

  lemma {:induction false} OneMoreBranch(files: map<string, FileState>, functions: seq<Descriptor>,
      statements: seq<Descriptor>, branches: seq<BranchDescriptor>, d: BranchDescriptor)
    requires StateOk(files, functions, statements, branches) && BranchOk(d, files)
    ensures StateOk(files, functions, statements, branches + [d])
  {
  }

  lemma {:induction false} StatementPushed(files: map<string, FileState>, functions: seq<Descriptor>,
      statements: seq<Descriptor>, branches: seq<BranchDescriptor>, d: Descriptor, after: FileState)
    requires StateOk(files, functions, statements, branches)
    requires d.filename in files && FileOk(after) && Grows(files[d.filename], after)
        && d.index in after.template.statementMap
    ensures StateOk(files[d.filename := after], functions, statements + [d], branches)
    ensures GrowsAt(files, files[d.filename := after], d.filename)
  {
    FilesGrow(files, functions, statements, branches, d.filename, after);
    OneMoreStatement(files[d.filename := after], functions, statements, branches, d);
  }

  lemma {:induction false} FunctionPushed(files: map<string, FileState>, functions: seq<Descriptor>,
      statements: seq<Descriptor>, branches: seq<BranchDescriptor>, d: Descriptor, after: FileState)
    requires StateOk(files, functions, statements, branches)
    requires d.filename in files && FileOk(after) && Grows(files[d.filename], after) && d.index in after.template.fnMap
    ensures StateOk(files[d.filename := after], functions + [d], statements, branches)
    ensures GrowsAt(files, files[d.filename := after], d.filename)
  {
    FilesGrow(files, functions, statements, branches, d.filename, after);
    OneMoreFunction(files[d.filename := after], functions, statements, branches, d);
  }

  lemma {:induction false} BranchPushed(files: map<string, FileState>, functions: seq<Descriptor>,
      statements: seq<Descriptor>, branches: seq<BranchDescriptor>, d: BranchDescriptor, after: FileState)
    requires StateOk(files, functions, statements, branches)
    requires d.filename in files && FileOk(after) && Grows(files[d.filename], after)
    requires d.index in after.template.branchMap && 0 < |d.ranges| == |after.template.branchMap[d.index].locations|
    ensures StateOk(files[d.filename := after], functions, statements, branches + [d])
    ensures GrowsAt(files, files[d.filename := after], d.filename)
  {
    FilesGrow(files, functions, statements, branches, d.filename, after);
    OneMoreBranch(files[d.filename := after], functions, statements, branches, d);
  }

  // A located statement gets one descriptor, with the index its location has or the next one.
  ghost predicate StatementAdded(getLoc: Locator, node: Span, coverage: Span,
    files: map<string, FileState>, after: map<string, FileState>, statements: seq<Descriptor>, more: seq<Descriptor>)
  {
    var loc := getLoc(node);
    if loc.None? || loc.value.filename !in files then after == files && more == statements
    else
      var name, key := loc.value.filename, StatementKey(loc.value.loc);
      var index := Index(files[name], key, files[name].template.statementCount);
      && GrowsAt(files, after, name) && Entered(files[name], after[name], key, index)
      && more == statements + [Descriptor(name, index, coverage.start, coverage.end)]
  }

  lemma {:induction false} StatementDone(getLoc: Locator, node: Span, coverage: Span, files: map<string, FileState>,
      statements: seq<Descriptor>, index: nat, after: FileState)
    requires getLoc(node).Some? && getLoc(node).value.filename in files
    requires var file, key := files[getLoc(node).value.filename], StatementKey(getLoc(node).value.loc);
      Grows(file, after) && Entered(file, after, key, index)
    ensures var filename := getLoc(node).value.filename;
      StatementAdded(getLoc, node, coverage, files, files[filename := after],
        statements, statements + [Descriptor(filename, index, coverage.start, coverage.end)])
  {
  }

  // A located function is known by its declaration; the first one there gives the entry.
  ghost predicate FunctionAdded(getLoc: Locator, name: string, locSpan: Span, declSpan: Span, coverage: Span,
    files: map<string, FileState>, after: map<string, FileState>, functions: seq<Descriptor>, more: seq<Descriptor>)
  {
    var loc, decl := getLoc(locSpan), getLoc(declSpan);
    if loc.None? || decl.None? || loc.value.filename !in files then after == files && more == functions
    else
      var path, key := loc.value.filename, FunctionKey(decl.value.loc);
      var index := Index(files[path], key, files[path].template.functionCount);
      && GrowsAt(files, after, path) && Entered(files[path], after[path], key, index)
      && more == functions + [Descriptor(path, index, coverage.start, coverage.end)]
      && (key !in files[path].seen ==>
            IsNewFunction(after[path].template, index, name, decl.value.loc, loc.value.loc))
  }

  // The descriptor and the file state a located function leads to.
  ghost predicate FunctionLocated(getLoc: Locator, name: string, locSpan: Span, declSpan: Span, coverage: Span,
    files: map<string, FileState>, d: Descriptor, after: FileState)
  {
    && getLoc(locSpan).Some? && getLoc(declSpan).Some? && getLoc(locSpan).value.filename in files
    && var file, decl := files[getLoc(locSpan).value.filename], getLoc(declSpan).value.loc;
      && d == Descriptor(getLoc(locSpan).value.filename, d.index, coverage.start, coverage.end)
      && FileOk(after) && Grows(file, after) && Entered(file, after, FunctionKey(decl), d.index)
      && (FunctionKey(decl) !in file.seen ==>
            IsNewFunction(after.template, d.index, name, decl, getLoc(locSpan).value.loc))
  }

  lemma {:induction false} FunctionDone(getLoc: Locator, name: string, locSpan: Span, declSpan: Span, coverage: Span,
    files: map<string, FileState>, functions: seq<Descriptor>, statements: seq<Descriptor>,
        branches: seq<BranchDescriptor>, d: Descriptor, after: FileState)
    requires FunctionLocated(getLoc, name, locSpan, declSpan, coverage, files, d, after)
    requires StateOk(files, functions, statements, branches)
    ensures StateOk(files[d.filename := after], functions + [d], statements, branches)
    ensures FunctionAdded(getLoc, name, locSpan, declSpan, coverage, files, files[d.filename := after], functions,
        functions + [d])
  {
    FunctionPushed(files, functions, statements, branches, d, after);
  }

  // The first arm of an `if` takes the location of the whole statement.
  ghost function BranchLocations(getLoc: Locator, branchType: BranchType, own: Location,
      arms: seq<Option<Arm>>): seq<Location>
  {
    var mapped := MappedArms(getLoc, arms);
    seq(|mapped|, k requires 0 <= k < |mapped| =>
      if branchType == IfBranch && k == 0 then own else ArmLocation(getLoc, own, mapped[k]))
  }

  // A located branch with a mapped arm gets one descriptor, with one range per mapped arm.
  ghost predicate BranchAdded(getLoc: Locator, branchType: BranchType, node: Span, arms: seq<Option<Arm>>,
    files: map<string, FileState>, after: map<string, FileState>, branches: seq<BranchDescriptor>,
        more: seq<BranchDescriptor>)
  {
    var loc, mapped := getLoc(node), MappedArms(getLoc, arms);
    if loc.None? || loc.value.filename !in files || mapped == [] then after == files && more == branches
    else
      var name, locations := loc.value.filename, BranchLocations(getLoc, branchType, loc.value.loc, arms);
      var index := Index(files[name], BranchKey(locations), files[name].template.branchCount);
      && GrowsAt(files, after, name) && Entered(files[name], after[name], BranchKey(locations), index)
      && more == branches + [BranchDescriptor(name, index,
          seq(|mapped|, k requires 0 <= k < |mapped| => ArmRange(node, mapped[k])))]
      && (BranchKey(locations) !in files[name].seen ==>
            after[name].template.branchMap[index]
                == BranchEntry(loc.value.loc, branchType, locations, loc.value.loc.startLine))
  }

  // The descriptor and the file state a located branch leads to.
  ghost predicate BranchLocated(getLoc: Locator, branchType: BranchType, node: Span, arms: seq<Option<Arm>>,
    files: map<string, FileState>, d: BranchDescriptor, after: FileState)
  {
    && getLoc(node).Some? && getLoc(node).value.filename in files && MappedArms(getLoc, arms) != []
    && var file, mapped := files[getLoc(node).value.filename], MappedArms(getLoc, arms);
      var own := getLoc(node).value.loc;
      var locations := BranchLocations(getLoc, branchType, own, arms);
      && d == BranchDescriptor(getLoc(node).value.filename, d.index,
                               seq(|mapped|, k requires 0 <= k < |mapped| => ArmRange(node, mapped[k])))
      && FileOk(after) && Grows(file, after) && Entered(file, after, BranchKey(locations), d.index)
      && (BranchKey(locations) !in file.seen ==>
            after.template.branchMap[d.index] == BranchEntry(own, branchType, locations, own.startLine))
  }

  lemma {:induction false} BranchDone(getLoc: Locator, branchType: BranchType, node: Span, arms: seq<Option<Arm>>,
    files: map<string, FileState>, functions: seq<Descriptor>, statements: seq<Descriptor>,
        branches: seq<BranchDescriptor>, d: BranchDescriptor, after: FileState)
    requires BranchLocated(getLoc, branchType, node, arms, files, d, after)
    requires StateOk(files, functions, statements, branches)
    ensures StateOk(files[d.filename := after], functions, statements, branches + [d])
    ensures BranchAdded(getLoc, branchType, node, arms, files, files[d.filename := after], branches, branches + [d])
  {
    BranchPushed(files, functions, statements, branches, d, after);
  }

  method LocateFunction(getLoc: Locator, files: map<string, FileState>, name: string, locSpan: Span, declSpan: Span,
      coverage: Span)
    returns (located: bool, d: Descriptor, after: FileState)
    requires FilesOk(files)
    requires name != "" ==> IsIdentifier(name)
    ensures located <==> getLoc(locSpan).Some? && getLoc(declSpan).Some? && getLoc(locSpan).value.filename in files
    ensures located ==> FunctionLocated(getLoc, name, locSpan, declSpan, coverage, files, d, after)
  {
    d, after := Descriptor("", 0, 0, 0), FileState(FileTemplate("", map[], map[], map[], 0, 0, map[], 0), map[], map[]);
    var loc := getLoc(locSpan);
    if loc.None? {
      return false, d, after;
    }
    var decl := getLoc(declSpan);
    if decl.None? || loc.value.filename !in files {
      return false, d, after;
    }
    var index;
    index, after := AllocateFunction(files[loc.value.filename], name, decl.value.loc, loc.value.loc);
    d := Descriptor(loc.value.filename, index, coverage.start, coverage.end);
    located := true;
  }

  method LocateBranch(getLoc: Locator, files: map<string, FileState>, branchType: BranchType, node: Span,
      arms: seq<Option<Arm>>)
    returns (located: bool, d: BranchDescriptor, after: FileState)
    requires FilesOk(files)
    ensures located <==> getLoc(node).Some? && getLoc(node).value.filename in files && MappedArms(getLoc, arms) != []
    ensures located ==> BranchLocated(getLoc, branchType, node, arms, files, d, after)
  {
    d, after := BranchDescriptor("", 0, []),
        FileState(FileTemplate("", map[], map[], map[], 0, 0, map[], 0), map[], map[]);
    var loc := getLoc(node);
    if loc.None? || loc.value.filename !in files {
      return false, d, after;
    }
    var locations, ranges := CollectArms(getLoc, node, loc.value.loc, arms);
    if branchType == IfBranch && |locations| > 0 {
      locations := locations[0 := loc.value.loc];
    }
    if |locations| == 0 {
      return false, d, after;
    }
    assert locations == BranchLocations(getLoc, branchType, loc.value.loc, arms);
    ghost var mapped := MappedArms(getLoc, arms);
    assert ranges == seq(|mapped|, k requires 0 <= k < |mapped| => ArmRange(node, mapped[k]));
    var index;
    index, after := AllocateBranch(files[loc.value.filename], branchType, loc.value.loc, locations);
    d := BranchDescriptor(loc.value.filename, index, ranges);
    located := true;
  }

  class Builder {
    const getLoc: Locator
    var files: map<string, FileState>
    var functions: seq<Descriptor>
    var statements: seq<Descriptor>
    var branches: seq<BranchDescriptor>

    ghost predicate Valid()
      reads this
    {
      StateOk(files, functions, statements, branches)
    }

    constructor (sources: set<string>, getLoc: Locator)
      ensures Valid() && this.getLoc == getLoc
      ensures files.Keys == sources && functions == [] && statements == [] && branches == []
      ensures forall f :: f in sources ==> files[f].template.path == f && files[f].seen == map[]
    {
      this.getLoc := getLoc;
      files := map path | path in sources ::
          FileState(FileTemplate(path, map[], map[], map[], 0, 0, map[], 0), map[], map[]);
      functions, statements, branches := [], [], [];
    }

    method Store(files: map<string, FileState>, functions: seq<Descriptor>, statements: seq<Descriptor>,
        branches: seq<BranchDescriptor>)
      requires StateOk(files, functions, statements, branches)
      modifies this
      ensures Valid()
      ensures this.files == files && this.functions == functions && this.statements == statements
          && this.branches == branches
    {
      this.files, this.functions, this.statements, this.branches := files, functions, statements, branches;
    }

    method AddStatement(node: Span, coverageNode: Span)
      requires Valid()
      modifies this
      ensures Valid() && functions == old(functions) && branches == old(branches)
      ensures StatementAdded(getLoc, node, coverageNode, old(files), files, old(statements), statements)
    {
      var loc := getLoc(node);
      if loc.None? || loc.value.filename !in files {
        return;
      }
      var filename := loc.value.filename;
      var index, after := AllocateStatement(files[filename], loc.value.loc);
      var descriptor := Descriptor(filename, index, coverageNode.start, coverageNode.end);
      StatementPushed(files, functions, statements, branches, descriptor, after);
      StatementDone(getLoc, node, coverageNode, files, statements, index, after);
      Store(files[filename := after], functions, statements + [descriptor], branches);
    }

    method AddFunction(name: string, locSpan: Span, declSpan: Span, coverage: Span)
      requires Valid()
      requires name != "" ==> IsIdentifier(name)
      modifies this
      ensures Valid() && statements == old(statements) && branches == old(branches)
      ensures FunctionAdded(getLoc, name, locSpan, declSpan, coverage, old(files), files, old(functions), functions)
    {
      var located, descriptor, after := LocateFunction(getLoc, files, name, locSpan, declSpan, coverage);
      if located {
        FunctionDone(getLoc, name, locSpan, declSpan, coverage, files, functions, statements, branches, descriptor,
            after);
        Store(files[descriptor.filename := after], functions + [descriptor], statements, branches);
      }
    }

    method AddBranch(branchType: BranchType, node: Span, arms: seq<Option<Arm>>)
      requires Valid()
      modifies this
      ensures Valid() && functions == old(functions) && statements == old(statements)
      ensures BranchAdded(getLoc, branchType, node, arms, old(files), files, old(branches), branches)
    {
      var located, descriptor, after := LocateBranch(getLoc, files, branchType, node, arms);
      if located {
        BranchDone(getLoc, branchType, node, arms, files, functions, statements, branches, descriptor, after);
        Store(files[descriptor.filename := after], functions, statements, branches + [descriptor]);
      }
    }

    /** The finished script names only counters its own templates create, each branch with one counter per arm. */
    method ToPreparedCoverage() returns (prepared: Prepared)
      requires Valid()
      ensures SelfContained(prepared)
      ensures prepared.functions == functions && prepared.statements == statements && prepared.branches == branches
      ensures prepared.files == Templates(files) && ExactTemplates(prepared.files)
      ensures forall f :: f in prepared.files ==> prepared.files[f].path == f
      ensures OneRangePerArm(prepared)
    {
      prepared := Prepared(map f | f in files :: files[f].template, functions, statements, branches);
      OkIsContained(files, prepared);
      forall f | f in files ensures ExactTemplate(prepared.files[f]) {
        OkIsExact(files[f]);
      }
    }
  }

  lemma {:induction false} OkIsContained(files: map<string, FileState>, p: Prepared)
    requires FilesOk(files)
    requires p.files.Keys == files.Keys && forall f :: f in files ==> p.files[f] == files[f].template
    requires forall i :: 0 <= i < |p.functions| ==> FunctionOk(p.functions[i], files)
    requires forall i :: 0 <= i < |p.statements| ==> StatementOk(p.statements[i], files)
    requires forall i :: 0 <= i < |p.branches| ==> BranchOk(p.branches[i], files)
    ensures SelfContained(p)
    ensures forall i :: 0 <= i < |p.branches| ==>
      p.branches[i].filename in p.files && p.branches[i].index in p.files[p.branches[i].filename].branchLengths
      && |p.branches[i].ranges| == p.files[p.branches[i].filename].branchLengths[p.branches[i].index]
  {
    var own := WithTemplates(map[], p);
    TemplatesAt(map[], p);
    forall i | 0 <= i < |p.functions| ensures FunctionInBounds(p.functions[i], own) {
      assert FunctionOk(p.functions[i], files);
    }
    forall i | 0 <= i < |p.statements| ensures StatementInBounds(p.statements[i], own) {
      assert StatementOk(p.statements[i], files);
    }
    forall i | 0 <= i < |p.branches|
      ensures BranchInBounds(p.branches[i], own)
      ensures p.branches[i].filename in p.files && p.branches[i].index in p.files[p.branches[i].filename].branchLengths
      ensures |p.branches[i].ranges| == p.files[p.branches[i].filename].branchLengths[p.branches[i].index]
    {
      assert BranchOk(p.branches[i], files);
      assert FileOk(files[p.branches[i].filename]);
    }
  }
}
