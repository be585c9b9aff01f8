/** Where the entries of a template come from: each from the first call that stands for its key. */
module Entries {
  import opened Wrappers
  import opened CoverageModel
  import opened CoverageBuilder
  import opened AstWalk

  // What a call stands for in a file; a call that is not located there stands for nothing.
  ghost function KeyFor(getLoc: Locator, c: Call, f: string): Option<Key> {
    match c
    case AddFunction(_, loc, decl, _) =>
      if getLoc(loc).Some? && getLoc(decl).Some? && getLoc(loc).value.filename == f
      then Some(FunctionKey(getLoc(decl).value.loc)) else None
    case AddStatement(node, _) =>
      if getLoc(node).Some? && getLoc(node).value.filename == f
      then Some(StatementKey(getLoc(node).value.loc)) else None
    case AddBranch(branchType, node, arms) =>
      if getLoc(node).Some? && getLoc(node).value.filename == f && MappedArms(getLoc, arms) != []
      then Some(BranchKey(BranchLocations(getLoc, branchType, getLoc(node).value.loc, arms))) else None
  }

  // The call that first stands for a key.
  ghost predicate IsFirst(getLoc: Locator, calls: seq<Call>, k: nat, f: string, key: Key) {
    k < |calls| && KeyFor(getLoc, calls[k], f) == Some(key)
    && forall j :: 0 <= j < k ==> KeyFor(getLoc, calls[j], f) != Some(key)
  }

  // An entry with the attributes of a call.
  ghost predicate IsMadeBy(t: FileTemplate, key: Key, index: nat, getLoc: Locator, c: Call) {
    && IsEntry(t, key, index)
    && match c
       case AddFunction(name, loc, decl, _) =>
         && getLoc(loc).Some? && key.FunctionKey?
         && IsNewFunction(t, index, name, key.decl, getLoc(loc).value.loc)
       case AddStatement(_, _) => key.StatementKey?
       case AddBranch(branchType, node, _) =>
         && getLoc(node).Some? && key.BranchKey?
         && t.branchMap[index]
             == BranchEntry(getLoc(node).value.loc, branchType, key.locations, getLoc(node).value.loc.startLine)
  }

  // The first call that stands for a key gave the entry.
  ghost predicate FirstMakes(t: FileTemplate, key: Key, index: nat, getLoc: Locator, calls: seq<Call>, f: string) {
    exists k: nat :: IsFirst(getLoc, calls, k, f, key) && IsMadeBy(t, key, index, getLoc, calls[k])
  }

  ghost predicate SameKind(a: Key, b: Key) {
    (a.FunctionKey? <==> b.FunctionKey?) && (a.StatementKey? <==> b.StatementKey?)
  }

  /**
   The entries of a template come from calls and calls give entries: each entry has the attributes of the first call
   that stands for it, indexes follow the order of these calls, and every call that stands for something has its entry.
   */
  ghost predicate ComeFrom(t: FileTemplate, f: string, getLoc: Locator, calls: seq<Call>) {
    && (forall key, i :: IsEntry(t, key, i) ==> FirstMakes(t, key, i, getLoc, calls, f))
    && (forall a, b, i, j :: IsEntry(t, a, i) && IsEntry(t, b, j) && SameKind(a, b) && i < j ==>
          ComesBefore(a, b, f, getLoc, calls))
    && (forall k: nat :: k < |calls| && KeyFor(getLoc, calls[k], f).Some? ==>
          exists i :: IsEntry(t, KeyFor(getLoc, calls[k], f).value, i))
  }

  // One key's first call comes before another's.
  ghost predicate ComesBefore(a: Key, b: Key, f: string, getLoc: Locator, calls: seq<Call>) {
    forall k: nat, l: nat :: IsFirst(getLoc, calls, k, f, a) && IsFirst(getLoc, calls, l, f, b) ==> k < l
  }

  // ----- one call at a time -----

  // What the builder knows of a file after some calls.
  ghost predicate SeenFrom(file: FileState, f: string, getLoc: Locator, calls: seq<Call>) {
    && (forall key :: key in file.seen ==> FirstMakes(file.template, key, file.seen[key], getLoc, calls, f))
    && (forall k: nat :: k < |calls| && KeyFor(getLoc, calls[k], f).Some? ==>
          KeyFor(getLoc, calls[k], f).value in file.seen)
  }

  ghost predicate IndexedInOrder(file: FileState, f: string, getLoc: Locator, calls: seq<Call>) {
    forall a, b :: a in file.seen && b in file.seen && SameKind(a, b) && file.seen[a] < file.seen[b] ==>
      ComesBefore(a, b, f, getLoc, calls)
  }

  // What a call does to one file.
  ghost predicate Enters(file: FileState, after: FileState, f: string, getLoc: Locator, c: Call) {
    match KeyFor(getLoc, c, f)
    case None => after == file
    case Some(key) =>
      && Grows(file, after) && Entered(file, after, key, Index(file, key, KindCount(file.template, key)))
      && (key !in file.seen ==> IsMadeBy(after.template, key, KindCount(file.template, key), getLoc, c))
  }

  lemma {:induction false} FirstStays(getLoc: Locator, calls: seq<Call>, c: Call, k: nat, f: string, key: Key)
    ensures IsFirst(getLoc, calls, k, f, key) ==> IsFirst(getLoc, calls + [c], k, f, key)
    ensures IsFirst(getLoc, calls + [c], k, f, key) && k < |calls| ==> IsFirst(getLoc, calls, k, f, key)
  {
    var more := calls + [c];
    assert forall j :: 0 <= j < |calls| ==> more[j] == calls[j];
  }

  // Entries stay what they are when the file grows.
  lemma {:induction false} MadeStays(file: FileState, after: FileState, key: Key, index: nat, getLoc: Locator, c: Call)
    requires Grows(file, after) && IsMadeBy(file.template, key, index, getLoc, c) && FileOk(file) && FileOk(after)
    ensures IsMadeBy(after.template, key, index, getLoc, c)
  {
    if c.AddFunction? {
      NamedStays(file.template.fnMap, file.template.functionCount, after.template.fnMap, index, c.name);
    }
  }

  lemma {:induction false} NamedStays(before: map<nat, FunctionEntry>, count: nat, after: map<nat, FunctionEntry>,
      index: nat, name: string)
    requires index in before && IsNamed(before, index, name) && forall i: nat :: i in before <==> i < count
    requires forall i :: i in before ==> i in after && after[i] == before[i]
    ensures IsNamed(after, index, name)
  {
    if j :| j in before && j < index && before[j].name == name {
      assert j in after && after[j].name == name;
    }
  }

  lemma {:induction false} OldKeyStays(file: FileState, after: FileState, f: string, getLoc: Locator, calls: seq<Call>,
      c: Call, key: Key, index: nat)
    requires FirstMakes(file.template, key, index, getLoc, calls, f)
    requires Grows(file, after) && FileOk(file) && FileOk(after)
    ensures FirstMakes(after.template, key, index, getLoc, calls + [c], f)
  {
    var k: nat :| IsFirst(getLoc, calls, k, f, key) && IsMadeBy(file.template, key, index, getLoc, calls[k]);
    FirstStays(getLoc, calls, c, k, f, key);
    MadeStays(file, after, key, index, getLoc, calls[k]);
    assert (calls + [c])[k] == calls[k];
  }

  lemma {:induction false} NewKeyMade(t: FileTemplate, f: string, getLoc: Locator, calls: seq<Call>, c: Call, key: Key,
      index: nat)
    requires forall k: nat :: k < |calls| ==> KeyFor(getLoc, calls[k], f) != Some(key)
    requires KeyFor(getLoc, c, f) == Some(key) && IsMadeBy(t, key, index, getLoc, c)
    ensures FirstMakes(t, key, index, getLoc, calls + [c], f)
  {
    var more := calls + [c];
    assert forall j :: 0 <= j < |calls| ==> more[j] == calls[j];
    assert IsFirst(getLoc, more, |calls|, f, key) && more[|calls|] == c;
  }

  lemma {:induction false} EntersGrows(file: FileState, after: FileState, f: string, getLoc: Locator, c: Call)
    requires Enters(file, after, f, getLoc, c)
    ensures Grows(file, after)
    ensures after.seen.Keys == file.seen.Keys + if KeyFor(getLoc, c, f).Some? then {KeyFor(getLoc, c, f).value} else {}
    ensures forall key :: key in file.seen ==> after.seen[key] == file.seen[key]
  {
  }

  lemma {:induction false} SeenNext(file: FileState, after: FileState, f: string, getLoc: Locator, calls: seq<Call>,
      c: Call)
    requires SeenFrom(file, f, getLoc, calls) && Enters(file, after, f, getLoc, c) && FileOk(file) && FileOk(after)
    ensures SeenFrom(after, f, getLoc, calls + [c])
  {
    var more := calls + [c];
    EntersGrows(file, after, f, getLoc, c);
    forall key | key in after.seen ensures FirstMakes(after.template, key, after.seen[key], getLoc, more, f) {
      if key in file.seen {
        OldKeyStays(file, after, f, getLoc, calls, c, key, file.seen[key]);
      } else {
        NewKeyMade(after.template, f, getLoc, calls, c, key, after.seen[key]);
      }
    }
    forall k: nat | k < |more| && KeyFor(getLoc, more[k], f).Some?
      ensures KeyFor(getLoc, more[k], f).value in after.seen
    {
      if k < |calls| {
        assert more[k] == calls[k];
      }
    }
  }

  lemma {:induction false} OldOrderStays(a: Key, b: Key, f: string, getLoc: Locator, calls: seq<Call>, c: Call)
    requires ComesBefore(a, b, f, getLoc, calls)
    requires exists k: nat :: k < |calls| && KeyFor(getLoc, calls[k], f) == Some(a)
    requires exists k: nat :: k < |calls| && KeyFor(getLoc, calls[k], f) == Some(b)
    ensures ComesBefore(a, b, f, getLoc, calls + [c])
  {
    var more := calls + [c];
    forall k: nat, l: nat | IsFirst(getLoc, more, k, f, a) && IsFirst(getLoc, more, l, f, b) ensures k < l {
      OldFirst(f, getLoc, calls, c, a, k);
      OldFirst(f, getLoc, calls, c, b, l);
    }
  }

  // The first call for a key that was there before is one of those before.
  lemma {:induction false} OldFirst(f: string, getLoc: Locator, calls: seq<Call>, c: Call, key: Key, k: nat)
    requires IsFirst(getLoc, calls + [c], k, f, key)
    requires exists j: nat :: j < |calls| && KeyFor(getLoc, calls[j], f) == Some(key)
    ensures IsFirst(getLoc, calls, k, f, key)
  {
    var j: nat :| j < |calls| && KeyFor(getLoc, calls[j], f) == Some(key);
    assert (calls + [c])[j] == calls[j];
    FirstStays(getLoc, calls, c, k, f, key);
  }

  // A new key's first call is the last one.
  lemma {:induction false} NewComesLast(a: Key, b: Key, f: string, getLoc: Locator, calls: seq<Call>, c: Call)
    requires forall k: nat :: k < |calls| ==> KeyFor(getLoc, calls[k], f) != Some(b)
    requires exists k: nat :: k < |calls| && KeyFor(getLoc, calls[k], f) == Some(a)
    ensures ComesBefore(a, b, f, getLoc, calls + [c])
  {
    var more := calls + [c];
    assert forall j :: 0 <= j < |calls| ==> more[j] == calls[j];
    forall k: nat, l: nat | IsFirst(getLoc, more, k, f, a) && IsFirst(getLoc, more, l, f, b) ensures k < l {
      OldFirst(f, getLoc, calls, c, a, k);
    }
  }

  lemma {:induction false} SeenHasCall(file: FileState, f: string, getLoc: Locator, calls: seq<Call>, key: Key)
    requires SeenFrom(file, f, getLoc, calls) && key in file.seen
    ensures exists k: nat :: k < |calls| && KeyFor(getLoc, calls[k], f) == Some(key)
  {
    assert FirstMakes(file.template, key, file.seen[key], getLoc, calls, f);
  }

  // Whatever is new in its kind has the greatest index.
  lemma {:induction false} NewIsGreatest(file: FileState, key: Key, other: Key)
    requires FileOk(file) && other in file.seen && SameKind(key, other)
    ensures file.seen[other] < KindCount(file.template, key)
  {
    match other
    case FunctionKey(_) =>
    case StatementKey(_) =>
    case BranchKey(_) =>
  }

  lemma {:induction false} OrderNext(file: FileState, after: FileState, f: string, getLoc: Locator, calls: seq<Call>,
      c: Call)
    requires SeenFrom(file, f, getLoc, calls) && IndexedInOrder(file, f, getLoc, calls)
    requires Enters(file, after, f, getLoc, c) && FileOk(file)
    ensures IndexedInOrder(after, f, getLoc, calls + [c])
  {
    EntersGrows(file, after, f, getLoc, c);
    forall a, b | a in after.seen && b in after.seen && SameKind(a, b) && after.seen[a] < after.seen[b]
      ensures ComesBefore(a, b, f, getLoc, calls + [c])
    {
      if a in file.seen {
        SeenHasCall(file, f, getLoc, calls, a);
        if b in file.seen {
          SeenHasCall(file, f, getLoc, calls, b);
          OldOrderStays(a, b, f, getLoc, calls, c);
        } else {
          NewComesLast(a, b, f, getLoc, calls, c);
        }
      } else {
        assert b != a;
        NewIsGreatest(file, a, b);
        assert false;
      }
    }
  }

  // ----- all calls -----

  ghost predicate HasEntered(file: FileState, f: string, getLoc: Locator, calls: seq<Call>) {
    SeenFrom(file, f, getLoc, calls) && IndexedInOrder(file, f, getLoc, calls)
  }

  lemma {:induction false} HasEnteredNext(file: FileState, after: FileState, f: string, getLoc: Locator,
      calls: seq<Call>, c: Call)
    requires HasEntered(file, f, getLoc, calls) && Enters(file, after, f, getLoc, c) && FileOk(file) && FileOk(after)
    ensures HasEntered(after, f, getLoc, calls + [c])
  {
    SeenNext(file, after, f, getLoc, calls, c);
    OrderNext(file, after, f, getLoc, calls, c);
  }

  lemma {:induction false} EntryIsSeen(file: FileState, key: Key, index: nat)
    requires FileOk(file)
    ensures IsEntry(file.template, key, index) <==> key in file.seen && file.seen[key] == index
  {
  }

  lemma {:induction false} EnteredComesFrom(file: FileState, f: string, getLoc: Locator, calls: seq<Call>)
    requires FileOk(file) && HasEntered(file, f, getLoc, calls)
    ensures ComeFrom(file.template, f, getLoc, calls)
  {
    forall key, i ensures IsEntry(file.template, key, i) <==> key in file.seen && file.seen[key] == i {
      EntryIsSeen(file, key, i);
    }
  }

  // What a call does to all files.
  ghost predicate AllEnter(files: map<string, FileState>, after: map<string, FileState>, getLoc: Locator, c: Call) {
    files.Keys == after.Keys && forall f :: f in files ==> Enters(files[f], after[f], f, getLoc, c)
  }

  ghost predicate AllHaveEntered(files: map<string, FileState>, getLoc: Locator, calls: seq<Call>) {
    forall f :: f in files ==> HasEntered(files[f], f, getLoc, calls)
  }

  lemma {:induction false} NothingEntered(files: map<string, FileState>, getLoc: Locator)
    requires forall f :: f in files ==> files[f].seen == map[]
    ensures AllHaveEntered(files, getLoc, [])
  {
  }

  lemma {:induction false} AllEnteredNext(files: map<string, FileState>, after: map<string, FileState>,
      getLoc: Locator, calls: seq<Call>, i: nat)
    requires FilesOk(files) && FilesOk(after) && i < |calls|
    requires AllHaveEntered(files, getLoc, calls[..i]) && AllEnter(files, after, getLoc, calls[i])
    ensures AllHaveEntered(after, getLoc, calls[..i + 1])
  {
    assert calls[..i + 1] == calls[..i] + [calls[i]];
    forall f | f in after ensures HasEntered(after[f], f, getLoc, calls[..i + 1]) {
      HasEnteredNext(files[f], after[f], f, getLoc, calls[..i], calls[i]);
    }
  }

  lemma {:induction false} OneFileEnters(files: map<string, FileState>, after: map<string, FileState>, path: string,
      getLoc: Locator, c: Call)
    requires GrowsAt(files, after, path) && Enters(files[path], after[path], path, getLoc, c)
    requires forall f :: f != path ==> KeyFor(getLoc, c, f).None?
    ensures AllEnter(files, after, getLoc, c)
  {
  }

  lemma {:induction false} FunctionEnters(files: map<string, FileState>, after: map<string, FileState>,
      getLoc: Locator, c: Call, ds: seq<Descriptor>, more: seq<Descriptor>)
    requires c.AddFunction? && FunctionAdded(getLoc, c.name, c.loc, c.decl, c.coverage, files, after, ds, more)
    ensures AllEnter(files, after, getLoc, c)
  {
    if getLoc(c.loc).Some? && getLoc(c.decl).Some? && getLoc(c.loc).value.filename in files {
      OneFileEnters(files, after, getLoc(c.loc).value.filename, getLoc, c);
    }
  }

  lemma {:induction false} StatementEnters(files: map<string, FileState>, after: map<string, FileState>,
      getLoc: Locator, c: Call, ds: seq<Descriptor>, more: seq<Descriptor>)
    requires c.AddStatement? && StatementAdded(getLoc, c.node, c.coverage, files, after, ds, more)
    ensures AllEnter(files, after, getLoc, c)
  {
    if getLoc(c.node).Some? && getLoc(c.node).value.filename in files {
      OneFileEnters(files, after, getLoc(c.node).value.filename, getLoc, c);
    }
  }

  lemma {:induction false} BranchEnters(files: map<string, FileState>, after: map<string, FileState>,
      getLoc: Locator, c: Call, ds: seq<BranchDescriptor>, more: seq<BranchDescriptor>)
    requires c.AddBranch? && BranchAdded(getLoc, c.branchType, c.node, c.arms, files, after, ds, more)
    ensures AllEnter(files, after, getLoc, c)
  {
    if getLoc(c.node).Some? && getLoc(c.node).value.filename in files && MappedArms(getLoc, c.arms) != [] {
      OneFileEnters(files, after, getLoc(c.node).value.filename, getLoc, c);
    }
  }

  ghost predicate AllComeFrom(files: map<string, FileTemplate>, getLoc: Locator, calls: seq<Call>) {
    forall f :: f in files ==> files[f].path == f && ComeFrom(files[f], f, getLoc, calls)
  }

  lemma {:induction false} AllEnteredComeFrom(files: map<string, FileState>, getLoc: Locator, calls: seq<Call>)
    requires FilesOk(files) && AllHaveEntered(files, getLoc, calls)
    ensures AllComeFrom(Templates(files), getLoc, calls)
  {
    forall f | f in files ensures ComeFrom(files[f].template, f, getLoc, calls) {
      EnteredComesFrom(files[f], f, getLoc, calls);
    }
  }
}
