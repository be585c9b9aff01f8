/** Planning a watch rerun: what changed in the file set, what to run again, what to remember. */
module WatchRerunPlanner {
  import opened Protocol
  import opened Wrappers
  import StableSort

  datatype ProjectEntry = ProjectEntry(name: string, testFiles: seq<string>)

  datatype Update = Update(currentTestFiles: seq<TestFile>, deletedTestPaths: seq<string>)

  datatype Decision = Rerun(testPaths: seq<string>) | Empty | Idle

  datatype Plan = Plan(fileSetUpdate: Option<Update>, decision: Decision)

  // ----- sorted keys -----

  function Key(f: TestFile): string {
    f.projectName + ":" + f.testPath
  }

  function Keys(files: seq<TestFile>): seq<string> {
    StableSort.Map(Key, files)
  }

  predicate TextLeq(s: string, t: string) {
    s == [] || (t != [] && (s[0] < t[0] || (s[0] == t[0] && TextLeq(s[1..], t[1..]))))
  }

  lemma {:induction false} TextLeqTotal(s: string, t: string)
    ensures TextLeq(s, t) || TextLeq(t, s)
    ensures TextLeq(s, t) && TextLeq(t, s) ==> s == t
  {
    if s != [] && t != [] && s[0] == t[0] {
      TextLeqTotal(s[1..], t[1..]);
      assert s == [s[0]] + s[1..] && t == [t[0]] + t[1..];
    }
  }

  lemma {:induction false} TextLeqTransitive(s: string, t: string, u: string)
    requires TextLeq(s, t) && TextLeq(t, u)
    ensures TextLeq(s, u)
  {
    if s != [] && s[0] == t[0] && t[0] == u[0] {
      TextLeqTransitive(s[1..], t[1..], u[1..]);
    }
  }

  function Sorted(texts: seq<string>): seq<string> {
    StableSort.Sort(texts, TextLeq)
  }

  lemma {:induction false} SortedIsSorted(texts: seq<string>)
    ensures StableSort.StrictlySorted(Sorted(texts), TextLeq) && multiset(Sorted(texts)) == multiset(texts)
  {
    forall s, t ensures TextLeq(s, t) || TextLeq(t, s) {
      TextLeqTotal(s, t);
    }
    forall s, t, u | TextLeq(s, t) && TextLeq(t, u) ensures TextLeq(s, u) {
      TextLeqTransitive(s, t, u);
    }
    StableSort.SortIsStable(texts, TextLeq, TextLeq);
    StableSort.SortKeepsElements(texts, TextLeq);
  }

  lemma {:induction false} LastIsGreatest(s: seq<string>, x: string)
    requires StableSort.StrictlySorted(s, TextLeq) && x in s
    ensures TextLeq(x, s[|s| - 1])
  {
    var i :| 0 <= i < |s| && s[i] == x;
    if i == |s| - 1 {
      TextLeqTotal(x, x);
    }
  }

  lemma {:induction false} SameLast(s: seq<string>, t: seq<string>)
    requires StableSort.StrictlySorted(s, TextLeq) && StableSort.StrictlySorted(t, TextLeq)
    requires s != [] && t != [] && s[|s| - 1] in t && t[|t| - 1] in s
    ensures s[|s| - 1] == t[|t| - 1]
  {
    LastIsGreatest(s, t[|t| - 1]);
    LastIsGreatest(t, s[|s| - 1]);
    TextLeqTotal(s[|s| - 1], t[|t| - 1]);
  }

  lemma {:induction false} SortedFront(s: seq<string>)
    requires StableSort.StrictlySorted(s, TextLeq) && s != []
    ensures StableSort.StrictlySorted(s[..|s| - 1], TextLeq)
    ensures multiset(s[..|s| - 1]) == multiset(s) - multiset{s[|s| - 1]}
  {
    StableSort.WithoutOne(s, |s| - 1);
    assert s[..|s| - 1] + s[|s|..] == s[..|s| - 1];
  }

  lemma {:induction false} SortedUnique(s: seq<string>, t: seq<string>)
    requires StableSort.StrictlySorted(s, TextLeq) && StableSort.StrictlySorted(t, TextLeq)
    requires multiset(s) == multiset(t)
    ensures s == t
  {
    StableSort.SameElements(s, t);
    if s != [] {
      var n := |s| - 1;
      SameLast(s, t);
      SortedFront(s);
      SortedFront(t);
      SortedUnique(s[..n], t[..n]);
      assert s == s[..n] + [s[n]] && t == t[..n] + [t[n]];
    }
  }

  /** The serialized comparison is a comparison of multisets of keys. */
  lemma {:induction false} SameSortedIff(s: seq<string>, t: seq<string>)
    ensures Sorted(s) == Sorted(t) <==> multiset(s) == multiset(t)
  {
    SortedIsSorted(s);
    SortedIsSorted(t);
    if multiset(s) == multiset(t) {
      SortedUnique(Sorted(s), Sorted(t));
    }
  }

  // One file's project name runs on into the other's path.
  ghost predicate RunsOn(f: TestFile, g: TestFile) {
    exists rest :: g.projectName == f.projectName + ":" + rest && f.testPath == rest + ":" + g.testPath
  }

  lemma {:induction false} LongerNameRunsOn(f: TestFile, g: TestFile)
    requires Key(f) == Key(g) && |f.projectName| < |g.projectName|
    ensures RunsOn(f, g)
  {
    var n, m := |f.projectName|, |g.projectName|;
    var rest := g.projectName[n + 1..];
    assert Key(f)[..n] == f.projectName && Key(g)[..n] == g.projectName[..n];
    assert Key(f)[n] == ':' && Key(g)[n] == g.projectName[n];
    assert g.projectName == g.projectName[..n] + [g.projectName[n]] + rest;
    assert f.testPath == Key(f)[n + 1..] == Key(g)[n + 1..] == rest + ":" + g.testPath;
    assert g.projectName == f.projectName + ":" + rest;
  }

  /** Two different files share a key exactly when a project name with a colon runs on into the other's path. */
  lemma {:induction false} KeysCollideIff(f: TestFile, g: TestFile)
    ensures Key(f) == Key(g) <==> f == g || RunsOn(f, g) || RunsOn(g, f)
  {
    if Key(f) == Key(g) {
      if |f.projectName| < |g.projectName| {
        LongerNameRunsOn(f, g);
      } else if |g.projectName| < |f.projectName| {
        LongerNameRunsOn(g, f);
      } else {
        var n := |f.projectName|;
        assert f.projectName == Key(f)[..n] == Key(g)[..n] == g.projectName;
        assert f.testPath == Key(f)[n + 1..] == Key(g)[n + 1..] == g.testPath;
      }
    }
    if RunsOn(f, g) {
      var rest :| g.projectName == f.projectName + ":" + rest && f.testPath == rest + ":" + g.testPath;
      assert Key(f) == f.projectName + ":" + rest + ":" + g.testPath == Key(g);
    }
    if RunsOn(g, f) {
      var rest :| f.projectName == g.projectName + ":" + rest && g.testPath == rest + ":" + f.testPath;
      assert Key(g) == g.projectName + ":" + rest + ":" + f.testPath == Key(f);
    }
  }

  // ----- files behind the keys -----

  // Files of the given projects at paths of some kind.
  ghost predicate FilesOf(files: seq<TestFile>, names: set<string>, isPath: string -> bool) {
    forall f :: f in files ==> f.projectName in names && isPath(f.testPath)
  }

  // What one name runs on into by a colon is, followed by a path, still a path.
  ghost predicate NamesCollide(names: set<string>, isPath: string -> bool) {
    exists m, rest, p :: m in names && m + ":" + rest in names && isPath(p) && isPath(rest + ":" + p)
  }

  ghost predicate SameKeys(s: seq<TestFile>, t: seq<TestFile>) {
    multiset(Keys(s)) == multiset(Keys(t))
  }

  lemma {:induction false} RunningOnCollides(f: TestFile, g: TestFile, names: set<string>, isPath: string -> bool)
    requires RunsOn(f, g) && FilesOf([f, g], names, isPath)
    ensures NamesCollide(names, isPath)
  {
    var rest :| g.projectName == f.projectName + ":" + rest && f.testPath == rest + ":" + g.testPath;
    assert f in [f, g] && g in [f, g];
    assert isPath(g.testPath) && isPath(rest + ":" + g.testPath);
  }

  lemma {:induction false} KeyDecidesFile(f: TestFile, g: TestFile, names: set<string>, isPath: string -> bool)
    requires !NamesCollide(names, isPath) && FilesOf([f, g], names, isPath) && Key(f) == Key(g)
    ensures f == g
  {
    KeysCollideIff(f, g);
    if RunsOn(f, g) {
      RunningOnCollides(f, g, names, isPath);
    }
    if RunsOn(g, f) {
      assert FilesOf([g, f], names, isPath);
      RunningOnCollides(g, f, names, isPath);
    }
  }

  // The file of a list that has the key of another list's last file.
  lemma {:induction false} WithLastKey(s: seq<TestFile>, t: seq<TestFile>) returns (i: nat)
    requires SameKeys(s, t) && s != []
    ensures i < |t| && Key(t[i]) == Key(s[|s| - 1])
    ensures SameKeys(s[..|s| - 1], t[..i] + t[i + 1..])
  {
    var n := |s| - 1;
    StableSort.SameElements(Keys(s), Keys(t));
    assert Keys(s)[n] == Key(s[n]) && Key(s[n]) in Keys(t);
    var j :| 0 <= j < |Keys(t)| && Keys(t)[j] == Key(s[n]);
    i := j;
    StableSort.MapWithoutOne(Key, s, n);
    StableSort.MapWithoutOne(Key, t, i);
    assert s[..n] + s[n + 1..] == s[..n];
  }

  lemma {:induction false} KeysDecide(s: seq<TestFile>, t: seq<TestFile>, names: set<string>, isPath: string -> bool)
    requires !NamesCollide(names, isPath) && FilesOf(s, names, isPath) && FilesOf(t, names, isPath) && SameKeys(s, t)
    ensures multiset(s) == multiset(t)
  {
    if s == [] {
      StableSort.SameElements(Keys(s), Keys(t));
    } else {
      var n := |s| - 1;
      var i := WithLastKey(s, t);
      assert s[n] in s && t[i] in t;
      KeyDecidesFile(s[n], t[i], names, isPath);
      KeysDecide(s[..n], t[..i] + t[i + 1..], names, isPath);
      StableSort.WithoutOne(s, n);
      StableSort.WithoutOne(t, i);
      assert s[..n] + s[n + 1..] == s[..n];
      StableSort.PutBack(multiset(s), multiset(t), s[n]);
    }
  }

  // Two single files that collide.
  lemma {:induction false} CollidingFiles(names: set<string>, isPath: string -> bool) returns (f: TestFile, g: TestFile)
    requires NamesCollide(names, isPath)
    ensures f != g && FilesOf([f], names, isPath) && FilesOf([g], names, isPath) && SameKeys([f], [g])
  {
    var m, rest, p :| m in names && m + ":" + rest in names && isPath(p) && isPath(rest + ":" + p);
    f, g := TestFile(rest + ":" + p, m), TestFile(p, m + ":" + rest);
    assert |f.projectName| != |g.projectName|;
    assert RunsOn(f, g);
    KeysCollideIff(f, g);
    assert Keys([f]) == [Key(f)] == Keys([g]);
  }

  ghost predicate KeysTellFiles(names: set<string>, isPath: string -> bool) {
    forall s, t :: FilesOf(s, names, isPath) && FilesOf(t, names, isPath) && SameKeys(s, t) ==>
        multiset(s) == multiset(t)
  }

  lemma {:induction false} KeysTellFilesIff(names: set<string>, isPath: string -> bool)
    ensures KeysTellFiles(names, isPath) <==> !NamesCollide(names, isPath)
  {
    if NamesCollide(names, isPath) {
      var f, g := CollidingFiles(names, isPath);
      var s: seq<TestFile>, t: seq<TestFile> := [f], [g];
      assert f in multiset(s) && f !in multiset(t);
    } else {
      forall s, t | FilesOf(s, names, isPath) && FilesOf(t, names, isPath) && SameKeys(s, t)
        ensures multiset(s) == multiset(t)
      {
        KeysDecide(s, t, names, isPath);
      }
    }
  }

  const ANY_PATH: string -> bool := _ => true

  const ABSOLUTE: string -> bool := path => path != [] && path[0] == '/'

  // No name starts with another one and the joint.
  ghost predicate NoneRunsOn(names: set<string>, joint: string) {
    forall m, n :: m in names && n in names ==> !(m + joint <= n)
  }

  /**
   For the files of given projects at any paths, equal keys mean equal files, up to order, exactly when no project's
   name runs on from another's by a colon. Colons as such do no harm.
   */
  lemma {:induction false} KeysDecideIff(names: set<string>)
    ensures KeysTellFiles(names, ANY_PATH) <==> NoneRunsOn(names, ":")
  {
    KeysTellFilesIff(names, ANY_PATH);
    if m, n :| m in names && n in names && m + ":" <= n {
      assert n == m + ":" + n[|m| + 1..];
      assert ANY_PATH("") && ANY_PATH(n[|m| + 1..] + ":" + "");
    }
    if NamesCollide(names, ANY_PATH) {
      var m, rest, p :| m in names && m + ":" + rest in names && ANY_PATH(p) && ANY_PATH(rest + ":" + p);
      assert m + ":" <= m + ":" + rest;
    }
  }

  /** At absolute POSIX paths only a name that runs on by a colon and a slash does harm. */
  lemma {:induction false} AbsoluteKeysDecideIff(names: set<string>)
    ensures KeysTellFiles(names, ABSOLUTE) <==> NoneRunsOn(names, ":/")
  {
    KeysTellFilesIff(names, ABSOLUTE);
    if m, n :| m in names && n in names && m + ":/" <= n {
      var rest := n[|m| + 1..];
      assert n == m + ":" + rest && rest[0] == '/';
      assert ABSOLUTE("/") && ABSOLUTE(rest + ":" + "/");
    }
    if NamesCollide(names, ABSOLUTE) {
      var m, rest, p :| m in names && m + ":" + rest in names && ABSOLUTE(p) && ABSOLUTE(rest + ":" + p);
      assert rest != [] && rest[0] == '/' && (m + ":" + rest)[|m| + 1] == '/';
      assert m + ":/" <= m + ":" + rest;
    }
  }

  /**
   So with such names two lists of files at absolute paths have the same keys exactly when they are the same files.
   */
  lemma {:induction false} KeysDecideFiles(s: seq<TestFile>, t: seq<TestFile>, names: set<string>)
    requires NoneRunsOn(names, ":/") && FilesOf(s, names, ABSOLUTE) && FilesOf(t, names, ABSOLUTE)
    ensures SameKeys(s, t) <==> multiset(s) == multiset(t)
  {
    AbsoluteKeysDecideIff(names);
    if multiset(s) == multiset(t) {
      StableSort.MapSame(Key, s, t);
    }
  }

  // ----- the plan -----

  function Paths(files: seq<TestFile>): seq<string> {
    seq(|files|, i requires 0 <= i < |files| => files[i].testPath)
  }

  // The distinct texts in order of first appearance.
  function Distinct(texts: seq<string>): seq<string> {
    if texts == [] then [] else
      var front, last := Distinct(texts[..|texts| - 1]), texts[|texts| - 1];
      if last in front then front else front + [last]
  }

  lemma {:induction false} DistinctKeepsAll(texts: seq<string>)
    ensures forall i, j :: 0 <= i < j < |Distinct(texts)| ==> Distinct(texts)[i] != Distinct(texts)[j]
    ensures forall t :: t in Distinct(texts) <==> t in texts
  {
    if texts != [] {
      DistinctKeepsAll(texts[..|texts| - 1]);
      assert texts == texts[..|texts| - 1] + [texts[|texts| - 1]];
    }
  }

  function TestPaths(normalize: string -> string, name: string, testFiles: seq<string>): seq<TestFile> {
    seq(|testFiles|, i requires 0 <= i < |testFiles| => TestFile(normalize(testFiles[i]), name))
  }

  function CollectWatchTestFiles(normalize: string -> string, entries: seq<ProjectEntry>): seq<TestFile> {
    if entries == [] then [] else
      TestPaths(normalize, entries[0].name, entries[0].testFiles) + CollectWatchTestFiles(normalize, entries[1..])
  }

  // A project lists the file at some place.
  ghost predicate IsListed(normalize: string -> string, entry: ProjectEntry, j: nat, f: TestFile) {
    j < |entry.testFiles| && f.projectName == entry.name && f.testPath == normalize(entry.testFiles[j])
  }

  /** The files of a watch session: every path of every project, normalised, under the project's name. */
  lemma {:induction false} CollectedAre(normalize: string -> string, entries: seq<ProjectEntry>, f: TestFile)
    ensures f in CollectWatchTestFiles(normalize, entries) <==>
      exists i: nat, j: nat :: i < |entries| && IsListed(normalize, entries[i], j, f)
  {
    if entries != [] {
      var rest := entries[1..];
      var own := TestPaths(normalize, entries[0].name, entries[0].testFiles);
      CollectedAre(normalize, rest, f);
      if f in own {
        var j :| 0 <= j < |own| && own[j] == f;
        assert IsListed(normalize, entries[0], j, f);
      }
      if i: nat, j: nat :| i < |rest| && IsListed(normalize, rest[i], j, f) {
        assert entries[i + 1] == rest[i];
      }
      if i: nat, j: nat :| i < |entries| && IsListed(normalize, entries[i], j, f) {
        if i == 0 {
          assert own[j] == f;
        } else {
          assert rest[i - 1] == entries[i];
        }
      }
    }
  }

  function NormalizeTestFiles(normalize: string -> string, files: seq<TestFile>): seq<TestFile> {
    seq(|files|, i requires 0 <= i < |files| => files[i].(testPath := normalize(files[i].testPath)))
  }

  function Missing(paths: seq<string>, current: seq<string>): seq<string> {
    if paths == [] then [] else (if paths[0] in current then [] else [paths[0]]) + Missing(paths[1..], current)
  }

  function Matching(files: seq<TestFile>, affected: set<string>): seq<TestFile> {
    if files == [] then []
        else (if files[0].testPath in affected then [files[0]] else []) + Matching(files[1..], affected)
  }

  lemma {:induction false} MissingAre(paths: seq<string>, current: seq<string>)
    ensures forall p :: p in Missing(paths, current) <==> p in paths && p !in current
  {
    if paths != [] {
      MissingAre(paths[1..], current);
    }
  }

  lemma {:induction false} MatchingAre(files: seq<TestFile>, affected: set<string>)
    ensures forall f :: f in Matching(files, affected) <==> f in files && f.testPath in affected
  {
    if files != [] {
      MatchingAre(files[1..], affected);
    }
  }

  lemma {:induction false} PathsOf(files: seq<TestFile>)
    ensures forall p :: p in Paths(files) <==> exists f :: f in files && f.testPath == p
  {
    forall p | p in Paths(files) ensures exists f :: f in files && f.testPath == p {
      var i :| 0 <= i < |files| && Paths(files)[i] == p;
      assert files[i] in files;
    }
    forall f | f in files ensures f.testPath in Paths(files) {
      var i :| 0 <= i < |files| && files[i] == f;
      assert Paths(files)[i] == f.testPath;
    }
  }

  predicate FileSetChanged(current: seq<TestFile>, previous: seq<TestFile>) {
    Sorted(Keys(current)) != Sorted(Keys(previous))
  }

  function PlanWatchRerun(normalize: string -> string, entries: seq<ProjectEntry>, previousTestFiles: seq<TestFile>,
      affected: seq<string>): Plan
  {
    var current := CollectWatchTestFiles(normalize, entries);
    var previous := NormalizeTestFiles(normalize, previousTestFiles);
    if FileSetChanged(current, previous) then
      var update := Update(current, Missing(Paths(previous), Paths(current)));
      if current == [] then Plan(Some(update), Empty) else Plan(Some(update), Rerun(Distinct(Paths(current))))
    else
      var affectedPathSet := set a | a in affected :: normalize(a);
      var matched := Matching(current, affectedPathSet);
      if matched == [] then Plan(None, Idle) else Plan(None, Rerun(Distinct(Paths(matched))))
  }

  // ----- what a plan promises -----

  ghost predicate IsCurrent(files: seq<TestFile>, path: string) {
    exists f :: f in files && f.testPath == path
  }

  ghost predicate IsAffected(normalize: string -> string, affected: seq<string>, path: string) {
    exists a :: a in affected && normalize(a) == path
  }

  /**
   Paths to run again are distinct and current. They are all of the current ones when the set of keys changed, and
   exactly the affected ones among them when it did not; so no affected current file is ever left out.
   */
  lemma {:induction false} RerunPaths(normalize: string -> string, entries: seq<ProjectEntry>, previous: seq<TestFile>,
      affected: seq<string>)
    ensures var plan, current :=
        PlanWatchRerun(normalize, entries, previous, affected), CollectWatchTestFiles(normalize, entries);
      && (plan.decision.Rerun? ==>
            && (forall i, j :: 0 <= i < j < |plan.decision.testPaths| ==>
                plan.decision.testPaths[i] != plan.decision.testPaths[j])
            && (forall p :: p in plan.decision.testPaths <==>
                  IsCurrent(current, p) && (plan.fileSetUpdate.Some? || IsAffected(normalize, affected, p))))
      && (forall p :: IsCurrent(current, p) && IsAffected(normalize, affected, p) ==>
          plan.decision.Rerun? && p in plan.decision.testPaths)
  {
    var current := CollectWatchTestFiles(normalize, entries);
    var affectedPathSet := set a | a in affected :: normalize(a);
    var matched := Matching(current, affectedPathSet);
    MatchingAre(current, affectedPathSet);
    DistinctKeepsAll(Paths(current));
    DistinctKeepsAll(Paths(matched));
    PathsOf(current);
    PathsOf(matched);
    forall p ensures IsAffected(normalize, affected, p) <==> p in affectedPathSet {
    }
    forall p | IsCurrent(current, p) && p in affectedPathSet ensures p in Paths(matched) {
      var f :| f in current && f.testPath == p;
      assert f in matched;
    }
  }

  /**
   An update is planned exactly when the multiset of keys changed, with the paths that went away. Idle means neither
   that nor an affected current file, and empty means that nothing is left to run.
   */
  lemma {:induction false} UpdatesAndIdle(normalize: string -> string, entries: seq<ProjectEntry>,
      previous: seq<TestFile>, affected: seq<string>)
    ensures var plan, current, before :=
        PlanWatchRerun(normalize, entries, previous, affected), CollectWatchTestFiles(normalize, entries),
            NormalizeTestFiles(normalize, previous);
      && (plan.fileSetUpdate.Some? <==> multiset(Keys(current)) != multiset(Keys(before)))
      && (plan.fileSetUpdate.Some? ==>
            && plan.fileSetUpdate.value.currentTestFiles == current
            && forall p :: p in plan.fileSetUpdate.value.deletedTestPaths
                <==> IsCurrent(before, p) && !IsCurrent(current, p))
      && (plan.decision.Idle?
          <==> plan.fileSetUpdate.None? && forall p :: IsCurrent(current, p) ==> !IsAffected(normalize, affected, p))
      && (plan.decision.Empty? <==> plan.fileSetUpdate.Some? && current == [])
  {
    var current, before := CollectWatchTestFiles(normalize, entries), NormalizeTestFiles(normalize, previous);
    SameSortedIff(Keys(current), Keys(before));
    MissingAre(Paths(before), Paths(current));
    PathsOf(current);
    PathsOf(before);
    var affectedPathSet := set a | a in affected :: normalize(a);
    var matched := Matching(current, affectedPathSet);
    MatchingAre(current, affectedPathSet);
    if matched != [] {
      assert matched[0] in current && matched[0].testPath in affectedPathSet;
      assert IsCurrent(current, matched[0].testPath) && IsAffected(normalize, affected, matched[0].testPath);
    }
    forall p | IsCurrent(current, p) && IsAffected(normalize, affected, p) ensures matched != [] {
      var f :| f in current && f.testPath == p;
      assert f in matched;
    }
  }

  // ----- the state a watch session keeps -----

  ghost predicate AllNormal(normalize: string -> string, files: seq<TestFile>) {
    forall f :: f in files ==> normalize(f.testPath) == f.testPath
  }

  lemma {:induction false} CollectedAreNormal(normalize: string -> string, entries: seq<ProjectEntry>)
    requires forall p :: normalize(normalize(p)) == normalize(p)
    ensures AllNormal(normalize, CollectWatchTestFiles(normalize, entries))
  {
    if entries != [] {
      CollectedAreNormal(normalize, entries[1..]);
    }
  }

  lemma {:induction false} NormalStay(normalize: string -> string, files: seq<TestFile>)
    requires AllNormal(normalize, files)
    ensures NormalizeTestFiles(normalize, files) == files
  {
    forall i | 0 <= i < |files| ensures NormalizeTestFiles(normalize, files)[i] == files[i] {
      assert files[i] in files;
    }
  }

  class WatchState {
    const normalize: string -> string
    var lastTestFiles: seq<TestFile>
    var pendingAffectedTestFiles: map<string, set<string>>
    var pruned: seq<seq<string>>  // the lists of paths the reporter state was told to forget

    ghost predicate Valid()
      reads this
    {
      && (forall p :: normalize(normalize(p)) == normalize(p))
      && AllNormal(normalize, lastTestFiles)
    }

    constructor (normalize: string -> string)
      requires forall p :: normalize(normalize(p)) == normalize(p)
      ensures Valid() && this.normalize == normalize && lastTestFiles == [] && pendingAffectedTestFiles == map[]
    {
      this.normalize := normalize;
      lastTestFiles, pendingAffectedTestFiles, pruned := [], map[], [];
    }

    /** Every pending file of every project, each once; nothing is pending afterwards. */
    method DrainPendingAffectedTestFiles() returns (affected: seq<string>)
      modifies this`pendingAffectedTestFiles
      ensures forall f ::
        f in affected <==> exists p :: p in old(pendingAffectedTestFiles) && f in old(pendingAffectedTestFiles)[p]
      ensures forall i, j :: 0 <= i < j < |affected| ==> affected[i] != affected[j]
      ensures pendingAffectedTestFiles == map[]
    {
      affected := [];
      var projects := pendingAffectedTestFiles.Keys;
      while projects != {}
        invariant pendingAffectedTestFiles == old(pendingAffectedTestFiles) && projects <= pendingAffectedTestFiles.Keys
        invariant forall f ::
          f in affected <==>
            exists p :: p in pendingAffectedTestFiles && p !in projects && f in pendingAffectedTestFiles[p]
        invariant forall i, j :: 0 <= i < j < |affected| ==> affected[i] != affected[j]
        decreases projects
      {
        var project :| project in projects;
        affected := AddAll(affected, pendingAffectedTestFiles[project]);
        projects := projects - {project};
      }
      pendingAffectedTestFiles := map[];
    }

    method AddAll(affected: seq<string>, files: set<string>) returns (all: seq<string>)
      requires forall i, j :: 0 <= i < j < |affected| ==> affected[i] != affected[j]
      ensures forall f :: f in all <==> f in affected || f in files
      ensures forall i, j :: 0 <= i < j < |all| ==> all[i] != all[j]
    {
      all := affected;
      var rest := files;
      while rest != {}
        invariant rest <= files
        invariant forall f :: f in all <==> f in affected || f in files - rest
        invariant forall i, j :: 0 <= i < j < |all| ==> all[i] != all[j]
        decreases rest
      {
        var file :| file in rest;
        if file !in all {
          all := all + [file];
        }
        rest := rest - {file};
      }
    }

    method CommitWatchFileSetUpdate(update: Option<Update>)
      modifies this`lastTestFiles, this`pruned
      ensures update.None? ==> lastTestFiles == old(lastTestFiles) && pruned == old(pruned)
      ensures update.Some? ==> lastTestFiles == update.value.currentTestFiles
      ensures update.Some? ==>
        pruned == old(pruned) + if update.value.deletedTestPaths == [] then [] else [update.value.deletedTestPaths]
    {
      if update.None? {
        return;
      }
      if |update.value.deletedTestPaths| > 0 {
        pruned := pruned + [update.value.deletedTestPaths];
      }
      lastTestFiles := update.value.currentTestFiles;
    }

    /**
     One rerun dispatch: every pending file that is still current is run again, nothing stays pending, and the
     remembered files have the current keys, up to order. When no project name of either list runs on from another by a
     colon and a slash, they are the current files.
     */
    method PlanAndCommit(entries: seq<ProjectEntry>) returns (plan: Plan)
      requires Valid()
      modifies this
      ensures Valid() && pendingAffectedTestFiles == map[]
      ensures SameKeys(lastTestFiles, CollectWatchTestFiles(normalize, entries))
      ensures forall names ::
        && NoneRunsOn(names, ":/") && FilesOf(old(lastTestFiles), names, ABSOLUTE)
        && FilesOf(CollectWatchTestFiles(normalize, entries), names, ABSOLUTE)
        ==> multiset(lastTestFiles) == multiset(CollectWatchTestFiles(normalize, entries))
      ensures forall project, f ::
        project in old(pendingAffectedTestFiles) && f in old(pendingAffectedTestFiles)[project] ==>
        IsCurrent(CollectWatchTestFiles(normalize, entries), normalize(f)) ==>
            plan.decision.Rerun? && normalize(f) in plan.decision.testPaths
    {
      var affected := DrainPendingAffectedTestFiles();
      plan := PlanWatchRerun(normalize, entries, lastTestFiles, affected);
      RerunPaths(normalize, entries, lastTestFiles, affected);
      UpdatesAndIdle(normalize, entries, lastTestFiles, affected);
      NormalStay(normalize, lastTestFiles);
      CollectedAreNormal(normalize, entries);
      ghost var current := CollectWatchTestFiles(normalize, entries);
      if plan.fileSetUpdate.None? {
        forall names | NoneRunsOn(names, ":/") && FilesOf(lastTestFiles, names, ABSOLUTE)
            && FilesOf(current, names, ABSOLUTE)
          ensures multiset(lastTestFiles) == multiset(current)
        {
          KeysDecideFiles(lastTestFiles, current, names);
        }
      }
      CommitWatchFileSetUpdate(plan.fileSetUpdate);
    }
  }

  // ----- a change that goes unnoticed -----

  /** A project renamed from "web" to "web:/a" with its only file moved from /a:/b to /b: nothing is rerun. */
  lemma {:induction false} ColonHidesChange(normalize: string -> string)
    requires normalize("/a:/b") == "/a:/b" && normalize("/b") == "/b"
    ensures var plan := PlanWatchRerun(normalize, [ProjectEntry("web:/a", ["/b"])], [TestFile("/a:/b", "web")], []);
      plan.fileSetUpdate == None && plan.decision == Idle
  {
    var current := CollectWatchTestFiles(normalize, [ProjectEntry("web:/a", ["/b"])]);
    var before := NormalizeTestFiles(normalize, [TestFile("/a:/b", "web")]);
    assert current == [TestFile("/b", "web:/a")] && before == [TestFile("/a:/b", "web")];
    assert Key(current[0]) == "web:/a:/b" == Key(before[0]);
    assert Keys(current) == ["web:/a:/b"] == Keys(before);
    UpdatesAndIdle(normalize, [ProjectEntry("web:/a", ["/b"])], [TestFile("/a:/b", "web")], []);
  }
}
