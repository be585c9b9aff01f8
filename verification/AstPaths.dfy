/** Which nodes the traversal reports: exactly those whose path is reached, in preorder. */
module AstPaths {
  import opened AstWalk

  // ----- paths into the tree the walk sees -----

  ghost predicate IsPath(n: Node, p: Path)
    decreases |p|
  {
    p == [] || (p[0] < |Children(n)| && IsPath(Children(n)[p[0]], p[1..]))
  }

  ghost function NodeAt(n: Node, p: Path): Node
    requires IsPath(n, p)
    decreases |p|
  {
    if p == [] then n else NodeAt(Children(n)[p[0]], p[1..])
  }

  // A function value is covered by the method or property right above it; the root as given.
  ghost predicate CoveredAt(n: Node, p: Path, covered: bool)
    requires IsPath(n, p)
    decreases |p|
  {
    if p == [] then covered else CoveredAt(Children(n)[p[0]], p[1..], CoversChild(n, p[0]))
  }

  // What the node at a path reports by itself; nothing where there is no node.
  ghost function OwnAt(n: Node, hints: Hints, covered: bool, p: Path): seq<Call>
    decreases |p|
  {
    if p == [] then Own(n, hints, covered)
    else if p[0] < |Children(n)| then OwnAt(Children(n)[p[0]], hints, CoversChild(n, p[0]), p[1..])
    else []
  }

  lemma {:induction false} OwnAtIsOwn(n: Node, hints: Hints, covered: bool, p: Path)
    requires IsPath(n, p)
    ensures OwnAt(n, hints, covered, p) == Own(NodeAt(n, p), hints, CoveredAt(n, p, covered))
    decreases |p|
  {
    if p != [] {
      OwnAtIsOwn(Children(n)[p[0]], hints, CoversChild(n, p[0]), p[1..]);
    }
  }

  lemma {:induction false} PrefixIsPath(n: Node, p: Path, k: nat)
    requires IsPath(n, p) && k <= |p|
    ensures IsPath(n, p[..k])
    decreases |p|
  {
    if k > 0 {
      assert p[..k][1..] == p[1..][..k - 1];
      PrefixIsPath(Children(n)[p[0]], p[1..], k - 1);
    }
  }

  // The node at a path is not hinted, and its parent does not skip it.
  ghost predicate Kept(n: Node, hints: Hints, p: Path) {
    && IsPath(n, p)
    && hints(NodeAt(n, p).start) != NextHint
    && (p != [] ==> IsPath(n, p[..|p| - 1]) && !Skips(NodeAt(n, p[..|p| - 1]), p[|p| - 1], hints))
  }

  /** A path is reached when everything on the way to it is kept. */
  ghost predicate Reached(n: Node, hints: Hints, p: Path) {
    IsPath(n, p) && forall k: nat :: k <= |p| ==> Kept(n, hints, p[..k])
  }

  lemma {:induction false} NodeBelow(n: Node, i: nat, q: Path)
    requires i < |Children(n)|
    ensures IsPath(n, [i] + q) <==> IsPath(Children(n)[i], q)
    ensures IsPath(Children(n)[i], q) ==> NodeAt(n, [i] + q) == NodeAt(Children(n)[i], q)
  {
    assert ([i] + q)[1..] == q;
  }

  lemma {:induction false} KeptBelow(n: Node, hints: Hints, i: nat, q: Path)
    requires i < |Children(n)|
    ensures Kept(n, hints, [i] + q) <==> Kept(Children(n)[i], hints, q) && (q == [] ==> !Skips(n, i, hints))
  {
    var p := [i] + q;
    NodeBelow(n, i, q);
    if q == [] {
      assert p[..0] == [];
    } else {
      assert p[..|p| - 1] == [i] + q[..|q| - 1];
      NodeBelow(n, i, q[..|q| - 1]);
    }
  }

  // Reaching a node below a child is reaching it from the child, which must not be skipped.
  lemma {:induction false} ReachedBelow(n: Node, hints: Hints, i: nat, q: Path)
    requires i < |Children(n)|
    ensures Reached(n, hints, [i] + q)
        <==> hints(n.start) != NextHint && !Skips(n, i, hints) && Reached(Children(n)[i], hints, q)
  {
    var p := [i] + q;
    assert p[1..] == q && p[..0] == [] && p[..1] == [i] + [];
    forall k: nat | k <= |q| ensures p[..k + 1] == [i] + q[..k] {
    }
    forall k: nat | k <= |q|
      ensures Kept(n, hints, p[..k + 1]) <==> Kept(Children(n)[i], hints, q[..k]) && (k == 0 ==> !Skips(n, i, hints))
    {
      KeptBelow(n, hints, i, q[..k]);
    }
    if Reached(n, hints, p) {
      assert Kept(n, hints, p[..0]) && Kept(n, hints, p[..1]);
      forall k: nat | k <= |q| ensures Kept(Children(n)[i], hints, q[..k]) {
        assert Kept(n, hints, p[..k + 1]);
      }
    }
    if hints(n.start) != NextHint && !Skips(n, i, hints) && Reached(Children(n)[i], hints, q) {
      forall k: nat | k <= |p| ensures Kept(n, hints, p[..k]) {
        if k > 0 {
          assert Kept(Children(n)[i], hints, q[..k - 1]);
          assert p[..k - 1 + 1] == p[..k];
        }
      }
    }
  }

  // ----- the reached paths -----

  // Parents before children, and earlier children with all below them before later ones.
  ghost predicate Before(p: Path, q: Path)
    decreases |p|
  {
    q != [] && (p == [] || p[0] < q[0] || (p[0] == q[0] && Before(p[1..], q[1..])))
  }

  ghost predicate InPreorder(ps: seq<Path>) {
    forall i, j :: 0 <= i < j < |ps| ==> Before(ps[i], ps[j])
  }

  ghost function Under(i: nat, ps: seq<Path>): seq<Path> {
    seq(|ps|, k requires 0 <= k < |ps| => [i] + ps[k])
  }

  // The reached paths, in preorder.
  ghost function ReachedPaths(n: Node, hints: Hints): seq<Path>
    decreases Size(n)
  {
    if hints(n.start) == NextHint then [] else
      var parts := seq(|Children(n)|, i requires 0 <= i < |Children(n)| =>
        (ChildIsSmaller(n, i);
         if Skips(n, i, hints) then [] else Under(i, ReachedPaths(Children(n)[i], hints))));
      [[]] + Joined(parts, |parts|)
  }

  // Those below each child.
  ghost predicate AreBelow(parts: seq<seq<Path>>, n: Node, hints: Hints) {
    |parts| == |Children(n)|
    && forall i: nat {:trigger Children(n)[i]} :: i < |parts| ==>
         parts[i] == if Skips(n, i, hints) then [] else Under(i, ReachedPaths(Children(n)[i], hints))
  }

  lemma {:induction false} BelowOf(n: Node, hints: Hints) returns (parts: seq<seq<Path>>)
    ensures AreBelow(parts, n, hints)
    ensures ReachedPaths(n, hints) == if hints(n.start) == NextHint then [] else [[]] + Joined(parts, |parts|)
  {
    parts := seq(|Children(n)|, i requires 0 <= i < |Children(n)| =>
      if Skips(n, i, hints) then [] else Under(i, ReachedPaths(Children(n)[i], hints)));
  }

  lemma {:induction false} JoinedHas<T>(parts: seq<seq<T>>, k: nat, x: T)
    requires k <= |parts|
    ensures x in Joined(parts, k) <==> exists i :: 0 <= i < k && x in parts[i]
  {
    if k > 0 {
      JoinedHas(parts, k - 1, x);
      if i :| 0 <= i < k && x in parts[i] {
        assert i < k - 1 || i == k - 1;
      }
    }
  }

  lemma {:induction false} UnderIn(i: nat, ps: seq<Path>, p: Path)
    ensures p in Under(i, ps) <==> p != [] && p[0] == i && p[1..] in ps
  {
    if p != [] && p[0] == i && p[1..] in ps {
      var k :| 0 <= k < |ps| && ps[k] == p[1..];
      assert Under(i, ps)[k] == [i] + p[1..] == p;
    }
    if p in Under(i, ps) {
      var k :| 0 <= k < |ps| && Under(i, ps)[k] == p;
      assert ps[k] == ([i] + ps[k])[1..];
    }
  }

  lemma {:induction false} ReachedAre(n: Node, hints: Hints, p: Path)
    ensures p in ReachedPaths(n, hints) <==> Reached(n, hints, p)
    decreases Size(n), 1
  {
    var parts := BelowOf(n, hints);
    assert p[..0] == [];
    if hints(n.start) == NextHint {
      assert !Kept(n, hints, p[..0]);
    } else if p == [] {
      assert ([[]] + Joined(parts, |parts|))[0] == [];
      forall k: nat | k <= |p| ensures Kept(n, hints, p[..k]) {
        assert p[..k] == [];
      }
    } else {
      JoinedHas(parts, |parts|, p);
      ReachedBelowAre(n, hints, parts, p);
      assert p in [[]] + Joined(parts, |parts|) <==> p in Joined(parts, |parts|);
    }
  }

  lemma {:induction false} ReachedBelowAre(n: Node, hints: Hints, parts: seq<seq<Path>>, p: Path)
    requires AreBelow(parts, n, hints) && p != [] && hints(n.start) != NextHint
    ensures (exists i :: 0 <= i < |parts| && p in parts[i]) <==> Reached(n, hints, p)
    decreases Size(n), 0
  {
    forall i: nat | i < |parts| && p in parts[i] ensures i == p[0] {
      ChildIsSmaller(n, i);
      UnderIn(i, ReachedPaths(Children(n)[i], hints), p);
    }
    if p[0] < |parts| {
      var i := p[0];
      ChildIsSmaller(n, i);
      assert p == [i] + p[1..];
      UnderIn(i, ReachedPaths(Children(n)[i], hints), p);
      ReachedAre(Children(n)[i], hints, p[1..]);
      ReachedBelow(n, hints, i, p[1..]);
    }
  }

  // ----- their order -----

  ghost predicate AllStartWith(ps: seq<Path>, i: nat) {
    forall k :: 0 <= k < |ps| ==> ps[k] != [] && ps[k][0] == i
  }

  ghost predicate AllStartBelow(ps: seq<Path>, i: nat) {
    forall k :: 0 <= k < |ps| ==> ps[k] != [] && ps[k][0] < i
  }

  lemma {:induction false} UnderOrdered(i: nat, ps: seq<Path>)
    requires InPreorder(ps)
    ensures InPreorder(Under(i, ps)) && AllStartWith(Under(i, ps), i)
  {
    forall j, k | 0 <= j < k < |ps| ensures Before(Under(i, ps)[j], Under(i, ps)[k]) {
      assert ([i] + ps[j])[1..] == ps[j] && ([i] + ps[k])[1..] == ps[k];
      assert Before(ps[j], ps[k]);
    }
  }

  lemma {:induction false} JoinedOrdered(parts: seq<seq<Path>>, k: nat)
    requires k <= |parts| && forall i: nat :: i < |parts| ==> InPreorder(parts[i]) && AllStartWith(parts[i], i)
    ensures InPreorder(Joined(parts, k)) && AllStartBelow(Joined(parts, k), k)
  {
    if k > 0 {
      JoinedOrdered(parts, k - 1);
      OrderedSum(Joined(parts, k - 1), parts[k - 1], k - 1);
    }
  }

  lemma {:induction false} OrderedSum(a: seq<Path>, b: seq<Path>, i: nat)
    requires InPreorder(a) && InPreorder(b) && AllStartBelow(a, i) && AllStartWith(b, i)
    ensures InPreorder(a + b) && AllStartBelow(a + b, i + 1)
  {
  }

  lemma {:induction false} RootFirst(ps: seq<Path>, k: nat)
    requires InPreorder(ps) && AllStartBelow(ps, k)
    ensures InPreorder([[]] + ps)
  {
    forall i, j | 0 <= i < j < |[[]] + ps| ensures Before(([[]] + ps)[i], ([[]] + ps)[j]) {
      assert ([[]] + ps)[j] == ps[j - 1];
    }
  }

  lemma {:induction false} ReachedOrdered(n: Node, hints: Hints)
    ensures InPreorder(ReachedPaths(n, hints))
    decreases Size(n)
  {
    var parts := BelowOf(n, hints);
    if hints(n.start) != NextHint {
      forall i: nat | i < |parts| ensures InPreorder(parts[i]) && AllStartWith(parts[i], i) {
        ChildIsSmaller(n, i);
        ReachedOrdered(Children(n)[i], hints);
        UnderOrdered(i, ReachedPaths(Children(n)[i], hints));
      }
      JoinedOrdered(parts, |parts|);
      RootFirst(Joined(parts, |parts|), |parts|);
    }
  }

  // ----- the traversal over them -----

  type Reporter<T> = Path -> seq<T>

  // What some paths report, one after the other.
  ghost function CallsOf<T>(report: Reporter<T>, ps: seq<Path>): seq<T> {
    Joined(seq(|ps|, k requires 0 <= k < |ps| => report(ps[k])), |ps|)
  }

  lemma {:induction false} CallsOfMore<T>(report: Reporter<T>, ps: seq<Path>, p: Path)
    ensures CallsOf(report, ps + [p]) == CallsOf(report, ps) + report(p)
  {
    var a := seq(|ps|, k requires 0 <= k < |ps| => report(ps[k]));
    var b := seq(|ps| + 1, k requires 0 <= k < |ps| + 1 => report((ps + [p])[k]));
    assert a == b[..|ps|];
    JoinedFront(a, b, |ps|);
  }

  lemma {:induction false} JoinedFront<T>(a: seq<seq<T>>, b: seq<seq<T>>, k: nat)
    requires k <= |a| <= |b| && a == b[..|a|]
    ensures Joined(a, k) == Joined(b, k)
  {
    if k > 0 {
      JoinedFront(a, b, k - 1);
    }
  }

  lemma {:induction false} CallsOfSum<T>(report: Reporter<T>, a: seq<Path>, b: seq<Path>)
    ensures CallsOf(report, a + b) == CallsOf(report, a) + CallsOf(report, b)
    decreases |b|
  {
    if b == [] {
      assert a + b == a;
    } else {
      var front, last := b[..|b| - 1], b[|b| - 1];
      CallsOfSum(report, a, front);
      CallsOfMore(report, a + front, last);
      CallsOfMore(report, front, last);
      SumOfThree(a, front, [last]);
      SumOfThree(CallsOf(report, a), CallsOf(report, front), report(last));
      assert b == front + [last];
    }
  }

  lemma {:induction false} CallsOfRoot<T>(report: Reporter<T>)
    ensures CallsOf(report, [[]]) == report([])
  {
    var none: seq<Path>, root: Path := [], [];
    CallsOfMore(report, none, root);
    assert none + [root] == [root];
    assert CallsOf(report, none) == [];
  }

  lemma {:induction false} JoinedCalls<T>(report: Reporter<T>, paths: seq<seq<Path>>, parts: seq<seq<T>>, k: nat)
    requires k <= |paths| == |parts| && forall i :: 0 <= i < |parts| ==> parts[i] == CallsOf(report, paths[i])
    ensures Joined(parts, k) == CallsOf(report, Joined(paths, k))
  {
    if k > 0 {
      JoinedCalls(report, paths, parts, k - 1);
      CallsOfSum(report, Joined(paths, k - 1), paths[k - 1]);
    }
  }

  lemma {:induction false} CallsOfUnder<T>(report: Reporter<T>, below: Reporter<T>, i: nat, ps: seq<Path>)
    requires forall k :: 0 <= k < |ps| ==> report([i] + ps[k]) == below(ps[k])
    ensures CallsOf(report, Under(i, ps)) == CallsOf(below, ps)
  {
    if ps != [] {
      var front, last := ps[..|ps| - 1], ps[|ps| - 1];
      CallsOfUnder(report, below, i, front);
      CallsOfMore(report, Under(i, front), [i] + last);
      CallsOfMore(below, front, last);
      assert ps == front + [last] && Under(i, ps) == Under(i, front) + [[i] + last];
    }
  }

  ghost function Reports(n: Node, hints: Hints, covered: bool): Reporter<Call> {
    p => OwnAt(n, hints, covered, p)
  }

  lemma {:induction false} ReportBelow(n: Node, hints: Hints, covered: bool, i: nat, q: Path)
    requires i < |Children(n)|
    ensures Reports(n, hints, covered)([i] + q) == Reports(Children(n)[i], hints, CoversChild(n, i))(q)
  {
    assert ([i] + q)[1..] == q;
  }

  /** The recursive traversal is the concatenation, in preorder, of what the nodes at the reached paths report. */
  lemma {:induction false} TraverseIsPreorder(n: Node, hints: Hints, covered: bool)
    ensures InPreorder(ReachedPaths(n, hints))
    ensures forall p :: p in ReachedPaths(n, hints) <==> Reached(n, hints, p)
    ensures Traverse(n, hints, false, covered) == CallsOf(Reports(n, hints, covered), ReachedPaths(n, hints))
    decreases Size(n), 1
  {
    ReachedOrdered(n, hints);
    forall p ensures p in ReachedPaths(n, hints) <==> Reached(n, hints, p) {
      ReachedAre(n, hints, p);
    }
    var parts := PartsOf(n, hints, false, covered);
    var paths := BelowOf(n, hints);
    if hints(n.start) != NextHint {
      var report := Reports(n, hints, covered);
      forall i: nat | i < |parts| ensures parts[i] == CallsOf(report, paths[i]) {
        PartIsBelow(n, hints, covered, parts, paths, i);
      }
      JoinedCalls(report, paths, parts, |parts|);
      RootReports(n, hints, covered, Joined(paths, |paths|));
    }
  }

  lemma {:induction false} RootReports(n: Node, hints: Hints, covered: bool, ps: seq<Path>)
    ensures CallsOf(Reports(n, hints, covered), [[]] + ps)
        == Own(n, hints, covered) + CallsOf(Reports(n, hints, covered), ps)
  {
    var report := Reports(n, hints, covered);
    CallsOfSum(report, [[]], ps);
    CallsOfRoot(report);
  }

  lemma {:induction false} PartIsBelow(n: Node, hints: Hints, covered: bool, parts: seq<seq<Call>>,
      paths: seq<seq<Path>>, i: nat)
    requires IsParts(parts, n, hints) && AreBelow(paths, n, hints) && i < |parts|
    ensures parts[i] == CallsOf(Reports(n, hints, covered), paths[i])
    decreases Size(n), 0
  {
    var child := Children(n)[i];
    ChildIsSmaller(n, i);
    if Skips(n, i, hints) {
      assert paths[i] == [];
    } else {
      TraverseIsPreorder(child, hints, CoversChild(n, i));
      var report, below := Reports(n, hints, covered), Reports(child, hints, CoversChild(n, i));
      var ps := ReachedPaths(child, hints);
      forall k | 0 <= k < |ps| ensures report([i] + ps[k]) == below(ps[k]) {
        ReportBelow(n, hints, covered, i, ps[k]);
      }
      CallsOfUnder(report, below, i, ps);
    }
  }

  // ----- which calls are made -----

  ghost function LabelledOf(report: Reporter<Call>, ps: seq<Path>): seq<Labelled> {
    if ps == [] then [] else LabelledOf(report, ps[..|ps| - 1]) + LabelAll(ps[|ps| - 1], report(ps[|ps| - 1]))
  }

  lemma {:induction false} ErasedOf(report: Reporter<Call>, ps: seq<Path>)
    ensures Erased(LabelledOf(report, ps)) == CallsOf(report, ps)
  {
    if ps != [] {
      var front, last := ps[..|ps| - 1], ps[|ps| - 1];
      ErasedOf(report, front);
      ErasedSum(LabelledOf(report, front), LabelAll(last, report(last)));
      ErasedLabels(last, report(last));
      CallsOfMore(report, front, last);
      assert ps == front + [last];
    }
  }

  lemma {:induction false} LabelAllAre(p: Path, calls: seq<Call>, l: Labelled)
    ensures l in LabelAll(p, calls) <==> l.path == p && l.call in calls
  {
    if l.path == p && l.call in calls {
      var k :| 0 <= k < |calls| && calls[k] == l.call;
      assert LabelAll(p, calls)[k] == l;
    }
  }

  lemma {:induction false} LabelledAre(report: Reporter<Call>, ps: seq<Path>, l: Labelled)
    ensures l in LabelledOf(report, ps) <==> l.path in ps && l.call in report(l.path)
  {
    if ps != [] {
      var front, last := ps[..|ps| - 1], ps[|ps| - 1];
      LabelledAre(report, front, l);
      LabelAllAre(last, report(last), l);
      assert ps == front + [last];
    }
  }

  // What a node at some path reports, with labels.
  ghost function LabelReports(n: Node, hints: Hints, covered: bool, base: Path): Reporter<Labelled> {
    p => LabelAll(base + p, OwnAt(n, hints, covered, p))
  }

  lemma {:induction false} LabelReportBelow(n: Node, hints: Hints, covered: bool, base: Path, i: nat, q: Path)
    requires i < |Children(n)|
    ensures LabelReports(n, hints, covered, base)([i] + q)
         == LabelReports(Children(n)[i], hints, CoversChild(n, i), base + [i])(q)
  {
    assert ([i] + q)[1..] == q && base + ([i] + q) == (base + [i]) + q;
  }

  lemma {:induction false} RootLabels(n: Node, hints: Hints, covered: bool, base: Path, ps: seq<Path>)
    ensures CallsOf(LabelReports(n, hints, covered, base), [[]] + ps)
         == LabelAll(base, Own(n, hints, covered)) + CallsOf(LabelReports(n, hints, covered, base), ps)
  {
    var report := LabelReports(n, hints, covered, base);
    var root: Path := [];
    CallsOfSum(report, [root], ps);
    CallsOfRoot(report);
    assert base + root == base;
  }

  // The labelled traversal is in preorder over the reached paths as well.
  lemma {:induction false} TraverseAtIsPreorder(n: Node, hints: Hints, covered: bool, base: Path)
    ensures TraverseAt(n, hints, false, covered, base)
         == CallsOf(LabelReports(n, hints, covered, base), ReachedPaths(n, hints))
    decreases Size(n), 1
  {
    var parts := PartsAt(n, hints, false, covered, base);
    var paths := BelowOf(n, hints);
    if hints(n.start) != NextHint {
      var report := LabelReports(n, hints, covered, base);
      forall i: nat | i < |parts| ensures parts[i] == CallsOf(report, paths[i]) {
        PartAtIsBelow(n, hints, covered, base, parts, paths, i);
      }
      JoinedCalls(report, paths, parts, |parts|);
      RootLabels(n, hints, covered, base, Joined(paths, |paths|));
    }
  }

  lemma {:induction false} PartAtIsBelow(n: Node, hints: Hints, covered: bool, base: Path, parts: seq<seq<Labelled>>,
      paths: seq<seq<Path>>, i: nat)
    requires IsPartsAt(parts, n, hints, base) && AreBelow(paths, n, hints) && i < |parts|
    ensures parts[i] == CallsOf(LabelReports(n, hints, covered, base), paths[i])
    decreases Size(n), 0
  {
    var child := Children(n)[i];
    ChildIsSmaller(n, i);
    if Skips(n, i, hints) {
      assert paths[i] == [];
    } else {
      TraverseAtIsPreorder(child, hints, CoversChild(n, i), base + [i]);
      var report := LabelReports(n, hints, covered, base);
      var below := LabelReports(child, hints, CoversChild(n, i), base + [i]);
      var ps := ReachedPaths(child, hints);
      forall k | 0 <= k < |ps| ensures report([i] + ps[k]) == below(ps[k]) {
        LabelReportBelow(n, hints, covered, base, i, ps[k]);
      }
      CallsOfUnder(report, below, i, ps);
    }
  }

  lemma {:induction false} LabelledIsCallsOf(report: Reporter<Call>, labels: Reporter<Labelled>, ps: seq<Path>)
    requires forall p :: labels(p) == LabelAll(p, report(p))
    ensures LabelledOf(report, ps) == CallsOf(labels, ps)
  {
    if ps != [] {
      var front, last := ps[..|ps| - 1], ps[|ps| - 1];
      LabelledIsCallsOf(report, labels, front);
      CallsOfMore(labels, front, last);
      assert ps == front + [last];
    }
  }

  // The calls of a whole walk, each with its node.
  ghost function LabelledCalls(program: Node, hints: Hints): seq<Labelled> {
    LabelledOf(Reports(program, hints, false), ReachedPaths(program, hints))
  }

  /** The walker records exactly these: each call with the reached node whose own it is, in preorder. */
  lemma {:induction false} TraceIsLabelled(program: Node, hints: Hints)
    ensures TraverseAt(program, hints, false, false, []) == LabelledCalls(program, hints)
  {
    var report, labels := Reports(program, hints, false), LabelReports(program, hints, false, []);
    TraverseAtIsPreorder(program, hints, false, []);
    forall p ensures labels(p) == LabelAll(p, report(p)) {
      assert [] + p == p;
    }
    LabelledIsCallsOf(report, labels, ReachedPaths(program, hints));
  }

  /** The flat machine, with every call at its node: exactly the own calls of the reached nodes, in preorder. */
  method WalkWithPaths(program: Node, hints: Hints) returns (calls: seq<Call>, ghost trace: seq<Labelled>)
    ensures trace == LabelledCalls(program, hints)
    ensures calls == Erased(LabelledCalls(program, hints))
  {
    var walked, _, recorded := WalkProgram(program, hints);
    calls, trace := walked, recorded;
    TraceIsLabelled(program, hints);
  }

  /** The walk makes exactly the calls of the nodes whose path is reached. */
  lemma {:induction false} ReportedIffReached(program: Node, hints: Hints, p: Path, call: Call)
    ensures Erased(LabelledCalls(program, hints)) == Traverse(program, hints, false, false)
    ensures Labelled(p, call) in LabelledCalls(program, hints)
       <==> Reached(program, hints, p) && call in Own(NodeAt(program, p), hints, CoveredAt(program, p, false))
  {
    var report, ps := Reports(program, hints, false), ReachedPaths(program, hints);
    TraverseIsPreorder(program, hints, false);
    ErasedOf(report, ps);
    LabelledAre(report, ps, Labelled(p, call));
    if IsPath(program, p) {
      OwnAtIsOwn(program, hints, false, p);
    }
  }

  // What a reached node reports is among the calls of the traversal.
  lemma {:induction false} ReportedIsCalled(program: Node, hints: Hints, p: Path, call: Call)
    requires Reached(program, hints, p) && call in Own(NodeAt(program, p), hints, CoveredAt(program, p, false))
    ensures call in Traverse(program, hints, false, false)
  {
    ReportedIffReached(program, hints, p, call);
    LabelledIsErased(LabelledCalls(program, hints), p, call);
  }

  lemma {:induction false} LabelledIsErased(record: seq<Labelled>, p: Path, call: Call)
    requires Labelled(p, call) in record
    ensures call in Erased(record)
  {
    var m :| 0 <= m < |record| && record[m] == Labelled(p, call);
    assert Erased(record)[m] == call;
  }

  // A logical expression right under another one lies on the way.
  ghost predicate InsideNestedChain(n: Node, p: Path, k: nat) {
    && k < |p| && IsPath(n, p) && IsPath(n, p[..k]) && IsPath(n, p[..k + 1])
    && NodeAt(n, p[..k]).LogicalExpression? && NodeAt(n, p[..k + 1]).LogicalExpression?
  }

  lemma {:induction false} StepDown(n: Node, p: Path)
    requires p != [] && IsPath(n, p)
    ensures IsPath(n, p[..|p| - 1]) && p[|p| - 1] < |Children(NodeAt(n, p[..|p| - 1]))|
    ensures NodeAt(n, p) == Children(NodeAt(n, p[..|p| - 1]))[p[|p| - 1]]
    decreases |p|
  {
    PrefixIsPath(n, p, |p| - 1);
    if |p| > 1 {
      StepDown(Children(n)[p[0]], p[1..]);
      assert p[..|p| - 1][1..] == p[1..][..|p| - 2];
    }
  }

  /**
   Nothing inside a nested part of a logical chain is reported: no function, no statement, no branch, with any hints.
   */
  lemma {:induction false} NestedIsLost(program: Node, hints: Hints, p: Path, k: nat, call: Call)
    requires InsideNestedChain(program, p, k)
    ensures !Reached(program, hints, p) && Labelled(p, call) !in LabelledCalls(program, hints)
  {
    var q := p[..k + 1];
    StepDown(program, q);
    assert q[..k] == p[..k];
    assert Children(NodeAt(program, p[..k]))[q[k]].LogicalExpression?;
    assert Skips(NodeAt(program, p[..k]), q[k], hints);
    assert !Kept(program, hints, q);
    ReportedIffReached(program, hints, p, call);
  }

  // A function that its method or property has not reported already.
  ghost predicate IsOwnFunction(n: Node, p: Path) {
    && IsPath(n, p)
    && var f := NodeAt(n, p);
      f.FunctionDeclaration? || f.ArrowFunctionExpression? || (f.FunctionExpression? && !CoveredAt(n, p, false))
  }

  /** Exactly the functions that are reached are reported. */
  lemma {:induction false} FunctionReportedIffReached(program: Node, hints: Hints, p: Path)
    requires IsOwnFunction(program, p)
    ensures (exists call: Call :: call.AddFunction? && Labelled(p, call) in LabelledCalls(program, hints))
        <==> Reached(program, hints, p)
  {
    var own := Own(NodeAt(program, p), hints, CoveredAt(program, p, false));
    assert own[0].AddFunction? && own[0] in own;
    ReportedIffReached(program, hints, p, own[0]);
    if call: Call :| call.AddFunction? && Labelled(p, call) in LabelledCalls(program, hints) {
      ReportedIffReached(program, hints, p, call);
    }
  }

  /** An instance: in a || function () {} || b the function is lost, although by itself it would be reported. */
  lemma {:induction false} NestedFunctionIsLost(chain: Node, hints: Hints, call: Call)
    requires chain.LogicalExpression? && chain.left.LogicalExpression? && chain.left.right.FunctionExpression?
    requires hints(chain.left.right.start) != NextHint
    ensures Labelled([0, 1], call) !in LabelledCalls(chain, hints)
    ensures exists own: Call :: own.AddFunction? && Labelled([], own) in LabelledCalls(chain.left.right, hints)
  {
    var f := chain.left.right;
    var p: Path := [0, 1];
    assert p[1..] == [1] && p[1..][1..] == [] && p[..0] == [];
    assert IsPath(chain.left, [1]) && NodeAt(chain, p[..0]) == chain;
    var nested := p[..1];
    assert nested[0] == 0 && nested[1..] == [] && IsPath(chain, nested);
    assert NodeAt(chain, nested) == NodeAt(chain.left, nested[1..]) == chain.left;
    assert InsideNestedChain(chain, p, 0);
    NestedIsLost(chain, hints, p, 0, call);
    var top: Path := [];
    assert top[..0] == [];
    assert Kept(f, hints, []);
    forall k: nat | k <= |top| ensures Kept(f, hints, top[..k]) {
      assert top[..k] == [];
    }
    FunctionReportedIffReached(f, hints, []);
  }
}
