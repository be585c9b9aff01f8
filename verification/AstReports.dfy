/** What each node reports, told without the walk: by its kind, its sub-nodes and the hints on them. */
module AstReports {
  import opened Wrappers
  import M = CoverageModel
  import opened CoverageBuilder
  import opened AstWalk
  import opened AstPaths
  import opened AstTree

  // ----- functions -----

  // Method and property values are reported by the method or property; an arrow has no name and no name node.
  ghost predicate ReportsFunction(n: Node, covered: bool) {
    || n.FunctionDeclaration? || n.ArrowFunctionExpression? || n.MethodDefinition?
    || (n.FunctionExpression? && !covered) || (n.Property? && n.value.FunctionExpression?)
  }

  // The node whose body runs.
  ghost function Callee(n: Node): Node {
    if n.MethodDefinition? || n.Property? then n.value else n
  }

  ghost predicate IsBodyOf(f: Node, loc: Span) {
    match f
    case FunctionDeclaration(_, _, _, _, body) => loc == SpanOf(body)
    case FunctionExpression(_, _, _, _, body) => loc == SpanOf(body)
    case ArrowFunctionExpression(_, _, _, body) =>
      loc == if body.ParenthesizedExpression? then SpanOf(body.expression) else SpanOf(body)
    case _ => false
  }

  // The sub-node a function is named by.
  ghost function NamedBy(n: Node): Option<Node> {
    match n
    case FunctionDeclaration(_, _, id, _, _) => id
    case FunctionExpression(_, _, id, _, _) => id
    case MethodDefinition(_, _, key, _) => Some(key)
    case Property(_, _, key, _) => Some(key)
    case _ => None
  }

  // An unnamed function is declared by its first character. The grammar gives methods no other value than a function.
  ghost predicate IsFunctionOf(n: Node, c: Call) {
    && c.AddFunction? && ((n.MethodDefinition? && !n.value.FunctionExpression?) || IsBodyOf(Callee(n), c.loc))
    && c.decl == (if NamedBy(n).Some? then SpanOf(NamedBy(n).value) else Span(n.start, n.start + 1))
    && c.coverage == (if n.Property? then SpanOf(n.value) else SpanOf(n))
    && (NamedBy(n).None? ==> c.name == "")
    && (NamedBy(n).Some? && NamedBy(n).value.Identifier? ==> c.name == NamedBy(n).value.name)
    && (NamedBy(n).Some? && (NamedBy(n).value.Literal? || NamedBy(n).value.Other?) ==> c.name == "")
  }

  // ----- statements -----

  ghost predicate IsStatement(n: Node) {
    || n.PlainStatement? || n.IfStatement? || n.SwitchStatement?
    || (n.ExpressionStatement? && !(n.expression.Literal? && n.expression.isUseStrict))
  }

  // A sub-node that counts as a statement with the start of its parent: an initial value, an expression body.
  ghost function Hosted(n: Node): Option<Node> {
    match n
    case VariableDeclarator(_, _, _, init) => init
    case ArrowFunctionExpression(_, _, _, body) =>
      var bare := if body.ParenthesizedExpression? then body.expression else body;
      if bare.BlockStatement? then None else Some(bare)
    case _ => None
  }

  ghost predicate ReportsStatement(n: Node) {
    IsStatement(n) || Hosted(n).Some?
  }

  ghost predicate IsStatementOf(n: Node, c: Call)
    requires ReportsStatement(n)
  {
    c == AddStatement(if IsStatement(n) then SpanOf(n) else SpanOf(Hosted(n).value), SpanOf(n))
  }

  // Positions picked out of some, in order.
  ghost predicate Picks(picked: seq<nat>, n: nat, keep: nat -> bool) {
    && (forall i, j :: 0 <= i < j < |picked| ==> picked[i] < picked[j])
    && (forall k: nat :: k in picked <==> k < n && keep(k))
  }

  ghost function Initialised(members: seq<Node>): nat -> bool {
    (k: nat) => k < |members| && members[k].ClassField? && members[k].initial.Some?
  }

  // The initial values of a class's fields, each a statement of its own, in order.
  ghost predicate AreFieldsOf(members: seq<Node>, calls: seq<Call>) {
    exists picked :: Picks(picked, |members|, Initialised(members)) && |calls| == |picked|
      && forall i :: 0 <= i < |calls| ==> IsFieldCall(members, picked[i], calls[i])
  }

  ghost predicate IsFieldCall(members: seq<Node>, k: nat, c: Call) {
    && Initialised(members)(k)
    && c == AddStatement(SpanOf(members[k].initial.value), SpanOf(members[k].initial.value))
  }

  // ----- branches -----

  ghost predicate ReportsBranch(n: Node) {
    n.IfStatement? || n.SwitchStatement? || n.ConditionalExpression? || n.LogicalExpression? || n.AssignmentPattern?
  }

  ghost predicate IsArm(arm: Option<Arm>, m: Node) {
    arm == Some(Arm(SpanOf(m), m.BlockStatement?))
  }

  ghost predicate IsBlockArm(arm: Option<Arm>, m: Node) {
    arm == Some(Arm(SpanOf(m), true))
  }

  // The consequent unless that is ignored, then the alternate unless that is ignored; a missing alternate has an arm.
  ghost predicate AreIfArms(n: Node, hint: Hint, arms: seq<Option<Arm>>)
    requires n.IfStatement?
  {
    match (hint, n.alternate)
    case (IfHint, None) => arms == []
    case (IfHint, Some(alternate)) => |arms| == 1 && IsBlockArm(arms[0], alternate)
    case (ElseHint, _) => |arms| == 1 && IsBlockArm(arms[0], n.consequent)
    case (_, None) => |arms| == 2 && IsBlockArm(arms[0], n.consequent) && arms[1] == None
    case (_, Some(alternate)) => |arms| == 2 && IsBlockArm(arms[0], n.consequent) && IsBlockArm(arms[1], alternate)
  }

  ghost function NotIgnored(ns: seq<Node>, hints: Hints): nat -> bool {
    (k: nat) => k < |ns| && hints(ns[k].start) != NextHint
  }

  // One arm for each node that is not ignored, in order.
  ghost predicate AreUnignored(ns: seq<Node>, hints: Hints, arms: seq<Option<Arm>>) {
    exists picked :: Picks(picked, |ns|, NotIgnored(ns, hints)) && |arms| == |picked|
      && forall i :: 0 <= i < |arms| ==> picked[i] < |ns| && IsArm(arms[i], ns[picked[i]])
  }

  // An operand of a chain: reached through logical expressions that are not ignored, and not itself such a one.
  ghost predicate IsOperand(n: Node, hints: Hints, m: Node) {
    if n.LogicalExpression? && hints(n.start) != NextHint
    then IsOperand(n.left, hints, m) || IsOperand(n.right, hints, m) else m == n
  }

  // One arm for each operand.
  ghost predicate AreOperands(n: Node, hints: Hints, arms: seq<Option<Arm>>) {
    exists operands: seq<Node> :: |operands| == |arms| && (forall m :: m in operands <==> IsOperand(n, hints, m))
      && forall i :: 0 <= i < |arms| ==> IsArm(arms[i], operands[i])
  }

  // The arms inside a node, in source order; a missing one comes last.
  ghost predicate ArePlaced(n: Node, arms: seq<Option<Arm>>) {
    && (forall i :: 0 <= i < |arms| && arms[i].Some? ==>
          n.start <= arms[i].value.span.start <= arms[i].value.span.end <= n.end)
    && (forall i, j :: 0 <= i < j < |arms| && arms[i].Some? && arms[j].Some? ==>
          arms[i].value.span.end <= arms[j].value.span.start)
    && (forall i :: 0 <= i < |arms| && arms[i].None? ==> i == |arms| - 1)
  }

  ghost function Bare(n: Node): Node {
    if n.ParenthesizedExpression? then n.expression else n
  }

  ghost predicate IsBranchOf(n: Node, hints: Hints, c: Call) {
    && c.AddBranch? && c.node == SpanOf(n)
    && match n
       case IfStatement(_, _, _, _, _) => c.branchType == M.IfBranch && AreIfArms(n, hints(n.start), c.arms)
       case SwitchStatement(_, _, _, cases) => c.branchType == M.Switch && AreUnignored(cases, hints, c.arms)
       case ConditionalExpression(_, _, _, whenTrue, whenFalse) =>
         c.branchType == M.CondExpr && AreUnignored([Bare(whenTrue), Bare(whenFalse)], hints, c.arms)
       case LogicalExpression(_, _, _, _) => c.branchType == M.BinaryExpr && AreOperands(n, hints, c.arms)
       case AssignmentPattern(_, _, _, right) =>
         c.branchType == M.DefaultArg && |c.arms| == 1 && IsArm(c.arms[0], right)
       case _ => false
  }

  // ----- all a node reports -----

  ghost predicate SameKind(a: Call, b: Call) {
    (a.AddFunction? <==> b.AddFunction?) && (a.AddStatement? <==> b.AddStatement?)
  }

  // A call that is made once, and no other of its kind.
  ghost predicate IsOnly(calls: seq<Call>, c: Call) {
    exists k :: 0 <= k < |calls| && calls[k] == c
      && forall j :: 0 <= j < |calls| && j != k ==> !SameKind(calls[j], c)
  }

  ghost predicate ReportsAs(n: Node, hints: Hints, covered: bool, calls: seq<Call>) {
    FunctionsAs(n, covered, calls) && StatementsAs(n, calls) && BranchesAs(n, hints, calls)
  }

  ghost predicate FunctionsAs(n: Node, covered: bool, calls: seq<Call>) {
    if ReportsFunction(n, covered) then exists c :: IsFunctionOf(n, c) && IsOnly(calls, c)
    else forall c :: c in calls ==> !c.AddFunction?
  }

  ghost predicate StatementsAs(n: Node, calls: seq<Call>) {
    if n.ClassBody? then AreFieldsOf(n.members, calls)
    else if ReportsStatement(n) then exists c :: IsStatementOf(n, c) && IsOnly(calls, c)
    else forall c :: c in calls ==> !c.AddStatement?
  }

  ghost predicate BranchesAs(n: Node, hints: Hints, calls: seq<Call>) {
    if ReportsBranch(n) then exists c :: IsBranchOf(n, hints, c) && IsOnly(calls, c)
    else forall c :: c in calls ==> !c.AddBranch?
  }

  lemma {:induction false} PicksNext(picked: seq<nat>, n: nat, front: nat -> bool, keep: nat -> bool)
    returns (more: seq<nat>)
    requires Picks(picked, n, front) && forall k: nat :: k < n ==> front(k) == keep(k)
    ensures Picks(more, n + 1, keep) && more == if keep(n) then picked + [n] else picked
  {
    more := if keep(n) then picked + [n] else picked;
    forall k: nat ensures k in more <==> k < n + 1 && keep(k) {
      assert k in picked <==> k < n && front(k);
    }
    forall i | 0 <= i < |picked| ensures picked[i] < n {
      assert picked[i] in picked;
    }
  }

  lemma {:induction false} FieldsPicked(ns: seq<Node>) returns (picked: seq<nat>)
    ensures Picks(picked, |ns|, Initialised(ns)) && |FieldStatements(ns)| == |picked|
    ensures forall i :: 0 <= i < |picked| ==> IsFieldCall(ns, picked[i], FieldStatements(ns)[i])
  {
    picked := [];
    if ns != [] {
      var n := |ns| - 1;
      var front := FieldsPicked(ns[..n]);
      FrontInitialised(ns, n);
      picked := PicksNext(front, n, Initialised(ns[..n]), Initialised(ns));
      FieldStatementsMore(ns, n);
      forall i | 0 <= i < |picked| ensures IsFieldCall(ns, picked[i], FieldStatements(ns)[i]) {
        if i < |front| {
          FieldCallOf(ns, n, front[i], FieldStatements(ns[..n])[i]);
        }
      }
    }
  }

  // One more member adds its initial value, if it has one.
  lemma {:induction false} FieldStatementsMore(ns: seq<Node>, n: nat)
    requires n + 1 == |ns|
    ensures var front, all := FieldStatements(ns[..n]), FieldStatements(ns);
      if Initialised(ns)(n)
      then |all| == |front| + 1 && all[..|front|] == front && IsFieldCall(ns, n, all[|front|])
      else all == front
  {
  }

  lemma {:induction false} FieldCallOf(ns: seq<Node>, n: nat, k: nat, c: Call)
    requires n <= |ns| && IsFieldCall(ns[..n], k, c)
    ensures IsFieldCall(ns, k, c)
  {
  }

  lemma {:induction false} FrontNotIgnored(ns: seq<Node>, hints: Hints, n: nat)
    requires n <= |ns|
    ensures forall k: nat :: k < n ==> NotIgnored(ns[..n], hints)(k) == NotIgnored(ns, hints)(k)
  {
  }

  lemma {:induction false} FrontInitialised(ns: seq<Node>, n: nat)
    requires n <= |ns|
    ensures forall k: nat :: k < n ==> Initialised(ns[..n])(k) == Initialised(ns)(k)
  {
  }

  lemma {:induction false} UnhintedPicked(ns: seq<Node>, hints: Hints) returns (picked: seq<nat>)
    ensures Picks(picked, |ns|, NotIgnored(ns, hints)) && |Unhinted(ns, hints)| == |picked|
    ensures forall i :: 0 <= i < |picked| ==> picked[i] < |ns| && Unhinted(ns, hints)[i] == ns[picked[i]]
  {
    picked := [];
    if ns != [] {
      var n := |ns| - 1;
      var front := UnhintedPicked(ns[..n], hints);
      FrontNotIgnored(ns, hints, n);
      picked := PicksNext(front, n, NotIgnored(ns[..n], hints), NotIgnored(ns, hints));
      forall i | 0 <= i < |picked| ensures picked[i] < |ns| && Unhinted(ns, hints)[i] == ns[picked[i]] {
        if i < |front| {
          assert Unhinted(ns[..n], hints)[i] == ns[..n][front[i]];
        }
      }
    }
  }

  lemma {:induction false} UnhintedArms(ns: seq<Node>, hints: Hints)
    ensures AreUnignored(ns, hints, ArmsOf(Unhinted(ns, hints)))
  {
    var picked := UnhintedPicked(ns, hints);
    var arms := ArmsOf(Unhinted(ns, hints));
    assert forall i :: 0 <= i < |arms| ==> IsArm(arms[i], ns[picked[i]]);
  }

  lemma {:induction false} LeavesAreOperands(n: Node, hints: Hints, m: Node)
    ensures m in Leaves(n, hints) <==> IsOperand(n, hints, m)
  {
    if n.LogicalExpression? && hints(n.start) != NextHint {
      LeavesAreOperands(n.left, hints, m);
      LeavesAreOperands(n.right, hints, m);
    }
  }

  lemma {:induction false} OperandArms(n: Node, hints: Hints)
    ensures AreOperands(n, hints, ArmsOf(Leaves(n, hints)))
  {
    var operands, arms := Leaves(n, hints), ArmsOf(Leaves(n, hints));
    forall m ensures m in operands <==> IsOperand(n, hints, m) {
      LeavesAreOperands(n, hints, m);
    }
    assert forall i :: 0 <= i < |arms| ==> IsArm(arms[i], operands[i]);
  }

  lemma {:induction false} OneCall(calls: seq<Call>, c: Call)
    requires calls == [c]
    ensures IsOnly(calls, c) && forall d :: d in calls ==> SameKind(d, c)
  {
    assert calls[0] == c;
  }

  lemma {:induction false} TwoCalls(calls: seq<Call>, c: Call, d: Call)
    requires calls == [c, d] && !SameKind(c, d)
    ensures IsOnly(calls, c) && IsOnly(calls, d) && forall e :: e in calls ==> SameKind(e, c) || SameKind(e, d)
  {
    assert calls[0] == c && calls[1] == d;
  }

  lemma {:induction false} NameIs(m: Node)
    ensures m.Identifier? ==> GivenName(m) == m.name
    ensures m.Literal? || m.Other? ==> GivenName(m) == ""
  {
  }

  lemma {:induction false} FunctionCall(n: Node, hints: Hints, covered: bool)
    requires ReportsFunction(n, covered)
    ensures Own(n, hints, covered) != [] && IsFunctionOf(n, Own(n, hints, covered)[0])
  {
    if NamedBy(n).Some? {
      NameIs(NamedBy(n).value);
    }
    match n
    case FunctionDeclaration(_, _, id, _, body) =>
      assert Own(n, hints, covered)[0].name == if id.Some? then GivenName(id.value) else "";
    case FunctionExpression(_, _, id, _, body) =>
      assert Own(n, hints, covered)[0].name == if id.Some? then GivenName(id.value) else "";
    case MethodDefinition(_, _, key, value) => assert Own(n, hints, covered)[0].name == GivenName(key);
    case Property(_, _, key, value) => assert Own(n, hints, covered)[0].name == GivenName(key);
    case ArrowFunctionExpression(_, _, _, _) => assert Own(n, hints, covered)[0].name == "";
  }

  lemma {:induction false} FunctionOwn(n: Node, hints: Hints, covered: bool)
    requires ReportsFunction(n, covered)
    ensures ReportsAs(n, hints, covered, Own(n, hints, covered))
  {
    var own := Own(n, hints, covered);
    FunctionCall(n, hints, covered);
    if |own| == 1 {
      OneCall(own, own[0]);
    } else {
      assert IsStatementOf(n, own[1]);
      TwoCalls(own, own[0], own[1]);
    }
  }

  lemma {:induction false} IfArmsAre(n: Node, hint: Hint)
    requires n.IfStatement?
    ensures AreIfArms(n, hint, IfArms(n, hint))
  {
  }

  lemma {:induction false} FlowOwn(n: Node, hints: Hints, covered: bool)
    requires n.IfStatement? || n.SwitchStatement?
    ensures ReportsAs(n, hints, covered, Own(n, hints, covered))
  {
    var own := Own(n, hints, covered);
    if n.SwitchStatement? {
      UnhintedArms(n.cases, hints);
    }
    assert IsBranchOf(n, hints, own[0]);
    assert IsStatementOf(n, own[1]);
    TwoCalls(own, own[0], own[1]);
  }

  lemma {:induction false} ExpressionOwn(n: Node, hints: Hints, covered: bool)
    requires n.ConditionalExpression? || n.LogicalExpression? || n.AssignmentPattern?
    ensures ReportsAs(n, hints, covered, Own(n, hints, covered))
  {
    var own := Own(n, hints, covered);
    if n.ConditionalExpression? {
      UnhintedArms([Bare(n.whenTrue), Bare(n.whenFalse)], hints);
    } else if n.LogicalExpression? {
      OperandArms(n, hints);
    }
    assert IsBranchOf(n, hints, own[0]);
    OneCall(own, own[0]);
  }

  lemma {:induction false} ClassOwn(n: Node, hints: Hints, covered: bool)
    requires n.ClassBody?
    ensures ReportsAs(n, hints, covered, Own(n, hints, covered))
  {
    var picked := FieldsPicked(n.members);
    var own := FieldStatements(n.members);
    forall c | c in own ensures c.AddStatement? {
      var i :| 0 <= i < |own| && own[i] == c;
      assert IsFieldCall(n.members, picked[i], own[i]);
    }
  }

  /** What a node reports is what its kind, its sub-nodes and the hints say. */
  lemma {:induction false} OwnIsReport(n: Node, hints: Hints, covered: bool)
    ensures ReportsAs(n, hints, covered, Own(n, hints, covered))
  {
    var own := Own(n, hints, covered);
    if ReportsFunction(n, covered) {
      FunctionOwn(n, hints, covered);
    } else if n.IfStatement? || n.SwitchStatement? {
      FlowOwn(n, hints, covered);
    } else if ReportsBranch(n) {
      ExpressionOwn(n, hints, covered);
    } else if n.ClassBody? {
      ClassOwn(n, hints, covered);
    } else if ReportsStatement(n) {
      assert IsStatementOf(n, own[0]);
      OneCall(own, own[0]);
    }
  }

  // ----- the whole walk -----

  // The calls a path stands for in a record of the walk, in order.
  ghost function CallsAt(labelled: seq<Labelled>, p: Path): seq<Call> {
    if labelled == [] then [] else
      var last := labelled[|labelled| - 1];
      CallsAt(labelled[..|labelled| - 1], p) + if last.path == p then [last.call] else []
  }

  lemma {:induction false} CallsAtSum(a: seq<Labelled>, b: seq<Labelled>, p: Path)
    ensures CallsAt(a + b, p) == CallsAt(a, p) + CallsAt(b, p)
    decreases |b|
  {
    if b == [] {
      assert a + b == a;
    } else {
      var n := |b| - 1;
      assert (a + b)[..|a + b| - 1] == a + b[..n];
      CallsAtSum(a, b[..n], p);
    }
  }

  lemma {:induction false} CallsAtLabels(q: Path, calls: seq<Call>, p: Path)
    ensures CallsAt(LabelAll(q, calls), p) == if p == q then calls else []
  {
    if calls != [] {
      var n := |calls| - 1;
      assert LabelAll(q, calls)[..n] == LabelAll(q, calls[..n]);
      CallsAtLabels(q, calls[..n], p);
    }
  }

  lemma {:induction false} CallsAtOneMore(report: Reporter<Call>, front: seq<Path>, last: Path, p: Path)
    ensures CallsAt(LabelledOf(report, front + [last]), p)
         == CallsAt(LabelledOf(report, front), p) + if p == last then report(last) else []
  {
    var ps := front + [last];
    assert ps[..|ps| - 1] == front && ps[|ps| - 1] == last;
    CallsAtSum(LabelledOf(report, front), LabelAll(last, report(last)), p);
    CallsAtLabels(last, report(last), p);
  }

  lemma {:induction false} NoCallsAt(report: Reporter<Call>, ps: seq<Path>, n: nat, p: Path)
    requires n <= |ps| && forall i :: 0 <= i < n ==> ps[i] != p
    ensures CallsAt(LabelledOf(report, ps[..n]), p) == []
  {
    if n > 0 {
      NoCallsAt(report, ps, n - 1, p);
      CallsAtOneMore(report, ps[..n - 1], ps[n - 1], p);
      assert ps[..n] == ps[..n - 1] + [ps[n - 1]];
    }
  }

  lemma {:induction false} CallsAtOnly(report: Reporter<Call>, ps: seq<Path>, n: nat, k: nat, p: Path)
    requires k < n <= |ps| && ps[k] == p && forall i :: 0 <= i < n && i != k ==> ps[i] != p
    ensures CallsAt(LabelledOf(report, ps[..n]), p) == report(p)
  {
    assert ps[..n] == ps[..n - 1] + [ps[n - 1]];
    CallsAtOneMore(report, ps[..n - 1], ps[n - 1], p);
    if k == n - 1 {
      NoCallsAt(report, ps, n - 1, p);
      assert [] + report(p) == report(p);
    } else {
      CallsAtOnly(report, ps, n - 1, k, p);
      assert report(p) + [] == report(p);
    }
  }

  lemma {:induction false} CallsAtPath(report: Reporter<Call>, ps: seq<Path>, p: Path)
    requires forall i, j :: 0 <= i < j < |ps| ==> ps[i] != ps[j]
    ensures p in ps ==> CallsAt(LabelledOf(report, ps), p) == report(p)
    ensures p !in ps ==> CallsAt(LabelledOf(report, ps), p) == []
  {
    assert ps[..|ps|] == ps;
    if p in ps {
      var k :| 0 <= k < |ps| && ps[k] == p;
      CallsAtOnly(report, ps, |ps|, k, p);
    } else {
      NoCallsAt(report, ps, |ps|, p);
    }
  }

  lemma {:induction false} NeverBeforeItself(p: Path)
    ensures !Before(p, p)
    decreases |p|
  {
    if p != [] {
      NeverBeforeItself(p[1..]);
    }
  }

  /** The record holds, at every reached path, exactly the report of the node there, and at no other path any call. */
  lemma {:induction false} WalkReports(program: Node, hints: Hints, p: Path)
    ensures var calls := CallsAt(LabelledCalls(program, hints), p);
      if Reached(program, hints, p)
      then ReportsAs(NodeAt(program, p), hints, CoveredAt(program, p, false), calls)
      else calls == []
  {
    var ps := ReachedPaths(program, hints);
    TraverseIsPreorder(program, hints, false);
    forall i, j | 0 <= i < j < |ps| ensures ps[i] != ps[j] {
      NeverBeforeItself(ps[i]);
    }
    CallsAtPath(Reports(program, hints, false), ps, p);
    if Reached(program, hints, p) {
      OwnAtIsOwn(program, hints, false, p);
      OwnIsReport(NodeAt(program, p), hints, CoveredAt(program, p, false));
    }
  }

  // Calls of one node stand together, and those of nodes in preorder.
  ghost predicate InWalkOrder(labelled: seq<Labelled>) {
    forall i, j :: 0 <= i < j < |labelled| ==>
        labelled[i].path == labelled[j].path || Before(labelled[i].path, labelled[j].path)
  }

  lemma {:induction false} RecordInOrder(report: Reporter<Call>, ps: seq<Path>)
    requires InPreorder(ps)
    ensures InWalkOrder(LabelledOf(report, ps))
    ensures forall i :: 0 <= i < |LabelledOf(report, ps)| ==> LabelledOf(report, ps)[i].path in ps
  {
    if ps != [] {
      var front, last := ps[..|ps| - 1], ps[|ps| - 1];
      RecordInOrder(report, front);
      assert ps == front + [last];
      forall p | p in front ensures Before(p, last) {
        var k :| 0 <= k < |front| && front[k] == p;
        assert Before(ps[k], ps[|ps| - 1]);
      }
    }
  }

  lemma {:induction false} RecordIsTraversal(program: Node, hints: Hints)
    ensures Erased(LabelledCalls(program, hints)) == Traverse(program, hints, false, false)
  {
    ErasedOf(Reports(program, hints, false), ReachedPaths(program, hints));
    TraverseIsPreorder(program, hints, false);
  }

  /**
   The machine's record: the calls it makes, those of a node together and the nodes in preorder; at every reached path
   exactly what its node reports, and at no other path any call.
   */
  method WalkAndReport(program: Node, hints: Hints) returns (calls: seq<Call>, ghost record: seq<Labelled>)
    ensures calls == Traverse(program, hints, false, false)
    ensures calls == Erased(record) && InWalkOrder(record)
    ensures forall p ::
      if Reached(program, hints, p)
      then ReportsAs(NodeAt(program, p), hints, CoveredAt(program, p, false), CallsAt(record, p))
      else CallsAt(record, p) == []
  {
    calls, record := WalkWithPaths(program, hints);
    RecordIsTraversal(program, hints);
    TraverseIsPreorder(program, hints, false);
    RecordInOrder(Reports(program, hints, false), ReachedPaths(program, hints));
    forall p ensures
      if Reached(program, hints, p)
      then ReportsAs(NodeAt(program, p), hints, CoveredAt(program, p, false), CallsAt(record, p))
      else CallsAt(record, p) == []
    {
      WalkReports(program, hints, p);
    }
  }

  // A child that is lost: the ignored arm of an `if`, or a logical expression right under another one.
  ghost predicate IsLost(n: Node, i: nat, hints: Hints) {
    || (n.IfStatement? && ((i == 1 && hints(n.start) == IfHint) || (i == 2 && hints(n.start) == ElseHint)))
    || (n.LogicalExpression? && i < |Children(n)| && Children(n)[i].LogicalExpression?)
  }

  /** Reached are exactly the paths on which no node is ignored and no child is lost. */
  lemma {:induction false} ReachedIff(program: Node, hints: Hints, p: Path)
    requires IsPath(program, p) && forall k: nat :: k <= |p| ==> IsPath(program, p[..k])
    ensures Reached(program, hints, p) <==>
      && (forall k: nat :: k <= |p| ==> hints(NodeAt(program, p[..k]).start) != NextHint)
      && (forall k: nat :: k < |p| ==> !IsLost(NodeAt(program, p[..k]), p[k], hints))
  {
    if Reached(program, hints, p) {
      forall k: nat | k <= |p|
        ensures hints(NodeAt(program, p[..k]).start) != NextHint
        ensures k < |p| ==> !IsLost(NodeAt(program, p[..k]), p[k], hints)
      {
        assert Kept(program, hints, p[..k]);
        if k < |p| {
          assert Kept(program, hints, p[..k + 1]);
          StepIsKept(program, hints, p, k);
        }
      }
    }
    if (forall k: nat :: k <= |p| ==> hints(NodeAt(program, p[..k]).start) != NextHint)
        && (forall k: nat :: k < |p| ==> !IsLost(NodeAt(program, p[..k]), p[k], hints)) {
      forall k: nat | k <= |p| ensures Kept(program, hints, p[..k]) {
        if k == 0 {
          assert p[..k] == [];
        } else {
          StepIsKept(program, hints, p, k - 1);
        }
      }
    }
  }

  lemma {:induction false} StepIsKept(program: Node, hints: Hints, p: Path, k: nat)
    requires k < |p| && IsPath(program, p[..k]) && IsPath(program, p[..k + 1])
    ensures Kept(program, hints, p[..k + 1]) <==>
      hints(NodeAt(program, p[..k + 1]).start) != NextHint && !IsLost(NodeAt(program, p[..k]), p[k], hints)
  {
    KeptIff(program, hints, p[..k + 1]);
    assert p[..k + 1][..k] == p[..k];
  }

  lemma {:induction false} KeptIff(program: Node, hints: Hints, p: Path)
    requires p != [] && IsPath(program, p)
    ensures IsPath(program, p[..|p| - 1])
    ensures Kept(program, hints, p) <==>
      && hints(NodeAt(program, p).start) != NextHint
      && !IsLost(NodeAt(program, p[..|p| - 1]), p[|p| - 1], hints)
  {
    StepDown(program, p);
  }

  /** A function value is covered exactly right under a method or property. */
  lemma {:induction false} CoveredIff(program: Node, p: Path)
    requires p != [] && IsPath(program, p)
    ensures IsPath(program, p[..|p| - 1])
    ensures var parent := NodeAt(program, p[..|p| - 1]);
      CoveredAt(program, p, false) <==>
        (parent.MethodDefinition? || parent.Property?) && p[|p| - 1] == 1 && NodeAt(program, p).FunctionExpression?
    decreases |p|
  {
    StepDown(program, p);
    CoveredBelow(program, p, false);
  }

  lemma {:induction false} CoveredBelow(n: Node, p: Path, covered: bool)
    requires p != [] && IsPath(n, p) && IsPath(n, p[..|p| - 1])
    ensures CoveredAt(n, p, covered) == CoversChild(NodeAt(n, p[..|p| - 1]), p[|p| - 1])
    decreases |p|
  {
    if |p| > 1 {
      var child, front := Children(n)[p[0]], p[..|p| - 1];
      assert front[0] == p[0] && front[1..] == p[1..][..|p| - 2];
      assert NodeAt(n, front) == NodeAt(child, front[1..]);
      CoveredBelow(child, p[1..], CoversChild(n, p[0]));
    }
  }

  // ----- where arms and spans lie -----

  lemma {:induction false} FollowAt(lo: int, ns: seq<Node>, hi: int, j: nat)
    requires Follow(lo, ns, hi) && j < |ns|
    ensures lo <= ns[j].start <= ns[j].end <= hi
    ensures forall i :: 0 <= i < j ==> ns[i].end <= ns[j].start
    decreases j
  {
    if j == 0 {
      FollowEnds(ns[0].end, ns[1..], hi);
    } else {
      FollowAt(ns[0].end, ns[1..], hi, j - 1);
      assert forall i :: 1 <= i < j ==> ns[i] == ns[1..][i - 1];
    }
  }

  lemma {:induction false} FollowEnds(lo: int, ns: seq<Node>, hi: int)
    requires Follow(lo, ns, hi)
    ensures lo <= hi
    decreases |ns|
  {
    if ns != [] {
      FollowEnds(ns[0].end, ns[1..], hi);
    }
  }

  lemma {:induction false} ChildInOrder(n: Node, i: nat)
    requires InOrder(n) && i < |Children(n)|
    ensures InOrder(Children(n)[i])
  {
    ChildrenAreFields(n);
    var field, child := Fields(n)[i], Children(n)[i];
    if child != field {
      if IsBoxed(n, i) {
        assert Fields(child) == [field] && [field][1..] == [];
        assert Follow(field.end, [], field.end) && Follow(field.start, [field], field.end);
      } else {
        assert Fields(field)[0] == child;
      }
    }
  }

  lemma {:induction false} NodeInOrder(n: Node, p: Path)
    requires InOrder(n) && IsPath(n, p)
    ensures InOrder(NodeAt(n, p))
    decreases |p|
  {
    if p != [] {
      ChildInOrder(n, p[0]);
      NodeInOrder(Children(n)[p[0]], p[1..]);
    }
  }

  lemma {:induction false} UnhintedPlaced(n: Node, ns: seq<Node>, hints: Hints, lo: int)
    requires n.start <= lo && Follow(lo, ns, n.end)
    ensures ArePlaced(n, ArmsOf(Unhinted(ns, hints)))
  {
    var picked := UnhintedPicked(ns, hints);
    var kept := Unhinted(ns, hints);
    forall i | 0 <= i < |kept|
      ensures n.start <= kept[i].start <= kept[i].end <= n.end
      ensures forall j :: 0 <= j < i ==> kept[j].end <= kept[i].start
    {
      FollowAt(lo, ns, n.end, picked[i]);
    }
  }

  lemma {:induction false} SwitchPlaced(n: Node, hints: Hints)
    requires n.SwitchStatement? && InOrder(n)
    ensures ArePlaced(n, ArmsOf(Unhinted(n.cases, hints)))
  {
    var fields := [n.discriminant] + n.cases;
    assert fields[1..] == n.cases;
    UnhintedPlaced(n, n.cases, hints, n.discriminant.end);
  }

  // A node without its parentheses lies where it lay.
  lemma {:induction false} BareInside(n: Node)
    requires InOrder(n)
    ensures n.start <= Unwrap(n).start <= Unwrap(n).end <= n.end
  {
    if n.ParenthesizedExpression? {
      assert Fields(n)[0] == n.expression;
      FollowAt(n.start, Fields(n), n.end, 0);
    }
  }

  lemma {:induction false} ConditionalPlaced(n: Node, hints: Hints)
    requires n.ConditionalExpression? && InOrder(n)
    ensures ArePlaced(n, ArmsOf(Unhinted([Unwrap(n.whenTrue), Unwrap(n.whenFalse)], hints)))
  {
    var fields, arms := Fields(n), [Unwrap(n.whenTrue), Unwrap(n.whenFalse)];
    assert fields[1] == n.whenTrue && fields[2] == n.whenFalse;
    FollowAt(n.start, fields, n.end, 1);
    FollowAt(n.start, fields, n.end, 2);
    BareInside(n.whenTrue);
    BareInside(n.whenFalse);
    assert arms[1..] == [arms[1]] && arms[1..][1..] == [];
    assert Follow(arms[1].end, [], n.end) && Follow(arms[0].end, [arms[1]], n.end) && Follow(n.start, arms, n.end);
    UnhintedPlaced(n, arms, hints, n.start);
  }

  lemma {:induction false} IfPlaced(n: Node, arms: seq<Option<Arm>>, hint: Hint)
    requires n.IfStatement? && InOrder(n) && AreIfArms(n, hint, arms)
    ensures ArePlaced(n, arms)
  {
    FollowAt(n.start, Fields(n), n.end, 1);
    if n.alternate.Some? {
      assert Fields(n)[2] == n.alternate.value;
      FollowAt(n.start, Fields(n), n.end, 2);
    }
  }

  lemma {:induction false} DefaultPlaced(n: Node)
    requires n.AssignmentPattern? && InOrder(n)
    ensures ArePlaced(n, [ArmOf(n.right)])
  {
    FollowAt(n.start, Fields(n), n.end, 1);
  }

  lemma {:induction false} FlowArmsPlaced(n: Node, hints: Hints, covered: bool, c: Call)
    requires (n.IfStatement? || n.SwitchStatement?) && InOrder(n) && c in Own(n, hints, covered) && c.AddBranch?
    ensures ArePlaced(n, c.arms)
  {
    if n.IfStatement? {
      IfArmsAre(n, hints(n.start));
      IfPlaced(n, c.arms, hints(n.start));
    } else {
      SwitchPlaced(n, hints);
    }
  }

  lemma {:induction false} ExpressionArmsPlaced(n: Node, hints: Hints, covered: bool, c: Call)
    requires n.ConditionalExpression? || n.LogicalExpression? || n.AssignmentPattern?
    requires InOrder(n) && c in Own(n, hints, covered) && c.AddBranch?
    ensures ArePlaced(n, c.arms)
  {
    if n.ConditionalExpression? {
      ConditionalPlaced(n, hints);
    } else if n.LogicalExpression? {
      LeavesInOrder(n, hints);
    } else {
      DefaultPlaced(n);
    }
  }

  /** In every tree whose sub-nodes lie in order, a branch's arms lie inside its node, in source order. */
  lemma {:induction false} ArmsArePlaced(n: Node, hints: Hints, covered: bool, c: Call)
    requires InOrder(n) && c in Own(n, hints, covered) && c.AddBranch?
    ensures ArePlaced(n, c.arms)
  {
    if n.ClassBody? {
      ClassOwn(n, hints, covered);
    } else if n.IfStatement? || n.SwitchStatement? {
      FlowArmsPlaced(n, hints, covered, c);
    } else {
      ExpressionArmsPlaced(n, hints, covered, c);
    }
  }

  // ----- where the spans of the other calls come from -----

  ghost predicate IsSpanIn(n: Node, span: Span) {
    exists m :: InTree(n, m) && span == SpanOf(m)
  }

  lemma {:induction false} FieldSpan(n: Node, m: Node)
    requires m in Fields(n)
    ensures InTree(n, m) && IsSpanIn(n, SpanOf(m))
  {
    var i :| 0 <= i < |Fields(n)| && Fields(n)[i] == m;
    assert InTree(Fields(n)[i], m);
  }

  lemma {:induction false} DeepSpan(n: Node, m: Node, d: Node)
    requires m in Fields(n) && d in Fields(m)
    ensures IsSpanIn(n, SpanOf(d))
  {
    FieldSpan(m, d);
    var i :| 0 <= i < |Fields(n)| && Fields(n)[i] == m;
    assert InTree(Fields(n)[i], d);
    assert InTree(n, d);
  }

  lemma {:induction false} SelfSpan(n: Node)
    ensures IsSpanIn(n, SpanOf(n))
  {
    assert InTree(n, n);
  }

  // Where the fields of a function and of a function's host stand.
  lemma {:induction false} FunctionFields(n: Node)
    ensures n.FunctionDeclaration? || n.FunctionExpression? || n.ArrowFunctionExpression? ==> n.body in Fields(n)
    ensures (n.FunctionDeclaration? || n.FunctionExpression?) && n.id.Some? ==> n.id.value in Fields(n)
    ensures n.MethodDefinition? || n.Property? ==> n.key in Fields(n) && n.value in Fields(n)
    ensures n.ParenthesizedExpression? ==> n.expression in Fields(n)
    ensures n.VariableDeclarator? && n.init.Some? ==> n.init.value in Fields(n)
    ensures n.ClassField? && n.initial.Some? ==> n.initial.value in Fields(n)
  {
    match n
    case FunctionDeclaration(_, _, id, params, body) => LastIn(Maybe(id) + params, body);
    case FunctionExpression(_, _, id, params, body) => LastIn(Maybe(id) + params, body);
    case ArrowFunctionExpression(_, _, params, body) => LastIn(params, body);
    case _ =>
  }

  lemma {:induction false} LastIn(front: seq<Node>, last: Node)
    ensures last in front + [last]
  {
    assert (front + [last])[|front|] == last;
  }

  // A node with the parentheses around it gone.
  lemma {:induction false} BareSpan(n: Node, m: Node)
    requires m in Fields(n)
    ensures IsSpanIn(n, SpanOf(Unwrap(m)))
  {
    FieldSpan(n, m);
    if m.ParenthesizedExpression? {
      FunctionFields(m);
      DeepSpan(n, m, m.expression);
    }
  }

  ghost predicate HasFunctionSpans(n: Node, c: Call)
    requires c.AddFunction?
  {
    IsSpanIn(n, c.coverage) && IsSpanIn(n, c.loc) && (IsSpanIn(n, c.decl) || c.decl == Span(n.start, n.start + 1))
  }

  lemma {:induction false} PlainFunctionSpans(n: Node, hints: Hints, covered: bool, c: Call)
    requires n.FunctionDeclaration? || n.FunctionExpression? || n.ArrowFunctionExpression?
    requires c in Own(n, hints, covered) && c.AddFunction?
    ensures HasFunctionSpans(n, c)
  {
    SelfSpan(n);
    FunctionFields(n);
    if n.ArrowFunctionExpression? {
      BareSpan(n, n.body);
    } else {
      FieldSpan(n, n.body);
      if n.id.Some? {
        FieldSpan(n, n.id.value);
      }
    }
  }

  lemma {:induction false} MemberSpans(n: Node, hints: Hints, covered: bool, c: Call)
    requires (n.MethodDefinition? || n.Property?) && c in Own(n, hints, covered) && c.AddFunction?
    ensures HasFunctionSpans(n, c)
  {
    SelfSpan(n);
    FunctionFields(n);
    FieldSpan(n, n.key);
    FieldSpan(n, n.value);
    if n.value.FunctionExpression? {
      FunctionFields(n.value);
      DeepSpan(n, n.value, n.value.body);
    }
  }

  lemma {:induction false} FunctionSpans(n: Node, hints: Hints, covered: bool, c: Call)
    requires c in Own(n, hints, covered) && c.AddFunction?
    ensures HasFunctionSpans(n, c)
  {
    if n.MethodDefinition? || n.Property? {
      MemberSpans(n, hints, covered, c);
    } else if n.ClassBody? {
      ClassOwn(n, hints, covered);
    } else {
      PlainFunctionSpans(n, hints, covered, c);
    }
  }

  lemma {:induction false} FieldValueSpan(n: Node, c: Call)
    requires n.ClassBody? && c in FieldStatements(n.members)
    ensures c.AddStatement? && IsSpanIn(n, c.coverage) && IsSpanIn(n, c.node)
  {
    var picked := FieldsPicked(n.members);
    var k :| 0 <= k < |FieldStatements(n.members)| && FieldStatements(n.members)[k] == c;
    assert IsFieldCall(n.members, picked[k], c);
    FunctionFields(n.members[picked[k]]);
    DeepSpan(n, n.members[picked[k]], n.members[picked[k]].initial.value);
  }

  lemma {:induction false} StatementSpans(n: Node, hints: Hints, covered: bool, c: Call)
    requires c in Own(n, hints, covered) && c.AddStatement?
    ensures IsSpanIn(n, c.coverage) && IsSpanIn(n, c.node)
  {
    SelfSpan(n);
    FunctionFields(n);
    match n
    case ArrowFunctionExpression(_, _, _, body) => BareSpan(n, body);
    case VariableDeclarator(_, _, _, init) =>
      if init.Some? {
        FieldSpan(n, init.value);
      }
    case ClassBody(_, _, _) => FieldValueSpan(n, c);
    case _ =>
  }

  /**
   Every reported statement and function carries spans of sub-nodes of its node, an unnamed function that of its first
   character; and where sub-nodes lie in order, a reported branch's arms lie in its node, in source order.
   */
  lemma {:induction false} ReportsLieInTheirNode(program: Node, hints: Hints, p: Path, c: Call)
    requires Labelled(p, c) in LabelledCalls(program, hints)
    ensures Reached(program, hints, p)
    ensures var n := NodeAt(program, p);
      match c
      case AddFunction(_, _, _, _) => HasFunctionSpans(n, c)
      case AddStatement(node, coverage) => IsSpanIn(n, node) && IsSpanIn(n, coverage)
      case AddBranch(_, node, arms) => node == SpanOf(n) && (InOrder(program) ==> ArePlaced(n, arms))
  {
    ReportedIffReached(program, hints, p, c);
    var n, covered := NodeAt(program, p), CoveredAt(program, p, false);
    match c
    case AddFunction(_, _, _, _) => FunctionSpans(n, hints, covered, c);
    case AddStatement(_, _) => StatementSpans(n, hints, covered, c);
    case AddBranch(_, _, _) =>
      BranchSpan(n, hints, covered, c);
      if InOrder(program) {
        NodeInOrder(program, p);
        ArmsArePlaced(n, hints, covered, c);
      }
  }

  lemma {:induction false} BranchSpan(n: Node, hints: Hints, covered: bool, c: Call)
    requires c in Own(n, hints, covered) && c.AddBranch?
    ensures c.node == SpanOf(n)
  {
    if n.ClassBody? {
      ClassOwn(n, hints, covered);
    }
  }
}
