/**
 The converter's walk over the syntax tree: flat enter/leave callbacks with one `nextIgnore` slot,
 against a recursive traversal that prunes ignored subtrees.
 */
module AstWalk {
  import opened Wrappers
  import opened CoverageModel
  import opened CoverageBuilder

  datatype Node =
    | FunctionDeclaration(start: int, end: int, id: Option<Node>, params: seq<Node>, body: Node)
    | FunctionExpression(start: int, end: int, id: Option<Node>, params: seq<Node>, body: Node)
    | ArrowFunctionExpression(start: int, end: int, params: seq<Node>, body: Node)
    | MethodDefinition(start: int, end: int, key: Node, value: Node)
    | Property(start: int, end: int, key: Node, value: Node)
    | ExpressionStatement(start: int, end: int, expression: Node)
    | PlainStatement(start: int, end: int, children: seq<Node>)  // break, return, loops, try, labels, ...
    | VariableDeclarator(start: int, end: int, target: Node, init: Option<Node>)
    | ClassBody(start: int, end: int, members: seq<Node>)
    | ClassField(start: int, end: int, key: Node, initial: Option<Node>)
    | IfStatement(start: int, end: int, test: Node, consequent: Node, alternate: Option<Node>)
    | SwitchStatement(start: int, end: int, discriminant: Node, cases: seq<Node>)
    | ConditionalExpression(start: int, end: int, test: Node, whenTrue: Node, whenFalse: Node)
    | LogicalExpression(start: int, end: int, left: Node, right: Node)
    | AssignmentPattern(start: int, end: int, left: Node, right: Node)
    | ParenthesizedExpression(start: int, end: int, expression: Node)
    | BlockStatement(start: int, end: int, children: seq<Node>)
    | Literal(start: int, end: int, isUseStrict: bool)
    | Identifier(start: int, end: int, name: string)
    | Other(start: int, end: int, children: seq<Node>)

  datatype Hint = NoHint | IfHint | ElseHint | NextHint

  // The ignore hint that ends right before an offset, if any.
  type Hints = int -> Hint

  datatype Call =
    | AddFunction(name: string, loc: Span, decl: Span, coverage: Span)
    | AddStatement(node: Span, coverage: Span)
    | AddBranch(branchType: BranchType, node: Span, arms: seq<Option<Arm>>)

  // A node is known by its path from the root, in child indexes of the rewritten tree.
  type Path = seq<nat>

  // ----- the tree as the walk sees it -----

  function SpanOf(n: Node): Span {
    Span(n.start, n.end)
  }

  function ToBlockStatement(n: Node): Node {
    if n.BlockStatement? then n else BlockStatement(n.start, n.end, [n])
  }

  function Unwrap(n: Node): Node {
    if n.ParenthesizedExpression? then n.expression else n
  }

  function Maybe(n: Option<Node>): seq<Node> {
    if n.Some? then [n.value] else []
  }

  // The sub-nodes of a node as the grammar has them, in the order its fields come.
  ghost function Fields(n: Node): (fields: seq<Node>)
    ensures forall m :: m in fields ==> m < n
  {
    match n
    case FunctionDeclaration(_, _, id, params, body) => Maybe(id) + params + [body]
    case FunctionExpression(_, _, id, params, body) => Maybe(id) + params + [body]
    case ArrowFunctionExpression(_, _, params, body) => params + [body]
    case MethodDefinition(_, _, key, value) => [key, value]
    case Property(_, _, key, value) => [key, value]
    case ExpressionStatement(_, _, expression) => [expression]
    case PlainStatement(_, _, children) => children
    case VariableDeclarator(_, _, target, init) => [target] + Maybe(init)
    case ClassBody(_, _, members) => members
    case ClassField(_, _, key, initial) => [key] + Maybe(initial)
    case IfStatement(_, _, test, consequent, alternate) => [test, consequent] + Maybe(alternate)
    case SwitchStatement(_, _, discriminant, cases) => [discriminant] + cases
    case ConditionalExpression(_, _, test, whenTrue, whenFalse) => [test, whenTrue, whenFalse]
    case LogicalExpression(_, _, left, right) => [left, right]
    case AssignmentPattern(_, _, left, right) => [left, right]
    case ParenthesizedExpression(_, _, expression) => [expression]
    case BlockStatement(_, _, children) => children
    case Literal(_, _, _) => []
    case Identifier(_, _, _) => []
    case Other(_, _, children) => children
  }

  // Nodes that follow each other between two offsets.
  ghost predicate Follow(lo: int, ns: seq<Node>, hi: int)
    decreases |ns|
  {
    if ns == [] then lo <= hi else lo <= ns[0].start <= ns[0].end && Follow(ns[0].end, ns[1..], hi)
  }

  // Shorthand properties and patterns hold one text twice; of loops, labels and the rest no order is asked.
  ghost predicate IsOrdered(n: Node) {
    !n.Property? && !n.PlainStatement? && !n.Other?
  }

  // Sub-nodes follow each other and lie inside their parent.
  ghost predicate InOrder(n: Node)
    decreases n
  {
    && n.start <= n.end && (IsOrdered(n) ==> Follow(n.start, Fields(n), n.end))
    && forall i :: 0 <= i < |Fields(n)| ==> InOrder(Fields(n)[i])
  }

  // Bare arms of an `if` become blocks; parentheses around arrow bodies and conditional arms are dropped.
  function Children(n: Node): seq<Node> {
    match n
    case FunctionDeclaration(_, _, id, params, body) => Maybe(id) + params + [body]
    case FunctionExpression(_, _, id, params, body) => Maybe(id) + params + [body]
    case ArrowFunctionExpression(_, _, params, body) => params + [Unwrap(body)]
    case MethodDefinition(_, _, key, value) => [key, value]
    case Property(_, _, key, value) => [key, value]
    case ExpressionStatement(_, _, expression) => [expression]
    case PlainStatement(_, _, children) => children
    case VariableDeclarator(_, _, target, init) => [target] + Maybe(init)
    case ClassBody(_, _, members) => members
    case ClassField(_, _, key, initial) => [key] + Maybe(initial)
    case IfStatement(_, _, test, consequent, alternate) =>
      [test, ToBlockStatement(consequent)] + (if alternate.Some? then [ToBlockStatement(alternate.value)] else [])
    case SwitchStatement(_, _, discriminant, cases) => [discriminant] + cases
    case ConditionalExpression(_, _, test, whenTrue, whenFalse) => [test, Unwrap(whenTrue), Unwrap(whenFalse)]
    case LogicalExpression(_, _, left, right) => [left, right]
    case AssignmentPattern(_, _, left, right) => [left, right]
    case ParenthesizedExpression(_, _, expression) => [expression]
    case BlockStatement(_, _, children) => children
    case Literal(_, _, _) => []
    case Identifier(_, _, _) => []
    case Other(_, _, children) => children
  }

  // A size that also pays for the blocks the walk adds.
  function Size(n: Node): nat
    decreases n, 1
  {
    match n
    case FunctionDeclaration(_, _, id, params, body) =>
        1 + (if id.Some? then Size(id.value) else 0) + Sizes(params) + Size(body)
    case FunctionExpression(_, _, id, params, body) =>
        1 + (if id.Some? then Size(id.value) else 0) + Sizes(params) + Size(body)
    case ArrowFunctionExpression(_, _, params, body) => 1 + Sizes(params) + Size(body)
    case MethodDefinition(_, _, key, value) => 1 + Size(key) + Size(value)
    case Property(_, _, key, value) => 1 + Size(key) + Size(value)
    case ExpressionStatement(_, _, expression) => 1 + Size(expression)
    case PlainStatement(_, _, children) => 1 + Sizes(children)
    case VariableDeclarator(_, _, target, init) => 1 + Size(target) + (if init.Some? then Size(init.value) else 0)
    case ClassBody(_, _, members) => 1 + Sizes(members)
    case ClassField(_, _, key, initial) => 1 + Size(key) + (if initial.Some? then Size(initial.value) else 0)
    case IfStatement(_, _, test, consequent, alternate) =>
        3 + Size(test) + Size(consequent) + (if alternate.Some? then Size(alternate.value) else 0)
    case SwitchStatement(_, _, discriminant, cases) => 1 + Size(discriminant) + Sizes(cases)
    case ConditionalExpression(_, _, test, whenTrue, whenFalse) => 1 + Size(test) + Size(whenTrue) + Size(whenFalse)
    case LogicalExpression(_, _, left, right) => 1 + Size(left) + Size(right)
    case AssignmentPattern(_, _, left, right) => 1 + Size(left) + Size(right)
    case ParenthesizedExpression(_, _, expression) => 1 + Size(expression)
    case BlockStatement(_, _, children) => 1 + Sizes(children)
    case Literal(_, _, _) => 1
    case Identifier(_, _, _) => 1
    case Other(_, _, children) => 1 + Sizes(children)
  }

  function Sizes(ns: seq<Node>): nat
    decreases ns, 0
  {
    if ns == [] then 0 else Size(ns[0]) + Sizes(ns[1..])
  }

  lemma {:induction false} ElementFits(ns: seq<Node>, i: nat)
    requires i < |ns|
    ensures Size(ns[i]) <= Sizes(ns)
  {
    if i > 0 {
      ElementFits(ns[1..], i - 1);
    }
  }

  lemma {:induction false} SizeOfOne(n: Node)
    ensures Sizes([n]) == Size(n)
  {
    assert [n][1..] == [];
  }

  lemma {:induction false} SizesOfSum(a: seq<Node>, b: seq<Node>)
    ensures Sizes(a + b) == Sizes(a) + Sizes(b)
  {
    if a == [] {
      assert a + b == b;
    } else {
      assert (a + b)[1..] == a[1..] + b;
      SizesOfSum(a[1..], b);
    }
  }

  lemma {:induction false} SizeOfPair(a: Node, b: Node)
    ensures Sizes([a, b]) == Size(a) + Size(b)
  {
    SizeOfOne(b);
    assert [a, b][1..] == [b];
  }

  lemma {:induction false} SizeOfMaybe(n: Option<Node>)
    ensures Sizes(Maybe(n)) == if n.Some? then Size(n.value) else 0
  {
    if n.Some? {
      SizeOfOne(n.value);
    }
  }

  lemma {:induction false} SizeOfBlock(n: Node)
    ensures Size(ToBlockStatement(n)) <= Size(n) + 1
  {
    SizeOfOne(n);
  }

  lemma {:induction false} SizeOfFunction(id: Option<Node>, params: seq<Node>, body: Node)
    ensures Sizes(Maybe(id) + params + [body]) == (if id.Some? then Size(id.value) else 0) + Sizes(params) + Size(body)
  {
    SizesOfSum(Maybe(id) + params, [body]);
    SizesOfSum(Maybe(id), params);
    SizeOfMaybe(id);
    SizeOfOne(body);
  }

  lemma {:induction false} SizeOfIf(test: Node, consequent: Node, alternate: Option<Node>)
    ensures Sizes([test, ToBlockStatement(consequent)]
        + (if alternate.Some? then [ToBlockStatement(alternate.value)] else []))
         <= 2 + Size(test) + Size(consequent) + if alternate.Some? then Size(alternate.value) else 0
  {
    SizeOfPair(test, ToBlockStatement(consequent));
    SizeOfBlock(consequent);
    if alternate.Some? {
      SizesOfSum([test, ToBlockStatement(consequent)], [ToBlockStatement(alternate.value)]);
      SizeOfOne(ToBlockStatement(alternate.value));
      SizeOfBlock(alternate.value);
    } else {
      assert [test, ToBlockStatement(consequent)] + [] == [test, ToBlockStatement(consequent)];
    }
  }

  lemma {:induction false} FunctionChildrenFit(n: Node)
    requires n.FunctionDeclaration? || n.FunctionExpression? || n.ArrowFunctionExpression? || n.MethodDefinition?
        || n.Property?
    ensures Sizes(Children(n)) < Size(n)
  {
    match n
    case FunctionDeclaration(_, _, id, params, body) => SizeOfFunction(id, params, body);
    case FunctionExpression(_, _, id, params, body) => SizeOfFunction(id, params, body);
    case ArrowFunctionExpression(_, _, params, body) =>
      SizesOfSum(params, [Unwrap(body)]);
      SizeOfOne(Unwrap(body));
    case MethodDefinition(_, _, key, value) => SizeOfPair(key, value);
    case Property(_, _, key, value) => SizeOfPair(key, value);
  }

  lemma {:induction false} SizeOfHead(first: Node, rest: seq<Node>)
    ensures Sizes([first] + rest) == Size(first) + Sizes(rest)
  {
    SizesOfSum([first], rest);
    SizeOfOne(first);
  }

  lemma {:induction false} InitializedChildrenFit(n: Node)
    requires n.VariableDeclarator? || n.ClassField?
    ensures Sizes(Children(n)) < Size(n)
  {
    match n
    case VariableDeclarator(_, _, target, init) =>
      SizeOfHead(target, Maybe(init));
      SizeOfMaybe(init);
    case ClassField(_, _, key, initial) =>
      SizeOfHead(key, Maybe(initial));
      SizeOfMaybe(initial);
  }

  lemma {:induction false} StatementChildrenFit(n: Node)
    requires n.IfStatement? || n.SwitchStatement? || n.ExpressionStatement?
    ensures Sizes(Children(n)) < Size(n)
  {
    match n
    case ExpressionStatement(_, _, expression) => SizeOfOne(expression);
    case IfStatement(_, _, test, consequent, alternate) => SizeOfIf(test, consequent, alternate);
    case SwitchStatement(_, _, discriminant, cases) => SizeOfHead(discriminant, cases);
  }

  lemma {:induction false} SizeOfThree(a: Node, b: Node, c: Node)
    ensures Sizes([a, b, c]) == Size(a) + Size(b) + Size(c)
  {
    SizeOfPair(b, c);
    assert [a, b, c][1..] == [b, c];
  }

  lemma {:induction false} ConditionalChildrenFit(n: Node)
    requires n.ConditionalExpression?
    ensures Sizes(Children(n)) < Size(n)
  {
    SizeOfThree(n.test, Unwrap(n.whenTrue), Unwrap(n.whenFalse));
  }

  lemma {:induction false} ExpressionChildrenFit(n: Node)
    requires n.LogicalExpression? || n.AssignmentPattern? || n.ParenthesizedExpression?
    ensures Sizes(Children(n)) < Size(n)
  {
    match n
    case LogicalExpression(_, _, left, right) => SizeOfPair(left, right);
    case AssignmentPattern(_, _, left, right) => SizeOfPair(left, right);
    case ParenthesizedExpression(_, _, expression) => SizeOfOne(expression);
  }

  lemma {:induction false} ChildrenFit(n: Node)
    ensures Sizes(Children(n)) < Size(n)
  {
    if n.FunctionDeclaration? || n.FunctionExpression? || n.ArrowFunctionExpression? || n.MethodDefinition?
        || n.Property?
    {
      FunctionChildrenFit(n);
    } else if n.VariableDeclarator? || n.ClassField? {
      InitializedChildrenFit(n);
    } else if n.IfStatement? || n.SwitchStatement? || n.ExpressionStatement? {
      StatementChildrenFit(n);
    } else if n.ConditionalExpression? {
      ConditionalChildrenFit(n);
    } else if n.LogicalExpression? || n.AssignmentPattern? || n.ParenthesizedExpression? {
      ExpressionChildrenFit(n);
    }
  }

  lemma {:induction false} ChildIsSmaller(n: Node, i: nat)
    requires i < |Children(n)|
    ensures Size(Children(n)[i]) < Size(n)
  {
    ChildrenFit(n);
    ElementFits(Children(n), i);
  }

  // ----- the recursive meaning -----

  function GivenName(n: Node): string {
    match n
    case Identifier(_, _, name) => name
    case FunctionDeclaration(_, _, id, _, _) => if id.Some? then GivenName(id.value) else ""
    case FunctionExpression(_, _, id, _, _) => if id.Some? then GivenName(id.value) else ""
    case MethodDefinition(_, _, key, _) => GivenName(key)
    case Property(_, _, key, _) => GivenName(key)
    case _ => ""
  }

  // The span of a function value's body; the grammar gives methods no other value.
  function BodySpan(value: Node): Span {
    if value.FunctionExpression? then SpanOf(value.body) else SpanOf(value)
  }

  function Head(n: Node): Span {
    Span(n.start, n.start + 1)
  }

  function ArmOf(n: Node): Option<Arm> {
    Some(Arm(SpanOf(n), n.BlockStatement?))
  }

  // The operands of a logical chain, in source order; a hinted sub-chain counts as one operand.
  function Leaves(n: Node, hints: Hints): seq<Node> {
    if n.LogicalExpression? && hints(n.start) != NextHint then Leaves(n.left, hints) + Leaves(n.right, hints) else [n]
  }

  function ArmsOf(ns: seq<Node>): seq<Option<Arm>> {
    seq(|ns|, i requires 0 <= i < |ns| => ArmOf(ns[i]))
  }

  function Unhinted(ns: seq<Node>, hints: Hints): seq<Node> {
    if ns == [] then [] else
      Unhinted(ns[..|ns| - 1], hints) + (if hints(ns[|ns| - 1].start) != NextHint then [ns[|ns| - 1]] else [])
  }

  function FieldStatements(ns: seq<Node>): seq<Call> {
    if ns == [] then [] else
      var last := ns[|ns| - 1];
      FieldStatements(ns[..|ns| - 1])
      + if last.ClassField? && last.initial.Some?
          then [AddStatement(SpanOf(last.initial.value), SpanOf(last.initial.value))] else []
  }

  function IfArms(n: Node, hint: Hint): seq<Option<Arm>>
    requires n.IfStatement?
  {
    (if hint == IfHint then [] else [ArmOf(ToBlockStatement(n.consequent))])
    + (if hint == ElseHint then []
       else if n.alternate.Some? then [ArmOf(ToBlockStatement(n.alternate.value))]
       else if hint == IfHint then [] else [None])
  }

  // What a visited node reports by itself. A function value already reported by its method or property is covered.
  function Own(n: Node, hints: Hints, covered: bool): seq<Call> {
    match n
    case FunctionDeclaration(_, _, id, _, body) =>
      [AddFunction(GivenName(n), SpanOf(body), if id.Some? then SpanOf(id.value) else Head(n), SpanOf(n))]
    case FunctionExpression(_, _, id, _, body) =>
      if covered then []
      else [AddFunction(GivenName(n), SpanOf(body), if id.Some? then SpanOf(id.value) else Head(n), SpanOf(n))]
    case MethodDefinition(_, _, key, value) => [AddFunction(GivenName(n), BodySpan(value), SpanOf(key), SpanOf(n))]
    case Property(_, _, key, value) =>
      if value.FunctionExpression? then [AddFunction(GivenName(n), BodySpan(value), SpanOf(key), SpanOf(value))] else []
    case ArrowFunctionExpression(_, _, _, body) =>
      [AddFunction("", SpanOf(Unwrap(body)), Head(n), SpanOf(n))]
      + if Unwrap(body).BlockStatement? then [] else [AddStatement(SpanOf(Unwrap(body)), SpanOf(n))]
    case ExpressionStatement(_, _, expression) =>
      if expression.Literal? && expression.isUseStrict then [] else [AddStatement(SpanOf(n), SpanOf(n))]
    case PlainStatement(_, _, _) => [AddStatement(SpanOf(n), SpanOf(n))]
    case VariableDeclarator(_, _, _, init) => if init.Some? then [AddStatement(SpanOf(init.value), SpanOf(n))] else []
    case ClassBody(_, _, members) => FieldStatements(members)
    case IfStatement(_, _, _, _, _) =>
        [AddBranch(IfBranch, SpanOf(n), IfArms(n, hints(n.start))), AddStatement(SpanOf(n), SpanOf(n))]
    case SwitchStatement(_, _, _, cases) =>
        [AddBranch(Switch, SpanOf(n), ArmsOf(Unhinted(cases, hints))), AddStatement(SpanOf(n), SpanOf(n))]
    case ConditionalExpression(_, _, _, whenTrue, whenFalse) =>
      [AddBranch(CondExpr, SpanOf(n), ArmsOf(Unhinted([Unwrap(whenTrue), Unwrap(whenFalse)], hints)))]
    case LogicalExpression(_, _, _, _) => [AddBranch(BinaryExpr, SpanOf(n), ArmsOf(Leaves(n, hints)))]
    case AssignmentPattern(_, _, _, right) => [AddBranch(DefaultArg, SpanOf(n), [ArmOf(right)])]
    case _ => []
  }

  // The children a visited node takes out of the walk.
  predicate Skips(n: Node, i: nat, hints: Hints) {
    match n
    case IfStatement(_, _, _, _, alternate) => (i == 1 && hints(n.start) == IfHint)
        || (i == 2 && alternate.Some? && hints(n.start) == ElseHint)
    case ConditionalExpression(_, _, _, whenTrue, whenFalse) =>
      (i == 1 && hints(Unwrap(whenTrue).start) == NextHint) || (i == 2 && hints(Unwrap(whenFalse).start) == NextHint)
    case LogicalExpression(_, _, left, right) => (i == 0 && left.LogicalExpression?)
        || (i == 1 && right.LogicalExpression?)
    case _ => false
  }

  predicate CoversChild(n: Node, i: nat) {
    match n
    case MethodDefinition(_, _, _, value) => i == 1 && value.FunctionExpression?
    case Property(_, _, _, value) => i == 1 && value.FunctionExpression?
    case _ => false
  }

  function Joined<T>(parts: seq<seq<T>>, k: nat): seq<T>
    requires k <= |parts|
  {
    if k == 0 then [] else Joined(parts, k - 1) + parts[k - 1]
  }

  /** The recursive traversal: a hinted or skipped node contributes nothing, nor does anything below it. */
  function Traverse(n: Node, hints: Hints, skipped: bool, covered: bool): seq<Call>
    decreases Size(n)
  {
    if hints(n.start) == NextHint || skipped then [] else
      var parts := seq(|Children(n)|, i requires 0 <= i < |Children(n)| =>
        (ChildIsSmaller(n, i);
         Traverse(Children(n)[i], hints, Skips(n, i, hints), CoversChild(n, i))));
      Own(n, hints, covered) + Joined(parts, |parts|)
  }

  // The calls made below each child.
  ghost predicate IsParts(parts: seq<seq<Call>>, n: Node, hints: Hints) {
    |parts| == |Children(n)|
    && forall i: nat {:trigger Children(n)[i]} :: i < |parts| ==>
        parts[i] == Traverse(Children(n)[i], hints, Skips(n, i, hints), CoversChild(n, i))
  }

  // What a traversal adds up to, for a machine that goes child by child.
  lemma {:induction false} PartsOf(n: Node, hints: Hints, skipped: bool, covered: bool) returns (parts: seq<seq<Call>>)
    ensures IsParts(parts, n, hints)
    ensures Traverse(n, hints, skipped, covered) ==
      if hints(n.start) == NextHint || skipped then [] else Own(n, hints, covered) + Joined(parts, |parts|)
  {
    parts := seq(|Children(n)|,
        i requires 0 <= i < |Children(n)| => Traverse(Children(n)[i], hints, Skips(n, i, hints), CoversChild(n, i)));
  }

  // ----- the same with labels -----

  // A call with the path of the node that makes it.
  datatype Labelled = Labelled(path: Path, call: Call)

  ghost function LabelAll(p: Path, calls: seq<Call>): seq<Labelled> {
    seq(|calls|, k requires 0 <= k < |calls| => Labelled(p, calls[k]))
  }

  ghost function Erased(labelled: seq<Labelled>): seq<Call> {
    seq(|labelled|, k requires 0 <= k < |labelled| => labelled[k].call)
  }

  // The traversal of a node at some path, each call with its node.
  ghost function TraverseAt(n: Node, hints: Hints, skipped: bool, covered: bool, path: Path): seq<Labelled>
    decreases Size(n)
  {
    if hints(n.start) == NextHint || skipped then [] else
      var parts := seq(|Children(n)|, i requires 0 <= i < |Children(n)| =>
        (ChildIsSmaller(n, i);
         TraverseAt(Children(n)[i], hints, Skips(n, i, hints), CoversChild(n, i), path + [i])));
      LabelAll(path, Own(n, hints, covered)) + Joined(parts, |parts|)
  }

  ghost predicate IsPartsAt(parts: seq<seq<Labelled>>, n: Node, hints: Hints, path: Path) {
    |parts| == |Children(n)|
    && forall i: nat {:trigger Children(n)[i]} :: i < |parts| ==>
        parts[i] == TraverseAt(Children(n)[i], hints, Skips(n, i, hints), CoversChild(n, i), path + [i])
  }

  lemma {:induction false} PartsAt(n: Node, hints: Hints, skipped: bool, covered: bool, path: Path)
    returns (parts: seq<seq<Labelled>>)
    ensures IsPartsAt(parts, n, hints, path)
    ensures TraverseAt(n, hints, skipped, covered, path) ==
      if hints(n.start) == NextHint || skipped then []
      else LabelAll(path, Own(n, hints, covered)) + Joined(parts, |parts|)
  {
    parts := seq(|Children(n)|, i requires 0 <= i < |Children(n)| =>
        TraverseAt(Children(n)[i], hints, Skips(n, i, hints), CoversChild(n, i), path + [i]));
  }

  lemma {:induction false} SumOfThree<T>(a: seq<T>, b: seq<T>, c: seq<T>)
    ensures a + b + c == a + (b + c)
  {
  }

  lemma {:induction false} ErasedSum(a: seq<Labelled>, b: seq<Labelled>)
    ensures Erased(a + b) == Erased(a) + Erased(b)
  {
  }

  lemma {:induction false} ErasedLabels(p: Path, calls: seq<Call>)
    ensures Erased(LabelAll(p, calls)) == calls
  {
  }

  lemma {:induction false} ErasedJoined(labelled: seq<seq<Labelled>>, parts: seq<seq<Call>>, k: nat)
    requires k <= |labelled| == |parts| && forall i :: 0 <= i < |parts| ==> Erased(labelled[i]) == parts[i]
    ensures Erased(Joined(labelled, k)) == Joined(parts, k)
  {
    if k > 0 {
      ErasedJoined(labelled, parts, k - 1);
      ErasedSum(Joined(labelled, k - 1), labelled[k - 1]);
    }
  }

  // Without the labels it is the traversal.
  lemma {:induction false} TraverseErased(n: Node, hints: Hints, skipped: bool, covered: bool, path: Path)
    ensures Erased(TraverseAt(n, hints, skipped, covered, path)) == Traverse(n, hints, skipped, covered)
    decreases Size(n)
  {
    var labelled := PartsAt(n, hints, skipped, covered, path);
    var parts := PartsOf(n, hints, skipped, covered);
    if hints(n.start) != NextHint && !skipped {
      forall i: nat | i < |parts| ensures Erased(labelled[i]) == parts[i] {
        ChildIsSmaller(n, i);
        TraverseErased(Children(n)[i], hints, Skips(n, i, hints), CoversChild(n, i), path + [i]);
      }
      ErasedJoined(labelled, parts, |parts|);
      ErasedLabels(path, Own(n, hints, covered));
      ErasedSum(LabelAll(path, Own(n, hints, covered)), Joined(labelled, |labelled|));
    }
  }

  // ----- logical chains -----

  lemma {:induction false} ChainInOrder(n: Node)
    requires n.LogicalExpression? && InOrder(n)
    ensures InOrder(n.left) && InOrder(n.right)
    ensures n.start <= n.left.start && n.left.end <= n.right.start && n.right.end <= n.end
  {
    var fields := Fields(n);
    assert fields[0] == n.left && fields[1] == n.right;
    assert fields[1..] == [n.right] && fields[1..][1..] == [];
    assert Follow(n.left.end, [n.right], n.end) && Follow(n.right.end, [], n.end);
  }

  /** The operands of a chain stand in source order inside it, and none is itself an unhinted logical expression. */
  lemma {:induction false} LeavesInOrder(n: Node, hints: Hints)
    requires InOrder(n)
    ensures var ls := Leaves(n, hints);
      && |ls| > 0
      && (forall i :: 0 <= i < |ls| ==> n.start <= ls[i].start <= ls[i].end <= n.end)
      && (forall i, j :: 0 <= i < j < |ls| ==> ls[i].end <= ls[j].start)
      && (forall i :: 0 <= i < |ls| ==> !ls[i].LogicalExpression? || hints(ls[i].start) == NextHint)
  {
    if n.LogicalExpression? && hints(n.start) != NextHint {
      ChainInOrder(n);
      LeavesInOrder(n.left, hints);
      LeavesInOrder(n.right, hints);
    }
  }

  lemma {:induction false} JoinedPair(parts: seq<seq<Call>>)
    requires |parts| == 2
    ensures Joined(parts, 2) == parts[0] + parts[1]
  {
    assert Joined(parts, 0) == [];
    assert Joined(parts, 1) == parts[0];
  }

  lemma {:induction false} OperandPart(n: Node, hints: Hints, parts: seq<seq<Call>>, i: nat)
    requires n.LogicalExpression? && IsParts(parts, n, hints) && i < 2
    ensures var operand := Children(n)[i];
      parts[i] == if operand.LogicalExpression? then [] else Traverse(operand, hints, false, false)
  {
  }

  ghost function OperandCalls(operand: Node, hints: Hints): seq<Call> {
    if operand.LogicalExpression? then [] else Traverse(operand, hints, false, false)
  }

  lemma {:induction false} ChainOwn(n: Node, hints: Hints) returns (own: seq<Call>)
    requires n.LogicalExpression?
    ensures own == Own(n, hints, false) == [AddBranch(BinaryExpr, SpanOf(n), ArmsOf(Leaves(n, hints)))]
  {
    own := Own(n, hints, false);
  }

  lemma {:induction false} OperandParts(n: Node, hints: Hints, parts: seq<seq<Call>>)
    requires n.LogicalExpression? && IsParts(parts, n, hints)
    ensures |parts| == 2 && parts[0] == OperandCalls(n.left, hints) && parts[1] == OperandCalls(n.right, hints)
  {
    assert Children(n)[0] == n.left && Children(n)[1] == n.right;
    OperandPart(n, hints, parts, 0);
    OperandPart(n, hints, parts, 1);
  }

  lemma {:induction false} ChainParts(n: Node, hints: Hints) returns (own: seq<Call>)
    requires n.LogicalExpression? && hints(n.start) != NextHint
    ensures own == [AddBranch(BinaryExpr, SpanOf(n), ArmsOf(Leaves(n, hints)))]
    ensures Traverse(n, hints, false, false) == own + OperandCalls(n.left, hints) + OperandCalls(n.right, hints)
  {
    own := ChainOwn(n, hints);
    var parts := PartsOf(n, hints, false, false);
    OperandParts(n, hints, parts);
    JoinedPair(parts);
    SumOfThree(own, parts[0], parts[1]);
  }

  // Besides its own branch a chain lets only its outermost non-logical operands be walked.
  lemma {:induction false} ChainTraversal(n: Node, hints: Hints)
    requires n.LogicalExpression? && hints(n.start) != NextHint
    ensures Traverse(n, hints, false, false)
         == [AddBranch(BinaryExpr, SpanOf(n), ArmsOf(Leaves(n, hints)))]
            + OperandCalls(n.left, hints) + OperandCalls(n.right, hints)
  {
    var _ := ChainParts(n, hints);
  }

  // ----- the enter/leave machine -----

  ghost predicate Below(q: Path, p: Path) {
    |p| <= |q| && q[..|p|] == p
  }

  ghost predicate NoneStrictlyBelow(s: set<Path>, p: Path) {
    forall q :: q in s && Below(q, p) ==> q == p
  }

  // The logical nodes of a chain, all marked when its top is visited.
  ghost function ChainPaths(p: Path, n: Node, hints: Hints): set<Path>
    decreases n
  {
    if !n.LogicalExpression? then {}
    else if hints(n.start) == NextHint then {p}
    else {p} + ChainPaths(p + [0], n.left, hints) + ChainPaths(p + [1], n.right, hints)
  }

  lemma {:induction false} BelowSibling(q: Path, p: Path, i: nat, j: nat)
    requires Below(q, p + [i]) && i != j
    ensures !Below(q, p + [j]) && Below(q, p) && q != p
  {
    assert q[|p|] == q[..|p| + 1][|p|] == i;
    assert q[..|p|] == q[..|p| + 1][..|p|];
  }

  lemma {:induction false} ChainPathsBelow(p: Path, n: Node, hints: Hints)
    ensures forall q :: q in ChainPaths(p, n, hints) ==> Below(q, p)
    ensures p in ChainPaths(p, n, hints) <==> n.LogicalExpression?
    decreases n
  {
    if n.LogicalExpression? && hints(n.start) != NextHint {
      ChainPathsBelow(p + [0], n.left, hints);
      ChainPathsBelow(p + [1], n.right, hints);
      forall q | q in ChainPaths(p + [0], n.left, hints) ensures Below(q, p) {
        BelowSibling(q, p, 0, 1);
      }
      forall q | q in ChainPaths(p + [1], n.right, hints) ensures Below(q, p) {
        BelowSibling(q, p, 1, 0);
      }
    }
  }

  // What a visited node leaves marked: exactly the children it skips and covers, and nothing below the others.
  ghost predicate ChildMarked(skipped: set<Path>, covered: set<Path>, path: Path, n: Node, i: nat, hints: Hints) {
    && (path + [i] in skipped <==> Skips(n, i, hints))
    && (Skips(n, i, hints) || NoneStrictlyBelow(skipped, path + [i]))
    && (path + [i] in covered <==> CoversChild(n, i))
    && NoneStrictlyBelow(covered, path + [i])
  }

  ghost predicate SameOutside(s: set<Path>, t: set<Path>, path: Path) {
    forall q :: !Below(q, path) ==> (q in s <==> q in t)
  }

  ghost predicate Clean(skipped: set<Path>, covered: set<Path>, path: Path) {
    NoneStrictlyBelow(skipped, path) && NoneStrictlyBelow(covered, path)
  }

  lemma {:induction false} CleanBelowChild(s: set<Path>, path: Path, i: nat, q: Path)
    requires NoneStrictlyBelow(s, path) && Below(q, path + [i])
    ensures q !in s
  {
    BelowSibling(q, path, i, i + 1);
  }

  lemma {:induction false} MarksSuffice(skipped: set<Path>, covered: set<Path>, skips: set<Path>, covers: set<Path>,
      path: Path, n: Node, hints: Hints)
    requires Clean(skipped, covered, path)
    requires forall i: nat :: path + [i] in skips <==> Skips(n, i, hints)
    requires forall q :: q in skips ==> Below(q, path)
    requires forall i: nat :: !Skips(n, i, hints) ==> NoneStrictlyBelow(skips, path + [i])
    requires forall i: nat :: path + [i] in covers <==> CoversChild(n, i)
    requires forall q :: q in covers ==> Below(q, path) && |q| == |path| + 1
    ensures forall i: nat :: ChildMarked(skipped + skips, covered + covers, path, n, i, hints)
    ensures SameOutside(skipped + skips, skipped, path) && SameOutside(covered + covers, covered, path)
  {
    forall i: nat ensures ChildMarked(skipped + skips, covered + covers, path, n, i, hints) {
      assert Below(path + [i], path + [i]);
      forall q | Below(q, path + [i]) ensures q !in skipped && q !in covered {
        CleanBelowChild(skipped, path, i, q);
        CleanBelowChild(covered, path, i, q);
      }
      forall q | q in covers && Below(q, path + [i]) ensures q == path + [i] {
        assert q == q[..|path| + 1];
      }
    }
  }

  lemma {:induction false} ChainMarks(path: Path, n: Node, hints: Hints)
    requires n.LogicalExpression? && hints(n.start) != NextHint
    ensures var marks := ChainPaths(path, n, hints);
      && (forall i: nat :: path + [i] in marks <==> Skips(n, i, hints))
      && (forall q :: q in marks ==> Below(q, path))
      && (forall i: nat :: !Skips(n, i, hints) ==> NoneStrictlyBelow(marks, path + [i]))
  {
    var left, right := ChainPaths(path + [0], n.left, hints), ChainPaths(path + [1], n.right, hints);
    ChainPathsBelow(path, n, hints);
    ChainPathsBelow(path + [0], n.left, hints);
    ChainPathsBelow(path + [1], n.right, hints);
    forall i: nat, q | q in ChainPaths(path, n, hints) && Below(q, path + [i])
      ensures (i == 0 && q in left) || (i == 1 && q in right)
    {
      assert q != path;
      if q in left && i != 0 {
        BelowSibling(q, path, 0, i);
      }
      if q in right && i != 1 {
        BelowSibling(q, path, 1, i);
      }
    }
    forall i: nat ensures path + [i] in ChainPaths(path, n, hints) <==> Skips(n, i, hints) {
      assert Below(path + [i], path + [i]);
    }
  }

  // Walking one child leaves the marks of the others.
  lemma {:induction false} SiblingKept(skipped: set<Path>, covered: set<Path>, skipped': set<Path>, covered': set<Path>,
      path: Path, n: Node, i: nat, j: nat, hints: Hints)
    requires ChildMarked(skipped, covered, path, n, j, hints) && i != j
    requires SameOutside(skipped', skipped, path + [i]) && SameOutside(covered', covered, path + [i])
    ensures ChildMarked(skipped', covered', path, n, j, hints)
  {
    forall q | Below(q, path + [j]) ensures !Below(q, path + [i]) {
      BelowSibling(q, path, j, i);
    }
    assert Below(path + [j], path + [j]);
  }

  ghost predicate MarkedFrom(skipped: set<Path>, covered: set<Path>, path: Path, n: Node, i: nat, hints: Hints) {
    forall j: nat :: i <= j ==> ChildMarked(skipped, covered, path, n, j, hints)
  }

  ghost predicate BothSame(skipped: set<Path>, covered: set<Path>, skipped': set<Path>, covered': set<Path>,
      path: Path)
  {
    SameOutside(skipped', skipped, path) && SameOutside(covered', covered, path)
  }

  lemma {:induction false} OutsideWidens(s: set<Path>, t: set<Path>, u: set<Path>, path: Path, i: nat)
    requires SameOutside(s, t, path + [i]) && SameOutside(t, u, path)
    ensures SameOutside(s, u, path)
  {
    forall q | !Below(q, path) ensures !Below(q, path + [i]) {
      if Below(q, path + [i]) {
        BelowSibling(q, path, i, i + 1);
      }
    }
  }

  lemma {:induction false} ChildWalked(skipped0: set<Path>, covered0: set<Path>, skipped: set<Path>, covered: set<Path>,
      skipped': set<Path>, covered': set<Path>,
    path: Path, n: Node, i: nat, hints: Hints)
    requires MarkedFrom(skipped, covered, path, n, i, hints)
    requires BothSame(skipped0, covered0, skipped, covered, path)
    requires BothSame(skipped, covered, skipped', covered', path + [i])
    ensures MarkedFrom(skipped', covered', path, n, i + 1, hints)
    ensures BothSame(skipped0, covered0, skipped', covered', path)
  {
    forall j: nat | i + 1 <= j ensures ChildMarked(skipped', covered', path, n, j, hints) {
      SiblingKept(skipped, covered, skipped', covered', path, n, i, j, hints);
    }
    OutsideWidens(skipped', skipped, skipped0, path, i);
    OutsideWidens(covered', covered, covered0, path, i);
  }

  lemma {:induction false} BothSameChains(skipped0: set<Path>, covered0: set<Path>, skipped: set<Path>,
      covered: set<Path>, skipped': set<Path>, covered': set<Path>, path: Path)
    requires BothSame(skipped0, covered0, skipped, covered, path)
        && BothSame(skipped, covered, skipped', covered', path)
    ensures BothSame(skipped0, covered0, skipped', covered', path)
  {
  }

  // The first and second arm, as far as chosen.
  ghost function Picked(path: Path, first: bool, second: bool): set<Path> {
    (if first then {path + [1]} else {}) + (if second then {path + [2]} else {})
  }

  lemma {:induction false} ChildPaths(path: Path)
    ensures forall i: nat, j: nat :: path + [i] == path + [j] <==> i == j
    ensures forall i: nat :: Below(path + [i], path)
    ensures forall i: nat, j: nat :: Below(path + [i], path + [j]) ==> i == j
  {
    forall i: nat, j: nat | path + [i] == path + [j] ensures i == j {
      assert (path + [i])[|path|] == i && (path + [j])[|path|] == j;
    }
    forall i: nat, j: nat | Below(path + [i], path + [j]) ensures i == j {
      assert (path + [i])[..|path| + 1] == path + [i];
    }
  }

  lemma {:induction false} PickedMarks(path: Path, n: Node, first: bool, second: bool, hints: Hints)
    requires forall i: nat :: Skips(n, i, hints) <==> (i == 1 && first) || (i == 2 && second)
    ensures var marks := Picked(path, first, second);
      && (forall i: nat :: path + [i] in marks <==> Skips(n, i, hints))
      && (forall q :: q in marks ==> Below(q, path))
      && (forall i: nat :: !Skips(n, i, hints) ==> NoneStrictlyBelow(marks, path + [i]))
  {
    ChildPaths(path);
  }

  lemma {:induction false} UnhintedPair(a: Node, b: Node, hints: Hints)
    ensures Unhinted([a, b], hints)
        == (if hints(a.start) != NextHint then [a] else []) + (if hints(b.start) != NextHint then [b] else [])
  {
    assert [a, b][..1] == [a] && [a][..0] == [];
    assert Unhinted([a], hints) == if hints(a.start) != NextHint then [a] else [];
  }

  class Walker {
    const hints: Hints
    var nextIgnore: Option<Path>
    var skippedNodes: set<Path>
    var coveredNodes: set<Path>
    var calls: seq<Call>
    ghost var trace: seq<Labelled> // the calls, each with the path of the node that made it

    constructor (hints: Hints)
      ensures this.hints == hints && nextIgnore == None && skippedNodes == {} && coveredNodes == {}
      ensures calls == [] && trace == []
    {
      this.hints := hints;
      nextIgnore, skippedNodes, coveredNodes, calls, trace := None, {}, {}, [], [];
    }

    method SetSkipped(path: Path)
      modifies this`skippedNodes
      ensures skippedNodes == old(skippedNodes) + {path}
    {
      skippedNodes := skippedNodes + {path};
    }

    // Collects the operands of a chain, marking its logical nodes.
    method VisitChain(path: Path, child: Node, branches: seq<Node>) returns (more: seq<Node>)
      modifies this`skippedNodes
      ensures more == branches + Leaves(child, hints)
      ensures skippedNodes == old(skippedNodes) + ChainPaths(path, child, hints)
      decreases child
    {
      more := branches;
      if child.LogicalExpression? {
        SetSkipped(path);
        if hints(child.start) != NextHint {
          more := VisitChain(path + [0], child.left, more);
          more := VisitChain(path + [1], child.right, more);
          return;
        }
      }
      more := more + [child];
    }

    method AddFieldStatements(members: seq<Node>)
      modifies this`calls
      ensures calls == old(calls) + FieldStatements(members)
    {
      var i := 0;
      while i < |members|
        invariant i <= |members|
        invariant calls == old(calls) + FieldStatements(members[..i])
      {
        assert members[..i + 1][..i] == members[..i];
        var child := members[i];
        if child.ClassField? && child.initial.Some? {
          calls := calls + [AddStatement(SpanOf(child.initial.value), SpanOf(child.initial.value))];
        }
        i := i + 1;
      }
      assert members[..|members|] == members;
    }

    method UnhintedCases(cases: seq<Node>) returns (kept: seq<Node>)
      ensures kept == Unhinted(cases, hints)
    {
      kept := [];
      var i := 0;
      while i < |cases|
        invariant i <= |cases| && kept == Unhinted(cases[..i], hints)
      {
        assert cases[..i + 1][..i] == cases[..i];
        if hints(cases[i].start) != NextHint {
          kept := kept + [cases[i]];
        }
        i := i + 1;
      }
      assert cases[..|cases|] == cases;
    }

    method VisitIf(path: Path, current: Node, hint: Hint)
      requires current.IfStatement? && hint == hints(current.start) && Clean(skippedNodes, coveredNodes, path)
      modifies this`skippedNodes, this`calls
      ensures calls == old(calls) + Own(current, hints, false)
      ensures forall i: nat :: ChildMarked(skippedNodes, coveredNodes, path, current, i, hints)
      ensures SameOutside(skippedNodes, old(skippedNodes), path)
    {
      var branches: seq<Option<Arm>> := [];
      var consequent := ToBlockStatement(current.consequent);
      if hint == IfHint {
        SetSkipped(path + [1]);
      } else {
        branches := branches + [ArmOf(consequent)];
      }
      if hint == ElseHint {
        if current.alternate.Some? {
          SetSkipped(path + [2]);
        }
      } else if current.alternate.Some? {
        branches := branches + [ArmOf(ToBlockStatement(current.alternate.value))];
      } else if hint != IfHint {
        branches := branches + [None];
      }
      assert branches == IfArms(current, hint);
      calls := calls + [AddBranch(IfBranch, SpanOf(current), branches)];
      calls := calls + [AddStatement(SpanOf(current), SpanOf(current))];
      ghost var skips := Picked(path, hint == IfHint, hint == ElseHint && current.alternate.Some?);
      assert skippedNodes == old(skippedNodes) + skips && coveredNodes == coveredNodes + {};
      PickedMarks(path, current, hint == IfHint, hint == ElseHint && current.alternate.Some?, hints);
      MarksSuffice(old(skippedNodes), coveredNodes, skips, {}, path, current, hints);
    }

    method VisitConditional(path: Path, current: Node)
      requires current.ConditionalExpression? && Clean(skippedNodes, coveredNodes, path)
      modifies this`skippedNodes, this`calls
      ensures calls == old(calls) + Own(current, hints, false)
      ensures forall i: nat :: ChildMarked(skippedNodes, coveredNodes, path, current, i, hints)
      ensures SameOutside(skippedNodes, old(skippedNodes), path)
    {
      var consequent, alternate := Unwrap(current.whenTrue), Unwrap(current.whenFalse);
      var branches: seq<Node> := [];
      if hints(consequent.start) == NextHint {
        SetSkipped(path + [1]);
      } else {
        branches := branches + [consequent];
      }
      if hints(alternate.start) == NextHint {
        SetSkipped(path + [2]);
      } else {
        branches := branches + [alternate];
      }
      UnhintedPair(consequent, alternate, hints);
      assert branches == Unhinted([consequent, alternate], hints);
      calls := calls + [AddBranch(CondExpr, SpanOf(current), ArmsOf(branches))];
      ghost var first, second := hints(consequent.start) == NextHint, hints(alternate.start) == NextHint;
      assert skippedNodes == old(skippedNodes) + Picked(path, first, second) && coveredNodes == coveredNodes + {};
      PickedMarks(path, current, first, second, hints);
      MarksSuffice(old(skippedNodes), coveredNodes, Picked(path, first, second), {}, path, current, hints);
    }

    method VisitLogical(path: Path, current: Node)
      requires current.LogicalExpression? && hints(current.start) != NextHint && Clean(skippedNodes, coveredNodes, path)
      modifies this`skippedNodes, this`calls
      ensures path !in old(skippedNodes) ==> calls == old(calls) + Own(current, hints, false)
      ensures path !in old(skippedNodes) ==>
          forall i: nat :: ChildMarked(skippedNodes, coveredNodes, path, current, i, hints)
      ensures SameOutside(skippedNodes, old(skippedNodes), path)
    {
      if path in skippedNodes {
        return;
      }
      var branches := VisitChain(path, current, []);
      calls := calls + [AddBranch(BinaryExpr, SpanOf(current), ArmsOf(branches))];
      assert [] + Leaves(current, hints) == Leaves(current, hints);
      ChainMarks(path, current, hints);
      assert coveredNodes == coveredNodes + {};
      MarksSuffice(old(skippedNodes), coveredNodes, ChainPaths(path, current, hints), {}, path, current, hints);
    }

    method VisitMember(path: Path, current: Node)
      requires (current.MethodDefinition? || current.Property?) && Clean(skippedNodes, coveredNodes, path)
      modifies this`coveredNodes, this`calls
      ensures calls == old(calls) + Own(current, hints, false)
      ensures forall i: nat :: ChildMarked(skippedNodes, coveredNodes, path, current, i, hints)
      ensures SameOutside(coveredNodes, old(coveredNodes), path)
    {
      var value := current.value;
      if value.FunctionExpression? {
        coveredNodes := coveredNodes + {path + [1]};
      }
      if current.MethodDefinition? {
        calls := calls + [AddFunction(GivenName(current), BodySpan(value), SpanOf(current.key), SpanOf(current))];
      } else if value.FunctionExpression? {
        calls := calls + [AddFunction(GivenName(current), BodySpan(value), SpanOf(current.key), SpanOf(value))];
      }
      ghost var covers := Picked(path, value.FunctionExpression?, false);
      assert coveredNodes == old(coveredNodes) + covers && skippedNodes == skippedNodes + {};
      ChildPaths(path);
      MarksSuffice(skippedNodes, old(coveredNodes), {}, covers, path, current, hints);
    }

    // The nodes that mark nothing.
    method VisitPlain(path: Path, current: Node)
      requires !(current.IfStatement? || current.ConditionalExpression? || current.LogicalExpression?
          || current.MethodDefinition? || current.Property?)
      modifies this`calls
      ensures calls == old(calls) + Own(current, hints, path in coveredNodes)
    {
      match current {
        case FunctionDeclaration(_, _, id, _, body) =>
          calls := calls + [AddFunction(GivenName(current), SpanOf(body),
              if id.Some? then SpanOf(id.value) else Head(current), SpanOf(current))];
        case FunctionExpression(_, _, id, _, body) =>
          if path !in coveredNodes {
            calls := calls + [AddFunction(GivenName(current), SpanOf(body),
                if id.Some? then SpanOf(id.value) else Head(current), SpanOf(current))];
          }
        case ArrowFunctionExpression(_, _, _, bare) =>
          var body := Unwrap(bare);
          calls := calls + [AddFunction("", SpanOf(body), Head(current), SpanOf(current))];
          if !body.BlockStatement? {
            calls := calls + [AddStatement(SpanOf(body), SpanOf(current))];
          }
        case ExpressionStatement(_, _, expression) =>
          if !expression.Literal? || !expression.isUseStrict {
            calls := calls + [AddStatement(SpanOf(current), SpanOf(current))];
          }
        case PlainStatement(_, _, _) =>
          calls := calls + [AddStatement(SpanOf(current), SpanOf(current))];
        case VariableDeclarator(_, _, _, init) =>
          if init.Some? {
            calls := calls + [AddStatement(SpanOf(init.value), SpanOf(current))];
          }
        case ClassBody(_, _, members) =>
          AddFieldStatements(members);
        case SwitchStatement(_, _, _, all) =>
          var kept := UnhintedCases(all);
          calls := calls + [AddBranch(Switch, SpanOf(current), ArmsOf(kept))];
          calls := calls + [AddStatement(SpanOf(current), SpanOf(current))];
        case AssignmentPattern(_, _, _, right) =>
          calls := calls + [AddBranch(DefaultArg, SpanOf(current), [ArmOf(right)])];
        case _ =>
      }
    }

    ghost predicate Prunes(path: Path, n: Node)
      reads this
    {
      hints(n.start) == NextHint || path in skippedNodes
    }

    method Enter(path: Path, current: Node)
      requires nextIgnore == None && !Prunes(path, current) ==> Clean(skippedNodes, coveredNodes, path)
      modifies this
      ensures old(nextIgnore).Some? ==> nextIgnore == old(nextIgnore)
      ensures old(nextIgnore).None? && old(Prunes(path, current)) ==> nextIgnore == Some(path)
      ensures old(nextIgnore).Some? || old(Prunes(path, current)) ==>
        && calls == old(calls) && trace == old(trace)
        && skippedNodes == old(skippedNodes) && coveredNodes == old(coveredNodes)
      ensures old(nextIgnore).None? && !old(Prunes(path, current)) ==>
        && nextIgnore == None
        && calls == old(calls) + Own(current, hints, path in old(coveredNodes))
        && trace == old(trace) + LabelAll(path, Own(current, hints, path in old(coveredNodes)))
        && MarkedFrom(skippedNodes, coveredNodes, path, current, 0, hints)
        && BothSame(old(skippedNodes), old(coveredNodes), skippedNodes, coveredNodes, path)
    {
      if nextIgnore != None {
        return;
      }
      if hints(current.start) == NextHint {
        nextIgnore := Some(path);
        return;
      }
      if path in skippedNodes {
        nextIgnore := Some(path);
        return;
      }
      ghost var before := calls;
      if current.IfStatement? {
        VisitIf(path, current, hints(current.start));
      } else if current.ConditionalExpression? {
        VisitConditional(path, current);
      } else if current.LogicalExpression? {
        VisitLogical(path, current);
      } else if current.MethodDefinition? || current.Property? {
        VisitMember(path, current);
      } else {
        MarksSuffice(skippedNodes, coveredNodes, {}, {}, path, current, hints);
        assert skippedNodes + {} == skippedNodes && coveredNodes + {} == coveredNodes;
        VisitPlain(path, current);
      }
      assert calls[|before|..] == Own(current, hints, path in old(coveredNodes));
      trace := trace + LabelAll(path, calls[|before|..]);
    }

    method Leave(path: Path)
      modifies this`nextIgnore
      ensures nextIgnore == if old(nextIgnore) == Some(path) then None else old(nextIgnore)
    {
      if nextIgnore == Some(path) {
        nextIgnore := None;
      }
    }

    // The recorded calls are the calls.
    ghost predicate Traced()
      reads this
    {
      calls == Erased(trace)
    }

    /**
     The whole walk of one subtree. Inside an ignored one nothing happens at all; otherwise the calls made are those of
     the recursive traversal, each by the node the traversal makes it for, and the slot is free again afterwards.
     */
    method Walk(path: Path, n: Node)
      requires Traced() && (nextIgnore.Some? ==> |nextIgnore.value| < |path|)
      requires nextIgnore.None? && !Prunes(path, n) ==> Clean(skippedNodes, coveredNodes, path)
      modifies this
      ensures Traced() && nextIgnore == old(nextIgnore)
      ensures old(nextIgnore).Some? ==>
        && calls == old(calls) && trace == old(trace)
        && skippedNodes == old(skippedNodes) && coveredNodes == old(coveredNodes)
      ensures old(nextIgnore).None? ==>
        && calls == old(calls) + Traverse(n, hints, path in old(skippedNodes), path in old(coveredNodes))
        && trace == old(trace) + TraverseAt(n, hints, path in old(skippedNodes), path in old(coveredNodes), path)
      ensures BothSame(old(skippedNodes), old(coveredNodes), skippedNodes, coveredNodes, path)
      decreases Size(n), 3
    {
      ghost var parts := PartsAt(n, hints, path in skippedNodes, path in coveredNodes, path);
      TraverseErased(n, hints, path in skippedNodes, path in coveredNodes, path);
      ErasedSum(trace, TraverseAt(n, hints, path in skippedNodes, path in coveredNodes, path));
      WalkParts(path, n, parts);
    }

    method WalkParts(path: Path, n: Node, ghost parts: seq<seq<Labelled>>)
      requires IsPartsAt(parts, n, hints, path)
      requires Traced() && (nextIgnore.Some? ==> |nextIgnore.value| < |path|)
      requires nextIgnore.None? && !Prunes(path, n) ==> Clean(skippedNodes, coveredNodes, path)
      modifies this
      ensures Traced() && nextIgnore == old(nextIgnore)
      ensures old(nextIgnore.Some? || Prunes(path, n)) ==>
          trace == old(trace) && skippedNodes == old(skippedNodes) && coveredNodes == old(coveredNodes)
      ensures !old(nextIgnore.Some? || Prunes(path, n)) ==>
          trace == old(trace) + (LabelAll(path, Own(n, hints, path in old(coveredNodes))) + Joined(parts, |parts|))
      ensures BothSame(old(skippedNodes), old(coveredNodes), skippedNodes, coveredNodes, path)
      decreases Size(n), 2
    {
      ghost var ignoring := nextIgnore.Some? || Prunes(path, n);
      ghost var own := LabelAll(path, Own(n, hints, path in coveredNodes));
      EnterTraced(path, n);
      WalkChildren(path, n, |Children(n)|, ignoring, parts);
      Leave(path);
      SumOfThree(old(trace), own, Joined(parts, |parts|));
    }

    // Entering, with the record kept.
    method EnterTraced(path: Path, current: Node)
      requires Traced() && (nextIgnore == None && !Prunes(path, current) ==> Clean(skippedNodes, coveredNodes, path))
      modifies this
      ensures Traced()
      ensures old(nextIgnore).Some? ==> nextIgnore == old(nextIgnore)
      ensures old(nextIgnore).None? && old(Prunes(path, current)) ==> nextIgnore == Some(path)
      ensures old(nextIgnore).Some? || old(Prunes(path, current)) ==>
        trace == old(trace) && skippedNodes == old(skippedNodes) && coveredNodes == old(coveredNodes)
      ensures old(nextIgnore).None? && !old(Prunes(path, current)) ==>
        && nextIgnore == None
        && trace == old(trace) + LabelAll(path, Own(current, hints, path in old(coveredNodes)))
        && MarkedFrom(skippedNodes, coveredNodes, path, current, 0, hints)
        && BothSame(old(skippedNodes), old(coveredNodes), skippedNodes, coveredNodes, path)
    {
      ghost var own := Own(current, hints, path in coveredNodes);
      ErasedLabels(path, own);
      ErasedSum(trace, LabelAll(path, own));
      Enter(path, current);
    }

    // The first k children, in order.
    method WalkChildren(path: Path, n: Node, k: nat, ghost ignoring: bool, ghost parts: seq<seq<Labelled>>)
      requires k <= |Children(n)| && IsPartsAt(parts, n, hints, path) && Traced()
      requires ignoring ==> nextIgnore.Some? && |nextIgnore.value| <= |path|
      requires !ignoring ==> nextIgnore == None && MarkedFrom(skippedNodes, coveredNodes, path, n, 0, hints)
      modifies this
      ensures Traced() && nextIgnore == old(nextIgnore)
      ensures ignoring ==> trace == old(trace) && skippedNodes == old(skippedNodes) && coveredNodes == old(coveredNodes)
      ensures !ignoring ==> trace == old(trace) + Joined(parts, k)
      ensures !ignoring ==> MarkedFrom(skippedNodes, coveredNodes, path, n, k, hints)
      ensures BothSame(old(skippedNodes), old(coveredNodes), skippedNodes, coveredNodes, path)
      decreases Size(n), 1, k
    {
      if k > 0 {
        WalkChildren(path, n, k - 1, ignoring, parts);
        ghost var skipped, covered := skippedNodes, coveredNodes;
        WalkChild(path, n, k - 1, ignoring, parts);
        SumOfThree(old(trace), Joined(parts, k - 1), parts[k - 1]);
        BothSameChains(old(skippedNodes), old(coveredNodes), skipped, covered, skippedNodes, coveredNodes, path);
      }
    }

    method WalkChild(path: Path, n: Node, i: nat, ghost ignoring: bool, ghost parts: seq<seq<Labelled>>)
      requires i < |Children(n)| && IsPartsAt(parts, n, hints, path) && Traced()
      requires ignoring ==> nextIgnore.Some? && |nextIgnore.value| <= |path|
      requires !ignoring ==> nextIgnore == None && MarkedFrom(skippedNodes, coveredNodes, path, n, i, hints)
      modifies this
      ensures Traced() && nextIgnore == old(nextIgnore)
      ensures ignoring ==> trace == old(trace) && skippedNodes == old(skippedNodes) && coveredNodes == old(coveredNodes)
      ensures !ignoring ==> trace == old(trace) + parts[i]
      ensures !ignoring ==> MarkedFrom(skippedNodes, coveredNodes, path, n, i + 1, hints)
      ensures BothSame(old(skippedNodes), old(coveredNodes), skippedNodes, coveredNodes, path)
      decreases Size(n), 0
    {
      ChildIsSmaller(n, i);
      assert !ignoring ==> ChildMarked(skippedNodes, coveredNodes, path, n, i, hints);
      Walk(path + [i], Children(n)[i]);
      if !ignoring {
        ChildWalked(old(skippedNodes), old(coveredNodes), old(skippedNodes), old(coveredNodes), skippedNodes,
            coveredNodes, path, n, i, hints);
      }
    }
  }

  /**
   The flat machine makes exactly the calls of the recursive traversal, each at the node the traversal makes it for, and
   is never left ignoring.
   */
  method WalkProgram(program: Node, hints: Hints)
    returns (calls: seq<Call>, stillIgnoring: bool, ghost trace: seq<Labelled>)
    ensures calls == Traverse(program, hints, false, false)
    ensures trace == TraverseAt(program, hints, false, false, []) && Erased(trace) == calls
    ensures !stillIgnoring
  {
    var walker := new Walker(hints);
    walker.Walk([], program);
    calls, trace := walker.calls, walker.trace;
    stillIgnoring := walker.nextIgnore.Some?;
    TraverseErased(program, hints, false, false, []);
    assert [] + TraverseAt(program, hints, false, false, []) == TraverseAt(program, hints, false, false, []);
  }
}
