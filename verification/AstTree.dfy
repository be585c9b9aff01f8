/** Which nodes the walk sees: every sub-node the grammar has, but for dropped parentheses, and added blocks. */
module AstTree {
  import opened AstWalk
  import opened AstPaths

  // ----- the nodes the walk sees -----

  // The arms of an `if` are seen as blocks, a block being added around a bare one.
  predicate IsBoxed(n: Node, i: nat) {
    n.IfStatement? && i >= 1
  }

  // Arrow bodies and the arms of a conditional are seen without parentheses.
  ghost predicate IsBared(n: Node, i: nat) {
    (n.ArrowFunctionExpression? && i == |n.params|) || (n.ConditionalExpression? && i >= 1)
  }

  ghost predicate IsSeenAs(n: Node, i: nat, field: Node, child: Node) {
    if IsBoxed(n, i) && !field.BlockStatement? then child == BlockStatement(field.start, field.end, [field])
    else if IsBared(n, i) && field.ParenthesizedExpression? then child == field.expression
    else child == field
  }

  /** The walk visits each sub-node of a node, in the order of the grammar, and nothing else. */
  lemma {:induction false} ChildrenAreFields(n: Node)
    ensures |Children(n)| == |Fields(n)|
    ensures forall i :: 0 <= i < |Fields(n)| ==> IsSeenAs(n, i, Fields(n)[i], Children(n)[i])
  {
    match n
    case ArrowFunctionExpression(_, _, params, body) =>
      assert Fields(n) == params + [body] && Children(n) == params + [Unwrap(body)];
    case _ =>
  }

  // The nodes of the source tree.
  ghost predicate InTree(n: Node, m: Node)
    decreases n
  {
    m == n || exists i :: 0 <= i < |Fields(n)| && InTree(Fields(n)[i], m)
  }

  // Parentheses the walk drops: an arrow body or the arm of a conditional somewhere in the tree.
  ghost predicate IsDropped(n: Node, m: Node)
    decreases n
  {
    exists i :: 0 <= i < |Fields(n)|
      && ((IsBared(n, i) && m == Fields(n)[i] && m.ParenthesizedExpression?) || IsDropped(Fields(n)[i], m))
  }

  lemma {:induction false} PathBelow(n: Node, i: nat, q: Path) returns (p: Path)
    requires i < |Children(n)| && IsPath(Children(n)[i], q)
    ensures IsPath(n, p) && NodeAt(n, p) == NodeAt(Children(n)[i], q)
  {
    p := [i] + q;
    NodeBelow(n, i, q);
  }

  lemma {:induction false} NotDroppedBelow(n: Node, i: nat, m: Node)
    requires i < |Fields(n)| && !IsDropped(n, m)
    ensures !IsDropped(Fields(n)[i], m) && !(IsBared(n, i) && m == Fields(n)[i] && m.ParenthesizedExpression?)
  {
  }

  lemma {:induction false} InParentheses(field: Node, m: Node)
    requires field.ParenthesizedExpression? && InTree(field, m) && m != field && !IsDropped(field, m)
    ensures InTree(field.expression, m) && !IsDropped(field.expression, m)
  {
    assert Fields(field)[0] == field.expression;
    NotDroppedBelow(field, 0, m);
  }

  lemma {:induction false} BelowIn(n: Node, m: Node) returns (i: nat)
    requires InTree(n, m) && m != n
    ensures i < |Fields(n)| && Fields(n)[i] in Fields(n) && InTree(Fields(n)[i], m)
  {
    i :| i < |Fields(n)| && InTree(Fields(n)[i], m);
  }

  /** Every node of the source tree is on a path of the walk, but for the parentheses that are dropped. */
  lemma {:induction false} EveryNodeIsSeen(n: Node, m: Node) returns (p: Path)
    requires InTree(n, m) && !IsDropped(n, m)
    ensures IsPath(n, p) && NodeAt(n, p) == m
    decreases n
  {
    if m == n {
      p := [];
    } else {
      var i := BelowIn(n, m);
      var field := Fields(n)[i];
      ChildrenAreFields(n);
      NotDroppedBelow(n, i, m);
      var q: Path;
      if Children(n)[i] == field {
        q := EveryNodeIsSeen(field, m);
      } else if IsBoxed(n, i) {
        q := EveryNodeIsSeen(field, m);
        q := PathBelow(Children(n)[i], 0, q);
      } else {
        InParentheses(field, m);
        q := EveryNodeIsSeen(field.expression, m);
      }
      p := PathBelow(n, i, q);
    }
  }

  // A node of the source tree, or a block the walk adds around one.
  ghost predicate IsSource(n: Node, m: Node) {
    InTree(n, m) || (m.BlockStatement? && |m.children| == 1 && InTree(n, m.children[0])
        && !m.children[0].BlockStatement? && m == BlockStatement(m.children[0].start, m.children[0].end, m.children))
  }

  lemma {:induction false} FieldInTree(n: Node, i: nat, m: Node)
    requires i < |Fields(n)| && IsSource(Fields(n)[i], m)
    ensures IsSource(n, m)
  {
  }

  /** And every node the walk sees is one of the source tree, or a block it added around one. */
  lemma {:induction false} SeenIsSource(n: Node, p: Path)
    requires IsPath(n, p)
    ensures IsSource(n, NodeAt(n, p))
    decreases Size(n)
  {
    if p != [] {
      var i := p[0];
      var field, child := Fields(n)[i], Children(n)[i];
      ChildrenAreFields(n);
      ChildIsSmaller(n, i);
      SeenIsSource(child, p[1..]);
      SourceThroughField(n, i, NodeAt(child, p[1..]));
    }
  }

  // What comes from a child comes from its field.
  lemma {:induction false} SourceThroughField(n: Node, i: nat, m: Node)
    requires i < |Children(n)| && IsSource(Children(n)[i], m)
    ensures IsSource(n, m)
  {
    ChildrenAreFields(n);
    var field, child := Fields(n)[i], Children(n)[i];
    if child == field {
      FieldInTree(n, i, m);
    } else if IsBoxed(n, i) {
      BoxedSource(field, child, m);
      FieldInTree(n, i, m);
    } else {
      assert Fields(field)[0] == child;
      FieldInTree(field, 0, m);
      FieldInTree(n, i, m);
    }
  }

  lemma {:induction false} BoxedSource(field: Node, box: Node, m: Node)
    requires box == BlockStatement(field.start, field.end, [field]) && !field.BlockStatement? && IsSource(box, m)
    ensures IsSource(field, m)
  {
    assert Fields(box) == [field];
    if m == box {
      assert m.children[0] == field;
    }
  }
}
