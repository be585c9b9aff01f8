/** From a syntax tree to a prepared template: the walk's calls, replayed on the builder. */
module Prepare {
  import opened CoverageModel
  import opened CoverageBuilder
  import opened AstWalk
  import opened Entries

  datatype Kind = Functions | Statements | Branches

  // The calls that yield a descriptor: those located in a covered file.
  ghost predicate IsLocated(getLoc: Locator, sources: set<string>, c: Call, kind: Kind) {
    match c
    case AddFunction(_, loc, decl, _) => kind == Functions && getLoc(loc).Some? && getLoc(decl).Some?
        && getLoc(loc).value.filename in sources
    case AddStatement(node, _) => kind == Statements && getLoc(node).Some? && getLoc(node).value.filename in sources
    case AddBranch(_, node, arms) =>
      && kind == Branches && getLoc(node).Some? && getLoc(node).value.filename in sources
      && MappedArms(getLoc, arms) != []
  }

  ghost function Located(getLoc: Locator, sources: set<string>, calls: seq<Call>, kind: Kind): seq<Call>
  {
    if calls == [] then [] else
      var last := calls[|calls| - 1];
      Located(getLoc, sources, calls[..|calls| - 1], kind) + if IsLocated(getLoc, sources, last, kind) then [last]
          else []
  }

  lemma {:induction false} LocatedNext(getLoc: Locator, sources: set<string>, calls: seq<Call>, i: nat, kind: Kind)
    requires i < |calls|
    ensures Located(getLoc, sources, calls[..i + 1], kind)
         == Located(getLoc, sources, calls[..i], kind) + if IsLocated(getLoc, sources, calls[i], kind) then [calls[i]]
             else []
  {
    assert calls[..i + 1][..i] == calls[..i];
  }

  // A descriptor names the call's file and offsets, and an index that stands for the call's location there.
  ghost predicate FunctionFits(files: map<string, FileTemplate>, getLoc: Locator, c: Call, d: Descriptor)
  {
    && c.AddFunction? && getLoc(c.loc).Some? && getLoc(c.decl).Some?
    && d == Descriptor(getLoc(c.loc).value.filename, d.index, c.coverage.start, c.coverage.end)
    && d.filename in files && d.index in files[d.filename].fnMap
    && files[d.filename].fnMap[d.index].decl == getLoc(c.decl).value.loc
  }

  ghost predicate StatementFits(files: map<string, FileTemplate>, getLoc: Locator, c: Call, d: Descriptor)
  {
    && c.AddStatement? && getLoc(c.node).Some?
    && d == Descriptor(getLoc(c.node).value.filename, d.index, c.coverage.start, c.coverage.end)
    && d.filename in files && d.index in files[d.filename].statementMap
    && files[d.filename].statementMap[d.index] == getLoc(c.node).value.loc
  }

  ghost predicate BranchFits(files: map<string, FileTemplate>, getLoc: Locator, c: Call, d: BranchDescriptor)
  {
    && c.AddBranch? && getLoc(c.node).Some?
    && var mapped := MappedArms(getLoc, c.arms);
    && d.filename == getLoc(c.node).value.filename
    && d.ranges == seq(|mapped|, k requires 0 <= k < |mapped| => ArmRange(c.node, mapped[k]))
    && d.filename in files && d.index in files[d.filename].branchMap
    && files[d.filename].branchMap[d.index].locations
        == BranchLocations(getLoc, c.branchType, getLoc(c.node).value.loc, c.arms)
  }

  ghost predicate FunctionsFit(files: map<string, FileTemplate>, getLoc: Locator, cs: seq<Call>, ds: seq<Descriptor>)
  {
    |cs| == |ds| && forall k :: 0 <= k < |ds| ==> FunctionFits(files, getLoc, cs[k], ds[k])
  }

  ghost predicate StatementsFit(files: map<string, FileTemplate>, getLoc: Locator, cs: seq<Call>, ds: seq<Descriptor>)
  {
    |cs| == |ds| && forall k :: 0 <= k < |ds| ==> StatementFits(files, getLoc, cs[k], ds[k])
  }

  ghost predicate BranchesFit(files: map<string, FileTemplate>, getLoc: Locator, cs: seq<Call>,
      ds: seq<BranchDescriptor>)
  {
    |cs| == |ds| && forall k :: 0 <= k < |ds| ==> BranchFits(files, getLoc, cs[k], ds[k])
  }

  // One descriptor per located call of its kind, in order.
  ghost predicate Describes(files: map<string, FileTemplate>, getLoc: Locator, calls: seq<Call>,
    functions: seq<Descriptor>, statements: seq<Descriptor>, branches: seq<BranchDescriptor>)
  {
    && FunctionsFit(files, getLoc, Located(getLoc, files.Keys, calls, Functions), functions)
    && StatementsFit(files, getLoc, Located(getLoc, files.Keys, calls, Statements), statements)
    && BranchesFit(files, getLoc, Located(getLoc, files.Keys, calls, Branches), branches)
  }

  // What fitted still fits when a file grows.
  ghost predicate Extends(files: map<string, FileTemplate>, after: map<string, FileTemplate>) {
    && files.Keys == after.Keys
    && forall f :: f in files ==>
      && (forall i :: i in files[f].statementMap ==>
          i in after[f].statementMap && after[f].statementMap[i] == files[f].statementMap[i])
      && (forall i :: i in files[f].fnMap ==> i in after[f].fnMap && after[f].fnMap[i] == files[f].fnMap[i])
      && (forall i :: i in files[f].branchMap ==>
          i in after[f].branchMap && after[f].branchMap[i] == files[f].branchMap[i])
  }

  lemma {:induction false} GrowthExtends(files: map<string, FileState>, after: map<string, FileState>, filename: string)
    requires GrowsAt(files, after, filename)
    ensures Extends(Templates(files), Templates(after))
  {
  }

  lemma {:induction false} FunctionsStillFit(files: map<string, FileTemplate>, after: map<string, FileTemplate>,
      getLoc: Locator, cs: seq<Call>, ds: seq<Descriptor>)
    requires FunctionsFit(files, getLoc, cs, ds) && Extends(files, after)
    ensures FunctionsFit(after, getLoc, cs, ds)
  {
    forall k | 0 <= k < |ds| ensures FunctionFits(after, getLoc, cs[k], ds[k]) {
      assert FunctionFits(files, getLoc, cs[k], ds[k]);
    }
  }

  lemma {:induction false} StatementsStillFit(files: map<string, FileTemplate>, after: map<string, FileTemplate>,
      getLoc: Locator, cs: seq<Call>, ds: seq<Descriptor>)
    requires StatementsFit(files, getLoc, cs, ds) && Extends(files, after)
    ensures StatementsFit(after, getLoc, cs, ds)
  {
    forall k | 0 <= k < |ds| ensures StatementFits(after, getLoc, cs[k], ds[k]) {
      assert StatementFits(files, getLoc, cs[k], ds[k]);
    }
  }

  lemma {:induction false} BranchesStillFit(files: map<string, FileTemplate>, after: map<string, FileTemplate>,
      getLoc: Locator, cs: seq<Call>, ds: seq<BranchDescriptor>)
    requires BranchesFit(files, getLoc, cs, ds) && Extends(files, after)
    ensures BranchesFit(after, getLoc, cs, ds)
  {
    forall k | 0 <= k < |ds| ensures BranchFits(after, getLoc, cs[k], ds[k]) {
      assert BranchFits(files, getLoc, cs[k], ds[k]);
    }
  }

  // A call adds its own descriptor, if any, behind those that were there.
  ghost predicate FunctionDescribed(files: map<string, FileTemplate>, getLoc: Locator, c: Call, ds: seq<Descriptor>,
      more: seq<Descriptor>)
  {
    if IsLocated(getLoc, files.Keys, c, Functions)
        then |more| == |ds| + 1 && more[..|ds|] == ds && FunctionFits(files, getLoc, c, more[|ds|])
    else more == ds
  }

  ghost predicate StatementDescribed(files: map<string, FileTemplate>, getLoc: Locator, c: Call, ds: seq<Descriptor>,
      more: seq<Descriptor>)
  {
    if IsLocated(getLoc, files.Keys, c, Statements)
        then |more| == |ds| + 1 && more[..|ds|] == ds && StatementFits(files, getLoc, c, more[|ds|])
    else more == ds
  }

  ghost predicate BranchDescribed(files: map<string, FileTemplate>, getLoc: Locator, c: Call, ds: seq<BranchDescriptor>,
      more: seq<BranchDescriptor>)
  {
    if IsLocated(getLoc, files.Keys, c, Branches)
        then |more| == |ds| + 1 && more[..|ds|] == ds && BranchFits(files, getLoc, c, more[|ds|])
    else more == ds
  }

  lemma {:induction false} FunctionsNext(files: map<string, FileTemplate>, after: map<string, FileTemplate>,
      getLoc: Locator, calls: seq<Call>, i: nat, ds: seq<Descriptor>, more: seq<Descriptor>)
    requires i < |calls| && FunctionsFit(files, getLoc, Located(getLoc, files.Keys, calls[..i], Functions), ds)
    requires Extends(files, after) && FunctionDescribed(after, getLoc, calls[i], ds, more)
    ensures FunctionsFit(after, getLoc, Located(getLoc, after.Keys, calls[..i + 1], Functions), more)
  {
    FunctionsStillFit(files, after, getLoc, Located(getLoc, files.Keys, calls[..i], Functions), ds);
    LocatedNext(getLoc, files.Keys, calls, i, Functions);
  }

  lemma {:induction false} StatementsNext(files: map<string, FileTemplate>, after: map<string, FileTemplate>,
      getLoc: Locator, calls: seq<Call>, i: nat, ds: seq<Descriptor>, more: seq<Descriptor>)
    requires i < |calls| && StatementsFit(files, getLoc, Located(getLoc, files.Keys, calls[..i], Statements), ds)
    requires Extends(files, after) && StatementDescribed(after, getLoc, calls[i], ds, more)
    ensures StatementsFit(after, getLoc, Located(getLoc, after.Keys, calls[..i + 1], Statements), more)
  {
    StatementsStillFit(files, after, getLoc, Located(getLoc, files.Keys, calls[..i], Statements), ds);
    LocatedNext(getLoc, files.Keys, calls, i, Statements);
  }

  lemma {:induction false} BranchesNext(files: map<string, FileTemplate>, after: map<string, FileTemplate>,
      getLoc: Locator, calls: seq<Call>, i: nat, ds: seq<BranchDescriptor>, more: seq<BranchDescriptor>)
    requires i < |calls| && BranchesFit(files, getLoc, Located(getLoc, files.Keys, calls[..i], Branches), ds)
    requires Extends(files, after) && BranchDescribed(after, getLoc, calls[i], ds, more)
    ensures BranchesFit(after, getLoc, Located(getLoc, after.Keys, calls[..i + 1], Branches), more)
  {
    BranchesStillFit(files, after, getLoc, Located(getLoc, files.Keys, calls[..i], Branches), ds);
    LocatedNext(getLoc, files.Keys, calls, i, Branches);
  }

  lemma {:induction false} DescribesNext(files: map<string, FileTemplate>, after: map<string, FileTemplate>,
      getLoc: Locator, calls: seq<Call>, i: nat,
    functions: seq<Descriptor>, functions': seq<Descriptor>, statements: seq<Descriptor>, statements': seq<Descriptor>,
    branches: seq<BranchDescriptor>, branches': seq<BranchDescriptor>)
    requires i < |calls| && Describes(files, getLoc, calls[..i], functions, statements, branches)
        && Extends(files, after)
    requires FunctionDescribed(after, getLoc, calls[i], functions, functions')
    requires StatementDescribed(after, getLoc, calls[i], statements, statements')
    requires BranchDescribed(after, getLoc, calls[i], branches, branches')
    ensures Describes(after, getLoc, calls[..i + 1], functions', statements', branches')
  {
    FunctionsNext(files, after, getLoc, calls, i, functions, functions');
    StatementsNext(files, after, getLoc, calls, i, statements, statements');
    BranchesNext(files, after, getLoc, calls, i, branches, branches');
  }

  // All a call does to the builder's state.
  ghost predicate Performed(files: map<string, FileState>, after: map<string, FileState>, getLoc: Locator, c: Call,
    functions: seq<Descriptor>, functions': seq<Descriptor>, statements: seq<Descriptor>, statements': seq<Descriptor>,
    branches: seq<BranchDescriptor>, branches': seq<BranchDescriptor>)
  {
    && files.Keys == after.Keys && Extends(Templates(files), Templates(after))
    && FunctionDescribed(Templates(after), getLoc, c, functions, functions')
    && StatementDescribed(Templates(after), getLoc, c, statements, statements')
    && BranchDescribed(Templates(after), getLoc, c, branches, branches')
  }

  lemma {:induction false} FunctionStep(files: map<string, FileState>, after: map<string, FileState>, getLoc: Locator,
      c: Call,
    ds: seq<Descriptor>, more: seq<Descriptor>, statements: seq<Descriptor>, branches: seq<BranchDescriptor>)
    requires c.AddFunction? && FunctionAdded(getLoc, c.name, c.loc, c.decl, c.coverage, files, after, ds, more)
    ensures Performed(files, after, getLoc, c, ds, more, statements, statements, branches, branches)
  {
    if IsLocated(getLoc, files.Keys, c, Functions) {
      GrowthExtends(files, after, getLoc(c.loc).value.filename);
    }
  }

  lemma {:induction false} StatementStep(files: map<string, FileState>, after: map<string, FileState>, getLoc: Locator,
      c: Call,
    functions: seq<Descriptor>, ds: seq<Descriptor>, more: seq<Descriptor>, branches: seq<BranchDescriptor>)
    requires c.AddStatement? && StatementAdded(getLoc, c.node, c.coverage, files, after, ds, more)
    ensures Performed(files, after, getLoc, c, functions, functions, ds, more, branches, branches)
  {
    if IsLocated(getLoc, files.Keys, c, Statements) {
      GrowthExtends(files, after, getLoc(c.node).value.filename);
    }
  }

  lemma {:induction false} BranchStep(files: map<string, FileState>, after: map<string, FileState>, getLoc: Locator,
      c: Call,
    functions: seq<Descriptor>, statements: seq<Descriptor>, ds: seq<BranchDescriptor>, more: seq<BranchDescriptor>)
    requires c.AddBranch? && BranchAdded(getLoc, c.branchType, c.node, c.arms, files, after, ds, more)
    ensures Performed(files, after, getLoc, c, functions, functions, statements, statements, ds, more)
  {
    if IsLocated(getLoc, files.Keys, c, Branches) {
      GrowthExtends(files, after, getLoc(c.node).value.filename);
    }
  }

  predicate HasName(c: Call) {
    c.AddFunction? && c.name != "" ==> IsIdentifier(c.name)
  }

  method Perform(builder: Builder, c: Call)
    requires builder.Valid() && HasName(c)
    modifies builder
    ensures builder.Valid()
    ensures Performed(old(builder.files), builder.files, builder.getLoc, c, old(builder.functions), builder.functions,
                      old(builder.statements), builder.statements, old(builder.branches), builder.branches)
    ensures AllEnter(old(builder.files), builder.files, builder.getLoc, c)
  {
    ghost var files, functions, statements, branches :=
        builder.files, builder.functions, builder.statements, builder.branches;
    match c {
      case AddFunction(name, loc, decl, coverage) =>
        builder.AddFunction(name, loc, decl, coverage);
        FunctionStep(files, builder.files, builder.getLoc, c, functions, builder.functions, statements, branches);
        FunctionEnters(files, builder.files, builder.getLoc, c, functions, builder.functions);
      case AddStatement(node, coverage) =>
        builder.AddStatement(node, coverage);
        StatementStep(files, builder.files, builder.getLoc, c, functions, statements, builder.statements, branches);
        StatementEnters(files, builder.files, builder.getLoc, c, statements, builder.statements);
      case AddBranch(branchType, node, arms) =>
        builder.AddBranch(branchType, node, arms);
        BranchStep(files, builder.files, builder.getLoc, c, functions, statements, branches, builder.branches);
        BranchEnters(files, builder.files, builder.getLoc, c, branches, builder.branches);
    }
  }

  method Replay(builder: Builder, calls: seq<Call>)
    requires builder.Valid() && builder.functions == [] && builder.statements == [] && builder.branches == []
    requires forall f :: f in builder.files ==> builder.files[f].seen == map[]
    requires forall c :: c in calls ==> HasName(c)
    modifies builder
    ensures builder.Valid() && builder.files.Keys == old(builder.files.Keys)
    ensures Describes(Templates(builder.files), builder.getLoc, calls, builder.functions, builder.statements,
        builder.branches)
    ensures AllComeFrom(Templates(builder.files), builder.getLoc, calls)
  {
    var i := 0;
    NothingEntered(builder.files, builder.getLoc);
    assert calls[..0] == [];
    while i < |calls|
      invariant i <= |calls| && builder.Valid() && builder.files.Keys == old(builder.files.Keys)
      invariant Describes(Templates(builder.files), builder.getLoc, calls[..i], builder.functions, builder.statements,
          builder.branches)
      invariant AllHaveEntered(builder.files, builder.getLoc, calls[..i])
    {
      ghost var files, functions, statements, branches :=
          builder.files, builder.functions, builder.statements, builder.branches;
      Perform(builder, calls[i]);
      DescribesNext(Templates(files), Templates(builder.files), builder.getLoc, calls, i, functions, builder.functions,
                    statements, builder.statements, branches, builder.branches);
      AllEnteredNext(files, builder.files, builder.getLoc, calls, i);
      i := i + 1;
    }
    assert calls[..|calls|] == calls;
    AllEnteredComeFrom(builder.files, builder.getLoc, calls);
  }

  // ----- names in the tree -----

  // Every identifier of the tree the walk sees is one.
  ghost predicate WellNamed(n: Node)
    decreases Size(n)
  {
    && (n.Identifier? ==> IsIdentifier(n.name))
    && forall i :: 0 <= i < |Children(n)| ==> (ChildIsSmaller(n, i); WellNamed(Children(n)[i]))
  }

  lemma {:induction false} GivenNameIsIdentifier(n: Node)
    requires WellNamed(n)
    ensures GivenName(n) == "" || IsIdentifier(GivenName(n))
    decreases Size(n)
  {
    if |Children(n)| > 0 {
      ChildIsSmaller(n, 0);
      if (n.FunctionDeclaration? || n.FunctionExpression?) && n.id.Some? {
        assert Children(n)[0] == n.id.value;
        GivenNameIsIdentifier(n.id.value);
      } else if n.MethodDefinition? || n.Property? {
        GivenNameIsIdentifier(n.key);
      }
    }
  }

  lemma {:induction false} FieldStatementsOnly(ns: seq<Node>)
    ensures forall c :: c in FieldStatements(ns) ==> c.AddStatement?
  {
    if ns != [] {
      FieldStatementsOnly(ns[..|ns| - 1]);
    }
  }

  lemma {:induction false} OwnNames(n: Node, hints: Hints, covered: bool)
    requires WellNamed(n)
    ensures forall c :: c in Own(n, hints, covered) ==> HasName(c)
  {
    GivenNameIsIdentifier(n);
    if n.ClassBody? {
      FieldStatementsOnly(n.members);
    }
  }

  lemma {:induction false} JoinedNames(parts: seq<seq<Call>>, k: nat)
    requires k <= |parts| && forall i, c :: 0 <= i < |parts| && c in parts[i] ==> HasName(c)
    ensures forall c :: c in Joined(parts, k) ==> HasName(c)
  {
    if k > 0 {
      JoinedNames(parts, k - 1);
    }
  }

  lemma {:induction false} TraversedNames(n: Node, hints: Hints, skipped: bool, covered: bool)
    requires WellNamed(n)
    ensures forall c :: c in Traverse(n, hints, skipped, covered) ==> HasName(c)
    decreases Size(n)
  {
    var parts := PartsOf(n, hints, skipped, covered);
    forall i, c | 0 <= i < |parts| && c in parts[i] ensures HasName(c) {
      ChildIsSmaller(n, i);
      TraversedNames(Children(n)[i], hints, Skips(n, i, hints), CoversChild(n, i));
    }
    JoinedNames(parts, |parts|);
    OwnNames(n, hints, covered);
  }

  // A builder of these sources with the calls replayed, handed over.
  method Replayed(sources: set<string>, getLoc: Locator, calls: seq<Call>) returns (prepared: Prepared)
    requires forall c :: c in calls ==> HasName(c)
    ensures prepared.files.Keys == sources && SelfContained(prepared) && ExactTemplates(prepared.files)
    ensures Describes(prepared.files, getLoc, calls, prepared.functions, prepared.statements, prepared.branches)
    ensures AllComeFrom(prepared.files, getLoc, calls)
  {
    var builder := new Builder(sources, getLoc);
    Replay(builder, calls);
    prepared := builder.ToPreparedCoverage();
  }

  /**
   Preparing any tree: exact templates, no dangling descriptor, one descriptor per located call of the recursive
   traversal, in its order, and of each file under its path exactly the entries the calls stand for.
   */
  method PrepareCoverage(program: Node, hints: Hints, sources: set<string>, getLoc: Locator)
      returns (prepared: Prepared)
    requires WellNamed(program)
    ensures prepared.files.Keys == sources && SelfContained(prepared)
    ensures ExactTemplates(prepared.files)
    ensures Describes(prepared.files, getLoc, Traverse(program, hints, false, false), prepared.functions,
        prepared.statements, prepared.branches)
    ensures AllComeFrom(prepared.files, getLoc, Traverse(program, hints, false, false))
  {
    var calls, _, _ := WalkProgram(program, hints);
    TraversedNames(program, hints, false, false);
    prepared := Replayed(sources, getLoc, calls);
  }
}
