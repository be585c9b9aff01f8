/** Adding the hits of several scripts: the order does not matter. */
module ScriptOrder {
  import opened CoverageModel

  datatype Script = Script(prepared: Prepared, count: CountOf)

  ghost function Apply(data: CoverageData, script: Script): CoverageData {
    ApplyScript(data, script.prepared, script.count)
  }

  ghost function ApplyAll(data: CoverageData, scripts: seq<Script>): CoverageData
    decreases |scripts|
  {
    if scripts == [] then data else ApplyAll(Apply(data, scripts[0]), scripts[1..])
  }

  ghost predicate SameTemplates(a: Script, b: Script) {
    ShareTemplates(a.prepared, b.prepared)
  }

  // Each script names only its own counters, and scripts that share a file share its template.
  ghost predicate Agree(scripts: seq<Script>) {
    && (forall i :: 0 <= i < |scripts| ==> SelfContained(scripts[i].prepared))
    && (forall i, j :: 0 <= i < |scripts| && 0 <= j < |scripts| ==> SameTemplates(scripts[i], scripts[j]))
  }

  // ----- a script leaves foreign files alone -----

  lemma {:induction false} HitSumElsewhere(ds: seq<Descriptor>, file: string, index: nat, count: CountOf)
    requires forall i :: 0 <= i < |ds| ==> ds[i].filename != file
    ensures HitSum(ds, file, index, count) == 0
  {
    if ds != [] {
      HitSumElsewhere(ds[..|ds| - 1], file, index, count);
    }
  }

  lemma {:induction false} ArmSumElsewhere(ds: seq<BranchDescriptor>, file: string, index: nat, k: nat, count: CountOf)
    requires forall i :: 0 <= i < |ds| ==> ds[i].filename != file
    ensures ArmSum(ds, file, index, k, count) == 0
  {
    if ds != [] {
      ArmSumElsewhere(ds[..|ds| - 1], file, index, k, count);
    }
  }

  lemma {:induction false} CountersElsewhere(counters: Counters, ds: seq<Descriptor>, file: string, count: CountOf)
    requires forall i :: 0 <= i < |ds| ==> ds[i].filename != file
    ensures AddCounters(counters, ds, file, count) == counters
  {
    NamedAre(ds, file, {});
    forall i | i in counters ensures HitSum(ds, file, i, count) == 0 {
      HitSumElsewhere(ds, file, i, count);
    }
    SameMap(AddCounters(counters, ds, file, count), counters);
  }

  lemma {:induction false} ArmsElsewhere(arms: BranchHits, ds: seq<BranchDescriptor>, file: string, count: CountOf)
    requires forall i :: 0 <= i < |ds| ==> ds[i].filename != file
    ensures AddArms(arms, ds, file, count) == arms
  {
    forall i | i in arms ensures ArmsPlus(arms[i], ds, file, i, count) == arms[i] {
      WidestIs(ds, file, i, 0);
      forall k: nat | k < |arms[i]| ensures ArmSum(ds, file, i, k, count) == 0 {
        ArmSumElsewhere(ds, file, i, k, count);
      }
    }
    SameMap(AddArms(arms, ds, file, count), arms);
  }

  lemma {:induction false} OnlyOwnFiles(p: Prepared, file: string)
    requires SelfContained(p) && file !in p.files
    ensures forall i :: 0 <= i < |p.functions| ==> p.functions[i].filename != file
    ensures forall i :: 0 <= i < |p.statements| ==> p.statements[i].filename != file
    ensures forall i :: 0 <= i < |p.branches| ==> p.branches[i].filename != file
  {
    var own := WithTemplates(map[], p);
    assert forall i :: 0 <= i < |p.functions| ==> FunctionInBounds(p.functions[i], own);
    assert forall i :: 0 <= i < |p.statements| ==> StatementInBounds(p.statements[i], own);
    assert forall i :: 0 <= i < |p.branches| ==> BranchInBounds(p.branches[i], own);
  }

  lemma {:induction false} UntouchedFile(fc: FileCoverage, file: string, p: Prepared, count: CountOf)
    requires SelfContained(p) && file !in p.files
    ensures AddFile(fc, file, p, count) == fc
  {
    OnlyOwnFiles(p, file);
    CountersElsewhere(fc.f, p.functions, file, count);
    CountersElsewhere(fc.s, p.statements, file, count);
    ArmsElsewhere(fc.b, p.branches, file, count);
  }

  // ----- two scripts commute -----

  lemma {:induction false} CountersCommute(counters: Counters, ds: seq<Descriptor>, es: seq<Descriptor>,
      file: string, a: CountOf, b: CountOf)
    ensures AddCounters(AddCounters(counters, ds, file, a), es, file, b)
        == AddCounters(AddCounters(counters, es, file, b), ds, file, a)
  {
  }

  lemma {:induction false} ArmsPlusCommute(hits: seq<Tally>, ds: seq<BranchDescriptor>, es: seq<BranchDescriptor>,
      file: string, i: nat, a: CountOf, b: CountOf)
    ensures ArmsPlus(ArmsPlus(hits, ds, file, i, a), es, file, i, b)
         == ArmsPlus(ArmsPlus(hits, es, file, i, b), ds, file, i, a)
  {
  }

  lemma {:induction false} ArmsCommute(arms: BranchHits, ds: seq<BranchDescriptor>, es: seq<BranchDescriptor>,
      file: string, a: CountOf, b: CountOf)
    ensures AddArms(AddArms(arms, ds, file, a), es, file, b) == AddArms(AddArms(arms, es, file, b), ds, file, a)
  {
    var ab, ba := AddArms(AddArms(arms, ds, file, a), es, file, b), AddArms(AddArms(arms, es, file, b), ds, file, a);
    forall i | i in arms ensures ab[i] == ba[i] {
      ArmsPlusCommute(arms[i], ds, es, file, i, a, b);
    }
    SameMap(ab, ba);
  }

  ghost function AddTo(fc: FileCoverage, file: string, script: Script): FileCoverage {
    AddFile(fc, file, script.prepared, script.count)
  }

  lemma {:induction false} AddToCommutes(fc: FileCoverage, file: string, a: Script, b: Script)
    ensures AddTo(AddTo(fc, file, a), file, b) == AddTo(AddTo(fc, file, b), file, a)
  {
    CountersCommute(fc.f, a.prepared.functions, b.prepared.functions, file, a.count, b.count);
    CountersCommute(fc.s, a.prepared.statements, b.prepared.statements, file, a.count, b.count);
    ArmsCommute(fc.b, a.prepared.branches, b.prepared.branches, file, a.count, b.count);
  }

  ghost function Start(data: CoverageData, file: string, script: Script): FileCoverage
    requires file in data || file in script.prepared.files
  {
    if file in data then data[file] else ZeroOf(script.prepared.files[file])
  }

  lemma {:induction false} AppliedAt(data: CoverageData, script: Script, file: string)
    ensures file in Apply(data, script) <==> file in data || file in script.prepared.files
    ensures file in Apply(data, script) ==> Apply(data, script)[file] == AddTo(Start(data, file, script), file, script)
  {
  }

  lemma {:induction false} CommuteAt(data: CoverageData, a: Script, b: Script, file: string)
    requires SelfContained(a.prepared) && SelfContained(b.prepared) && SameTemplates(a, b)
    ensures file in Apply(Apply(data, a), b) <==> file in Apply(Apply(data, b), a)
    ensures file in Apply(Apply(data, a), b) ==> Apply(Apply(data, a), b)[file] == Apply(Apply(data, b), a)[file]
  {
    AppliedAt(data, a, file);
    AppliedAt(data, b, file);
    AppliedAt(Apply(data, a), b, file);
    AppliedAt(Apply(data, b), a, file);
    if file in data || file in a.prepared.files || file in b.prepared.files {
      var start := if file in data || file in a.prepared.files then Start(data, file, a) else Start(data, file, b);
      AddToCommutes(start, file, a, b);
      if file !in a.prepared.files {
        UntouchedFile(start, file, a.prepared, a.count);
      }
      if file !in b.prepared.files {
        UntouchedFile(start, file, b.prepared, b.count);
      }
    }
  }

  lemma {:induction false} ScriptsCommute(data: CoverageData, a: Script, b: Script)
    requires SelfContained(a.prepared) && SelfContained(b.prepared) && SameTemplates(a, b)
    ensures Apply(Apply(data, a), b) == Apply(Apply(data, b), a)
  {
    var ab, ba := Apply(Apply(data, a), b), Apply(Apply(data, b), a);
    forall file
      ensures file in ab <==> file in ba
      ensures file in ab ==> ab[file] == ba[file]
    {
      CommuteAt(data, a, b, file);
    }
    SameMap(ab, ba);
  }

  // ----- any order -----

  lemma {:induction false} AgreeSub(scripts: seq<Script>, some: seq<Script>)
    requires Agree(scripts) && forall s :: s in some ==> s in scripts
    ensures Agree(some)
  {
    forall i | 0 <= i < |some| ensures exists j :: 0 <= j < |scripts| && scripts[j] == some[i] {
      assert some[i] in scripts;
    }
  }

  // A script may be moved to the front.
  lemma {:induction false} MoveToFront(data: CoverageData, scripts: seq<Script>, k: nat)
    requires Agree(scripts) && k < |scripts|
    ensures ApplyAll(data, scripts) == ApplyAll(Apply(data, scripts[k]), scripts[..k] + scripts[k + 1..])
    decreases k
  {
    if k == 0 {
      assert scripts[..0] + scripts[1..] == scripts[1..];
    } else {
      var x, y := scripts[0], scripts[k];
      var rest := scripts[1..][..k - 1] + scripts[1..][k..];
      AgreeSub(scripts, scripts[1..]);
      MoveToFront(Apply(data, x), scripts[1..], k - 1);
      ScriptsCommute(data, x, y);
      var others := scripts[..k] + scripts[k + 1..];
      assert others[0] == x && others[1..] == rest;
    }
  }

  lemma {:induction false} TakeOut(permuted: seq<Script>, x: Script, others: seq<Script>) returns (k: nat)
    requires multiset([x] + others) == multiset(permuted)
    ensures k < |permuted| && permuted[k] == x
    ensures multiset(permuted[..k] + permuted[k + 1..]) == multiset(others)
  {
    assert x in multiset([x] + others);
    assert x in multiset(permuted);
    k :| k < |permuted| && permuted[k] == x;
    assert permuted == permuted[..k] + [x] + permuted[k + 1..];
    assert multiset(permuted) == multiset(permuted[..k] + permuted[k + 1..]) + multiset{x};
    assert multiset([x] + others) == multiset(others) + multiset{x};
    assert multiset(others) == multiset([x] + others) - multiset{x};
  }

  lemma {:induction false} AgreePermuted(scripts: seq<Script>, permuted: seq<Script>)
    requires Agree(scripts) && multiset(scripts) == multiset(permuted)
    ensures Agree(permuted)
  {
    forall s | s in permuted ensures s in scripts {
      assert s in multiset(permuted);
    }
    AgreeSub(scripts, permuted);
  }

  /** The coverage a list of scripts leaves does not depend on their order. */
  lemma {:induction false} OrderIrrelevant(data: CoverageData, scripts: seq<Script>, permuted: seq<Script>)
    requires Agree(scripts) && multiset(scripts) == multiset(permuted)
    ensures ApplyAll(data, scripts) == ApplyAll(data, permuted)
    decreases |scripts|
  {
    if scripts == [] {
      assert |multiset(permuted)| == 0;
    } else {
      assert scripts == [scripts[0]] + scripts[1..];
      var k := TakeOut(permuted, scripts[0], scripts[1..]);
      AgreePermuted(scripts, permuted);
      AgreeSub(scripts, scripts[1..]);
      MoveToFront(data, permuted, k);
      OrderIrrelevant(Apply(data, scripts[0]), scripts[1..], permuted[..k] + permuted[k + 1..]);
    }
  }
}
