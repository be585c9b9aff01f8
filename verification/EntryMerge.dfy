/** Merging same-shaped raw entries before conversion. */
module EntryMerge {
  import opened V8Ranges
  import opened CoverageRuns
  import opened PaintedArray
  import opened RangeNormalizer
  import opened CoverageModel

  type Functions = seq<FunctionCoverage>

  class CoverageEntry {
    var functions: Functions

    constructor (functions: Functions)
      ensures this.functions == functions
    {
      this.functions := functions;
    }
  }

  // ----- shapes -----

  ghost predicate SameFunctionShape(a: FunctionCoverage, b: FunctionCoverage) {
    && a.functionName == b.functionName
    && a.isBlockCoverage == b.isBlockCoverage
    && |a.ranges| == |b.ranges|
    && forall j :: 0 <= j < |a.ranges| ==>
        a.ranges[j].startOffset == b.ranges[j].startOffset && a.ranges[j].endOffset == b.ranges[j].endOffset
  }

  // Everything but the counts agrees.
  ghost predicate SameShape(a: Functions, b: Functions) {
    |a| == |b| && forall i :: 0 <= i < |a| ==> SameFunctionShape(a[i], b[i])
  }

  ghost function AddRange(a: V8Range, b: V8Range): V8Range {
    a.(count := a.count + b.count)
  }

  ghost function AddFunction(a: FunctionCoverage, b: FunctionCoverage, n: nat): FunctionCoverage
    requires n <= |a.ranges| <= |b.ranges|
  {
    a.(ranges := seq(|a.ranges|,
        j requires 0 <= j < |a.ranges| => if j < n then AddRange(a.ranges[j], b.ranges[j]) else a.ranges[j]))
  }

  ghost function AddCounts(a: Functions, b: Functions): Functions
    requires SameShape(a, b)
  {
    seq(|a|, i requires 0 <= i < |a| => AddFunction(a[i], b[i], |a[i].ranges|))
  }

  method CompareShape(target: Functions, incoming: Functions) returns (same: bool)
    ensures same <==> SameShape(target, incoming)
  {
    if |target| != |incoming| {
      return false;
    }
    var i := 0;
    while i < |target|
      invariant i <= |target|
      invariant forall k :: 0 <= k < i ==> SameFunctionShape(target[k], incoming[k])
    {
      var t, u := target[i], incoming[i];
      if t.functionName != u.functionName || t.isBlockCoverage != u.isBlockCoverage || |t.ranges| != |u.ranges| {
        return false;
      }
      var j := 0;
      while j < |t.ranges|
        invariant j <= |t.ranges|
        invariant forall k :: 0 <= k < j ==>
          t.ranges[k].startOffset == u.ranges[k].startOffset && t.ranges[k].endOffset == u.ranges[k].endOffset
      {
        if t.ranges[j].startOffset != u.ranges[j].startOffset || t.ranges[j].endOffset != u.ranges[j].endOffset {
          return false;
        }
        j := j + 1;
      }
      i := i + 1;
    }
    same := true;
  }

  method AddFunctionCounts(target: FunctionCoverage, incoming: FunctionCoverage) returns (sum: FunctionCoverage)
    requires SameFunctionShape(target, incoming)
    ensures sum == AddFunction(target, incoming, |target.ranges|)
  {
    sum := target;
    var j := 0;
    assert sum == AddFunction(target, incoming, 0);
    while j < |target.ranges|
      invariant j <= |target.ranges|
      invariant sum == AddFunction(target, incoming, j)
    {
      var range := sum.ranges[j];
      sum := sum.(ranges := sum.ranges[j := range.(count := range.count + incoming.ranges[j].count)]);
      assert sum.ranges == AddFunction(target, incoming, j + 1).ranges;
      j := j + 1;
    }
  }

  /** Adds the incoming counts in place when the shapes agree, and touches nothing when they do not. */
  method TryMergeCoverageEntry(target: CoverageEntry, incoming: CoverageEntry) returns (merged: bool)
    modifies target
    ensures merged <==> old(SameShape(target.functions, incoming.functions))
    ensures target.functions == if merged then old(AddCounts(target.functions, incoming.functions))
        else old(target.functions)
    ensures incoming != target ==> incoming.functions == old(incoming.functions)
  {
    merged := CompareShape(target.functions, incoming.functions);
    if !merged {
      return;
    }
    ghost var a, b := target.functions, incoming.functions;
    var i := 0;
    while i < |target.functions|
      invariant i <= |target.functions| == |a|
      invariant incoming != target ==> incoming.functions == b
      invariant forall k :: 0 <= k < |a| ==> target.functions[k] == if k < i then AddCounts(a, b)[k] else a[k]
    {
      var sum := AddFunctionCounts(target.functions[i], incoming.functions[i]);
      target.functions := target.functions[i := sum];
      i := i + 1;
    }
    assert target.functions == AddCounts(a, b);
  }

  // ----- counts of a merged entry -----

  lemma {:induction false} FlattenLast(a: Functions)
    requires a != []
    ensures Flatten(a) == Flatten(a[..|a| - 1]) + a[|a| - 1].ranges
  {
  }

  lemma {:induction false} FlattenShape(a: Functions, b: Functions)
    requires SameShape(a, b)
    ensures var f, g, m := Flatten(a), Flatten(b), Flatten(AddCounts(a, b));
      |f| == |g| == |m|
      && forall i :: 0 <= i < |f| ==>
           m[i] == f[i].(count := f[i].count + g[i].count)
           && f[i].startOffset == g[i].startOffset && f[i].endOffset == g[i].endOffset
  {
    if a != [] {
      var n := |a| - 1;
      FlattenShape(a[..n], b[..n]);
      assert SameFunctionShape(a[n], b[n]);
      assert AddCounts(a, b)[..n] == AddCounts(a[..n], b[..n]);
      FlattenLast(a);
      FlattenLast(b);
      FlattenLast(AddCounts(a, b));
    }
  }

  lemma {:induction false} SameWinners(f: seq<V8Range>, g: seq<V8Range>, x: int)
    requires |f| == |g|
    requires forall i :: 0 <= i < |f| ==> f[i].startOffset == g[i].startOffset && f[i].endOffset == g[i].endOffset
    ensures forall i :: IsMostSpecific(f, x, i) <==> IsMostSpecific(g, x, i)
  {
  }

  /** The count of the merged entry is the sum, at every offset. */
  lemma {:induction false} MergedCount(a: Functions, b: Functions, x: int)
    requires SameShape(a, b)
    ensures CountAt(Flatten(AddCounts(a, b)), x) == CountAt(Flatten(a), x) + CountAt(Flatten(b), x)
    ensures IsSmall(Flatten(AddCounts(a, b))) == IsSmall(Flatten(a)) == IsSmall(Flatten(b))
  {
    var f, g, m := Flatten(a), Flatten(b), Flatten(AddCounts(a, b));
    FlattenShape(a, b);
    SameWinners(f, g, x);
    SameWinners(f, m, x);
    SameMaxEnd(f, g);
    SameMaxEnd(f, m);
    if exists j :: 0 <= j < |f| && Covers(f[j], x) {
      var i := MostSpecificExists(f, x);
      assert CountAt(f, x) == f[i].count && CountAt(g, x) == g[i].count && CountAt(m, x) == m[i].count;
    } else {
      assert CountAt(f, x) == 0 && CountAt(g, x) == 0 && CountAt(m, x) == 0;
    }
  }

  /** What the converter stores for the merged entry is the sum exactly when the sum fits the form it uses. */
  lemma {:induction false} MergedStoredIff(a: Functions, b: Functions, x: int)
    requires SameShape(a, b)
    ensures StoredCount(Flatten(AddCounts(a, b)), x) == StoredCount(Flatten(a), x) + StoredCount(Flatten(b), x)
       <==> (IsSmall(Flatten(a)) ==> StoredCount(Flatten(a), x) + StoredCount(Flatten(b), x) < UINT32_SIZE)
  {
    MergedCount(a, b, x);
    StoredSum(IsSmall(Flatten(a)), CountAt(Flatten(a), x), CountAt(Flatten(b), x),
        CountAt(Flatten(AddCounts(a, b)), x));
  }

  lemma {:induction false} StoredSum(small: bool, c: nat, d: nat, sum: nat)
    requires sum == c + d
    ensures Stored(small, sum) == Stored(small, c) + Stored(small, d)
        <==> (small ==> Stored(small, c) + Stored(small, d) < UINT32_SIZE)
  {
    if small {
      TruncatedSum(c, d);
    }
  }

  lemma {:induction false} TruncatedSum(c: nat, d: nat)
    ensures Truncate(c + d) == Truncate(c) + Truncate(d) <==> Truncate(c) + Truncate(d) < UINT32_SIZE
  {
    var u, v := c % UINT32_SIZE, d % UINT32_SIZE;
    TruncateIsRemainder(c);
    TruncateIsRemainder(d);
    TruncateIsRemainder(c + d);
    assert c + d == (c / UINT32_SIZE + d / UINT32_SIZE) * UINT32_SIZE + (u + v);
  }

  /** Merging first and converting once leaves the hits of converting both. */
  lemma {:induction false} MergeThenConvert(a: Functions, b: Functions, ra: seq<Run>, rb: seq<Run>, rm: seq<Run>,
      data: CoverageData, p: Prepared)
    requires SameShape(a, b)
    requires forall x :: Lookup(ra, x) == StoredCount(Flatten(a), x)
    requires forall x :: Lookup(rb, x) == StoredCount(Flatten(b), x)
    requires forall x :: Lookup(rm, x) == StoredCount(Flatten(AddCounts(a, b)), x)
    requires IsSmall(Flatten(a)) ==> forall x :: StoredCount(Flatten(a), x) + StoredCount(Flatten(b), x) < UINT32_SIZE
    ensures ApplyScript(data, p, y => Lookup(rm, y))
         == ApplyScript(ApplyScript(data, p, y => Lookup(ra, y)), p, y => Lookup(rb, y))
  {
    var ca: CountOf, cb: CountOf, cm: CountOf := y => Lookup(ra, y), y => Lookup(rb, y), y => Lookup(rm, y);
    forall x ensures cm(x) == ca(x) + cb(x) {
      MergedStoredIff(a, b, x);
    }
    ConvertTwice(data, p, ca, cb, cm);
  }

  lemma {:induction false} ConvertTwice(data: CoverageData, p: Prepared, a: CountOf, b: CountOf, c: CountOf)
    requires IsSum(c, a, b)
    ensures ApplyScript(ApplyScript(data, p, a), p, b) == ApplyScript(data, p, c)
  {
    var once := ApplyScript(data, p, a);
    SameMap(WithTemplates(once, p), once);
    AddHitsTwice(WithTemplates(data, p), p, a, b, c);
  }

  // One character, run half the times 32 bits can count.
  function Half(): Functions {
    [FunctionCoverage("", true, [V8Range(0, 1, UINT32_SIZE / 2)])]
  }

  lemma {:induction false} HalfCounts()
    ensures AllWellFormed(Flatten(Half())) && CountAt(Flatten(Half()), 0) == UINT32_SIZE / 2
  {
    assert Half()[..0] == [] && Flatten([]) == [];
    assert Flatten(Half()) == [V8Range(0, 1, UINT32_SIZE / 2)];
    assert IsMostSpecific(Flatten(Half()), 0, 0);
  }

  lemma {:induction false} HalvesMerged()
    ensures SameShape(Half(), Half())
    ensures var sum := Flatten(AddCounts(Half(), Half())); AllWellFormed(sum) && CountAt(sum, 0) == UINT32_SIZE
  {
    HalfCounts();
    FlattenShape(Half(), Half());
    MergedCount(Half(), Half(), 0);
  }

  /**
   Two entries with counts of 2^31, which both forms keep, merged into one: the array form says its code never ran.
   */
  method SumLost() returns (painted: nat, swept: nat, sumPainted: nat, sumSwept: nat)
    ensures painted == swept == UINT32_SIZE / 2
    ensures sumPainted == 0 && sumSwept == UINT32_SIZE
  {
    HalfCounts();
    HalvesMerged();
    painted, swept := CountBothWays(Half(), 0);
    var target := new CoverageEntry(Half());
    var incoming := new CoverageEntry(Half());
    var _ := TryMergeCoverageEntry(target, incoming);
    sumPainted, sumSwept := CountBothWays(target.functions, 0);
  }
}
