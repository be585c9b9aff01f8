/** Raw V8 block coverage and its meaning: which range decides the count of an offset. */
module V8Ranges {

  // The engine reports half-open character ranges.
  datatype V8Range = V8Range(startOffset: nat, endOffset: nat, count: nat)

  datatype FunctionCoverage = FunctionCoverage(functionName: string, isBlockCoverage: bool, ranges: seq<V8Range>)

  // A range with its position in the flattened report.
  datatype RawRange = RawRange(start: nat, end: nat, count: nat, area: int, order: nat)

  predicate WellFormed(range: V8Range) {
    range.startOffset <= range.endOffset
  }

  ghost predicate AllWellFormed(ranges: seq<V8Range>) {
    forall i :: 0 <= i < |ranges| ==> WellFormed(ranges[i])
  }

  function Flatten(functions: seq<FunctionCoverage>): seq<V8Range> {
    if functions == [] then [] else Flatten(functions[..|functions| - 1]) + functions[|functions| - 1].ranges
  }

  predicate Covers(range: V8Range, x: int) {
    range.startOffset <= x < range.endOffset
  }

  // Range i is more specific than range j: smaller, then ending later, then reported later.
  predicate MoreSpecific(ranges: seq<V8Range>, i: nat, j: nat)
    requires i < |ranges| && j < |ranges|
  {
    var a, b := ranges[i].endOffset - ranges[i].startOffset, ranges[j].endOffset - ranges[j].startOffset;
    a < b || (a == b && (ranges[i].endOffset > ranges[j].endOffset
        || (ranges[i].endOffset == ranges[j].endOffset && i > j)))
  }

  ghost predicate IsMostSpecific(ranges: seq<V8Range>, x: int, i: int) {
    && 0 <= i < |ranges|
    && Covers(ranges[i], x)
    && forall j :: 0 <= j < |ranges| && j != i && Covers(ranges[j], x) ==> MoreSpecific(ranges, i, j)
  }

  lemma {:induction false} MostSpecificIsUnique(ranges: seq<V8Range>, x: int)
    ensures forall i, j :: IsMostSpecific(ranges, x, i) && IsMostSpecific(ranges, x, j) ==> i == j
  {
    forall i, j | IsMostSpecific(ranges, x, i) && IsMostSpecific(ranges, x, j) ensures i == j {
    }
  }

  /** The execution count of an offset: that of the most specific range covering it, or 0. */
  ghost function CountAt(ranges: seq<V8Range>, x: int): (count: nat)
    ensures forall i :: IsMostSpecific(ranges, x, i) ==> count == ranges[i].count
    ensures (forall i :: 0 <= i < |ranges| ==> !Covers(ranges[i], x)) ==> count == 0
  {
    if exists i :: IsMostSpecific(ranges, x, i) then
      MostSpecificIsUnique(ranges, x);
      var i: int :| IsMostSpecific(ranges, x, i);
      ranges[i].count
    else 0
  }

  /** The report is read function by function, range by range, and nothing is left out. */
  lemma {:induction false} FlattenSplits(a: seq<FunctionCoverage>, b: seq<FunctionCoverage>)
    ensures Flatten(a + b) == Flatten(a) + Flatten(b)
    ensures |b| == 1 ==> Flatten(b) == b[0].ranges
    decreases |b|
  {
    if b == [] {
      assert a + b == a;
    } else {
      var n := |b| - 1;
      FlattenSplits(a, b[..n]);
      assert (a + b)[..|a + b| - 1] == a + b[..n];
    }
  }

  predicate Encloses(outer: V8Range, inner: V8Range) {
    outer.startOffset <= inner.startOffset && inner.endOffset <= outer.endOffset
  }

  /**
   Where ranges nest, the innermost one decides; of ranges with the same ends, the one reported last.
   */
  lemma {:induction false} InnermostDecides(ranges: seq<V8Range>, x: int, i: nat)
    requires i < |ranges| && Covers(ranges[i], x)
    requires forall j :: 0 <= j < |ranges| && j != i && Covers(ranges[j], x) ==>
      Encloses(ranges[j], ranges[i]) && (Encloses(ranges[i], ranges[j]) ==> j < i)
    ensures CountAt(ranges, x) == ranges[i].count
  {
    assert IsMostSpecific(ranges, x, i);
  }

  /** A covered offset always has a most specific range, and only one. */
  lemma {:induction false} MostSpecificExists(ranges: seq<V8Range>, x: int) returns (i: nat)
    requires exists j :: 0 <= j < |ranges| && Covers(ranges[j], x)
    ensures IsMostSpecific(ranges, x, i)
    ensures forall j :: IsMostSpecific(ranges, x, j) ==> j == i
  {
    i :| i < |ranges| && Covers(ranges[i], x);
    var k := 0;
    while k < |ranges|
      invariant k <= |ranges| && i < |ranges| && Covers(ranges[i], x)
      invariant forall j :: 0 <= j < k && j != i && Covers(ranges[j], x) ==> MoreSpecific(ranges, i, j)
    {
      if k != i && Covers(ranges[k], x) && !MoreSpecific(ranges, i, k) {
        i := k;
      }
      k := k + 1;
    }
    MostSpecificIsUnique(ranges, x);
  }
}
