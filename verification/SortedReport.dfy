/** The converter's sorted list of raw ranges: least specific first. */
module SortedReport {
  import opened V8Ranges
  import Sorting = StableSort

  function ToRaw(ranges: seq<V8Range>, order: nat): RawRange
    requires order < |ranges|
  {
    var r := ranges[order];
    RawRange(r.startOffset, r.endOffset, r.count, r.endOffset - r.startOffset, order)
  }

  // The converter's comparator: larger area first, then smaller end; equal ranges keep their order.
  predicate MayPrecede(a: RawRange, b: RawRange) {
    if b.area != a.area then b.area < a.area else a.end <= b.end
  }

  predicate LessSpecific(a: RawRange, b: RawRange) {
    a.area > b.area || (a.area == b.area && (a.end < b.end || (a.end == b.end && a.order < b.order)))
  }

  predicate RawCovers(r: RawRange, x: int) {
    r.start <= x < r.end
  }

  // The report's ranges, every one once, from the least to the most specific.
  ghost predicate IsSortedReport(sorted: seq<RawRange>, report: seq<V8Range>) {
    && Sorting.StrictlySorted(sorted, LessSpecific)
    && (forall r :: r in sorted <==> r.order < |report| && r == ToRaw(report, r.order))
  }

  method GetSortedRawCoverageRanges(functions: seq<FunctionCoverage>) returns (sorted: seq<RawRange>)
    ensures IsSortedReport(sorted, Flatten(functions))
    ensures |sorted| == |Flatten(functions)|
  {
    var ranges: seq<RawRange> := [];
    var order := 0;
    var i := 0;
    while i < |functions|
      invariant i <= |functions|
      invariant order == |ranges| == |Flatten(functions[..i])|
      invariant forall k :: 0 <= k < order ==> ranges[k] == ToRaw(Flatten(functions[..i]), k)
    {
      ghost var before := Flatten(functions[..i]);
      assert functions[..i + 1][..i] == functions[..i];
      var fn := functions[i];
      var j := 0;
      while j < |fn.ranges|
        invariant j <= |fn.ranges|
        invariant order == |ranges| == |before| + j
        invariant forall k :: 0 <= k < order ==> ranges[k] == ToRaw(before + fn.ranges, k)
      {
        var range := fn.ranges[j];
        ranges := ranges + [RawRange(range.startOffset, range.endOffset, range.count,
            range.endOffset - range.startOffset, order)];
        order := order + 1;
        j := j + 1;
      }
      i := i + 1;
    }
    assert functions[..|functions|] == functions;
    sorted := Sorting.Sort(ranges, MayPrecede);
    SortedIsSortedReport(ranges, Flatten(functions));
  }

  lemma {:induction false} SortedIsSortedReport(ranges: seq<RawRange>, report: seq<V8Range>)
    requires |ranges| == |report| && forall k :: 0 <= k < |ranges| ==> ranges[k] == ToRaw(report, k)
    ensures IsSortedReport(Sorting.Sort(ranges, MayPrecede), report)
    ensures |Sorting.Sort(ranges, MayPrecede)| == |report|
  {
    var sorted := Sorting.Sort(ranges, MayPrecede);
    Sorting.SortIsStable(ranges, MayPrecede, LessSpecific);
    Sorting.SortKeepsElements(ranges, MayPrecede);
    Sorting.SameElements(sorted, ranges);
    forall r ensures r in sorted <==> r.order < |report| && r == ToRaw(report, r.order) {
      if r.order < |ranges| {
        assert ranges[r.order] in ranges;
      }
    }
  }

  // The range that beats every other range covering x decides the count.
  lemma {:induction false} WinnerDecides(sorted: seq<RawRange>, report: seq<V8Range>, winner: RawRange, x: int)
    requires IsSortedReport(sorted, report)
    requires winner in sorted && RawCovers(winner, x)
    requires forall q :: q in sorted && RawCovers(q, x) ==> q == winner || LessSpecific(q, winner)
    ensures CountAt(report, x) == winner.count
  {
    var i := winner.order;
    assert Covers(report[i], x);
    forall j | 0 <= j < |report| && j != i && Covers(report[j], x) ensures MoreSpecific(report, i, j) {
      var q := ToRaw(report, j);
      assert q in sorted && RawCovers(q, x);
      assert LessSpecific(q, winner);
    }
    assert IsMostSpecific(report, x, i);
  }

  lemma {:induction false} UncoveredIsZero(sorted: seq<RawRange>, report: seq<V8Range>, x: int)
    requires IsSortedReport(sorted, report)
    requires forall q :: q in sorted ==> !RawCovers(q, x)
    ensures CountAt(report, x) == 0
  {
    forall i | 0 <= i < |report| ensures !Covers(report[i], x) {
      assert ToRaw(report, i) in sorted;
    }
  }

  lemma {:induction false} Comparable(sorted: seq<RawRange>, report: seq<V8Range>, a: RawRange, b: RawRange)
    requires IsSortedReport(sorted, report) && a in sorted && b in sorted && a != b
    ensures LessSpecific(a, b) || LessSpecific(b, a)
  {
    assert a == ToRaw(report, a.order) && b == ToRaw(report, b.order);
  }
}
