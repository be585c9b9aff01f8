/** Flattening a V8 report into runs: the array form for small scripts, the sweep for large ones. */
module RangeNormalizer {
  import opened V8Ranges
  import opened SortedReport
  import opened CoverageRuns
  import opened PaintedArray
  import opened EventSweep

  const MAX_ARRAY_END := 2_000_000

  ghost function MaxEnd(report: seq<V8Range>): nat {
    if report == [] then 0 else
      var rest, end := MaxEnd(report[..|report| - 1]), report[|report| - 1].endOffset;
      if end > rest then end else rest
  }

  lemma {:induction false} MaxEndReached(report: seq<V8Range>)
    ensures forall i :: 0 <= i < |report| ==> report[i].endOffset <= MaxEnd(report)
    ensures MaxEnd(report) == 0 || exists i :: 0 <= i < |report| && report[i].endOffset == MaxEnd(report)
  {
    if report != [] {
      MaxEndReached(report[..|report| - 1]);
    }
  }

  lemma {:induction false} SameMaxEnd(f: seq<V8Range>, g: seq<V8Range>)
    requires |f| == |g| && forall i :: 0 <= i < |f| ==> f[i].endOffset == g[i].endOffset
    ensures MaxEnd(f) == MaxEnd(g)
  {
    if f != [] {
      SameMaxEnd(f[..|f| - 1], g[..|g| - 1]);
    }
  }

  ghost predicate IsSmall(report: seq<V8Range>) {
    MaxEnd(report) <= MAX_ARRAY_END
  }

  // What the chosen form stores for an offset: the array form keeps counts modulo 2^32.
  ghost function StoredCount(report: seq<V8Range>, x: int): nat {
    Stored(IsSmall(report), CountAt(report, x))
  }

  function Stored(small: bool, count: nat): nat {
    if small then Truncate(count) else count
  }

  // Scripts up to two million characters are painted, larger ones swept.
  lemma {:induction false} LargeScriptsKeepCounts()
    ensures StoredCount([V8Range(0, 2_000_000, 0x1_0000_0000)], 0) == 0
    ensures StoredCount([V8Range(0, 2_000_001, 0x1_0000_0000)], 0) == 0x1_0000_0000
  {
    var small, large := [V8Range(0, 2_000_000, 0x1_0000_0000)], [V8Range(0, 2_000_001, 0x1_0000_0000)];
    assert small[..0] == [] && large[..0] == [];
    assert MaxEnd([]) == 0;
    assert IsMostSpecific(small, 0, 0) && IsMostSpecific(large, 0, 0);
    TruncateIsRemainder(0x1_0000_0000);
  }

  method MaxRangeEnd(rawRanges: seq<RawRange>, ghost report: seq<V8Range>) returns (maxEnd: nat)
    requires IsSortedReport(rawRanges, report) && AllWellFormed(report)
    ensures maxEnd == MaxEnd(report) && AllWithin(rawRanges, maxEnd)
  {
    maxEnd := 0;
    var k := 0;
    while k < |rawRanges|
      invariant k <= |rawRanges|
      invariant forall j :: 0 <= j < k ==> rawRanges[j].end <= maxEnd
      invariant maxEnd == 0 || exists j :: 0 <= j < k && rawRanges[j].end == maxEnd
    {
      if rawRanges[k].end > maxEnd {
        maxEnd := rawRanges[k].end;
      }
      k := k + 1;
    }
    SameEnds(rawRanges, report, maxEnd);
  }

  lemma {:induction false} PaintedIsReport(rawRanges: seq<RawRange>, report: seq<V8Range>)
    requires IsSortedReport(rawRanges, report)
    ensures forall x :: Painted(rawRanges, x) == CountAt(report, x)
  {
    forall x ensures Painted(rawRanges, x) == CountAt(report, x) {
      PaintedIsCount(rawRanges, report, x, |rawRanges|);
      assert rawRanges[..|rawRanges|] == rawRanges;
    }
  }

  method Normalize(functions: seq<FunctionCoverage>) returns (normalized: seq<Run>)
    requires AllWellFormed(Flatten(functions))
    ensures Canonical(normalized)
    ensures forall x :: Lookup(normalized, x) == StoredCount(Flatten(functions), x)
  {
    ghost var report := Flatten(functions);
    var rawRanges := GetSortedRawCoverageRanges(functions);
    if |rawRanges| == 0 {
      NoCounts(report);
      return [];
    }
    var maxEnd := MaxRangeEnd(rawRanges, report);
    if maxEnd <= MAX_ARRAY_END {
      normalized := NormalizeWithCoverageArray(rawRanges, maxEnd);
      PaintedIsReport(rawRanges, report);
    } else {
      normalized := NormalizeWithCoverageEvents(rawRanges, report);
    }
  }

  lemma {:induction false} SameEnds(sorted: seq<RawRange>, report: seq<V8Range>, maxEnd: nat)
    requires IsSortedReport(sorted, report) && AllWellFormed(report)
    requires forall j :: 0 <= j < |sorted| ==> sorted[j].end <= maxEnd
    requires maxEnd == 0 || exists j :: 0 <= j < |sorted| && sorted[j].end == maxEnd
    ensures forall j :: 0 <= j < |sorted| ==> sorted[j].start <= sorted[j].end
    ensures maxEnd == MaxEnd(report)
  {
    MaxEndReached(report);
    forall j | 0 <= j < |sorted|
      ensures sorted[j].start <= sorted[j].end
      ensures sorted[j].order < |report| && report[sorted[j].order].endOffset == sorted[j].end
    {
      assert sorted[j] in sorted;
    }
    forall i | 0 <= i < |report| ensures report[i].endOffset <= maxEnd {
      assert ToRaw(report, i) in sorted;
    }
  }

  lemma {:induction false} NoCounts(report: seq<V8Range>)
    requires report == []
    ensures forall x :: StoredCount(report, x) == 0
  {
  }

  // Every count that decides an offset fits in 32 bits.
  ghost predicate FitsAt(report: seq<V8Range>, x: int) {
    forall i :: IsMostSpecific(report, x, i) ==> report[i].count < UINT32_SIZE
  }

  lemma {:induction false} FitsAtIff(report: seq<V8Range>, x: int)
    ensures Truncate(CountAt(report, x)) == CountAt(report, x) <==> FitsAt(report, x)
  {
    var count := CountAt(report, x);
    assert Truncate(count) == count <==> count < UINT32_SIZE;
    if i :| IsMostSpecific(report, x, i) {
      assert count == report[i].count;
    } else if exists j :: 0 <= j < |report| && Covers(report[j], x) {
      var i := MostSpecificExists(report, x);
      assert false;
    }
  }

  // At every offset the two lists of runs agree exactly when the count that shows there fits in 32 bits.
  ghost predicate AgreeWhereFits(report: seq<V8Range>, painted: seq<Run>, swept: seq<Run>) {
    forall x :: Lookup(painted, x) == Lookup(swept, x) <==> FitsAt(report, x)
  }

  lemma {:induction false} FormsAgreeWhereFits(report: seq<V8Range>, painted: seq<Run>, swept: seq<Run>)
    requires forall x :: Lookup(painted, x) == Truncate(CountAt(report, x))
    requires forall x :: Lookup(swept, x) == CountAt(report, x)
    ensures AgreeWhereFits(report, painted, swept)
  {
    forall x ensures Lookup(painted, x) == Lookup(swept, x) <==> FitsAt(report, x) {
      FitsAtIff(report, x);
    }
  }

  // So they answer every query alike exactly when every count that shows anywhere fits in 32 bits.
  lemma {:induction false} FormsAgree(report: seq<V8Range>, painted: seq<Run>, swept: seq<Run>)
    requires forall x :: Lookup(painted, x) == Truncate(CountAt(report, x))
    requires forall x :: Lookup(swept, x) == CountAt(report, x)
    ensures AgreeWhereFits(report, painted, swept)
    ensures (forall x :: Lookup(painted, x) == Lookup(swept, x)) <==> (forall x :: FitsAt(report, x))
  {
    FormsAgreeWhereFits(report, painted, swept);
    if x :| !FitsAt(report, x) {
      assert Lookup(painted, x) != Lookup(swept, x);
    }
  }

  /**
   Both forms of one report. They answer an offset alike exactly when the count that shows there fits in 32 bits, and
   every offset alike exactly when every count that shows anywhere does.
   */
  method NormalizeBothWays(functions: seq<FunctionCoverage>) returns (painted: seq<Run>, swept: seq<Run>)
    requires AllWellFormed(Flatten(functions))
    ensures Canonical(painted) && Canonical(swept)
    ensures forall x :: Lookup(painted, x) == Truncate(CountAt(Flatten(functions), x))
    ensures forall x :: Lookup(swept, x) == CountAt(Flatten(functions), x)
    ensures AgreeWhereFits(Flatten(functions), painted, swept)
    ensures (forall x :: Lookup(painted, x) == Lookup(swept, x)) <==> (forall x :: FitsAt(Flatten(functions), x))
  {
    ghost var report := Flatten(functions);
    var rawRanges := GetSortedRawCoverageRanges(functions);
    if |rawRanges| == 0 {
      painted, swept := [], [];
    } else {
      var maxEnd := MaxRangeEnd(rawRanges, report);
      painted := NormalizeWithCoverageArray(rawRanges, maxEnd);
      PaintedIsReport(rawRanges, report);
      swept := NormalizeWithCoverageEvents(rawRanges, report);
    }
    FormsAgree(report, painted, swept);
  }

  /** One offset looked up in both forms. */
  method CountBothWays(functions: seq<FunctionCoverage>, x: int) returns (painted: nat, swept: nat)
    requires AllWellFormed(Flatten(functions))
    ensures painted == Truncate(swept) && swept == CountAt(Flatten(functions), x)
    ensures painted == swept <==> FitsAt(Flatten(functions), x)
  {
    var paintedRuns, sweptRuns := NormalizeBothWays(functions);
    painted := GetCount(x, paintedRuns);
    swept := GetCount(x, sweptRuns);
  }

  /** One character run 2^32 times: the array form says it never ran, the sweep form gives its count. */
  method CountLost() returns (painted: nat, swept: nat)
    ensures painted == 0 && swept == UINT32_SIZE
  {
    var range := V8Range(0, 1, UINT32_SIZE);
    var functions := [FunctionCoverage("", true, [range])];
    assert functions[..0] == [] && Flatten([]) == [];
    assert Flatten(functions) == [range];
    assert IsMostSpecific([range], 0, 0);
    painted, swept := CountBothWays(functions, 0);
  }
}
