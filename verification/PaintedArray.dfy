/** The array form: ranges are painted into 32-bit counters, the last one on top. */
module PaintedArray {
  import opened V8Ranges
  import opened SortedReport
  import opened CoverageRuns

  const UINT32_SIZE := 0x1_0000_0000

  newtype Uint32 = n: int | 0 <= n < 0x1_0000_0000

  // The count the last covering range of the list leaves at x.
  ghost function Painted(ranges: seq<RawRange>, x: int): nat {
    if ranges == [] then 0
    else if RawCovers(ranges[|ranges| - 1], x) then ranges[|ranges| - 1].count
    else Painted(ranges[..|ranges| - 1], x)
  }

  // Painting from the least to the most specific range shows the most specific one.
  lemma {:induction false} PaintedIsCount(sorted: seq<RawRange>, report: seq<V8Range>, x: int, n: nat)
    requires IsSortedReport(sorted, report) && n <= |sorted|
    requires forall k :: n <= k < |sorted| ==> !RawCovers(sorted[k], x)
    ensures Painted(sorted[..n], x) == CountAt(report, x)
  {
    if n == 0 {
      UncoveredIsZero(sorted, report, x);
    } else if RawCovers(sorted[n - 1], x) {
      WinnerDecides(sorted, report, sorted[n - 1], x);
    } else {
      assert sorted[..n][..n - 1] == sorted[..n - 1];
      PaintedIsCount(sorted, report, x, n - 1);
    }
  }

  // What a 32-bit element keeps of a count: counted down by 2^32 until it fits.
  function Truncate(count: nat): (kept: nat)
    ensures kept < UINT32_SIZE
  {
    if count < UINT32_SIZE then count else Truncate(count - UINT32_SIZE)
  }

  lemma {:induction false} TruncateSteps(k: nat, rest: nat)
    ensures Truncate(UINT32_SIZE * k + rest) == Truncate(rest)
  {
    if k > 0 {
      TruncateSteps(k - 1, rest);
    }
  }

  lemma {:induction false} TruncateDrops(count: nat) returns (k: nat)
    ensures count == UINT32_SIZE * k + Truncate(count)
  {
    if count < UINT32_SIZE {
      k := 0;
    } else {
      k := TruncateDrops(count - UINT32_SIZE);
      k := k + 1;
    }
  }

  // A sum is kept alike whether its parts are truncated first or not.
  lemma {:induction false} TruncateAgain(c: nat, d: nat, e: nat)
    requires Truncate(c) == Truncate(e)
    ensures Truncate(c + d) == Truncate(e + Truncate(d))
  {
    var i := TruncateDrops(c);
    var j := TruncateDrops(d);
    var k := TruncateDrops(e);
    TruncateSteps(i + j, Truncate(c) + Truncate(d));
    TruncateSteps(k, Truncate(c) + Truncate(d));
    assert c + d == UINT32_SIZE * (i + j) + (Truncate(c) + Truncate(d));
    assert e + Truncate(d) == UINT32_SIZE * k + (Truncate(c) + Truncate(d));
  }

  lemma {:induction false} TruncateIsRemainder(count: nat)
    ensures Truncate(count) == count % UINT32_SIZE
  {
    if count >= UINT32_SIZE {
      TruncateIsRemainder(count - UINT32_SIZE);
    }
  }

  method Fill(hits: array<Uint32>, value: nat, start: nat, end: nat)
    requires start <= end <= hits.Length
    modifies hits
    ensures forall x :: 0 <= x < hits.Length ==>
      hits[x] == if start <= x < end then Truncate(value) as Uint32 else old(hits[x])
  {
    var x := start;
    while x < end
      invariant start <= x <= end
      invariant forall y :: 0 <= y < hits.Length ==>
        hits[y] == if start <= y < x then Truncate(value) as Uint32 else old(hits[y])
    {
      TruncateIsRemainder(value);
      hits[x] := (value % UINT32_SIZE) as Uint32;
      x := x + 1;
    }
  }

  // The runs tile [0, end) with the values of hits, no two neighbours equal.
  ghost predicate Tiles(runs: seq<Run>, hits: seq<Uint32>, end: nat) {
    && end <= |hits|
    && (runs == [] <==> end == 0)
    && (runs != [] ==> runs[0].start == 0 && runs[|runs| - 1].end == end - 1)
    && (forall i :: 0 <= i < |runs| ==> 0 <= runs[i].start <= runs[i].end < end)
    && (forall i, j :: 0 <= i && j == i + 1 && j < |runs| ==>
        runs[i].end + 1 == runs[j].start && runs[i].count != runs[j].count)
    && (forall i, x :: 0 <= i < |runs| && Contains(runs[i], x) ==> hits[x] as int == runs[i].count)
  }

  lemma {:induction false} TilesOrdered(runs: seq<Run>, hits: seq<Uint32>, end: nat, i: nat, j: nat)
    requires Tiles(runs, hits, end) && i < j < |runs|
    ensures runs[i].end < runs[j].start
    decreases j
  {
    if i < j - 1 {
      TilesOrdered(runs, hits, end, i, j - 1);
    }
  }

  lemma {:induction false} TilesReach(runs: seq<Run>, hits: seq<Uint32>, end: nat, x: nat, n: nat) returns (i: nat)
    requires Tiles(runs, hits, end) && 0 < n <= |runs| && x <= runs[n - 1].end
    ensures i < |runs| && Contains(runs[i], x)
    decreases n
  {
    if runs[n - 1].start <= x {
      i := n - 1;
    } else {
      assert n != 1;
      assert runs[n - 2].end + 1 == runs[n - 1].start;
      i := TilesReach(runs, hits, end, x, n - 1);
    }
  }

  lemma {:induction false} TilesLookup(runs: seq<Run>, hits: seq<Uint32>)
    requires Tiles(runs, hits, |hits|)
    ensures Canonical(runs)
    ensures forall x :: Lookup(runs, x) == if 0 <= x < |hits| then hits[x] as int else 0
  {
    forall i, j | 0 <= i < j < |runs| ensures runs[i].end < runs[j].start {
      TilesOrdered(runs, hits, |hits|, i, j);
    }
    forall x ensures Lookup(runs, x) == if 0 <= x < |hits| then hits[x] as int else 0 {
      if 0 <= x < |hits| {
        var i := TilesReach(runs, hits, |hits|, x, |runs|);
        LookupFinds(runs, x, i);
      } else {
        LookupMisses(runs, x);
      }
    }
  }

  lemma {:induction false} TilesExtend(runs: seq<Run>, hits: seq<Uint32>, start: nat, end: nat)
    requires Tiles(runs, hits, start) && start < end <= |hits|
    requires runs != [] ==> runs[|runs| - 1].count != hits[start] as int
    requires forall x :: start <= x < end ==> hits[x] == hits[start]
    ensures Tiles(runs + [Run(start, end - 1, hits[start] as int)], hits, end)
  {
    var more := runs + [Run(start, end - 1, hits[start] as int)];
    forall i | 0 <= i < |more| ensures 0 <= more[i].start <= more[i].end < end {
      if i < |runs| {
        assert more[i] == runs[i];
      }
    }
    forall i, x | 0 <= i < |more| && Contains(more[i], x) ensures hits[x] as int == more[i].count {
      if i < |runs| {
        assert more[i] == runs[i];
      }
    }
  }

  method RunsOf(hits: array<Uint32>) returns (normalized: seq<Run>)
    requires hits.Length > 0
    ensures Tiles(normalized, hits[..], hits.Length)
  {
    normalized := [];
    var start, end := 0, 1;
    while end < hits.Length
      invariant 0 <= start < end <= hits.Length
      invariant Tiles(normalized, hits[..], start)
      invariant normalized != [] ==> normalized[|normalized| - 1].count != hits[..][start] as int
      invariant forall x :: start <= x < end ==> hits[..][x] == hits[..][start]
    {
      var current := hits[end];
      var previous := hits[start];
      if current != previous {
        TilesExtend(normalized, hits[..], start, end);
        normalized := normalized + [Run(start, end - 1, previous as int)];
        start := end;
      }
      end := end + 1;
    }
    TilesExtend(normalized, hits[..], start, hits.Length);
    normalized := normalized + [Run(start, hits.Length - 1, hits[start] as int)];
  }

  ghost predicate AllWithin(ranges: seq<RawRange>, maxEnd: nat) {
    forall k :: 0 <= k < |ranges| ==> ranges[k].start <= ranges[k].end <= maxEnd
  }

  method NormalizeWithCoverageArray(ranges: seq<RawRange>, maxEnd: nat) returns (normalized: seq<Run>)
    requires AllWithin(ranges, maxEnd)
    ensures Canonical(normalized)
    ensures forall x :: Lookup(normalized, x) == Truncate(Painted(ranges, x))
  {
    var hits := new Uint32[maxEnd + 1](_ => 0);
    var k := 0;
    while k < |ranges|
      invariant k <= |ranges|
      invariant forall x :: 0 <= x < hits.Length ==> hits[x] as int == Truncate(Painted(ranges[..k], x))
    {
      assert ranges[..k + 1][..k] == ranges[..k];
      Fill(hits, ranges[k].count, ranges[k].start, ranges[k].end);
      k := k + 1;
    }
    assert ranges[..|ranges|] == ranges;
    normalized := RunsOf(hits);
    TilesLookup(normalized, hits[..]);
    forall x ensures Lookup(normalized, x) == Truncate(Painted(ranges, x)) {
      if x < 0 || hits.Length <= x {
        PaintedOutside(ranges, x, maxEnd);
      }
    }
  }

  lemma {:induction false} PaintedOutside(ranges: seq<RawRange>, x: int, maxEnd: nat)
    requires AllWithin(ranges, maxEnd)
    requires x < 0 || maxEnd < x
    ensures Painted(ranges, x) == 0
  {
    if ranges != [] {
      PaintedOutside(ranges[..|ranges| - 1], x, maxEnd);
    }
  }
}
