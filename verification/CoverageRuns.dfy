/** Disjoint runs of equal count, and the binary search that looks an offset up in them. */
module CoverageRuns {

  // An inclusive run of offsets with one count.
  datatype Run = Run(start: int, end: int, count: nat)

  // Sorted, disjoint, and no two touching runs of equal count.
  ghost predicate Canonical(runs: seq<Run>) {
    && (forall i :: 0 <= i < |runs| ==> runs[i].start <= runs[i].end)
    && (forall i, j :: 0 <= i < j < |runs| ==> runs[i].end < runs[j].start)
    && (forall i, j :: 0 <= i < |runs| && j == i + 1 && j < |runs| && runs[i].end + 1 == runs[j].start ==>
        runs[i].count != runs[j].count)
  }

  predicate Contains(run: Run, x: int) {
    run.start <= x <= run.end
  }

  // The count of the run containing x, or 0.
  ghost function Lookup(runs: seq<Run>, x: int): nat {
    if runs == [] then 0
    else if Contains(runs[|runs| - 1], x) then runs[|runs| - 1].count
    else Lookup(runs[..|runs| - 1], x)
  }

  lemma {:induction false} LookupFinds(runs: seq<Run>, x: int, i: nat)
    requires i < |runs| && Contains(runs[i], x)
    requires forall j :: i < j < |runs| ==> !Contains(runs[j], x)
    ensures Lookup(runs, x) == runs[i].count
    decreases |runs|
  {
    if i != |runs| - 1 {
      LookupFinds(runs[..|runs| - 1], x, i);
    }
  }

  lemma {:induction false} LookupMisses(runs: seq<Run>, x: int)
    requires forall j :: 0 <= j < |runs| ==> !Contains(runs[j], x)
    ensures Lookup(runs, x) == 0
  {
    if runs != [] {
      LookupMisses(runs[..|runs| - 1], x);
    }
  }

  /** The binary search: it goes on to the right after a hit, which disjointness makes harmless. */
  method GetCount(startOffset: int, coverages: seq<Run>) returns (count: nat)
    requires Canonical(coverages)
    ensures count == Lookup(coverages, startOffset)
  {
    count := 0;
    var low, high := 0, |coverages| - 1;
    ghost var found := -1;
    while low <= high
      invariant 0 <= low <= high + 1 <= |coverages|
      invariant forall j :: high < j < |coverages| ==> !Contains(coverages[j], startOffset)
      invariant forall j :: 0 <= j < low ==> !Contains(coverages[j], startOffset) || j == found
      invariant found == -1 ==> count == 0
      invariant found != -1 ==>
          0 <= found < low && Contains(coverages[found], startOffset) && count == coverages[found].count
    {
      var mid := (low + high) / 2;
      var coverage := coverages[mid];
      if coverage.start <= startOffset && startOffset <= coverage.end {
        count := coverage.count;
        low := mid + 1;
        found := mid;
        continue;
      }
      if startOffset < coverage.start {
        high := mid - 1;
      } else {
        low := mid + 1;
      }
    }
    if found == -1 {
      LookupMisses(coverages, startOffset);
    } else {
      LookupFinds(coverages, startOffset, found);
    }
  }
}
