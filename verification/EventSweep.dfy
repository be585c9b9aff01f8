/** The sweep form: range ends are visited in offset order with the list of open ranges. */
module EventSweep {
  import opened V8Ranges
  import opened SortedReport
  import opened CoverageRuns
  import Sorting = StableSort

  // One end of a range.
  datatype Event = Event(offset: nat, range: RawRange, isAdd: bool)

  predicate NotLater(a: Event, b: Event) {
    a.offset <= b.offset
  }

  predicate EventBefore(a: Event, b: Event) {
    a.offset < b.offset || (a.offset == b.offset
        && (LessSpecific(a.range, b.range) || (a.range == b.range && a.isAdd && !b.isAdd)))
  }

  // Both ends of every range, in sweep order; a range opens before it closes even when it is empty.
  ghost predicate IsSweep(events: seq<Event>, sorted: seq<RawRange>) {
    && Sorting.StrictlySorted(events, EventBefore)
    && (forall e :: e in events <==> e.range in sorted && e.offset == if e.isAdd then e.range.start else e.range.end)
  }

  method SortedEvents(ranges: seq<RawRange>) returns (events: seq<Event>)
    requires Sorting.StrictlySorted(ranges, LessSpecific)
    ensures IsSweep(events, ranges)
    ensures |events| == 2 * |ranges|
  {
    var unsorted: seq<Event> := [];
    var k := 0;
    while k < |ranges|
      invariant k <= |ranges| && unsorted == BothEnds(ranges[..k])
    {
      unsorted := unsorted + [Event(ranges[k].start, ranges[k], true)];
      unsorted := unsorted + [Event(ranges[k].end, ranges[k], false)];
      k := k + 1;
    }
    assert ranges[..|ranges|] == ranges;
    events := Sorting.Sort(unsorted, NotLater);
    SortedEndsAreSweep(ranges);
  }

  lemma {:induction false} SortedEndsAreSweep(ranges: seq<RawRange>)
    requires Sorting.StrictlySorted(ranges, LessSpecific)
    ensures IsSweep(Sorting.Sort(BothEnds(ranges), NotLater), ranges)
    ensures |Sorting.Sort(BothEnds(ranges), NotLater)| == 2 * |ranges|
  {
    var unsorted := BothEnds(ranges);
    BothEndsAre(ranges);
    BothEndsTieBroken(ranges);
    Sorting.SortIsStable(unsorted, NotLater, EventBefore);
    Sorting.SortKeepsElements(unsorted, NotLater);
    Sorting.SameElements(Sorting.Sort(unsorted, NotLater), unsorted);
  }

  // The ends of every range, its start before its end.
  ghost function BothEnds(ranges: seq<RawRange>): (events: seq<Event>)
    ensures |events| == 2 * |ranges|
  {
    seq(2 * |ranges|, i requires 0 <= i < 2 * |ranges| => EndAt(ranges, i))
  }

  ghost function EndAt(ranges: seq<RawRange>, i: nat): Event
    requires i < 2 * |ranges|
  {
    if i % 2 == 0 then Opening(ranges[i / 2]) else Closing(ranges[i / 2])
  }

  ghost predicate IsEnd(e: Event, ranges: seq<RawRange>) {
    e.range in ranges && e.offset == if e.isAdd then e.range.start else e.range.end
  }

  lemma {:induction false} BothEndsAre(ranges: seq<RawRange>)
    ensures forall e :: e in BothEnds(ranges) <==> IsEnd(e, ranges)
  {
    forall e | IsEnd(e, ranges) ensures e in BothEnds(ranges) {
      var k :| 0 <= k < |ranges| && ranges[k] == e.range;
      assert BothEnds(ranges)[2 * k] == Opening(e.range) && BothEnds(ranges)[2 * k + 1] == Closing(e.range);
    }
    forall e | e in BothEnds(ranges) ensures IsEnd(e, ranges) {
      var i :| 0 <= i < 2 * |ranges| && BothEnds(ranges)[i] == e;
      assert ranges[i / 2] in ranges;
    }
  }

  lemma {:induction false} BothEndsTieBroken(ranges: seq<RawRange>)
    requires Sorting.StrictlySorted(ranges, LessSpecific)
    ensures Sorting.TieBroken(BothEnds(ranges), NotLater, EventBefore)
  {
    var t := BothEnds(ranges);
    forall i, j | 0 <= i < j < |t| && NotLater(t[i], t[j]) ensures EventBefore(t[i], t[j]) {
      if i / 2 < j / 2 {
        assert LessSpecific(ranges[i / 2], ranges[j / 2]);
      }
    }
  }

  function Opening(r: RawRange): Event { Event(r.start, r, true) }

  function Closing(r: RawRange): Event { Event(r.end, r, false) }

  // After k events the active list holds, without repetition, the ranges opened and not yet closed.
  ghost predicate ActiveAfter(active: seq<RawRange>, events: seq<Event>, k: nat)
    requires k <= |events|
  {
    && (forall i, j :: 0 <= i < j < |active| ==> active[i] != active[j])
    && (forall r :: r in active <==> Opening(r) in events[..k] && Closing(r) !in events[..k])
  }

  lemma {:induction false} OpenStep(active: seq<RawRange>, events: seq<Event>, sorted: seq<RawRange>, k: nat)
    requires IsSweep(events, sorted) && k < |events| && events[k].isAdd && ActiveAfter(active, events, k)
    requires forall r :: r in sorted ==> r.start <= r.end
    ensures ActiveAfter(active + [events[k].range], events, k + 1)
  {
    var r := events[k].range;
    assert events[..k + 1] == events[..k] + [events[k]];
    assert events[k] in events;
    assert Opening(r) !in events[..k];
    assert r !in active;
  }

  lemma {:induction false} CloseStep(active: seq<RawRange>, events: seq<Event>, sorted: seq<RawRange>, k: nat, i: nat)
    requires IsSweep(events, sorted) && k < |events| && !events[k].isAdd && ActiveAfter(active, events, k)
    requires i < |active| && active[i] == events[k].range
    ensures ActiveAfter(active[..i] + active[i + 1..], events, k + 1)
  {
    var left := active[..i] + active[i + 1..];
    assert events[k] in events;
    assert events[..k + 1] == events[..k] + [events[k]];
    forall r ensures r in left <==> Opening(r) in events[..k + 1] && Closing(r) !in events[..k + 1] {
      if r in active && r != active[i] {
        var j :| 0 <= j < |active| && active[j] == r;
        assert r == if j < i then left[j] else left[j - 1];
      }
    }
  }

  // A closing event always finds its range in the active list.
  lemma {:induction false} ClosesActive(active: seq<RawRange>, events: seq<Event>, sorted: seq<RawRange>, k: nat)
    requires IsSweep(events, sorted) && k < |events| && !events[k].isAdd && ActiveAfter(active, events, k)
    requires forall r :: r in sorted ==> r.start <= r.end
    ensures events[k].range in active
  {
    var r := events[k].range;
    assert events[k] in events && Opening(r) in events;
    var j :| 0 <= j < |events| && events[j] == Opening(r);
    assert j < k;
    assert events[..k][j] == Opening(r);
    assert forall i :: 0 <= i < k ==> EventBefore(events[i], events[k]);
  }

  method IndexOf(active: seq<RawRange>, range: RawRange) returns (index: int)
    ensures index == -1 <==> range !in active
    ensures index != -1 ==> 0 <= index < |active| && active[index] == range
  {
    index := 0;
    while index < |active|
      invariant 0 <= index <= |active| && range !in active[..index]
    {
      if active[index] == range {
        return;
      }
      index := index + 1;
    }
    index := -1;
  }

  // Between two event offsets the active ranges are exactly the covering ones.
  lemma {:induction false} ActiveCovers(active: seq<RawRange>, events: seq<Event>, sorted: seq<RawRange>, k: nat,
      x: int)
    requires IsSweep(events, sorted) && k <= |events| && ActiveAfter(active, events, k)
    requires forall i :: 0 <= i < k ==> events[i].offset <= x
    requires forall i :: k <= i < |events| ==> events[i].offset > x
    ensures forall r :: r in active <==> r in sorted && RawCovers(r, x)
  {
    forall r ensures r in active <==> r in sorted && RawCovers(r, x) {
      if r in sorted {
        assert Opening(r) in events && Closing(r) in events;
        var i :| 0 <= i < |events| && events[i] == Opening(r);
        var j :| 0 <= j < |events| && events[j] == Closing(r);
        assert i < k ==> events[..k][i] == Opening(r);
        assert j < k ==> events[..k][j] == Closing(r);
      } else {
        assert Opening(r) !in events[..k];
      }
    }
  }

  method GetMostSpecificRange(ranges: seq<RawRange>) returns (winner: RawRange)
    requires ranges != []
    requires forall i, j :: 0 <= i < j < |ranges| ==>
        LessSpecific(ranges[i], ranges[j]) || LessSpecific(ranges[j], ranges[i])
    ensures winner in ranges
    ensures forall q :: q in ranges ==> q == winner || LessSpecific(q, winner)
  {
    winner := ranges[0];
    var index := 1;
    while index < |ranges|
      invariant 1 <= index <= |ranges| && winner in ranges[..index]
      invariant forall i :: 0 <= i < index ==> ranges[i] == winner || LessSpecific(ranges[i], winner)
    {
      var range := ranges[index];
      if range.area < winner.area
        || (range.area == winner.area && range.end > winner.end)
        || (range.area == winner.area && range.end == winner.end && range.order > winner.order)
      {
        winner := range;
      }
      index := index + 1;
    }
  }

  // The runs built so far: canonical, ending before cursor, and right for every smaller offset.
  ghost predicate SweptTo(runs: seq<Run>, report: seq<V8Range>, cursor: int) {
    && Canonical(runs)
    && (runs != [] ==> runs[|runs| - 1].end < cursor)
    && (forall x :: x < cursor ==> Lookup(runs, x) == CountAt(report, x))
  }

  // One push of the sweep: the runs grow by [cursor, offset) with the winner's count.
  method PushRun(runs: seq<Run>, cursor: int, offset: int, count: nat, ghost report: seq<V8Range>)
      returns (more: seq<Run>)
    requires SweptTo(runs, report, cursor) && cursor < offset
    requires forall x :: cursor <= x < offset ==> CountAt(report, x) == count
    ensures SweptTo(more, report, offset)
  {
    var n := |runs|;
    if n > 0 && runs[n - 1].end + 1 == cursor && runs[n - 1].count == count {
      more := runs[..n - 1] + [Run(runs[n - 1].start, offset - 1, count)];
      Widened(runs, offset - 1);
    } else {
      more := runs + [Run(cursor, offset - 1, count)];
      Appended(runs, Run(cursor, offset - 1, count));
    }
    forall x | x < offset ensures Lookup(more, x) == CountAt(report, x) {
      if x < cursor {
        assert Lookup(runs, x) == CountAt(report, x);
      }
    }
  }

  lemma {:induction false} AppendedCanonical(runs: seq<Run>, run: Run)
    requires Canonical(runs) && run.start <= run.end
    requires runs != [] ==> runs[|runs| - 1].end < run.start
    requires runs != [] && runs[|runs| - 1].end + 1 == run.start ==> runs[|runs| - 1].count != run.count
    ensures Canonical(runs + [run])
  {
    var more := runs + [run];
    forall i, j | 0 <= i < j < |more| ensures more[i].end < more[j].start {
      if j == |runs| {
        assert more[i] == runs[i];
        assert i < |runs| - 1 ==> runs[i].end < runs[|runs| - 1].start;
      }
    }
    forall i, j | 0 <= i < |more| && j == i + 1 && j < |more| && more[i].end + 1 == more[j].start
      ensures more[i].count != more[j].count
    {
      assert more[i] == runs[i];
    }
  }

  lemma {:induction false} Appended(runs: seq<Run>, run: Run)
    requires Canonical(runs) && run.start <= run.end
    requires runs != [] ==> runs[|runs| - 1].end < run.start
    requires runs != [] && runs[|runs| - 1].end + 1 == run.start ==> runs[|runs| - 1].count != run.count
    ensures Canonical(runs + [run])
    ensures forall x :: Lookup(runs + [run], x) == if Contains(run, x) then run.count else Lookup(runs, x)
  {
    AppendedCanonical(runs, run);
    forall x ensures Lookup(runs + [run], x) == if Contains(run, x) then run.count else Lookup(runs, x) {
      LookupAppended(runs, run, x);
    }
  }

  lemma {:induction false} LookupAppended(runs: seq<Run>, run: Run, x: int)
    ensures Lookup(runs + [run], x) == if Contains(run, x) then run.count else Lookup(runs, x)
  {
    assert (runs + [run])[..|runs|] == runs;
  }

  lemma {:induction false} Widened(runs: seq<Run>, end: int)
    requires Canonical(runs) && runs != [] && runs[|runs| - 1].end < end
    ensures var last := runs[|runs| - 1];
      var wider := runs[..|runs| - 1] + [Run(last.start, end, last.count)];
      Canonical(wider)
      && forall x :: Lookup(wider, x) == if last.end < x <= end then last.count else Lookup(runs, x)
  {
    var last := runs[|runs| - 1];
    assert Canonical(runs[..|runs| - 1]);
    Appended(runs[..|runs| - 1], Run(last.start, end, last.count));
  }

  // Offsets no range reaches, left of a cursor nothing opened before.
  lemma {:induction false} SweptNothing(events: seq<Event>, sorted: seq<RawRange>, report: seq<V8Range>, cursor: int)
    requires IsSortedReport(sorted, report) && IsSweep(events, sorted)
    requires forall i :: 0 <= i < |events| ==> cursor <= events[i].offset
    ensures SweptTo([], report, cursor)
  {
    forall x | x < cursor ensures CountAt(report, x) == 0 {
      forall q | q in sorted ensures !RawCovers(q, x) {
        assert Opening(q) in events;
      }
      UncoveredIsZero(sorted, report, x);
    }
  }

  // Skipping a stretch no range covers.
  lemma {:induction false} SkipGap(runs: seq<Run>, report: seq<V8Range>, cursor: int, offset: int)
    requires SweptTo(runs, report, cursor) && cursor <= offset
    requires forall x :: cursor <= x < offset ==> CountAt(report, x) == 0
    ensures SweptTo(runs, report, offset)
  {
    forall x | x < offset ensures Lookup(runs, x) == CountAt(report, x) {
      if cursor <= x {
        LookupMisses(runs, x);
      }
    }
  }

  // Processes the events of one offset.
  method Drain(active: seq<RawRange>, events: seq<Event>, first: nat, ghost sorted: seq<RawRange>)
    returns (now: seq<RawRange>, index: nat)
    requires IsSweep(events, sorted) && first < |events| && ActiveAfter(active, events, first)
    requires forall r :: r in sorted ==> r.start <= r.end
    ensures first < index <= |events| && ActiveAfter(now, events, index)
    ensures forall i :: first <= i < index ==> events[i].offset == events[first].offset
    ensures index < |events| ==> events[index].offset != events[first].offset
  {
    var offset := events[first].offset;
    now, index := active, first;
    while index < |events| && events[index].offset == offset
      invariant first <= index <= |events| && ActiveAfter(now, events, index)
      invariant index == first ==> events[index].offset == offset
      invariant forall i :: first <= i < index ==> events[i].offset == offset
    {
      var event := events[index];
      if event.isAdd {
        OpenStep(now, events, sorted, index);
        now := now + [event.range];
      } else {
        ClosesActive(now, events, sorted, index);
        var activeIndex := IndexOf(now, event.range);
        if activeIndex != -1 {
          CloseStep(now, events, sorted, index, activeIndex);
          now := now[..activeIndex] + now[activeIndex + 1..];
        }
      }
      index := index + 1;
    }
  }

  lemma {:induction false} SweepOrdered(events: seq<Event>, i: nat, j: nat)
    requires Sorting.StrictlySorted(events, EventBefore) && i <= j < |events|
    ensures events[i].offset <= events[j].offset
  {
    if i < j {
      assert EventBefore(events[i], events[j]);
    }
  }

  method NormalizeWithCoverageEvents(ranges: seq<RawRange>, ghost report: seq<V8Range>) returns (normalized: seq<Run>)
    requires IsSortedReport(ranges, report) && AllWellFormed(report) && ranges != []
    ensures Canonical(normalized)
    ensures forall x :: Lookup(normalized, x) == CountAt(report, x)
  {
    assert forall r :: r in ranges ==> WellFormed(report[r.order]);
    var events := SortedEvents(ranges);
    var active: seq<RawRange> := [];
    normalized := [];
    var cursor := events[0].offset;
    var index := 0;
    forall i | 0 <= i < |events| ensures cursor <= events[i].offset {
      SweepOrdered(events, 0, i);
    }
    SweptNothing(events, ranges, report, cursor);
    while index < |events|
      invariant 0 <= index <= |events| && ActiveAfter(active, events, index)
      invariant index == 0 ==> cursor == events[0].offset
      invariant forall i :: 0 <= i < index ==> events[i].offset <= cursor
      invariant index > 0 ==> forall i :: index <= i < |events| ==> events[i].offset > cursor
      invariant SweptTo(normalized, report, cursor)
    {
      var offset := events[index].offset;
      forall i | index <= i < |events| ensures events[i].offset >= offset {
        SweepOrdered(events, index, i);
      }
      forall x, r: RawRange | cursor <= x < offset
        ensures r in active <==> r in ranges && RawCovers(r, x)
      {
        ActiveCovers(active, events, ranges, index, x);
      }
      if |active| > 0 && cursor < offset {
        forall i, j | 0 <= i < j < |active|
          ensures LessSpecific(active[i], active[j]) || LessSpecific(active[j], active[i])
        {
          assert active[i] in active && active[j] in active;
          assert RawCovers(active[i], cursor) && RawCovers(active[j], cursor);
          Comparable(ranges, report, active[i], active[j]);
        }
        var winner := GetMostSpecificRange(active);
        forall x | cursor <= x < offset ensures CountAt(report, x) == winner.count {
          WinnerDecides(ranges, report, winner, x);
        }
        normalized := PushRun(normalized, cursor, offset, winner.count, report);
      } else {
        forall x | cursor <= x < offset ensures CountAt(report, x) == 0 {
          UncoveredIsZero(ranges, report, x);
        }
        SkipGap(normalized, report, cursor, offset);
      }
      ghost var last := index;
      active, index := Drain(active, events, index, ranges);
      cursor := offset;
      forall i | index <= i < |events| ensures events[i].offset > cursor {
        SweepOrdered(events, last, index);
        SweepOrdered(events, index, i);
      }
    }
    forall x | cursor <= x ensures CountAt(report, x) == 0 {
      forall q | q in ranges ensures !RawCovers(q, x) {
        assert Closing(q) in events;
      }
      UncoveredIsZero(ranges, report, x);
    }
    forall x ensures Lookup(normalized, x) == CountAt(report, x) {
      SkipGap(normalized, report, cursor, if cursor <= x then x + 1 else cursor);
    }
  }
}
