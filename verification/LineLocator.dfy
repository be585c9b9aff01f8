/** Offsets to lines and columns: a table of line starts, searched by halving and remembered. */
module LineLocator {
  import opened Wrappers
  import opened CoverageModel
  import opened CoverageBuilder

  datatype Needle = Needle(line: nat, column: int)

  // Newlines among the first k characters.
  function Newlines(code: string, k: nat): nat
    requires k <= |code|
  {
    if k == 0 then 0 else Newlines(code, k - 1) + if code[k - 1] == '\n' then 1 else 0
  }

  // Where the line of position k starts: just behind the last newline before it.
  function LineStart(code: string, k: nat): (start: nat)
    requires k <= |code|
    ensures start <= k
  {
    if k == 0 || code[k - 1] == '\n' then k else LineStart(code, k - 1)
  }

  // Offsets outside the text belong to its first or last line.
  function Clamp(code: string, offset: int): nat {
    if offset < 0 then 0 else if offset > |code| then |code| else offset
  }

  /** The position of an offset, read off the text alone. */
  function NeedleAt(code: string, offset: int): Needle {
    var k := Clamp(code, offset);
    Needle(1 + Newlines(code, k), offset - LineStart(code, k))
  }

  lemma {:induction false} NewlinesGrow(code: string, j: nat, k: nat)
    requires j <= k <= |code|
    ensures Newlines(code, j) <= Newlines(code, k)
    ensures Newlines(code, j) == Newlines(code, k) ==> LineStart(code, j) == LineStart(code, k)
  {
    if j < k {
      NewlinesGrow(code, j, k - 1);
    }
  }

  /** Different offsets have different positions. */
  lemma {:induction false} NeedleInjective(code: string, a: int, b: int)
    requires NeedleAt(code, a) == NeedleAt(code, b)
    ensures a == b
  {
    var j, k := Clamp(code, a), Clamp(code, b);
    if j <= k {
      NewlinesGrow(code, j, k);
    } else {
      NewlinesGrow(code, k, j);
    }
  }

  // The table of the lines that start within the first k characters.
  ghost predicate IsTable(starts: seq<nat>, code: string, k: nat)
    requires k <= |code|
  {
    && |starts| == Newlines(code, k) + 1 && starts[0] == 0
    && forall j :: 1 <= j < |starts| ==>
        0 < starts[j] <= k && code[starts[j] - 1] == '\n' && Newlines(code, starts[j]) == j
  }

  lemma {:induction false} TableAscends(starts: seq<nat>, code: string, i: nat, j: nat)
    requires IsTable(starts, code, |code|) && i < j < |starts|
    ensures starts[i] < starts[j]
  {
    if starts[j] <= starts[i] {
      NewlinesGrow(code, starts[j], starts[i]);
    }
  }

  // The last line starting at or before an offset is the line of that offset.
  lemma {:induction false} LineFound(starts: seq<nat>, code: string, offset: int, i: nat)
    requires IsTable(starts, code, |code|) && i < |starts|
    requires starts[i] <= offset || i == 0
    requires i + 1 < |starts| ==> offset < starts[i + 1]
    ensures NeedleAt(code, offset) == Needle(i + 1, offset - starts[i])
  {
    var k := Clamp(code, offset);
    NewlinesGrow(code, starts[i], k);
    if i + 1 < |starts| {
      NewlinesGrow(code, k, starts[i + 1] - 1);
    } else {
      NewlinesGrow(code, k, |code|);
    }
  }

  // A remembered line index is the one the search would find.
  ghost predicate Remembers(cache: map<int, nat>, starts: seq<nat>, code: string) {
    forall o :: o in cache ==> IsLineOf(cache[o], o, starts, code)
  }

  ghost predicate IsLineOf(i: nat, offset: int, starts: seq<nat>, code: string) {
    i < |starts| && NeedleAt(code, offset) == Needle(i + 1, offset - starts[i])
  }

  class BaseLocator {
    const code: string
    var lineStarts: seq<nat>
    var cache: map<int, nat>

    ghost predicate Valid()
      reads this
    {
      IsTable(lineStarts, code, |code|) && Remembers(cache, lineStarts, code)
    }

    constructor (code: string)
      ensures Valid() && this.code == code && cache == map[]
    {
      this.code := code;
      cache := map[];
      var starts: seq<nat> := [0];
      for index := 0 to |code|
        invariant IsTable(starts, code, index)
      {
        if code[index] == '\n' {
          starts := starts + [index + 1];
        }
      }
      lineStarts := starts;
    }

    /**
     The position of any offset, whatever was looked up before; the line's start plus the column is the offset again.
     */
    method OffsetToNeedle(offset: int) returns (needle: Needle)
      requires Valid()
      modifies this`cache
      ensures Valid() && cache.Keys == old(cache.Keys) + {offset}
      ensures needle == NeedleAt(code, offset)
      ensures 1 <= needle.line <= |lineStarts| && lineStarts[needle.line - 1] + needle.column == offset
    {
      if offset in cache {
        assert IsLineOf(cache[offset], offset, lineStarts, code);
        return Needle(cache[offset] + 1, offset - lineStarts[cache[offset]]);
      }
      var lineIndex := FindLine(offset);
      cache := cache[offset := lineIndex];
      needle := Needle(lineIndex + 1, offset - lineStarts[lineIndex]);
    }

    method FindLine(offset: int) returns (lineIndex: nat)
      requires Valid()
      ensures IsLineOf(lineIndex, offset, lineStarts, code)
    {
      var low, high := 0, |lineStarts| - 1;
      while low <= high
        invariant 0 <= low <= high + 1 <= |lineStarts|
        invariant low > 0 ==> lineStarts[low - 1] <= offset
        invariant high + 1 < |lineStarts| ==> offset < lineStarts[high + 1]
      {
        var mid := (low + high) / 2;
        if lineStarts[mid] <= offset {
          low := mid + 1;
        } else {
          high := mid - 1;
        }
      }
      lineIndex := if high > 0 then high else 0;
      if high < 0 && |lineStarts| > 1 {
        TableAscends(lineStarts, code, 0, 1);
      }
      LineFound(lineStarts, code, offset, lineIndex);
    }

    /** The location of a span in unmapped code: its first and last character, unless its first line is ignored. */
    method GetLoc(filename: string, ignoredLines: set<nat>, span: Span) returns (loc: Option<Mapped>)
      requires Valid()
      modifies this`cache
      ensures Valid() && loc == IdentityLocation(code, filename, ignoredLines, span)
    {
      var start := OffsetToNeedle(span.start);
      var end := OffsetToNeedle(span.end);
      if start.line in ignoredLines {
        return None;
      }
      loc := Some(Mapped(filename, Location(start.line, start.column, end.line, end.column - 1)));
    }
  }

  ghost function IdentityLocation(code: string, filename: string, ignoredLines: set<nat>, span: Span): Option<Mapped> {
    var start, end := NeedleAt(code, span.start), NeedleAt(code, span.end);
    if start.line in ignoredLines then None
    else Some(Mapped(filename, Location(start.line, start.column, end.line, end.column - 1)))
  }

  /**
   A span in unmapped code is located at its first character and, columns being inclusive, at its last one, unless that
   is a newline: then the end column is -1. It has no location exactly when its first line is ignored.
   */
  lemma {:induction false} LocationCoversSpan(code: string, filename: string, ignoredLines: set<nat>, span: Span)
    requires 0 <= span.start < span.end <= |code|
    ensures var mapped := IdentityLocation(code, filename, ignoredLines, span);
      && (mapped.None? <==> NeedleAt(code, span.start).line in ignoredLines)
      && (mapped.Some? ==>
            var loc, first, last := mapped.value.loc, NeedleAt(code, span.start), NeedleAt(code, span.end - 1);
            && mapped.value.filename == filename
            && loc.startLine == first.line && loc.startColumn == first.column
            && if code[span.end - 1] == '\n' then loc.endLine == last.line + 1 && loc.endColumn == -1
               else loc.endLine == last.line && loc.endColumn == last.column)
  {
  }

  /** In unmapped code a location belongs to one span only, so an index is shared only by equal spans. */
  lemma {:induction false} LocationDecidesSpan(code: string, filename: string, ignoredLines: set<nat>, a: Span, b: Span)
    requires IdentityLocation(code, filename, ignoredLines, a).Some?
    requires IdentityLocation(code, filename, ignoredLines, a) == IdentityLocation(code, filename, ignoredLines, b)
    ensures a == b
  {
    NeedleInjective(code, a.start, b.start);
    NeedleInjective(code, a.end, b.end);
  }
}
