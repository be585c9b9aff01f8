/** Cutting the initial coverage object out of instrumented code: the brace pair around the magic value. */
module InitialCoverage {
  import opened Wrappers

  const COVERAGE_MAGIC_VALUE := "11020577277169172593"

  datatype Slice = Found(open: nat, close: nat) | NoMagicValue | NoOpenBrace | NoCloseBrace

  // ----- braces as plain characters -----

  function Weight(c: char): int {
    if c == '{' then 1 else if c == '}' then -1 else 0
  }

  // Open minus close braces in code[i..j].
  function Depth(code: string, i: nat, j: nat): int
    requires i <= j <= |code|
    decreases j
  {
    if i == j then 0 else Depth(code, i, j - 1) + Weight(code[j - 1])
  }

  lemma {:induction false} DepthSplits(code: string, i: nat, k: nat, j: nat)
    requires i <= k <= j <= |code|
    ensures Depth(code, i, j) == Depth(code, i, k) + Depth(code, k, j)
    decreases j
  {
    if k < j {
      DepthSplits(code, i, k, j - 1);
    }
  }

  // From i on never more closed than opened, up to j.
  ghost predicate NeverDips(code: string, i: nat, j: nat)
    requires i <= j <= |code|
  {
    forall k :: i <= k <= j ==> Depth(code, i, k) >= 0
  }

  ghost predicate Balanced(code: string, i: nat, j: nat)
    requires i <= j <= |code|
  {
    Depth(code, i, j) == 0 && NeverDips(code, i, j)
  }

  /** An open brace and the close brace that matches it. */
  ghost predicate IsPair(code: string, open: int, close: int) {
    0 <= open < close < |code| && code[open] == '{' && code[close] == '}' && Balanced(code, open + 1, close)
  }

  ghost predicate Encloses(code: string, open: int, m: nat, close: int) {
    open < m < close && IsPair(code, open, close)
  }

  // ----- the magic value -----

  ghost predicate OccursAt(code: string, text: string, i: nat) {
    i + |text| <= |code| && code[i..i + |text|] == text
  }

  method IndexOf(code: string, text: string) returns (index: Option<nat>)
    ensures index.None? ==> forall i: nat :: !OccursAt(code, text, i)
    ensures index.Some? ==> OccursAt(code, text, index.value) && forall i: nat :: i < index.value ==>
        !OccursAt(code, text, i)
  {
    var i := 0;
    while i + |text| <= |code|
      invariant forall j: nat :: j < i ==> !OccursAt(code, text, j)
    {
      if code[i..i + |text|] == text {
        return Some(i);
      }
      i := i + 1;
    }
    index := None;
  }

  // ----- the two scans -----

  // Leftwards from m the first position that opens more than is closed up to m.
  ghost predicate IsInnermostOpen(code: string, m: nat, open: int)
    requires m <= |code|
  {
    0 <= open < m && code[open]
        == '{' && Depth(code, open, m) == 1 && forall i :: open < i <= m ==> Depth(code, i, m) <= 0
  }

  ghost predicate IsInnermostClose(code: string, m: nat, close: int)
    requires m < |code|
  {
    m < close < |code| && code[close] == '}' && Depth(code, m + 1, close + 1) == -1
    && NeverDips(code, m + 1, close)
  }

  lemma {:induction false} DepthOfOne(code: string, i: nat, j: nat)
    requires i < j <= |code|
    ensures Depth(code, i, j) == Weight(code[i]) + Depth(code, i + 1, j)
  {
    DepthSplits(code, i, i + 1, j);
    assert Depth(code, i, i) == 0;
  }

  method FindOpenBrace(code: string, m: nat) returns (open: int)
    requires m < |code|
    ensures if open < 0 then forall i :: 0 <= i <= m ==> Depth(code, i, m) <= 0 else IsInnermostOpen(code, m, open)
  {
    open := m;
    var remain := 1;
    while remain > 0
      invariant 0 <= open <= m && remain == 1 - Depth(code, open, m) && remain >= 0
      invariant forall i :: open < i <= m ==> Depth(code, i, m) <= 0
      invariant remain == 0 ==> open < m && code[open] == '{'
      decreases open, remain
    {
      open := open - 1;
      if open < 0 {
        return -1;
      }
      DepthOfOne(code, open, m);
      var brace := code[open];
      if brace == '}' {
        remain := remain + 1;
      } else if brace == '{' {
        remain := remain - 1;
      }
    }
  }

  method FindCloseBrace(code: string, m: nat) returns (close: nat)
    requires m < |code|
    ensures if close >= |code| then NeverDips(code, m + 1, |code|) else IsInnermostClose(code, m, close)
  {
    close := m;
    var remain := 1;
    while remain > 0
      invariant m <= close < |code| && remain == 1 + Depth(code, m + 1, close + 1) && remain >= 0
      invariant close > m ==> NeverDips(code, m + 1, close)
      invariant remain == 0 ==> close > m && code[close] == '}'
      decreases |code| - close, remain
    {
      close := close + 1;
      if close >= |code| {
        return;
      }
      var brace := code[close];
      if brace == '{' {
        remain := remain + 1;
      } else if brace == '}' {
        remain := remain - 1;
      }
    }
  }

  // ----- what the scans find -----

  lemma {:induction false} ScansGivePair(code: string, m: nat, open: int, close: int)
    requires m < |code| && Weight(code[m]) == 0
    requires IsInnermostOpen(code, m, open) && IsInnermostClose(code, m, close)
    ensures Encloses(code, open, m, close)
  {
    DepthOfOne(code, open, m);
    assert Depth(code, open + 1, m) == 0;
    assert Depth(code, m, m + 1) == 0;
    var inside := open + 1;
    forall k | inside <= k <= close ensures Depth(code, inside, k) >= 0 {
      if k <= m {
        DepthSplits(code, open + 1, k, m);
      } else {
        DepthSplits(code, open + 1, m, k);
        DepthSplits(code, m, m + 1, k);
      }
    }
    DepthSplits(code, open + 1, m, close);
    DepthSplits(code, m, m + 1, close);
    assert Depth(code, m + 1, close + 1) == Depth(code, m + 1, close) + Weight(code[close]);
  }

  // Any enclosing pair opens more on the left than is closed, and closes more on the right than is opened.
  lemma {:induction false} PairShows(code: string, m: nat, open: int, close: int)
    requires m < |code| && Weight(code[m]) == 0 && Encloses(code, open, m, close)
    ensures Depth(code, open, m) >= 1 && Depth(code, m + 1, close + 1) <= -1
  {
    DepthOfOne(code, open, m);
    assert Depth(code, open + 1, m) >= 0;
    DepthSplits(code, open + 1, m, close);
    DepthSplits(code, m, m + 1, close);
    assert Depth(code, m, m + 1) == 0;
    assert Depth(code, m + 1, close + 1) == Depth(code, m + 1, close) + Weight(code[close]);
  }

  ghost predicate Innermost(code: string, open: int, m: nat, close: int) {
    Encloses(code, open, m, close) && forall o, c :: Encloses(code, o, m, c) ==> o <= open && close <= c
  }

  lemma {:induction false} ScansGiveInnermost(code: string, m: nat, open: int, close: int)
    requires m < |code| && Weight(code[m]) == 0
    requires IsInnermostOpen(code, m, open) && IsInnermostClose(code, m, close)
    ensures Innermost(code, open, m, close)
  {
    ScansGivePair(code, m, open, close);
    forall o, c | Encloses(code, o, m, c) ensures o <= open && close <= c {
      PairShows(code, m, o, c);
    }
  }

  /**
   The slice is the innermost brace pair around the first magic value, and it is found exactly when some pair encloses
   that value; the two brace errors tell which side has no unmatched brace.
   */
  method FindSlice(code: string) returns (slice: Slice)
    ensures slice.NoMagicValue? <==> forall i: nat :: !OccursAt(code, COVERAGE_MAGIC_VALUE, i)
    ensures forall m: nat ::
      OccursAt(code, COVERAGE_MAGIC_VALUE, m) &&
      (forall i: nat :: i < m ==> !OccursAt(code, COVERAGE_MAGIC_VALUE, i)) ==>
      && (slice.Found? ==> Innermost(code, slice.open, m, slice.close))
      && (slice.Found? <==> exists o, c :: Encloses(code, o, m, c))
      && (slice.NoOpenBrace? <==> forall i :: 0 <= i <= m ==> Depth(code, i, m) <= 0)
      && (slice.NoCloseBrace? ==> NeverDips(code, m + 1, |code|))
  {
    var magic := IndexOf(code, COVERAGE_MAGIC_VALUE);
    if magic.None? {
      return NoMagicValue;
    }
    var m := magic.value;
    assert code[m] == code[m..m + |COVERAGE_MAGIC_VALUE|][0] == '1';
    FirstIsUnique(code, COVERAGE_MAGIC_VALUE, m);
    var open := FindOpenBrace(code, m);
    if open < 0 {
      NoPairAround(code, m);
      return NoOpenBrace;
    }
    assert Depth(code, open, m) == 1;
    var close := FindCloseBrace(code, m);
    if close >= |code| {
      NoPairAround(code, m);
      return NoCloseBrace;
    }
    ScansGiveInnermost(code, m, open, close);
    slice := Found(open, close);
  }

  lemma {:induction false} FirstIsUnique(code: string, text: string, m: nat)
    requires OccursAt(code, text, m) && forall i: nat :: i < m ==> !OccursAt(code, text, i)
    ensures forall n: nat :: OccursAt(code, text, n) && (forall i: nat :: i < n ==> !OccursAt(code, text, i)) ==> n == m
  {
  }

  lemma {:induction false} NoPairAround(code: string, m: nat)
    requires m < |code| && Weight(code[m]) == 0
    requires (forall i :: 0 <= i <= m ==> Depth(code, i, m) <= 0) || NeverDips(code, m + 1, |code|)
    ensures forall o, c :: !Encloses(code, o, m, c)
  {
    forall o, c ensures !Encloses(code, o, m, c) {
      if Encloses(code, o, m, c) {
        PairShows(code, m, o, c);
      }
    }
  }
}
