/** The engine's `Array.prototype.sort`: a stable sort, given by the comparison `a` may stay before `b`. */
module StableSort {

  // Puts x as late as possible: after everything that may precede it.
  function Insert<T>(x: T, s: seq<T>, le: (T, T) -> bool): seq<T> {
    if s == [] then [x]
    else if le(s[|s| - 1], x) then s + [x]
    else Insert(x, s[..|s| - 1], le) + [s[|s| - 1]]
  }

  function Sort<T>(s: seq<T>, le: (T, T) -> bool): seq<T> {
    if s == [] then [] else Insert(s[|s| - 1], Sort(s[..|s| - 1], le), le)
  }

  ghost predicate StrictlySorted<T>(s: seq<T>, less: (T, T) -> bool) {
    forall i, j :: 0 <= i < j < |s| ==> less(s[i], s[j])
  }

  ghost predicate Transitive<T(!new)>(less: (T, T) -> bool) {
    forall a, b, c :: less(a, b) && less(b, c) ==> less(a, c)
  }

  // `less` breaks the ties of `le` by position in the unsorted list.
  ghost predicate TieBroken<T>(s: seq<T>, le: (T, T) -> bool, less: (T, T) -> bool) {
    && (forall i, j :: 0 <= i < j < |s| && le(s[i], s[j]) ==> less(s[i], s[j]))
    && (forall i, j :: 0 <= i < |s| && 0 <= j < |s| && !le(s[i], s[j]) ==> less(s[j], s[i]))
  }

  lemma {:induction false} InsertKeepsElements<T>(x: T, s: seq<T>, le: (T, T) -> bool)
    ensures multiset(Insert(x, s, le)) == multiset(s) + multiset{x}
  {
    if s != [] {
      assert s == s[..|s| - 1] + [s[|s| - 1]];
      if !le(s[|s| - 1], x) {
        InsertKeepsElements(x, s[..|s| - 1], le);
      }
    }
  }

  lemma {:induction false} SortKeepsElements<T>(s: seq<T>, le: (T, T) -> bool)
    ensures multiset(Sort(s, le)) == multiset(s)
  {
    if s != [] {
      assert s == s[..|s| - 1] + [s[|s| - 1]];
      SortKeepsElements(s[..|s| - 1], le);
      InsertKeepsElements(s[|s| - 1], Sort(s[..|s| - 1], le), le);
    }
  }

  lemma {:induction false} SameElements<T>(s: seq<T>, t: seq<T>)
    requires multiset(s) == multiset(t)
    ensures |s| == |t|
    ensures forall x :: x in s <==> x in t
  {
    assert |multiset(s)| == |s| && |multiset(t)| == |t|;
    forall x ensures x in s <==> x in t {
      assert x in s <==> x in multiset(s);
      assert x in t <==> x in multiset(t);
    }
  }

  lemma {:induction false} WithoutOne<T>(s: seq<T>, i: nat)
    requires i < |s|
    ensures multiset(s[..i] + s[i + 1..]) == multiset(s) - multiset{s[i]}
  {
    assert s == s[..i] + [s[i]] + s[i + 1..];
    assert multiset(s) == multiset(s[..i]) + multiset{s[i]} + multiset(s[i + 1..]);
  }

  function Map<A, B>(f: A -> B, s: seq<A>): seq<B> {
    seq(|s|, i requires 0 <= i < |s| => f(s[i]))
  }

  lemma {:induction false} MapWithoutOne<A, B>(f: A -> B, s: seq<A>, i: nat)
    requires i < |s|
    ensures multiset(Map(f, s[..i] + s[i + 1..])) == multiset(Map(f, s)) - multiset{f(s[i])}
  {
    WithoutOne(Map(f, s), i);
    assert Map(f, s[..i] + s[i + 1..]) == Map(f, s)[..i] + Map(f, s)[i + 1..];
  }

  // What is said of each element is said of any order of them.
  lemma {:induction false} MapSame<A, B>(f: A -> B, s: seq<A>, t: seq<A>)
    requires multiset(s) == multiset(t)
    ensures multiset(Map(f, s)) == multiset(Map(f, t))
    decreases |s|
  {
    SameElements(s, t);
    if s != [] {
      var n := |s| - 1;
      assert s[n] in t;
      var i :| 0 <= i < |t| && t[i] == s[n];
      WithoutOne(s, n);
      WithoutOne(t, i);
      assert s[n + 1..] == [] && s[..n] + [] == s[..n];
      MapSame(f, s[..n], t[..i] + t[i + 1..]);
      MapWithoutOne(f, s, n);
      MapWithoutOne(f, t, i);
      assert f(s[n]) in Map(f, s) by {
        assert Map(f, s)[n] == f(s[n]);
      }
      assert f(s[n]) in Map(f, t) by {
        assert Map(f, t)[i] == f(s[n]);
      }
      PutBack(multiset(Map(f, s)), multiset(Map(f, t)), f(s[n]));
    }
  }

  lemma {:induction false} PutBack<T>(s: multiset<T>, t: multiset<T>, x: T)
    requires x in s && x in t && s - multiset{x} == t - multiset{x}
    ensures s == t
  {
    assert s == (s - multiset{x}) + multiset{x} && t == (t - multiset{x}) + multiset{x};
  }

  lemma {:induction false} InsertStrict<T(!new)>(x: T, s: seq<T>, le: (T, T) -> bool, less: (T, T) -> bool)
    requires StrictlySorted(s, less) && Transitive(less)
    requires forall y :: y in s && le(y, x) ==> less(y, x)
    requires forall y :: y in s && !le(y, x) ==> less(x, y)
    ensures StrictlySorted(Insert(x, s, le), less)
  {
    if s != [] {
      var n := |s| - 1;
      assert forall y :: y in s[..n] ==> y in s;
      if le(s[n], x) {
        assert less(s[n], x);
      } else {
        InsertStrict(x, s[..n], le, less);
        var r := Insert(x, s[..n], le);
        InsertKeepsElements(x, s[..n], le);
        SameElements(r, s[..n] + [x]);
        assert multiset(s[..n] + [x]) == multiset(s[..n]) + multiset{x};
        forall y | y in r ensures less(y, s[n]) {
          assert y in s[..n] + [x];
          if y != x {
            assert y in s[..n];
          }
        }
        forall i, j | 0 <= i < j < |r + [s[n]]| ensures less((r + [s[n]])[i], (r + [s[n]])[j]) {
          assert (r + [s[n]])[i] == r[i] && r[i] in r;
        }
      }
    }
  }

  /** Stability: the sorted list is strictly ordered by `less`, which breaks ties by original position. */
  lemma {:induction false} SortIsStable<T(!new)>(s: seq<T>, le: (T, T) -> bool, less: (T, T) -> bool)
    requires Transitive(less) && TieBroken(s, le, less)
    ensures StrictlySorted(Sort(s, le), less)
  {
    if s != [] {
      var n := |s| - 1;
      SortIsStable(s[..n], le, less);
      SortKeepsElements(s[..n], le);
      SameElements(Sort(s[..n], le), s[..n]);
      InsertStrict(s[n], Sort(s[..n], le), le, less);
    }
  }
}
