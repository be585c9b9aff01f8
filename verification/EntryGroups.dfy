/** Grouping raw entries by source identity before conversion. */
module EntryGroups {
  import opened Wrappers
  import opened V8Ranges
  import opened PaintedArray
  import opened RangeNormalizer
  import opened CoverageModel
  import opened EntryMerge
  import opened GroupKey

  // ----- what grouping means, on values -----

  // The first stored entry of the same shape absorbs the incoming one; otherwise it is stored.
  ghost function Absorb(stored: seq<Functions>, incoming: Functions): seq<Functions> {
    if stored == [] then [incoming]
    else if SameShape(stored[0], incoming) then [AddCounts(stored[0], incoming)] + stored[1..]
    else [stored[0]] + Absorb(stored[1..], incoming)
  }

  ghost function SumBy(entries: seq<Functions>, f: Functions -> nat): nat {
    if entries == [] then 0 else SumBy(entries[..|entries| - 1], f) + f(entries[|entries| - 1])
  }

  ghost function CountsAt(x: int): Functions -> nat {
    functions => CountAt(Flatten(functions), x)
  }

  ghost function StoredCountsAt(x: int): Functions -> nat {
    functions => StoredCount(Flatten(functions), x)
  }

  // The entries' counts at an offset, and the counts that would be stored for them one by one.
  ghost function SumAt(entries: seq<Functions>, x: int): nat {
    SumBy(entries, CountsAt(x))
  }

  ghost function StoredAt(entries: seq<Functions>, x: int): nat {
    SumBy(entries, StoredCountsAt(x))
  }

  lemma {:induction false} SumByMore(entries: seq<Functions>, last: Functions, f: Functions -> nat)
    ensures SumBy(entries + [last], f) == SumBy(entries, f) + f(last)
  {
    assert (entries + [last])[..|entries|] == entries;
  }

  lemma {:induction false} SumBySplit(a: seq<Functions>, b: seq<Functions>, f: Functions -> nat)
    ensures SumBy(a + b, f) == SumBy(a, f) + SumBy(b, f)
  {
    if b == [] {
      assert a + b == a;
    } else {
      var n := |b| - 1;
      SumBySplit(a, b[..n], f);
      assert b == b[..n] + [b[n]] && a + b == (a + b[..n]) + [b[n]];
      SumByMore(a + b[..n], b[n], f);
      SumByMore(b[..n], b[n], f);
    }
  }

  lemma {:induction false} SumByAround(p: seq<Functions>, mid: Functions, q: seq<Functions>, f: Functions -> nat)
    ensures SumBy(p + [mid] + q, f) == SumBy(p, f) + f(mid) + SumBy(q, f)
  {
    SumBySplit(p + [mid], q, f);
    SumByMore(p, mid, f);
  }

  lemma {:induction false} AbsorbSkips(stored: seq<Functions>, incoming: Functions, i: nat)
    requires i <= |stored| && forall k :: 0 <= k < i ==> !SameShape(stored[k], incoming)
    ensures i < |stored| && SameShape(stored[i], incoming) ==>
      Absorb(stored, incoming) == stored[i := AddCounts(stored[i], incoming)]
    ensures i == |stored| ==> Absorb(stored, incoming) == stored + [incoming]
    decreases i
  {
    if i > 0 {
      AbsorbSkips(stored[1..], incoming, i - 1);
    }
  }

  // The place of the first entry of the same shape, or the end.
  lemma {:induction false} AbsorbPlace(stored: seq<Functions>, incoming: Functions) returns (i: nat)
    ensures i <= |stored| && forall k :: 0 <= k < i ==> !SameShape(stored[k], incoming)
    ensures if i == |stored| then Absorb(stored, incoming) == stored + [incoming]
      else SameShape(stored[i], incoming) && Absorb(stored, incoming) == stored[i := AddCounts(stored[i], incoming)]
  {
    i := 0;
    while i < |stored| && !SameShape(stored[i], incoming)
      invariant i <= |stored| && forall k :: 0 <= k < i ==> !SameShape(stored[k], incoming)
    {
      i := i + 1;
    }
    AbsorbSkips(stored, incoming, i);
  }

  // A sum over stored entries takes the incoming one in, unless the merged entry's term is not the sum of both.
  lemma {:induction false} AbsorbSum(stored: seq<Functions>, incoming: Functions, f: Functions -> nat)
    requires forall i :: 0 <= i < |stored| && SameShape(stored[i], incoming) ==>
      f(AddCounts(stored[i], incoming)) == f(stored[i]) + f(incoming)
    ensures SumBy(Absorb(stored, incoming), f) == SumBy(stored, f) + f(incoming)
  {
    var i := AbsorbPlace(stored, incoming);
    if i == |stored| {
      SumByMore(stored, incoming, f);
    } else {
      var sum := AddCounts(stored[i], incoming);
      assert stored == stored[..i] + [stored[i]] + stored[i + 1..];
      assert Absorb(stored, incoming) == stored[..i] + [sum] + stored[i + 1..];
      SumByAround(stored[..i], stored[i], stored[i + 1..], f);
      SumByAround(stored[..i], sum, stored[i + 1..], f);
    }
  }

  lemma {:induction false} AbsorbAdds(stored: seq<Functions>, incoming: Functions, x: int)
    ensures SumAt(Absorb(stored, incoming), x) == SumAt(stored, x) + CountAt(Flatten(incoming), x)
  {
    forall i | 0 <= i < |stored| && SameShape(stored[i], incoming)
      ensures CountsAt(x)(AddCounts(stored[i], incoming)) == CountsAt(x)(stored[i]) + CountsAt(x)(incoming)
    {
      MergedCount(stored[i], incoming, x);
    }
    AbsorbSum(stored, incoming, CountsAt(x));
  }

  // An entry without its counts.
  ghost function Erase(functions: Functions): Functions {
    seq(|functions|, i requires 0 <= i < |functions| => functions[i].(ranges := EraseRanges(functions[i].ranges)))
  }

  ghost function EraseRanges(ranges: seq<V8Range>): seq<V8Range> {
    seq(|ranges|, j requires 0 <= j < |ranges| => ranges[j].(count := 0))
  }

  lemma {:induction false} SameFunctionShapeIff(a: FunctionCoverage, b: FunctionCoverage)
    ensures SameFunctionShape(a, b) <==> a.(ranges := EraseRanges(a.ranges)) == b.(ranges := EraseRanges(b.ranges))
  {
    if EraseRanges(a.ranges) == EraseRanges(b.ranges) {
      forall j | 0 <= j < |a.ranges|
        ensures a.ranges[j].startOffset == b.ranges[j].startOffset && a.ranges[j].endOffset == b.ranges[j].endOffset
      {
        assert EraseRanges(a.ranges)[j] == EraseRanges(b.ranges)[j];
      }
    }
  }

  lemma {:induction false} SameShapeIff(a: Functions, b: Functions)
    ensures SameShape(a, b) <==> Erase(a) == Erase(b)
  {
    if |a| == |b| {
      forall i | 0 <= i < |a| ensures SameFunctionShape(a[i], b[i]) <==> Erase(a)[i] == Erase(b)[i] {
        SameFunctionShapeIff(a[i], b[i]);
      }
    }
  }

  ghost function Shapes(entries: seq<Functions>): seq<Functions> {
    if entries == [] then [] else [Erase(entries[0])] + Shapes(entries[1..])
  }

  ghost predicate Distinct(shapes: seq<Functions>) {
    forall i, j :: 0 <= i < j < |shapes| ==> shapes[i] != shapes[j]
  }

  lemma {:induction false} MergedShape(a: Functions, b: Functions)
    requires SameShape(a, b)
    ensures Erase(AddCounts(a, b)) == Erase(a)
  {
    forall i | 0 <= i < |a| ensures EraseRanges(AddCounts(a, b)[i].ranges) == EraseRanges(a[i].ranges) {
    }
  }

  /** A shape already stored is stored no second time. */
  lemma {:induction false} AbsorbShapes(stored: seq<Functions>, incoming: Functions)
    ensures Shapes(Absorb(stored, incoming))
         == if Erase(incoming) in Shapes(stored) then Shapes(stored) else Shapes(stored) + [Erase(incoming)]
    decreases |stored|
  {
    if stored != [] {
      SameShapeIff(stored[0], incoming);
      if SameShape(stored[0], incoming) {
        MergedShape(stored[0], incoming);
      } else {
        AbsorbShapes(stored[1..], incoming);
      }
    }
  }

  // ----- all entries of one key -----

  datatype KeyedEntry = KeyedEntry(key: string, functions: Functions, options: Options, root: Option<string>)

  // What is kept under a key: the stored entries, and the options and root they will be converted with.
  datatype StoredGroup = StoredGroup(entries: seq<Functions>, options: Options, root: Option<string>)

  type GroupValues = map<string, StoredGroup>

  function Either<T>(first: Option<T>, second: Option<T>): Option<T> {
    if first.Some? then first else second
  }

  function MergedOptions(kept: Options, incoming: Options): Options {
    Options(Either(kept.outputModule, incoming.outputModule),
            Either(incoming.assetSource, kept.assetSource),
            Either(incoming.sourceMap, kept.sourceMap))
  }

  ghost function AbsorbInGroup(group: StoredGroup, entry: KeyedEntry): StoredGroup {
    StoredGroup(Absorb(group.entries, entry.functions), MergedOptions(group.options, entry.options), group.root)
  }

  ghost function AbsorbKeyed(groups: GroupValues, entry: KeyedEntry): GroupValues {
    groups[entry.key := if entry.key in groups then AbsorbInGroup(groups[entry.key], entry)
                        else StoredGroup([entry.functions], entry.options, entry.root)]
  }

  ghost function GroupAll(entries: seq<KeyedEntry>): GroupValues {
    if entries == [] then map[] else AbsorbKeyed(GroupAll(entries[..|entries| - 1]), entries[|entries| - 1])
  }

  // The inputs with one key, in order.
  ghost function WithKey(entries: seq<KeyedEntry>, key: string): seq<Functions> {
    if entries == [] then [] else
      var last := entries[|entries| - 1];
      WithKey(entries[..|entries| - 1], key) + (if last.key == key then [last.functions] else [])
  }

  ghost function Group(entries: seq<KeyedEntry>, key: string): seq<Functions> {
    if key in GroupAll(entries) then GroupAll(entries)[key].entries else []
  }

  // One more input is absorbed by the group of its key.
  lemma {:induction false} GroupMore(entries: seq<KeyedEntry>, key: string)
    requires entries != []
    ensures var n := |entries| - 1; var last := entries[n];
      if last.key != key
      then Group(entries, key) == Group(entries[..n], key) && WithKey(entries, key) == WithKey(entries[..n], key)
      else Group(entries, key) == Absorb(Group(entries[..n], key), last.functions)
           && WithKey(entries, key) == WithKey(entries[..n], key) + [last.functions]
  {
  }

  lemma {:induction false} AbsorbBoth(stored: seq<Functions>, inputs: seq<Functions>, incoming: Functions, x: int)
    requires SumAt(stored, x) == SumAt(inputs, x)
    ensures SumAt(Absorb(stored, incoming), x) == SumAt(inputs + [incoming], x)
  {
    AbsorbAdds(stored, incoming, x);
    SumByMore(inputs, incoming, CountsAt(x));
  }

  /**
   In every group the stored entries' counts add up to those of all inputs with its key, each shape being stored once.
   */
  lemma {:induction false} GroupingLosesNothing(entries: seq<KeyedEntry>, key: string)
    ensures key in GroupAll(entries) <==> WithKey(entries, key) != []
    ensures Group(entries, key) != [] <==> WithKey(entries, key) != []
    ensures Distinct(Shapes(Group(entries, key)))
    ensures forall x :: SumAt(Group(entries, key), x) == SumAt(WithKey(entries, key), x)
  {
    if entries != [] {
      var n := |entries| - 1;
      var last := entries[n];
      GroupingLosesNothing(entries[..n], key);
      GroupMore(entries, key);
      if last.key == key {
        var stored := Group(entries[..n], key);
        AbsorbShapes(stored, last.functions);
        forall x ensures SumAt(Group(entries, key), x) == SumAt(WithKey(entries, key), x) {
          AbsorbBoth(stored, WithKey(entries[..n], key), last.functions, x);
        }
      }
    }
  }

  // No entry of the key between two positions gives an output module, an asset, a source map.
  ghost predicate NoModule(entries: seq<KeyedEntry>, key: string, i: nat, j: nat) {
    forall k :: i <= k < j && k < |entries| && entries[k].key == key ==> entries[k].options.outputModule.None?
  }

  ghost predicate NoAsset(entries: seq<KeyedEntry>, key: string, i: nat, j: nat) {
    forall k :: i <= k < j && k < |entries| && entries[k].key == key ==> entries[k].options.assetSource.None?
  }

  ghost predicate NoMap(entries: seq<KeyedEntry>, key: string, i: nat, j: nat) {
    forall k :: i <= k < j && k < |entries| && entries[k].key == key ==> entries[k].options.sourceMap.None?
  }

  lemma {:induction false} NoModuleKept(entries: seq<KeyedEntry>, key: string)
    requires key in GroupAll(entries) && NoModule(entries, key, 0, |entries|)
    ensures GroupAll(entries)[key].options.outputModule == None
  {
    if entries != [] && key in GroupAll(entries[..|entries| - 1]) {
      NoModuleKept(entries[..|entries| - 1], key);
    }
  }

  /**
   A group is kept with the root of its first entry, the first output module given for it, and the last text of its
   asset and of its source map.
   */
  lemma {:induction false} GroupOptionsAre(entries: seq<KeyedEntry>, key: string, i: nat)
    requires i < |entries| && entries[i].key == key
    ensures key in GroupAll(entries)
    ensures var group, given, n := GroupAll(entries)[key], entries[i], |entries|;
      && ((forall k :: 0 <= k < i ==> entries[k].key != key) ==> group.root == given.root)
      && (given.options.outputModule.Some? && NoModule(entries, key, 0, i) ==>
            group.options.outputModule == given.options.outputModule)
      && (given.options.assetSource.Some? && NoAsset(entries, key, i + 1, n) ==>
            group.options.assetSource == given.options.assetSource)
      && (given.options.sourceMap.Some? && NoMap(entries, key, i + 1, n) ==>
            group.options.sourceMap == given.options.sourceMap)
  {
    var n := |entries| - 1;
    var front := entries[..n];
    if i < n {
      GroupOptionsAre(front, key, i);
    } else {
      if key in GroupAll(front) {
        if NoModule(entries, key, 0, i) {
          NoModuleKept(front, key);
        }
        HasEntry(front, key);
      }
    }
  }

  lemma {:induction false} HasEntry(entries: seq<KeyedEntry>, key: string)
    requires key in GroupAll(entries)
    ensures exists k :: 0 <= k < |entries| && entries[k].key == key
  {
    if entries != [] && entries[|entries| - 1].key != key {
      HasEntry(entries[..|entries| - 1], key);
      var k :| 0 <= k < |entries| - 1 && entries[..|entries| - 1][k].key == key;
      assert entries[k].key == key;
    }
  }

  // ----- what is stored for a shape -----

  // The entries that agree with a shape, whatever shapes are.
  ghost function Alike(entries: seq<Functions>, shapeOf: Functions -> Functions, shape: Functions): seq<Functions> {
    if entries == [] then [] else
      var last := entries[|entries| - 1];
      var rest := Alike(entries[..|entries| - 1], shapeOf, shape);
      if shapeOf(last) == shape then rest + [last] else rest
  }

  ghost function Eraser(): Functions -> Functions {
    functions => Erase(functions)
  }

  ghost function WithShape(entries: seq<Functions>, shape: Functions): seq<Functions> {
    Alike(entries, Eraser(), shape)
  }

  lemma {:induction false} AlikeMore(entries: seq<Functions>, last: Functions, shapeOf: Functions -> Functions,
      shape: Functions,
      f: Functions -> nat)
    ensures SumBy(Alike(entries + [last], shapeOf, shape), f)
         == SumBy(Alike(entries, shapeOf, shape), f) + if shapeOf(last) == shape then f(last) else 0
  {
    assert (entries + [last])[..|entries|] == entries;
    SumByMore(Alike(entries, shapeOf, shape), last, f);
  }

  lemma {:induction false} NoneAlike(entries: seq<Functions>, shapeOf: Functions -> Functions, shape: Functions)
    requires forall e :: e in entries ==> shapeOf(e) != shape
    ensures Alike(entries, shapeOf, shape) == []
  {
    if entries != [] {
      NoneAlike(entries[..|entries| - 1], shapeOf, shape);
    }
  }

  // A stored entry has the counts of the inputs of its shape, no shape is stored twice, and every input's shape is
  // stored.
  ghost predicate Gathered(stored: seq<Functions>, inputs: seq<Functions>, shapeOf: Functions -> Functions,
      f: Functions -> nat)
  {
    && (forall i :: 0 <= i < |stored| ==> f(stored[i]) == SumBy(Alike(inputs, shapeOf, shapeOf(stored[i])), f))
    && (forall i, j :: 0 <= i < j < |stored| ==> shapeOf(stored[i]) != shapeOf(stored[j]))
    && (forall e :: e in inputs ==> HasShape(stored, shapeOf, shapeOf(e)))
  }

  ghost predicate HasShape(stored: seq<Functions>, shapeOf: Functions -> Functions, shape: Functions) {
    exists i :: 0 <= i < |stored| && shapeOf(stored[i]) == shape
  }

  lemma {:induction false} GatherMerged(stored: seq<Functions>, inputs: seq<Functions>, incoming: Functions, i: nat,
      sum: Functions,
      shapeOf: Functions -> Functions, f: Functions -> nat)
    requires Gathered(stored, inputs, shapeOf, f) && i < |stored|
    requires shapeOf(sum) == shapeOf(stored[i]) == shapeOf(incoming) && f(sum) == f(stored[i]) + f(incoming)
    ensures Gathered(stored[i := sum], inputs + [incoming], shapeOf, f)
  {
    var after := stored[i := sum];
    assert forall k :: 0 <= k < |after| ==> shapeOf(after[k]) == shapeOf(stored[k]);
    forall k | 0 <= k < |after|
        ensures f(after[k]) == SumBy(Alike(inputs + [incoming], shapeOf, shapeOf(after[k])), f)
    {
      AlikeMore(inputs, incoming, shapeOf, shapeOf(after[k]), f);
    }
    forall e | e in inputs + [incoming] ensures HasShape(after, shapeOf, shapeOf(e)) {
      if e in inputs {
        assert HasShape(stored, shapeOf, shapeOf(e));
        var k :| 0 <= k < |stored| && shapeOf(stored[k]) == shapeOf(e);
        assert shapeOf(after[k]) == shapeOf(e);
      } else {
        assert shapeOf(after[i]) == shapeOf(e);
      }
    }
  }

  lemma {:induction false} GatherNew(stored: seq<Functions>, inputs: seq<Functions>, incoming: Functions,
      shapeOf: Functions -> Functions, f: Functions -> nat)
    requires Gathered(stored, inputs, shapeOf, f) && !HasShape(stored, shapeOf, shapeOf(incoming))
    ensures Gathered(stored + [incoming], inputs + [incoming], shapeOf, f)
  {
    var after := stored + [incoming];
    assert after[|stored|] == incoming;
    NoneAlike(inputs, shapeOf, shapeOf(incoming));
    forall k | 0 <= k < |after|
        ensures f(after[k]) == SumBy(Alike(inputs + [incoming], shapeOf, shapeOf(after[k])), f)
    {
      AlikeMore(inputs, incoming, shapeOf, shapeOf(after[k]), f);
    }
    forall e | e in inputs + [incoming] ensures HasShape(after, shapeOf, shapeOf(e)) {
      if e in inputs {
        assert HasShape(stored, shapeOf, shapeOf(e));
        var k :| 0 <= k < |stored| && shapeOf(stored[k]) == shapeOf(e);
        assert after[k] == stored[k];
      }
    }
  }

  lemma {:induction false} NewShape(stored: seq<Functions>, incoming: Functions)
    requires forall k :: 0 <= k < |stored| ==> !SameShape(stored[k], incoming)
    ensures !HasShape(stored, Eraser(), Eraser()(incoming))
  {
    forall k | 0 <= k < |stored| ensures Eraser()(stored[k]) != Eraser()(incoming) {
      SameShapeIff(stored[k], incoming);
    }
  }

  lemma {:induction false} MergedAlike(a: Functions, b: Functions, x: int)
    requires SameShape(a, b)
    ensures Eraser()(AddCounts(a, b)) == Eraser()(a) == Eraser()(b)
    ensures CountsAt(x)(AddCounts(a, b)) == CountsAt(x)(a) + CountsAt(x)(b)
  {
    SameShapeIff(a, b);
    MergedShape(a, b);
    MergedCount(a, b, x);
  }

  lemma {:induction false} GroupGathers(entries: seq<KeyedEntry>, key: string, x: int)
    ensures Gathered(Group(entries, key), WithKey(entries, key), Eraser(), CountsAt(x))
  {
    if entries != [] {
      var n := |entries| - 1;
      var stored, incoming := Group(entries[..n], key), entries[n].functions;
      GroupGathers(entries[..n], key, x);
      GroupMore(entries, key);
      if entries[n].key == key {
        var i := AbsorbPlace(stored, incoming);
        if i == |stored| {
          NewShape(stored, incoming);
          GatherNew(stored, WithKey(entries[..n], key), incoming, Eraser(), CountsAt(x));
        } else {
          MergedAlike(stored[i], incoming, x);
          GatherMerged(stored, WithKey(entries[..n], key), incoming, i, AddCounts(stored[i], incoming), Eraser(),
              CountsAt(x));
        }
      }
    }
  }

  lemma {:induction false} SumsTruncateAlike(entries: seq<Functions>, f: Functions -> nat, g: Functions -> nat)
    requires forall i :: 0 <= i < |entries| ==> g(entries[i]) == Truncate(f(entries[i]))
    ensures Truncate(SumBy(entries, f)) == Truncate(SumBy(entries, g))
  {
    if entries != [] {
      var n := |entries| - 1;
      SumsTruncateAlike(entries[..n], f, g);
      TruncateAgain(SumBy(entries[..n], f), f(entries[n]), SumBy(entries[..n], g));
    }
  }

  lemma {:induction false} SumsEqual(entries: seq<Functions>, f: Functions -> nat, g: Functions -> nat)
    requires forall i :: 0 <= i < |entries| ==> g(entries[i]) == f(entries[i])
    ensures SumBy(entries, f) == SumBy(entries, g)
  {
    if entries != [] {
      SumsEqual(entries[..|entries| - 1], f, g);
    }
  }

  ghost predicate AllOfSize(entries: seq<Functions>, small: bool) {
    forall i :: 0 <= i < |entries| ==> IsSmall(Flatten(entries[i])) == small
  }

  // What one form would store for the sum is what it stores one by one exactly when that fits.
  lemma {:induction false} StoredSumIff(entries: seq<Functions>, small: bool, x: int)
    requires AllOfSize(entries, small)
    ensures Stored(small, SumAt(entries, x)) == StoredAt(entries, x) <==> (small ==> StoredAt(entries, x) < UINT32_SIZE)
  {
    var f, g := CountsAt(x), StoredCountsAt(x);
    assert forall i :: 0 <= i < |entries| ==> g(entries[i]) == Stored(small, f(entries[i]));
    if small {
      SumsTruncateAlike(entries, f, g);
    } else {
      SumsEqual(entries, f, g);
    }
  }

  lemma {:induction false} ShapeDecidesSize(entries: seq<Functions>, shape: Functions, like: Functions)
    requires Erase(like) == shape
    ensures AllOfSize(WithShape(entries, shape), IsSmall(Flatten(like)))
  {
    if entries != [] {
      var last := entries[|entries| - 1];
      ShapeDecidesSize(entries[..|entries| - 1], shape, like);
      SameShapeIff(last, like);
      if SameShape(last, like) {
        MergedCount(last, like, 0);
      }
    }
  }

  // The counts stored one by one for the inputs of a shape still fit the form when added up.
  ghost predicate ShapeFits(inputs: seq<Functions>, like: Functions, x: int) {
    IsSmall(Flatten(like)) ==> StoredAt(WithShape(inputs, Erase(like)), x) < UINT32_SIZE
  }

  /**
   What is stored for an entry of a group is the sum over the inputs of its shape exactly when that sum fits the form.
   */
  lemma {:induction false} GroupStoredIff(entries: seq<KeyedEntry>, key: string, i: nat, x: int)
    requires i < |Group(entries, key)|
    ensures var g, inputs := Group(entries, key)[i], WithKey(entries, key);
      StoredCount(Flatten(g), x) == StoredAt(WithShape(inputs, Erase(g)), x) <==> ShapeFits(inputs, g, x)
  {
    GroupGathers(entries, key, x);
    var g, inputs := Group(entries, key)[i], WithKey(entries, key);
    ShapeDecidesSize(inputs, Erase(g), g);
    StoredSumIff(WithShape(inputs, Erase(g)), IsSmall(Flatten(g)), x);
  }

  // ----- conversion of a group -----

  ghost predicate ShapesFit(inputs: seq<Functions>, x: int) {
    forall i :: 0 <= i < |inputs| ==> ShapeFits(inputs, inputs[i], x)
  }

  lemma {:induction false} FewerFit(inputs: seq<Functions>, last: Functions, x: int)
    requires ShapesFit(inputs + [last], x)
    ensures ShapesFit(inputs, x)
  {
    forall i | 0 <= i < |inputs| ensures ShapeFits(inputs, inputs[i], x) {
      var like := inputs[i];
      assert (inputs + [last])[i] == like;
      assert ShapeFits(inputs + [last], like, x);
      AlikeMore(inputs, last, Eraser(), Erase(like), StoredCountsAt(x));
    }
  }

  // Absorbing an input adds its stored count to the stored entry of its shape, when the sum fits.
  lemma {:induction false} AbsorbedFits(entries: seq<KeyedEntry>, key: string, incoming: Functions, i: nat, x: int)
    requires i < |Group(entries, key)| && SameShape(Group(entries, key)[i], incoming)
    requires ShapesFit(WithKey(entries, key) + [incoming], x)
    ensures var g := Group(entries, key)[i];
      StoredCount(Flatten(AddCounts(g, incoming)), x) == StoredCount(Flatten(g), x) + StoredCount(Flatten(incoming), x)
  {
    var g, inputs := Group(entries, key)[i], WithKey(entries, key);
    SameShapeIff(g, incoming);
    MergedCount(g, incoming, x);
    assert (inputs + [incoming])[|inputs|] == incoming && ShapeFits(inputs + [incoming], incoming, x);
    AlikeMore(inputs, incoming, Eraser(), Erase(g), StoredCountsAt(x));
    GroupStoredIff(entries, key, i, x);
    MergedStoredIff(g, incoming, x);
  }

  lemma {:induction false} GroupStoresAll(entries: seq<KeyedEntry>, key: string, x: int)
    requires ShapesFit(WithKey(entries, key), x)
    ensures StoredAt(Group(entries, key), x) == StoredAt(WithKey(entries, key), x)
  {
    if entries != [] {
      var n := |entries| - 1;
      var stored, inputs, incoming := Group(entries[..n], key), WithKey(entries[..n], key), entries[n].functions;
      GroupMore(entries, key);
      if entries[n].key == key {
        FewerFit(inputs, incoming, x);
        GroupStoresAll(entries[..n], key, x);
        forall i | 0 <= i < |stored| && SameShape(stored[i], incoming)
          ensures StoredCountsAt(x)(AddCounts(stored[i], incoming))
              == StoredCountsAt(x)(stored[i]) + StoredCountsAt(x)(incoming)
        {
          AbsorbedFits(entries[..n], key, incoming, i, x);
        }
        AbsorbSum(stored, incoming, StoredCountsAt(x));
        SumByMore(inputs, incoming, StoredCountsAt(x));
      } else {
        GroupStoresAll(entries[..n], key, x);
      }
    }
  }

  ghost function StoredOf(functions: Functions): CountOf {
    x => StoredCount(Flatten(functions), x)
  }

  ghost function ConvertAll(data: CoverageData, p: Prepared, entries: seq<Functions>): CoverageData {
    if entries == [] then data
        else ApplyScript(ConvertAll(data, p, entries[..|entries| - 1]), p, StoredOf(entries[|entries| - 1]))
  }

  ghost function SumOf(entries: seq<Functions>): CountOf {
    x => StoredAt(entries, x)
  }

  lemma {:induction false} ConvertAllIsSum(data: CoverageData, p: Prepared, entries: seq<Functions>)
    requires entries != []
    ensures ConvertAll(data, p, entries) == ApplyScript(data, p, SumOf(entries))
  {
    var n := |entries| - 1;
    var init, last := entries[..n], entries[n];
    forall x ensures SumOf(entries)(x) == SumOf(init)(x) + StoredOf(last)(x) {
      assert StoredAt(entries, x) == StoredAt(init, x) + StoredCountsAt(x)(last);
    }
    if n == 0 {
      SameCounts(data, p, SumOf(entries), StoredOf(last));
    } else {
      ConvertAllIsSum(data, p, init);
      ConvertTwice(data, p, SumOf(init), StoredOf(last), SumOf(entries));
    }
  }

  lemma {:induction false} SameCounts(data: CoverageData, p: Prepared, a: CountOf, b: CountOf)
    requires forall x :: a(x) == b(x)
    ensures ApplyScript(data, p, a) == ApplyScript(data, p, b)
  {
    var zero: CountOf := _ => 0;
    ConvertTwice(data, p, zero, a, b);
    ConvertTwice(data, p, zero, a, a);
  }

  /**
   Converting what a group stores leaves the hits of converting every input with its key, when for each shape the stored
   counts still fit added up; large scripts always fit.
   */
  lemma {:induction false} GroupConverts(entries: seq<KeyedEntry>, key: string, data: CoverageData, p: Prepared)
    requires key in GroupAll(entries)
    requires forall x :: ShapesFit(WithKey(entries, key), x)
    ensures ConvertAll(data, p, Group(entries, key)) == ConvertAll(data, p, WithKey(entries, key))
  {
    GroupingLosesNothing(entries, key);
    ConvertAllIsSum(data, p, Group(entries, key));
    ConvertAllIsSum(data, p, WithKey(entries, key));
    forall x ensures SumOf(Group(entries, key))(x) == SumOf(WithKey(entries, key))(x) {
      assert ShapesFit(WithKey(entries, key), x);
      GroupStoresAll(entries, key, x);
    }
    SameCounts(data, p, SumOf(Group(entries, key)), SumOf(WithKey(entries, key)));
  }

  // ----- the groups the provider keeps -----

  function Contents(entries: seq<CoverageEntry>): (values: seq<Functions>)
    reads entries
    ensures |values| == |entries|
    ensures forall i :: 0 <= i < |entries| ==> values[i] == entries[i].functions
  {
    seq(|entries|, i requires 0 <= i < |entries| reads entries => entries[i].functions)
  }

  datatype CoverageEntryGroup = CoverageEntryGroup(entries: seq<CoverageEntry>, options: Options, root: Option<string>)

  function GroupValue(group: CoverageEntryGroup): StoredGroup
    reads group.entries
  {
    StoredGroup(Contents(group.entries), group.options, group.root)
  }

  // No entry is stored twice.
  ghost predicate StoredOnce(groups: map<string, CoverageEntryGroup>) {
    && (forall k :: k in groups ==> NoTwice(groups[k].entries))
    && (forall k, l :: k in groups && l in groups && k != l ==> Apart(groups[k].entries, groups[l].entries))
  }

  ghost function EntriesOf(groups: map<string, CoverageEntryGroup>): set<CoverageEntry> {
    set k, e | k in groups && e in groups[k].entries :: e
  }

  lemma {:induction false} EntriesAreIn(groups: map<string, CoverageEntryGroup>)
    ensures forall k, e :: k in groups && e in groups[k].entries ==> e in EntriesOf(groups)
  {
  }

  lemma {:induction false} StoredOnceMore(groups: map<string, CoverageEntryGroup>, key: string,
      group: CoverageEntryGroup, entry: CoverageEntry)
    requires StoredOnce(groups) && entry !in EntriesOf(groups)
    requires group.entries == (if key in groups then groups[key].entries else []) + [entry]
    ensures StoredOnce(groups[key := group])
    ensures EntriesOf(groups[key := group]) == EntriesOf(groups) + {entry}
  {
    var after := groups[key := group];
    assert forall k, e :: k in groups && e in groups[k].entries ==> e in EntriesOf(groups);
    assert forall k, e :: k in after && e in after[k].entries ==> e in EntriesOf(groups) + {entry};
    assert entry in after[key].entries;
    forall e | e in EntriesOf(groups) ensures e in EntriesOf(after) {
      var k :| k in groups && e in groups[k].entries;
      assert k in after && e in after[k].entries;
    }
  }

  lemma {:induction false} StoredOnceSame(groups: map<string, CoverageEntryGroup>, key: string,
      group: CoverageEntryGroup)
    requires StoredOnce(groups) && key in groups && group.entries == groups[key].entries
    ensures StoredOnce(groups[key := group])
    ensures EntriesOf(groups[key := group]) == EntriesOf(groups)
  {
    var after := groups[key := group];
    assert forall k :: k in after <==> k in groups;
    assert forall k :: k in after ==> after[k].entries == groups[k].entries;
  }

  lemma {:induction false} StillOnce(groups: map<string, CoverageEntryGroup>, key: string, group: CoverageEntryGroup,
      entry: CoverageEntry)
    requires StoredOnce(groups) && entry !in EntriesOf(groups)
    requires (key in groups && group.entries == StoredIn(groups, key))
        || group.entries == StoredIn(groups, key) + [entry]
    ensures StoredOnce(groups[key := group]) && EntriesOf(groups[key := group]) <= EntriesOf(groups) + {entry}
  {
    if key in groups && group.entries == StoredIn(groups, key) {
      StoredOnceSame(groups, key, group);
    } else {
      StoredOnceMore(groups, key, group, entry);
    }
  }

  class Groups {
    var groups: map<string, CoverageEntryGroup>

    constructor ()
      ensures groups == map[] && Valid() && Value() == map[]
    {
      groups := map[];
    }

    ghost predicate Valid()
      reads this
    {
      StoredOnce(groups)
    }

    ghost function Stored(key: string): seq<CoverageEntry>
      reads this
    {
      if key in groups then groups[key].entries else []
    }

    function Value(): GroupValues
      reads this, EntriesOf(groups)
    {
      EntriesAreIn(groups);
      map k | k in groups :: GroupValue(groups[k])
    }

    // The group of the key, with the options taken in, or a new one.
    function GroupFor(key: string, options: Options, root: Option<string>): CoverageEntryGroup
      reads this
    {
      if key in groups then groups[key].(options := MergedOptions(groups[key].options, options))
      else CoverageEntryGroup([], options, root)
    }

    method AbsorbOrPush(key: string, group: CoverageEntryGroup, entry: CoverageEntry)
      requires Valid() && entry !in EntriesOf(groups) && group.entries == Stored(key)
      modifies this, Stored(key)
      ensures Valid() && EntriesOf(groups) <= EntriesOf(old(groups)) + {entry}
      ensures key in groups && groups == old(groups)[key := group.(entries := groups[key].entries)]
      ensures GroupValue(groups[key])
           == StoredGroup(Absorb(old(Contents(group.entries)), old(entry.functions)), group.options, group.root)
      ensures forall k :: k in old(groups) && k != key ==> GroupValue(groups[k]) == old(GroupValue(groups[k]))
    {
      ghost var was := groups;
      OthersApart(was, key, entry);
      var entries := AbsorbUnder(groups, key, entry);
      groups := groups[key := group.(entries := entries)];
      StillOnce(was, key, groups[key], entry);
    }

    /** The entry is absorbed by the group of its key, whose options take in the entry's; other groups stay. */
    method MergeIntoCoverageEntries(key: string, entry: CoverageEntry, options: Options, root: Option<string>)
      requires Valid() && entry !in EntriesOf(groups)
      modifies this, Stored(key)
      ensures Valid() && EntriesOf(groups) <= EntriesOf(old(groups)) + {entry}
      ensures Value() == AbsorbKeyed(old(Value()), KeyedEntry(key, old(entry.functions), options, root))
    {
      ghost var before := Value();
      var group := GroupFor(key, options, root);
      ghost var incoming := KeyedEntry(key, entry.functions, options, root);
      AbsorbOrPush(key, group, entry);
      AbsorbedIs(before, Value(), incoming);
    }
  }

  lemma {:induction false} AbsorbedIs(before: GroupValues, after: GroupValues, entry: KeyedEntry)
    requires after.Keys == before.Keys + {entry.key}
    requires forall k :: k in before && k != entry.key ==> after[k] == before[k]
    requires after[entry.key] == AbsorbKeyed(before, entry)[entry.key]
    ensures after == AbsorbKeyed(before, entry)
  {
  }

  ghost predicate Apart(a: seq<CoverageEntry>, b: seq<CoverageEntry>) {
    forall e :: e in a ==> e !in b
  }

  ghost predicate AllApart(groups: map<string, CoverageEntryGroup>, key: string) {
    forall k :: k in groups && k != key ==> Apart(groups[k].entries, StoredIn(groups, key))
  }

  function StoredIn(groups: map<string, CoverageEntryGroup>, key: string): seq<CoverageEntry> {
    if key in groups then groups[key].entries else []
  }

  ghost predicate NoTwice(entries: seq<CoverageEntry>) {
    forall i, j :: 0 <= i < j < |entries| ==> entries[i] != entries[j]
  }

  lemma {:induction false} OthersApart(groups: map<string, CoverageEntryGroup>, key: string, entry: CoverageEntry)
    requires StoredOnce(groups) && entry !in EntriesOf(groups)
    ensures AllApart(groups, key) && NoTwice(StoredIn(groups, key)) && entry !in StoredIn(groups, key)
  {
    EntriesAreIn(groups);
  }

  twostate lemma {:induction false} SameContents(entries: seq<CoverageEntry>)
    requires forall i :: 0 <= i < |entries| ==> entries[i].functions == old(entries[i].functions)
    ensures Contents(entries) == old(Contents(entries))
  {
  }

  // Absorbing or pushing the entry in one group leaves the others as they are.
  method AbsorbUnder(groups: map<string, CoverageEntryGroup>, key: string, entry: CoverageEntry)
      returns (entries: seq<CoverageEntry>)
    requires AllApart(groups, key) && NoTwice(StoredIn(groups, key)) && entry !in StoredIn(groups, key)
    modifies StoredIn(groups, key)
    ensures (key in groups && entries == StoredIn(groups, key)) || entries == StoredIn(groups, key) + [entry]
    ensures Contents(entries) == Absorb(old(Contents(StoredIn(groups, key))), old(entry.functions))
    ensures forall k :: k in groups && k != key ==> GroupValue(groups[k]) == old(GroupValue(groups[k]))
  {
    entries := StoredIn(groups, key);
    var absorbed := AbsorbInto(entries, entry);
    forall k | k in groups && k != key ensures GroupValue(groups[k]) == old(GroupValue(groups[k])) {
      var other := groups[k].entries;
      forall i | 0 <= i < |other| ensures other[i].functions == old(other[i].functions) {
        assert Apart(other, entries) && other[i] in other;
      }
      SameContents(other);
    }
    if !absorbed {
      ContentsMore(entries, entry);
      entries := entries + [entry];
    }
  }

  lemma {:induction false} ContentsMore(entries: seq<CoverageEntry>, entry: CoverageEntry)
    ensures Contents(entries + [entry]) == Contents(entries) + [entry.functions]
  {
  }

  lemma {:induction false} ContentsAre(entries: seq<CoverageEntry>, values: seq<Functions>)
    requires |values| == |entries| && forall i :: 0 <= i < |entries| ==> values[i] == entries[i].functions
    ensures Contents(entries) == values
  {
  }

  // The first entry of the same shape takes the counts.
  method AbsorbInto(entries: seq<CoverageEntry>, entry: CoverageEntry) returns (absorbed: bool)
    requires entry !in entries && NoTwice(entries)
    modifies entries
    ensures absorbed ==> entries != [] && Contents(entries) == Absorb(old(Contents(entries)), entry.functions)
    ensures !absorbed ==> Contents(entries) == old(Contents(entries))
    ensures !absorbed ==> Absorb(old(Contents(entries)), entry.functions) == old(Contents(entries)) + [entry.functions]
  {
    ghost var before, incoming := Contents(entries), entry.functions;
    absorbed := false;
    var i := 0;
    while i < |entries| && !absorbed
      invariant i <= |entries| && entry.functions == incoming
      invariant !absorbed ==> Contents(entries) == before && forall k :: 0 <= k < i ==> !SameShape(before[k], incoming)
      invariant absorbed ==> Contents(entries) == Absorb(before, incoming)
    {
      absorbed := AbsorbAt(entries, entry, i);
      if absorbed {
        AbsorbSkips(before, incoming, i);
      }
      i := i + 1;
    }
    if !absorbed {
      AbsorbSkips(before, incoming, i);
    }
  }

  method AbsorbAt(entries: seq<CoverageEntry>, entry: CoverageEntry, i: nat) returns (absorbed: bool)
    requires i < |entries| && entry !in entries && NoTwice(entries)
    modifies entries
    ensures absorbed <==> old(SameShape(Contents(entries)[i], entry.functions))
    ensures Contents(entries) == if absorbed
        then old(Contents(entries)[i := AddCounts(Contents(entries)[i], entry.functions)]) else old(Contents(entries))
  {
    ghost var before, incoming := Contents(entries), entry.functions;
    absorbed := TryMergeCoverageEntry(entries[i], entry);
    ContentsAre(entries, if absorbed then before[i := AddCounts(before[i], incoming)] else before);
  }
}
