/** Grouping the raw entries of one file: keys issued one after the other, groups by source. */
module SourceGroups {
  import opened EntryMerge
  import opened CoverageModel
  import opened EntryGroups
  import opened GroupKey

  // An entry with the root and the resolved options it came with.
  datatype RetainedValue = RetainedValue(functions: Functions, source: Source)

  type RetainedValues = seq<RetainedValue>

  // ----- keys over time -----

  ghost function IdsAfter(entries: RetainedValues): map<string, nat> {
    if entries == [] then map[] else RegisterSource(IdsAfter(entries[..|entries| - 1]), entries[|entries| - 1].source)
  }

  ghost predicate KnownSource(ids: map<string, nat>, source: Source) {
    Known(ids, source.options.assetSource) && Known(ids, source.options.sourceMap)
  }

  lemma {:induction false} IdsAreValid(entries: RetainedValues)
    ensures IdsValid(IdsAfter(entries))
    ensures entries != [] ==> KnownSource(IdsAfter(entries), entries[|entries| - 1].source)
  {
    if entries != [] {
      IdsAreValid(entries[..|entries| - 1]);
      RegisterSourceKeeps(IdsAfter(entries[..|entries| - 1]), entries[|entries| - 1].source);
    }
  }

  lemma {:induction false} IdsExtend(entries: RetainedValues, n: nat)
    requires n <= |entries|
    ensures Extends(IdsAfter(entries), IdsAfter(entries[..n]))
  {
    if n < |entries| {
      var init := entries[..|entries| - 1];
      IdsExtend(init, n);
      assert init[..n] == entries[..n];
      IdsAreValid(init);
      RegisterSourceKeeps(IdsAfter(init), entries[|entries| - 1].source);
    } else {
      assert entries[..n] == entries;
    }
  }

  // Every entry under the key it gets when it is reached, with the ids known by then.
  ghost function Keyed(entries: RetainedValues): (keyed: seq<KeyedEntry>)
    ensures |keyed| == |entries|
  {
    if entries == [] then [] else
      IdsAreValid(entries);
      var last := entries[|entries| - 1];
      Keyed(entries[..|entries| - 1])
        + [KeyedEntry(KeyText(IdsAfter(entries), last.source), last.functions, last.source.options, last.source.root)]
  }

  // The key an entry got is the one it would get once all ids are known.
  lemma {:induction false} KeyInTheEnd(entries: RetainedValues, i: nat)
    requires i < |entries|
    ensures KnownSource(IdsAfter(entries), entries[i].source)
    ensures var k := Keyed(entries)[i]; var source := entries[i].source;
      k == KeyedEntry(KeyText(IdsAfter(entries), source), entries[i].functions, source.options, source.root)
  {
    var n := |entries| - 1;
    IdsAreValid(entries);
    if i < n {
      KeyInTheEnd(entries[..n], i);
      IdsExtend(entries, n);
      KeyIsStable(IdsAfter(entries[..n]), IdsAfter(entries), entries[i].source);
    }
  }

  /** Keys issued at different times agree exactly when the sources collide: for one file, when they are the same. */
  lemma {:induction false} KeysOverTime(entries: RetainedValues, i: nat, j: nat)
    requires i < |entries| && j < |entries|
    ensures Keyed(entries)[i].key == Keyed(entries)[j].key <==> Collide(entries[i].source, entries[j].source)
    ensures entries[i].source.filePath == entries[j].source.filePath ==>
      (Keyed(entries)[i].key == Keyed(entries)[j].key <==> SameSource(entries[i].source, entries[j].source))
  {
    IdsAreValid(entries);
    KeyInTheEnd(entries, i);
    KeyInTheEnd(entries, j);
    KeysAgreeIff(IdsAfter(entries), entries[i].source, entries[j].source);
    if entries[i].source.filePath == entries[j].source.filePath {
      KeyDecides(IdsAfter(entries), entries[i].source, entries[j].source);
    }
  }

  // ----- groups by source -----

  ghost predicate OfFile(entries: RetainedValues, filePath: string) {
    forall i :: 0 <= i < |entries| ==> entries[i].source.filePath == filePath
  }

  // The entries with the same source, in order.
  ghost function FromSource(entries: RetainedValues, source: Source): seq<Functions> {
    if entries == [] then [] else
      var last := entries[|entries| - 1];
      FromSource(entries[..|entries| - 1], source) + (if SameSource(last.source, source) then [last.functions] else [])
  }

  lemma {:induction false} WithKeyFromSource(entries: RetainedValues, filePath: string, i: nat, n: nat)
    requires OfFile(entries, filePath) && i < |entries| && n <= |entries|
    ensures WithKey(Keyed(entries)[..n], Keyed(entries)[i].key) == FromSource(entries[..n], entries[i].source)
  {
    if n > 0 {
      WithKeyFromSource(entries, filePath, i, n - 1);
      assert Keyed(entries)[..n][..n - 1] == Keyed(entries)[..n - 1] && entries[..n][..n - 1] == entries[..n - 1];
      KeysOverTime(entries, n - 1, i);
      KeyInTheEnd(entries, n - 1);
    }
  }

  ghost predicate KeyHasOptions(keyed: seq<KeyedEntry>, key: string, options: Options, root: string) {
    forall i :: 0 <= i < |keyed| && keyed[i].key == key ==>
        SameOptions(keyed[i].options, options) && RootOr(keyed[i].root) == root
  }

  lemma {:induction false} GroupKeepsOptions(keyed: seq<KeyedEntry>, key: string, options: Options, root: string)
    requires KeyHasOptions(keyed, key, options, root) && key in GroupAll(keyed)
    ensures SameOptions(GroupAll(keyed)[key].options, options) && RootOr(GroupAll(keyed)[key].root) == root
  {
    var n := |keyed| - 1;
    var init := keyed[..n];
    assert KeyHasOptions(init, key, options, root) by {
      assert forall i :: 0 <= i < n ==> init[i] == keyed[i];
    }
    if key in GroupAll(init) {
      GroupKeepsOptions(init, key, options, root);
    }
  }

  /**
   Grouping the entries of one file: a group's stored counts add up to those of exactly the entries with its source,
   whichever ids were known when their keys were made, each shape being stored once; and the options and root kept for
   its conversion are those of each of them.
   */
  lemma {:induction false} GroupHoldsSource(entries: RetainedValues, filePath: string, i: nat)
    requires OfFile(entries, filePath) && i < |entries|
    ensures var keyed, source := Keyed(entries), entries[i].source;
      && keyed[i].key in GroupAll(keyed)
      && WithKey(keyed, keyed[i].key) == FromSource(entries, source)
      && Distinct(Shapes(Group(keyed, keyed[i].key)))
      && (forall x :: SumAt(Group(keyed, keyed[i].key), x) == SumAt(FromSource(entries, source), x))
      && SameOptions(GroupAll(keyed)[keyed[i].key].options, source.options)
      && RootOr(GroupAll(keyed)[keyed[i].key].root) == RootText(source)
  {
    var keyed, source := Keyed(entries), entries[i].source;
    var key := keyed[i].key;
    WithKeyFromSource(entries, filePath, i, |entries|);
    assert keyed[..|entries|] == keyed && entries[..|entries|] == entries;
    InWithKey(keyed, i);
    GroupingLosesNothing(keyed, key);
    forall j | 0 <= j < |keyed| && keyed[j].key == key
      ensures SameOptions(keyed[j].options, source.options) && RootOr(keyed[j].root) == RootText(source)
    {
      KeysOverTime(entries, j, i);
      KeyInTheEnd(entries, j);
    }
    GroupKeepsOptions(keyed, key, source.options, RootText(source));
  }

  lemma {:induction false} InWithKey(keyed: seq<KeyedEntry>, i: nat)
    requires i < |keyed|
    ensures WithKey(keyed, keyed[i].key) != []
  {
    if i < |keyed| - 1 {
      InWithKey(keyed[..|keyed| - 1], i);
    }
  }

  /** Converting a group leaves the hits of converting every entry with its source, when the sums fit. */
  lemma {:induction false} SourceConverts(entries: RetainedValues, filePath: string, i: nat, data: CoverageData,
      p: Prepared)
    requires OfFile(entries, filePath) && i < |entries|
    requires forall x :: ShapesFit(FromSource(entries, entries[i].source), x)
    ensures ConvertAll(data, p, Group(Keyed(entries), Keyed(entries)[i].key))
         == ConvertAll(data, p, FromSource(entries, entries[i].source))
  {
    GroupHoldsSource(entries, filePath, i);
    GroupConverts(Keyed(entries), Keyed(entries)[i].key, data, p);
  }

  // ----- the grouping loop -----

  function Paired(values: seq<Functions>, sources: seq<Source>): (entries: RetainedValues)
    requires |values| == |sources|
    ensures |entries| == |sources| && forall i :: 0 <= i < |entries| ==>
        entries[i] == RetainedValue(values[i], sources[i])
  {
    seq(|sources|, i requires 0 <= i < |sources| => RetainedValue(values[i], sources[i]))
  }

  ghost predicate StoredAmong(groups: map<string, CoverageEntryGroup>, entries: seq<CoverageEntry>) {
    forall e :: e in EntriesOf(groups) ==> e in entries
  }

  // The groups and ids are those of the entries taken so far.
  ghost predicate Grouped(groups: Groups, identities: SourceIdentities, taken: RetainedValues)
    reads groups, identities, EntriesOf(groups.groups)
  {
    groups.Valid() && identities.ids == IdsAfter(taken) && groups.Value() == GroupAll(Keyed(taken))
  }

  lemma {:induction false} GroupedMore(taken: RetainedValues, last: RetainedValue)
    ensures IdsValid(IdsAfter(taken))
    ensures IdsAfter(taken + [last]) == RegisterSource(IdsAfter(taken), last.source)
    ensures KnownSource(IdsAfter(taken + [last]), last.source)
    ensures var key := KeyText(IdsAfter(taken + [last]), last.source);
      GroupAll(Keyed(taken + [last]))
      == AbsorbKeyed(GroupAll(Keyed(taken)), KeyedEntry(key, last.functions, last.source.options, last.source.root))
  {
    IdsAreValid(taken);
    IdsAreValid(taken + [last]);
    assert (taken + [last])[..|taken|] == taken;
    var keyed := Keyed(taken + [last]);
    assert keyed[..|taken|] == Keyed(taken);
  }

  // One turn: the entry goes under the key made from its source.
  method GroupOne(groups: Groups, identities: SourceIdentities, entry: CoverageEntry, source: Source,
      ghost taken: RetainedValues)
    requires Grouped(groups, identities, taken) && entry !in EntriesOf(groups.groups)
    modifies groups, identities, EntriesOf(groups.groups)
    ensures Grouped(groups, identities, taken + [RetainedValue(old(entry.functions), source)])
    ensures EntriesOf(groups.groups) <= old(EntriesOf(groups.groups)) + {entry}
  {
    GroupedMore(taken, RetainedValue(entry.functions, source));
    EntriesAreIn(groups.groups);
    var key := identities.GetRawCoverageGroupKey(source);
    groups.MergeIntoCoverageEntries(key, entry, source.options, source.root);
  }

  lemma {:induction false} NotYetStored(groups: map<string, CoverageEntryGroup>, entries: seq<CoverageEntry>, i: nat)
    requires NoTwice(entries) && i < |entries| && StoredAmong(groups, entries[..i])
    ensures forall k :: i <= k < |entries| ==> entries[k] !in EntriesOf(groups)
    ensures forall e :: e in EntriesOf(groups) ==> e in entries
    ensures forall e :: e in entries[..i] || e == entries[i] ==> e in entries[..i + 1]
  {
  }

  ghost predicate Untouched(entries: seq<CoverageEntry>, values: RetainedValues, i: nat)
    requires |values| == |entries|
    reads entries
  {
    forall k :: i <= k < |entries| ==> entries[k].functions == values[k].functions
  }

  // The first i entries are grouped; the others are not stored anywhere yet.
  ghost predicate TakenUpTo(groups: Groups, identities: SourceIdentities, entries: seq<CoverageEntry>,
      values: RetainedValues, i: nat)
    requires i <= |entries| == |values|
    reads groups, identities, EntriesOf(groups.groups), entries
  {
    && StoredAmong(groups.groups, entries[..i])
    && Untouched(entries, values, i)
    && Grouped(groups, identities, values[..i])
  }

  method GroupNext(groups: Groups, identities: SourceIdentities, entries: seq<CoverageEntry>, i: nat, source: Source,
      ghost values: RetainedValues)
    requires i < |entries| == |values| && NoTwice(entries) && source == values[i].source
    requires TakenUpTo(groups, identities, entries, values, i)
    modifies groups, identities, entries
    ensures TakenUpTo(groups, identities, entries, values, i + 1)
  {
    assert values[..i + 1] == values[..i] + [RetainedValue(entries[i].functions, source)];
    NotYetStored(groups.groups, entries, i);
    ghost var stored := EntriesOf(groups.groups);
    GroupOne(groups, identities, entries[i], source, values[..i]);
    assert forall k :: i < k < |entries| ==> entries[k] !in stored;
  }

  /**
   The groups of a file's retained entries, merged in place, each under the key its source got when it was reached.
   */
  method GroupRetained(entries: seq<CoverageEntry>, sources: seq<Source>) returns (groups: Groups)
    requires |entries| == |sources| && NoTwice(entries)
    modifies entries
    ensures fresh(groups) && groups.Valid()
    ensures groups.Value() == GroupAll(Keyed(Paired(old(Contents(entries)), sources)))
  {
    ghost var values := Paired(Contents(entries), sources);
    groups := new Groups();
    var identities := new SourceIdentities();
    assert Grouped(groups, identities, values[..0]);
    var i := 0;
    while i < |entries|
      invariant i <= |entries| && fresh(groups) && fresh(identities)
      invariant TakenUpTo(groups, identities, entries, values, i)
    {
      GroupNext(groups, identities, entries, i, sources[i], values);
      i := i + 1;
    }
    assert values[..|entries|] == values;
  }
}
