/** Converting the retained entries of one file: group after group, or entry by entry. */
module FileConversion {
  import opened V8Ranges
  import opened RangeNormalizer
  import opened CoverageModel
  import opened CoverageApply
  import opened ScriptOrder
  import opened EntryMerge
  import opened EntryGroups
  import opened GroupKey
  import opened SourceGroups

  // What the converter prepares for a source.
  type Preparer = Source -> Prepared

  ghost predicate RespectsSource(prepare: Preparer) {
    forall a, b :: SameSource(a, b) ==> prepare(a) == prepare(b)
  }

  // ----- entry by entry -----

  ghost function ScriptFor(prepare: Preparer, entry: RetainedValue): Script {
    Script(prepare(entry.source), StoredOf(entry.functions))
  }

  ghost function ScriptsOf(prepare: Preparer, entries: RetainedValues): (scripts: seq<Script>)
    ensures |scripts| == |entries| && forall i :: 0 <= i < |entries| ==> scripts[i] == ScriptFor(prepare, entries[i])
  {
    seq(|entries|, i requires 0 <= i < |entries| => ScriptFor(prepare, entries[i]))
  }

  /** Every entry converted on its own, in the order of arrival. */
  ghost function ConvertEach(data: CoverageData, prepare: Preparer, entries: RetainedValues): CoverageData {
    ApplyAll(data, ScriptsOf(prepare, entries))
  }

  // ----- group after group -----

  // A group is converted with the root and options kept beside it.
  function GroupSource(group: StoredGroup, filePath: string): Source {
    Source(group.root, filePath, group.options)
  }

  ghost function ConvertGroups(data: CoverageData, prepare: Preparer, filePath: string, groups: GroupValues,
      order: seq<string>): CoverageData
    requires forall key :: key in order ==> key in groups
  {
    if order == [] then data else
      var group := groups[order[|order| - 1]];
      ConvertAll(ConvertGroups(data, prepare, filePath, groups, order[..|order| - 1]),
                 prepare(GroupSource(group, filePath)), group.entries)
  }

  // ----- the same scripts in another order -----

  lemma {:induction false} ApplyAllSplit(data: CoverageData, a: seq<Script>, b: seq<Script>)
    ensures ApplyAll(data, a + b) == ApplyAll(ApplyAll(data, a), b)
    decreases |a|
  {
    if a == [] {
      assert a + b == b;
    } else {
      assert (a + b)[0] == a[0] && (a + b)[1..] == a[1..] + b;
      ApplyAllSplit(Apply(data, a[0]), a[1..], b);
    }
  }

  lemma {:induction false} ApplyAllMore(data: CoverageData, scripts: seq<Script>, last: Script)
    ensures ApplyAll(data, scripts + [last]) == ApplyScript(ApplyAll(data, scripts), last.prepared, last.count)
  {
    ApplyAllSplit(data, scripts, [last]);
    assert [last][1..] == [];
  }

  ghost function ScriptsFrom(p: Prepared, entries: seq<Functions>): seq<Script> {
    seq(|entries|, i requires 0 <= i < |entries| => Script(p, StoredOf(entries[i])))
  }

  // Equality as one fact, whatever the values are made of.
  ghost predicate Same<T>(a: T, b: T) {
    a == b
  }

  lemma {:induction false} ConvertAllApplies(data: CoverageData, p: Prepared, entries: seq<Functions>)
    ensures Same(ConvertAll(data, p, entries), ApplyAll(data, ScriptsFrom(p, entries)))
  {
    if entries != [] {
      var n := |entries| - 1;
      var front, last := ScriptsFrom(p, entries[..n]), Script(p, StoredOf(entries[n]));
      ConvertAllApplies(data, p, entries[..n]);
      assert ScriptsFrom(p, entries) == front + [last];
      ApplyAllMore(data, front, last);
    }
  }

  datatype KeyedScript = KeyedScript(key: string, script: Script)

  ghost function KeyedScripts(prepare: Preparer, entries: RetainedValues): (scripts: seq<KeyedScript>)
    ensures |scripts| == |entries|
    ensures forall i :: 0 <= i < |entries| ==>
      scripts[i] == KeyedScript(Keyed(entries)[i].key, ScriptFor(prepare, entries[i]))
  {
    seq(|entries|, i requires 0 <= i < |entries| =>
      KeyedScript(Keyed(entries)[i].key, ScriptFor(prepare, entries[i])))
  }

  // The scripts under one key, in order.
  ghost function Under(scripts: seq<KeyedScript>, key: string): seq<Script> {
    if scripts == [] then [] else
      var last, front := scripts[|scripts| - 1], Under(scripts[..|scripts| - 1], key);
      if last.key == key then front + [last.script] else front
  }

  ghost function UnderAll(scripts: seq<KeyedScript>, order: seq<string>): seq<Script> {
    if order == [] then [] else UnderAll(scripts, order[..|order| - 1]) + Under(scripts, order[|order| - 1])
  }

  ghost predicate NoKeyTwice(order: seq<string>) {
    forall i, j :: 0 <= i < j < |order| ==> order[i] != order[j]
  }

  // One more script comes in once, under its key.
  lemma {:induction false} UnderAllMore(scripts: seq<KeyedScript>, last: KeyedScript, order: seq<string>)
    requires NoKeyTwice(order)
    ensures multiset(UnderAll(scripts + [last], order))
         == multiset(UnderAll(scripts, order)) + if last.key in order then multiset{last.script} else multiset{}
  {
    if order != [] {
      var n := |order| - 1;
      UnderAllMore(scripts, last, order[..n]);
      assert (scripts + [last])[..|scripts|] == scripts;
      assert order == order[..n] + [order[n]];
      assert last.key == order[n] ==> last.key !in order[..n];
    }
  }

  lemma {:induction false} NothingUnder(order: seq<string>)
    ensures UnderAll([], order) == []
  {
    if order != [] {
      NothingUnder(order[..|order| - 1]);
    }
  }

  ghost function Plain(scripts: seq<KeyedScript>): seq<Script> {
    seq(|scripts|, i requires 0 <= i < |scripts| => scripts[i].script)
  }

  /** Taken key after key, the scripts are the same, each as often. */
  lemma {:induction false} UnderAllPermutes(scripts: seq<KeyedScript>, order: seq<string>)
    requires NoKeyTwice(order) && forall i :: 0 <= i < |scripts| ==> scripts[i].key in order
    ensures multiset(UnderAll(scripts, order)) == multiset(Plain(scripts))
  {
    if scripts == [] {
      NothingUnder(order);
    } else {
      var n := |scripts| - 1;
      UnderAllPermutes(scripts[..n], order);
      UnderAllMore(scripts[..n], scripts[n], order);
      assert scripts == scripts[..n] + [scripts[n]];
      assert Plain(scripts) == Plain(scripts[..n]) + [scripts[n].script];
    }
  }

  // Under an entry's key are the scripts of the entries with its source.
  lemma {:induction false} UnderIsFromSource(prepare: Preparer, entries: RetainedValues, filePath: string, i: nat,
      n: nat)
    requires RespectsSource(prepare) && OfFile(entries, filePath) && i < |entries| && n <= |entries|
    ensures Under(KeyedScripts(prepare, entries)[..n], Keyed(entries)[i].key)
         == ScriptsFrom(prepare(entries[i].source), FromSource(entries[..n], entries[i].source))
  {
    if n > 0 {
      var m, source := n - 1, entries[i].source;
      UnderIsFromSource(prepare, entries, filePath, i, m);
      var scripts := KeyedScripts(prepare, entries);
      assert scripts[..n][..m] == scripts[..m] && entries[..n][..m] == entries[..m];
      KeysOverTime(entries, m, i);
      assert entries[m].source.filePath == source.filePath;
    }
  }

  // Each source's stored counts still fit when added up.
  ghost predicate AllShapesFit(entries: RetainedValues) {
    forall i, x :: 0 <= i < |entries| ==> ShapesFit(FromSource(entries, entries[i].source), x)
  }

  lemma {:induction false} GroupSourceIs(entries: RetainedValues, filePath: string, i: nat)
    requires OfFile(entries, filePath) && i < |entries|
    ensures Keyed(entries)[i].key in GroupAll(Keyed(entries))
    ensures SameSource(GroupSource(GroupAll(Keyed(entries))[Keyed(entries)[i].key], filePath), entries[i].source)
  {
    GroupHoldsSource(entries, filePath, i);
    assert entries[i].source.filePath == filePath;
  }

  // One group converted is its entries' scripts applied.
  lemma {:induction false} GroupApplies(data: CoverageData, prepare: Preparer, entries: RetainedValues,
      filePath: string, i: nat)
    requires RespectsSource(prepare) && OfFile(entries, filePath) && AllShapesFit(entries) && i < |entries|
    ensures var key := Keyed(entries)[i].key;
      key in GroupAll(Keyed(entries))
      && var group := GroupAll(Keyed(entries))[key];
         ConvertAll(data, prepare(GroupSource(group, filePath)), group.entries)
         == ApplyAll(data, Under(KeyedScripts(prepare, entries), key))
  {
    var p := prepare(entries[i].source);
    GroupSourceIs(entries, filePath, i);
    SourceConverts(entries, filePath, i, data, p);
    ConvertAllApplies(data, p, FromSource(entries, entries[i].source));
    UnderIsFromSource(prepare, entries, filePath, i, |entries|);
    assert KeyedScripts(prepare, entries)[..|entries|] == KeyedScripts(prepare, entries);
    assert entries[..|entries|] == entries;
  }

  ghost predicate AreKeys(entries: RetainedValues, order: seq<string>) {
    forall key :: key in order ==> exists i :: 0 <= i < |entries| && Keyed(entries)[i].key == key
  }

  lemma {:induction false} KeysAreGroups(entries: RetainedValues, filePath: string, order: seq<string>)
    requires OfFile(entries, filePath) && AreKeys(entries, order)
    ensures forall key :: key in order ==> key in GroupAll(Keyed(entries))
  {
    forall key | key in order ensures key in GroupAll(Keyed(entries)) {
      var i :| 0 <= i < |entries| && Keyed(entries)[i].key == key;
      GroupSourceIs(entries, filePath, i);
    }
  }

  lemma {:induction false} GroupsApply(data: CoverageData, prepare: Preparer, entries: RetainedValues, filePath: string,
      order: seq<string>)
    requires RespectsSource(prepare) && OfFile(entries, filePath) && AllShapesFit(entries) && AreKeys(entries, order)
    ensures forall key :: key in order ==> key in GroupAll(Keyed(entries))
    ensures ConvertGroups(data, prepare, filePath, GroupAll(Keyed(entries)), order)
         == ApplyAll(data, UnderAll(KeyedScripts(prepare, entries), order))
  {
    KeysAreGroups(entries, filePath, order);
    if order != [] {
      var n := |order| - 1;
      var scripts := KeyedScripts(prepare, entries);
      assert forall key :: key in order[..n] ==> key in order;
      GroupsApply(data, prepare, entries, filePath, order[..n]);
      assert order[n] in order;
      var i :| 0 <= i < |entries| && Keyed(entries)[i].key == order[n];
      GroupApplies(ApplyAll(data, UnderAll(scripts, order[..n])), prepare, entries, filePath, i);
      ApplyAllSplit(data, UnderAll(scripts, order[..n]), Under(scripts, order[n]));
    }
  }

  // Every group once.
  ghost predicate IsOrder(entries: RetainedValues, order: seq<string>) {
    && NoKeyTwice(order) && AreKeys(entries, order)
    && forall i :: 0 <= i < |entries| ==> Keyed(entries)[i].key in order
  }

  lemma {:induction false} UnderAllIsEach(data: CoverageData, prepare: Preparer, entries: RetainedValues,
      order: seq<string>)
    requires IsOrder(entries, order) && Agree(ScriptsOf(prepare, entries))
    ensures ApplyAll(data, UnderAll(KeyedScripts(prepare, entries), order)) == ConvertEach(data, prepare, entries)
  {
    var scripts := KeyedScripts(prepare, entries);
    UnderAllPermutes(scripts, order);
    assert Plain(scripts) == ScriptsOf(prepare, entries);
    OrderIrrelevant(data, ScriptsOf(prepare, entries), UnderAll(scripts, order));
  }

  /**
   For the entries of one file whose scripts agree on their templates, converting group after group, in any order of the
   groups, leaves the coverage of converting every entry on its own as it arrived, when the counts still fit added up.
   */
  lemma {:induction false} GroupedIsEach(data: CoverageData, prepare: Preparer, entries: RetainedValues,
      filePath: string, order: seq<string>)
    requires RespectsSource(prepare) && OfFile(entries, filePath) && AllShapesFit(entries) && IsOrder(entries, order)
    requires Agree(ScriptsOf(prepare, entries))
    ensures forall key :: key in order ==> key in GroupAll(Keyed(entries))
    ensures ConvertGroups(data, prepare, filePath, GroupAll(Keyed(entries)), order)
        == ConvertEach(data, prepare, entries)
  {
    GroupsApply(data, prepare, entries, filePath, order);
    UnderAllIsEach(data, prepare, entries, order);
  }

  // ----- entries that fail -----

  // The coverage so far, and whether some entry failed.
  datatype Conversion = Conversion(data: CoverageData, failed: bool)

  // A script that throws is applied up to the branch it throws at, and the next one goes on from there.
  ghost function ConvertScript(so: Conversion, script: Script): Conversion {
    var start := WithTemplates(so.data, script.prepared);
    Conversion(ApplyScript(so.data, AppliedPart(script.prepared, start), script.count),
               so.failed || !BranchesFound(script.prepared, start))
  }

  // Step by step through a list.
  ghost function Folded<S, E>(step: (S, E) -> S, so: S, list: seq<E>): S {
    if list == [] then so else step(Folded(step, so, list[..|list| - 1]), list[|list| - 1])
  }

  lemma {:induction false} FoldedSplit<S, E>(step: (S, E) -> S, so: S, a: seq<E>, b: seq<E>)
    ensures Folded(step, so, a + b) == Folded(step, Folded(step, so, a), b)
    decreases |b|
  {
    if b == [] {
      assert a + b == a;
    } else {
      var n := |b| - 1;
      assert (a + b)[..|a + b| - 1] == a + b[..n] && (a + b)[|a + b| - 1] == b[n];
      FoldedSplit(step, so, a, b[..n]);
    }
  }

  lemma {:induction false} FoldedMore<S, E>(step: (S, E) -> S, so: S, list: seq<E>, n: nat)
    requires n < |list|
    ensures Folded(step, so, list[..n + 1]) == step(Folded(step, so, list[..n]), list[n])
  {
    assert list[..n + 1][..n] == list[..n];
  }

  lemma {:induction false} FoldedAll<S, E>(step: (S, E) -> S, so: S, list: seq<E>)
    ensures Folded(step, so, list[..|list|]) == Folded(step, so, list)
  {
    assert list[..|list|] == list;
  }

  // Steps on acceptable elements keep the two states related.
  ghost predicate Simulates<S(!new), T(!new), E(!new)>(step: (S, E) -> S, other: (T, E) -> T, related: (S, T) -> bool,
      ok: E -> bool)
  {
    forall s, t, e :: related(s, t) && ok(e) ==> related(step(s, e), other(t, e))
  }

  lemma {:induction false} FoldedSimulates<S(!new), T(!new), E(!new)>(step: (S, E) -> S, other: (T, E) -> T,
      related: (S, T) -> bool, ok: E -> bool, s: S, t: T, list: seq<E>)
    requires Simulates(step, other, related, ok) && related(s, t) && forall i :: 0 <= i < |list| ==> ok(list[i])
    ensures related(Folded(step, s, list), Folded(other, t, list))
  {
    if list != [] {
      FoldedSimulates(step, other, related, ok, s, t, list[..|list| - 1]);
    }
  }

  ghost function ConvertScripts(so: Conversion, scripts: seq<Script>): Conversion {
    Folded(ConvertScript, so, scripts)
  }

  // The preparations of all sources name only their own counters, share templates, and fit the coverage that is there.
  ghost predicate Ready(data: CoverageData, prepare: Preparer, sources: seq<Source>) {
    && (forall i :: 0 <= i < |sources| ==> SelfContained(prepare(sources[i])) && Compatible(data, prepare(sources[i])))
    && (forall i, j :: 0 <= i < |sources| && 0 <= j < |sources| ==>
          ShareTemplates(prepare(sources[i]), prepare(sources[j])))
  }

  lemma {:induction false} StaysReady(data: CoverageData, prepare: Preparer, sources: seq<Source>, i: nat,
      count: CountOf)
    requires Ready(data, prepare, sources) && i < |sources|
    ensures Ready(ApplyScript(data, prepare(sources[i]), count), prepare, sources)
  {
    forall j | 0 <= j < |sources|
      ensures Compatible(ApplyScript(data, prepare(sources[i]), count), prepare(sources[j]))
    {
      ScriptKeepsShape(data, prepare(sources[i]), count, prepare(sources[j]));
    }
  }

  ghost predicate IsPrepared(p: Prepared, prepare: Preparer, sources: seq<Source>) {
    exists i :: 0 <= i < |sources| && p == prepare(sources[i])
  }

  ghost predicate ArePrepared(scripts: seq<Script>, prepare: Preparer, sources: seq<Source>) {
    forall k :: 0 <= k < |scripts| ==> IsPrepared(scripts[k].prepared, prepare, sources)
  }

  lemma {:induction false} NothingFailsOnce(so: Conversion, script: Script, prepare: Preparer, sources: seq<Source>)
    requires Ready(so.data, prepare, sources) && IsPrepared(script.prepared, prepare, sources)
    ensures ConvertScript(so, script) == Conversion(Apply(so.data, script), so.failed)
    ensures Ready(Apply(so.data, script), prepare, sources)
  {
    var i :| 0 <= i < |sources| && script.prepared == prepare(sources[i]);
    NeverThrows(so.data, script.prepared);
    AllApplied(script.prepared, WithTemplates(so.data, script.prepared));
    StaysReady(so.data, prepare, sources, i, script.count);
  }

  lemma {:induction false} ApplyAllFolds(data: CoverageData, scripts: seq<Script>)
    ensures Same(Folded(Apply, data, scripts), ApplyAll(data, scripts))
  {
    if scripts != [] {
      var front, last := scripts[..|scripts| - 1], scripts[|scripts| - 1];
      ApplyAllFolds(data, front);
      ApplyAllMore(data, front, last);
      assert scripts == front + [last];
    }
  }

  // Nothing has failed since, and what there is now is ready.
  ghost predicate Smooth(so: Conversion, data: CoverageData, failed: bool, prepare: Preparer, sources: seq<Source>) {
    so == Conversion(data, failed) && Ready(data, prepare, sources)
  }

  /** When the preparations are ready no entry fails, and the coverage is that of applying the scripts. */
  lemma {:induction false} NothingFails(so: Conversion, scripts: seq<Script>, prepare: Preparer, sources: seq<Source>)
    requires Ready(so.data, prepare, sources) && ArePrepared(scripts, prepare, sources)
    ensures ConvertScripts(so, scripts) == Conversion(ApplyAll(so.data, scripts), so.failed)
  {
    var related := (c: Conversion, data: CoverageData) => Smooth(c, data, so.failed, prepare, sources);
    var ok := (script: Script) => IsPrepared(script.prepared, prepare, sources);
    forall c, data, script | related(c, data) && ok(script)
      ensures related(ConvertScript(c, script), Apply(data, script))
    {
      NothingFailsOnce(c, script, prepare, sources);
    }
    FoldedSimulates(ConvertScript, Apply, related, ok, so, so.data, scripts);
    ApplyAllFolds(so.data, scripts);
  }

  // ----- the scripts of the groups -----

  ghost function GroupScripts(prepare: Preparer, filePath: string, group: StoredGroup): seq<Script> {
    ScriptsFrom(prepare(GroupSource(group, filePath)), group.entries)
  }

  ghost function TableScripts(prepare: Preparer, filePath: string, groups: GroupValues, order: seq<string>):
    seq<Script>
    requires forall key :: key in order ==> key in groups
  {
    if order == [] then [] else
      var n := |order| - 1;
      TableScripts(prepare, filePath, groups, order[..n]) + GroupScripts(prepare, filePath, groups[order[n]])
  }

  lemma {:induction false} TableConverts(data: CoverageData, prepare: Preparer, filePath: string, groups: GroupValues,
      order: seq<string>)
    requires forall key :: key in order ==> key in groups
    ensures ApplyAll(data, TableScripts(prepare, filePath, groups, order))
         == ConvertGroups(data, prepare, filePath, groups, order)
  {
    if order != [] {
      var n := |order| - 1;
      var group, front := groups[order[n]], TableScripts(prepare, filePath, groups, order[..n]);
      TableConverts(data, prepare, filePath, groups, order[..n]);
      ApplyAllSplit(data, front, GroupScripts(prepare, filePath, group));
      ConvertAllApplies(ApplyAll(data, front), prepare(GroupSource(group, filePath)), group.entries);
    }
  }

  ghost predicate AllEntriesWellFormed(values: seq<Functions>) {
    forall i :: 0 <= i < |values| ==> AllWellFormed(Flatten(values[i]))
  }

  // ----- what the groups store is well formed -----

  lemma {:induction false} SumWellFormed(a: Functions, b: Functions)
    requires SameShape(a, b) && AllWellFormed(Flatten(a))
    ensures AllWellFormed(Flatten(AddCounts(a, b)))
  {
    FlattenShape(a, b);
  }

  lemma {:induction false} AbsorbWellFormed(stored: seq<Functions>, incoming: Functions)
    requires AllEntriesWellFormed(stored) && AllWellFormed(Flatten(incoming))
    ensures AllEntriesWellFormed(Absorb(stored, incoming))
  {
    var i := AbsorbPlace(stored, incoming);
    if i < |stored| {
      SumWellFormed(stored[i], incoming);
    }
  }

  lemma {:induction false} GroupWellFormed(keyed: seq<KeyedEntry>, key: string)
    requires forall i :: 0 <= i < |keyed| ==> AllWellFormed(Flatten(keyed[i].functions))
    ensures AllEntriesWellFormed(Group(keyed, key))
  {
    if keyed != [] {
      var n := |keyed| - 1;
      GroupWellFormed(keyed[..n], key);
      GroupMore(keyed, key);
      if keyed[n].key == key {
        AbsorbWellFormed(Group(keyed[..n], key), keyed[n].functions);
      }
    }
  }

  lemma {:induction false} KeyHasEntry(keyed: seq<KeyedEntry>, key: string) returns (i: nat)
    requires WithKey(keyed, key) != []
    ensures i < |keyed| && keyed[i].key == key
  {
    i := |keyed| - 1;
    if keyed[i].key != key {
      i := KeyHasEntry(keyed[..i], key);
    }
  }

  // A group stems from some entry, has its source, and stores well-formed reports.
  lemma {:induction false} GroupStems(entries: RetainedValues, filePath: string, key: string) returns (i: nat)
    requires OfFile(entries, filePath) && key in GroupAll(Keyed(entries))
    requires forall k :: 0 <= k < |entries| ==> AllWellFormed(Flatten(entries[k].functions))
    ensures i < |entries| && Keyed(entries)[i].key == key
    ensures SameSource(GroupSource(GroupAll(Keyed(entries))[key], filePath), entries[i].source)
    ensures AllEntriesWellFormed(GroupAll(Keyed(entries))[key].entries)
  {
    GroupingLosesNothing(Keyed(entries), key);
    i := KeyHasEntry(Keyed(entries), key);
    GroupSourceIs(entries, filePath, i);
    forall k | 0 <= k < |entries| ensures AllWellFormed(Flatten(Keyed(entries)[k].functions)) {
      KeyInTheEnd(entries, k);
    }
    GroupWellFormed(Keyed(entries), key);
  }

  // ----- the whole of it -----

  // The groups of some keys are converted, in some order of these.
  ghost predicate ConvertedUpTo(before: Conversion, so: Conversion, prepare: Preparer, filePath: string,
      groups: GroupValues, order: seq<string>, pending: set<string>)
  {
    && NoKeyTwice(order) && pending <= groups.Keys
    && (forall key :: key in order <==> key in groups && key !in pending)
    && so == ConvertScripts(before, TableScripts(prepare, filePath, groups, order))
  }

  lemma {:induction false} NoGroupYet(before: Conversion, prepare: Preparer, filePath: string, groups: GroupValues)
    ensures ConvertedUpTo(before, before, prepare, filePath, groups, [], groups.Keys)
  {
  }

  lemma {:induction false} OneMoreGroup(before: Conversion, so: Conversion, prepare: Preparer, filePath: string,
      groups: GroupValues, order: seq<string>, pending: set<string>, key: string)
    requires ConvertedUpTo(before, so, prepare, filePath, groups, order, pending) && key in pending
    ensures ConvertedUpTo(before, ConvertScripts(so, GroupScripts(prepare, filePath, groups[key])), prepare, filePath,
        groups, order + [key], pending - {key})
  {
    assert (order + [key])[..|order|] == order;
    FoldedSplit(ConvertScript, before, TableScripts(prepare, filePath, groups, order),
        GroupScripts(prepare, filePath, groups[key]));
  }

  lemma {:induction false} AllKeysInOrder(entries: RetainedValues, filePath: string, order: seq<string>)
    requires OfFile(entries, filePath) && NoKeyTwice(order)
    requires forall key :: key in order <==> key in GroupAll(Keyed(entries))
    ensures IsOrder(entries, order)
  {
    forall key | key in order ensures exists i :: 0 <= i < |entries| && Keyed(entries)[i].key == key {
      GroupingLosesNothing(Keyed(entries), key);
      var i := KeyHasEntry(Keyed(entries), key);
    }
    forall i | 0 <= i < |entries| ensures Keyed(entries)[i].key in order {
      GroupSourceIs(entries, filePath, i);
    }
  }

  ghost predicate Retains(values: RetainedValues, sources: seq<Source>, filePath: string) {
    && |values| == |sources| && OfFile(values, filePath)
    && forall i :: 0 <= i < |values| ==> values[i].source == sources[i] && AllWellFormed(Flatten(values[i].functions))
  }

  // A group stores well-formed reports, and is converted with what the source of one of the entries prepares.
  ghost predicate GroupReady(group: StoredGroup, filePath: string, prepare: Preparer, sources: seq<Source>) {
    AllEntriesWellFormed(group.entries) && IsPrepared(prepare(GroupSource(group, filePath)), prepare, sources)
  }

  ghost predicate GroupsReady(all: GroupValues, filePath: string, prepare: Preparer, sources: seq<Source>) {
    forall key :: key in all ==> GroupReady(all[key], filePath, prepare, sources)
  }

  lemma {:induction false} GroupsAreReady(values: RetainedValues, sources: seq<Source>, filePath: string,
      prepare: Preparer)
    requires Retains(values, sources, filePath) && RespectsSource(prepare)
    ensures GroupsReady(GroupAll(Keyed(values)), filePath, prepare, sources)
  {
    var all := GroupAll(Keyed(values));
    forall key | key in all ensures GroupReady(all[key], filePath, prepare, sources) {
      var i := GroupStems(values, filePath, key);
      assert prepare(GroupSource(all[key], filePath)) == prepare(sources[i]);
    }
  }

  lemma {:induction false} TablePrepared(groups: GroupValues, filePath: string, prepare: Preparer, sources: seq<Source>,
      order: seq<string>)
    requires GroupsReady(groups, filePath, prepare, sources) && forall key :: key in order ==> key in groups
    ensures ArePrepared(TableScripts(prepare, filePath, groups, order), prepare, sources)
  {
    if order != [] {
      var n := |order| - 1;
      TablePrepared(groups, filePath, prepare, sources, order[..n]);
      assert order[n] in order;
      assert GroupReady(groups[order[n]], filePath, prepare, sources);
    }
  }

  lemma {:induction false} PairedRetains(values: seq<Functions>, sources: seq<Source>, filePath: string)
    requires |values| == |sources| && AllEntriesWellFormed(values)
    requires forall i :: 0 <= i < |sources| ==> sources[i].filePath == filePath
    ensures Retains(Paired(values, sources), sources, filePath)
  {
  }

  lemma {:induction false} ReadyAgree(data: CoverageData, prepare: Preparer, sources: seq<Source>,
      values: RetainedValues)
    requires Ready(data, prepare, sources) && |values| == |sources|
    requires forall i :: 0 <= i < |values| ==> values[i].source == sources[i]
    ensures Agree(ScriptsOf(prepare, values)) && ArePrepared(ScriptsOf(prepare, values), prepare, sources)
  {
  }

  lemma {:induction false} AllConverted(before: Conversion, so: Conversion, prepare: Preparer, filePath: string,
      sources: seq<Source>, values: RetainedValues, order: seq<string>)
    requires ConvertedUpTo(before, so, prepare, filePath, GroupAll(Keyed(values)), order, {})
    requires Retains(values, sources, filePath) && RespectsSource(prepare) && Ready(before.data, prepare, sources)
    requires AllShapesFit(values)
    ensures so == Conversion(ConvertEach(before.data, prepare, values), before.failed)
  {
    var groups := GroupAll(Keyed(values));
    AllKeysInOrder(values, filePath, order);
    ReadyAgree(before.data, prepare, sources, values);
    GroupsAreReady(values, sources, filePath, prepare);
    TablePrepared(groups, filePath, prepare, sources, order);
    NothingFails(before, TableScripts(prepare, filePath, groups, order), prepare, sources);
    TableConverts(before.data, prepare, filePath, groups, order);
    GroupedIsEach(before.data, prepare, values, filePath, order);
  }

  // Every group is converted once; when the preparations agree and the counts still fit added up, no entry fails and
  // the coverage is that of converting every entry on its own.
  ghost predicate Converted(before: Conversion, so: Conversion, prepare: Preparer, filePath: string,
      sources: seq<Source>, values: RetainedValues)
  {
    && (exists order :: ConvertedUpTo(before, so, prepare, filePath, GroupAll(Keyed(values)), order, {}))
    && (Ready(before.data, prepare, sources) && AllShapesFit(values) ==>
          so == Conversion(ConvertEach(before.data, prepare, values), before.failed))
  }

  lemma {:induction false} TableConverted(before: Conversion, so: Conversion, prepare: Preparer, filePath: string,
      sources: seq<Source>, values: RetainedValues, order: seq<string>)
    requires ConvertedUpTo(before, so, prepare, filePath, GroupAll(Keyed(values)), order, {})
    requires Retains(values, sources, filePath) && RespectsSource(prepare)
    ensures Converted(before, so, prepare, filePath, sources, values)
  {
    if Ready(before.data, prepare, sources) && AllShapesFit(values) {
      AllConverted(before, so, prepare, filePath, sources, values, order);
    }
  }

  // What the builder promises of every script it prepares.
  ghost predicate AllOwnFiles(prepare: Preparer, sources: seq<Source>) {
    forall i :: 0 <= i < |sources| ==> OwnFiles(prepare(sources[i]))
  }

  ghost predicate ScriptsDone(before: Conversion, so: Conversion, scripts: seq<Script>, n: nat) {
    n <= |scripts| && Same(so, Folded(ConvertScript, before, scripts[..n]))
  }

  lemma {:induction false} OneMoreDone(before: Conversion, so: Conversion, scripts: seq<Script>, n: nat)
    requires ScriptsDone(before, so, scripts, n) && n < |scripts|
    ensures ScriptsDone(before, ConvertScript(so, scripts[n]), scripts, n + 1)
  {
    FoldedMore(ConvertScript, before, scripts, n);
  }

  lemma {:induction false} AllDone(before: Conversion, so: Conversion, scripts: seq<Script>)
    requires ScriptsDone(before, so, scripts, |scripts|)
    ensures so == ConvertScripts(before, scripts)
  {
    FoldedAll(ConvertScript, before, scripts);
  }

  // The provider's loops over one file: an entry that fails is noted, and the next one goes on.
  class FileConverter {
    const store: CoverageStore
    var failed: bool

    constructor (store: CoverageStore)
      ensures this.store == store && !failed
    {
      this.store := store;
      failed := false;
    }

    ghost function State(): Conversion
      reads this, store
    {
      Conversion(store.data, failed)
    }

    // One entry: its report is flattened and looked up.
    method ConvertEntry(functions: Functions, prepared: Prepared)
      requires OwnFiles(prepared) && AllWellFormed(Flatten(functions))
      modifies this`failed, store
      ensures State() == ConvertScript(old(State()), Script(prepared, StoredOf(functions)))
    {
      var ranges := Normalize(functions);
      ghost var part := AppliedPart(prepared, WithTemplates(store.data, prepared));
      SameCounts(store.data, part, Counts(ranges), StoredOf(functions));
      var thrown := store.ApplyCoverageToMap(prepared, ranges);
      failed := failed || thrown;
    }

    // What a group stores, entry after entry.
    method ConvertStored(stored: seq<Functions>, prepared: Prepared)
      requires OwnFiles(prepared) && AllEntriesWellFormed(stored)
      modifies this`failed, store
      ensures State() == ConvertScripts(old(State()), ScriptsFrom(prepared, stored))
    {
      ghost var scripts := ScriptsFrom(prepared, stored);
      var k := 0;
      while k < |stored|
        invariant k <= |stored| && ScriptsDone(old(State()), State(), scripts, k)
      {
        OneMoreDone(old(State()), State(), scripts, k);
        ConvertEntry(stored[k], prepared);
        k := k + 1;
      }
      AllDone(old(State()), State(), scripts);
    }

    /** Every entry on its own, as it arrived. */
    method ConvertOneByOne(values: seq<Functions>, sources: seq<Source>, prepare: Preparer)
      requires |values| == |sources| && AllEntriesWellFormed(values) && AllOwnFiles(prepare, sources)
      modifies this`failed, store
      ensures State() == ConvertScripts(old(State()), ScriptsOf(prepare, Paired(values, sources)))
      ensures Ready(old(store.data), prepare, sources) ==>
        State() == Conversion(ConvertEach(old(store.data), prepare, Paired(values, sources)), old(failed))
    {
      ghost var entries := Paired(values, sources);
      ghost var scripts := ScriptsOf(prepare, entries);
      var i := 0;
      while i < |values|
        invariant i <= |values| && ScriptsDone(old(State()), State(), scripts, i)
      {
        OneMoreDone(old(State()), State(), scripts, i);
        ConvertEntry(values[i], prepare(sources[i]));
        i := i + 1;
      }
      AllDone(old(State()), State(), scripts);
      if Ready(old(store.data), prepare, sources) {
        ReadyAgree(old(store.data), prepare, sources, entries);
        NothingFails(old(State()), scripts, prepare, sources);
      }
    }

    // All groups, in whatever order they come, each with what its root and options prepare.
    method ConvertTable(groups: GroupValues, filePath: string, prepare: Preparer, ghost sources: seq<Source>)
      returns (ghost order: seq<string>)
      requires GroupsReady(groups, filePath, prepare, sources) && AllOwnFiles(prepare, sources)
      modifies this`failed, store
      ensures ConvertedUpTo(old(State()), State(), prepare, filePath, groups, order, {})
    {
      order := [];
      NoGroupYet(State(), prepare, filePath, groups);
      var pending := groups.Keys;
      while pending != {}
        invariant pending <= groups.Keys
        invariant ConvertedUpTo(old(State()), State(), prepare, filePath, groups, order, pending)
      {
        var key :| key in pending;
        OneMoreGroup(old(State()), State(), prepare, filePath, groups, order, pending, key);
        assert GroupReady(groups[key], filePath, prepare, sources);
        ConvertStored(groups[key].entries, prepare(GroupSource(groups[key], filePath)));
        order := order + [key];
        pending := pending - {key};
      }
    }

    /**
     The entries of one file are grouped by source, and the groups converted one after the other. When the preparations
     agree and the counts still fit added up, no entry fails, and the coverage is that of converting every entry on its
     own.
     */
    method ConvertRetained(entries: seq<CoverageEntry>, sources: seq<Source>, filePath: string, prepare: Preparer)
      requires |entries| == |sources| && NoTwice(entries) && AllEntriesWellFormed(Contents(entries))
      requires forall i :: 0 <= i < |sources| ==> sources[i].filePath == filePath
      requires RespectsSource(prepare) && AllOwnFiles(prepare, sources)
      modifies this`failed, store, entries
      ensures Converted(old(State()), State(), prepare, filePath, sources, Paired(old(Contents(entries)), sources))
    {
      ghost var values := Paired(Contents(entries), sources);
      PairedRetains(Contents(entries), sources, filePath);
      var groups := GroupRetained(entries, sources);
      GroupsAreReady(values, sources, filePath, prepare);
      ghost var order := ConvertTable(groups.Value(), filePath, prepare, sources);
      TableConverted(old(State()), State(), prepare, filePath, sources, values, order);
    }
  }
}
