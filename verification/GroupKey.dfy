/** The string under which raw coverage entries are grouped, and the identities of source texts in it. */
module GroupKey {
  import opened Wrappers
  import Decimal

  // The collecting options of one entry; its two dictionaries hold at most the text of the entry's own file.
  datatype Options = Options(outputModule: Option<bool>, assetSource: Option<string>, sourceMap: Option<string>)

  datatype Source = Source(root: Option<string>, filePath: string, options: Options)

  // Ids are handed out once, counting up.
  ghost predicate IdsValid(ids: map<string, nat>) {
    && (forall s :: s in ids ==> ids[s] < |ids|)
    && (forall s, t :: s in ids && t in ids && ids[s] == ids[t] ==> s == t)
  }

  ghost predicate Extends(later: map<string, nat>, ids: map<string, nat>) {
    forall s :: s in ids ==> s in later && later[s] == ids[s]
  }

  ghost predicate Known(ids: map<string, nat>, text: Option<string>) {
    text.Some? ==> text.value in ids
  }

  ghost function IdentityText(ids: map<string, nat>, text: Option<string>): string
    requires Known(ids, text)
  {
    if text.None? then "missing" else Decimal.ToString(ids[text.value])
  }

  function RootOr(root: Option<string>): string {
    if root.None? then "" else root.value
  }

  function RootText(source: Source): string {
    RootOr(source.root)
  }

  predicate AsModule(options: Options) {
    options.outputModule.None? || options.outputModule.value
  }

  predicate IsModule(source: Source) {
    AsModule(source.options)
  }

  function ModuleText(source: Source): string {
    if IsModule(source) then "module" else "script"
  }

  // A text keeps its id; a new one gets the next.
  function Register(ids: map<string, nat>, text: Option<string>): map<string, nat> {
    if text.None? || text.value in ids then ids else ids[text.value := |ids|]
  }

  function RegisterSource(ids: map<string, nat>, source: Source): map<string, nat> {
    Register(Register(ids, source.options.assetSource), source.options.sourceMap)
  }

  lemma {:induction false} RegisterKeeps(ids: map<string, nat>, text: Option<string>)
    requires IdsValid(ids)
    ensures IdsValid(Register(ids, text)) && Extends(Register(ids, text), ids) && Known(Register(ids, text), text)
  {
  }

  lemma {:induction false} RegisterSourceKeeps(ids: map<string, nat>, source: Source)
    requires IdsValid(ids)
    ensures var later := RegisterSource(ids, source);
      IdsValid(later) && Extends(later, ids) && Known(later, source.options.assetSource)
          && Known(later, source.options.sourceMap)
  {
    var one := Register(ids, source.options.assetSource);
    RegisterKeeps(ids, source.options.assetSource);
    RegisterKeeps(one, source.options.sourceMap);
  }

  ghost function KeyText(ids: map<string, nat>, source: Source): string
    requires Known(ids, source.options.assetSource) && Known(ids, source.options.sourceMap)
  {
    (((RootText(source) + "\0" + source.filePath) + "\0" + ModuleText(source))
      + "\0" + IdentityText(ids, source.options.assetSource))
      + "\0" + IdentityText(ids, source.options.sourceMap)
  }

  class SourceIdentities {
    var ids: map<string, nat>

    constructor ()
      ensures ids == map[]
    {
      ids := map[];
    }

    method GetStringIdentity(value: Option<string>) returns (identity: string)
      requires IdsValid(ids)
      modifies this
      ensures ids == Register(old(ids), value)
      ensures IdsValid(ids) && Extends(ids, old(ids)) && Known(ids, value)
      ensures identity == IdentityText(ids, value)
    {
      RegisterKeeps(ids, value);
      if value.None? {
        return "missing";
      }
      if value.value !in ids {
        ids := ids[value.value := |ids|];
      }
      identity := Decimal.ToString(ids[value.value]);
    }

    method GetRawCoverageGroupKey(source: Source) returns (key: string)
      requires IdsValid(ids)
      modifies this
      ensures ids == RegisterSource(old(ids), source)
      ensures IdsValid(ids) && Extends(ids, old(ids))
      ensures Known(ids, source.options.assetSource) && Known(ids, source.options.sourceMap)
      ensures key == KeyText(ids, source)
    {
      var options := source.options;
      var outputModule := if options.outputModule.None? then true else options.outputModule.value;
      var asset := GetStringIdentity(options.assetSource);
      var sourceMap := GetStringIdentity(options.sourceMap);
      key := (((RootText(source) + "\0" + source.filePath) + "\0" + (if outputModule then "module" else "script"))
        + "\0" + asset)
        + "\0" + sourceMap;
    }
  }

  /** A key never changes as later texts get their ids. */
  lemma {:induction false} KeyIsStable(ids: map<string, nat>, later: map<string, nat>, source: Source)
    requires Extends(later, ids)
    requires Known(ids, source.options.assetSource) && Known(ids, source.options.sourceMap)
    ensures Known(later, source.options.assetSource) && Known(later, source.options.sourceMap)
    ensures KeyText(later, source) == KeyText(ids, source)
  {
  }

  // Cutting at the last separator.
  lemma {:induction false} LastCut(p: string, s: string, q: string, t: string)
    requires '\0' !in s && '\0' !in t
    requires p + "\0" + s == q + "\0" + t
    ensures p == q && s == t
  {
    var a, b := p + "\0" + s, q + "\0" + t;
    assert a[|p|] == '\0' && b[|q|] == '\0';
    assert |s| == |t|;
    assert p == a[..|p|] && q == b[..|q|];
    assert s == a[|p| + 1..] && t == b[|q| + 1..];
  }

  lemma {:induction false} IdentityHasNoSeparator(ids: map<string, nat>, text: Option<string>)
    requires Known(ids, text)
    ensures '\0' !in IdentityText(ids, text)
  {
    if text.Some? {
      Decimal.OnlyDigits(ids[text.value]);
    }
  }

  lemma {:induction false} IdentityDecides(ids: map<string, nat>, a: Option<string>, b: Option<string>)
    requires IdsValid(ids) && Known(ids, a) && Known(ids, b)
    ensures IdentityText(ids, a) == IdentityText(ids, b) <==> a == b
  {
    if a.Some? {
      Decimal.OnlyDigits(ids[a.value]);
    }
    if b.Some? {
      Decimal.OnlyDigits(ids[b.value]);
    }
    var s, t := IdentityText(ids, a), IdentityText(ids, b);
    assert s[0] in s && t[0] in t;
    if s == t && a.Some? && b.Some? {
      Decimal.Injective(ids[a.value], ids[b.value]);
    }
  }

  // The same module kind, source text and source map text.
  predicate SameOptions(a: Options, b: Options) {
    AsModule(a) == AsModule(b) && a.assetSource == b.assetSource && a.sourceMap == b.sourceMap
  }

  // The keys agree exactly when all parts do, taking root and path together.
  lemma {:induction false} KeyPartsDecide(ids: map<string, nat>, a: Source, b: Source)
    requires IdsValid(ids)
    requires Known(ids, a.options.assetSource) && Known(ids, a.options.sourceMap) && Known(ids, b.options.assetSource)
        && Known(ids, b.options.sourceMap)
    ensures KeyText(ids, a) == KeyText(ids, b) <==>
      RootText(a) + "\0" + a.filePath == RootText(b) + "\0" + b.filePath
      && SameOptions(a.options, b.options)
  {
    IdentityHasNoSeparator(ids, a.options.assetSource);
    IdentityHasNoSeparator(ids, b.options.assetSource);
    IdentityHasNoSeparator(ids, a.options.sourceMap);
    IdentityHasNoSeparator(ids, b.options.sourceMap);
    IdentityDecides(ids, a.options.assetSource, b.options.assetSource);
    IdentityDecides(ids, a.options.sourceMap, b.options.sourceMap);
    assert "module"[0] != "script"[0];
    if KeyText(ids, a) == KeyText(ids, b) {
      var ra, rb := RootText(a) + "\0" + a.filePath, RootText(b) + "\0" + b.filePath;
      var ma, mb := ra + "\0" + ModuleText(a), rb + "\0" + ModuleText(b);
      LastCut(ma + "\0" + IdentityText(ids, a.options.assetSource), IdentityText(ids, a.options.sourceMap),
              mb + "\0" + IdentityText(ids, b.options.assetSource), IdentityText(ids, b.options.sourceMap));
      LastCut(ma, IdentityText(ids, a.options.assetSource), mb, IdentityText(ids, b.options.assetSource));
      LastCut(ra, ModuleText(a), rb, ModuleText(b));
    }
  }

  function JoinedPath(source: Source): string {
    RootText(source) + "\0" + source.filePath
  }

  // One root runs on, by a NUL, into the other's path.
  ghost predicate RunsOn(a: Source, b: Source) {
    exists rest :: RootText(b) == RootText(a) + "\0" + rest && a.filePath == rest + "\0" + b.filePath
  }

  lemma {:induction false} LongerRootRunsOn(a: Source, b: Source)
    requires JoinedPath(a) == JoinedPath(b) && |RootText(a)| < |RootText(b)|
    ensures RunsOn(a, b)
  {
    var n, s := |RootText(a)|, RootText(b);
    var rest := s[n + 1..];
    assert JoinedPath(a)[..n] == RootText(a) && JoinedPath(b)[..n] == s[..n];
    assert JoinedPath(a)[n] == '\0' && JoinedPath(b)[n] == s[n];
    assert s == s[..n] + [s[n]] + rest;
    assert a.filePath == JoinedPath(a)[n + 1..] == JoinedPath(b)[n + 1..] == rest + "\0" + b.filePath;
    assert s == RootText(a) + "\0" + rest;
  }

  lemma {:induction false} RunningOnJoins(a: Source, b: Source)
    requires RunsOn(a, b)
    ensures JoinedPath(a) == JoinedPath(b)
  {
    var rest :| RootText(b) == RootText(a) + "\0" + rest && a.filePath == rest + "\0" + b.filePath;
    assert JoinedPath(a) == RootText(a) + "\0" + rest + "\0" + b.filePath == JoinedPath(b);
  }

  /** Root and path are told apart by their join exactly unless one root with a NUL runs on into the other's path. */
  lemma {:induction false} JoinsAgreeIff(a: Source, b: Source)
    ensures JoinedPath(a) == JoinedPath(b)
       <==> (RootText(a) == RootText(b) && a.filePath == b.filePath) || RunsOn(a, b) || RunsOn(b, a)
  {
    if JoinedPath(a) == JoinedPath(b) {
      if |RootText(a)| < |RootText(b)| {
        LongerRootRunsOn(a, b);
      } else if |RootText(b)| < |RootText(a)| {
        LongerRootRunsOn(b, a);
      } else {
        var n := |RootText(a)|;
        assert RootText(a) == JoinedPath(a)[..n] == JoinedPath(b)[..n] == RootText(b);
        assert a.filePath == JoinedPath(a)[n + 1..] == JoinedPath(b)[n + 1..] == b.filePath;
      }
    }
    if RunsOn(a, b) {
      RunningOnJoins(a, b);
    }
    if RunsOn(b, a) {
      RunningOnJoins(b, a);
    }
  }

  // The same root (a missing one being the empty one), path, module kind, source text and source map text.
  ghost predicate SameSource(a: Source, b: Source) {
    && RootText(a) == RootText(b) && a.filePath == b.filePath
    && SameOptions(a.options, b.options)
  }

  // Sources that share a key: the same ones, and those that a NUL makes collide.
  ghost predicate Collide(a: Source, b: Source) {
    || SameSource(a, b)
    || ((RunsOn(a, b) || RunsOn(b, a)) && SameOptions(a.options, b.options))
  }

  /** Two sources share a key exactly when they are the same or collide by a NUL. */
  lemma {:induction false} KeysAgreeIff(ids: map<string, nat>, a: Source, b: Source)
    requires IdsValid(ids)
    requires Known(ids, a.options.assetSource) && Known(ids, a.options.sourceMap) && Known(ids, b.options.assetSource)
        && Known(ids, b.options.sourceMap)
    ensures KeyText(ids, a) == KeyText(ids, b) <==> Collide(a, b)
  {
    KeyPartsDecide(ids, a, b);
    JoinsAgreeIff(a, b);
  }

  lemma {:induction false} RunningOnNeedsNul(a: Source, b: Source)
    requires RunsOn(a, b)
    ensures '\0' in RootText(b) && '\0' in a.filePath && a.filePath != b.filePath
  {
    var rest :| RootText(b) == RootText(a) + "\0" + rest && a.filePath == rest + "\0" + b.filePath;
    assert RootText(b)[|RootText(a)|] == '\0' && a.filePath[|rest|] == '\0';
  }

  /**
   Entries of one file, entries with NUL-free roots and entries with NUL-free paths share a key exactly when their
   sources are the same.
   */
  lemma {:induction false} KeyDecides(ids: map<string, nat>, a: Source, b: Source)
    requires IdsValid(ids)
    requires Known(ids, a.options.assetSource) && Known(ids, a.options.sourceMap) && Known(ids, b.options.assetSource)
        && Known(ids, b.options.sourceMap)
    requires || a.filePath == b.filePath
             || ('\0' !in RootText(a) && '\0' !in RootText(b))
             || ('\0' !in a.filePath && '\0' !in b.filePath)
    ensures KeyText(ids, a) == KeyText(ids, b) <==> SameSource(a, b)
  {
    KeysAgreeIff(ids, a, b);
    if RunsOn(a, b) {
      RunningOnNeedsNul(a, b);
    }
    if RunsOn(b, a) {
      RunningOnNeedsNul(b, a);
    }
  }

  function NulPath(root: string, filePath: string): Source {
    Source(Some(root), filePath, Options(None, None, None))
  }

  /** With a NUL in a root and in a path, two different files share a key; file systems allow neither. */
  lemma {:induction false} NulCollides(ids: map<string, nat>)
    requires IdsValid(ids)
    ensures var a, b := NulPath("a", "b\0c"), NulPath("a\0b", "c");
      a.filePath != b.filePath && !SameSource(a, b) && Collide(a, b) && KeyText(ids, a) == KeyText(ids, b)
  {
    var a, b := NulPath("a", "b\0c"), NulPath("a\0b", "c");
    assert RootText(b) == RootText(a) + "\0" + "b" && a.filePath == "b" + "\0" + b.filePath;
    assert RunsOn(a, b);
    KeysAgreeIff(ids, a, b);
  }
}
