/** The reconciler of src/lib/configHelpers.ts: the flat form of scalar settings, the
    per-setting drafts of the nested settings (commit, notification, desktop, agent)
    and the plugin-list rules, all read defensively from arbitrary JSON. */
module ConfigHelpers {
  import opened Wrappers
  import opened Json
  import opened Text
  import opened Seqs
  import opened Catalog

  // ---------------------------------------------------------------------------
  // The flat form
  // ---------------------------------------------------------------------------

  /** A form value; `undefined` is a key missing from the form. */
  datatype FormValue = FBool(b: bool) | FNum(n: int) | FStr(s: string)

  type FormState = map<string, FormValue>

  function ToJson(v: FormValue): (r: Json)
    ensures v.FBool? <==> r.JBool?
    ensures v.FNum? <==> r.JNum?
    ensures v.FStr? <==> r.JStr?
  {
    match v
    case FBool(b) => JBool(b)
    case FNum(n) => JNum(n)
    case FStr(s) => JStr(s)
  }

  lemma ToJsonInjective(v: FormValue, w: FormValue)
    ensures ToJson(v) == ToJson(w) ==> v == w
  {
  }

  /** A value the form accepts for an entry: of the entry's kind, and for an enum one
      of its options. A complex entry accepts nothing. */
  predicate Fits(def: SettingDef, v: FormValue)
  {
    match def.kind
    case Boolean => v.FBool?
    case Number => v.FNum?
    case String => v.FStr?
    case Enum => v.FStr? && def.options.Some? && v.s in def.options.value
    case Complex => false
  }

  /** What one catalog entry contributes to the form, given the raw value of its key. */
  function PickedValue(def: SettingDef, raw: Option<Json>): (r: Option<FormValue>)
    ensures r.Some? ==> Fits(def, r.value) && raw == Some(ToJson(r.value))
    ensures r.None? ==> forall v :: Fits(def, v) ==> raw != Some(ToJson(v))
  {
    if def.kind == Complex || raw.None? then None
    else match raw.value
      case JBool(b) => if def.kind == Boolean then Some(FBool(b)) else None
      case JNum(n) => if def.kind == Number then Some(FNum(n)) else None
      case JStr(s) =>
        if def.kind == String || (def.kind == Enum && def.options.Some? && s in def.options.value)
        then Some(FStr(s)) else None
      case _ => None
  }

  /** `pickFormValues` over the first entries of the catalog. */
  function PickSpec(defs: seq<SettingDef>, config: map<string, Json>): FormState
    decreases |defs|
  {
    if defs == [] then map[]
    else
      var prev := PickSpec(defs[..|defs| - 1], config);
      var def := defs[|defs| - 1];
      var picked := PickedValue(def, Get(config, def.key));
      if picked.Some? then prev[def.key := picked.value] else prev
  }

  /** `applyFormValues` over the first entries of the catalog. */
  function ApplySpec(defs: seq<SettingDef>, base: map<string, Json>, form: FormState): map<string, Json>
    decreases |defs|
  {
    if defs == [] then base
    else
      var prev := ApplySpec(defs[..|defs| - 1], base, form);
      var def := defs[|defs| - 1];
      if def.kind == Complex then prev
      else if def.key !in form || form[def.key] == FStr("") then prev - {def.key}
      else prev[def.key := ToJson(form[def.key])]
  }

  /** A form value that clears its key: `undefined` or the empty string. */
  predicate Clears(form: FormState, key: string)
  {
    key !in form || form[key] == FStr("")
  }

  lemma UniquePrefix(defs: seq<SettingDef>)
    requires UniqueKeys(defs) && defs != []
    ensures UniqueKeys(defs[..|defs| - 1])
    ensures forall i :: 0 <= i < |defs| - 1 ==> defs[i].key != defs[|defs| - 1].key
  {
  }

  /** The form holds exactly the scalar catalog keys whose raw value fits the entry,
      each with that value. */
  lemma {:induction false} PickSpecMeaning(defs: seq<SettingDef>, config: map<string, Json>, k: string)
    requires UniqueKeys(defs)
    ensures k in PickSpec(defs, config) <==>
      Lookup(defs, k).Some? && PickedValue(Lookup(defs, k).value, Get(config, k)).Some?
    ensures k in PickSpec(defs, config) ==>
      PickSpec(defs, config)[k] == PickedValue(Lookup(defs, k).value, Get(config, k)).value
    decreases |defs|
  {
    if defs != [] {
      UniquePrefix(defs);
      PickSpecMeaning(defs[..|defs| - 1], config, k);
    }
  }

  /** Keys outside the catalog and complex keys are copied; a scalar key is deleted
      when its form value clears it and otherwise set to the form value. */
  lemma {:induction false} ApplySpecMeaning(defs: seq<SettingDef>, base: map<string, Json>, form: FormState, k: string)
    requires UniqueKeys(defs)
    ensures !IsScalarKey(defs, k) ==>
      (k in ApplySpec(defs, base, form) <==> k in base) &&
      (k in base ==> ApplySpec(defs, base, form)[k] == base[k])
    ensures IsScalarKey(defs, k) && Clears(form, k) ==> k !in ApplySpec(defs, base, form)
    ensures IsScalarKey(defs, k) && !Clears(form, k) ==>
      k in ApplySpec(defs, base, form) && ApplySpec(defs, base, form)[k] == ToJson(form[k])
    decreases |defs|
  {
    if defs != [] {
      UniquePrefix(defs);
      ApplySpecMeaning(defs[..|defs| - 1], base, form, k);
    }
  }

  /** A scalar key that a pick and apply of the same config drops: its value did not
      fit the entry, or it was the empty string. */
  predicate DroppedByRoundTrip(defs: seq<SettingDef>, config: map<string, Json>, k: string)
  {
    IsScalarKey(defs, k) &&
    var picked := PickedValue(Lookup(defs, k).value, Get(config, k));
    picked.None? || picked == Some(FStr(""))
  }

  /** Applying the values picked from a config gives the config back, minus the scalar
      keys whose value had the wrong kind or was the empty string. */
  lemma PickApplyRoundTrip(defs: seq<SettingDef>, config: map<string, Json>)
    requires UniqueKeys(defs)
    ensures ApplySpec(defs, config, PickSpec(defs, config)) ==
      map k | k in config && !DroppedByRoundTrip(defs, config, k) :: config[k]
  {
    var form := PickSpec(defs, config);
    var r := ApplySpec(defs, config, form);
    var expected := map k | k in config && !DroppedByRoundTrip(defs, config, k) :: config[k];
    forall k ensures (k in r <==> k in expected) && (k in r ==> r[k] == expected[k]) {
      PickSpecMeaning(defs, config, k);
      ApplySpecMeaning(defs, config, form, k);
    }
  }

  /** `pickFormValues`. */
  method PickFormValues(defs: seq<SettingDef>, config: map<string, Json>) returns (next: FormState)
    ensures next == PickSpec(defs, config)
  {
    next := map[];
    for i := 0 to |defs|
      invariant next == PickSpec(defs[..i], config)
    {
      assert defs[..i + 1][..i] == defs[..i];
      var def := defs[i];
      if def.kind == Complex {
        continue;
      }
      var raw := Get(config, def.key);
      if def.kind == Boolean && raw.Some? && raw.value.JBool? {
        next := next[def.key := FBool(raw.value.b)];
      }
      if def.kind == Number && raw.Some? && raw.value.JNum? {
        next := next[def.key := FNum(raw.value.n)];
      }
      if def.kind == String && raw.Some? && raw.value.JStr? {
        next := next[def.key := FStr(raw.value.s)];
      }
      if def.kind == Enum && raw.Some? && raw.value.JStr? && def.options.Some? && raw.value.s in def.options.value {
        next := next[def.key := FStr(raw.value.s)];
      }
    }
    assert defs[..|defs|] == defs;
  }

  /** `applyFormValues`. */
  method ApplyFormValues(defs: seq<SettingDef>, base: map<string, Json>, form: FormState) returns (next: map<string, Json>)
    ensures next == ApplySpec(defs, base, form)
  {
    next := base;
    for i := 0 to |defs|
      invariant next == ApplySpec(defs[..i], base, form)
    {
      assert defs[..i + 1][..i] == defs[..i];
      var def := defs[i];
      if def.kind == Complex {
        continue;
      }
      if def.key !in form || form[def.key] == FStr("") {
        next := next - {def.key};
        continue;
      }
      next := next[def.key := ToJson(form[def.key])];
    }
    assert defs[..|defs|] == defs;
  }

  // ---------------------------------------------------------------------------
  // Read-only display of a complex value
  // ---------------------------------------------------------------------------

  /** Preview lengths: 60 characters in this module, 140 in the earlier src/App.tsx. */
  const HelperPreviewLimit: nat := 60
  const AppPreviewLimit: nat := 140

  /** `formatComplexValue`: "未设置" for `undefined`; otherwise the serialized value,
      cut to `limit` characters followed by an ellipsis when it is longer. */
  function FormatComplexValue(value: Option<Json>, stringify: Json -> string, limit: nat): (r: string)
    ensures value.None? ==> r == "未设置"
    ensures value.Some? && |stringify(value.value)| <= limit ==> r == stringify(value.value)
    ensures value.Some? && |stringify(value.value)| > limit ==>
      |r| == limit + 1 && r[..limit] == stringify(value.value)[..limit] && r[limit] == '…'
  {
    if value.None? then "未设置"
    else
      var raw := stringify(value.value);
      if |raw| > limit then raw[..limit] + "…" else raw
  }

  // ---------------------------------------------------------------------------
  // Plugin lists
  // ---------------------------------------------------------------------------

  /** The string elements of a JSON array, in order. */
  function StringsOf(items: seq<Json>): (r: seq<string>)
    ensures |r| <= |items|
  {
    if items == [] then []
    else (if items[0].JStr? then [items[0].s] else []) + StringsOf(items[1..])
  }

  lemma {:induction false} StringsOfConcat(a: seq<Json>, b: seq<Json>)
    ensures StringsOf(a + b) == StringsOf(a) + StringsOf(b)
  {
    if a == [] {
      assert a + b == b;
    } else {
      assert (a + b)[0] == a[0];
      assert (a + b)[1..] == a[1..] + b;
      StringsOfConcat(a[1..], b);
    }
  }

  lemma {:induction false} StringsOfMembership(items: seq<Json>, s: string)
    ensures s in StringsOf(items) <==> JStr(s) in items
  {
    if items != [] {
      StringsOfMembership(items[1..], s);
      assert items == [items[0]] + items[1..];
    }
  }

  lemma {:induction false} StringsOfStrs(xs: seq<string>)
    ensures StringsOf(Strs(xs)) == xs
  {
    if xs != [] {
      assert Strs(xs)[1..] == Strs(xs[1..]);
      StringsOfStrs(xs[1..]);
    }
  }

  /** A one-element array gives its string, or nothing for any other element; with
      `StringsOfConcat` this fixes the picked strings in order and with repeats. */
  lemma StringsOfSingle(x: Json)
    ensures x.JStr? ==> StringsOf([x]) == [x.s]
    ensures !x.JStr? ==> StringsOf([x]) == []
  {
    assert [x][1..] == [];
  }

  /** Each string is picked as many times as the array holds it. */
  lemma {:induction false} StringsOfMultiplicity(items: seq<Json>, s: string)
    ensures multiset(StringsOf(items))[s] == multiset(items)[JStr(s)]
  {
    if items != [] {
      StringsOfMultiplicity(items[1..], s);
      assert items == [items[0]] + items[1..];
      assert multiset(items) == multiset([items[0]]) + multiset(items[1..]);
    }
  }

  /** `pickStringArray`: `[]` for anything but an array, else its strings in order. */
  function PickStringArray(value: Option<Json>): (r: seq<string>)
    ensures !(value.Some? && value.value.JArr?) ==> r == []
    ensures value.Some? && value.value.JArr? ==> r == StringsOf(value.value.items)
    ensures value.Some? && value.value.JArr? ==>
      forall s :: s in r <==> JStr(s) in value.value.items
  {
    if value.Some? && value.value.JArr? then
      var items := value.value.items;
      assert forall s :: s in StringsOf(items) <==> JStr(s) in items by {
        forall s ensures s in StringsOf(items) <==> JStr(s) in items {
          StringsOfMembership(items, s);
        }
      }
      StringsOf(items)
    else []
  }

  function SlashChar(c: char): char
  {
    if c == '\\' then '/' else c
  }

  /** `normalizePathForCompare`: every backslash becomes a slash. */
  function NormalizePathForCompare(value: string): (r: string)
    ensures |r| == |value|
    ensures forall i :: 0 <= i < |value| ==> r[i] == SlashChar(value[i])
  {
    seq(|value|, i requires 0 <= i < |value| => SlashChar(value[i]))
  }

  lemma NormalizePathIdempotent(value: string)
    ensures '\\' !in NormalizePathForCompare(value)
    ensures NormalizePathForCompare(NormalizePathForCompare(value)) == NormalizePathForCompare(value)
  {
  }

  predicate IsSep(c: char)
  {
    c == '/' || c == '\\'
  }

  /** The regular expression `[\\/]\.neovate[\\/]plugins[\\/]notify\.js$`: the value ends
      in the 27 characters separator, `.neovate`, separator, `plugins`, separator,
      `notify.js`, each separator being a slash or a backslash. */
  predicate HasNotifySuffix(value: string)
  {
    |value| >= 27 &&
    var t := value[|value| - 27..];
    IsSep(t[0]) && t[1..9] == ".neovate" && IsSep(t[9]) && t[10..17] == "plugins" &&
    IsSep(t[17]) && t[18..] == "notify.js"
  }

  /** The bundled plugin's tail written with the separators `a`, `b` and `c`. */
  function TailWith(a: char, b: char, c: char): string
  {
    [a] + ".neovate" + [b] + "plugins" + [c] + "notify.js"
  }

  /** The pieces of a tail, read back by position. */
  lemma TailWithParts(a: char, b: char, c: char)
    ensures var t := TailWith(a, b, c);
      |t| == 27 && t[0] == a && t[1..9] == ".neovate" && t[9] == b && t[10..17] == "plugins" &&
      t[17] == c && t[18..] == "notify.js"
  {
  }

  /** A 27-character text with the tail's fixed pieces is the tail of its separators. */
  lemma TailOfParts(t: string)
    requires |t| == 27 && t[1..9] == ".neovate" && t[10..17] == "plugins" && t[18..] == "notify.js"
    ensures t == TailWith(t[0], t[9], t[17])
  {
    assert t == [t[0]] + t[1..9] + [t[9]] + t[10..17] + [t[17]] + t[18..];
  }

  /** The suffix test holds exactly for the paths built from some prefix and three
      separators. */
  lemma NotifySuffixShape(value: string)
    ensures HasNotifySuffix(value) <==>
      exists prefix, a, b, c :: IsSep(a) && IsSep(b) && IsSep(c) && value == prefix + TailWith(a, b, c)
  {
    if HasNotifySuffix(value) {
      var n := |value| - 27;
      var t := value[n..];
      TailOfParts(t);
      assert value == value[..n] + t;
    }
    if exists prefix, a, b, c :: IsSep(a) && IsSep(b) && IsSep(c) && value == prefix + TailWith(a, b, c) {
      var prefix, a, b, c :| IsSep(a) && IsSep(b) && IsSep(c) && value == prefix + TailWith(a, b, c);
      TailWithParts(a, b, c);
      assert value[|value| - 27..] == TailWith(a, b, c);
    }
  }

  /** `isBuiltinNotifyPluginEntry`, with `""` standing for an unknown builtin path: the
      legacy marker, the known builtin path up to separators, or the bundled file name. */
  predicate IsBuiltinNotifyPluginEntry(value: string, builtinPath: string)
  {
    value == "builtin:notify" ||
    (builtinPath != "" && NormalizePathForCompare(value) == NormalizePathForCompare(builtinPath)) ||
    HasNotifySuffix(value)
  }

  /** The known builtin path is always recognised. */
  lemma BuiltinPathRecognised(builtinPath: string)
    requires builtinPath != ""
    ensures IsBuiltinNotifyPluginEntry(builtinPath, builtinPath)
  {
  }

  lemma NormalizeSlice(v: string, i: nat, j: nat)
    requires i <= j <= |v|
    ensures NormalizePathForCompare(v)[i..j] == NormalizePathForCompare(v[i..j])
  {
  }

  /** A piece of text with no separator in it is the only one normalising to itself. */
  lemma SlashFreeFixed(x: string, lit: string)
    requires '/' !in lit && '\\' !in lit
    ensures NormalizePathForCompare(x) == lit <==> x == lit
  {
    var nx := NormalizePathForCompare(x);
    if nx == lit {
      forall i | 0 <= i < |x| ensures x[i] == nx[i] {
        assert nx[i] == SlashChar(x[i]) && nx[i] in lit;
      }
    }
    if x == lit {
      forall i | 0 <= i < |x| ensures x[i] == nx[i] {
        assert x[i] in lit;
      }
    }
  }

  /** The suffix test sees a path only through its slash-normalised form. */
  lemma NotifySuffixSlashBlind(value: string)
    ensures HasNotifySuffix(value) <==> HasNotifySuffix(NormalizePathForCompare(value))
  {
    var nv := NormalizePathForCompare(value);
    if |value| >= 27 {
      var n := |value| - 27;
      var t, u := value[n..], nv[n..];
      NormalizeSlice(value, n, |value|);
      NormalizeSlice(t, 1, 9);
      NormalizeSlice(t, 10, 17);
      NormalizeSlice(t, 18, 27);
      SlashFreeFixed(t[1..9], ".neovate");
      SlashFreeFixed(t[10..17], "plugins");
      SlashFreeFixed(t[18..], "notify.js");
      assert u[0] == SlashChar(t[0]) && u[9] == SlashChar(t[9]) && u[17] == SlashChar(t[17]);
    }
  }

  /** The test does not tell slashes from backslashes anywhere in the value. */
  lemma BuiltinEntrySeparatorBlind(v: string, w: string, builtinPath: string)
    requires NormalizePathForCompare(v) == NormalizePathForCompare(w)
    ensures IsBuiltinNotifyPluginEntry(v, builtinPath) <==> IsBuiltinNotifyPluginEntry(w, builtinPath)
  {
    NotifySuffixSlashBlind(v);
    NotifySuffixSlashBlind(w);
    NormalizePathIdempotent(v);
    SlashFreeFixed(v, "builtin:notify");
    SlashFreeFixed(w, "builtin:notify");
  }

  /** `inferHomeFromConfigPath`: the part before `/.neovate/config.json` or before
      `\.neovate\config.json`; nothing for an empty or any other path. */
  function InferHomeFromConfigPath(path: string): (r: Option<string>)
    ensures r.Some? ==> path == r.value + "/.neovate/config.json" || path == r.value + "\\.neovate\\config.json"
    ensures r.None? ==> !EndsWith(path, "/.neovate/config.json") && !EndsWith(path, "\\.neovate\\config.json")
  {
    if path == "" then None
    else if EndsWith(path, "/.neovate/config.json") then Some(path[..|path| - 21])
    else if EndsWith(path, "\\.neovate\\config.json") then Some(path[..|path| - 21])
    else None
  }

  lemma InferHomeInverts(home: string)
    ensures InferHomeFromConfigPath(home + "/.neovate/config.json") == Some(home)
    ensures InferHomeFromConfigPath(home + "\\.neovate\\config.json") == Some(home)
  {
    var p := home + "/.neovate/config.json";
    assert p[|p| - 21..] == "/.neovate/config.json";
    assert p[..|p| - 21] == home;
    var q := home + "\\.neovate\\config.json";
    assert q[|q| - 21..] == "\\.neovate\\config.json";
    assert q[..|q| - 21] == home;
  }

  // ---------------------------------------------------------------------------
  // Drafts of the nested settings
  // ---------------------------------------------------------------------------

  /** `s?.trim()` followed by a truthiness test: the trimmed string when it is not empty. */
  function TrimmedField(o: Option<string>): (r: Option<string>)
    ensures r.Some? ==> o.Some? && r.value == JsTrim(o.value) && r.value != ""
    ensures r.None? ==> o.None? || JsTrim(o.value) == ""
  {
    if o.Some? && JsTrim(o.value) != "" then Some(JsTrim(o.value)) else None
  }

  /** A field as `normalize*` leaves it: absent, or trimmed and not empty. */
  predicate Lean(o: Option<string>)
  {
    o.Some? ==> o.value != "" && Unpadded(o.value, IsJsSpace)
  }

  lemma TrimmedFieldLean(o: Option<string>)
    ensures Lean(TrimmedField(o))
    ensures Lean(o) ==> TrimmedField(o) == o
  {
    if o.Some? {
      TrimShape(o.value, IsJsSpace);
      if Unpadded(o.value, IsJsSpace) {
        TrimUnpadded(o.value, IsJsSpace);
      }
    }
  }

  /** Adds `key := JStr(v)` to an object when the field is present. */
  function WithString(m: map<string, Json>, key: string, o: Option<string>): map<string, Json>
  {
    if o.Some? then m[key := JStr(o.value)] else m
  }

  // commit ----------------------------------------------------------------------

  datatype CommitConfig = CommitConfig(language: Option<string>, systemPrompt: Option<string>, model: Option<string>)

  const EmptyCommit := CommitConfig(None, None, None)

  /** The value `normalizeCommitConfig` treats as the default: only `language: "en"`. */
  predicate DefaultCommit(c: CommitConfig)
  {
    c == CommitConfig(Some("en"), None, None)
  }

  /** `pickCommitConfig`: the string-valued `language`, `systemPrompt` and `model` of an
      object; nothing when the value is not an object or has none of them. */
  function PickCommitConfig(value: Option<Json>): (r: Option<CommitConfig>)
    ensures !IsPlainObject(value) ==> r.None?
    ensures r.Some? ==> r.value != EmptyCommit
    ensures IsPlainObject(value) ==>
      var f := value.value.fields;
      var c := CommitConfig(StringField(f, "language"), StringField(f, "systemPrompt"), StringField(f, "model"));
      (r.Some? <==> c != EmptyCommit) && (r.Some? ==> r.value == c)
  {
    if !IsPlainObject(value) then None
    else
      var f := value.value.fields;
      var c := CommitConfig(StringField(f, "language"), StringField(f, "systemPrompt"), StringField(f, "model"));
      if c == EmptyCommit then None else Some(c)
  }

  /** `normalizeCommitConfig`: each field trimmed, blank ones dropped; nothing when no
      field is left or only `language: "en"` is. */
  function NormalizeCommitConfig(draft: CommitConfig): (r: Option<CommitConfig>)
    ensures r.Some? ==> Lean(r.value.language) && Lean(r.value.systemPrompt) && Lean(r.value.model)
    ensures r.Some? ==> r.value != EmptyCommit && !DefaultCommit(r.value)
    ensures r.Some? ==>
      r.value.language == TrimmedField(draft.language) &&
      r.value.systemPrompt == TrimmedField(draft.systemPrompt) && r.value.model == TrimmedField(draft.model)
  {
    TrimmedFieldLean(draft.language);
    TrimmedFieldLean(draft.systemPrompt);
    TrimmedFieldLean(draft.model);
    var next := CommitConfig(TrimmedField(draft.language), TrimmedField(draft.systemPrompt), TrimmedField(draft.model));
    if next == EmptyCommit || DefaultCommit(next) then None else Some(next)
  }

  /** The commit draft is dropped exactly when every field is blank, or only the default
      language is set. */
  lemma NormalizeCommitAbsent(draft: CommitConfig)
    ensures NormalizeCommitConfig(draft).None? <==>
      (TrimmedField(draft.systemPrompt).None? && TrimmedField(draft.model).None? &&
       (TrimmedField(draft.language).None? || TrimmedField(draft.language) == Some("en")))
  {
  }

  lemma NormalizeCommitIdempotent(draft: CommitConfig)
    requires NormalizeCommitConfig(draft).Some?
    ensures NormalizeCommitConfig(NormalizeCommitConfig(draft).value) == NormalizeCommitConfig(draft)
  {
    var c := NormalizeCommitConfig(draft).value;
    TrimmedFieldLean(c.language);
    TrimmedFieldLean(c.systemPrompt);
    TrimmedFieldLean(c.model);
  }

  /** The object written for `commit`. */
  function CommitToJson(c: CommitConfig): Json
  {
    JObj(WithString(WithString(WithString(map[], "language", c.language), "systemPrompt", c.systemPrompt), "model", c.model))
  }

  /** A normalized commit value written and read back is picked unchanged. */
  lemma CommitReload(c: CommitConfig)
    requires c != EmptyCommit
    ensures PickCommitConfig(Some(CommitToJson(c))) == Some(c)
  {
    var f := CommitToJson(c).fields;
    assert StringField(f, "language") == c.language;
    assert StringField(f, "systemPrompt") == c.systemPrompt;
    assert StringField(f, "model") == c.model;
  }

  // notification ----------------------------------------------------------------

  datatype NotificationMode = Off | DefaultSound | Sound | Webhook

  datatype NotificationDraft = NotificationDraft(mode: NotificationMode, soundName: string, webhookUrl: string)

  const OffNotification := NotificationDraft(Off, "", "")

  predicate IsWebhookUrl(s: string)
  {
    StartsWith(s, "http://") || StartsWith(s, "https://")
  }

  /** `pickNotificationDraft`: `true` is the default sound; a string is a webhook when its
      trimmed form is an http(s) URL and a sound name otherwise; anything else is off. */
  function PickNotificationDraft(value: Option<Json>): (r: NotificationDraft)
    ensures value == Some(JBool(true)) <==> r.mode == DefaultSound
    ensures r.mode == Off <==> !(value == Some(JBool(true)) || (value.Some? && value.value.JStr?))
    ensures r.mode == Webhook <==> value.Some? && value.value.JStr? && IsWebhookUrl(JsTrim(value.value.s))
    ensures r.mode == Webhook ==> r == NotificationDraft(Webhook, "", JsTrim(value.value.s))
    ensures r.mode == Sound ==> r == NotificationDraft(Sound, JsTrim(value.value.s), "")
    ensures r.mode == Off || r.mode == DefaultSound ==> r.soundName == "" && r.webhookUrl == ""
  {
    if value == Some(JBool(true)) then NotificationDraft(DefaultSound, "", "")
    else if value.None? || !value.value.JStr? then OffNotification
    else
      var trimmed := JsTrim(value.value.s);
      if IsWebhookUrl(trimmed) then NotificationDraft(Webhook, "", trimmed)
      else NotificationDraft(Sound, trimmed, "")
  }

  /** `normalizeNotificationValue`: `true` for the default sound, the trimmed sound name
      or webhook URL for the other modes, nothing when off or blank. */
  function NormalizeNotificationValue(draft: NotificationDraft): (r: Option<Json>)
    ensures draft.mode == Off ==> r.None?
    ensures draft.mode == DefaultSound ==> r == Some(JBool(true))
    ensures draft.mode == Sound ==> r == if JsTrim(draft.soundName) == "" then None else Some(JStr(JsTrim(draft.soundName)))
    ensures draft.mode == Webhook ==> r == if JsTrim(draft.webhookUrl) == "" then None else Some(JStr(JsTrim(draft.webhookUrl)))
  {
    match draft.mode
    case Off => None
    case DefaultSound => Some(JBool(true))
    case Sound =>
      var sound := JsTrim(draft.soundName);
      if sound != "" then Some(JStr(sound)) else None
    case Webhook =>
      var url := JsTrim(draft.webhookUrl);
      if url != "" then Some(JStr(url)) else None
  }

  /** What a stored notification value becomes after it is picked into a draft and
      normalized again. */
  lemma NotificationRoundTrip(value: Option<Json>)
    ensures value == Some(JBool(true)) ==> NormalizeNotificationValue(PickNotificationDraft(value)) == value
    ensures !(value == Some(JBool(true)) || (value.Some? && value.value.JStr?)) ==>
      NormalizeNotificationValue(PickNotificationDraft(value)).None?
    ensures value.Some? && value.value.JStr? ==>
      NormalizeNotificationValue(PickNotificationDraft(value)) ==
        if JsTrim(value.value.s) == "" then None else Some(JStr(JsTrim(value.value.s)))
  {
    if value.Some? && value.value.JStr? {
      TrimIdempotent(value.value.s, IsJsSpace);
    }
  }

  /** A normalized notification value survives a reload: picking and normalizing it again
      gives the same value. */
  lemma NotificationStable(draft: NotificationDraft)
    ensures NormalizeNotificationValue(PickNotificationDraft(NormalizeNotificationValue(draft))) ==
      NormalizeNotificationValue(draft)
  {
    var v := NormalizeNotificationValue(draft);
    NotificationRoundTrip(v);
    if draft.mode == Sound {
      TrimIdempotent(draft.soundName, IsJsSpace);
    } else if draft.mode == Webhook {
      TrimIdempotent(draft.webhookUrl, IsJsSpace);
    }
  }

  // desktop ---------------------------------------------------------------------

  datatype Theme = Light | Dark | System

  datatype SendWith = Enter | CmdEnter

  datatype DesktopDraft = DesktopDraft(
    theme: Option<Theme>,
    sendMessageWith: Option<SendWith>,
    terminalFont: Option<string>,
    terminalFontSize: Option<int>)

  const EmptyDesktop := DesktopDraft(None, None, None, None)

  function ThemeName(t: Theme): string
  {
    match t
    case Light => "light"
    case Dark => "dark"
    case System => "system"
  }

  function SendWithName(w: SendWith): string
  {
    match w
    case Enter => "enter"
    case CmdEnter => "cmdEnter"
  }

  function ParseTheme(v: Option<Json>): (r: Option<Theme>)
    ensures r.Some? ==> v == Some(JStr(ThemeName(r.value)))
    ensures r.None? ==> forall t :: v != Some(JStr(ThemeName(t)))
  {
    if v == Some(JStr("light")) then Some(Light)
    else if v == Some(JStr("dark")) then Some(Dark)
    else if v == Some(JStr("system")) then Some(System)
    else None
  }

  function ParseSendWith(v: Option<Json>): (r: Option<SendWith>)
    ensures r.Some? ==> v == Some(JStr(SendWithName(r.value)))
    ensures r.None? ==> forall w :: v != Some(JStr(SendWithName(w)))
  {
    if v == Some(JStr("enter")) then Some(Enter)
    else if v == Some(JStr("cmdEnter")) then Some(CmdEnter)
    else None
  }

  /** `pickDesktopDraft`: a known theme, a known send key, a string font and a number
      size, each kept only when it has that shape. */
  function PickDesktopDraft(value: Option<Json>): (r: DesktopDraft)
    ensures !IsPlainObject(value) ==> r == EmptyDesktop
    ensures IsPlainObject(value) ==>
      var f := value.value.fields;
      r.theme == ParseTheme(Get(f, "theme")) &&
      r.sendMessageWith == ParseSendWith(Get(f, "sendMessageWith")) &&
      r.terminalFont == StringField(f, "terminalFont") &&
      (r.terminalFontSize.Some? <==> "terminalFontSize" in f && f["terminalFontSize"].JNum?) &&
      (r.terminalFontSize.Some? ==> f["terminalFontSize"] == JNum(r.terminalFontSize.value))
  {
    if !IsPlainObject(value) then EmptyDesktop
    else
      var f := value.value.fields;
      var size := if "terminalFontSize" in f && f["terminalFontSize"].JNum? then Some(f["terminalFontSize"].n) else None;
      DesktopDraft(ParseTheme(Get(f, "theme")), ParseSendWith(Get(f, "sendMessageWith")), StringField(f, "terminalFont"), size)
  }

  /** `normalizeDesktopConfig`: the default theme `light`, the default send key `enter`
      and a blank font are dropped, the font is trimmed; nothing when no field is left. */
  function NormalizeDesktopConfig(draft: DesktopDraft): (r: Option<DesktopDraft>)
    ensures r.Some? ==> r.value != EmptyDesktop
    ensures r.Some? ==> r.value.theme != Some(Light) && r.value.sendMessageWith != Some(Enter) && Lean(r.value.terminalFont)
    ensures r.Some? ==>
      r.value.theme == (if draft.theme == Some(Light) then None else draft.theme) &&
      r.value.sendMessageWith == (if draft.sendMessageWith == Some(Enter) then None else draft.sendMessageWith) &&
      r.value.terminalFont == TrimmedField(draft.terminalFont) &&
      r.value.terminalFontSize == draft.terminalFontSize
    ensures r.None? <==>
      (draft.theme.None? || draft.theme == Some(Light)) &&
      (draft.sendMessageWith.None? || draft.sendMessageWith == Some(Enter)) &&
      TrimmedField(draft.terminalFont).None? && draft.terminalFontSize.None?
  {
    TrimmedFieldLean(draft.terminalFont);
    var next := DesktopDraft(
      if draft.theme == Some(Light) then None else draft.theme,
      if draft.sendMessageWith == Some(Enter) then None else draft.sendMessageWith,
      TrimmedField(draft.terminalFont),
      draft.terminalFontSize);
    if next == EmptyDesktop then None else Some(next)
  }

  lemma NormalizeDesktopIdempotent(draft: DesktopDraft)
    requires NormalizeDesktopConfig(draft).Some?
    ensures NormalizeDesktopConfig(NormalizeDesktopConfig(draft).value) == NormalizeDesktopConfig(draft)
  {
    TrimmedFieldLean(NormalizeDesktopConfig(draft).value.terminalFont);
  }

  /** The object written for `desktop`. */
  function DesktopToJson(d: DesktopDraft): Json
  {
    var m0: map<string, Json> := map[];
    var m1 := if d.theme.Some? then m0["theme" := JStr(ThemeName(d.theme.value))] else m0;
    var m2 := if d.sendMessageWith.Some? then m1["sendMessageWith" := JStr(SendWithName(d.sendMessageWith.value))] else m1;
    var m3 := WithString(m2, "terminalFont", d.terminalFont);
    var m4 := if d.terminalFontSize.Some? then m3["terminalFontSize" := JNum(d.terminalFontSize.value)] else m3;
    JObj(m4)
  }

  /** Picking the written object gives the draft back, for every draft. */
  lemma DesktopReload(d: DesktopDraft)
    ensures PickDesktopDraft(Some(DesktopToJson(d))) == d
  {
    var f := DesktopToJson(d).fields;
    assert Get(f, "theme") == if d.theme.Some? then Some(JStr(ThemeName(d.theme.value))) else None;
    assert Get(f, "sendMessageWith") == if d.sendMessageWith.Some? then Some(JStr(SendWithName(d.sendMessageWith.value))) else None;
    assert StringField(f, "terminalFont") == d.terminalFont;
  }

  // agent -----------------------------------------------------------------------

  datatype AgentConfig = AgentConfig(model: Option<string>)

  type AgentDraft = map<string, AgentConfig>

  /** The draft `pickAgentDraft` builds: one card per object-valued entry, with the
      entry's `model` when it is a string. */
  function AgentDraftOf(value: Option<Json>): (r: AgentDraft)
    ensures !IsPlainObject(value) ==> r == map[]
    ensures IsPlainObject(value) ==> forall k :: k in r <==> k in value.value.fields && value.value.fields[k].JObj?
  {
    if !IsPlainObject(value) then map[]
    else
      var f := value.value.fields;
      map k | k in f && f[k].JObj? :: AgentConfig(StringField(f[k].fields, "model"))
  }

  /** The entries `normalizeAgentConfig` keeps: those with a non-blank model, trimmed. */
  function LeanAgents(draft: AgentDraft): (r: AgentDraft)
    ensures forall k :: k in r <==> k in draft && TrimmedField(draft[k].model).Some?
    ensures forall k :: k in r ==> r[k] == AgentConfig(TrimmedField(draft[k].model))
  {
    map k | k in draft && TrimmedField(draft[k].model).Some? :: AgentConfig(TrimmedField(draft[k].model))
  }

  /** `normalizeAgentConfig` as a value: the kept entries, or nothing when none is left. */
  function NormalizedAgents(draft: AgentDraft): Option<AgentDraft>
  {
    var next := LeanAgents(draft);
    if next == map[] then None else Some(next)
  }

  /** `pickAgentDraft`. */
  method PickAgentDraft(value: Option<Json>) returns (draft: AgentDraft)
    ensures draft == AgentDraftOf(value)
  {
    draft := map[];
    if !IsPlainObject(value) {
      return;
    }
    var f := value.value.fields;
    var rest := f.Keys;
    while rest != {}
      invariant rest <= f.Keys
      invariant draft == map k | k in f && k !in rest && f[k].JObj? :: AgentConfig(StringField(f[k].fields, "model"))
      decreases rest
    {
      var key :| key in rest;
      var config := f[key];
      if config.JObj? {
        draft := draft[key := AgentConfig(StringField(config.fields, "model"))];
      }
      rest := rest - {key};
    }
  }

  /** `normalizeAgentConfig`. */
  method NormalizeAgentConfig(draft: AgentDraft) returns (r: Option<AgentDraft>)
    ensures r == NormalizedAgents(draft)
  {
    var next: AgentDraft := map[];
    var rest := draft.Keys;
    while rest != {}
      invariant rest <= draft.Keys
      invariant next == map k | k in draft && k !in rest && TrimmedField(draft[k].model).Some? :: AgentConfig(TrimmedField(draft[k].model))
      decreases rest
    {
      var key :| key in rest;
      var model := TrimmedField(draft[key].model);
      if model.Some? {
        next := next[key := AgentConfig(model)];
      }
      rest := rest - {key};
    }
    assert next == LeanAgents(draft);
    r := if |next| == 0 then None else Some(next);
  }

  /** Normalizing keeps exactly the entries with a non-blank model, trimmed, and gives
      nothing when there is none; a normalized draft normalizes to itself. */
  lemma NormalizedAgentsMeaning(draft: AgentDraft)
    ensures NormalizedAgents(draft).None? <==> forall k :: k in draft ==> TrimmedField(draft[k].model).None?
    ensures NormalizedAgents(draft).Some? ==> NormalizedAgents(NormalizedAgents(draft).value) == NormalizedAgents(draft)
  {
    var next := LeanAgents(draft);
    if next == map[] {
      forall k | k in draft ensures TrimmedField(draft[k].model).None? {
        assert k !in next;
      }
    } else {
      forall k | k in next ensures TrimmedField(next[k].model) == next[k].model {
        TrimmedFieldLean(draft[k].model);
      }
      assert LeanAgents(next) == next;
    }
  }

  function AgentConfigToJson(c: AgentConfig): Json
  {
    JObj(WithString(map[], "model", c.model))
  }

  /** The object written for `agent`. */
  function AgentsToJson(d: AgentDraft): Json
  {
    JObj(map k | k in d :: AgentConfigToJson(d[k]))
  }

  /** Picking the written object gives the draft back, for every draft. */
  lemma AgentsReload(d: AgentDraft)
    ensures AgentDraftOf(Some(AgentsToJson(d))) == d
  {
    var r := AgentDraftOf(Some(AgentsToJson(d)));
    forall k | k in d ensures r[k] == d[k] {
      assert StringField(AgentConfigToJson(d[k]).fields, "model") == d[k].model;
    }
  }
}
