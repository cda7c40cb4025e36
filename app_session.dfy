/** The earlier, simpler session of src/App.tsx: one editor over the fixed catalog,
    with load, save, the dirty flag, the status messages and the per-kind input rules
    of the form. */
module AppSession {
  import opened Wrappers
  import opened Json
  import opened Text
  import opened Catalog
  import opened ConfigHelpers
  import opened Bridge

  const InitialText := "{\n}\n"
  const LoadFailedPrefix := "加载配置失败："
  const SaveFailedPrefix := "保存配置失败："
  const SavedInfo := "已保存。"
  const SavedWithBackupPrefix := "已保存。已备份到："

  /** `stringifyConfig`: the pretty-printed object followed by a newline. */
  function StringifyConfig(stringify: Json -> string, config: map<string, Json>): (r: string)
    ensures |r| > 0 && r[|r| - 1] == '\n'
  {
    stringify(JObj(config)) + "\n"
  }

  /** The component state: everything but the busy flag. */
  datatype AppState = AppState(
    configPath: string,
    fileExists: bool,
    sourceText: string,
    baseConfig: map<string, Json>,
    formValues: FormState,
    searchText: string,
    loadedText: string,
    lastSaveInfo: string,
    error: string)

  /** `dirty` of a state: the text a save would write differs from the baseline. */
  predicate DirtyOf(stringify: Json -> string, s: AppState)
  {
    StringifyConfig(stringify, ApplySpec(AppCatalog, s.baseConfig, s.formValues)) != s.loadedText
  }

  /** The base a load starts from: the parsed object, or `{}` when the text does not
      parse or is not a plain object. */
  function LoadedBase(parsed: Option<Json>): (r: map<string, Json>)
    ensures IsPlainObject(parsed) ==> r == parsed.value.fields
    ensures !IsPlainObject(parsed) ==> r == map[]
  {
    if IsPlainObject(parsed) then parsed.value.fields else map[]
  }

  /** The state `syncFromContent(content)` leaves: the text, the base and the form
      picked from it are stored, and the baseline is the text of the base with that
      form applied, which is the base minus the scalar keys the form cannot hold. */
  function Synced(parse: string -> Option<Json>, stringify: Json -> string, s: AppState, content: string): (r: AppState)
    ensures !DirtyOf(stringify, r)
    ensures r.baseConfig == LoadedBase(parse(content))
    ensures r.formValues == PickSpec(AppCatalog, r.baseConfig)
    ensures r.loadedText == StringifyConfig(stringify,
      map k | k in r.baseConfig && !DroppedByRoundTrip(AppCatalog, r.baseConfig, k) :: r.baseConfig[k])
    ensures r == s.(sourceText := content, baseConfig := r.baseConfig, formValues := r.formValues,
                    loadedText := r.loadedText)
  {
    var base := LoadedBase(parse(content));
    var picked := PickSpec(AppCatalog, base);
    AppCatalogKeysUnique();
    PickApplyRoundTrip(AppCatalog, base);
    s.(sourceText := content, baseConfig := base, formValues := picked,
       loadedText := StringifyConfig(stringify, ApplySpec(AppCatalog, base, picked)))
  }

  /** The message a successful save shows: the backup path when the host made one. */
  function SaveInfo(backupPath: Option<string>): (r: string)
    ensures backupPath.None? || backupPath.value == "" ==> r == SavedInfo
    ensures backupPath.Some? && backupPath.value != "" ==>
      StartsWith(r, SavedWithBackupPrefix) && r[|SavedWithBackupPrefix|..] == backupPath.value
  {
    if backupPath.Some? && backupPath.value != "" then SavedWithBackupPrefix + backupPath.value else SavedInfo
  }

  /** The form after an input event on one key: the key is cleared (`undefined`) or
      set, and no other key changes. */
  function Entered(form: FormState, key: string, value: Option<FormValue>): (r: FormState)
    ensures value.None? ==> key !in r
    ensures value.Some? ==> key in r && r[key] == value.value
    ensures forall k :: k != key ==> (k in r <==> k in form) && (k in r ==> r[k] == form[k])
  {
    if value.None? then form - {key} else form[key := value.value]
  }

  /** The boolean select: the empty option clears, otherwise the value is whether
      `"true"` was chosen. */
  function BooleanSelection(raw: string): (r: Option<FormValue>)
    ensures raw == "" <==> r.None?
    ensures raw == "true" <==> r == Some(FBool(true))
    ensures raw != "" && raw != "true" <==> r == Some(FBool(false))
  {
    if raw == "" then None else Some(FBool(raw == "true"))
  }

  /** The enum select: the empty option clears, any other option is kept as is. */
  function EnumSelection(raw: string): (r: Option<FormValue>)
    ensures raw == "" <==> r.None?
    ensures raw != "" ==> r == Some(FStr(raw))
  {
    if raw == "" then None else Some(FStr(raw))
  }

  /** The text input: whitespace-only text clears, any other text is kept untrimmed. */
  function StringInput(raw: string): (r: Option<FormValue>)
    ensures AllSpace(raw, IsJsSpace) <==> r.None?
    ensures !AllSpace(raw, IsJsSpace) ==> r == Some(FStr(raw))
  {
    TrimEmptyIff(raw, IsJsSpace);
    if JsTrim(raw) == "" then None else Some(FStr(raw))
  }

  /** Applying an input to a scalar entry of the catalog shows in the preview: a
      cleared key disappears from the config a save would write, a set one holds the
      value, and the keys of the other entries and of the rest of the base do not
      change. */
  lemma EnteredPreview(base: map<string, Json>, form: FormState, key: string, value: Option<FormValue>)
    requires IsScalarKey(AppCatalog, key)
    requires value.Some? ==> value.value != FStr("")
    ensures value.None? ==> key !in ApplySpec(AppCatalog, base, Entered(form, key, value))
    ensures value.Some? ==> Get(ApplySpec(AppCatalog, base, Entered(form, key, value)), key) == Some(ToJson(value.value))
    ensures forall k :: k != key ==>
      Get(ApplySpec(AppCatalog, base, Entered(form, key, value)), k) == Get(ApplySpec(AppCatalog, base, form), k)
  {
    AppCatalogKeysUnique();
    var next := Entered(form, key, value);
    ApplySpecMeaning(AppCatalog, base, next, key);
    forall k | k != key
      ensures Get(ApplySpec(AppCatalog, base, next), k) == Get(ApplySpec(AppCatalog, base, form), k)
    {
      ApplySpecMeaning(AppCatalog, base, next, k);
      ApplySpecMeaning(AppCatalog, base, form, k);
    }
  }

  /** The editor of src/App.tsx. `JSON.parse` and `JSON.stringify` are parameters;
      so is the number parser behind `Number(raw)`, which yields `None` for `NaN`. */
  class App {
    const parse: string -> Option<Json>
    const stringify: Json -> string
    const toNumber: string -> Option<int>

    var configPath: string
    var fileExists: bool
    var sourceText: string
    var baseConfig: map<string, Json>
    var formValues: FormState
    var searchText: string
    /** `loadedTextRef.current`. */
    var loadedText: string
    var lastSaveInfo: string
    var error: string

    function State(): AppState
      reads this
    {
      AppState(configPath, fileExists, sourceText, baseConfig, formValues, searchText, loadedText,
        lastSaveInfo, error)
    }

    constructor (parse: string -> Option<Json>, stringify: Json -> string, toNumber: string -> Option<int>)
      ensures this.parse == parse && this.stringify == stringify && this.toNumber == toNumber
      ensures State() == AppState("", true, InitialText, map[], map[], "", InitialText, "", "")
    {
      this.parse := parse;
      this.stringify := stringify;
      this.toNumber := toNumber;
      configPath := "";
      fileExists := true;
      sourceText := InitialText;
      baseConfig := map[];
      formValues := map[];
      searchText := "";
      loadedText := InitialText;
      lastSaveInfo := "";
      error := "";
    }

    /** `isValid`: the raw source text parses. */
    predicate IsValid()
      reads this
    {
      parse(sourceText).Some?
    }

    function PreviewText(): string
      reads this
    {
      StringifyConfig(stringify, ApplySpec(AppCatalog, baseConfig, formValues))
    }

    predicate Dirty()
      reads this
    {
      DirtyOf(stringify, State())
    }

    function FilteredSettings(): seq<SettingDef>
      reads this
    {
      FilterSettings(AppCatalog, searchText)
    }

    /** `syncFromContent`. */
    method SyncFromContent(content: string)
      modifies this
      ensures State() == Synced(parse, stringify, old(State()), content)
    {
      var parsed := parse(content);
      var base := if IsPlainObject(parsed) then parsed.value.fields else map[];
      var picked := PickFormValues(AppCatalog, base);
      var applied := ApplyFormValues(AppCatalog, base, picked);
      sourceText := content;
      baseConfig := base;
      formValues := picked;
      loadedText := StringifyConfig(stringify, applied);
    }

    /** `reload`: both messages are cleared; a successful read sets the path and the
        existence flag and loads the content, a failed one only reports the error. */
    method Reload(response: Result<ReadConfigResponse>)
      modifies this
      ensures response.Err? ==>
        State() == old(State()).(lastSaveInfo := "", error := LoadFailedPrefix + response.error)
      ensures response.Ok? ==>
        State() == Synced(parse, stringify,
          old(State()).(configPath := response.value.path, fileExists := response.value.fileExists,
                        lastSaveInfo := "", error := ""),
          response.value.content)
    {
      error := "";
      lastSaveInfo := "";
      match response {
        case Err(message) =>
          error := LoadFailedPrefix + message;
        case Ok(res) =>
          configPath := res.path;
          fileExists := res.fileExists;
          SyncFromContent(res.content);
      }
    }

    /** `save`: the preview text is sent; on success the editor reloads from it, the
        file now exists and the info line names the backup; on failure only the error
        is set, and the base and form are untouched. */
    method Save(outcome: Result<WriteConfigResponse>) returns (sent: string)
      modifies this
      ensures sent == old(PreviewText())
      ensures outcome.Err? ==>
        State() == old(State()).(lastSaveInfo := "", error := SaveFailedPrefix + outcome.error)
      ensures outcome.Ok? ==>
        State() == Synced(parse, stringify, old(State()), sent).(
          fileExists := true, lastSaveInfo := SaveInfo(outcome.value.backupPath), error := "")
      ensures outcome.Ok? ==> !Dirty()
    {
      sent := PreviewText();
      error := "";
      lastSaveInfo := "";
      match outcome {
        case Err(message) =>
          error := SaveFailedPrefix + message;
        case Ok(res) =>
          SyncFromContent(sent);
          fileExists := true;
          lastSaveInfo := SaveInfo(res.backupPath);
      }
    }

    /** Stores one input in the form. */
    method Enter(key: string, value: Option<FormValue>)
      modifies this
      ensures State() == old(State()).(formValues := Entered(old(formValues), key, value))
    {
      if value.None? {
        formValues := formValues - {key};
      } else {
        formValues := formValues[key := value.value];
      }
    }

    /** The boolean select of an entry. */
    method SelectBoolean(key: string, raw: string)
      modifies this
      ensures State() == old(State()).(formValues := Entered(old(formValues), key, BooleanSelection(raw)))
    {
      Enter(key, if raw == "" then None else Some(FBool(raw == "true")));
    }

    /** The enum select of an entry. */
    method SelectEnum(key: string, raw: string)
      modifies this
      ensures State() == old(State()).(formValues := Entered(old(formValues), key, EnumSelection(raw)))
    {
      Enter(key, if raw == "" then None else Some(FStr(raw)));
    }

    /** The text input of a string entry. */
    method InputString(key: string, raw: string)
      modifies this
      ensures State() == old(State()).(formValues := Entered(old(formValues), key, StringInput(raw)))
    {
      Enter(key, if JsTrim(raw) == "" then None else Some(FStr(raw)));
    }

    /** The text input of a number entry: blank text clears, a number is stored, and
        text that is not a number leaves the form as it was. */
    method InputNumber(key: string, raw: string)
      modifies this
      ensures JsTrim(raw) == "" ==> State() == old(State()).(formValues := old(formValues) - {key})
      ensures JsTrim(raw) != "" && toNumber(JsTrim(raw)).None? ==> State() == old(State())
      ensures JsTrim(raw) != "" && toNumber(JsTrim(raw)).Some? ==>
        State() == old(State()).(formValues := old(formValues)[key := FNum(toNumber(JsTrim(raw)).value)])
    {
      var trimmed := JsTrim(raw);
      if trimmed == "" {
        formValues := formValues - {key};
        return;
      }
      var n := toNumber(trimmed);
      if n.Some? {
        formValues := formValues[key := FNum(n.value)];
      }
    }

    /** The search box, and its clear button with `""`. */
    method SetSearchText(text: string)
      modifies this
      ensures State() == old(State()).(searchText := text)
    {
      searchText := text;
    }
  }
}
