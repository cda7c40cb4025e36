/** The configuration session of src/hooks/useConfigState.ts: one mutable state
    holding the parsed base configuration, the flat form, the per-setting drafts,
    the mcpServers text draft and the baseline text the dirty flag is measured
    against, together with the actions that edit it. The host bridge (`invoke`,
    the file dialog, the application data directory) is replaced by parameters
    carrying the bridge's answer; `JSON.parse` and `JSON.stringify(_, null, 2)` are
    the session's `parse` and `stringify` functions. */
module ConfigSession {
  import opened Wrappers
  import opened Json
  import opened Text
  import opened Seqs
  import opened Catalog
  import opened ConfigHelpers
  import opened Bridge

  /** The text shown before the first load, and the host's template for a missing file. */
  const InitialText := "{\n}\n"

  /** The baseline before the first load: the six characters `{`, `\`, `n`, `}`, `\`,
      `n`, an escaped spelling of InitialText rather than InitialText itself. */
  const InitialBaseline := "{\\n}\\n"

  /** The legacy plugin entry that stands for the bundled notification plugin. */
  const LegacyNotifyEntry := "builtin:notify"

  const McpParseError := "JSON 格式错误"
  const McpShapeError := "必须是对象类型 {}"

  /** `stringifyConfig`: the pretty-printed object followed by a newline. */
  function StringifyConfig(stringify: Json -> string, config: map<string, Json>): string
  {
    stringify(JObj(config)) + "\n"
  }

  // ---------------------------------------------------------------------------
  // Plugin lists
  // ---------------------------------------------------------------------------

  /** Every legacy entry replaced by the known builtin path. */
  function MigrateEntries(raw: seq<string>, builtinPath: string): (r: seq<string>)
    ensures |r| == |raw|
  {
    seq(|raw|, i requires 0 <= i < |raw| => if raw[i] == LegacyNotifyEntry then builtinPath else raw[i])
  }

  /** Migration replaces exactly the legacy entries, in place; nothing legacy is left
      unless the builtin path is itself the legacy marker; and the list changes
      exactly when it held a legacy entry (so the two guards in the source, "the
      serialized lists differ" and "the list includes the marker", agree). */
  lemma MigrateEntriesMeaning(raw: seq<string>, builtinPath: string)
    ensures forall i :: 0 <= i < |raw| && raw[i] == LegacyNotifyEntry ==> MigrateEntries(raw, builtinPath)[i] == builtinPath
    ensures forall i :: 0 <= i < |raw| && raw[i] != LegacyNotifyEntry ==> MigrateEntries(raw, builtinPath)[i] == raw[i]
    ensures builtinPath != LegacyNotifyEntry ==> LegacyNotifyEntry !in MigrateEntries(raw, builtinPath)
    ensures MigrateEntries(raw, builtinPath) != raw <==> LegacyNotifyEntry in raw && builtinPath != LegacyNotifyEntry
  {
    var r := MigrateEntries(raw, builtinPath);
    if LegacyNotifyEntry in raw && builtinPath != LegacyNotifyEntry {
      var i :| 0 <= i < |raw| && raw[i] == LegacyNotifyEntry;
      assert r[i] != raw[i];
    }
  }

  /** A plugin list written back: the `plugins` key is deleted when the list is empty. */
  function WithPlugins(base: map<string, Json>, plugins: seq<string>): map<string, Json>
  {
    SetOrDelete(base, "plugins", if plugins == [] then None else Some(JArr(Strs(plugins))))
  }

  /** The string entries of the base's `plugins` list. */
  function PluginsOf(base: map<string, Json>): seq<string>
  {
    PickStringArray(Get(base, "plugins"))
  }
  /** A list written back is read back unchanged, and no other key is touched. */
  lemma PluginsOfWithPlugins(base: map<string, Json>, plugins: seq<string>)
    ensures PluginsOf(WithPlugins(base, plugins)) == plugins
    ensures forall k :: k != "plugins" ==>
      (k in WithPlugins(base, plugins) <==> k in base) && (k in base ==> WithPlugins(base, plugins)[k] == base[k])
  {
    if plugins != [] {
      StringsOfStrs(plugins);
    }
  }


  /** The list after enabling: unchanged when an entry is already recognised as the
      builtin plugin (against the builtin path known before the call), else the
      installed path appended. */
  function EnabledPlugins(prev: seq<string>, installedPath: string, builtinPath: string): seq<string>
  {
    if exists i :: 0 <= i < |prev| && IsBuiltinNotifyPluginEntry(prev[i], builtinPath) then prev
    else prev + [installedPath]
  }

  /** The builtin path an enable leaves behind. */
  function PathAfterEnable(builtinPath: string, installedPath: string): string
  {
    if builtinPath == "" && installedPath != "" then installedPath else builtinPath
  }

  /** Enabling never duplicates an entry when the installed path is recognised as the
      builtin plugin, and it then leaves a list that already has the plugin alone. */
  lemma EnabledPluginsNoDuplicates(prev: seq<string>, installedPath: string, builtinPath: string)
    requires NoDuplicates(prev)
    requires IsBuiltinNotifyPluginEntry(installedPath, builtinPath)
    ensures NoDuplicates(EnabledPlugins(prev, installedPath, builtinPath))
    ensures installedPath in EnabledPlugins(prev, installedPath, builtinPath) || installedPath !in prev
    ensures exists i ::
      0 <= i < |EnabledPlugins(prev, installedPath, builtinPath)| &&
      IsBuiltinNotifyPluginEntry(EnabledPlugins(prev, installedPath, builtinPath)[i], builtinPath)
  {
    var r := EnabledPlugins(prev, installedPath, builtinPath);
    if !exists i :: 0 <= i < |prev| && IsBuiltinNotifyPluginEntry(prev[i], builtinPath) {
      assert installedPath !in prev;
      assert r[|prev|] == installedPath;
    }
  }

  /** Once the plugin is recognised, enabling again changes nothing. */
  lemma EnabledPluginsIdempotent(prev: seq<string>, installedPath: string, builtinPath: string)
    requires IsBuiltinNotifyPluginEntry(installedPath, builtinPath)
    ensures EnabledPlugins(EnabledPlugins(prev, installedPath, builtinPath), installedPath, builtinPath) ==
      EnabledPlugins(prev, installedPath, builtinPath)
  {
    var r := EnabledPlugins(prev, installedPath, builtinPath);
    if r != prev {
      assert r[|prev|] == installedPath;
    }
  }

  /** When the builtin path is not known yet, a list that already holds the installed
      path (outside the `.neovate/plugins` layout) gets it a second time. */
  lemma EnabledPluginsDuplicateWhenPathUnknown()
    ensures !NoDuplicates(EnabledPlugins(["/data/plugins/notify.js"], "/data/plugins/notify.js", ""))
  {
    var p := "/data/plugins/notify.js";
    assert !IsBuiltinNotifyPluginEntry(p, "");
    var r := EnabledPlugins([p], p, "");
    assert r == [p, p];
    assert r[0] == r[1];
  }

  /** The list after disabling: every entry recognised as the builtin plugin removed. */
  function DisabledPlugins(prev: seq<string>, builtinPath: string): seq<string>
  {
    Filter(prev, (e: string) => !IsBuiltinNotifyPluginEntry(e, builtinPath))
  }

  /** Disabling removes exactly the recognised entries, keeps the rest in order and
      never adds a duplicate. */
  lemma DisabledPluginsMeaning(prev: seq<string>, builtinPath: string)
    ensures forall e :: e in DisabledPlugins(prev, builtinPath) <==> e in prev && !IsBuiltinNotifyPluginEntry(e, builtinPath)
    ensures NoDuplicates(prev) ==> NoDuplicates(DisabledPlugins(prev, builtinPath))
    ensures (forall i :: 0 <= i < |prev| ==> !IsBuiltinNotifyPluginEntry(prev[i], builtinPath)) ==>
      DisabledPlugins(prev, builtinPath) == prev
  {
    var keep := (e: string) => !IsBuiltinNotifyPluginEntry(e, builtinPath);
    forall e ensures e in DisabledPlugins(prev, builtinPath) <==> e in prev && keep(e) {
      FilterMembership(prev, keep, e);
    }
    if NoDuplicates(prev) {
      FilterNoDuplicates(prev, keep);
    }
    if forall i :: 0 <= i < |prev| ==> keep(prev[i]) {
      FilterKeepsAll(prev, keep);
    }
  }

  /** The list after removing a custom plugin: every entry equal to it removed. */
  function RemovedPlugins(prev: seq<string>, pluginPath: string): seq<string>
  {
    Filter(prev, (e: string) => e != pluginPath)
  }

  lemma RemovedPluginsMeaning(prev: seq<string>, pluginPath: string)
    ensures forall e :: e in RemovedPlugins(prev, pluginPath) <==> e in prev && e != pluginPath
    ensures NoDuplicates(prev) ==> NoDuplicates(RemovedPlugins(prev, pluginPath))
    ensures pluginPath !in prev ==> RemovedPlugins(prev, pluginPath) == prev
  {
    var keep := (e: string) => e != pluginPath;
    forall e ensures e in RemovedPlugins(prev, pluginPath) <==> e in prev && keep(e) {
      FilterMembership(prev, keep, e);
    }
    if NoDuplicates(prev) {
      FilterNoDuplicates(prev, keep);
    }
    if pluginPath !in prev {
      FilterKeepsAll(prev, keep);
    }
  }

  /** Adding a custom plugin: nothing to do when it is listed already. */
  function AddedPlugins(prev: seq<string>, pluginPath: string): Option<seq<string>>
  {
    if pluginPath in prev then None else Some(prev + [pluginPath])
  }

  lemma AddedPluginsNoDuplicates(prev: seq<string>, pluginPath: string)
    requires NoDuplicates(prev)
    ensures AddedPlugins(prev, pluginPath).None? <==> pluginPath in prev
    ensures AddedPlugins(prev, pluginPath).Some? ==>
      NoDuplicates(AddedPlugins(prev, pluginPath).value) && pluginPath in AddedPlugins(prev, pluginPath).value
  {
    if pluginPath !in prev {
      var r := prev + [pluginPath];
      assert r[|prev|] == pluginPath;
      assert forall i :: 0 <= i < |prev| ==> r[i] == prev[i];
    }
  }

  // ---------------------------------------------------------------------------
  // Loading
  // ---------------------------------------------------------------------------

  /** The base a load starts from: the parsed value when it is a plain object, `{}`
      otherwise, with legacy plugin entries migrated when the builtin path is known. */
  function SyncedBase(parsed: Option<Json>, builtinPath: string): (r: map<string, Json>)
    ensures !IsPlainObject(parsed) ==> r == map[]
    ensures IsPlainObject(parsed) ==>
      forall k :: k != "plugins" ==> (k in r <==> k in parsed.value.fields) && (k in r ==> r[k] == parsed.value.fields[k])
    ensures IsPlainObject(parsed) && (builtinPath == "" || LegacyNotifyEntry !in PluginsOf(parsed.value.fields)) ==>
      r == parsed.value.fields
    ensures IsPlainObject(parsed) && builtinPath != "" && builtinPath != LegacyNotifyEntry &&
            LegacyNotifyEntry in PluginsOf(parsed.value.fields) ==>
      r == parsed.value.fields["plugins" := JArr(Strs(MigrateEntries(PluginsOf(parsed.value.fields), builtinPath)))]
  {
    var base := if IsPlainObject(parsed) then parsed.value.fields else map[];
    MigrateEntriesMeaning(PluginsOf(base), builtinPath);
    if builtinPath == "" then base
    else
      var raw := PluginsOf(base);
      var migrated := MigrateEntries(raw, builtinPath);
      if raw != migrated then base["plugins" := JArr(Strs(migrated))] else base
  }

  /** After the migration of a load, no legacy entry is left. */
  lemma SyncedBaseMigrated(parsed: Option<Json>, builtinPath: string)
    requires builtinPath != "" && builtinPath != LegacyNotifyEntry
    ensures LegacyNotifyEntry !in PluginsOf(SyncedBase(parsed, builtinPath))
  {
    var base := if IsPlainObject(parsed) then parsed.value.fields else map[];
    var raw := PluginsOf(base);
    MigrateEntriesMeaning(raw, builtinPath);
    if LegacyNotifyEntry in raw {
      StringsOfStrs(MigrateEntries(raw, builtinPath));
    }
  }

  /** `commit?.field ?? ''`. */
  function OrEmpty(o: Option<string>): string
  {
    if o.Some? then o.value else ""
  }

  /** The commit draft a load sets: every field present, `""` where the stored commit
      has no string for it. */
  function CommitDraftOf(commit: Option<CommitConfig>): (r: CommitConfig)
    ensures r.language.Some? && r.systemPrompt.Some? && r.model.Some?
    ensures commit.None? ==> r == CommitConfig(Some(""), Some(""), Some(""))
  {
    var c := if commit.Some? then commit.value else EmptyCommit;
    CommitConfig(Some(OrEmpty(c.language)), Some(OrEmpty(c.systemPrompt)), Some(OrEmpty(c.model)))
  }

  /** A loaded commit draft normalizes back to the stored commit value, trimmed. */
  lemma CommitDraftOfNormalizes(value: Option<Json>)
    ensures NormalizeCommitConfig(CommitDraftOf(PickCommitConfig(value))) ==
      NormalizeCommitConfig(if PickCommitConfig(value).Some? then PickCommitConfig(value).value else EmptyCommit)
  {
    assert TrimmedField(Some("")) == None by {
      assert JsTrim("") == "";
    }
  }

  /** The text a load puts in the mcpServers editor: the pretty-printed object when
      `mcpServers` is a non-empty plain object, `""` otherwise. */
  function McpDraftText(stringify: Json -> string, value: Option<Json>): string
  {
    if IsPlainObject(value) && |value.value.fields| > 0 then stringify(value.value) else ""
  }

  // ---------------------------------------------------------------------------
  // Draft patches (`{ ...prevDraft, ...patch }`)
  // ---------------------------------------------------------------------------

  /** One field of a partial draft: left alone, or written (possibly as `undefined`). */
  datatype Patch<T> = Keep | Put(value: Option<T>)

  function Merge<T>(patch: Patch<T>, current: Option<T>): (r: Option<T>)
    ensures patch.Keep? ==> r == current
    ensures patch.Put? ==> r == patch.value
  {
    if patch.Put? then patch.value else current
  }

  datatype CommitPatch = CommitPatch(language: Patch<string>, systemPrompt: Patch<string>, model: Patch<string>)

  function MergeCommit(draft: CommitConfig, patch: CommitPatch): CommitConfig
  {
    CommitConfig(Merge(patch.language, draft.language), Merge(patch.systemPrompt, draft.systemPrompt), Merge(patch.model, draft.model))
  }

  /** The notification draft's fields always hold a value, so a patch field is either
      absent (`None`) or the new value. */
  datatype NotificationPatch = NotificationPatch(mode: Option<NotificationMode>, soundName: Option<string>, webhookUrl: Option<string>)

  function MergeNotification(draft: NotificationDraft, patch: NotificationPatch): NotificationDraft
  {
    NotificationDraft(
      if patch.mode.Some? then patch.mode.value else draft.mode,
      if patch.soundName.Some? then patch.soundName.value else draft.soundName,
      if patch.webhookUrl.Some? then patch.webhookUrl.value else draft.webhookUrl)
  }

  datatype DesktopPatch = DesktopPatch(
    theme: Patch<Theme>,
    sendMessageWith: Patch<SendWith>,
    terminalFont: Patch<string>,
    terminalFontSize: Patch<int>)

  function MergeDesktop(draft: DesktopDraft, patch: DesktopPatch): DesktopDraft
  {
    DesktopDraft(
      Merge(patch.theme, draft.theme),
      Merge(patch.sendMessageWith, draft.sendMessageWith),
      Merge(patch.terminalFont, draft.terminalFont),
      Merge(patch.terminalFontSize, draft.terminalFontSize))
  }

  function OptionMap<T, U>(o: Option<T>, f: T -> U): Option<U>
  {
    if o.Some? then Some(f(o.value)) else None
  }

  // ---------------------------------------------------------------------------
  // Effects
  // ---------------------------------------------------------------------------

  /** `replace(/[\\/]+$/, '')`: the trailing run of separators removed. */
  function TrimTrailingSeparators(s: string): (r: string)
    ensures |r| <= |s| && r == s[..|r|]
    ensures r == [] || !IsSep(r[|r| - 1])
    ensures forall i :: |r| <= i < |s| ==> IsSep(s[i])
  {
    if s != [] && IsSep(s[|s| - 1]) then TrimTrailingSeparators(s[..|s| - 1]) else s
  }

  /** The builtin plugin's path under the application data directory. */
  function BuiltinPathUnder(baseDir: string): string
  {
    TrimTrailingSeparators(baseDir) + "/plugins/notify.js"
  }

  /** The path resolved from a directory is the directory (without its trailing
      separators) joined to `plugins/notify.js`, and it is always recognised as the
      builtin plugin once it is the known builtin path. */
  lemma BuiltinPathUnderMeaning(baseDir: string)
    ensures EndsWith(BuiltinPathUnder(baseDir), "/plugins/notify.js")
    ensures BuiltinPathUnder(baseDir) == BuiltinPathUnder(baseDir + "/")
    ensures IsBuiltinNotifyPluginEntry(BuiltinPathUnder(baseDir), BuiltinPathUnder(baseDir))
  {
    var p := BuiltinPathUnder(baseDir);
    assert p[|p| - 18..] == "/plugins/notify.js";
    assert (baseDir + "/")[..|baseDir|] == baseDir;
  }

  const ClaudeSkillsSuffix := "/.claude/skills"
  const NeovateSkillsSuffix := "/.neovate/skills"

  /** The default skills source and target suggested for a configuration path: only
      when neither is set yet, the configuration path is known and a non-empty home
      can be read off it. */
  function SuggestedSkillsPaths(configPath: string, source: string, target: string): (r: Option<(string, string)>)
    ensures r.Some? ==> source == "" && target == "" && configPath != ""
    ensures r.Some? ==> exists home ::
      home != "" && InferHomeFromConfigPath(configPath) == Some(home) &&
      r.value == (home + ClaudeSkillsSuffix, home + NeovateSkillsSuffix)
  {
    if source != "" || target != "" || configPath == "" then None
    else
      var home := InferHomeFromConfigPath(configPath);
      if home.None? || home.value == "" then None
      else Some((home.value + ClaudeSkillsSuffix, home.value + NeovateSkillsSuffix))
  }

  /** For the standard configuration location of a non-empty home, both defaults
      are suggested under that home. */
  lemma SuggestedSkillsPathsForHome(home: string)
    requires home != ""
    ensures SuggestedSkillsPaths(home + "/.neovate/config.json", "", "") ==
      Some((home + ClaudeSkillsSuffix, home + NeovateSkillsSuffix))
  {
    InferHomeInverts(home);
  }

  // ---------------------------------------------------------------------------
  // The session
  // ---------------------------------------------------------------------------

  /** Every field of the session, for stating what an action leaves alone. */
  datatype Snapshot = Snapshot(
    configPath: string,
    fileExists: bool,
    sourceText: string,
    baseConfig: map<string, Json>,
    formValues: FormState,
    searchText: string,
    loadedText: string,
    commitDraft: CommitConfig,
    notificationDraft: NotificationDraft,
    desktopDraft: DesktopDraft,
    agentDraft: AgentDraft,
    mcpServersDraft: string,
    mcpServersError: string,
    skillsSourcePath: string,
    skillsTargetPath: string,
    builtinNotifyPath: string)

  /** What the open-file dialog answers: dismissed, several paths, or one path. */
  datatype DialogSelection = Dismissed | ManyPaths(paths: seq<string>) | OnePath(path: string)

  /** `previewConfig` of a state: the base with the form applied. */
  function PreviewConfigOf(catalog: seq<SettingDef>, s: Snapshot): map<string, Json>
  {
    ApplySpec(catalog, s.baseConfig, s.formValues)
  }

  /** `dirty` of a state: the preview text differs from the baseline. */
  predicate DirtyOf(catalog: seq<SettingDef>, stringify: Json -> string, s: Snapshot)
  {
    StringifyConfig(stringify, PreviewConfigOf(catalog, s)) != s.loadedText
  }

  /** The state `syncFromContent(content)` leaves: the base a load starts from, the
      form and the drafts picked from it, the mcpServers text with no error, and the
      reconciled text as the baseline; the other fields are untouched. */
  function Synced(catalog: seq<SettingDef>, parse: string -> Option<Json>, stringify: Json -> string,
                  s: Snapshot, content: string): (r: Snapshot)
    ensures !DirtyOf(catalog, stringify, r)
    ensures r.baseConfig == SyncedBase(parse(content), s.builtinNotifyPath)
    ensures r.formValues == PickSpec(catalog, r.baseConfig)
  {
    var base := SyncedBase(parse(content), s.builtinNotifyPath);
    var picked := PickSpec(catalog, base);
    s.(sourceText := content, baseConfig := base, formValues := picked,
       commitDraft := CommitDraftOf(PickCommitConfig(Get(base, "commit"))),
       notificationDraft := PickNotificationDraft(Get(base, "notification")),
       desktopDraft := PickDesktopDraft(Get(base, "desktop")),
       agentDraft := AgentDraftOf(Get(base, "agent")),
       mcpServersDraft := McpDraftText(stringify, Get(base, "mcpServers")),
       mcpServersError := "",
       loadedText := StringifyConfig(stringify, ApplySpec(catalog, base, picked)))
  }

  /** Loading the same content again changes nothing. */
  lemma SyncedIdempotent(catalog: seq<SettingDef>, parse: string -> Option<Json>, stringify: Json -> string,
                         s: Snapshot, content: string)
    ensures Synced(catalog, parse, stringify, Synced(catalog, parse, stringify, s, content), content) ==
      Synced(catalog, parse, stringify, s, content)
  {
  }

  class Session {
    /** The settings catalog, the parser and the pretty-printer the session uses. */
    const catalog: seq<SettingDef>
    const parse: string -> Option<Json>
    const stringify: Json -> string

    var configPath: string
    var fileExists: bool
    var sourceText: string
    var baseConfig: map<string, Json>
    var formValues: FormState
    var searchText: string
    /** `loadedTextRef.current`: the text of the last load or save. */
    var loadedText: string
    var commitDraft: CommitConfig
    var notificationDraft: NotificationDraft
    var desktopDraft: DesktopDraft
    var agentDraft: AgentDraft
    var mcpServersDraft: string
    var mcpServersError: string
    var skillsSourcePath: string
    var skillsTargetPath: string
    /** The builtin plugin's path, `""` while unknown. */
    var builtinNotifyPath: string

    function State(): Snapshot
      reads this
    {
      Snapshot(configPath, fileExists, sourceText, baseConfig, formValues, searchText, loadedText,
        commitDraft, notificationDraft, desktopDraft, agentDraft, mcpServersDraft, mcpServersError,
        skillsSourcePath, skillsTargetPath, builtinNotifyPath)
    }

    constructor (catalog: seq<SettingDef>, parse: string -> Option<Json>, stringify: Json -> string)
      ensures this.catalog == catalog && this.parse == parse && this.stringify == stringify
      ensures State() == Snapshot("", true, InitialText, map[], map[], "", InitialBaseline,
        EmptyCommit, OffNotification, EmptyDesktop, map[], "", "", "", "", "")
    {
      this.catalog := catalog;
      this.parse := parse;
      this.stringify := stringify;
      configPath := "";
      fileExists := true;
      sourceText := InitialText;
      baseConfig := map[];
      formValues := map[];
      searchText := "";
      loadedText := InitialBaseline;
      commitDraft := EmptyCommit;
      notificationDraft := OffNotification;
      desktopDraft := EmptyDesktop;
      agentDraft := map[];
      mcpServersDraft := "";
      mcpServersError := "";
      skillsSourcePath := "";
      skillsTargetPath := "";
      builtinNotifyPath := "";
    }

    // derived values ----------------------------------------------------------

    /** `isValid`: the raw source text parses. */
    predicate IsValid()
      reads this
    {
      parse(sourceText).Some?
    }

    /** `previewConfig`: the base with the form applied. */
    function PreviewConfig(): map<string, Json>
      reads this
    {
      ApplySpec(catalog, baseConfig, formValues)
    }

    /** `previewText`: the text a save would write. */
    function PreviewText(): string
      reads this
    {
      StringifyConfig(stringify, PreviewConfig())
    }

    /** `dirty`: the preview differs from the text of the last load or save. */
    predicate Dirty()
      reads this
    {
      PreviewText() != loadedText
    }

    /** `builtinNotifyEntry`: the first preview plugin recognised as the builtin one. */
    function BuiltinNotifyEntry(): (r: Option<string>)
      reads this
      ensures r.None? <==> forall i :: 0 <= i < |PluginsOf(PreviewConfig())| ==>
        !IsBuiltinNotifyPluginEntry(PluginsOf(PreviewConfig())[i], builtinNotifyPath)
      ensures r.Some? ==> exists i ::
        0 <= i < |PluginsOf(PreviewConfig())| && PluginsOf(PreviewConfig())[i] == r.value &&
        IsBuiltinNotifyPluginEntry(r.value, builtinNotifyPath) &&
        (forall j :: 0 <= j < i ==> !IsBuiltinNotifyPluginEntry(PluginsOf(PreviewConfig())[j], builtinNotifyPath))
    {
      var builtinPath := builtinNotifyPath;
      Find(PluginsOf(PreviewConfig()), (e: string) => IsBuiltinNotifyPluginEntry(e, builtinPath))
    }

    predicate BuiltinNotifyEnabled()
      reads this
    {
      BuiltinNotifyEntry().Some?
    }

    /** `filteredSettings`. */
    function FilteredSettings(): seq<SettingDef>
      reads this
    {
      FilterSettings(catalog, searchText)
    }

    // loading and saving ------------------------------------------------------

    /** The base `syncFromContent` starts from. */
    method LoadBase(content: string) returns (base: map<string, Json>)
      ensures base == SyncedBase(parse(content), builtinNotifyPath)
    {
      var parsed := parse(content);
      base := if IsPlainObject(parsed) then parsed.value.fields else map[];
      if builtinNotifyPath != "" {
        var rawPlugins := PickStringArray(Get(base, "plugins"));
        var migratedPlugins := MigrateEntries(rawPlugins, builtinNotifyPath);
        if rawPlugins != migratedPlugins {
          base := base["plugins" := JArr(Strs(migratedPlugins))];
        }
      }
    }

    /** Stores a whole snapshot, in two halves to keep each frame small. */
    method Restore(s: Snapshot)
      modifies this
      ensures State() == s
    {
      RestoreConfig(s);
      RestoreDrafts(s);
    }

    method RestoreConfig(s: Snapshot)
      modifies this`configPath, this`fileExists, this`sourceText, this`baseConfig
      modifies this`formValues, this`searchText, this`loadedText, this`builtinNotifyPath
      ensures configPath == s.configPath && fileExists == s.fileExists && sourceText == s.sourceText
      ensures baseConfig == s.baseConfig && formValues == s.formValues && searchText == s.searchText
      ensures loadedText == s.loadedText && builtinNotifyPath == s.builtinNotifyPath
    {
      configPath, fileExists, sourceText, baseConfig := s.configPath, s.fileExists, s.sourceText, s.baseConfig;
      formValues, searchText, loadedText := s.formValues, s.searchText, s.loadedText;
      builtinNotifyPath := s.builtinNotifyPath;
    }

    method RestoreDrafts(s: Snapshot)
      modifies this`commitDraft, this`notificationDraft, this`desktopDraft, this`agentDraft
      modifies this`mcpServersDraft, this`mcpServersError, this`skillsSourcePath, this`skillsTargetPath
      ensures commitDraft == s.commitDraft && notificationDraft == s.notificationDraft
      ensures desktopDraft == s.desktopDraft && agentDraft == s.agentDraft
      ensures mcpServersDraft == s.mcpServersDraft && mcpServersError == s.mcpServersError
      ensures skillsSourcePath == s.skillsSourcePath && skillsTargetPath == s.skillsTargetPath
    {
      commitDraft, notificationDraft, desktopDraft := s.commitDraft, s.notificationDraft, s.desktopDraft;
      agentDraft, mcpServersDraft, mcpServersError := s.agentDraft, s.mcpServersDraft, s.mcpServersError;
      skillsSourcePath, skillsTargetPath := s.skillsSourcePath, s.skillsTargetPath;
    }

    /** `syncFromContent`: the base, the form picked from it, the drafts and the
        reconciled baseline, stored together. */
    method SyncFromContent(content: string)
      modifies this
      ensures State() == Synced(catalog, parse, stringify, old(State()), content)
    {
      var base := LoadBase(content);
      var picked := PickFormValues(catalog, base);
      var applied := ApplyFormValues(catalog, base, picked);
      var agents := PickAgentDraft(Get(base, "agent"));
      var next := State().(sourceText := content, baseConfig := base, formValues := picked,
        commitDraft := CommitDraftOf(PickCommitConfig(Get(base, "commit"))),
        notificationDraft := PickNotificationDraft(Get(base, "notification")),
        desktopDraft := PickDesktopDraft(Get(base, "desktop")),
        agentDraft := agents,
        mcpServersDraft := McpDraftText(stringify, Get(base, "mcpServers")),
        mcpServersError := "",
        loadedText := StringifyConfig(stringify, applied));
      Restore(next);
    }

    /** `reload`: a successful read sets the path and the existence flag and loads the
        content; a failed one changes nothing. */
    method Reload(response: Result<ReadConfigResponse>)
      modifies this
      ensures response.Err? ==> State() == old(State())
      ensures response.Ok? ==>
        State() == Synced(catalog, parse, stringify,
          old(State()).(configPath := response.value.path, fileExists := response.value.fileExists),
          response.value.content)
    {
      if response.Err? {
        return;
      }
      configPath := response.value.path;
      fileExists := response.value.fileExists;
      SyncFromContent(response.value.content);
    }

    /** `save`: sends the preview text to the host; on success reloads from that text
        and marks the file as existing, on failure changes nothing. */
    method Save(outcome: Result<WriteConfigResponse>) returns (sent: string)
      modifies this
      ensures sent == old(PreviewText())
      ensures outcome.Err? ==> State() == old(State())
      ensures outcome.Ok? ==>
        State() == Synced(catalog, parse, stringify, old(State()), sent).(fileExists := true)
    {
      sent := PreviewText();
      if outcome.Err? {
        return;
      }
      SyncFromContent(sent);
      fileExists := true;
    }

    // plugins -----------------------------------------------------------------

    /** `enableBuiltinNotify`: after a successful install, remembers the installed path
        when no builtin path was known, and appends it to the plugin list unless an
        entry is already recognised (against the builtin path known before the call).
        Non-string entries of the list are dropped. */
    method EnableBuiltinNotify(response: Result<InstallBuiltinPluginResponse>)
      modifies this
      ensures response.Err? ==> State() == old(State())
      ensures response.Ok? ==>
        var plugins := EnabledPlugins(PluginsOf(old(baseConfig)), response.value.path, old(builtinNotifyPath));
        State() == old(State()).(
          baseConfig := old(baseConfig)["plugins" := JArr(Strs(plugins))],
          builtinNotifyPath := PathAfterEnable(old(builtinNotifyPath), response.value.path))
    {
      if response.Err? {
        return;
      }
      var res := response.value;
      var knownPath := builtinNotifyPath;
      if builtinNotifyPath == "" && res.path != "" {
        builtinNotifyPath := res.path;
      }
      var prevPlugins := PickStringArray(Get(baseConfig, "plugins"));
      var nextPlugins := EnabledPlugins(prevPlugins, res.path, knownPath);
      baseConfig := baseConfig["plugins" := JArr(Strs(nextPlugins))];
    }

    /** `disableBuiltinNotify`: removes every recognised entry, deleting the key when
        the list becomes empty. */
    method DisableBuiltinNotify()
      modifies this
      ensures baseConfig == WithPlugins(old(baseConfig), DisabledPlugins(PluginsOf(old(baseConfig)), builtinNotifyPath))
      ensures State() == old(State()).(baseConfig := baseConfig)
      ensures forall e :: e in PluginsOf(baseConfig) ==> !IsBuiltinNotifyPluginEntry(e, builtinNotifyPath)
    {
      var prevPlugins := PickStringArray(Get(baseConfig, "plugins"));
      var builtinPath := builtinNotifyPath;
      var nextPlugins := Filter(prevPlugins, (e: string) => !IsBuiltinNotifyPluginEntry(e, builtinPath));
      DisabledPluginsMeaning(prevPlugins, builtinPath);
      PluginsOfWithPlugins(baseConfig, nextPlugins);
      baseConfig := WithPlugins(baseConfig, nextPlugins);
    }

    /** `addCustomPlugin`: a single chosen path not listed yet is appended; a dismissed
        dialog, an empty path, several paths or a path already listed change nothing. */
    method AddCustomPlugin(selection: DialogSelection)
      modifies this
      ensures !(selection.OnePath? && selection.path != "") ==> State() == old(State())
      ensures selection.OnePath? && selection.path != "" ==>
        var added := AddedPlugins(PluginsOf(old(baseConfig)), selection.path);
        baseConfig == (if added.None? then old(baseConfig) else old(baseConfig)["plugins" := JArr(Strs(added.value))]) &&
        State() == old(State()).(baseConfig := baseConfig)
    {
      if selection.Dismissed? || selection.ManyPaths? {
        return;
      }
      var filePath := selection.path;
      if filePath == "" {
        return;
      }
      var prevPlugins := PickStringArray(Get(baseConfig, "plugins"));
      if filePath in prevPlugins {
        return;
      }
      baseConfig := baseConfig["plugins" := JArr(Strs(prevPlugins + [filePath]))];
    }

    /** `removeCustomPlugin`: removes every entry equal to the path, deleting the key
        when the list becomes empty. */
    method RemoveCustomPlugin(pluginPath: string)
      modifies this
      ensures baseConfig == WithPlugins(old(baseConfig), RemovedPlugins(PluginsOf(old(baseConfig)), pluginPath))
      ensures State() == old(State()).(baseConfig := baseConfig)
      ensures pluginPath !in PluginsOf(baseConfig)
    {
      var prevPlugins := PickStringArray(Get(baseConfig, "plugins"));
      var nextPlugins := Filter(prevPlugins, (e: string) => e != pluginPath);
      RemovedPluginsMeaning(prevPlugins, pluginPath);
      PluginsOfWithPlugins(baseConfig, nextPlugins);
      baseConfig := WithPlugins(baseConfig, nextPlugins);
    }

    // drafts ------------------------------------------------------------------

    /** `resetCommitDraft`: every field blank, `commit` deleted. */
    method ResetCommitDraft()
      modifies this
      ensures commitDraft == CommitConfig(Some(""), Some(""), Some(""))
      ensures baseConfig == old(baseConfig) - {"commit"}
      ensures State() == old(State()).(commitDraft := commitDraft, baseConfig := baseConfig)
    {
      commitDraft := CommitConfig(Some(""), Some(""), Some(""));
      baseConfig := baseConfig - {"commit"};
    }

    /** `updateCommitDraft`: merges the patch and writes the normalized commit, or
        deletes `commit` when nothing is left. */
    method UpdateCommitDraft(patch: CommitPatch)
      modifies this
      ensures commitDraft == MergeCommit(old(commitDraft), patch)
      ensures baseConfig == SetOrDelete(old(baseConfig), "commit", OptionMap(NormalizeCommitConfig(commitDraft), CommitToJson))
      ensures State() == old(State()).(commitDraft := commitDraft, baseConfig := baseConfig)
    {
      var nextDraft := MergeCommit(commitDraft, patch);
      var normalized := NormalizeCommitConfig(nextDraft);
      if normalized.Some? {
        baseConfig := baseConfig["commit" := CommitToJson(normalized.value)];
      } else {
        baseConfig := baseConfig - {"commit"};
      }
      commitDraft := nextDraft;
    }

    /** `resetNotificationDraft`: mode off, names blank, `notification` deleted. */
    method ResetNotificationDraft()
      modifies this
      ensures notificationDraft == OffNotification
      ensures baseConfig == old(baseConfig) - {"notification"}
      ensures State() == old(State()).(notificationDraft := notificationDraft, baseConfig := baseConfig)
    {
      notificationDraft := OffNotification;
      baseConfig := baseConfig - {"notification"};
    }

    /** `updateNotificationDraft`: merges the patch and writes the normalized value,
        or deletes `notification` when it is `undefined`. */
    method UpdateNotificationDraft(patch: NotificationPatch)
      modifies this
      ensures notificationDraft == MergeNotification(old(notificationDraft), patch)
      ensures baseConfig == SetOrDelete(old(baseConfig), "notification", NormalizeNotificationValue(notificationDraft))
      ensures State() == old(State()).(notificationDraft := notificationDraft, baseConfig := baseConfig)
    {
      var nextDraft := MergeNotification(notificationDraft, patch);
      var normalized := NormalizeNotificationValue(nextDraft);
      if normalized.None? {
        baseConfig := baseConfig - {"notification"};
      } else {
        baseConfig := baseConfig["notification" := normalized.value];
      }
      notificationDraft := nextDraft;
    }

    /** `resetDesktopDraft`: an empty draft, `desktop` deleted. */
    method ResetDesktopDraft()
      modifies this
      ensures desktopDraft == EmptyDesktop
      ensures baseConfig == old(baseConfig) - {"desktop"}
      ensures State() == old(State()).(desktopDraft := desktopDraft, baseConfig := baseConfig)
    {
      desktopDraft := EmptyDesktop;
      baseConfig := baseConfig - {"desktop"};
    }

    /** `updateDesktopDraft`: merges the patch and writes the normalized desktop
        object, or deletes `desktop` when nothing is left. */
    method UpdateDesktopDraft(patch: DesktopPatch)
      modifies this
      ensures desktopDraft == MergeDesktop(old(desktopDraft), patch)
      ensures baseConfig == SetOrDelete(old(baseConfig), "desktop", OptionMap(NormalizeDesktopConfig(desktopDraft), DesktopToJson))
      ensures State() == old(State()).(desktopDraft := desktopDraft, baseConfig := baseConfig)
    {
      var nextDraft := MergeDesktop(desktopDraft, patch);
      var normalized := NormalizeDesktopConfig(nextDraft);
      if normalized.Some? {
        baseConfig := baseConfig["desktop" := DesktopToJson(normalized.value)];
      } else {
        baseConfig := baseConfig - {"desktop"};
      }
      desktopDraft := nextDraft;
    }

    /** Writes the normalized agent draft to `agent`, or deletes the key. */
    method WriteAgents(nextDraft: AgentDraft)
      modifies this
      ensures agentDraft == nextDraft
      ensures baseConfig == SetOrDelete(old(baseConfig), "agent", OptionMap(NormalizedAgents(nextDraft), AgentsToJson))
      ensures State() == old(State()).(agentDraft := agentDraft, baseConfig := baseConfig)
    {
      var normalized := NormalizeAgentConfig(nextDraft);
      if normalized.Some? {
        baseConfig := baseConfig["agent" := AgentsToJson(normalized.value)];
      } else {
        baseConfig := baseConfig - {"agent"};
      }
      agentDraft := nextDraft;
    }

    /** `updateAgentModel`: the agent's card holds the given model. */
    method UpdateAgentModel(agentType: string, model: string)
      modifies this
      ensures agentDraft == old(agentDraft)[agentType := AgentConfig(Some(model))]
      ensures baseConfig == SetOrDelete(old(baseConfig), "agent", OptionMap(NormalizedAgents(agentDraft), AgentsToJson))
      ensures State() == old(State()).(agentDraft := agentDraft, baseConfig := baseConfig)
    {
      WriteAgents(agentDraft[agentType := AgentConfig(Some(model))]);
    }

    /** `removeAgent`: the agent's card is dropped. */
    method RemoveAgent(agentType: string)
      modifies this
      ensures agentDraft == old(agentDraft) - {agentType}
      ensures baseConfig == SetOrDelete(old(baseConfig), "agent", OptionMap(NormalizedAgents(agentDraft), AgentsToJson))
      ensures State() == old(State()).(agentDraft := agentDraft, baseConfig := baseConfig)
    {
      WriteAgents(agentDraft - {agentType});
    }

    /** `resetAgentDraft`: no cards, `agent` deleted. */
    method ResetAgentDraft()
      modifies this
      ensures agentDraft == map[]
      ensures baseConfig == old(baseConfig) - {"agent"}
      ensures State() == old(State()).(agentDraft := agentDraft, baseConfig := baseConfig)
    {
      agentDraft := map[];
      baseConfig := baseConfig - {"agent"};
    }

    // mcpServers --------------------------------------------------------------

    /** `updateMcpServersDraft`: keeps the text; blank text deletes `mcpServers`; text
        that does not parse, or parses to something other than a plain object, only
        sets an error; `{}` deletes the key and any other object is stored. */
    method UpdateMcpServersDraft(text: string)
      modifies this
      ensures mcpServersDraft == text
      ensures JsTrim(text) == "" ==> mcpServersError == "" && baseConfig == old(baseConfig) - {"mcpServers"}
      ensures JsTrim(text) != "" && parse(text).None? ==> mcpServersError == McpParseError && baseConfig == old(baseConfig)
      ensures JsTrim(text) != "" && parse(text).Some? && !parse(text).value.JObj? ==>
        mcpServersError == McpShapeError && baseConfig == old(baseConfig)
      ensures JsTrim(text) != "" && IsPlainObject(parse(text)) ==>
        mcpServersError == "" &&
        baseConfig == (if parse(text).value.fields == map[] then old(baseConfig) - {"mcpServers"}
                       else old(baseConfig)["mcpServers" := parse(text).value])
      ensures State() == old(State()).(mcpServersDraft := text, mcpServersError := mcpServersError, baseConfig := baseConfig)
    {
      mcpServersDraft := text;
      if JsTrim(text) == "" {
        mcpServersError := "";
        baseConfig := baseConfig - {"mcpServers"};
        return;
      }
      var parsed := parse(text);
      if parsed.None? {
        mcpServersError := McpParseError;
        return;
      }
      if !parsed.value.JObj? {
        mcpServersError := McpShapeError;
        return;
      }
      mcpServersError := "";
      if |parsed.value.fields| == 0 {
        baseConfig := baseConfig - {"mcpServers"};
      } else {
        baseConfig := baseConfig["mcpServers" := parsed.value];
      }
    }

    /** `formatMcpServersDraft`: a draft whose trimmed text parses to a plain object is
        replaced by its pretty-printed form; anything else is left as it is. */
    method FormatMcpServersDraft()
      modifies this
      ensures var t := JsTrim(old(mcpServersDraft));
        if t != "" && IsPlainObject(parse(t))
        then State() == old(State()).(mcpServersDraft := stringify(parse(t).value), mcpServersError := "")
        else State() == old(State())
    {
      var text := JsTrim(mcpServersDraft);
      if text == "" {
        return;
      }
      var parsed := parse(text);
      if IsPlainObject(parsed) {
        mcpServersDraft := stringify(parsed.value);
        mcpServersError := "";
      }
    }

    /** `resetMcpServersDraft`: empty text, no error, `mcpServers` deleted. */
    method ResetMcpServersDraft()
      modifies this
      ensures State() == old(State()).(mcpServersDraft := "", mcpServersError := "", baseConfig := old(baseConfig) - {"mcpServers"})
    {
      mcpServersDraft := "";
      mcpServersError := "";
      baseConfig := baseConfig - {"mcpServers"};
    }

    // the form and the search -------------------------------------------------

    /** `updateFormValue`: the key holds the value; `undefined` clears it. */
    method UpdateFormValue(key: string, value: Option<FormValue>)
      modifies this
      ensures formValues == (if value.Some? then old(formValues)[key := value.value] else old(formValues) - {key})
      ensures State() == old(State()).(formValues := formValues)
    {
      if value.Some? {
        formValues := formValues[key := value.value];
      } else {
        formValues := formValues - {key};
      }
    }

    method SetSearchText(text: string)
      modifies this
      ensures State() == old(State()).(searchText := text)
    {
      searchText := text;
    }

    method SetSkillsSourcePath(path: string)
      modifies this
      ensures State() == old(State()).(skillsSourcePath := path)
    {
      skillsSourcePath := path;
    }

    method SetSkillsTargetPath(path: string)
      modifies this
      ensures State() == old(State()).(skillsTargetPath := path)
    {
      skillsTargetPath := path;
    }

    // effects -----------------------------------------------------------------

    /** The builtin-path effect: a non-empty application data directory gives the
        builtin path under it; an empty answer changes nothing; a failure leaves the
        path unknown. */
    method ResolveBuiltinPath(baseDir: Result<string>)
      modifies this
      ensures baseDir.Ok? && baseDir.value == "" ==> State() == old(State())
      ensures baseDir.Ok? && baseDir.value != "" ==> State() == old(State()).(builtinNotifyPath := BuiltinPathUnder(baseDir.value))
      ensures baseDir.Err? ==> State() == old(State()).(builtinNotifyPath := "")
    {
      if baseDir.Err? {
        builtinNotifyPath := "";
        return;
      }
      if baseDir.value == "" {
        return;
      }
      builtinNotifyPath := TrimTrailingSeparators(baseDir.value) + "/plugins/notify.js";
    }

    /** The migration effect: once the builtin path is known, a plugin list holding
        the legacy entry has every legacy entry replaced by that path. */
    method MigrateLegacyPluginEntries()
      modifies this
      ensures builtinNotifyPath == "" || LegacyNotifyEntry !in PluginsOf(old(baseConfig)) ==> State() == old(State())
      ensures builtinNotifyPath != "" && LegacyNotifyEntry in PluginsOf(old(baseConfig)) ==>
        State() == old(State()).(baseConfig := old(baseConfig)["plugins" := JArr(Strs(MigrateEntries(PluginsOf(old(baseConfig)), builtinNotifyPath)))])
    {
      if builtinNotifyPath == "" {
        return;
      }
      var rawPlugins := PickStringArray(Get(baseConfig, "plugins"));
      if LegacyNotifyEntry !in rawPlugins {
        return;
      }
      var migratedPlugins := MigrateEntries(rawPlugins, builtinNotifyPath);
      baseConfig := baseConfig["plugins" := JArr(Strs(migratedPlugins))];
    }

    /** The skills-defaults effect. */
    method SuggestSkillsPaths()
      modifies this
      ensures var s := SuggestedSkillsPaths(old(configPath), old(skillsSourcePath), old(skillsTargetPath));
        if s.Some? then State() == old(State()).(skillsSourcePath := s.value.0, skillsTargetPath := s.value.1)
        else State() == old(State())
    {
      if skillsSourcePath != "" || skillsTargetPath != "" || configPath == "" {
        return;
      }
      var home := InferHomeFromConfigPath(configPath);
      if home.None? || home.value == "" {
        return;
      }
      skillsSourcePath := home.value + ClaudeSkillsSuffix;
      skillsTargetPath := home.value + NeovateSkillsSuffix;
    }
  }

  // ---------------------------------------------------------------------------
  // Properties of the session's actions
  // ---------------------------------------------------------------------------

  /** Enabling a second time with the same install answer changes nothing, provided
      the installed path is recognised against the path known at the first call (or
      no path was known then). */
  lemma EnableAgainUnchanged(prev: seq<string>, installedPath: string, builtinPath: string)
    requires installedPath != ""
    requires builtinPath == "" || IsBuiltinNotifyPluginEntry(installedPath, builtinPath)
    ensures var once := EnabledPlugins(prev, installedPath, builtinPath);
      EnabledPlugins(once, installedPath, PathAfterEnable(builtinPath, installedPath)) == once
  {
    var once := EnabledPlugins(prev, installedPath, builtinPath);
    var later := PathAfterEnable(builtinPath, installedPath);
    if once != prev {
      assert once[|prev|] == installedPath;
      BuiltinPathRecognised(installedPath);
      assert IsBuiltinNotifyPluginEntry(once[|prev|], later);
    } else {
      var i :| 0 <= i < |prev| && IsBuiltinNotifyPluginEntry(prev[i], builtinPath);
      assert IsBuiltinNotifyPluginEntry(once[i], later);
    }
  }
}
