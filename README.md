# Neovate configuration editor: a verified model of its core

Neovate's settings editor is a desktop app, a React front end over a Tauri host. It
edits one JSON configuration file, `~/.neovate/config.json`. This project models the
logic that decides what the editor shows and what it writes, and proves properties of
that model in Dafny:

- **The reconciler** (`src/lib/configHelpers.ts`, module `ConfigHelpers`). It converts
  between the parsed JSON base object, the flat form of scalar catalog settings, and
  the drafts of the nested settings (commit, notification, desktop and agent). It also
  holds the plugin-list helpers and the home-from-config-path inference.
- **The configuration session** (`src/hooks/useConfigState.ts`, class
  `ConfigSession.Session`). The hook's state is a class whose fields are its
  `useState` slots and the `loadedTextRef` baseline. Every action is a method that
  states its whole new state. The host's answers (`invoke` results and the file dialog)
  are method parameters. `JSON.parse` and `JSON.stringify` are constant function
  fields of the session.
- **The earlier editor** of `src/App.tsx` (class `AppSession.App`): its load, save and
  dirty logic and its per-kind input rules. It also holds the settings catalog
  (module `Catalog`), transcribed entry by entry.
- **JSON paths and text sniffing** (`src/lib/jsonText.ts`, module `JsonText`).
- **Shallow record equality** (`src/store/shallowEqual.ts`, module `ShallowEqual`).
- **The Rust host commands**, over a filesystem modelled as a map from path strings to
  `File(content) | Dir` (module `HostFs`) and an environment modelled as a map:
  - home and `~` resolution (`paths.rs`, module `HostPaths`);
  - skills planning and copying (`skills.rs`, module `HostSkills`);
  - the command layer (`config/mod.rs`, module `HostConfig`).
- **The skills migration run** of the hook (`runSkillsMigration` in
  `src/hooks/useConfigState.ts`, module `SkillsRun`). It decides, from the stored
  paths and the host's plan, whether to warn, stop, open the conflict dialog or
  replace at once.

  The records the host and the UI exchange are in module `Bridge`.

Supporting modules:

- `Wrappers`: `Option`/`Result`.
- `Json`: the JSON value, with objects as maps and numbers as `int`.
- `Text`: the JavaScript and Rust whitespace sets, trimming, prefixes, and lower-casing.
- `Seqs`: filter and count over sequences.

Where the source loops or mutates, the model does too:

- `PickFormValues`, `ApplyFormValues`, `PickAgentDraft`, `NormalizeAgentConfig`,
  `GetValueAtPath`, `PathToDisplay`, `BuildSkillsPlan` and `ApplyMigrationCore` are
  methods with loops. Each is proved equal to a specification function, and the
  source's promises are proved about that function as lemmas.
- `WriteConfig`, `InstallBuiltinPlugin` and `ApplySkillsMigration` are methods that
  thread the filesystem through the same ordered steps as the Rust code.

## Model

| member | source | states |
|---|---|---|
| ConfigHelpers.PickedValue | src/lib/configHelpers.ts:28-39 | a catalog entry contributes a form value exactly when the raw value has the entry's kind (and, for an enum, is one of its options); the form value converts back to the raw value |
| ConfigHelpers.PickSpecMeaning | src/lib/configHelpers.ts:28-39 | about the picked form `PickSpec`: a key is in the picked form iff it is a non-complex catalog key whose value fits its entry, and then it holds that value; wrong-kind and missing values are omitted |
| ConfigHelpers.PickFormValues | src/lib/configHelpers.ts:28-39 | the loop over the catalog builds exactly the picked form |
| ConfigHelpers.ApplySpecMeaning | src/lib/configHelpers.ts:41-53 | about the applied object `ApplySpec`, which is also the session's `PreviewConfig` and the base of `PreviewText` in both editors: keys outside the catalog and complex keys are copied unchanged; a scalar key whose form value is `undefined` or `""` is deleted; any other scalar key is set to its form value |
| ConfigHelpers.ApplyFormValues | src/lib/configHelpers.ts:41-53 | the loop over the catalog builds exactly the applied object |
| ConfigHelpers.PickApplyRoundTrip | src/lib/configHelpers.ts:28-53 | applying the values picked from a config gives the config back, minus the scalar catalog keys whose value had the wrong kind or was the empty string |
| ConfigHelpers.ToJsonInjective | src/lib/configHelpers.ts:28-53 | distinct form values are stored as distinct JSON values, so the pick/apply round trip loses nothing |
| ConfigHelpers.FormatComplexValue | src/lib/configHelpers.ts:55-63 | `undefined` shows as "未设置"; a serialization within the limit is shown whole; a longer one is cut to the limit and followed by "…" |
| ConfigHelpers.StringsOfMembership | src/lib/configHelpers.ts:65-69 | a string is among the picked strings iff the array holds it as a string element |
| ConfigHelpers.StringsOfStrs | src/lib/configHelpers.ts:65-69 | a list of strings written as a JSON array is picked back unchanged |
| ConfigHelpers.StringsOfSingle | src/lib/configHelpers.ts:65-69 | a one-element array gives its string, or nothing for a non-string; with `StringsOfConcat` this fixes the picked strings in order, with repeats |
| ConfigHelpers.StringsOfMultiplicity | src/lib/configHelpers.ts:65-69 | each string is picked exactly as many times as the array holds it |
| ConfigHelpers.PickStringArray | src/lib/configHelpers.ts:65-69 | `[]` for anything but an array; for an array, the picked strings of its elements (in order, with repeats, by the two lemmas above), with a string present iff the array holds it |
| ConfigHelpers.NormalizePathForCompare | src/lib/configHelpers.ts:71-74 | same length, every backslash replaced by a slash and every other character kept |
| ConfigHelpers.NormalizePathIdempotent | src/lib/configHelpers.ts:71-74 | no backslash is left, and normalizing twice is normalizing once |
| ConfigHelpers.NotifySuffixShape | src/lib/configHelpers.ts:80-84 | the suffix test of `IsBuiltinNotifyPluginEntry` holds exactly for a value ending in `.neovate`, `plugins`, `notify.js` joined by a slash or backslash in each of the three places |
| ConfigHelpers.BuiltinPathRecognised | src/lib/configHelpers.ts:76-85 | for `IsBuiltinNotifyPluginEntry`: a known builtin path is itself recognised as the builtin plugin entry |
| ConfigHelpers.NotifySuffixSlashBlind | src/lib/configHelpers.ts:80-84 | the suffix test gives the same answer on a value and on its slash-normalized form |
| ConfigHelpers.BuiltinEntrySeparatorBlind | src/lib/configHelpers.ts:76-85 | two values that differ only in slashes versus backslashes are both recognised or both not |
| ConfigHelpers.InferHomeFromConfigPath | src/lib/configHelpers.ts:189-194 | a home is found only when the path is that home followed by `/.neovate/config.json` or `\.neovate\config.json`; none is found when the path has neither ending |
| ConfigHelpers.InferHomeInverts | src/lib/configHelpers.ts:189-194 | the home is recovered from the path built from it, with either separator |
| ConfigHelpers.TrimmedFieldLean | src/lib/configHelpers.ts:122-137 | a field after trim-and-drop is absent or trimmed and non-blank, and such a field is left as it is |
| ConfigHelpers.PickCommitConfig | src/lib/configHelpers.ts:113-120 | nothing for a non-object; otherwise the string-valued `language`, `systemPrompt` and `model`, or nothing when none of them is a string |
| ConfigHelpers.NormalizeCommitConfig | src/lib/configHelpers.ts:122-137 | each field is trimmed and blank fields are dropped; the result is never empty and never the default `language: "en"` alone |
| ConfigHelpers.NormalizeCommitAbsent | src/lib/configHelpers.ts:122-137 | the commit value is dropped exactly when every field is blank, or when only `language` is left and it is `en` |
| ConfigHelpers.NormalizeCommitIdempotent | src/lib/configHelpers.ts:122-137 | normalizing a normalized commit value changes nothing |
| ConfigHelpers.CommitReload | src/lib/configHelpers.ts:113-137 | a non-empty commit value written as an object is picked back unchanged |
| ConfigHelpers.PickNotificationDraft | src/lib/configHelpers.ts:139-149 | `true` gives the default sound; a string gives a webhook when its trimmed form starts with `http://` or `https://`, else a sound name; everything else is off |
| ConfigHelpers.NormalizeNotificationValue | src/lib/configHelpers.ts:151-160 | off gives absent; the default sound gives `true`; a sound or webhook gives its trimmed text, or absent when that is blank |
| ConfigHelpers.NotificationRoundTrip | src/lib/configHelpers.ts:139-160 | `true` comes back as `true`; non-strings and `false` come back absent; a string comes back trimmed, or absent when blank |
| ConfigHelpers.NotificationStable | src/lib/configHelpers.ts:139-160 | a normalized notification value survives another pick and normalize unchanged |
| ConfigHelpers.ParseTheme | src/lib/configHelpers.ts:162-172 | a theme is read only from the exact strings `light`, `dark` and `system` |
| ConfigHelpers.ParseSendWith | src/lib/configHelpers.ts:162-172 | a send key is read only from the exact strings `enter` and `cmdEnter` |
| ConfigHelpers.PickDesktopDraft | src/lib/configHelpers.ts:162-172 | empty for a non-object; otherwise a known theme, a known send key, a string font and a number size, each only when it has that shape |
| ConfigHelpers.NormalizeDesktopConfig | src/lib/configHelpers.ts:174-187 | theme `light`, send key `enter` and a blank font are dropped and the font is trimmed; absent exactly when nothing is left |
| ConfigHelpers.NormalizeDesktopIdempotent | src/lib/configHelpers.ts:174-187 | normalizing a normalized desktop value changes nothing |
| ConfigHelpers.DesktopReload | src/lib/configHelpers.ts:162-187 | any desktop draft written as an object is picked back unchanged |
| ConfigHelpers.AgentDraftOf | src/lib/configHelpers.ts:88-99 | empty for a non-object; otherwise one card for each object-valued entry |
| ConfigHelpers.PickAgentDraft | src/lib/configHelpers.ts:88-99 | the loop over the entries builds exactly that draft |
| ConfigHelpers.LeanAgents | src/lib/configHelpers.ts:102-111 | exactly the cards with a non-blank model are kept, with the model trimmed |
| ConfigHelpers.NormalizeAgentConfig | src/lib/configHelpers.ts:102-111 | the loop builds the kept cards, or absent when none is kept |
| ConfigHelpers.NormalizedAgentsMeaning | src/lib/configHelpers.ts:102-111 | absent iff no card has a non-blank model; normalizing a normalized draft changes nothing |
| ConfigHelpers.AgentsReload | src/lib/configHelpers.ts:88-111 | any agent draft written as an object is picked back unchanged |
| ConfigSession.MigrateEntriesMeaning | src/hooks/useConfigState.ts:97-103 | each `builtin:notify` entry becomes the builtin path in place, other entries are kept, none is left, and the list changes iff it held one |
| ConfigSession.PluginsOfWithPlugins | src/hooks/useConfigState.ts:185-193 | a plugin list written back (with the key deleted when the list is empty) reads back unchanged, and no other key changes |
| ConfigSession.SyncedBase | src/hooks/useConfigState.ts:93-105 | `{}` unless the content parses to a plain object; otherwise that object with its legacy plugin entries migrated once the builtin path is known, and nothing else changed |
| ConfigSession.SyncedBaseMigrated | src/hooks/useConfigState.ts:97-103 | with a known builtin path, no legacy entry survives a load |
| ConfigSession.CommitDraftOf | src/hooks/useConfigState.ts:107-113 | every commit field of the loaded draft is present, and all are blank when nothing is stored |
| ConfigSession.CommitDraftOfNormalizes | src/hooks/useConfigState.ts:107-113 | the loaded commit draft normalizes back to the stored commit value, trimmed |
| ConfigSession.Synced | src/hooks/useConfigState.ts:93-131 | after a load the session is not dirty (`Dirty`: the preview text differs from the baseline): the base is the synced base and the form is picked from it |
| ConfigSession.SyncedIdempotent | src/hooks/useConfigState.ts:93-131 | loading the same content again changes nothing |
| ConfigSession.Session.LoadBase | src/hooks/useConfigState.ts:94-104 | the base a load starts from is the synced base |
| ConfigSession.Session.SyncFromContent | src/hooks/useConfigState.ts:93-131 | the new state is the synced state: text, base, form, all drafts, the mcpServers text with no error, and the reconciled baseline; nothing else changes |
| ConfigSession.Session.Reload | src/hooks/useConfigState.ts:133-146 | a failed read changes nothing; a successful one sets the path and existence flag and loads the content |
| ConfigSession.Session.Save | src/hooks/useConfigState.ts:148-160 | the preview text is sent; a failure changes nothing; success loads from the sent text and marks the file as existing |
| ConfigSession.EnabledPluginsNoDuplicates | src/hooks/useConfigState.ts:170-176 | when the installed path is recognised as the builtin plugin, enabling keeps the list free of duplicates and leaves it holding a recognised entry |
| ConfigSession.EnabledPluginsIdempotent | src/hooks/useConfigState.ts:170-176 | once the plugin is recognised, enabling again leaves the list as it is |
| ConfigSession.EnabledPluginsDuplicateWhenPathUnknown | src/hooks/useConfigState.ts:167-176 | while the builtin path is unknown, enabling appends an already-listed installed path a second time |
| ConfigSession.Session.EnableBuiltinNotify | src/hooks/useConfigState.ts:162-183 | a failed install changes nothing; otherwise the installed path is remembered when none was known, and the string list is kept when an entry is recognised, else the path is appended |
| ConfigSession.EnableAgainUnchanged | src/hooks/useConfigState.ts:162-183 | a second enable with the same answer changes neither the list nor the builtin path |
| ConfigSession.Session.BuiltinNotifyEntry | src/hooks/useConfigState.ts:78-81 | the first preview plugin recognised as the builtin plugin, or none exactly when no preview plugin is recognised |
| ConfigSession.DisabledPluginsMeaning | src/hooks/useConfigState.ts:185-193 | disabling removes exactly the recognised entries, keeps the rest in order and adds no duplicate |
| ConfigSession.Session.DisableBuiltinNotify | src/hooks/useConfigState.ts:185-195 | the base gets the filtered list (the key is deleted when it is empty); nothing else changes; no recognised entry is left |
| ConfigSession.AddedPluginsNoDuplicates | src/hooks/useConfigState.ts:206-215 | adding does nothing iff the path is listed; otherwise it appends the path at the end and adds no duplicate |
| ConfigSession.Session.AddCustomPlugin | src/hooks/useConfigState.ts:197-217 | a dismissed dialog or a multi-selection changes nothing; a single path is appended when it is not listed yet; nothing else changes |
| ConfigSession.RemovedPluginsMeaning | src/hooks/useConfigState.ts:219-229 | removing drops exactly the entries equal to the path and keeps the rest; a list without the path is unchanged |
| ConfigSession.Session.RemoveCustomPlugin | src/hooks/useConfigState.ts:219-229 | the base gets the filtered list (the key is deleted when it is empty); the path is no longer listed; nothing else changes |
| ConfigSession.Merge | src/hooks/useConfigState.ts:242-338 | a patch field left out keeps the draft's value, and a written one replaces it |
| ConfigSession.Session.ResetCommitDraft | src/hooks/useConfigState.ts:231-240 | every commit field is blank, `commit` is deleted, and nothing else changes |
| ConfigSession.Session.UpdateCommitDraft | src/hooks/useConfigState.ts:242-255 | the draft is the merged patch; `commit` holds its normalized value or is deleted; nothing else changes |
| ConfigSession.Session.ResetNotificationDraft | src/hooks/useConfigState.ts:257-266 | the draft is off with blank names, `notification` is deleted, and nothing else changes |
| ConfigSession.Session.UpdateNotificationDraft | src/hooks/useConfigState.ts:268-281 | the draft is the merged patch; `notification` holds its normalized value or is deleted; nothing else changes |
| ConfigSession.Session.ResetDesktopDraft | src/hooks/useConfigState.ts:283-292 | the draft is empty, `desktop` is deleted, and nothing else changes |
| ConfigSession.Session.UpdateDesktopDraft | src/hooks/useConfigState.ts:294-307 | the draft is the merged patch; `desktop` holds its normalized value or is deleted; nothing else changes |
| ConfigSession.Session.WriteAgents | src/hooks/useConfigState.ts:310-338 | the agent draft is stored; `agent` holds its normalized value or is deleted; nothing else changes |
| ConfigSession.Session.UpdateAgentModel | src/hooks/useConfigState.ts:310-323 | the agent's card holds the given model, and `agent` is rewritten from the new draft |
| ConfigSession.Session.RemoveAgent | src/hooks/useConfigState.ts:325-338 | the agent's card is dropped, and `agent` is rewritten from the new draft |
| ConfigSession.Session.ResetAgentDraft | src/hooks/useConfigState.ts:341-348 | no cards are left, `agent` is deleted, and nothing else changes |
| ConfigSession.Session.UpdateMcpServersDraft | src/hooks/useConfigState.ts:351-382 | the text is kept as typed; blank text deletes `mcpServers` and clears the error; unparsable or non-object text sets its error and leaves the base alone; `{}` deletes the key; any other object is stored |
| ConfigSession.Session.FormatMcpServersDraft | src/hooks/useConfigState.ts:385-394 | a draft whose trimmed text parses to a plain object is replaced by its pretty-printed form with no error; any other draft is left alone |
| ConfigSession.Session.ResetMcpServersDraft | src/hooks/useConfigState.ts:396-404 | empty text, no error, `mcpServers` deleted, and nothing else changes |
| ConfigSession.Session.UpdateFormValue | src/hooks/useConfigState.ts:514-516 | the key holds the value, or is cleared for `undefined`; nothing else changes |
| ConfigSession.Session.SetSkillsSourcePath | src/hooks/useConfigState.ts:63 | only the skills source path changes |
| ConfigSession.Session.SetSkillsTargetPath | src/hooks/useConfigState.ts:64 | only the skills target path changes |
| ConfigSession.Session.SetSearchText | src/hooks/useConfigState.ts:83-91 | only the search text changes |
| ConfigSession.TrimTrailingSeparators | src/hooks/useConfigState.ts:468 | the result is a prefix of the input that does not end in a separator, and everything cut off is separators |
| ConfigSession.BuiltinPathUnderMeaning | src/hooks/useConfigState.ts:462-480 | the builtin path ends in `/plugins/notify.js`, ignores a trailing separator of the directory, and is recognised as the builtin entry |
| ConfigSession.Session.ResolveBuiltinPath | src/hooks/useConfigState.ts:462-480 | a non-empty data directory gives the builtin path under it; an empty one changes nothing; a failure sets the path to unknown |
| ConfigSession.Session.MigrateLegacyPluginEntries | src/hooks/useConfigState.ts:482-491 | with the builtin path known and a legacy entry present, the legacy entries are replaced in place; otherwise nothing changes |
| ConfigSession.SuggestedSkillsPaths | src/hooks/useConfigState.ts:501-508 | defaults are offered only when both paths are empty and the configuration path is known, and then they are the home's `.claude/skills` and `.neovate/skills` |
| ConfigSession.SuggestedSkillsPathsForHome | src/hooks/useConfigState.ts:501-508 | for the standard configuration path of a non-empty home, both defaults are offered |
| ConfigSession.Session.SuggestSkillsPaths | src/hooks/useConfigState.ts:501-508 | the suggested defaults are stored when there are any; otherwise nothing changes |
| ConfigSession.Session.constructor | src/hooks/useConfigState.ts:40-71 | the initial state: the template text, an empty base and form, empty drafts, the default baseline, and an unknown builtin path |
| Catalog.AppCatalogKeysUnique | src/App.tsx:23-187 | the catalog's keys are unique |
| Catalog.AppCatalogOptions | src/App.tsx:23-187 | the catalog has 23 entries; each `enum` entry has options and no other entry has them |
| Catalog.LookupUnique | src/App.tsx:23-187 | with unique keys, looking up the key of an entry finds that entry |
| Catalog.KindLabelInjective | src/App.tsx:189-204 | the five kinds get five different labels |
| Catalog.FilterSettingsSpec | src/App.tsx:291-300 | about `FilterSettings`, which `Session.FilteredSettings` (useConfigState.ts:83-91) and `App.FilteredSettings` apply to the search text: a blank or whitespace-only search shows the whole catalog; any other search shows, in catalog order, exactly the entries whose lower-cased text contains the lower-cased trimmed keyword |
| Catalog.FilterSettingsConcat | src/App.tsx:291-300 | searching a concatenation is concatenating the searches, so the result keeps catalog order |
| AppSession.StringifyConfig | src/App.tsx:229-231 | the saved text ends in a newline |
| AppSession.LoadedBase | src/App.tsx:302-311 | the parsed object, or `{}` when the text is not a JSON object |
| AppSession.Synced | src/App.tsx:286-311 | after a load the editor is not dirty (`App.Dirty`); the base is the loaded base and the form is picked from it; the baseline is the base minus the keys a pick and apply drop |
| AppSession.App.SyncFromContent | src/App.tsx:302-311 | the new state is the synced state |
| AppSession.App.Reload | src/App.tsx:313-327 | both messages are cleared; a failed read sets the load error; a successful one sets the path and existence flag and loads the content |
| AppSession.App.Save | src/App.tsx:329-344 | the preview text is sent; a failure sets the error and leaves the base and form alone; success loads from the sent text, marks the file as existing, shows the save message, and leaves the editor not dirty |
| AppSession.SaveInfo | src/App.tsx:336-338 | the message names the backup path when there is one |
| AppSession.Entered | src/App.tsx:425-491 | an input sets or clears exactly one form key |
| AppSession.BooleanSelection | src/App.tsx:425-441 | the empty option clears; otherwise the value is whether `true` was chosen |
| AppSession.EnumSelection | src/App.tsx:443-459 | the empty option clears; any other option is kept |
| AppSession.StringInput | src/App.tsx:461-471 | whitespace-only text clears; any other text is kept untrimmed |
| AppSession.App.InputNumber | src/App.tsx:473-491 | blank text clears the key; non-numeric text changes nothing; a number is stored |
| AppSession.EnteredPreview | src/App.tsx:425-491 | an input on a scalar entry shows in the preview under that key and leaves every other key as it was |
| AppSession.App.Enter | src/App.tsx:425-491 | the form changes by exactly the entered value |
| AppSession.App.SelectBoolean | src/App.tsx:425-441 | the form takes the boolean selection |
| AppSession.App.SelectEnum | src/App.tsx:443-459 | the form takes the enum selection |
| AppSession.App.InputString | src/App.tsx:461-471 | the form takes the string input |
| AppSession.App.SetSearchText | src/App.tsx:291-300 | only the search text changes |
| AppSession.App.constructor | src/App.tsx:274-284 | the initial state: the template text as source and baseline, with an empty base and form |
| JsonText.Step | src/lib/jsonText.ts:57-71 | one step yields undefined for null and undefined; an index needs an array element inside the bounds; a name walks an object's field |
| JsonText.ArrayProperty | src/lib/jsonText.ts:57-71 | a name on an array finds its `length`, or one of its elements |
| JsonText.ValueAtCases | src/lib/jsonText.ts:56-72 | the empty path gives the value; null or undefined give undefined; an index on a non-array or a name on a non-object gives undefined |
| JsonText.ValueAtUndefined | src/lib/jsonText.ts:56-72 | once undefined, the walk stays undefined |
| JsonText.ValueAtConcat | src/lib/jsonText.ts:57-71 | walking `p + q` is walking `p`, then `q` |
| JsonText.GetValueAtPath | src/lib/jsonText.ts:56-72 | the loop computes the segment-by-segment walk |
| JsonText.RenderSeg | src/lib/jsonText.ts:47-52 | every segment renders as at least two characters |
| JsonText.UnescapeEscape | src/lib/jsonText.ts:51 | the JSON-quoted body of a segment reads back as the segment |
| JsonText.RenderPathConcat | src/lib/jsonText.ts:45-54 | the rendering of a concatenated path is the concatenation of the renderings |
| JsonText.PathToDisplay | src/lib/jsonText.ts:45-54 | the display is `$` followed by the rendered segments; it starts with `$` and is `$` alone iff the path is empty |
| JsonText.DisplayExtends | src/lib/jsonText.ts:45-54 | one more segment appends exactly its rendering |
| JsonText.DetectEol | src/lib/jsonText.ts:5-8 | CRLF iff the text contains CRLF anywhere, LF otherwise |
| JsonText.DetectEolExamples | src/lib/jsonText.ts:5-8 | a text without carriage returns is LF; a text with a CRLF is CRLF |
| JsonText.FirstRun | src/lib/jsonText.ts:10-21 | the leftmost newline-run-quote match, and no match before it |
| JsonText.DetectIndent | src/lib/jsonText.ts:10-21 | tabs iff a newline, tabs and a quote occur anywhere; otherwise spaces, with a size from 1 to 8 that is the first run's length or 2; two spaces when no tab or space run exists at all |
| JsonText.DetectIndentFirstRun | src/lib/jsonText.ts:10-21 | without a tab run, the first space run decides: its length when it is at most 8, else 2 |
| ShallowEqual.IdenticalEqual | src/store/shallowEqual.ts:3 | identical inputs compare equal |
| ShallowEqual.NonObjectsUnequal | src/store/shallowEqual.ts:4-5 | non-identical inputs where either is null or not an object compare unequal |
| ShallowEqual.KeyCountsDiffer | src/store/shallowEqual.ts:9-11 | records with different key counts compare unequal |
| ShallowEqual.RecordsMeaning | src/store/shallowEqual.ts:9-18 | two distinct records compare equal iff they have the same key set and identical values |
| ShallowEqual.ShallowEqualMeaning | src/store/shallowEqual.ts:2-19 | equal iff identical, or two records with the same key set and identical values |
| ShallowEqual.ShallowEqualSymmetric | src/store/shallowEqual.ts:2-19 | the comparison is symmetric |
| HostFs.RemovePath | src-tauri/src/config/skills.rs:26-38 | a missing path changes nothing; a directory goes with everything under it; a file goes alone; nothing else changes |
| HostFs.JoinName | src-tauri/src/config/skills.rs:40-88 | a plain name joined onto a directory has that directory as parent and that name as file name |
| HostPaths.HomeDir | src-tauri/src/config/paths.rs:4-16 | `HOME` when it is set and not blank, else `USERPROFILE` on the same terms, else the missing-home error |
| HostPaths.ExpandTilde | src-tauri/src/config/paths.rs:19-27 | `~/` and `~\` paths are resolved under the home; a trimmed `~` is the home; any other path is returned unchanged |
| HostPaths.ExpandTildeEnvironment | src-tauri/src/config/paths.rs:19-27 | a non-tilde path never consults the environment; a tilde path depends on it only through the home |
| HostPaths.ExpandTildeUnderHome | src-tauri/src/config/paths.rs:20-22 | with a home, `~/rest` and `~\rest` both give `rest` under the home |
| HostPaths.ExpandTildeAlone | src-tauri/src/config/paths.rs:23-25 | with a home, a `~` padded with blanks gives the home |
| HostPaths.ConfigPath | src-tauri/src/config/paths.rs:30-32 | an error exactly when the home is missing, else `config.json` in the configuration directory |
| HostPaths.ConfigPathShape | src-tauri/src/config/paths.rs:30-32 | the configuration path is the home followed by `/.neovate/config.json` (one separator when the home already ends in one) |
| HostPaths.ConfigPathInfersHome | src-tauri/src/config/paths.rs:30-32 | the UI recovers the home from the configuration path the host reports |
| HostSkills.EntryItemsMeaning | src-tauri/src/config/skills.rs:66-87 | one item per entry whose name does not start with `.`, in listing order, each with source and target under its name and the target's existence |
| HostSkills.SkillsPlan | src-tauri/src/config/skills.rs:40-88 | an error when the source is not a directory; a single directory item named after the source when it holds `SKILL.md`; else the listing error or one item per visible entry |
| HostSkills.PlanCoversListing | src-tauri/src/config/skills.rs:66-87 | every planned item comes from a visible entry, and every visible entry has its item |
| HostSkills.BuildSkillsPlan | src-tauri/src/config/skills.rs:40-88 | the loop builds exactly that plan |
| HostSkills.Step | src-tauri/src/config/skills.rs:97-120 | an existing target is skipped in skip mode, else removed and copied over; a new target is copied; exactly the matching counter goes up |
| HostSkills.MigratedStopsAtError | src-tauri/src/config/skills.rs:97-120 | after the first error nothing more runs |
| HostSkills.MigratedCounts | src-tauri/src/config/skills.rs:90-123 | a successful run counts new targets as copied; existing ones as skipped in skip mode, else replaced; the counts add up to the number of items |
| HostSkills.SkipIgnoresExisting | src-tauri/src/config/skills.rs:101-105 | in skip mode the run leaves the filesystem, and meets the errors, that a run over the new targets alone would |
| HostSkills.ApplyMigrationCore | src-tauri/src/config/skills.rs:90-123 | the loop leaves exactly the filesystem and result of the run |
| HostConfig.ReadConfig | src-tauri/src/config/mod.rs:62-80 | the home error; the template with `exists = false` for a missing file; a read error when a file stands in place of one of its directories; the content for a file; a read error for a directory |
| HostConfig.ReadConfigBlocked | src-tauri/src/config/mod.rs:67-78 | a file at `~/.neovate` makes the read fail with the read error, not report a missing configuration |
| HostConfig.WritePathsDistinct | src-tauri/src/config/mod.rs:95-115 | the configuration, its temporary file and its backup are three different paths |
| HostConfig.ReplaceWithText | src-tauri/src/config/mod.rs:104-118 | the temporary file is written and renamed onto the path, first removing an old file when needed; a failure leaves its stage's error |
| HostConfig.WriteIntoDir | src-tauri/src/config/mod.rs:95-119 | the directory is created, a backup is made only of an existing configuration, and the configuration then holds exactly the content |
| HostConfig.WrittenState | src-tauri/src/config/mod.rs:95-119 | a successful write leaves the configuration, the backup and every other path as stated |
| HostConfig.WriteConfig | src-tauri/src/config/mod.rs:83-120 | the home error, then invalid JSON, are rejected before anything is created; success writes exactly the content (read back as such) and backs up only an existing file; no unrelated path changes |
| HostConfig.InstallBuiltinPlugin | src-tauri/src/config/mod.rs:123-154 | a blank id is rejected; every error changes nothing; an existing destination is never overwritten (`wrote` is false); otherwise the plugin is written and `wrote` is true |
| HostConfig.PlanSkillsMigration | src-tauri/src/config/mod.rs:157-167 | the resolution and plan errors in order; the conflict count is the number of items whose target exists, and is zero iff none does |
| HostConfig.ApplySkillsMigration | src-tauri/src/config/mod.rs:170-195 | a path error, a missing source and an unknown mode all fail before anything is created; a success is the run over the plan after the target directory is created, with its counts |
| SkillsRun.CountPositive | src/hooks/useConfigState.ts:442 | `plan[field] > 0` on the host's object holds only for the field name the host writes, `conflict_count`, and a positive count |
| SkillsRun.PlanRequest | src/hooks/useConfigState.ts:426-431 | no request when either trimmed path is blank; otherwise the request carries both trimmed paths |
| SkillsRun.RunSkillsStep | src/hooks/useConfigState.ts:425-452 | as written: a blank path warns; a failed request reports its error; an empty plan stops; a non-empty plan is always applied in replace mode with the stored paths, and the conflict dialog never opens |
| SkillsRun.ConflictReplacedUnasked | src/hooks/useConfigState.ts:442-447 | a plan whose one target exists is applied in replace mode without the dialog |
| SkillsRun.RunSkillsStepFixed | src/hooks/useConfigState.ts:425-452 | with the count read under the host's name, the dialog opens on a non-empty plan exactly when it reports a conflict, and replace mode runs directly only on a plan without one |
| SkillsRun.FixedAsksBeforeReplacing | src-tauri/src/config/mod.rs:157-167 | with the host's own plan, the corrected run opens the dialog exactly when some planned target exists, and replaces directly only when none does |

## Findings

| source | as written | input that shows it | evidently intended | confidence | as-written member | corrected member |
|---|---|---|---|---|---|---|
| src/hooks/useConfigState.ts:442 | the hook tests `plan.conflictCount > 0`, but the host serializes the plan struct without renaming (src-tauri/src/config/mod.rs:35-39), so the field arrives as `conflict_count` and the test reads `undefined` | a source with skill `a` whose target `a` already exists: the plan has one item and a count of 1, and the run replaces `a` at once | open the conflict dialog whenever the plan reports a conflict | not executed; high, since the struct carries no serde rename and the UI type names the field `conflictCount` | SkillsRun.RunSkillsStep, SkillsRun.ConflictReplacedUnasked | SkillsRun.RunSkillsStepFixed, SkillsRun.FixedAsksBeforeReplacing |

## Left out

- Key order of JSON objects: an object is a map, so the order in which `JSON.stringify` writes keys is not modelled.
- Floating-point numbers, `NaN` and `Number()`: numbers are `int`. The number input's conversion is a parameter (`toNumber`), and the "finite number" test of `pickDesktopDraft` is the number-kind test.
- The internals of `JSON.parse` and `JSON.stringify`: they are parameters. The one property used is that `stringifyConfig` adds a newline.
- Lower-casing in search is ASCII-only. Lengths are counted in characters, not UTF-16 code units.
- A form key set to `undefined` and a missing form key are the same state.
- Inherited JavaScript properties, and arrays passed to `shallowEqual` as objects, are not modelled. Records are maps of own keys.
- Async behaviour is not modelled: the busy flags, cancellation (`cancelled` in the builtin-path effect), and the order in which effects run.
- `localStorage` reads and writes of the skills paths are not modelled.
- The skills UI state is not part of the session class: the plan shown in the dialog, whether the dialog is open, and the busy flag. `SkillsRun` gives the step `runSkillsMigration` takes, and so which of these it sets. `applySkillsMigration` is not modelled beyond that step's request: it only forwards the host's counts or error to a message.
- `applyPathUpdate` (`src/lib/jsonText.ts`) is a wrapper over jsonc-parser and is not part of this model.
- `plugins.rs` is not part of this model. The destination path and the bundled content are parameters of `HostConfig.InstallBuiltinPlugin`.
- The recursive directory copy and the file copy used by skills migration are parameters (`HostSkills.CopyOps`). Their contract with the filesystem is not modelled.
- The directory listing `read_dir` is a parameter of `HostSkills.SkillsPlan`, not derived from the filesystem map.
- Operating-system error texts are replaced by fixed words after the source's own prefixes. Metadata and permission failures, symlinks, and timestamp errors are not modelled.
- Paths are Unix paths with `/` separators. Windows prefixes and the normalization of `.`, `..` and trailing separators inside `Parent` and `FileName` are not modelled.
- The "cannot get the parent directory" error of `write_config` is not modelled: the parent of the configuration path is always the configuration directory.
- ConfigHelpers.PickCommitConfig, ConfigHelpers.NormalizeCommitConfig, ConfigHelpers.PickDesktopDraft, ConfigHelpers.NormalizeDesktopConfig: modelled as functions. The source builds a local object field by field, but only branches and never loops; the result, not the order of the field writes, is what the model states.
- ConfigSession.EnabledPluginsNoDuplicates: the no-duplicate guarantee is proved only when the installed path is recognised against the builtin path known before the call. While that path is still unknown, the source can append an installed path that is already listed, which `ConfigSession.EnabledPluginsDuplicateWhenPathUnknown` exhibits. That duplicate lasts in memory only until the reload that follows the path change (next line).
- ConfigSession.Session.EnableBuiltinNotify, ConfigSession.Session.ResolveBuiltinPath: each is modelled as its own end state. In the source, a change of `builtinNotifyPath` re-creates `syncFromContent` and `reload` (useConfigState.ts:131, 146), and the effect at lines 510-512 then reads the file again. That `Reload` replaces the base and every draft with the file's content, dropping an entry the enable just appended and any unsaved edit. The model does not chain that `Reload` after these methods.
- The live catalog's `agent`, `notification` and `skills` entries come from a schema file that is not part of this model. The transcribed catalog is the one of `src/App.tsx`, and the session takes its catalog as a parameter.
