/** The settings catalog: one descriptor per recognised configuration key, in display
    order, plus the search filter over it and the kind labels shown next to each entry.
    The catalog of the final revision lives in a schema file that is not part of this
    model, so the operations take the catalog as a parameter; the catalog of the earlier
    revision in src/App.tsx is transcribed as `AppCatalog`. */
module Catalog {
  import opened Wrappers
  import opened Text
  import opened Seqs

  datatype SettingKind = Enum | Boolean | String | Number | Complex

  datatype SettingDef = SettingDef(
    key: string,
    kind: SettingKind,
    title: string,
    description: string,
    defaultHint: string,
    options: Option<seq<string>>)

  /** Every key appears at most once. */
  predicate UniqueKeys(defs: seq<SettingDef>)
  {
    forall i, j :: 0 <= i < j < |defs| ==> defs[i].key != defs[j].key
  }

  /** Enum entries, and only they, carry a list of options. */
  predicate OptionsExactlyOnEnums(defs: seq<SettingDef>)
  {
    forall i :: 0 <= i < |defs| ==> (defs[i].kind == Enum <==> defs[i].options.Some?)
  }

  /** The descriptor of `key`, if the catalog has one. */
  function Lookup(defs: seq<SettingDef>, key: string): (r: Option<SettingDef>)
    ensures r.Some? ==> r.value in defs && r.value.key == key
    ensures r.None? ==> forall i :: 0 <= i < |defs| ==> defs[i].key != key
  {
    if defs == [] then None
    else if defs[|defs| - 1].key == key then Some(defs[|defs| - 1])
    else Lookup(defs[..|defs| - 1], key)
  }

  /** A key the flat form edits: in the catalog with a kind other than `complex`. */
  predicate IsScalarKey(defs: seq<SettingDef>, key: string)
  {
    Lookup(defs, key).Some? && Lookup(defs, key).value.kind != Complex
  }

  /** With unique keys, the descriptor found for the key of any entry is that entry. */
  lemma LookupUnique(defs: seq<SettingDef>, i: nat)
    requires UniqueKeys(defs) && i < |defs|
    ensures Lookup(defs, defs[i].key) == Some(defs[i])
  {
    var r := Lookup(defs, defs[i].key);
    assert r.value in defs;
  }

  /** The catalog of src/App.tsx, entry by entry, in its order. */
  const DefApprovalMode: SettingDef :=
    SettingDef("approvalMode", Enum, "approvalMode",
      "审批模式。",
      "\"default\"", Some(["autoEdit", "yolo", "default"]))

  const DefAutoCompact: SettingDef :=
    SettingDef("autoCompact", Boolean, "autoCompact",
      "是否启用自动压缩；关闭后对话历史会累积，可能超出上下文限制。",
      "true", None)

  const DefAutoUpdate: SettingDef :=
    SettingDef("autoUpdate", Boolean, "autoUpdate",
      "是否启用自动更新。",
      "true", None)

  const DefBrowser: SettingDef :=
    SettingDef("browser", Boolean, "browser",
      "是否启用浏览器 MCP 集成。",
      "false", None)

  const DefCommit: SettingDef :=
    SettingDef("commit", Complex, "commit",
      "提交信息生成配置（language / systemPrompt / model）。",
      "{ language: \"en\" }", None)

  const DefDesktop: SettingDef :=
    SettingDef("desktop", Complex, "desktop",
      "桌面应用配置（仅全局可用）。",
      "{ theme: \"light\", sendMessageWith: \"enter\" }", None)

  const DefExtensions: SettingDef :=
    SettingDef("extensions", Complex, "extensions",
      "第三方自定义 agent 扩展配置，允许任意嵌套。",
      "{}", None)

  const DefHttpProxy: SettingDef :=
    SettingDef("httpProxy", String, "httpProxy",
      "网络请求使用的 HTTP 代理地址。",
      "null", None)

  const DefLanguage: SettingDef :=
    SettingDef("language", String, "language",
      "界面与回复语言。",
      "\"English\"", None)

  const DefMcpServers: SettingDef :=
    SettingDef("mcpServers", Complex, "mcpServers",
      "MCP 服务器配置（stdio / sse / http）。",
      "{}", None)

  const DefModel: SettingDef :=
    SettingDef("model", String, "model",
      "默认模型（provider_id/model_id）。",
      "null", None)

  const DefOutputFormat: SettingDef :=
    SettingDef("outputFormat", Enum, "outputFormat",
      "CLI 输出格式。",
      "\"text\"", Some(["text", "stream-json", "json"]))

  const DefOutputStyle: SettingDef :=
    SettingDef("outputStyle", String, "outputStyle",
      "输出风格。",
      "\"Default\"", None)

  const DefPlanModel: SettingDef :=
    SettingDef("planModel", String, "planModel",
      "规划模型（provider_id/model_id）。",
      "与 model 相同", None)

  const DefPlugins: SettingDef :=
    SettingDef("plugins", Complex, "plugins",
      "启用的插件列表。",
      "[]", None)

  const DefProvider: SettingDef :=
    SettingDef("provider", Complex, "provider",
      "自定义 provider 配置，用于覆盖默认 provider 设置。",
      "{}", None)

  const DefQuiet: SettingDef :=
    SettingDef("quiet", Boolean, "quiet",
      "是否抑制非必要输出。",
      "false", None)

  const DefSmallModel: SettingDef :=
    SettingDef("smallModel", String, "smallModel",
      "轻量任务使用的小模型（provider_id/model_id）。",
      "与 model 相同", None)

  const DefSystemPrompt: SettingDef :=
    SettingDef("systemPrompt", String, "systemPrompt",
      "系统提示词。",
      "null", None)

  const DefTemperature: SettingDef :=
    SettingDef("temperature", Number, "temperature",
      "模型温度参数。",
      "null", None)

  const DefTodo: SettingDef :=
    SettingDef("todo", Boolean, "todo",
      "是否启用 todo 功能。",
      "true", None)

  const DefTools: SettingDef :=
    SettingDef("tools", Complex, "tools",
      "工具开关配置（将某个工具设为 false 可禁用）。",
      "{}", None)

  const DefVisionModel: SettingDef :=
    SettingDef("visionModel", String, "visionModel",
      "图像相关任务使用的视觉模型（provider_id/model_id）。",
      "与 model 相同", None)

  const AppCatalog: seq<SettingDef> := [
    DefApprovalMode, DefAutoCompact, DefAutoUpdate, DefBrowser,
    DefCommit, DefDesktop, DefExtensions, DefHttpProxy,
    DefLanguage, DefMcpServers, DefModel, DefOutputFormat,
    DefOutputStyle, DefPlanModel, DefPlugins, DefProvider,
    DefQuiet, DefSmallModel, DefSystemPrompt, DefTemperature,
    DefTodo, DefTools, DefVisionModel
  ]

  /** The key's first three characters and its length folded into one number, which
      grows along `AppCatalog` (a key of fewer than three characters maps to 0). */
  function Rank(key: string): int
  {
    if |key| < 3 then 0 else (key[0] as int * 1000 + key[1] as int) * 1000 + key[2] as int + 100 - |key|
  }

  /** Keys whose ranks strictly increase along the sequence. */
  predicate RanksAscend(defs: seq<SettingDef>)
  {
    forall i :: 0 < i < |defs| ==> Rank(defs[i - 1].key) < Rank(defs[i].key)
  }

  lemma {:induction false} AscendingBetween(defs: seq<SettingDef>, i: int, j: int)
    requires RanksAscend(defs)
    requires 0 <= i < j < |defs|
    ensures Rank(defs[i].key) < Rank(defs[j].key)
    decreases j - i
  {
    if i + 1 < j {
      AscendingBetween(defs, i + 1, j);
    }
  }

  lemma AscendingUnique(defs: seq<SettingDef>)
    requires RanksAscend(defs)
    ensures UniqueKeys(defs)
  {
    forall i, j | 0 <= i < j < |defs| ensures defs[i].key != defs[j].key {
      AscendingBetween(defs, i, j);
    }
  }

  lemma AppCatalogRanks1()
    ensures Rank(DefApprovalMode.key) == 97112200
    ensures Rank(DefAutoCompact.key) == 97117205
    ensures Rank(DefAutoUpdate.key) == 97117206
    ensures Rank(DefBrowser.key) == 98114204
    ensures Rank(DefCommit.key) == 99111203
    ensures Rank(DefDesktop.key) == 100101208
  {
  }

  lemma AppCatalogRanks2()
    ensures Rank(DefExtensions.key) == 101120206
    ensures Rank(DefHttpProxy.key) == 104116207
    ensures Rank(DefLanguage.key) == 108097202
    ensures Rank(DefMcpServers.key) == 109099202
    ensures Rank(DefModel.key) == 109111195
    ensures Rank(DefOutputFormat.key) == 111117204
  {
  }

  lemma AppCatalogRanks3()
    ensures Rank(DefOutputStyle.key) == 111117205
    ensures Rank(DefPlanModel.key) == 112108188
    ensures Rank(DefPlugins.key) == 112108210
    ensures Rank(DefProvider.key) == 112114203
    ensures Rank(DefQuiet.key) == 113117200
    ensures Rank(DefSmallModel.key) == 115109187
  {
  }

  lemma AppCatalogRanks4()
    ensures Rank(DefSystemPrompt.key) == 115121203
    ensures Rank(DefTemperature.key) == 116101198
    ensures Rank(DefTodo.key) == 116111196
    ensures Rank(DefTools.key) == 116111206
    ensures Rank(DefVisionModel.key) == 118105204
  {
  }

  lemma AppCatalogAscends()
    ensures RanksAscend(AppCatalog)
  {
    AppCatalogRanks1();
    AppCatalogRanks2();
    AppCatalogRanks3();
    AppCatalogRanks4();
  }

  lemma AppCatalogKeysUnique()
    ensures UniqueKeys(AppCatalog)
  {
    AppCatalogAscends();
    AscendingUnique(AppCatalog);
  }

  lemma AppCatalogOptions()
    ensures |AppCatalog| == 23
    ensures OptionsExactlyOnEnums(AppCatalog)
  {
  }

  /** The label shown next to each entry. */
  function KindLabel(kind: SettingKind): string
  {
    match kind
    case Enum => "枚举"
    case Boolean => "布尔"
    case String => "字符串"
    case Number => "数字"
    case Complex => "复杂对象"
  }

  /** The five kinds get five different labels. */
  lemma KindLabelInjective(a: SettingKind, b: SettingKind)
    ensures KindLabel(a) == KindLabel(b) ==> a == b
  {
  }

  /** The lower-cased text a search keyword is looked for in: key, title, description,
      default hint and the options joined by spaces. */
  function Haystack(d: SettingDef): string
  {
    var options := if d.options.Some? then JoinWith(d.options.value, " ") else "";
    Lower(d.key + " " + d.title + " " + d.description + " " + d.defaultHint + " " + options)
  }

  function SearchKeyword(searchText: string): string
  {
    Lower(JsTrim(searchText))
  }

  /** `filteredSettings`: the whole catalog for a blank keyword, otherwise the entries
      whose haystack contains the lower-cased trimmed keyword. */
  function FilterSettings(defs: seq<SettingDef>, searchText: string): seq<SettingDef>
  {
    var keyword := SearchKeyword(searchText);
    if keyword == "" then defs else Filter(defs, (d: SettingDef) => Contains(Haystack(d), keyword))
  }

  /** A blank or whitespace-only search shows every entry; any other search shows
      exactly the entries that mention the keyword. */
  lemma FilterSettingsSpec(defs: seq<SettingDef>, searchText: string)
    ensures AllSpace(searchText, IsJsSpace) ==> FilterSettings(defs, searchText) == defs
    ensures !AllSpace(searchText, IsJsSpace) ==>
      forall d :: d in FilterSettings(defs, searchText) <==>
        d in defs && Contains(Haystack(d), SearchKeyword(searchText))
  {
    TrimEmptyIff(searchText, IsJsSpace);
    var keyword := SearchKeyword(searchText);
    if keyword != "" {
      forall d ensures d in FilterSettings(defs, searchText) <==>
        d in defs && Contains(Haystack(d), keyword)
      {
        FilterMembership(defs, (d: SettingDef) => Contains(Haystack(d), keyword), d);
      }
    }
  }

  /** Searching a concatenation gives the concatenation of the searches: the result
      lists its entries in catalog order. */
  lemma FilterSettingsConcat(a: seq<SettingDef>, b: seq<SettingDef>, searchText: string)
    ensures FilterSettings(a + b, searchText) == FilterSettings(a, searchText) + FilterSettings(b, searchText)
  {
    var keyword := SearchKeyword(searchText);
    if keyword != "" {
      FilterConcat(a, b, (d: SettingDef) => Contains(Haystack(d), keyword));
    }
  }
}
