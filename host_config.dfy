/** The host commands of src-tauri/src/config/mod.rs over the modelled filesystem:
    reading and writing the configuration, installing the builtin plugin, and planning
    and applying a skills migration. Each command returns the filesystem it leaves
    together with its result. */
module HostConfig {
  import opened Wrappers
  import opened Text
  import opened Seqs
  import opened HostFs
  import opened HostPaths
  import opened HostSkills
  import opened Bridge

  /** The text reported for a configuration that does not exist yet. */
  const ConfigTemplate := "{\n}\n"

  const ReadFailedPrefix := "读取配置失败："
  const NotJsonPrefix := "配置不是合法 JSON："
  const CreateConfigDirFailedPrefix := "创建配置目录失败："
  const BackupFailedPrefix := "备份配置失败："
  const WriteTmpFailedPrefix := "写入临时配置失败："
  const RemoveOldFailedPrefix := "替换配置失败（删除旧文件失败）："
  const RenameFailedPrefix := "替换配置失败（重命名失败）："
  const BlankPluginId := "内置插件 id 不能为空"
  const CreatePluginDirFailedPrefix := "创建插件目录失败："
  const NoPluginParent := "插件路径不合法（无法获取父目录）"
  const SourceMissing := "源目录不存在"
  const BadMode := "无效的迁移模式（仅支持 replace/skip）"
  const CreateTargetFailedPrefix := "创建目标目录失败："

  // ---------------------------------------------------------------------------
  // read_config / write_config
  // ---------------------------------------------------------------------------

  /** A file stands where one of the directories above `p` should be, so opening `p`
      fails with "not a directory" rather than "not found". */
  predicate BlockedByFile(fs: Fs, p: string)
  {
    exists a :: a in Ancestors(p) && a != p && IsFile(fs, a)
  }

  /** `read_config`: a missing file is reported as absent with the template text; a
      file is read; anything else at that path, or a file in place of one of its
      directories, is an error. */
  function ReadConfig(env: Env, fs: Fs): (r: Result<ReadConfigResponse>)
    ensures ConfigPath(env).Err? ==> r == Err(HomeMissing)
    ensures ConfigPath(env).Ok? && ConfigPath(env).value !in fs && !BlockedByFile(fs, ConfigPath(env).value) ==>
      r == Ok(ReadConfigResponse(ConfigPath(env).value, false, ConfigTemplate))
    ensures ConfigPath(env).Ok? && ConfigPath(env).value !in fs && BlockedByFile(fs, ConfigPath(env).value) ==>
      r.Err? && StartsWith(r.error, ReadFailedPrefix)
    ensures ConfigPath(env).Ok? && IsFile(fs, ConfigPath(env).value) ==>
      r == Ok(ReadConfigResponse(ConfigPath(env).value, true, fs[ConfigPath(env).value].content))
    ensures ConfigPath(env).Ok? && IsDir(fs, ConfigPath(env).value) ==>
      r.Err? && StartsWith(r.error, ReadFailedPrefix)
  {
    match ConfigPath(env)
    case Err(e) => Err(e)
    case Ok(path) =>
      if path !in fs then
        if BlockedByFile(fs, path) then Err(ReadFailedPrefix + "not a directory")
        else Ok(ReadConfigResponse(path, false, ConfigTemplate))
      else match fs[path]
        case File(content) => Ok(ReadConfigResponse(path, true, content))
        case Dir => Err(ReadFailedPrefix + "is a directory")
  }

  /** A file at the configuration directory's place (so no configuration below it)
      makes the read fail instead of reporting a missing configuration. */
  lemma ReadConfigBlocked(env: Env, fs: Fs)
    requires HomeDir(env).Ok? && !EndsWith(HomeDir(env).value, "/")
    requires IsFile(fs, HomeDir(env).value + "/.neovate")
    requires HomeDir(env).value + "/.neovate/config.json" !in fs
    ensures ReadConfig(env, fs).Err? && StartsWith(ReadConfig(env, fs).error, ReadFailedPrefix)
  {
    var home := HomeDir(env).value;
    var path := ConfigPath(env).value;
    ConfigPathShape(env);
    var i := |home| + |"/.neovate"|;
    assert path == (home + "/.neovate") + "/config.json";
    assert path[i] == '/' && path[..i] == home + "/.neovate";
    assert path[..i] in Ancestors(path);
  }

  /** The backup `write_config` makes of an existing configuration. */
  function BackupName(timestamp: nat): string
  {
    "config.json.bak-" + NatToString(timestamp)
  }

  /** The three paths `write_config` uses in the configuration directory are
      distinct. */
  lemma WritePathsDistinct(dir: string, timestamp: nat)
    requires dir != "" && !EndsWith(dir, "/")
    ensures Join(dir, "config.json") != Join(dir, "config.json.tmp")
    ensures Join(dir, "config.json") != Join(dir, BackupName(timestamp))
    ensures Join(dir, "config.json.tmp") != Join(dir, BackupName(timestamp))
  {
    var backupName := BackupName(timestamp);
    assert backupName[..1] == "c";
    assert "config.json.tmp"[..1] == "c";
    assert "config.json"[..1] == "c";
    var path := Join(dir, "config.json");
    var tmp := Join(dir, "config.json.tmp");
    var backup := Join(dir, backupName);
    assert path == dir + "/" + "config.json";
    assert tmp == dir + "/" + "config.json.tmp";
    assert backup == dir + "/" + backupName;
    assert |path| < |tmp| && |path| < |backup|;
    assert tmp[|dir| + 13] == "config.json.tmp"[12] == 't';
    assert backup[|dir| + 13] == backupName[12] == 'b';
  }

  /** Paths `write_config` leaves as they were on success. */
  predicate Spared(q: string, path: string, tmp: string, backupPath: Option<string>)
  {
    q != path && q != tmp && (backupPath.None? || q != backupPath.value)
  }

  /** The last steps of `write_config`: the text is written to the temporary file,
      the old configuration (if any) is removed, and the temporary file is renamed
      onto it. On success the temporary file is gone and the configuration holds the
      text; nothing else changes. */
  method ReplaceWithText(fs0: Fs, path: string, tmp: string, content: string)
    returns (fs: Fs, failure: Option<string>)
    requires path != tmp
    ensures failure.None? ==> fs == (fs0 - {tmp})[path := File(content)]
    ensures failure.Some? ==>
      StartsWith(failure.value, WriteTmpFailedPrefix) || StartsWith(failure.value, RemoveOldFailedPrefix) ||
      StartsWith(failure.value, RenameFailedPrefix)
  {
    fs := fs0;
    failure := None;
    var written := WriteFile(fs, tmp, content);
    if written.Err? {
      return fs, Some(WriteTmpFailedPrefix + written.error);
    }
    fs := written.value;
    if path in fs {
      var removed := RemoveFile(fs, path);
      if removed.Err? {
        return fs, Some(RemoveOldFailedPrefix + removed.error);
      }
      fs := removed.value;
    }
    var moved := Rename(fs, tmp, path);
    if moved.Err? {
      return fs, Some(RenameFailedPrefix + moved.error);
    }
    fs := moved.value;
  }

  /** `write_config` with the JSON validator (`serde_json::from_str`, giving its error
      message for a text that does not parse) and the clock as parameters.
      - Without a home, or for a text that does not parse, nothing is touched.
      - An existing configuration is first copied to a timestamped backup, and only
        then does `backup_path` name it.
      - The text goes to a temporary file that then replaces the configuration, so on
        success the configuration holds exactly the text and reads back as it. */
  method WriteConfig(env: Env, fs0: Fs, content: string, validate: string -> Option<string>, timestamp: nat)
    returns (fs: Fs, r: Result<WriteConfigResponse>)
    ensures HomeDir(env).Err? ==> fs == fs0 && r == Err(HomeMissing)
    ensures HomeDir(env).Ok? && validate(content).Some? ==>
      fs == fs0 && r == Err(NotJsonPrefix + validate(content).value)
    ensures r.Ok? ==> HomeDir(env).Ok? && validate(content).None?
    ensures r.Ok? ==> r.value.path == ConfigPath(env).value && r.value.path in fs && fs[r.value.path] == File(content)
    ensures r.Ok? ==> (r.value.backupPath.Some? <==> r.value.path in fs0)
    ensures r.Ok? && r.value.backupPath.Some? ==>
      r.value.backupPath.value == Join(ConfigDir(env).value, BackupName(timestamp)) &&
      r.value.backupPath.value in fs && fs[r.value.backupPath.value] == fs0[r.value.path]
    ensures r.Ok? ==> ReadConfig(env, fs) == Ok(ReadConfigResponse(r.value.path, true, content))
    ensures r.Ok? ==> forall q :: q in fs0 && Spared(q, r.value.path, Join(ConfigDir(env).value, "config.json.tmp"), r.value.backupPath) ==>
      q in fs && fs[q] == fs0[q]
  {
    fs := fs0;
    var dirResult := ConfigDir(env);
    if dirResult.Err? {
      return fs, Err(dirResult.error);
    }
    var dir := dirResult.value;
    ConfigDirShape(HomeDir(env).value);
    var invalid := validate(content);
    if invalid.Some? {
      return fs, Err(NotJsonPrefix + invalid.value);
    }
    fs, r := WriteIntoDir(fs, dir, content, timestamp);
    if r.Ok? {
      WrittenState(fs0, dir, content, timestamp);
      assert ConfigPath(env) == Ok(r.value.path);
    }
  }

  /** What a successful write leaves: the configuration holds the text, the backup (if
      one was due) holds the old configuration, and every other existing path is
      kept. */
  lemma WrittenState(fs0: Fs, dir: string, content: string, timestamp: nat)
    requires dir != "" && !EndsWith(dir, "/")
    requires CreateDirAll(fs0, dir).Ok?
    ensures var path := Join(dir, "config.json");
      var backup := Join(dir, BackupName(timestamp));
      var tmp := Join(dir, "config.json.tmp");
      var fs := (BackedUp(CreateDirAll(fs0, dir).value, path, backup) - {tmp})[path := File(content)];
      path in fs && fs[path] == File(content) &&
      (path in fs0 ==> backup in fs && fs[backup] == fs0[path]) &&
      forall q :: q in fs0 && Spared(q, path, tmp, if path in fs0 then Some(backup) else None) ==>
        q in fs && fs[q] == fs0[q]
  {
    var path := Join(dir, "config.json");
    WritePathsDistinct(dir, timestamp);
    CreateDirAllShort(fs0, dir, path);
  }

  /** The configuration with a backup of itself, when there is one to back up. */
  function BackedUp(fs: Fs, path: string, backup: string): Fs
  {
    if path in fs then fs[backup := fs[path]] else fs
  }

  /** `write_config` once the text has been checked: the directory is created, an
      existing configuration is backed up, and the text replaces it through the
      temporary file. */
  method WriteIntoDir(fs0: Fs, dir: string, content: string, timestamp: nat)
    returns (fs: Fs, r: Result<WriteConfigResponse>)
    requires dir != "" && !EndsWith(dir, "/")
    ensures r.Ok? ==>
      var path := Join(dir, "config.json");
      var backup := Join(dir, BackupName(timestamp));
      CreateDirAll(fs0, dir).Ok? &&
      r.value == WriteConfigResponse(path, if path in fs0 then Some(backup) else None) &&
      fs == (BackedUp(CreateDirAll(fs0, dir).value, path, backup) - {Join(dir, "config.json.tmp")})[path := File(content)]
  {
    fs := fs0;
    var path := Join(dir, "config.json");
    var made := CreateDirAll(fs, dir);
    if made.Err? {
      return fs, Err(CreateConfigDirFailedPrefix + made.error);
    }
    fs := made.value;
    CreateDirAllShort(fs0, dir, path);
    var tmp := Join(dir, "config.json.tmp");
    var backup := Join(dir, BackupName(timestamp));
    WritePathsDistinct(dir, timestamp);
    var backupPath: Option<string> := None;
    if path in fs {
      var copied := CopyFile(fs, path, backup);
      if copied.Err? {
        return fs, Err(BackupFailedPrefix + copied.error);
      }
      fs := copied.value;
      backupPath := Some(backup);
    }
    var staged, failure := ReplaceWithText(fs, path, tmp, content);
    fs := staged;
    if failure.Some? {
      return fs, Err(failure.value);
    }
    r := Ok(WriteConfigResponse(path, backupPath));
  }

  // ---------------------------------------------------------------------------
  // install_builtin_plugin
  // ---------------------------------------------------------------------------

  /** `install_builtin_plugin` with the plugin table of src-tauri/src/config/plugins.rs
      (where a plugin goes, and its text) as parameters.
      - A blank id is refused before anything else.
      - Every failure leaves the filesystem as it was.
      - An existing file is never overwritten: `wrote` is false and the file keeps
        its content; otherwise the plugin's text is written and `wrote` is true. */
  method InstallBuiltinPlugin(fs0: Fs, id: string, destPath: string -> Result<string>,
                              pluginContent: string -> Result<string>)
    returns (fs: Fs, r: Result<InstallBuiltinPluginResponse>)
    ensures RustTrim(id) == "" ==> fs == fs0 && r == Err(BlankPluginId)
    ensures r.Err? ==> fs == fs0
    ensures r.Ok? ==> RustTrim(id) != "" && destPath(RustTrim(id)).Ok? && pluginContent(RustTrim(id)).Ok?
    ensures r.Ok? ==> r.value.id == RustTrim(id) && r.value.path == destPath(RustTrim(id)).value
    ensures r.Ok? ==> (r.value.wrote <==> r.value.path !in fs0)
    ensures r.Ok? && !r.value.wrote ==> r.value.path in fs && fs[r.value.path] == fs0[r.value.path]
    ensures r.Ok? && r.value.wrote ==> r.value.path in fs && fs[r.value.path] == File(pluginContent(RustTrim(id)).value)
    ensures r.Ok? ==> forall q :: q in fs0 ==> q in fs && (q != r.value.path ==> fs[q] == fs0[q])
  {
    fs := fs0;
    var key := RustTrim(id);
    if key == "" {
      return fs, Err(BlankPluginId);
    }
    var dest := destPath(key);
    if dest.Err? {
      return fs, Err(dest.error);
    }
    var content := pluginContent(key);
    if content.Err? {
      return fs, Err(content.error);
    }
    var parent := Parent(dest.value);
    if parent.None? {
      return fs, Err(NoPluginParent);
    }
    var made := CreateDirAll(fs, parent.value);
    if made.Err? {
      return fs, Err(CreatePluginDirFailedPrefix + made.error);
    }
    ParentShorter(dest.value);
    CreateDirAllShort(fs0, parent.value, dest.value);
    fs := made.value;
    if dest.value in fs {
      return fs, Ok(InstallBuiltinPluginResponse(key, dest.value, false));
    }
    fs := fs[dest.value := File(content.value)];
    r := Ok(InstallBuiltinPluginResponse(key, dest.value, true));
  }

  // ---------------------------------------------------------------------------
  // plan_skills_migration / apply_skills_migration
  // ---------------------------------------------------------------------------

  /** A path argument as the commands take it: trimmed, then `~`-expanded. */
  function Resolved(env: Env, path: string): Result<string>
  {
    ExpandTilde(RustTrim(path), env)
  }

  /** `plan_skills_migration`: both paths are resolved, the source must exist, and the
      conflict count is the number of items whose target already exists. */
  function PlanSkillsMigration(env: Env, fs: Fs, sourcePath: string, targetPath: string,
                               listing: Result<seq<string>>): (r: Result<SkillsMigrationPlan>)
    ensures Resolved(env, sourcePath).Err? ==> r == Err(Resolved(env, sourcePath).error)
    ensures Resolved(env, sourcePath).Ok? && Resolved(env, targetPath).Err? ==>
      r == Err(Resolved(env, targetPath).error)
    ensures Resolved(env, sourcePath).Ok? && Resolved(env, targetPath).Ok? && Resolved(env, sourcePath).value !in fs ==>
      r == Err(SourceMissing)
    ensures r.Ok? ==>
      SkillsPlan(fs, Resolved(env, sourcePath).value, Resolved(env, targetPath).value, listing) == Ok(r.value.items)
    ensures r.Ok? ==> r.value.conflictCount == Count(r.value.items, Existing) <= |r.value.items|
    ensures r.Ok? ==> (r.value.conflictCount == 0 <==>
      forall i :: 0 <= i < |r.value.items| ==> !r.value.items[i].targetExists)
  {
    match Resolved(env, sourcePath)
    case Err(e) => Err(e)
    case Ok(source) =>
      match Resolved(env, targetPath)
      case Err(e) => Err(e)
      case Ok(target) =>
        if source !in fs then Err(SourceMissing)
        else match SkillsPlan(fs, source, target, listing)
          case Err(e) => Err(e)
          case Ok(items) =>
            CountZero(items, Existing);
            Ok(SkillsMigrationPlan(items, Count(items, Existing)))
  }

  /** A mode `apply_skills_migration` accepts, once trimmed. */
  predicate KnownMode(mode: string)
  {
    RustTrim(mode) == "replace" || RustTrim(mode) == "skip"
  }

  /** `apply_skills_migration`.
      - A path that cannot be resolved, a missing source or an unknown mode is an
        error before anything is created.
      - Otherwise the target directory is created, the plan is built against the
        filesystem as it now is, and the plan is carried out; a successful run
        accounts for every item, with nothing replaced in skip mode and nothing
        skipped in replace mode. */
  method ApplySkillsMigration(env: Env, fs0: Fs, sourcePath: string, targetPath: string, mode: string,
                              listing: Result<seq<string>>, ops: CopyOps)
    returns (fs: Fs, r: Result<SkillsMigrationResult>)
    ensures Resolved(env, sourcePath).Err? || Resolved(env, targetPath).Err? ==> fs == fs0 && r.Err?
    ensures Resolved(env, sourcePath).Ok? && Resolved(env, targetPath).Ok? && Resolved(env, sourcePath).value !in fs0 ==>
      fs == fs0 && r == Err(SourceMissing)
    ensures Resolved(env, sourcePath).Ok? && Resolved(env, targetPath).Ok? && Resolved(env, sourcePath).value in fs0 &&
            !KnownMode(mode) ==>
      fs == fs0 && r == Err(BadMode)
    ensures r.Ok? ==> KnownMode(mode) && Resolved(env, sourcePath).Ok? && Resolved(env, targetPath).Ok?
    ensures r.Ok? ==>
      var target := Resolved(env, targetPath).value;
      var created := CreateDirAll(fs0, target);
      created.Ok? &&
      var plan := SkillsPlan(created.value, Resolved(env, sourcePath).value, target, listing);
      plan.Ok? &&
      (fs, r) == Migrated(created.value, plan.value, RustTrim(mode) == "skip", ops) &&
      r.value.copied + r.value.skipped + r.value.replaced == |plan.value| &&
      r.value.copied == Count(plan.value, Fresh) &&
      (RustTrim(mode) == "skip" ==> r.value.replaced == 0 && r.value.skipped == Count(plan.value, Existing)) &&
      (RustTrim(mode) == "replace" ==> r.value.skipped == 0 && r.value.replaced == Count(plan.value, Existing))
  {
    fs := fs0;
    var source := Resolved(env, sourcePath);
    if source.Err? {
      return fs, Err(source.error);
    }
    var target := Resolved(env, targetPath);
    if target.Err? {
      return fs, Err(target.error);
    }
    if source.value !in fs {
      return fs, Err(SourceMissing);
    }
    var trimmedMode := RustTrim(mode);
    if trimmedMode != "replace" && trimmedMode != "skip" {
      return fs, Err(BadMode);
    }
    var created := CreateDirAll(fs, target.value);
    if created.Err? {
      return fs, Err(CreateTargetFailedPrefix + created.error);
    }
    fs := created.value;
    var plan := BuildSkillsPlan(fs, source.value, target.value, listing);
    if plan.Err? {
      return fs, Err(plan.error);
    }
    fs, r := ApplyMigrationCore(fs, plan.value, trimmedMode, ops);
    if r.Ok? {
      MigratedCounts(created.value, plan.value, trimmedMode == "skip", ops);
    }
  }
}
