/** The records exchanged between the settings UI and the host commands
    (src/lib/configTypes.ts on one side, src-tauri/src/config/mod.rs on the other).
    Host paths are strings; the Rust field `exists` is spelled `fileExists` or
    `targetExists` because `exists` is a Dafny keyword. */
module Bridge {
  import opened Wrappers

  /** `read_config`: where the configuration lives, whether it is there, its text. */
  datatype ReadConfigResponse = ReadConfigResponse(path: string, fileExists: bool, content: string)

  /** `write_config`: the path written and the backup made before it, if any. */
  datatype WriteConfigResponse = WriteConfigResponse(path: string, backupPath: Option<string>)

  /** `install_builtin_plugin`: the plugin id, its installed path, and whether the file
      was written by this call. */
  datatype InstallBuiltinPluginResponse = InstallBuiltinPluginResponse(id: string, path: string, wrote: bool)

  /** One skill to migrate. */
  datatype SkillsMigrationItem = SkillsMigrationItem(
    name: string,
    source: string,
    target: string,
    targetExists: bool,
    isDir: bool)

  datatype SkillsMigrationPlan = SkillsMigrationPlan(items: seq<SkillsMigrationItem>, conflictCount: nat)

  datatype SkillsMigrationResult = SkillsMigrationResult(copied: nat, skipped: nat, replaced: nat)
}
