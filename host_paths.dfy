/** src-tauri/src/config/paths.rs: the home directory from the environment, `~`
    expansion, and the configuration file's location. */
module HostPaths {
  import opened Wrappers
  import opened Text
  import opened HostFs
  import ConfigHelpers

  /** The process environment; a missing variable is a missing key. */
  type Env = map<string, string>

  const HomeMissing := "无法定位用户主目录（缺少 HOME/USERPROFILE 环境变量）"

  /** A variable that is set and not blank. */
  predicate Usable(env: Env, name: string)
  {
    name in env && !AllSpace(env[name], IsRustSpace)
  }

  /** `home_dir`: `HOME` unless it is missing or blank, then `USERPROFILE` on the same
      terms, else an error. The value is returned untrimmed. */
  function HomeDir(env: Env): (r: Result<string>)
    ensures Usable(env, "HOME") ==> r == Ok(env["HOME"])
    ensures !Usable(env, "HOME") && Usable(env, "USERPROFILE") ==> r == Ok(env["USERPROFILE"])
    ensures !Usable(env, "HOME") && !Usable(env, "USERPROFILE") ==> r == Err(HomeMissing)
    ensures r.Ok? ==> !AllSpace(r.value, IsRustSpace)
  {
    UsableTrimmed(env, "HOME");
    UsableTrimmed(env, "USERPROFILE");
    if "HOME" in env && RustTrim(env["HOME"]) != "" then Ok(env["HOME"])
    else if "USERPROFILE" in env && RustTrim(env["USERPROFILE"]) != "" then Ok(env["USERPROFILE"])
    else Err(HomeMissing)
  }

  lemma UsableTrimmed(env: Env, name: string)
    ensures Usable(env, name) <==> name in env && RustTrim(env[name]) != ""
  {
    if name in env {
      TrimEmptyIff(env[name], IsRustSpace);
    }
  }

  /** A path `expand_tilde` rewrites: `~/…`, `~\…`, or `~` with blanks around it. */
  predicate TildePath(path: string)
  {
    StartsWith(path, "~/") || StartsWith(path, "~\\") || RustTrim(path) == "~"
  }

  /** `expand_tilde`. Only a tilde path consults the environment, so the home lookup
      and its error never arise for any other path. */
  function ExpandTilde(path: string, env: Env): (r: Result<string>)
    ensures (StartsWith(path, "~/") || StartsWith(path, "~\\")) ==>
      r == match HomeDir(env) case Ok(home) => Ok(Join(home, path[2..])) case Err(e) => Err(e)
    ensures !StartsWith(path, "~/") && !StartsWith(path, "~\\") && RustTrim(path) == "~" ==>
      r == HomeDir(env)
    ensures !TildePath(path) ==> r == Ok(path)
  {
    if StartsWith(path, "~/") || StartsWith(path, "~\\") then
      match HomeDir(env)
      case Ok(home) => Ok(Join(home, path[2..]))
      case Err(e) => Err(e)
    else if RustTrim(path) == "~" then HomeDir(env)
    else Ok(path)
  }

  /** Expansion does not depend on the environment for a path that is not a tilde
      path, and depends on it only through the home directory otherwise. */
  lemma ExpandTildeEnvironment(path: string, env1: Env, env2: Env)
    ensures !TildePath(path) ==> ExpandTilde(path, env1) == ExpandTilde(path, env2) == Ok(path)
    ensures HomeDir(env1) == HomeDir(env2) ==> ExpandTilde(path, env1) == ExpandTilde(path, env2)
  {
  }

  /** With a known home, `~/rest` and `~\rest` both name `rest` under the home. */
  lemma ExpandTildeUnderHome(env: Env, rest: string)
    requires HomeDir(env).Ok?
    ensures ExpandTilde("~/" + rest, env) == Ok(Join(HomeDir(env).value, rest))
    ensures ExpandTilde("~\\" + rest, env) == Ok(Join(HomeDir(env).value, rest))
  {
    assert ("~/" + rest)[..2] == "~/" && ("~/" + rest)[2..] == rest;
    assert ("~\\" + rest)[..2] == "~\\" && ("~\\" + rest)[2..] == rest;
  }

  /** With a known home, a `~` with blanks around it names the home itself. */
  lemma ExpandTildeAlone(env: Env, pad1: string, pad2: string)
    requires HomeDir(env).Ok?
    requires AllSpace(pad1, IsRustSpace) && AllSpace(pad2, IsRustSpace)
    ensures ExpandTilde(pad1 + "~" + pad2, env) == HomeDir(env)
  {
    var p := pad1 + "~" + pad2;
    TrimOfPadded(pad1, "~", pad2);
    if |pad1| > 0 {
      assert p[0] == pad1[0];
    } else if |pad2| > 0 {
      assert p[1] == pad2[0];
    }
    assert !StartsWith(p, "~/") && !StartsWith(p, "~\\");
  }

  /** Trimming a word padded with whitespace gives the word back. */
  lemma TrimOfPadded(pad1: string, word: string, pad2: string)
    requires AllSpace(pad1, IsRustSpace) && AllSpace(pad2, IsRustSpace)
    requires Unpadded(word, IsRustSpace) && word != ""
    ensures RustTrim(pad1 + word + pad2) == word
  {
    assert (pad1 + word + pad2) == pad1 + (word + pad2);
    TrimStartPadded(pad1, word + pad2, IsRustSpace);
    TrimEndPadded(word, pad2, IsRustSpace);
  }

  /** The directory of the configuration, `home/.neovate`. */
  function ConfigDir(env: Env): Result<string>
  {
    match HomeDir(env)
    case Ok(home) => Ok(Join(home, ".neovate"))
    case Err(e) => Err(e)
  }

  /** `config_path`: `home/.neovate/config.json`. */
  function ConfigPath(env: Env): (r: Result<string>)
    ensures r.Err? <==> HomeDir(env).Err?
    ensures r.Err? ==> r.error == HomeMissing
    ensures r.Ok? ==> r == Ok(Join(ConfigDir(env).value, "config.json"))
  {
    match ConfigDir(env)
    case Ok(dir) => Ok(Join(dir, "config.json"))
    case Err(e) => Err(e)
  }

  lemma ConfigDirShape(home: string)
    requires home != ""
    ensures !EndsWith(home, "/") ==> Join(home, ".neovate") == home + "/.neovate"
    ensures EndsWith(home, "/") ==> Join(home, ".neovate") == home + ".neovate"
    ensures !EndsWith(Join(home, ".neovate"), "/") && Join(home, ".neovate") != ""
    ensures Join(Join(home, ".neovate"), "config.json") == Join(home, ".neovate") + "/config.json"
  {
    assert ".neovate"[..1] == ".";
    assert "config.json"[..1] == "c";
    var d := Join(home, ".neovate");
    assert d[|d| - 1] == 'e';
  }

  /** The configuration path spelled out: `/.neovate/config.json` after the home, or
      `.neovate/config.json` after a home that already ends in a separator. */
  lemma ConfigPathShape(env: Env)
    requires HomeDir(env).Ok?
    ensures !EndsWith(HomeDir(env).value, "/") ==>
      ConfigPath(env) == Ok(HomeDir(env).value + "/.neovate/config.json")
    ensures EndsWith(HomeDir(env).value, "/") ==>
      ConfigPath(env) == Ok(HomeDir(env).value + ".neovate/config.json")
  {
    ConfigFileOfHome(HomeDir(env).value);
  }

  lemma ConfigFileOfHome(home: string)
    requires home != ""
    ensures !EndsWith(home, "/") ==> Join(Join(home, ".neovate"), "config.json") == home + "/.neovate/config.json"
    ensures EndsWith(home, "/") ==> Join(Join(home, ".neovate"), "config.json") == home + ".neovate/config.json"
  {
    ConfigDirShape(home);
    ConfigFileLiterals();
    if EndsWith(home, "/") {
      ConcatAssoc(home, ".neovate", "/config.json");
    } else {
      ConcatAssoc(home, "/.neovate", "/config.json");
    }
  }

  lemma ConfigFileLiterals()
    ensures "/.neovate" + "/config.json" == "/.neovate/config.json"
    ensures ".neovate" + "/config.json" == ".neovate/config.json"
  {
  }

  lemma ConcatAssoc(a: string, b: string, c: string)
    ensures a + b + c == a + (b + c)
  {
  }

  /** The settings UI recovers the home from the configuration path the host reports
      (`inferHomeFromConfigPath`), for any home that does not end in a separator. */
  lemma ConfigPathInfersHome(env: Env)
    requires HomeDir(env).Ok? && !EndsWith(HomeDir(env).value, "/")
    ensures ConfigHelpers.InferHomeFromConfigPath(ConfigPath(env).value) == Some(HomeDir(env).value)
  {
    ConfigPathShape(env);
    ConfigHelpers.InferHomeInverts(HomeDir(env).value);
  }
}
