/** The host filesystem as the Rust commands see it: a map from path strings to nodes.
    Paths use `/`; the parent of a tracked path need not be tracked itself, and the
    root is always there. Failing operations leave the map as it was. */
module HostFs {
  import opened Wrappers
  import opened Text

  datatype Node = File(content: string) | Dir

  type Fs = map<string, Node>

  predicate IsFile(fs: Fs, p: string)
  {
    p in fs && fs[p].File?
  }

  predicate IsDir(fs: Fs, p: string)
  {
    p in fs && fs[p].Dir?
  }

  /** `PathBuf::join` on a Unix host: an absolute `rest` replaces the base, otherwise
      it is appended after one separator. */
  function Join(base: string, rest: string): (r: string)
    ensures StartsWith(rest, "/") ==> r == rest
    ensures !StartsWith(rest, "/") ==> EndsWith(r, rest)
  {
    if StartsWith(rest, "/") then rest
    else if base == "" || EndsWith(base, "/") then base + rest
    else base + "/" + rest
  }

  /** The index of the last `/` of a path. */
  function LastSlash(p: string): (r: Option<nat>)
    ensures r.None? <==> '/' !in p
    ensures r.Some? ==> r.value < |p| && p[r.value] == '/' && '/' !in p[r.value + 1..]
    decreases |p|
  {
    if p == [] then None
    else if p[|p| - 1] == '/' then Some(|p| - 1)
    else
      var r := LastSlash(p[..|p| - 1]);
      assert p == p[..|p| - 1] + [p[|p| - 1]];
      assert r.Some? ==> p[r.value + 1..] == p[..|p| - 1][r.value + 1..] + [p[|p| - 1]];
      r
  }

  /** `Path::parent`: everything before the last `/`; `""` for a bare name; none for
      the empty path and the root. */
  function Parent(p: string): Option<string>
  {
    if p == "" || p == "/" then None
    else match LastSlash(p)
      case None => Some("")
      case Some(i) => if i == 0 then Some("/") else Some(p[..i])
  }

  /** `Path::file_name`: the part after the last `/`, unless that is empty, `.` or `..`. */
  function FileName(p: string): Option<string>
  {
    var name := match LastSlash(p) case None => p case Some(i) => p[i + 1..];
    if name == "" || name == "." || name == ".." then None else Some(name)
  }

  /** Joining a plain name onto a directory path gives a path whose parent is that
      directory and whose file name is that name. */
  lemma JoinName(dir: string, name: string)
    requires dir != "" && !EndsWith(dir, "/")
    requires '/' !in name && name != "" && name != "." && name != ".."
    ensures Join(dir, name) == dir + "/" + name
    ensures Parent(Join(dir, name)) == Some(dir)
    ensures FileName(Join(dir, name)) == Some(name)
  {
    var p := dir + "/" + name;
    assert name[0] in name;
    assert p[|dir|] == '/';
    assert p[|dir| + 1..] == name;
    var r := LastSlash(p);
    assert r.Some?;
    assert p[..|dir|] == dir;
  }

  /** `p` is `d` or lies inside the directory `d`. */
  predicate Under(p: string, d: string)
  {
    p == d || StartsWith(p, d + "/")
  }

  /** `remove_path`: a missing path is left alone, a directory goes with everything
      inside it, a file goes alone. */
  function RemovePath(fs: Fs, p: string): (r: Fs)
    ensures p !in fs ==> r == fs
    ensures p !in r
    ensures IsDir(fs, p) ==> forall q :: q in r <==> q in fs && !Under(q, p)
    ensures IsFile(fs, p) ==> forall q :: q in r <==> q in fs && q != p
    ensures forall q :: q in r ==> q in fs && r[q] == fs[q]
  {
    if p !in fs then fs
    else if fs[p].Dir? then map q | q in fs && !Under(q, p) :: fs[q]
    else fs - {p}
  }

  /** The directories `create_dir_all(p)` makes: `p` and each of its proper
      ancestors except the root. */
  function Ancestors(p: string): set<string>
  {
    (set i | 0 < i < |p| && p[i] == '/' :: p[..i]) + {p}
  }

  /** Every directory `create_dir_all(p)` makes is a prefix of `p`. */
  lemma AncestorsArePrefixes(p: string, q: string)
    requires q in Ancestors(p)
    ensures |q| <= |p| && p[..|q|] == q
  {
    if q != p {
      var i :| 0 < i < |p| && p[i] == '/' && q == p[..i];
    }
  }

  /** A parent is shorter than its child. */
  lemma ParentShorter(p: string)
    requires Parent(p).Some?
    ensures |Parent(p).value| < |p|
  {
  }

  /** `create_dir_all`: fails when a file stands where one of the directories should
      be; otherwise every missing directory is added and nothing else changes. The
      empty path is accepted as it is. */
  function CreateDirAll(fs: Fs, p: string): (r: Result<Fs>)
    ensures p == "" ==> r == Ok(fs)
    ensures p != "" ==>
      (r.Err? <==> exists a :: a in Ancestors(p) && IsFile(fs, a))
    ensures r.Ok? && p != "" ==> IsDir(r.value, p)
    ensures r.Ok? ==> forall q :: q in fs ==> q in r.value && r.value[q] == fs[q]
    ensures r.Ok? ==> forall q :: q in r.value && q !in fs ==> r.value[q] == Dir && q in Ancestors(p)
  {
    if p == "" then Ok(fs)
    else if exists a :: a in Ancestors(p) && IsFile(fs, a) then Err("not a directory")
    else Ok(map q | q in fs.Keys + Ancestors(p) :: if q in fs then fs[q] else Dir)
  }

  /** `create_dir_all(p)` adds no path longer than `p`. */
  lemma CreateDirAllShort(fs: Fs, p: string, q: string)
    requires CreateDirAll(fs, p).Ok? && |q| > |p|
    ensures q in CreateDirAll(fs, p).value <==> q in fs
  {
    if q in CreateDirAll(fs, p).value && q !in fs {
      AncestorsArePrefixes(p, q);
    }
  }

  /** `fs::write`: the file now holds `content`; a directory cannot be overwritten. */
  function WriteFile(fs: Fs, p: string, content: string): (r: Result<Fs>)
    ensures r.Err? <==> IsDir(fs, p)
    ensures r.Ok? ==> r.value == fs[p := File(content)]
  {
    if IsDir(fs, p) then Err("is a directory") else Ok(fs[p := File(content)])
  }

  /** `fs::copy` of a file. */
  function CopyFile(fs: Fs, from: string, to: string): (r: Result<Fs>)
    ensures r.Err? <==> !IsFile(fs, from) || IsDir(fs, to)
    ensures r.Ok? ==> r.value == fs[to := fs[from]]
  {
    if !IsFile(fs, from) then Err("not a file") else WriteFile(fs, to, fs[from].content)
  }

  /** `fs::remove_file`. */
  function RemoveFile(fs: Fs, p: string): (r: Result<Fs>)
    ensures r.Err? <==> !IsFile(fs, p)
    ensures r.Ok? ==> r.value == fs - {p}
  {
    if !IsFile(fs, p) then Err("not a file") else Ok(fs - {p})
  }

  /** `fs::rename` of a file onto a path that is not a directory. */
  function Rename(fs: Fs, from: string, to: string): (r: Result<Fs>)
    ensures r.Err? <==> !IsFile(fs, from) || IsDir(fs, to)
    ensures r.Ok? ==> r.value == (fs - {from})[to := fs[from]]
  {
    if !IsFile(fs, from) then Err("not a file")
    else if IsDir(fs, to) then Err("is a directory")
    else Ok((fs - {from})[to := fs[from]])
  }
}
