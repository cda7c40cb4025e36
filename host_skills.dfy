/** src-tauri/src/config/skills.rs: the plan of a skills migration and the loop that
    carries it out, counting copies, skips and replacements. */
module HostSkills {
  import opened Wrappers
  import opened Text
  import opened Seqs
  import opened HostFs
  import opened Bridge

  const SourceNotADirectory := "源路径不是目录"
  const NoSourceName := "无法获取源目录名称"
  const ReadSourceFailed := "读取源目录失败："

  // ---------------------------------------------------------------------------
  // The plan
  // ---------------------------------------------------------------------------

  /** A listed name that is not hidden (`.DS_Store` and the like are skipped). */
  predicate Visible(name: string)
  {
    !StartsWith(name, ".")
  }

  /** The item for a listed entry of the source. */
  function EntryItem(fs: Fs, source: string, target: string, name: string): SkillsMigrationItem
  {
    var to := Join(target, name);
    SkillsMigrationItem(name, Join(source, name), to, to in fs, IsDir(fs, Join(source, name)))
  }

  /** The items for the first names of a listing. */
  function EntryItems(fs: Fs, source: string, target: string, names: seq<string>): seq<SkillsMigrationItem>
    decreases |names|
  {
    if names == [] then []
    else
      var name := names[|names| - 1];
      EntryItems(fs, source, target, names[..|names| - 1]) +
        (if Visible(name) then [EntryItem(fs, source, target, name)] else [])
  }

  /** One item per visible name, in listing order. */
  lemma {:induction false} EntryItemsMeaning(fs: Fs, source: string, target: string, names: seq<string>)
    ensures |EntryItems(fs, source, target, names)| == |Filter(names, Visible)|
    ensures forall k :: 0 <= k < |Filter(names, Visible)| ==>
      EntryItems(fs, source, target, names)[k] == EntryItem(fs, source, target, Filter(names, Visible)[k])
    decreases |names|
  {
    if names != [] {
      var prefix := names[..|names| - 1];
      var name := names[|names| - 1];
      EntryItemsMeaning(fs, source, target, prefix);
      assert names == prefix + [name];
      FilterConcat(prefix, [name], Visible);
      assert Filter([name], Visible) == (if Visible(name) then [name] else []) + Filter([name][1..], Visible);
    }
  }

  /** `build_skills_plan` with the source's directory listing (`read_dir`, names in
      the order the host returns them) as a parameter.
      - A source that is not a directory is an error.
      - A source holding a `SKILL.md` file is one skill: a single directory item
        named after the source, aimed at `target/name`.
      - Otherwise every listed entry whose name does not start with `.` becomes an
        item, in listing order, aimed at `target/name` and flagged when that target
        already exists. */
  function SkillsPlan(fs: Fs, source: string, target: string, listing: Result<seq<string>>): (r: Result<seq<SkillsMigrationItem>>)
    ensures !IsDir(fs, source) ==> r == Err(SourceNotADirectory)
    ensures IsDir(fs, source) && IsFile(fs, Join(source, "SKILL.md")) ==>
      match FileName(source)
      case None => r == Err(NoSourceName)
      case Some(name) =>
        r == Ok([SkillsMigrationItem(name, source, Join(target, name), Join(target, name) in fs, true)])
    ensures IsDir(fs, source) && !IsFile(fs, Join(source, "SKILL.md")) && listing.Err? ==>
      r == Err(ReadSourceFailed + listing.error)
    ensures IsDir(fs, source) && !IsFile(fs, Join(source, "SKILL.md")) && listing.Ok? ==>
      r.Ok? && |r.value| == |Filter(listing.value, Visible)| &&
      forall k :: 0 <= k < |r.value| ==>
        var name := Filter(listing.value, Visible)[k];
        r.value[k].name == name && r.value[k].source == Join(source, name) &&
        r.value[k].target == Join(target, name) && r.value[k].targetExists == (Join(target, name) in fs) &&
        r.value[k].isDir == IsDir(fs, Join(source, name))
  {
    if !IsDir(fs, source) then Err(SourceNotADirectory)
    else if IsFile(fs, Join(source, "SKILL.md")) then
      match FileName(source)
      case None => Err(NoSourceName)
      case Some(name) =>
        Ok([SkillsMigrationItem(name, source, Join(target, name), Join(target, name) in fs, true)])
    else match listing
      case Err(e) => Err(ReadSourceFailed + e)
      case Ok(names) =>
        EntryItemsMeaning(fs, source, target, names);
        Ok(EntryItems(fs, source, target, names))
  }

  /** Every item of a listing plan comes from a visible listed name, and every visible
      listed name has an item. */
  lemma PlanCoversListing(fs: Fs, source: string, target: string, names: seq<string>)
    requires IsDir(fs, source) && !IsFile(fs, Join(source, "SKILL.md"))
    ensures forall item :: item in SkillsPlan(fs, source, target, Ok(names)).value ==>
      item.name in names && Visible(item.name)
    ensures forall name :: name in names && Visible(name) ==>
      EntryItem(fs, source, target, name) in SkillsPlan(fs, source, target, Ok(names)).value
  {
    var items := SkillsPlan(fs, source, target, Ok(names)).value;
    var vis := Filter(names, Visible);
    forall item | item in items
      ensures item.name in names && Visible(item.name)
    {
      var k :| 0 <= k < |items| && items[k] == item;
      FilterMembership(names, Visible, vis[k]);
    }
    forall name | name in names && Visible(name)
      ensures EntryItem(fs, source, target, name) in items
    {
      FilterMembership(names, Visible, name);
      var k :| 0 <= k < |vis| && vis[k] == name;
      EntryItemsMeaning(fs, source, target, names);
      assert items[k] == EntryItem(fs, source, target, name);
    }
  }

  /** `build_skills_plan`, pushing one item per visible entry. */
  method BuildSkillsPlan(fs: Fs, source: string, target: string, listing: Result<seq<string>>)
    returns (r: Result<seq<SkillsMigrationItem>>)
    ensures r == SkillsPlan(fs, source, target, listing)
  {
    if !IsDir(fs, source) {
      return Err(SourceNotADirectory);
    }
    if IsFile(fs, Join(source, "SKILL.md")) {
      var name := FileName(source);
      if name.None? {
        return Err(NoSourceName);
      }
      var to := Join(target, name.value);
      return Ok([SkillsMigrationItem(name.value, source, to, to in fs, true)]);
    }
    if listing.Err? {
      return Err(ReadSourceFailed + listing.error);
    }
    var names := listing.value;
    var items: seq<SkillsMigrationItem> := [];
    for i := 0 to |names|
      invariant items == EntryItems(fs, source, target, names[..i])
    {
      assert names[..i + 1][..i] == names[..i];
      var name := names[i];
      if StartsWith(name, ".") {
        continue;
      }
      var to := Join(target, name);
      var from := Join(source, name);
      items := items + [SkillsMigrationItem(name, from, to, to in fs, IsDir(fs, from))];
    }
    assert names[..|names|] == names;
    r := Ok(items);
  }

  // ---------------------------------------------------------------------------
  // Carrying the plan out
  // ---------------------------------------------------------------------------

  /** What a copying step leaves: the filesystem, and its error if it failed. */
  datatype Outcome = Outcome(fs: Fs, error: Option<string>)

  /** The copies the loop delegates: `copy_dir_recursive`, and the file copy with its
      parent's `create_dir_all`. Both are parameters of the model. */
  datatype CopyOps = CopyOps(copyTree: (Fs, string, string) -> Outcome, copyFile: (Fs, string, string) -> Outcome)

  const NoCounts := SkillsMigrationResult(0, 0, 0)

  /** The copy an item asks for. */
  function CopyItem(ops: CopyOps, fs: Fs, item: SkillsMigrationItem): Outcome
  {
    if item.isDir then ops.copyTree(fs, item.source, item.target) else ops.copyFile(fs, item.source, item.target)
  }

  /** One turn of the loop: an existing target is skipped in skip mode and otherwise
      removed and then copied over; a new target is copied. Exactly one counter goes
      up. */
  function Step(fs: Fs, item: SkillsMigrationItem, skip: bool, ops: CopyOps, c: SkillsMigrationResult):
    (r: (Fs, Result<SkillsMigrationResult>))
    ensures item.targetExists && skip ==> r == (fs, Ok(c.(skipped := c.skipped + 1)))
    ensures item.targetExists && !skip ==> r.0 == CopyItem(ops, RemovePath(fs, item.target), item).fs
    ensures !item.targetExists ==> r.0 == CopyItem(ops, fs, item).fs
    ensures r.1.Ok? && item.targetExists && !skip ==> r.1.value == c.(replaced := c.replaced + 1)
    ensures r.1.Ok? && !item.targetExists ==> r.1.value == c.(copied := c.copied + 1)
  {
    if item.targetExists && skip then (fs, Ok(c.(skipped := c.skipped + 1)))
    else
      var cleared := if item.targetExists then RemovePath(fs, item.target) else fs;
      var next := if item.targetExists then c.(replaced := c.replaced + 1) else c.(copied := c.copied + 1);
      var out := CopyItem(ops, cleared, item);
      if out.error.Some? then (out.fs, Err(out.error.value)) else (out.fs, Ok(next))
  }

  /** The loop over the first items: the filesystem it leaves and the counts, or the
      first error, after which nothing more runs. */
  function Migrated(fs: Fs, items: seq<SkillsMigrationItem>, skip: bool, ops: CopyOps): (Fs, Result<SkillsMigrationResult>)
    decreases |items|
  {
    if items == [] then (fs, Ok(NoCounts))
    else
      var before := Migrated(fs, items[..|items| - 1], skip, ops);
      if before.1.Err? then before else Step(before.0, items[|items| - 1], skip, ops, before.1.value)
  }

  /** One more item extends the run by one step, unless it has already failed. */
  lemma MigratedSnoc(fs: Fs, items: seq<SkillsMigrationItem>, i: nat, skip: bool, ops: CopyOps)
    requires i < |items|
    ensures var before := Migrated(fs, items[..i], skip, ops);
      Migrated(fs, items[..i + 1], skip, ops) ==
        if before.1.Err? then before else Step(before.0, items[i], skip, ops, before.1.value)
  {
    assert items[..i + 1][..i] == items[..i];
  }

  /** Once a prefix fails, the whole run ends as that prefix did. */
  lemma {:induction false} MigratedStopsAtError(fs: Fs, items: seq<SkillsMigrationItem>, n: nat, skip: bool, ops: CopyOps)
    requires n <= |items|
    requires Migrated(fs, items[..n], skip, ops).1.Err?
    ensures Migrated(fs, items, skip, ops) == Migrated(fs, items[..n], skip, ops)
    decreases |items| - n
  {
    if n < |items| {
      var shorter := items[..|items| - 1];
      assert shorter[..n] == items[..n];
      MigratedStopsAtError(fs, shorter, n, skip, ops);
    } else {
      assert items[..n] == items;
    }
  }

  predicate Existing(item: SkillsMigrationItem)
  {
    item.targetExists
  }

  predicate Fresh(item: SkillsMigrationItem)
  {
    !item.targetExists
  }

  /** A successful run counts every item once: the new targets as copied, and the
      existing ones as skipped in skip mode or as replaced otherwise. */
  lemma {:induction false} MigratedCounts(fs: Fs, items: seq<SkillsMigrationItem>, skip: bool, ops: CopyOps)
    requires Migrated(fs, items, skip, ops).1.Ok?
    ensures var c := Migrated(fs, items, skip, ops).1.value;
      c.copied == Count(items, Fresh) &&
      (skip ==> c.skipped == Count(items, Existing) && c.replaced == 0) &&
      (!skip ==> c.replaced == Count(items, Existing) && c.skipped == 0) &&
      c.copied + c.skipped + c.replaced == |items|
    decreases |items|
  {
    if items != [] {
      var prefix := items[..|items| - 1];
      var item := items[|items| - 1];
      MigratedCounts(fs, prefix, skip, ops);
      assert items == prefix + [item];
      CountSnoc(prefix, item, Fresh);
      CountSnoc(prefix, item, Existing);
    }
  }

  /** In skip mode the existing targets play no part: the run leaves the filesystem and
      meets the errors that a run over the new targets alone would. */
  lemma {:induction false} SkipIgnoresExisting(fs: Fs, items: seq<SkillsMigrationItem>, ops: CopyOps)
    ensures Migrated(fs, items, true, ops).0 == Migrated(fs, Filter(items, Fresh), true, ops).0
    ensures Migrated(fs, items, true, ops).1.Err? <==> Migrated(fs, Filter(items, Fresh), true, ops).1.Err?
    ensures Migrated(fs, items, true, ops).1.Err? ==>
      Migrated(fs, items, true, ops).1 == Migrated(fs, Filter(items, Fresh), true, ops).1
    decreases |items|
  {
    if items != [] {
      var prefix := items[..|items| - 1];
      var item := items[|items| - 1];
      var kept := Filter(prefix, Fresh);
      SkipIgnoresExisting(fs, prefix, ops);
      assert items == prefix + [item];
      FilterConcat(prefix, [item], Fresh);
      assert Filter([item], Fresh) == (if Fresh(item) then [item] else []) + Filter([item][1..], Fresh);
      var before := Migrated(fs, prefix, true, ops);
      var beforeKept := Migrated(fs, kept, true, ops);
      if Fresh(item) {
        var all := kept + [item];
        assert Filter(items, Fresh) == all;
        assert all[..|all| - 1] == kept;
        assert Migrated(fs, all, true, ops) ==
          if beforeKept.1.Err? then beforeKept else Step(beforeKept.0, item, true, ops, beforeKept.1.value);
        if before.1.Ok? {
          StepIgnoresCounts(before.0, item, true, ops, before.1.value, beforeKept.1.value);
        }
      } else {
        assert Filter(items, Fresh) == kept;
      }
    }
  }

  /** The counts carried into a step do not affect what it does to the filesystem or
      whether it fails. */
  lemma StepIgnoresCounts(fs: Fs, item: SkillsMigrationItem, skip: bool, ops: CopyOps,
                          c1: SkillsMigrationResult, c2: SkillsMigrationResult)
    ensures Step(fs, item, skip, ops, c1).0 == Step(fs, item, skip, ops, c2).0
    ensures Step(fs, item, skip, ops, c1).1.Err? <==> Step(fs, item, skip, ops, c2).1.Err?
    ensures Step(fs, item, skip, ops, c1).1.Err? ==> Step(fs, item, skip, ops, c1).1 == Step(fs, item, skip, ops, c2).1
  {
  }

  /** `apply_skills_migration_core`: the filesystem after the run and the counts, or
      the first error; the filesystem is returned in both cases. */
  method ApplyMigrationCore(fs0: Fs, items: seq<SkillsMigrationItem>, mode: string, ops: CopyOps)
    returns (fs: Fs, r: Result<SkillsMigrationResult>)
    ensures (fs, r) == Migrated(fs0, items, mode == "skip", ops)
  {
    var copied, skipped, replaced := 0, 0, 0;
    fs := fs0;
    var i := 0;
    while i < |items|
      invariant 0 <= i <= |items|
      invariant Migrated(fs0, items[..i], mode == "skip", ops) == (fs, Ok(SkillsMigrationResult(copied, skipped, replaced)))
    {
      var item := items[i];
      MigratedSnoc(fs0, items, i, mode == "skip", ops);
      if item.targetExists {
        if mode == "skip" {
          skipped := skipped + 1;
          i := i + 1;
          continue;
        }
        fs := RemovePath(fs, item.target);
        replaced := replaced + 1;
      } else {
        copied := copied + 1;
      }
      var out := if item.isDir then ops.copyTree(fs, item.source, item.target)
                 else ops.copyFile(fs, item.source, item.target);
      fs := out.fs;
      if out.error.Some? {
        r := Err(out.error.value);
        MigratedStopsAtError(fs0, items, i + 1, mode == "skip", ops);
        return;
      }
      i := i + 1;
    }
    assert items[..|items|] == items;
    r := Ok(SkillsMigrationResult(copied, skipped, replaced));
  }
}
