/** The hook's skills migration run (src/hooks/useConfigState.ts, `runSkillsMigration`):
    it checks the two paths, asks the host for a plan, and then either stops, opens
    the conflict dialog, or applies the plan in replace mode. The host's answer
    reaches the hook as a serialized object, so the count the hook reads is a field
    lookup on the names the host's serializer writes. */
module SkillsRun {
  import opened Wrappers
  import opened Text
  import opened Seqs
  import opened Bridge
  import opened HostFs
  import opened HostPaths
  import opened HostSkills
  import HostConfig

  /** What the hook does once its checks and the plan request are over. */
  datatype RunStep =
    | NeedPaths                                    // a blank path: a warning, no request
    | PlanFailed(error: string)                    // the plan request failed
    | NothingToMigrate                             // an empty plan
    | ConfirmConflicts(plan: SkillsMigrationPlan)  // the conflict dialog opens on the plan
    | ApplyReplace(source: string, target: string) // `apply_skills_migration` in replace mode

  /** The name the host's serializer gives the plan's count: the struct field itself,
      since the plan struct carries no renaming. */
  const WireConflictCount := "conflict_count"

  /** The name the hook reads the count under. */
  const HookConflictCount := "conflictCount"

  /** `plan[field] > 0` on the object the hook receives. A field the host does not
      write reads as `undefined`, and `undefined > 0` is false. */
  function CountPositive(plan: SkillsMigrationPlan, field: string): (r: bool)
    ensures r <==> field == WireConflictCount && plan.conflictCount > 0
  {
    var wire := map[WireConflictCount := plan.conflictCount];
    field in wire && wire[field] > 0
  }

  /** The plan request the hook makes: the trimmed paths, or none when either is blank. */
  function PlanRequest(source: string, target: string): (r: Option<(string, string)>)
    ensures r.None? <==> JsTrim(source) == "" || JsTrim(target) == ""
    ensures r.Some? ==> r.value == (JsTrim(source), JsTrim(target))
  {
    if JsTrim(source) == "" || JsTrim(target) == "" then None
    else Some((JsTrim(source), JsTrim(target)))
  }

  /** The step the hook takes when it reads the count under `field`. The replace run
      is requested with the paths as stored, not the trimmed ones the plan used. */
  function StepReading(field: string, source: string, target: string, answer: Result<SkillsMigrationPlan>): RunStep
  {
    if PlanRequest(source, target).None? then NeedPaths
    else match answer
      case Err(e) => PlanFailed(e)
      case Ok(plan) =>
        if |plan.items| == 0 then NothingToMigrate
        else if CountPositive(plan, field) then ConfirmConflicts(plan)
        else ApplyReplace(source, target)
  }

  /** `runSkillsMigration` as written: the count is read under `conflictCount`, which
      the host never writes, so a non-empty plan is always applied in replace mode. */
  function RunSkillsStep(source: string, target: string, answer: Result<SkillsMigrationPlan>): (r: RunStep)
    ensures PlanRequest(source, target).None? ==> r == NeedPaths
    ensures PlanRequest(source, target).Some? && answer.Err? ==> r == PlanFailed(answer.error)
    ensures PlanRequest(source, target).Some? && answer.Ok? && |answer.value.items| == 0 ==> r == NothingToMigrate
    ensures PlanRequest(source, target).Some? && answer.Ok? && |answer.value.items| > 0 ==>
      r == ApplyReplace(source, target)
    ensures !r.ConfirmConflicts?
  {
    StepReading(HookConflictCount, source, target, answer)
  }

  /** A plan whose one item already exists at the target. */
  const OneConflict := SkillsMigrationPlan([SkillsMigrationItem("a", "/s/a", "/t/a", true, true)], 1)

  /** As written, a plan that reports a conflict replaces the existing skill without
      opening the conflict dialog. */
  lemma ConflictReplacedUnasked()
    ensures OneConflict.conflictCount > 0 && OneConflict.items[0].targetExists
    ensures RunSkillsStep("/s", "/t", Ok(OneConflict)) == ApplyReplace("/s", "/t")
  {
    assert JsTrim("/s") == "/s" && JsTrim("/t") == "/t" by {
      TrimUnpadded("/s", IsJsSpace);
      TrimUnpadded("/t", IsJsSpace);
    }
  }

  /** `runSkillsMigration` reading the count under the name the host writes: the
      dialog opens exactly when the plan reports a conflict, and replace mode runs
      directly only on a plan without one. */
  function RunSkillsStepFixed(source: string, target: string, answer: Result<SkillsMigrationPlan>): (r: RunStep)
    ensures PlanRequest(source, target).None? ==> r == NeedPaths
    ensures PlanRequest(source, target).Some? && answer.Err? ==> r == PlanFailed(answer.error)
    ensures PlanRequest(source, target).Some? && answer.Ok? && |answer.value.items| == 0 ==> r == NothingToMigrate
    ensures PlanRequest(source, target).Some? && answer.Ok? && |answer.value.items| > 0 ==>
      (r.ConfirmConflicts? <==> answer.value.conflictCount > 0)
    ensures r.ConfirmConflicts? ==> answer == Ok(r.plan)
    ensures r.ApplyReplace? ==> r == ApplyReplace(source, target) && answer.Ok? && answer.value.conflictCount == 0
  {
    StepReading(WireConflictCount, source, target, answer)
  }

  /** With the host's own plan, the corrected run opens the dialog exactly when some
      planned target already exists, so replace mode never runs unasked over an
      existing target. */
  lemma FixedAsksBeforeReplacing(env: Env, fs: Fs, source: string, target: string, listing: Result<seq<string>>)
    requires PlanRequest(source, target).Some?
    requires HostConfig.PlanSkillsMigration(env, fs, JsTrim(source), JsTrim(target), listing).Ok?
    ensures var plan := HostConfig.PlanSkillsMigration(env, fs, JsTrim(source), JsTrim(target), listing).value;
      var step := RunSkillsStepFixed(source, target, Ok(plan));
      |plan.items| > 0 ==>
        (step.ConfirmConflicts? <==> exists i :: 0 <= i < |plan.items| && plan.items[i].targetExists)
    ensures var plan := HostConfig.PlanSkillsMigration(env, fs, JsTrim(source), JsTrim(target), listing).value;
      RunSkillsStepFixed(source, target, Ok(plan)).ApplyReplace? ==>
        forall i :: 0 <= i < |plan.items| ==> !plan.items[i].targetExists
  {
  }
}
