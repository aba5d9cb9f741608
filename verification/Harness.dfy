/** One fixture job: mutate, check, repair at most once, validate, report.
    The fixed wording of reports is abbreviated. */
module Harness {
  import opened Outcomes
  import opened WorkerResults

  /** A trusted command and whether it exits with zero in time. */
  datatype TrustedCommand = TrustedCommand(name: string, succeeds: bool)

  datatype FixtureTask = FixtureTask(
    taskId: string, consumer: string, fixturePath: string,
    initialState: string, targetState: string, allowedPaths: seq<string>)

  datatype MutationEnd = Mutated | RuntimeFailed(code: string, summary: string) | MutationFailed(text: string)

  datatype RepairEnd = Repaired | RepairFailed(code: string, summary: string)

  /** What the repository, Git, the worker and the commands do during a job.  A
      text is the error of a check that fails.  `leftPaths` is what a failure
      report reads; reading it may fail. */
  datatype JobWorld = JobWorld(
    dirty: Option<string>, initial: Option<string>, mutation: MutationEnd, paths: seq<string>,
    quick: Option<string>, repair: Option<RepairEnd>, repairedPaths: seq<string>, requick: Option<string>,
    quickCommands: seq<TrustedCommand>, diffClean: bool, fixtureHolds: bool, fullCommands: seq<TrustedCommand>,
    boundaryText: string, leftPaths: Option<seq<string>>, content: string)

  /** Texts assumed not to be blank, and normal paths. */
  predicate GoodTexts(task: FixtureTask, w: JobWorld) {
    && NonBlank(task.taskId) && NonBlank(task.consumer) && NonBlank(task.fixturePath)
    && NonBlank(w.boundaryText)
    && (w.dirty.Some? ==> NonBlank(w.dirty.value))
    && (w.initial.Some? ==> NonBlank(w.initial.value))
    && (w.quick.Some? ==> NonBlank(w.quick.value))
    && (w.requick.Some? ==> NonBlank(w.requick.value))
    && (w.mutation.RuntimeFailed? ==> NonBlank(w.mutation.code) && NonBlank(w.mutation.summary))
    && (w.mutation.MutationFailed? ==> NonBlank(w.mutation.text))
    && (w.repair.Some? && w.repair.value.RepairFailed? ==>
          NonBlank(w.repair.value.code) && NonBlank(w.repair.value.summary))
    && (forall c | c in w.quickCommands :: NonBlank(c.name))
    && (forall c | c in w.fullCommands :: NonBlank(c.name))
    && NormalPaths(w.paths)
    && NormalPaths(w.repairedPaths)
    && (w.leftPaths.Some? ==> NormalPaths(w.leftPaths.value))
  }

  /** `validate_patch_boundary`. */
  predicate WithinBoundary(paths: seq<string>, allowed: seq<string>) {
    paths != [] && forall p | p in paths :: p in allowed
  }

  predicate AllSucceed(commands: seq<TrustedCommand>) {
    forall c | c in commands :: c.succeeds
  }

  /** Runs trusted commands until one fails. */
  method RunTrustedValidation(commands: seq<TrustedCommand>, code: string) returns (v: Validation)
    requires NonBlank(code) && forall c | c in commands :: NonBlank(c.name)
    ensures ValidValidation(v)
    ensures v.result == if AllSucceed(commands) then Pass else Fail
    ensures v.failureCode == if AllSucceed(commands) then None else Some(code)
    ensures |v.stages| <= |commands| && forall k | 0 <= k < |v.stages| :: v.stages[k].name == commands[k].name
    ensures v.result == Pass ==> |v.stages| == |commands|
    ensures v.result == Fail ==> v.stages != [] && v.stages[|v.stages| - 1].result == Fail
    ensures forall k | 0 <= k < |v.stages| - 1 :: v.stages[k].result == Pass
  {
    var stages: seq<Stage> := [];
    while |stages| < |commands|
      invariant |stages| <= |commands|
      invariant ValidStages(stages) && !StageFailed(stages)
      invariant forall k | 0 <= k < |stages| :: stages[k].name == commands[k].name && stages[k].result == Pass
      invariant forall k | 0 <= k < |stages| :: commands[k].succeeds
      decreases |commands| - |stages|
    {
      var command := commands[|stages|];
      if !command.succeeds {
        var failed := Stage(command.name, Fail, Some(code));
        assert failed in stages + [failed];
        return Validation(Fail, stages + [failed], Some(code));
      }
      stages := stages + [Stage(command.name, Pass, None)];
    }
    return Validation(Pass, stages, None);
  }

  const DIFF_STAGE := "Git candidate diff integrity"
  const FIXTURE_STAGE := "Full deterministic fixture validation"
  const TARGET_STAGE := "Deterministic fixture target validation"

  predicate FullPasses(w: JobWorld) {
    w.diffClean && w.fixtureHolds && AllSucceed(w.fullCommands)
  }

  lemma JoinedStages(a: seq<Stage>, b: seq<Stage>)
    ensures ValidStages(a + b) <==> ValidStages(a) && ValidStages(b)
    ensures StageFailed(a + b) <==> StageFailed(a) || StageFailed(b)
  {
    forall t
      ensures t in a + b <==> t in a || t in b
    {
    }
  }

  method RunFixtureFullValidation(w: JobWorld) returns (v: Validation)
    requires forall c | c in w.fullCommands :: NonBlank(c.name)
    ensures ValidValidation(v)
    ensures v.result == if FullPasses(w) then Pass else Fail
    ensures v.result == Fail ==> v.failureCode == Some(FullFailure(w))
  {
    if !w.diffClean {
      var failed := Stage(Text(DIFF_STAGE), Fail, Some(Text("LOCAL_DIFF_CHECK_FAILED")));
      assert failed in [failed];
      return Validation(Fail, [failed], Some(Text("LOCAL_DIFF_CHECK_FAILED")));
    }
    var stages := [Stage(Text(DIFF_STAGE), Pass, None)];
    if !w.fixtureHolds {
      var failed := Stage(Text(FIXTURE_STAGE), Fail, Some(Text("FIXTURE_FULL_VALIDATION_FAILED")));
      assert failed in stages + [failed];
      return Validation(Fail, stages + [failed], Some(Text("FIXTURE_FULL_VALIDATION_FAILED")));
    }
    stages := stages + [Stage(Text(FIXTURE_STAGE), Pass, None)];
    var trusted := RunTrustedValidation(w.fullCommands, Text("CONSUMER_FULL_VALIDATION_FAILED"));
    JoinedStages(stages, trusted.stages);
    if trusted.result == Fail {
      assert StageFailed(trusted.stages);
      return Validation(Fail, stages + trusted.stages, trusted.failureCode);
    }
    return Validation(Pass, stages + trusted.stages, None);
  }

  const NO_VALIDATION := Validation(NotRun, [], None)

  /** A failed report: the code it ends with and what became of the three
      checks.  The first failure is that one, or the target check that a repair
      has answered. */
  predicate Reports(r: WorkerResult, boundary: string, code: string, patch: Verdict, quick: Verdict, full: Verdict) {
    && !r.ready && r.worker.result == Fail && r.worker.failureCode == Some(code) && r.firstFailure.Some?
    && r.patch.result == patch && r.quick.result == quick && r.full.result == full
    && (r.worker.repairAttempts == 0 ==> r.firstFailure.value.boundary == boundary && r.firstFailure.value.code == code)
    && (r.worker.repairAttempts > 0 ==>
          && r.firstFailure.value.boundary == "quick-validation"
          && r.firstFailure.value.code == "FIXTURE_TARGET_STATE_FAILED")
  }

  /** How a job that ends before its candidate is reported. */
  predicate StartTold(w: JobWorld, r: WorkerResult) {
    if w.dirty.Some? then
      Reports(r, "precondition", "WORKSPACE_NOT_CLEAN", NotRun, NotRun, NotRun) && r.workspace == PreexistingDirty
    else if w.initial.Some? then
      Reports(r, "fixture-precondition", "FIXTURE_INITIAL_STATE_FAILED", NotRun, NotRun, NotRun)
    else MutationTold(w, r)
  }

  predicate MutationTold(w: JobWorld, r: WorkerResult) {
    match w.mutation
    case RuntimeFailed(code, _) => Reports(r, "codex-execution", code, NotRun, NotRun, NotRun)
    case MutationFailed(_) => Reports(r, "mutation", "FIXTURE_MUTATION_FAILED", NotRun, NotRun, NotRun)
    case Mutated => Reports(r, "patch-boundary", "PATCH_BOUNDARY_FAILED", Fail, NotRun, NotRun)
  }

  /** How a job that ends in its quick stage is reported. */
  predicate QuickTold(task: FixtureTask, w: JobWorld, r: WorkerResult) {
    match w.repair
    case None => Reports(r, "quick-validation", "FIXTURE_TARGET_STATE_FAILED", Pass, Fail, NotRun)
    case Some(RepairFailed(code, _)) => Reports(r, "repair-execution", code, Pass, Fail, NotRun)
    case Some(Repaired) =>
      if WithinBoundary(w.repairedPaths, task.allowedPaths) then
        Reports(r, "repair-quick-validation", "FIXTURE_TARGET_STATE_FAILED", Pass, Fail, NotRun)
      else Reports(r, "repair-patch-boundary", "PATCH_BOUNDARY_FAILED", Fail, Fail, NotRun)
  }

  /** How a candidate that fails its validations is reported. */
  predicate ValidationTold(w: JobWorld, r: WorkerResult) {
    if !AllSucceed(w.quickCommands) then
      Reports(r, "quick-validation", "CONSUMER_QUICK_VALIDATION_FAILED", Pass, Fail, NotRun)
    else Reports(r, "full-validation", FullFailure(w), Pass, Pass, Fail)
  }

  function FullFailure(w: JobWorld): string {
    if !w.diffClean then "LOCAL_DIFF_CHECK_FAILED"
    else if !w.fixtureHolds then "FIXTURE_FULL_VALIDATION_FAILED"
    else "CONSUMER_FULL_VALIDATION_FAILED"
  }

  /** The ready report: every check passed. */
  predicate ReadyTold(r: WorkerResult) {
    && r.ready && r.worker.result == Pass
    && r.patch.result == Pass && r.quick.result == Pass && r.full.result == Pass
    && r.workspace == DirtyCandidate && r.changedPaths != []
  }

  /** `_failure_result`: the failed report of whatever was reached. */
  function FailureResult(
    task: FixtureTask, w: JobWorld, d: Diagnostic, preexisting: bool,
    patch: Boundary, quick: Validation, full: Validation, repairs: int, first: Option<Diagnostic>): (r: WorkerResult)
    requires GoodTexts(task, w) && ValidDiagnostic(d) && repairs >= 0
    requires CodeMatches(patch.result, patch.failureCode) && ValidValidation(quick) && ValidValidation(full)
    requires first.Some? ==> ValidDiagnostic(first.value)
    ensures ValidResult(r) && !r.ready && r.worker.repairAttempts == repairs
    ensures r.firstFailure == Some(if first.Some? then first.value else d)
    ensures r.worker.result == Fail && r.worker.failureCode == Some(d.code) && r.worker.summary == Some(d.summary)
    ensures r.patch == patch && r.quick == quick && r.full == full
    ensures preexisting ==> r.workspace == PreexistingDirty
    ensures !preexisting ==> r.workspace in {CleanWorkspace, DirtyCandidate}
  {
    var paths := if preexisting || w.leftPaths.None? then [] else w.leftPaths.value;
    WorkerResult(
      task.taskId, task.consumer, None, if paths == [] then None else Some(w.content),
      if preexisting then PreexistingDirty else if paths == [] then CleanWorkspace else DirtyCandidate, paths,
      patch, quick, full,
      Worker(Fail, Some(d.code), Some(d.summary), repairs),
      Some(if first.Some? then first.value else d), false)
  }

  /** The paths and texts that the quick stage ends with. */
  predicate QuickPasses(w: JobWorld) {
    w.quick.None? || (w.repair == Some(Repaired) && w.requick.None?)
  }

  function FinalPaths(w: JobWorld): seq<string> {
    if w.quick.None? then w.paths else w.repairedPaths
  }

  /** Every gate of a job: a clean start, a mutation within the boundary, the
      target state at once or after a repair within the boundary, and every
      command and check behind it. */
  predicate GatesPass(task: FixtureTask, w: JobWorld) {
    && w.dirty.None? && w.initial.None? && w.mutation.Mutated?
    && w.paths != [] && (forall p | p in w.paths :: p in task.allowedPaths)
    && (w.quick.None? ||
        (w.repair == Some(Repaired) && w.requick.None?
         && w.repairedPaths != [] && forall p | p in w.repairedPaths :: p in task.allowedPaths))
    && (forall c | c in w.quickCommands :: c.succeeds)
    && w.diffClean && w.fixtureHolds
    && (forall c | c in w.fullCommands :: c.succeeds)
  }

  function StateText(task: FixtureTask, state: string): string {
    task.fixturePath + " in exact " + state + " state"
  }

  lemma StateTextIsNonBlank(task: FixtureTask, state: string)
    requires NonBlank(task.fixturePath)
    ensures NonBlank(StateText(task, state))
  {
    NonBlankPart(task.fixturePath, " in exact ");
    NonBlankPart(task.fixturePath + " in exact ", state);
    NonBlankPart(task.fixturePath + " in exact " + state, " state");
  }

  /** The gates before the candidate: None when they all pass. */
  method RunPreconditions(task: FixtureTask, w: JobWorld) returns (failure: Option<WorkerResult>)
    requires GoodTexts(task, w)
    ensures failure.None? <==>
              && w.dirty.None? && w.initial.None? && w.mutation.Mutated?
              && WithinBoundary(w.paths, task.allowedPaths)
    ensures failure.Some? ==>
              && ValidResult(failure.value) && !failure.value.ready
              && failure.value.worker.repairAttempts == 0 && StartTold(w, failure.value)
  {
    var none := Boundary(NotRun, None);
    if w.dirty.Some? {
      var d := Diagnostic(
        Text("precondition"), Text("WORKSPACE_NOT_CLEAN"), w.dirty.value, Text("clean repository"),
        Text("existing changes"), false, Text("Clean the repository"));
      return Some(FailureResult(task, w, d, true, none, NO_VALIDATION, NO_VALIDATION, 0, None));
    }
    if w.initial.Some? {
      StateTextIsNonBlank(task, task.initialState);
      var d := Diagnostic(
        Text("fixture-precondition"), Text("FIXTURE_INITIAL_STATE_FAILED"), w.initial.value, StateText(task, task.initialState),
        w.initial.value, false, Text("Restore the fixture"));
      return Some(FailureResult(task, w, d, false, none, NO_VALIDATION, NO_VALIDATION, 0, None));
    }
    failure := RunMutation(task, w);
  }

  /** The mutation and its boundary, the first gates behind a clean start. */
  method RunMutation(task: FixtureTask, w: JobWorld) returns (failure: Option<WorkerResult>)
    requires GoodTexts(task, w)
    ensures failure.None? <==> w.mutation.Mutated? && WithinBoundary(w.paths, task.allowedPaths)
    ensures failure.Some? ==>
              && ValidResult(failure.value) && !failure.value.ready
              && failure.value.worker.repairAttempts == 0 && MutationTold(w, failure.value)
  {
    var none := Boundary(NotRun, None);
    if w.mutation.RuntimeFailed? {
      var d := Diagnostic(
        Text("codex-execution"), w.mutation.code, w.mutation.summary,
        Text("successful execution"), w.mutation.summary,
        w.mutation.code in {"CODEX_TIMEOUT", "CODEX_EXECUTION_FAILED"},
        Text("Resolve the runtime"));
      return Some(FailureResult(task, w, d, false, none, NO_VALIDATION, NO_VALIDATION, 0, None));
    }
    if w.mutation.MutationFailed? {
      NonBlankPart(Text("exact transition "), task.initialState + "->" + task.targetState);
      var d := Diagnostic(
        Text("mutation"), Text("FIXTURE_MUTATION_FAILED"), w.mutation.text,
        Text("exact transition ") + (task.initialState + "->" + task.targetState), w.mutation.text, false,
        Text("Inspect the path"));
      return Some(FailureResult(task, w, d, false, none, NO_VALIDATION, NO_VALIDATION, 0, None));
    }
    if !WithinBoundary(w.paths, task.allowedPaths) {
      var r := BoundaryFailure(task, w, Text("patch-boundary"), NO_VALIDATION, 0, None);
      return Some(r);
    }
    return None;
  }

  method BoundaryFailure(
    task: FixtureTask, w: JobWorld, boundary: string, quick: Validation, repairs: int, first: Option<Diagnostic>)
    returns (r: WorkerResult)
    requires GoodTexts(task, w) && NonBlank(boundary) && ValidValidation(quick) && repairs >= 0
    requires first.Some? ==> ValidDiagnostic(first.value)
    ensures ValidResult(r) && !r.ready && r.worker.repairAttempts == repairs
    ensures r.worker.result == Fail && r.worker.failureCode == Some("PATCH_BOUNDARY_FAILED")
    ensures r.patch.result == Fail && r.quick == quick && r.full.result == NotRun
    ensures r.firstFailure.Some?
    ensures if first.Some? then r.firstFailure == first
            else r.firstFailure.value.boundary == boundary && r.firstFailure.value.code == "PATCH_BOUNDARY_FAILED"
  {
    var d := Diagnostic(
      boundary, Text("PATCH_BOUNDARY_FAILED"), w.boundaryText, Text("limited changes"),
      Text("other paths"), false, Text("Discard the candidate"));
    r := FailureResult(
      task, w, d, false, Boundary(Fail, Some(Text("PATCH_BOUNDARY_FAILED"))), quick, NO_VALIDATION, repairs, first);
  }

  function TargetFailed(): (v: Validation)
    ensures ValidValidation(v) && v.result == Fail
  {
    var failed := Stage(Text(TARGET_STAGE), Fail, Some(Text("FIXTURE_TARGET_STATE_FAILED")));
    assert failed in [failed];
    Validation(Fail, [failed], Some(Text("FIXTURE_TARGET_STATE_FAILED")))
  }

  function TargetDiagnostic(task: FixtureTask, boundary: string, text: string, retryable: bool): (d: Diagnostic)
    requires NonBlank(task.fixturePath) && NonBlank(boundary) && NonBlank(text)
    ensures ValidDiagnostic(d) && d.boundary == boundary && d.code == "FIXTURE_TARGET_STATE_FAILED"
  {
    StateTextIsNonBlank(task, task.targetState);
    Diagnostic(
      boundary, Text("FIXTURE_TARGET_STATE_FAILED"), text, StateText(task, task.targetState), text, retryable,
      Text("Repair the fixture"))
  }

  /** Quick validation, with one repair when there is a repairer.  Returns the
      report if the job ends here, the number of repairs that ran, and the
      failure that a repair answered. */
  method RunQuickStage(task: FixtureTask, w: JobWorld)
    returns (failure: Option<WorkerResult>, repairs: nat, first: Option<Diagnostic>)
    requires GoodTexts(task, w)
    ensures repairs <= 1 && (repairs == 1 <==> w.quick.Some? && w.repair.Some?)
    ensures first.Some? <==> w.quick.Some?
    ensures first.Some? ==>
              && ValidDiagnostic(first.value) && first.value.boundary == "quick-validation"
              && first.value.code == "FIXTURE_TARGET_STATE_FAILED"
    ensures failure.None? <==> QuickPasses(w) && (w.quick.Some? ==> WithinBoundary(w.repairedPaths, task.allowedPaths))
    ensures failure.Some? ==>
              && ValidResult(failure.value) && !failure.value.ready
              && failure.value.worker.repairAttempts == repairs && failure.value.firstFailure == first
              && QuickTold(task, w, failure.value)
  {
    repairs, first := 0, None;
    if w.quick.None? {
      return None, repairs, first;
    }
    var passed := Boundary(Pass, None);
    var d := TargetDiagnostic(task, Text("quick-validation"), w.quick.value, true);
    first := Some(d);
    if w.repair.None? {
      var r := FailureResult(task, w, d, false, passed, TargetFailed(), NO_VALIDATION, 0, first);
      return Some(r), repairs, first;
    }
    repairs := 1;
    if w.repair.value.RepairFailed? {
      var e := Diagnostic(
        Text("repair-execution"), w.repair.value.code, w.repair.value.summary, Text("successful repair"),
        w.repair.value.summary, false, Text("Inspect the failure"));
      var r := FailureResult(task, w, e, false, passed, TargetFailed(), NO_VALIDATION, repairs, first);
      return Some(r), repairs, first;
    }
    if !WithinBoundary(w.repairedPaths, task.allowedPaths) {
      var r := BoundaryFailure(task, w, Text("repair-patch-boundary"), TargetFailed(), repairs, first);
      return Some(r), repairs, first;
    }
    if w.requick.Some? {
      var e := TargetDiagnostic(task, Text("repair-quick-validation"), w.requick.value, false);
      var r := FailureResult(task, w, e, false, passed, TargetFailed(), NO_VALIDATION, repairs, first);
      return Some(r), repairs, first;
    }
    return None, repairs, first;
  }

  /** Trusted quick commands after the target check. */
  method RunQuickCommands(w: JobWorld) returns (quick: Validation)
    requires forall c | c in w.quickCommands :: NonBlank(c.name)
    ensures ValidValidation(quick)
    ensures quick.result == if AllSucceed(w.quickCommands) then Pass else Fail
    ensures quick.failureCode == if AllSucceed(w.quickCommands) then None else Some("CONSUMER_QUICK_VALIDATION_FAILED")
  {
    var target := [Stage(Text(TARGET_STAGE), Pass, None)];
    var trusted := RunTrustedValidation(w.quickCommands, Text("CONSUMER_QUICK_VALIDATION_FAILED"));
    JoinedStages(target, trusted.stages);
    if trusted.result == Fail {
      assert StageFailed(trusted.stages);
    }
    quick := Validation(trusted.result, target + trusted.stages, trusted.failureCode);
  }

  /** The ready report. */
  function ReadyResult(
    task: FixtureTask, w: JobWorld, quick: Validation, full: Validation, repairs: nat, first: Option<Diagnostic>): (r: WorkerResult)
    requires GoodTexts(task, w) && ValidValidation(quick) && ValidValidation(full)
    requires quick.result == Pass && full.result == Pass && FinalPaths(w) != []
    requires (first.Some? <==> repairs > 0) && (first.Some? ==> ValidDiagnostic(first.value))
    ensures ValidResult(r) && r.ready && r.worker.repairAttempts == repairs
    ensures r.changedPaths == FinalPaths(w) && r.firstFailure == first && ReadyTold(r)
  {
    WorkerResult(
      task.taskId, task.consumer, None, Some(w.content), DirtyCandidate, FinalPaths(w),
      Boundary(Pass, None), quick, full, Worker(Pass, None, None, repairs), first, true)
  }

  function ValidationDiagnostic(stage: string, summary: string, code: string, retryable: bool, action: string): (d: Diagnostic)
    requires NonBlank(stage) && NonBlank(summary) && NonBlank(code) && NonBlank(action)
    ensures ValidDiagnostic(d) && d.boundary == stage && d.code == code
  {
    NonBlankPart(Text("failure_code="), code);
    Diagnostic(stage, code, summary, Text("all stages pass"), Text("failure_code=") + code, retryable, action)
  }

  /** The report of a validation that failed, as its stages tell it. */
  method ReportValidation(
    task: FixtureTask, w: JobWorld, d: Diagnostic, quick: Validation, full: Validation, repairs: nat, first: Option<Diagnostic>)
    returns (r: WorkerResult)
    requires GoodTexts(task, w) && ValidDiagnostic(d) && ValidValidation(quick) && ValidValidation(full)
    requires FinalPaths(w) != []
    requires (first.Some? <==> repairs > 0) && (first.Some? ==> ValidDiagnostic(first.value))
    ensures ValidResult(r) && r.worker.repairAttempts == repairs && !r.ready
    ensures r.firstFailure == if first.Some? then first else Some(d)
    ensures r.worker.result == Fail && r.worker.failureCode == Some(d.code)
    ensures r.patch.result == Pass && r.quick == quick && r.full == full
  {
    r := FailureResult(task, w, d, false, Boundary(Pass, None), quick, full, repairs, first);
  }

  /** What comes after the quick stage: the trusted commands. */
  method RunValidations(task: FixtureTask, w: JobWorld, repairs: nat, first: Option<Diagnostic>) returns (r: WorkerResult)
    requires GoodTexts(task, w) && FinalPaths(w) != []
    requires first.Some? <==> repairs > 0
    requires first.Some? ==>
               && ValidDiagnostic(first.value) && first.value.boundary == "quick-validation"
               && first.value.code == "FIXTURE_TARGET_STATE_FAILED"
    ensures ValidResult(r) && r.worker.repairAttempts == repairs
    ensures r.ready <==> AllSucceed(w.quickCommands) && FullPasses(w)
    ensures r.ready ==> r.changedPaths == FinalPaths(w) && r.firstFailure == first && ReadyTold(r)
    ensures !r.ready ==> ValidationTold(w, r)
  {
    var quick := RunQuickCommands(w);
    if quick.result == Fail {
      var d := ValidationDiagnostic(
        Text("quick-validation"), Text("quick validation failed"), quick.failureCode.value, false, Text("Inspect the stage"));
      r := ReportValidation(task, w, d, quick, NO_VALIDATION, repairs, first);
      return;
    }
    var full := RunFixtureFullValidation(w);
    if full.result == Fail {
      var d := ValidationDiagnostic(
        Text("full-validation"), Text("full validation failed"), full.failureCode.value, true, Text("Repair the fixture"));
      r := ReportValidation(task, w, d, quick, full, repairs, first);
      return;
    }
    r := ReadyResult(task, w, quick, full, repairs, first);
  }

  /** How a job that has a candidate is reported. */
  predicate CandidateTold(task: FixtureTask, w: JobWorld, r: WorkerResult) {
    if !QuickPasses(w) || (w.quick.Some? && !WithinBoundary(w.repairedPaths, task.allowedPaths)) then
      QuickTold(task, w, r)
    else if !AllSucceed(w.quickCommands) || !FullPasses(w) then ValidationTold(w, r)
    else ReadyTold(r)
  }

  /** The mutation is within its boundary: the quick stage, with its one repair,
      and the validations behind it. */
  method RunCandidate(task: FixtureTask, w: JobWorld) returns (r: WorkerResult, repairs: nat)
    requires GoodTexts(task, w) && WithinBoundary(w.paths, task.allowedPaths)
    ensures ValidResult(r)
    ensures repairs <= 1 && r.worker.repairAttempts == repairs
    ensures r.ready <==>
              && QuickPasses(w) && WithinBoundary(FinalPaths(w), task.allowedPaths)
              && AllSucceed(w.quickCommands) && FullPasses(w)
    ensures r.ready ==> r.changedPaths == FinalPaths(w)
    ensures repairs == 1 ==> w.quick.Some? && w.repair.Some?
    ensures r.firstFailure.Some? <==> !r.ready || repairs == 1
    ensures CandidateTold(task, w, r)
  {
    var first: Option<Diagnostic>;
    var failure: Option<WorkerResult>;
    failure, repairs, first := RunQuickStage(task, w);
    if failure.Some? {
      return failure.value, repairs;
    }
    r := RunValidations(task, w, repairs, first);
  }

  /** Where a job ends is what its report tells. */
  predicate JobTold(task: FixtureTask, w: JobWorld, r: WorkerResult) {
    if w.dirty.Some? || w.initial.Some? || !w.mutation.Mutated? || !WithinBoundary(w.paths, task.allowedPaths) then
      StartTold(w, r)
    else CandidateTold(task, w, r)
  }

  lemma GatesAreStages(task: FixtureTask, w: JobWorld)
    ensures GatesPass(task, w) <==>
              && w.dirty.None? && w.initial.None? && w.mutation.Mutated? && WithinBoundary(w.paths, task.allowedPaths)
              && QuickPasses(w) && WithinBoundary(FinalPaths(w), task.allowedPaths)
              && AllSucceed(w.quickCommands) && FullPasses(w)
  {
  }

  /** One job.  Whatever happens, the report is one that the validator accepts;
      at most one repair runs; the report is ready exactly if every gate passed,
      and then its paths are those of the final check: some, all allowed. */
  method RunFixtureJob(task: FixtureTask, w: JobWorld) returns (r: WorkerResult, repairs: nat)
    requires GoodTexts(task, w)
    ensures ValidResult(r)
    ensures repairs <= 1 && r.worker.repairAttempts == repairs
    ensures r.ready <==> GatesPass(task, w)
    ensures r.ready ==> r.changedPaths == if w.quick.None? then w.paths else w.repairedPaths
    ensures r.ready ==> r.changedPaths != [] && forall p | p in r.changedPaths :: p in task.allowedPaths
    ensures repairs == 1 ==> w.quick.Some? && w.repair.Some?
    ensures r.firstFailure.Some? <==> !r.ready || repairs == 1
    ensures JobTold(task, w, r)
  {
    GatesAreStages(task, w);
    var early := RunPreconditions(task, w);
    if early.Some? {
      return early.value, 0;
    }
    r, repairs := RunCandidate(task, w);
  }
}
