/** Worker result manifests and the checks that accept them. */
module WorkerResults {
  import opened Outcomes
  import opened PosixPaths
  import Canonical

  datatype Verdict = Pass | Fail | NotRun

  datatype Boundary = Boundary(result: Verdict, failureCode: Option<string>)

  datatype Stage = Stage(name: string, result: Verdict, failureCode: Option<string>)

  datatype Validation = Validation(result: Verdict, stages: seq<Stage>, failureCode: Option<string>)

  datatype Worker = Worker(result: Verdict, failureCode: Option<string>, summary: Option<string>, repairAttempts: int)

  datatype Diagnostic = Diagnostic(
    boundary: string, code: string, summary: string, expected: string, observed: string,
    retryable: bool, nextAction: string)

  datatype WorkspaceState = CleanWorkspace | PreexistingDirty | DirtyCandidate | CommittedCandidate

  /** Digests and commits are opaque; `content` is the candidate's digest. */
  datatype WorkerResult = WorkerResult(
    taskId: string, consumer: string, candidateSha: Option<string>, content: Option<string>,
    workspace: WorkspaceState, changedPaths: seq<string>,
    patch: Boundary, quick: Validation, full: Validation,
    worker: Worker, firstFailure: Option<Diagnostic>, ready: bool)

  /** The characters that stripping removes. */
  predicate Blank(c: char) {
    var n := c as int;
    || 9 <= n <= 13 || 28 <= n <= 32 || n == 0x85 || n == 0xA0 || n == 0x1680
    || 0x2000 <= n <= 0x200A || n == 0x2028 || n == 0x2029 || n == 0x202F || n == 0x205F || n == 0x3000
  }

  /** Text that is not empty once it is stripped. */
  predicate NonBlank(s: string) {
    exists k | 0 <= k < |s| :: !Blank(s[k])
  }

  /** A text that starts with a letter. */
  function Text(s: string): (t: string)
    requires s != [] && !Blank(s[0])
    ensures t == s && NonBlank(t)
  {
    s
  }

  lemma NonBlankPart(a: string, b: string)
    requires NonBlank(a) || NonBlank(b)
    ensures NonBlank(a + b)
  {
    if k :| 0 <= k < |a| && !Blank(a[k]) {
      assert (a + b)[k] == a[k];
    } else {
      var k :| 0 <= k < |b| && !Blank(b[k]);
      assert (a + b)[|a| + k] == b[k];
    }
  }

  predicate CodeMatches(result: Verdict, code: Option<string>) {
    if result == Fail then code.Some? && NonBlank(code.value) else code.None?
  }

  predicate ValidStages(stages: seq<Stage>) {
    forall t | t in stages :: NonBlank(t.name) && CodeMatches(t.result, t.failureCode)
  }

  predicate StageFailed(stages: seq<Stage>) {
    exists t | t in stages :: t.result == Fail
  }

  predicate ValidValidation(v: Validation) {
    && CodeMatches(v.result, v.failureCode)
    && ValidStages(v.stages)
    && (v.result == NotRun ==> v.stages == [])
    && (v.result == Pass ==> !StageFailed(v.stages))
    && (v.result == Fail && v.stages != [] ==> StageFailed(v.stages))
  }

  predicate ValidWorker(w: Worker) {
    && w.result != NotRun
    && (w.result == Fail ==> w.failureCode.Some? && NonBlank(w.failureCode.value) && w.summary.Some? && NonBlank(w.summary.value))
    && (w.result == Pass ==> w.failureCode.None? && w.summary.None?)
    && w.repairAttempts >= 0
  }

  predicate ValidDiagnostic(d: Diagnostic) {
    && NonBlank(d.boundary) && NonBlank(d.code) && NonBlank(d.summary)
    && NonBlank(d.expected) && NonBlank(d.observed) && NonBlank(d.nextAction)
  }

  /** A normalized repository-relative path. */
  predicate NormalPath(path: string) {
    && NonBlank(path)
    && '\\' !in path
    && (forall n | n in Split(path) :: n != [] && n != "." && n != "..")
    && ':' !in Split(path)[0]
  }

  predicate NormalPaths(paths: seq<string>) {
    && (forall j, k | 0 <= j < k < |paths| :: Canonical.Less(paths[j], paths[k]))
    && (forall p | p in paths :: NormalPath(p))
  }

  predicate HasFailure(r: WorkerResult) {
    r.patch.result == Fail || r.quick.result == Fail || r.full.result == Fail || r.worker.result == Fail
  }

  predicate ComputeReady(r: WorkerResult) {
    && r.worker.result == Pass
    && r.patch.result == Pass
    && r.quick.result == Pass
    && r.full.result == Pass
    && r.workspace in {DirtyCandidate, CommittedCandidate}
    && r.changedPaths != []
    && r.content.Some?
  }

  predicate ValidIdentity(r: WorkerResult) {
    && NonBlank(r.taskId)
    && NonBlank(r.consumer)
    && (r.workspace == CommittedCandidate ==> r.candidateSha.Some?)
    && (r.workspace in {CleanWorkspace, PreexistingDirty} ==> r.changedPaths == [])
    && (r.workspace == PreexistingDirty ==> r.candidateSha.None? && r.content.None?)
    && NormalPaths(r.changedPaths)
  }

  /** First failures are told exactly by failed and by repaired results. */
  predicate ValidFailure(r: WorkerResult) {
    && (r.firstFailure.Some? <==> HasFailure(r) || r.worker.repairAttempts > 0)
    && (r.firstFailure.Some? ==> ValidDiagnostic(r.firstFailure.value))
  }

  /** `validate_worker_result`. */
  predicate ValidResult(r: WorkerResult) {
    && ValidIdentity(r)
    && CodeMatches(r.patch.result, r.patch.failureCode)
    && ValidValidation(r.quick)
    && ValidValidation(r.full)
    && ValidWorker(r.worker)
    && ValidFailure(r)
    && (r.ready <==> ComputeReady(r))
  }

  /** What a manifest that the validator accepts tells: ready exactly with every
      check passed over a changed candidate; a first failure exactly after a
      failure or a repair; a reason for each failure and none without; and each
      changed path once. */
  lemma ValidResultsTell(r: WorkerResult)
    requires ValidResult(r)
    ensures r.ready <==>
              && r.worker.result == Pass && r.patch.result == Pass && r.quick.result == Pass && r.full.result == Pass
              && r.workspace in {DirtyCandidate, CommittedCandidate} && r.changedPaths != [] && r.content.Some?
    ensures r.firstFailure.Some? <==>
              || r.worker.result == Fail || r.patch.result == Fail || r.quick.result == Fail || r.full.result == Fail
              || r.worker.repairAttempts > 0
    ensures r.worker.failureCode.Some? <==> r.worker.result == Fail
    ensures r.worker.result == Pass || r.worker.result == Fail
    ensures forall v | v in [r.quick, r.full] ::
              && (v.failureCode.Some? <==> v.result == Fail)
              && (v.result == Pass ==> forall t | t in v.stages :: t.result != Fail)
              && (v.result == Fail && v.stages != [] ==> exists t | t in v.stages :: t.result == Fail)
              && (v.result == NotRun ==> v.stages == [])
    ensures forall j, k | 0 <= j < |r.changedPaths| && 0 <= k < |r.changedPaths| :: r.changedPaths[j] == r.changedPaths[k] ==> j == k
  {
    forall j, k | 0 <= j < |r.changedPaths| && 0 <= k < |r.changedPaths| && r.changedPaths[j] == r.changedPaths[k]
      ensures j == k
    {
      if j != k {
        Canonical.LessIsStrict(r.changedPaths[j], r.changedPaths[k]);
      }
    }
  }
}
