/** The durable records of the lab.

    A digest is modelled as a term that contains the digested record, so two
    digests are equal exactly when the records are.  Timestamps are integers.
    Fields that validation pins to one constant (schema and contract versions,
    runtime profile, model, effort, timeout) and fixed report texts carry no
    information and are left out of the records. */
module Records {
  import opened Outcomes

  type Id = string

  newtype Byte = b: int | 0 <= b < 256

  type Bytes = seq<Byte>

  datatype Digest =
    | OfInvocation(invocation: Invocation)
    | OfIdentity(identity: InvocationIdentity)
    | OfResult(result: ResultRecord)
    | OfCustody(custody: Custody)
    | OfReceipt(receipt: Receipt)
    | OfContent(content: Content)
    | OfResponse(response: Response)
    | OfPath(path: string)
    | OfDocument(document: string)

  // ----- attempts

  datatype AttemptState =
    Draft | Ready | Running | Candidate | Evaluating
    | Passed | Failed | NeedsReview | Closed | Aborted

  datatype Sandbox = ReadOnlySandbox | WorkspaceWriteSandbox

  /** The protected inputs that an attempt and its invocation must share. */
  datatype Authority = Authority(
    exerciseId: Id, exerciseVersion: int,
    policyId: Id, policyVersion: int, policyDigest: Digest,
    roleId: Id, roleVersion: int, roleDigest: Digest,
    contextDigest: Digest, taskDigest: Digest,
    catalogVersion: string, catalogDigest: Digest,
    startingCommit: string, sandbox: Sandbox)

  datatype Attempt = Attempt(
    attemptId: Id, curriculumId: Id, authority: Authority,
    createdAt: int, priorAttemptId: Option<Id>,
    state: AttemptState, updatedAt: int,
    runtimeIdentity: Option<Digest>,
    candidateDigest: Option<Digest>,
    cleanupOutcome: Option<string>)

  // ----- invocations

  datatype Operation = ReadOnlyProposal | WorkspaceWriteCodeTask

  datatype InvocationState =
    Prepared | Authorized | Dispatching | Completed | Uncertain | Rejected | AbortedInvocation

  /** Everything of an invocation that its identity digest covers. */
  datatype InvocationIdentity = InvocationIdentity(
    invocationId: Id, attemptId: Id, operation: Operation,
    exerciseDigest: Digest, contextManifestId: Id, contextManifestVersion: int,
    authority: Authority,
    testPlanDigest: Digest, testIds: seq<string>,
    workerLabInstallation: Digest, frameworkInstallation: Digest,
    workspaceReceiptDigest: Digest, workspaceRootDigest: Digest, workspacePathDigest: Digest,
    readablePaths: seq<(string, Digest)>, writablePaths: seq<string>,
    promptDigest: Digest)

  datatype Invocation = Invocation(
    identity: InvocationIdentity,
    authorizedBy: Option<string>, authorizedAt: Option<int>,
    state: InvocationState,
    resultDigest: Option<Digest>)

  // ----- process custody

  datatype CustodyState =
    PreparedCustody | Assigned | DispatchingCustody | Exited | Terminated
    | UncertainCustody | AbsenceVerified

  datatype Custody = Custody(
    invocationDigest: Digest, invocationId: Id,
    controllerPid: int, controllerTime: int,
    adapterPid: Option<int>, adapterTime: Option<int>,
    workspaceContentDigest: Digest,
    state: CustodyState, requestSent: bool,
    exitCode: Option<int>, activeCount: Option<nat>,
    absenceVerifiedAt: Option<int>, firstFailure: Option<string>)

  // ----- results and retained content

  datatype ProcessOutcome = PassOutcome | FailOutcome | NotRunOutcome | UncertainOutcome

  datatype WorkspaceState = Unchanged | Changed | BoundaryFailed | UnknownWorkspace

  datatype StageOutcome = StagePass | StageFail | StageNotRun

  datatype Stage = Stage(testId: string, outcome: StageOutcome, failureCode: Option<string>)

  datatype ResultRecord = ResultRecord(
    invocationDigest: Digest, requestDigest: Digest,
    invocationId: Id, attemptId: Id, operation: Operation,
    frameworkInstallation: Digest, runtimeIdentity: Digest, promptDigest: Digest,
    catalogVersion: string, catalogDigest: Digest,
    testPlanDigest: Digest, testIds: seq<string>,
    workspaceReceiptDigest: Digest, workspaceRootDigest: Digest, workspacePathDigest: Digest,
    startingCommit: string, observedHead: string,
    processOutcome: ProcessOutcome, processIdentity: Option<Digest>,
    startedAt: int, endedAt: int,
    workspaceState: WorkspaceState, changedPaths: seq<string>,
    proposalDigest: Option<Digest>, candidateDigest: Option<Digest>,
    stages: seq<Stage>,
    firstFailureBoundary: Option<string>, failureCode: Option<string>,
    outputDigest: Digest, contentReference: Option<Reference>, retryable: bool)

  /** Retained content.  A manifest stands for its canonical JSON bytes. */
  datatype Content =
    | Prompt(text: Bytes)
    | Proposal(bytes: Bytes)
    | CandidateManifest(
        invocationDigest: Digest, frameworkCandidate: Digest,
        changedPaths: seq<string>, workspaceContentDigest: Digest)

  /** A content-addressed file name below the state directory. */
  datatype Reference = PromptFile(digest: Digest) | ProposalFile(digest: Digest) | CandidateFile(digest: Digest)

  /** A decoded adapter response; `Unreadable` is any byte string that is
      longer than 65,536 bytes or not the canonical JSON of a response. */
  datatype Response =
    | ReadOnlyResponse(
        invocationDigest: Digest, promptDigest: Digest, runtimeIdentity: Digest,
        proposalDigest: Digest, outputDigest: Digest, proposalContent: Bytes,
        stdoutBytes: int, stderrBytes: int)
    | WorkspaceWriteResponse(
        invocationDigest: Digest, promptDigest: Digest, runtimeIdentity: Digest,
        taskDigest: Digest, contextDigest: Digest, candidateDigest: Digest,
        changedPaths: seq<string>)
    | Unreadable

  // ----- workspace receipts

  datatype ReceiptState = PreparedReceipt | QuarantinedReceipt

  datatype Receipt = Receipt(
    attemptId: Id, exerciseId: Id, exerciseVersion: int,
    templateRepository: string, templateCommit: string,
    workspaceRootDigest: Digest, workspacePathDigest: Digest,
    relativePath: string, createdAt: int, state: ReceiptState)
}
