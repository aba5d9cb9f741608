/** Exactly which responses acceptance takes, and what it makes of them, on the
    fields of the response, the custody and the observations. */
module AcceptanceFacts {
  import opened Outcomes
  import opened Records
  import opened Acceptance

  /** Custody of a process that was sent its request, ended with exit code zero
      and left nothing alive. */
  predicate EndedWell(c: Custody, i: InvocationIdentity) {
    && c.invocationId == i.invocationId && c.invocationDigest == OfIdentity(i)
    && c.adapterPid.Some? && c.adapterTime.Some? && c.requestSent
    && c.state == AbsenceVerified && c.activeCount == Some(0) && c.exitCode == Some(0) && c.firstFailure.None?
  }

  /** One passing stage for every planned test, in order. */
  predicate PlanPassed(o: Observations, i: InvocationIdentity) {
    && o.stages.Ok? && |o.stages.value| == |i.testIds|
    && forall k | 0 <= k < |i.testIds| :: o.stages.value[k] == Stage(i.testIds[k], StagePass, None)
  }

  /** A read-only proposal that is to be accepted: the response tells the truth
      about its own bytes, the text is bounded and screened, and the workspace is
      seen to be the sealed one, unchanged, with its content at launch. */
  predicate TruthfulProposal(response: Response, i: InvocationIdentity, c: Custody, o: Observations) {
    && EndedWell(c, i)
    && response.ReadOnlyResponse?
    && response.invocationDigest == OfIdentity(i) && response.promptDigest == i.promptDigest
    && response.runtimeIdentity == o.runtimeIdentity
    && 1 <= |response.proposalContent| <= 32_768 && (forall b | b in response.proposalContent :: b != 0) && o.screened
    && response.proposalDigest == OfContent(Proposal(response.proposalContent))
    && response.outputDigest == OfContent(Proposal(response.proposalContent))
    && response.stdoutBytes == |response.proposalContent| && response.stderrBytes == 0
    && o.workspace.Ok?
    && o.workspace.value.observedHead == i.authority.startingCommit
    && o.workspace.value.changedPaths == []
    && o.workspace.value.receiptDigest == i.workspaceReceiptDigest
    && o.workspace.value.rootDigest == i.workspaceRootDigest
    && o.workspace.value.pathDigest == i.workspacePathDigest
    && o.workspace.value.contentDigest == c.workspaceContentDigest
    && PlanPassed(o, i)
    && o.startedAt <= o.endedAt
  }

  /** A code task that is to be accepted: it changed exactly the authorized
      paths, by its own account and by Git's, on the sealed commit. */
  predicate TaskInScope(response: Response, i: InvocationIdentity, c: Custody, o: Observations) {
    && EndedWell(c, i)
    && response.WorkspaceWriteResponse?
    && response.invocationDigest == OfIdentity(i) && response.promptDigest == i.promptDigest
    && response.runtimeIdentity == o.runtimeIdentity
    && i.writablePaths != [] && response.changedPaths == i.writablePaths && o.gitChangedPaths == Ok(i.writablePaths)
    && o.workspace.Ok? && o.workspace.value.observedHead == i.authority.startingCommit
    && PlanPassed(o, i)
    && o.startedAt <= o.endedAt
  }

  predicate Acceptable(response: Response, i: InvocationIdentity, c: Custody, o: Observations) {
    match i.operation
    case ReadOnlyProposal => TruthfulProposal(response, i, c, o)
    case WorkspaceWriteCodeTask => TaskInScope(response, i, c, o)
  }

  /** What every accepted result takes over from the invocation, its custody and
      the observations. */
  predicate TakesOver(r: ResultRecord, i: InvocationIdentity, c: Custody, o: Observations) {
    && r.invocationDigest == OfIdentity(i) && r.requestDigest == OfIdentity(i)
    && r.invocationId == i.invocationId && r.attemptId == i.attemptId && r.operation == i.operation
    && r.frameworkInstallation == i.frameworkInstallation && r.runtimeIdentity == o.runtimeIdentity
    && r.promptDigest == i.promptDigest
    && r.catalogVersion == i.authority.catalogVersion && r.catalogDigest == i.authority.catalogDigest
    && r.testPlanDigest == i.testPlanDigest && r.testIds == i.testIds
    && r.workspaceReceiptDigest == i.workspaceReceiptDigest
    && r.workspaceRootDigest == i.workspaceRootDigest && r.workspacePathDigest == i.workspacePathDigest
    && r.startingCommit == i.authority.startingCommit && r.observedHead == i.authority.startingCommit
    && r.processOutcome == PassOutcome && r.processIdentity == Some(OfCustody(c))
    && r.startedAt == o.startedAt && r.endedAt == o.endedAt
    && o.stages == Ok(r.stages)
    && r.firstFailureBoundary.None? && r.failureCode.None? && !r.retryable
  }

  /** The result of an accepted proposal, and its retained text. */
  predicate RecordsProposal(x: Accepted, response: Response, i: InvocationIdentity, c: Custody, o: Observations)
    requires response.ReadOnlyResponse?
  {
    var digest := OfContent(Proposal(response.proposalContent));
    && TakesOver(x.result, i, c, o)
    && x.content == Proposal(response.proposalContent) && x.reference == ProposalFile(digest)
    && x.result.contentReference == Some(ProposalFile(digest))
    && x.result.proposalDigest == Some(digest) && x.result.candidateDigest.None? && x.result.outputDigest == digest
    && x.result.workspaceState == Unchanged && x.result.changedPaths == []
  }

  /** The result of an accepted code task, and its retained manifest. */
  predicate RecordsTask(x: Accepted, response: Response, i: InvocationIdentity, c: Custody, o: Observations)
    requires response.WorkspaceWriteResponse? && o.workspace.Ok?
  {
    && TakesOver(x.result, i, c, o)
    && x.content == CandidateManifest(
                      OfIdentity(i), response.candidateDigest, i.writablePaths, o.workspace.value.contentDigest)
    && x.reference == CandidateFile(OfContent(x.content))
    && x.result.contentReference == Some(x.reference)
    && x.result.proposalDigest.None? && x.result.candidateDigest == Some(OfContent(x.content))
    && x.result.outputDigest == OfResponse(response)
    && x.result.workspaceState == Changed && x.result.changedPaths == i.writablePaths
  }

  /** The accepted value that these inputs determine. */
  ghost predicate Determined(x: Accepted, response: Response, i: InvocationIdentity, c: Custody, o: Observations)
    requires Acceptable(response, i, c, o)
  {
    match i.operation
    case ReadOnlyProposal => RecordsProposal(x, response, i, c, o)
    case WorkspaceWriteCodeTask => RecordsTask(x, response, i, c, o)
  }

  lemma PlanIsPassed(stages: seq<Stage>, testIds: seq<string>)
    ensures StageIds(stages) == testIds && AllPass(stages) <==>
              |stages| == |testIds| && forall k | 0 <= k < |testIds| :: stages[k] == Stage(testIds[k], StagePass, None)
  {
    if StageIds(stages) == testIds && AllPass(stages) {
      forall k | 0 <= k < |testIds|
        ensures stages[k] == Stage(testIds[k], StagePass, None)
      {
        assert stages[k] in stages && StageIds(stages)[k] == stages[k].testId;
      }
    }
    if |stages| == |testIds| && forall k | 0 <= k < |testIds| :: stages[k] == Stage(testIds[k], StagePass, None) {
      assert StageIds(stages) == testIds;
    }
  }

  lemma ReadOnlyExactly(response: Response, i: InvocationIdentity, c: Custody, o: Observations)
    requires i.operation == ReadOnlyProposal
    ensures AcceptReadOnly(response, i, c, o).Ok? <==> TruthfulProposal(response, i, c, o)
    ensures AcceptReadOnly(response, i, c, o).Ok? ==>
              RecordsProposal(AcceptReadOnly(response, i, c, o).value, response, i, c, o)
  {
    if o.stages.Ok? {
      PlanIsPassed(o.stages.value, i.testIds);
    }
  }

  lemma WriteExactly(response: Response, i: InvocationIdentity, c: Custody, o: Observations)
    requires i.operation == WorkspaceWriteCodeTask
    ensures AcceptWorkspaceWrite(response, i, c, o).Ok? <==> TaskInScope(response, i, c, o)
    ensures AcceptWorkspaceWrite(response, i, c, o).Ok? ==>
              RecordsTask(AcceptWorkspaceWrite(response, i, c, o).value, response, i, c, o)
  {
    if o.stages.Ok? {
      PlanIsPassed(o.stages.value, i.testIds);
    }
  }

  /** Acceptance takes exactly the acceptable responses, and records exactly
      what they, the invocation, the custody and the observations say. */
  lemma AcceptsExactly(response: Response, i: InvocationIdentity, c: Custody, o: Observations)
    ensures Accept(response, i, c, o).Ok? <==> Acceptable(response, i, c, o)
    ensures Accept(response, i, c, o).Ok? ==> Determined(Accept(response, i, c, o).value, response, i, c, o)
  {
    if i.operation == ReadOnlyProposal {
      ReadOnlyExactly(response, i, c, o);
    } else {
      WriteExactly(response, i, c, o);
    }
  }

  /** A refusal tells its kind: custody first, then the response's shape and
      identity; nothing is retained. */
  lemma RefusalsTell(response: Response, i: InvocationIdentity, c: Custody, o: Observations)
    ensures !EndedWell(c, i) ==> Accept(response, i, c, o) == Err("INTEGRATION_OUTCOME_UNCERTAIN")
    ensures EndedWell(c, i) && response.Unreadable? ==> Accept(response, i, c, o) == Err("INTEGRATION_RESULT_INVALID")
    ensures EndedWell(c, i) && !response.Unreadable? && (response.ReadOnlyResponse? <==> i.operation != ReadOnlyProposal) ==>
              Accept(response, i, c, o) == Err("INTEGRATION_FIELDS_INVALID")
    ensures EndedWell(c, i) && !response.Unreadable? && (response.ReadOnlyResponse? <==> i.operation == ReadOnlyProposal)
            && !(response.invocationDigest == OfIdentity(i) && response.promptDigest == i.promptDigest
                 && response.runtimeIdentity == o.runtimeIdentity) ==>
              Accept(response, i, c, o) == Err("INTEGRATION_IDENTITY_INVALID")
  {
  }
}
