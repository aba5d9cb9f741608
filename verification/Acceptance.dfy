/** Turning an adapter response into a result record, and the checks that bind
    a result to its invocation. */
module Acceptance {
  import opened Outcomes
  import opened Records

  const MAX_PROPOSAL_BYTES := 32_768

  /** Durable custody of a dispatched invocation that ended well. */
  predicate VerifiedSuccess(c: Custody, i: InvocationIdentity) {
    && c.invocationId == i.invocationId
    && c.invocationDigest == OfIdentity(i)
    && c.adapterPid.Some?
    && c.adapterTime.Some?
    && c.requestSent
    && c.state == AbsenceVerified
    && c.activeCount == Some(0)
    && c.exitCode == Some(0)
    && c.firstFailure.None?
  }

  predicate ValidStage(t: Stage) {
    t.outcome == StageFail <==> t.failureCode.Some?
  }

  function StageIds(stages: seq<Stage>): (ids: seq<string>)
    ensures |ids| == |stages|
  {
    seq(|stages|, k requires 0 <= k < |stages| => stages[k].testId)
  }

  predicate AllPass(stages: seq<Stage>) {
    forall t | t in stages :: t.outcome == StagePass && t.failureCode.None?
  }

  /** What loading a result record demands beyond field formats. */
  predicate ValidResult(r: ResultRecord) {
    var failed := r.processOutcome == FailOutcome || r.processOutcome == UncertainOutcome;
    && !r.retryable
    && (forall t | t in r.stages :: ValidStage(t))
    && (failed <==> r.firstFailureBoundary.Some? && r.failureCode.Some?)
    && (r.processOutcome == PassOutcome ==> r.firstFailureBoundary.None? && r.failureCode.None?)
    && r.startedAt <= r.endedAt
    && StageIds(r.stages) <= r.testIds
    && match r.operation
       case ReadOnlyProposal =>
         && r.changedPaths == []
         && r.candidateDigest.None?
         && (r.processOutcome == PassOutcome ==>
               r.proposalDigest.Some? && r.processIdentity.Some? && r.contentReference.Some?)
       case WorkspaceWriteCodeTask =>
         && r.proposalDigest.None?
         && (r.processOutcome == PassOutcome ==>
               && r.processIdentity.Some?
               && r.workspaceState == Changed
               && r.changedPaths != []
               && r.candidateDigest.Some?
               && r.contentReference.Some?
               && StageIds(r.stages) == r.testIds
               && AllPass(r.stages))
  }

  /** The identity comparison of `parse_result`. */
  predicate BindsInvocation(r: ResultRecord, i: InvocationIdentity) {
    && r.invocationDigest == OfIdentity(i)
    && r.requestDigest == OfIdentity(i)
    && r.invocationId == i.invocationId
    && r.attemptId == i.attemptId
    && r.operation == i.operation
    && r.frameworkInstallation == i.frameworkInstallation
    && r.promptDigest == i.promptDigest
    && r.catalogVersion == i.authority.catalogVersion
    && r.catalogDigest == i.authority.catalogDigest
    && r.testPlanDigest == i.testPlanDigest
    && r.testIds == i.testIds
    && r.workspaceReceiptDigest == i.workspaceReceiptDigest
    && r.workspaceRootDigest == i.workspaceRootDigest
    && r.workspacePathDigest == i.workspacePathDigest
    && r.startingCommit == i.authority.startingCommit
  }

  /** What the lab itself observes in the workspace after the adapter exits. */
  datatype WorkspaceEvidence = WorkspaceEvidence(
    observedHead: string, changedPaths: seq<string>,
    receiptDigest: Digest, rootDigest: Digest, pathDigest: Digest, contentDigest: Digest)

  /** Everything `accept_*` learns from outside the record stores.
      `screened` says whether the proposal text holds no forbidden marker. */
  datatype Observations = Observations(
    runtimeIdentity: Digest, startedAt: int, endedAt: int,
    screened: bool,
    gitChangedPaths: Result<seq<string>>,
    workspace: Result<WorkspaceEvidence>,
    stages: Result<seq<Stage>>)

  /** An accepted result and the content its reference names. */
  datatype Accepted = Accepted(result: ResultRecord, reference: Reference, content: Content)

  function BaseResult(i: InvocationIdentity, custody: Custody, o: Observations, head: string, stages: seq<Stage>): ResultRecord {
    ResultRecord(
      OfIdentity(i), OfIdentity(i), i.invocationId, i.attemptId, i.operation,
      i.frameworkInstallation, o.runtimeIdentity, i.promptDigest,
      i.authority.catalogVersion, i.authority.catalogDigest, i.testPlanDigest, i.testIds,
      i.workspaceReceiptDigest, i.workspaceRootDigest, i.workspacePathDigest,
      i.authority.startingCommit, head, PassOutcome, Some(OfCustody(custody)),
      o.startedAt, o.endedAt, Unchanged, [], None, None, stages, None, None,
      OfDocument(""), None, false)
  }

  function AcceptReadOnly(response: Response, i: InvocationIdentity, custody: Custody, o: Observations): (r: Result<Accepted>) {
    if !VerifiedSuccess(custody, i) then Err("INTEGRATION_OUTCOME_UNCERTAIN")
    else if response.Unreadable? then Err("INTEGRATION_RESULT_INVALID")
    else if !response.ReadOnlyResponse? then Err("INTEGRATION_FIELDS_INVALID")
    else if
      || response.invocationDigest != OfIdentity(i)
      || response.promptDigest != i.promptDigest
      || response.runtimeIdentity != o.runtimeIdentity
    then Err("INTEGRATION_IDENTITY_INVALID")
    else
      var content := Proposal(response.proposalContent);
      var digest := OfContent(content);
      if !(0 < |response.proposalContent| <= MAX_PROPOSAL_BYTES) || 0 in response.proposalContent || !o.screened then
        Err("INTEGRATION_RESULT_INVALID")
      else if response.proposalDigest != digest || response.outputDigest != digest then
        Err("INTEGRATION_IDENTITY_INVALID")
      else if response.stdoutBytes != |response.proposalContent| || response.stderrBytes != 0 then
        Err("INTEGRATION_RESULT_INVALID")
      else
        var workspace :- o.workspace;
        var stages :- o.stages;
        if
          || workspace.observedHead != i.authority.startingCommit
          || workspace.changedPaths != []
          || workspace.receiptDigest != i.workspaceReceiptDigest
          || workspace.rootDigest != i.workspaceRootDigest
          || workspace.pathDigest != i.workspacePathDigest
          || workspace.contentDigest != custody.workspaceContentDigest
          || StageIds(stages) != i.testIds
          || !AllPass(stages)
        then Err("INTEGRATION_RESULT_INVALID")
        else
          var result := BaseResult(i, custody, o, workspace.observedHead, stages).(
                          proposalDigest := Some(digest),
                          outputDigest := digest,
                          contentReference := Some(ProposalFile(digest)));
          // ProposalStore.store retains read-only proposals only.
          if !ValidResult(result) || result.operation != ReadOnlyProposal then Err("INTEGRATION_RESULT_INVALID")
          else Ok(Accepted(result, ProposalFile(digest), content))
  }

  function AcceptWorkspaceWrite(response: Response, i: InvocationIdentity, custody: Custody, o: Observations): (r: Result<Accepted>) {
    if i.operation != WorkspaceWriteCodeTask then Err("INTEGRATION_OPERATION_INVALID")
    else if !VerifiedSuccess(custody, i) then Err("INTEGRATION_OUTCOME_UNCERTAIN")
    else if response.Unreadable? then Err("INTEGRATION_RESULT_INVALID")
    else if !response.WorkspaceWriteResponse? then Err("INTEGRATION_FIELDS_INVALID")
    else if
      || response.invocationDigest != OfIdentity(i)
      || response.promptDigest != i.promptDigest
      || response.runtimeIdentity != o.runtimeIdentity
    then Err("INTEGRATION_IDENTITY_INVALID")
    else
      var paths :- o.gitChangedPaths;
      if response.changedPaths != i.writablePaths || paths != i.writablePaths then Err("INTEGRATION_SCOPE_INVALID")
      else
        var workspace :- o.workspace;
        if workspace.observedHead != i.authority.startingCommit then Err("INTEGRATION_IDENTITY_INVALID")
        else
          var stages :- o.stages;
          if StageIds(stages) != i.testIds || !AllPass(stages) then Err("INTEGRATION_RESULT_INVALID")
          else
            var content := CandidateManifest(OfIdentity(i), response.candidateDigest, paths, workspace.contentDigest);
            var digest := OfContent(content);
            var result := BaseResult(i, custody, o, workspace.observedHead, stages).(
                            workspaceState := Changed,
                            changedPaths := paths,
                            candidateDigest := Some(digest),
                            outputDigest := OfResponse(response),
                            contentReference := Some(CandidateFile(digest)));
            if !ValidResult(result) then Err("INTEGRATION_RESULT_INVALID")
            else Ok(Accepted(result, CandidateFile(digest), content))
  }

  function Accept(response: Response, i: InvocationIdentity, custody: Custody, o: Observations): (r: Result<Accepted>) {
    if i.operation == ReadOnlyProposal then AcceptReadOnly(response, i, custody, o)
    else AcceptWorkspaceWrite(response, i, custody, o)
  }

  /** Retained content agrees with the digests a result records for it. */
  predicate ContentMatches(r: ResultRecord, c: Content) {
    match r.operation
    case ReadOnlyProposal =>
      c.Proposal? && r.outputDigest == OfContent(c) && r.proposalDigest == Some(OfContent(c))
    case WorkspaceWriteCodeTask =>
      && c.CandidateManifest?
      && r.candidateDigest == Some(OfContent(c))
      && c.invocationDigest == r.invocationDigest
      && c.changedPaths == r.changedPaths
  }

  /** An accepted result is well formed, bound to its invocation and to the
      custody it was judged on, and its content is the content it names. */
  lemma AcceptedResultIsBound(response: Response, i: InvocationIdentity, custody: Custody, o: Observations)
    requires Accept(response, i, custody, o).Ok?
    ensures var x := Accept(response, i, custody, o).value;
            && VerifiedSuccess(custody, i)
            && ValidResult(x.result)
            && BindsInvocation(x.result, i)
            && x.result.processOutcome == PassOutcome
            && x.result.processIdentity == Some(OfCustody(custody))
            && x.result.contentReference == Some(x.reference)
            && x.reference.digest == OfContent(x.content)
            && ContentMatches(x.result, x.content)
            && StageIds(x.result.stages) == i.testIds
            && AllPass(x.result.stages)
  {
    if i.operation == ReadOnlyProposal {
      assert AcceptReadOnly(response, i, custody, o).Ok?;
    } else {
      assert AcceptWorkspaceWrite(response, i, custody, o).Ok?;
    }
  }
}
