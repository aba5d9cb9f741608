/** Dispatch implies review: in the state it leaves and in every later one. */
module DispatchReview {
  import opened Outcomes
  import opened Records
  import opened Lifecycle
  import opened Stores
  import opened Acceptance
  import opened AcceptanceFacts
  import opened Commands
  import opened Protocol
  import opened Histories
  import opened Encoding
  import opened Reviews

  // ----- the size of a result is known before the dispatch

  function PassingStages(testIds: seq<string>): (stages: seq<Stage>)
    ensures |stages| == |testIds|
    ensures forall k | 0 <= k < |testIds| :: stages[k] == Stage(testIds[k], StagePass, None)
  {
    seq(|testIds|, k requires 0 <= k < |testIds| => Stage(testIds[k], StagePass, None))
  }

  /** The result an invocation will have if it is accepted, with a stand-in for
      each digest and time that only the run can tell. */
  function PlannedResult(i: InvocationIdentity): ResultRecord {
    var unknown := OfDocument("");
    var readOnly := i.operation == ReadOnlyProposal;
    ResultRecord(
      unknown, unknown, i.invocationId, i.attemptId, i.operation,
      unknown, unknown, unknown, i.authority.catalogVersion, unknown, unknown, i.testIds,
      unknown, unknown, unknown, i.authority.startingCommit, i.authority.startingCommit,
      PassOutcome, Some(unknown), 0, 0,
      if readOnly then Unchanged else Changed, if readOnly then [] else i.writablePaths,
      if readOnly then Some(unknown) else None, if readOnly then None else Some(unknown),
      PassingStages(i.testIds), None, None, unknown,
      Some(if readOnly then ProposalFile(unknown) else CandidateFile(unknown)), false)
  }

  lemma PassingStagesAreKnown(stages: seq<Stage>, testIds: seq<string>)
    requires StageIds(stages) == testIds && AllPass(stages)
    ensures stages == PassingStages(testIds)
  {
    forall k | 0 <= k < |stages|
      ensures stages[k] == Stage(testIds[k], StagePass, None)
    {
      assert stages[k] in stages;
      assert StageIds(stages)[k] == stages[k].testId;
    }
  }

  /** The variable parts of a result that show in its text. */
  predicate SameText(r: ResultRecord, p: ResultRecord) {
    && r.invocationId == p.invocationId && r.attemptId == p.attemptId && r.operation == p.operation
    && r.catalogVersion == p.catalogVersion && r.testIds == p.testIds
    && r.startingCommit == p.startingCommit && r.observedHead == p.observedHead
    && r.processOutcome == p.processOutcome && r.processIdentity.Some? == p.processIdentity.Some?
    && r.workspaceState == p.workspaceState && r.changedPaths == p.changedPaths
    && r.proposalDigest.Some? == p.proposalDigest.Some? && r.candidateDigest.Some? == p.candidateDigest.Some?
    && r.stages == p.stages
    && r.firstFailureBoundary == p.firstFailureBoundary && r.failureCode == p.failureCode
    && r.contentReference.Some? && p.contentReference.Some?
    && r.contentReference.value.ProposalFile? == p.contentReference.value.ProposalFile?
    && r.contentReference.value.CandidateFile? == p.contentReference.value.CandidateFile?
    && r.retryable == p.retryable
  }

  lemma SameTask(r: ResultRecord, p: ResultRecord)
    requires SameText(r, p)
    ensures TaskFields(r) == TaskFields(p)
  {
  }

  lemma SameEvidence(r: ResultRecord, p: ResultRecord)
    requires SameText(r, p)
    ensures EvidenceFields(r) == EvidenceFields(p)
  {
  }

  lemma SameTextFits(r: ResultRecord, p: ResultRecord)
    requires SameText(r, p)
    ensures ResultFits(r) <==> ResultFits(p)
  {
    SameTask(r, p);
    SameEvidence(r, p);
    assert ResultJson(r) == ResultJson(p);
  }

  lemma AcceptedReadOnlyText(response: Response, i: InvocationIdentity, c: Custody, o: Observations)
    requires i.operation == ReadOnlyProposal && AcceptReadOnly(response, i, c, o).Ok?
    ensures SameText(AcceptReadOnly(response, i, c, o).value.result, PlannedResult(i))
  {
    PassingStagesAreKnown(o.stages.value, i.testIds);
  }

  lemma AcceptedWriteText(response: Response, i: InvocationIdentity, c: Custody, o: Observations)
    requires AcceptWorkspaceWrite(response, i, c, o).Ok?
    ensures SameText(AcceptWorkspaceWrite(response, i, c, o).value.result, PlannedResult(i))
  {
    PassingStagesAreKnown(o.stages.value, i.testIds);
  }

  /** What review will report of an accepted response: the digest of its
      proposal, or the candidate digest it names. */
  function ReportedDigest(response: Response): Digest
    requires !response.Unreadable?
  {
    if response.ReadOnlyResponse? then OfContent(Proposal(response.proposalContent)) else response.candidateDigest
  }

  lemma AcceptedText(response: Response, i: InvocationIdentity, c: Custody, o: Observations)
    requires Accept(response, i, c, o).Ok?
    ensures !response.Unreadable?
    ensures var r := Accept(response, i, c, o).value.result;
            SameText(r, PlannedResult(i)) && Reports(r, ReportedDigest(response))
  {
    if i.operation == ReadOnlyProposal {
      AcceptedReadOnlyText(response, i, c, o);
    } else {
      AcceptedWriteText(response, i, c, o);
    }
  }

  /** A result as the invocation and the adapter's response foretell it. */
  predicate Foretold(r: ResultRecord, i: InvocationIdentity, w: DispatchWorld) {
    && SameText(r, PlannedResult(i))
    && w.adapter.Returned? && !w.adapter.response.Unreadable? && Reports(r, ReportedDigest(w.adapter.response))
  }

  // ----- a finished dispatch leaves a sealed candidate

  lemma SealedBehindPut(s: Stores, w: Write, rest: Effect, i: InvocationIdentity, r: ResultRecord)
    requires Sealed(ApplyAll(Apply(s, w), rest.writes), i, r)
    ensures Sealed(ApplyAll(s, Put(w, rest).writes), i, r)
  {
    assert Put(w, rest).writes[1..] == rest.writes;
  }

  lemma CaptureSeals(s: Stores, completed: Invocation, r: ResultRecord, w: DispatchWorld)
    requires Capture(s, completed, r, w).outcome.Ok?
    requires var id := completed.identity.invocationId;
             id in s.invocations && s.invocations[id] == completed && id in s.results && s.results[id] == r
    ensures Sealed(ApplyAll(s, Capture(s, completed, r, w).writes), completed.identity, r)
  {
    var a := s.attempts[completed.identity.attemptId];
    var candidate := TransitionAttempt(a, Candidate, w.candidateAt, Some(OfResult(r)), None, None).value;
    var done := Done(AttemptReply(candidate));
    assert Capture(s, completed, r, w) == Put(PutAttempt(candidate), done);
    SealedBehindPut(s, PutAttempt(candidate), done, completed.identity, r);
  }

  lemma CompleteSeals(s: Stores, i: Invocation, r: ResultRecord, w: DispatchWorld)
    requires Complete(s, i, r, w).outcome.Ok?
    requires i.identity.invocationId in s.results && s.results[i.identity.invocationId] == r
    ensures Sealed(ApplyAll(s, Complete(s, i, r, w).writes), i.identity, r)
  {
    var completed := TransitionInvocation(i, Completed, None, None, Some(OfResult(r))).value;
    var close := PutInvocation(completed);
    var t := Apply(s, close);
    CaptureSeals(t, completed, r, w);
    SealedBehindPut(s, close, Capture(t, completed, r, w), i.identity, r);
  }

  lemma StoreResultSeals(s: Stores, i: Invocation, r: ResultRecord, w: DispatchWorld)
    requires StoreResult(s, i, r, w).outcome.Ok? && r.invocationId == i.identity.invocationId
    ensures Sealed(ApplyAll(s, StoreResult(s, i, r, w).writes), i.identity, r)
  {
    var t := Apply(s, PutResult(r));
    CompleteSeals(t, i, r, w);
    SealedBehindPut(s, PutResult(r), Complete(t, i, r, w), i.identity, r);
  }

  lemma AfterAdapterSeals(s: Stores, i: Invocation, w: DispatchWorld) returns (r: ResultRecord)
    requires AfterAdapter(s, i, w).outcome.Ok?
    ensures Sealed(ApplyAll(s, AfterAdapter(s, i, w).writes), i.identity, r)
    ensures Foretold(r, i.identity, w)
  {
    var c := s.custody[i.identity.invocationId];
    var x := Accept(w.adapter.response, i.identity, c, w.observed).value;
    AcceptedText(w.adapter.response, i.identity, c, w.observed);
    r := x.result;
    if x.reference in s.contents {
      StoreResultSeals(s, i, r, w);
    } else {
      var keep := PutContent(x.reference, x.content);
      StoreResultSeals(Apply(s, keep), i, r, w);
      SealedBehindPut(s, keep, StoreResult(Apply(s, keep), i, r, w), i.identity, r);
    }
  }

  lemma {:induction false} CallAdapterSeals(s: Stores, i: Invocation, calls: seq<CustodyCall>, w: DispatchWorld)
    returns (r: ResultRecord)
    requires CallAdapter(s, i, calls, w).outcome.Ok?
    ensures Sealed(ApplyAll(s, CallAdapter(s, i, calls, w).writes), i.identity, r)
    ensures Foretold(r, i.identity, w)
    decreases calls
  {
    if calls == [] {
      r := AfterAdapterSeals(s, i, w);
    } else if calls[0].record.invocationId == i.identity.invocationId && CustodyCallGuard(s, calls[0]).Ok? {
      var call := PutCustody(calls[0].record);
      r := CallAdapterSeals(Apply(s, call), i, calls[1..], w);
      SealedBehindPut(s, call, CallAdapter(Apply(s, call), i, calls[1..], w), i.identity, r);
    } else {
      r := CallAdapterSeals(s, i, calls[1..], w);
    }
  }

  lemma MarkDispatchingSeals(s: Stores, i: Invocation, w: DispatchWorld) returns (r: ResultRecord)
    requires MarkDispatching(s, i, w).outcome.Ok?
    ensures Sealed(ApplyAll(s, MarkDispatching(s, i, w).writes), i.identity, r)
    ensures Foretold(r, i.identity, w)
  {
    var dispatching := TransitionInvocation(i, Dispatching, None, None, None).value;
    var mark := PutInvocation(dispatching);
    var t := Apply(s, mark);
    r := CallAdapterSeals(t, dispatching, w.calls, w);
    SealedBehindPut(s, mark, CallAdapter(t, dispatching, w.calls, w), i.identity, r);
  }

  lemma DispatchSeals(s: Stores, id: Id, expected: Digest, controller: string, w: DispatchWorld) returns (r: ResultRecord)
    requires DispatchEffect(s, id, expected, controller, w).outcome.Ok?
    ensures id in s.invocations
    ensures var i := s.invocations[id].identity;
            && Sealed(ApplyAll(s, DispatchEffect(s, id, expected, controller, w).writes), i, r)
            && Foretold(r, i, w)
  {
    var running := BindGuard(s, id, expected, w.boundAt).value;
    var bind := PutAttempt(running);
    var rest := MarkDispatching(Apply(s, bind), s.invocations[id], w);
    assert DispatchEffect(s, id, expected, controller, w) == Put(bind, rest);
    r := MarkDispatchingSeals(Apply(s, bind), s.invocations[id], w);
    SealedBehindPut(s, bind, rest, s.invocations[id].identity, r);
  }

  // ----- main results

  /** After a dispatch has returned, the attempt's candidate is accepted by
      review in that state and after every further history of cut commands, if
      and only if the planned result is within the size limit of `parse_result`;
      nothing else can make it fail, and the plan tells before the dispatch.
      Review then always reports the digest that the adapter's response named. */
  lemma DispatchImpliesReviewForever(
    s: Stores, id: Id, expected: Digest, controller: string, w: DispatchWorld, es: seq<Episode>)
    requires Inv(s) && DispatchEffect(s, id, expected, controller, w).outcome.Ok?
    ensures id in s.invocations && w.adapter.Returned? && !w.adapter.response.Unreadable?
    ensures var i := s.invocations[id].identity;
            var t := ApplyAll(s, DispatchEffect(s, id, expected, controller, w).writes);
            ReviewCandidate(History(t, es), i.attemptId) ==
            if ResultFits(PlannedResult(i)) then Ok(ReportedDigest(w.adapter.response))
            else Err("SERVICE_CANDIDATE_IDENTITY_INVALID")
  {
    var r := DispatchSeals(s, id, expected, controller, w);
    var t := ApplyAll(s, DispatchEffect(s, id, expected, controller, w).writes);
    FinishedDispatchKeepsInvariant(s, id, expected, controller, w);
    ForetoldIsReviewed(t, es, s.invocations[id].identity, r, w);
  }

  lemma ForetoldIsReviewed(t: Stores, es: seq<Episode>, i: InvocationIdentity, r: ResultRecord, w: DispatchWorld)
    requires Inv(t) && Sealed(t, i, r) && Foretold(r, i, w)
    ensures ReviewCandidate(History(t, es), i.attemptId) ==
            if ResultFits(PlannedResult(i)) then Ok(ReportedDigest(w.adapter.response))
            else Err("SERVICE_CANDIDATE_IDENTITY_INVALID")
  {
    SealedForever(t, es, i, r);
    ForetoldVerdict(History(t, es), i, r, w);
  }

  lemma ForetoldVerdict(t: Stores, i: InvocationIdentity, r: ResultRecord, w: DispatchWorld)
    requires Inv(t) && Sealed(t, i, r) && Foretold(r, i, w)
    ensures ReviewCandidate(t, i.attemptId) ==
            if ResultFits(PlannedResult(i)) then Ok(ReportedDigest(w.adapter.response))
            else Err("SERVICE_CANDIDATE_IDENTITY_INVALID")
  {
    SealedIsReviewable(t, i, r);
    SameTextFits(r, PlannedResult(i));
  }

  lemma FinishedDispatchKeepsInvariant(s: Stores, id: Id, expected: Digest, controller: string, w: DispatchWorld)
    requires Inv(s)
    ensures Inv(ApplyAll(s, DispatchEffect(s, id, expected, controller, w).writes))
  {
    var ws := DispatchEffect(s, id, expected, controller, w).writes;
    DispatchIsLegal(s, id, expected, controller, w);
    LegalPrefixKeepsInvariant(s, ws, |ws|);
    assert ws[..|ws|] == ws;
  }

  lemma FilledPlanOverflows(i: InvocationIdentity)
    requires i.operation == WorkspaceWriteCodeTask && i.writablePaths == FillingPaths()
    ensures WriteResponseBytes(FillingPaths()) <= MAX_RESPONSE_BYTES && !ResultFits(PlannedResult(i))
  {
    FilledResponseOverflows(PlannedResult(i));
  }

  /** Review can refuse after a good dispatch: a code task whose paths fill the
      adapter response to its limit has a result beyond that limit. */
  lemma FilledResponseIsNotReviewable(
    s: Stores, id: Id, expected: Digest, controller: string, w: DispatchWorld)
    requires Inv(s) && DispatchEffect(s, id, expected, controller, w).outcome.Ok?
    requires id in s.invocations && s.invocations[id].identity.operation == WorkspaceWriteCodeTask
    requires s.invocations[id].identity.writablePaths == FillingPaths()
    ensures WriteResponseBytes(FillingPaths()) <= MAX_RESPONSE_BYTES
    ensures var t := ApplyAll(s, DispatchEffect(s, id, expected, controller, w).writes);
            ReviewCandidate(t, s.invocations[id].identity.attemptId).Err?
  {
    var t := ApplyAll(s, DispatchEffect(s, id, expected, controller, w).writes);
    DispatchImpliesReviewForever(s, id, expected, controller, w, []);
    FilledPlanOverflows(s.invocations[id].identity);
    assert History(t, []) == t;
  }

  const COMMIT := "0123456789abcdef0123456789abcdef01234567"

  /** Such a task is accepted: here is one that changes about a thousand files
      with names of 61 characters, its custody, its response within 65,536 bytes
      and what the lab observes. */
  lemma FilledResponseIsAccepted() returns (i: InvocationIdentity, c: Custody, response: Response, o: Observations)
    ensures i.operation == WorkspaceWriteCodeTask && OrdinaryPaths(i.writablePaths) && |i.writablePaths| <= 1024
    ensures ValidCustody(c)
    ensures response.WorkspaceWriteResponse? && WriteResponseBytes(response.changedPaths) <= MAX_RESPONSE_BYTES
    ensures Accept(response, i, c, o).Ok? && !ResultFits(Accept(response, i, c, o).value.result)
  {
    var d := OfDocument("protected");
    var authority := Authority("exercise", 1, "policy", 1, d, "role", 1, d, d, d, "catalog", d, COMMIT, WorkspaceWriteSandbox);
    var paths := FillingPaths();
    FillingPathsAreOrdinary();
    i := InvocationIdentity(
      "invocation", "attempt", WorkspaceWriteCodeTask, d, "context", 1, authority, d, ["T001"],
      d, d, d, d, d, [], paths, d);
    c := Custody(OfIdentity(i), "invocation", 1, 1, Some(2), Some(2), d, AbsenceVerified, true, Some(0), Some(0), Some(9), None);
    response := WorkspaceWriteResponse(OfIdentity(i), d, d, d, d, d, paths);
    var evidence := WorkspaceEvidence(COMMIT, paths, d, d, d, d);
    o := Observations(d, 1, 2, true, Ok(paths), Ok(evidence), Ok(PassingStages(["T001"])));
    OverflowIsAccepted(response, i, c, o);
  }

  lemma OverflowIsAccepted(response: Response, i: InvocationIdentity, c: Custody, o: Observations)
    requires i.writablePaths == FillingPaths() && i.testIds == ["T001"] && i.operation == WorkspaceWriteCodeTask && TaskInScope(response, i, c, o)
    ensures Accept(response, i, c, o).Ok? && !ResultFits(Accept(response, i, c, o).value.result)
    ensures WriteResponseBytes(response.changedPaths) <= MAX_RESPONSE_BYTES
  {
    AcceptsExactly(response, i, c, o);
    AcceptedText(response, i, c, o);
    FilledResponseOverflows(PlannedResult(i));
    SameTextFits(Accept(response, i, c, o).value.result, PlannedResult(i));
  }
}
