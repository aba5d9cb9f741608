/** Exactly when the operator's commands succeed and exactly what they store, on
    the fields of the records and of the command line. */
module CommandFacts {
  import opened Outcomes
  import opened Records
  import opened Lifecycle
  import opened Stores
  import opened Moves
  import opened Commands
  import opened Protocol

  /** A disk with room for all the writes of a command makes them all. */
  lemma UncutRun(d: Disk, e: Effect)
    requires |e.writes| <= d.writesLeft
    ensures Run(d, e).1 == e.outcome && Run(d, e).0.stores == After(d.stores, e)
  {
    RunUncut(d, e);
  }

  lemma AfterOne(s: Stores, e: Effect, w: Write)
    requires e.writes == [w]
    ensures After(s, e) == Apply(s, w)
  {
    assert [w][1..] == [];
    assert ApplyAll(s, [w]) == ApplyAll(Apply(s, w), []);
  }

  // ----- transition_attempt

  /** The moves that an operator can ask for: every edge of the attempt machine
      but the one that binds an invocation. */
  const MANUAL_STEPS: set<(AttemptState, AttemptState)> := ATTEMPT_EDGES - {(Ready, Running)}

  /** The arguments of a move that fit the attempt and the target. */
  predicate MoveFits(a: Attempt, target: AttemptState, candidate: Option<Digest>, cleanup: Option<string>, now: int) {
    && (a.state, target) in MANUAL_STEPS
    && a.updatedAt <= now
    && (if target == Candidate then candidate.Some? else candidate.None? || candidate == a.candidateDigest)
    && (if target == Aborted || target == Closed then cleanup.Some? && |cleanup.value| > 0 else cleanup.None?)
  }

  /** `b` is `a` in its new state. */
  predicate Transitioned(
    a: Attempt, b: Attempt, target: AttemptState, candidate: Option<Digest>, cleanup: Option<string>, now: int)
  {
    && b.state == target && b.updatedAt == now
    && b.candidateDigest == (if target == Candidate then candidate else a.candidateDigest)
    && b.cleanupOutcome == (if target == Aborted || target == Closed then cleanup else a.cleanupOutcome)
    && b.attemptId == a.attemptId && b.curriculumId == a.curriculumId && b.authority == a.authority
    && b.createdAt == a.createdAt && b.priorAttemptId == a.priorAttemptId && b.runtimeIdentity == a.runtimeIdentity
  }

  lemma StepsAreTargets(from: AttemptState, to: AttemptState)
    ensures (from, to) in MANUAL_STEPS <==> to in LegalAttemptTargets(from) && to != Running
  {
  }

  lemma MovesExactly(a: Attempt, target: AttemptState, candidate: Option<Digest>, cleanup: Option<string>, now: int)
    requires ValidAttempt(a)
    ensures var updated := TransitionAttempt(a, target, now, candidate, None, cleanup);
            && (updated.Ok? <==> MoveFits(a, target, candidate, cleanup, now))
            && (updated.Ok? ==> Transitioned(a, updated.value, target, candidate, cleanup, now))
  {
    StepsAreTargets(a.state, target);
  }

  /** The attempt is stored, its workspace need not be disposed of first, and
      the arguments fit. */
  predicate CanTransition(
    s: Stores, attemptId: Id, target: AttemptState, candidate: Option<Digest>, cleanup: Option<string>, now: int)
  {
    && attemptId in s.attempts
    && !(s.attempts[attemptId].state == Ready && target == Aborted && attemptId in s.receipts)
    && MoveFits(s.attempts[attemptId], target, candidate, cleanup, now)
  }

  lemma TransitionsExactly(
    s: Stores, attemptId: Id, target: AttemptState, candidate: Option<Digest>, cleanup: Option<string>, now: int)
    requires AttemptsKeyed(s)
    ensures var e := TransitionEffect(s, attemptId, target, candidate, cleanup, now);
            && (e.outcome.Ok? <==> CanTransition(s, attemptId, target, candidate, cleanup, now))
            && (e.outcome.Err? ==> e.writes == [])
            && (e.outcome.Ok? ==>
                  && e.outcome.value.AttemptReply? && e.writes == [PutAttempt(e.outcome.value.attempt)]
                  && Transitioned(s.attempts[attemptId], e.outcome.value.attempt, target, candidate, cleanup, now))
  {
    if attemptId in s.attempts {
      var a := s.attempts[attemptId];
      MovesExactly(a, target, candidate, cleanup, now);
      var updated := TransitionAttempt(a, target, now, candidate, None, cleanup);
      if updated.Ok? {
        AttemptTransitionsAreSaved(s.attempts, a, target, now, candidate, None, cleanup);
      }
    }
  }

  /** The answer `r` and the directory `t` that a transition leaves: the moved
      attempt is stored under its name and nothing else has changed. */
  ghost predicate TransitionAnswered(
    s: Stores, r: Result<Reply>, t: Stores,
    attemptId: Id, target: AttemptState, candidate: Option<Digest>, cleanup: Option<string>, now: int)
  {
    && (r.Ok? <==> CanTransition(s, attemptId, target, candidate, cleanup, now))
    && (r.Err? ==> t == s)
    && (r.Ok? ==>
          && r.value.AttemptReply?
          && Transitioned(s.attempts[attemptId], r.value.attempt, target, candidate, cleanup, now)
          && t == s.(attempts := s.attempts[attemptId := r.value.attempt]))
  }

  /** On a disk that does not stop, a transition answers exactly so. */
  lemma TransitionAnswers(
    d: Disk, attemptId: Id, target: AttemptState, candidate: Option<Digest>, cleanup: Option<string>, now: int)
    requires AttemptsKeyed(d.stores) && d.writesLeft >= 1
    ensures var run := Run(d, TransitionEffect(d.stores, attemptId, target, candidate, cleanup, now));
            TransitionAnswered(d.stores, run.1, run.0.stores, attemptId, target, candidate, cleanup, now)
  {
    var e := TransitionEffect(d.stores, attemptId, target, candidate, cleanup, now);
    TransitionsExactly(d.stores, attemptId, target, candidate, cleanup, now);
    UncutRun(d, e);
    if e.outcome.Ok? {
      AfterOne(d.stores, e, PutAttempt(e.outcome.value.attempt));
    }
  }

  /** Why a transition is refused, in the order in which it is looked at. */
  lemma TransitionRefusals(
    s: Stores, attemptId: Id, target: AttemptState, candidate: Option<Digest>, cleanup: Option<string>, now: int)
    ensures var outcome := TransitionEffect(s, attemptId, target, candidate, cleanup, now).outcome;
            && (attemptId !in s.attempts ==> outcome == Err("STORAGE_RECORD_MISSING"))
            && (attemptId in s.attempts ==>
                  var a := s.attempts[attemptId];
                  && (a.state == Ready && target == Aborted && attemptId in s.receipts ==>
                        outcome == Err("ATTEMPT_WORKSPACE_DISPOSAL_REQUIRED"))
                  && ((a.state, target) !in ATTEMPT_EDGES ==> outcome == Err("ATTEMPT_TRANSITION_INVALID"))
                  && ((a.state, target) in MANUAL_STEPS && !(a.state == Ready && attemptId in s.receipts) ==>
                        && (now < a.updatedAt ==> outcome == Err("ATTEMPT_TRANSITION_TIME_INVALID"))
                        && (now >= a.updatedAt && target == Candidate && candidate.None? ==>
                              outcome == Err("ATTEMPT_CANDIDATE_REQUIRED"))
                        && (now >= a.updatedAt && target in {Aborted, Closed} && candidate.None? && cleanup.None? ==>
                              outcome == Err("ATTEMPT_CLEANUP_REQUIRED"))
                        && (now >= a.updatedAt && target !in {Aborted, Closed, Candidate} && candidate.None? && cleanup.Some? ==>
                              outcome == Err("ATTEMPT_CLEANUP_INVALID"))))
  {
    if attemptId in s.attempts {
      StepsAreTargets(s.attempts[attemptId].state, target);
    }
  }

  // ----- prepare_invocation

  /** The receipt that stands for the attempt describes it, and the workspace is
      seen where and as the receipt says. */
  predicate WorkspaceVerifies(a: Attempt, p: Receipt, attemptId: Id, v: WorkspaceView) {
    && p.state == PreparedReceipt && p.attemptId == a.attemptId && p.relativePath == attemptId
    && p.exerciseId == a.authority.exerciseId && p.exerciseVersion == a.authority.exerciseVersion
    && p.templateCommit == a.authority.startingCommit && p.templateRepository == v.templateRepository
    && p.workspaceRootDigest == v.rootDigest && p.workspacePathDigest == v.pathDigest
    && v.verified
  }

  /** Everything that is checked before the prompt is retained. */
  ghost predicate CanPrepare(s: Stores, attemptId: Id, v: WorkspaceView, x: InvocationInputs) {
    && 1 <= |x.prompt| <= 32_768 && (forall b | b in x.prompt :: b != 0)
    && attemptId in s.attempts && attemptId in s.receipts && x.definitionsMatch
    && (forall k | k in s.invocations :: s.invocations[k].identity.attemptId != attemptId)
    && var a := s.attempts[attemptId];
       && a.state == Ready && a.runtimeIdentity.None? && a.candidateDigest.None? && a.cleanupOutcome.None?
       && WorkspaceVerifies(a, s.receipts[attemptId], attemptId, v)
       && (a.authority.sandbox == WorkspaceWriteSandbox ==> x.writablePaths != [])
  }

  /** The sealed invocation: each field names its own source. */
  predicate Seals(i: Invocation, a: Attempt, p: Receipt, x: InvocationInputs) {
    && i.state == Prepared && i.authorizedBy.None? && i.authorizedAt.None? && i.resultDigest.None?
    && i.identity.invocationId == x.invocationId && i.identity.attemptId == a.attemptId
    && i.identity.authority == a.authority
    && (a.authority.sandbox == ReadOnlySandbox ==>
          i.identity.operation == ReadOnlyProposal && i.identity.writablePaths == [])
    && (a.authority.sandbox == WorkspaceWriteSandbox ==>
          i.identity.operation == WorkspaceWriteCodeTask && i.identity.writablePaths == x.writablePaths)
    && i.identity.readablePaths == x.readablePaths
    && i.identity.exerciseDigest == x.exerciseDigest
    && i.identity.contextManifestId == x.contextManifestId
    && i.identity.contextManifestVersion == x.contextManifestVersion
    && i.identity.testPlanDigest == x.testPlanDigest && i.identity.testIds == x.testIds
    && i.identity.workerLabInstallation == x.workerLabInstallation
    && i.identity.frameworkInstallation == x.frameworkInstallation
    && i.identity.workspaceReceiptDigest == OfReceipt(p)
    && i.identity.workspaceRootDigest == p.workspaceRootDigest
    && i.identity.workspacePathDigest == p.workspacePathDigest
    && i.identity.promptDigest == OfContent(Prompt(x.prompt))
  }

  function WithPrompt(s: Stores, prompt: Bytes): Stores {
    s.(contents := s.contents[PromptFile(OfContent(Prompt(prompt))) := Prompt(prompt)])
  }

  lemma VerifiesExactly(s: Stores, attemptId: Id, v: WorkspaceView)
    ensures VerifyWorkspace(s, attemptId, v).Ok? <==>
              && attemptId in s.attempts && attemptId in s.receipts
              && CleanAttempt(s.attempts[attemptId], Ready)
              && WorkspaceVerifies(s.attempts[attemptId], s.receipts[attemptId], attemptId, v)
    ensures VerifyWorkspace(s, attemptId, v).Ok? ==> VerifyWorkspace(s, attemptId, v).value == s.receipts[attemptId]
  {
  }

  lemma KeepsPrompt(s: Stores, i: Invocation, prompt: Bytes)
    requires FilesKeyed(s) && ValidInvocation(i) && i.state == Prepared
    ensures var e := StorePrompt(s, i, Prompt(prompt));
            && e.outcome == (if i.identity.invocationId in s.invocations then Err("INTEGRATION_INVOCATION_EXISTS")
                             else Ok(InvocationReply(i)))
            && After(s, e) == (if i.identity.invocationId in s.invocations then WithPrompt(s, prompt)
                               else Apply(WithPrompt(s, prompt), PutInvocation(i)))
            && |e.writes| <= 2
  {
    var f := PromptFile(OfContent(Prompt(prompt)));
    if f in s.contents {
      assert OfContent(s.contents[f]) == f.digest;
      assert WithPrompt(s, prompt) == s;
      StoresInvocation(s, i);
    } else {
      var keep := PutContent(f, Prompt(prompt));
      StoresInvocation(Apply(s, keep), i);
      AfterPut(s, keep, StoreInvocation(Apply(s, keep), i));
    }
  }

  lemma StoresInvocation(s: Stores, i: Invocation)
    requires ValidInvocation(i) && i.state == Prepared
    ensures var e := StoreInvocation(s, i);
            && e.outcome == (if i.identity.invocationId in s.invocations then Err("INTEGRATION_INVOCATION_EXISTS")
                             else Ok(InvocationReply(i)))
            && After(s, e) == (if i.identity.invocationId in s.invocations then s else Apply(s, PutInvocation(i)))
            && |e.writes| <= 1
  {
    AfterPut(s, PutInvocation(i), Done(InvocationReply(i)));
  }

  lemma PreparationUnfolds(s: Stores, attemptId: Id, v: WorkspaceView, x: InvocationInputs)
    requires AttemptsKeyed(s)
    ensures CanPrepare(s, attemptId, v, x) ==>
              exists i ::
                && Seals(i, s.attempts[attemptId], s.receipts[attemptId], x) && ValidInvocation(i)
                && PrepareInvocationEffect(s, attemptId, v, x) == StorePrompt(s, i, Prompt(x.prompt))
    ensures !CanPrepare(s, attemptId, v, x) ==>
              && PrepareInvocationEffect(s, attemptId, v, x).writes == []
              && PrepareInvocationEffect(s, attemptId, v, x).outcome.Err?
  {
    VerifiesExactly(s, attemptId, v);
    if CanPrepare(s, attemptId, v, x) {
      var i := Invocation(NewIdentity(s.attempts[attemptId], s.receipts[attemptId], x), None, None, Prepared, None);
      assert Seals(i, s.attempts[attemptId], s.receipts[attemptId], x);
    }
  }

  /** The answer and the directory that a preparation leaves: the sealed
      invocation under its name and the prompt under its digest. */
  ghost predicate PreparationAnswered(
    s: Stores, r: Result<Reply>, t: Stores, attemptId: Id, v: WorkspaceView, x: InvocationInputs)
  {
    && (r.Ok? <==> CanPrepare(s, attemptId, v, x) && x.invocationId !in s.invocations)
    && (!CanPrepare(s, attemptId, v, x) ==> t == s)
    && (r.Err? && CanPrepare(s, attemptId, v, x) ==> t == WithPrompt(s, x.prompt))
    && (r.Ok? ==>
          && r.value.InvocationReply?
          && Seals(r.value.invocation, s.attempts[attemptId], s.receipts[attemptId], x)
          && t == s.(invocations := s.invocations[x.invocationId := r.value.invocation],
                     contents := s.contents[PromptFile(OfContent(Prompt(x.prompt))) := Prompt(x.prompt)]))
  }

  lemma PreparesSealed(d: Disk, e: Effect, attemptId: Id, v: WorkspaceView, x: InvocationInputs, i: Invocation)
    requires FilesKeyed(d.stores) && d.writesLeft >= 2 && CanPrepare(d.stores, attemptId, v, x)
    requires Seals(i, d.stores.attempts[attemptId], d.stores.receipts[attemptId], x) && ValidInvocation(i)
    requires e == StorePrompt(d.stores, i, Prompt(x.prompt))
    ensures PreparationAnswered(d.stores, Run(d, e).1, Run(d, e).0.stores, attemptId, v, x)
  {
    KeepsPrompt(d.stores, i, x.prompt);
    UncutRun(d, e);
  }

  /** On a disk that does not stop, a preparation answers exactly so. */
  lemma PreparationAnswers(d: Disk, attemptId: Id, v: WorkspaceView, x: InvocationInputs)
    requires AttemptsKeyed(d.stores) && FilesKeyed(d.stores) && d.writesLeft >= 2
    ensures var run := Run(d, PrepareInvocationEffect(d.stores, attemptId, v, x));
            PreparationAnswered(d.stores, run.1, run.0.stores, attemptId, v, x)
  {
    var e := PrepareInvocationEffect(d.stores, attemptId, v, x);
    var s := d.stores;
    PreparationUnfolds(s, attemptId, v, x);
    if CanPrepare(s, attemptId, v, x) {
      var i :| Seals(i, s.attempts[attemptId], s.receipts[attemptId], x) && ValidInvocation(i)
               && e == StorePrompt(s, i, Prompt(x.prompt));
      PreparesSealed(d, e, attemptId, v, x, i);
    }
  }

  // ----- authorize_invocation and reject_invocation

  /** The answer and the directory that an authorization leaves: once, by one
      controller, of a prepared invocation named by its identity. */
  ghost predicate AuthorizationAnswered(
    s: Stores, r: Result<Reply>, t: Stores, id: Id, expected: Digest, controller: string, now: int)
  {
    && (r.Ok? <==> id in s.invocations && expected == OfIdentity(s.invocations[id].identity)
                   && s.invocations[id].state == Prepared)
    && (r.Err? ==> t == s)
    && (r.Ok? ==>
          var i := Invocation(s.invocations[id].identity, Some(controller), Some(now), Authorized, None);
          r.value == InvocationReply(i) && t == s.(invocations := s.invocations[id := i]))
  }

  lemma MoveAnswers(d: Disk, i: Invocation, j: Invocation)
    requires d.writesLeft >= 1 && InvocationMoves(i, j)
    requires i.identity.invocationId in d.stores.invocations && d.stores.invocations[i.identity.invocationId] == i
    ensures var run := Run(d, MoveInvocation(d.stores, i, Ok(j)));
            && run.1 == Ok(InvocationReply(j))
            && run.0.stores == d.stores.(invocations := d.stores.invocations[j.identity.invocationId := j])
  {
    InvocationSavesAreMoves(d.stores.invocations, j, OfInvocation(i));
    var e := MoveInvocation(d.stores, i, Ok(j));
    assert e.writes == [PutInvocation(j)];
    AfterOne(d.stores, e, PutInvocation(j));
    UncutRun(d, e);
  }

  lemma AuthorizedTransition(i: Invocation, controller: string, now: int)
    requires ValidInvocation(i)
    ensures TransitionInvocation(i, Authorized, Some(controller), Some(now), None) ==
            if i.state == Prepared then Ok(Invocation(i.identity, Some(controller), Some(now), Authorized, None))
            else Err("INTEGRATION_TRANSITION_INVALID")
  {
  }

  lemma RejectedTransition(i: Invocation)
    requires ValidInvocation(i)
    ensures TransitionInvocation(i, Rejected, None, None, None) ==
            if i.state == Prepared then Ok(Invocation(i.identity, None, None, Rejected, None))
            else Err("INTEGRATION_TRANSITION_INVALID")
  {
  }

  lemma CancelledTransition(i: Invocation)
    requires ValidInvocation(i)
    ensures TransitionInvocation(i, AbortedInvocation, None, None, None) ==
            if i.state in {Uncertain, Authorized} then
              Ok(Invocation(i.identity, i.authorizedBy, i.authorizedAt, AbortedInvocation, None))
            else Err("INTEGRATION_TRANSITION_INVALID")
  {
  }

  lemma AuthorizationAnswers(d: Disk, id: Id, expected: Digest, controller: string, now: int)
    requires InvocationsKeyed(d.stores) && d.writesLeft >= 1
    ensures var run := Run(d, AuthorizeEffect(d.stores, id, expected, controller, now));
            AuthorizationAnswered(d.stores, run.1, run.0.stores, id, expected, controller, now)
  {
    if id in d.stores.invocations {
      var i := d.stores.invocations[id];
      AuthorizedTransition(i, controller, now);
      if i.state == Prepared {
        MoveAnswers(d, i, Invocation(i.identity, Some(controller), Some(now), Authorized, None));
      }
    }
  }

  /** Only a prepared invocation named by its identity is rejected. */
  ghost predicate RejectionAnswered(s: Stores, r: Result<Reply>, t: Stores, id: Id, expected: Digest) {
    && (r.Ok? <==> id in s.invocations && expected == OfIdentity(s.invocations[id].identity)
                   && s.invocations[id].state == Prepared)
    && (r.Err? ==> t == s)
    && (r.Ok? ==>
          var i := Invocation(s.invocations[id].identity, None, None, Rejected, None);
          r.value == InvocationReply(i) && t == s.(invocations := s.invocations[id := i]))
  }

  lemma RejectionAnswers(d: Disk, id: Id, expected: Digest)
    requires InvocationsKeyed(d.stores) && d.writesLeft >= 1
    ensures var run := Run(d, RejectEffect(d.stores, id, expected));
            RejectionAnswered(d.stores, run.1, run.0.stores, id, expected)
  {
    if id in d.stores.invocations {
      var i := d.stores.invocations[id];
      RejectedTransition(i);
      if i.state == Prepared {
        MoveAnswers(d, i, Invocation(i.identity, None, None, Rejected, None));
      }
    }
  }

  /** An UNCERTAIN invocation, or an AUTHORIZED one by its own controller, is
      cancelled, and keeps who authorized it and when. */
  ghost predicate CancellationAnswered(
    s: Stores, r: Result<Reply>, t: Stores, id: Id, expected: Digest, controller: string)
  {
    && (r.Ok? <==> id in s.invocations && expected == OfIdentity(s.invocations[id].identity)
                   && (s.invocations[id].state == Uncertain
                       || (s.invocations[id].state == Authorized && s.invocations[id].authorizedBy == Some(controller))))
    && (r.Err? ==> t == s)
    && (r.Ok? ==>
          var i := s.invocations[id];
          var j := Invocation(i.identity, i.authorizedBy, i.authorizedAt, AbortedInvocation, None);
          r.value == InvocationReply(j) && t == s.(invocations := s.invocations[id := j]))
  }

  lemma CancellationAnswers(d: Disk, id: Id, expected: Digest, controller: string)
    requires InvocationsKeyed(d.stores) && d.writesLeft >= 1
    ensures var run := Run(d, CancelEffect(d.stores, id, expected, controller));
            CancellationAnswered(d.stores, run.1, run.0.stores, id, expected, controller)
  {
    if id in d.stores.invocations {
      var i := d.stores.invocations[id];
      CancelledTransition(i);
      if i.state in {Uncertain, Authorized} {
        MoveAnswers(d, i, Invocation(i.identity, i.authorizedBy, i.authorizedAt, AbortedInvocation, None));
      }
    }
  }
}
