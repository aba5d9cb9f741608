/** The custody of a run that goes well, and what preparation seals for the
    dispatch that follows it. */
module GoodDispatch {
  import opened Outcomes
  import opened Records
  import opened Lifecycle
  import opened Stores
  import opened Moves
  import opened Commands
  import opened Protocol

  /** What a good run of the job runner records, step by step. */
  datatype Launch = Launch(
    controllerPid: int, controllerTime: int, adapterPid: int, adapterTime: int, content: Digest, verifiedAt: int)

  function PreparedOf(i: InvocationIdentity, l: Launch): Custody {
    Custody(OfIdentity(i), i.invocationId, l.controllerPid, l.controllerTime, None, None, l.content,
            PreparedCustody, false, None, None, None, None)
  }

  function AssignedOf(i: InvocationIdentity, l: Launch): Custody {
    PreparedOf(i, l).(state := Assigned, adapterPid := Some(l.adapterPid), adapterTime := Some(l.adapterTime))
  }

  function SentOf(i: InvocationIdentity, l: Launch): Custody {
    AssignedOf(i, l).(state := DispatchingCustody, requestSent := true)
  }

  function ExitedOf(i: InvocationIdentity, l: Launch): Custody {
    SentOf(i, l).(state := Exited, exitCode := Some(0), activeCount := Some(0))
  }

  function VerifiedOf(i: InvocationIdentity, l: Launch): Custody {
    ExitedOf(i, l).(state := AbsenceVerified, absenceVerifiedAt := Some(l.verifiedAt))
  }

  function GoodCalls(i: InvocationIdentity, l: Launch): seq<CustodyCall> {
    [ CreateCall(PreparedOf(i, l)),
      SaveCall(AssignedOf(i, l), OfCustody(PreparedOf(i, l))),
      SaveCall(SentOf(i, l), OfCustody(AssignedOf(i, l))),
      SaveCall(ExitedOf(i, l), OfCustody(SentOf(i, l))),
      SaveCall(VerifiedOf(i, l), OfCustody(ExitedOf(i, l))) ]
  }

  /** The directory with the custody that a good run leaves. */
  function WithCustody(s: Stores, c: Custody): Stores {
    s.(custody := s.custody[c.invocationId := c])
  }

  lemma LaterCustody(s: Stores, c: Custody, d: Custody)
    requires c.invocationId == d.invocationId
    ensures Apply(WithCustody(s, c), PutCustody(d)) == WithCustody(s, d)
  {
    assert s.custody[c.invocationId := c][d.invocationId := d] == s.custody[d.invocationId := d];
  }

  lemma GoodMoves(i: InvocationIdentity, l: Launch)
    ensures CustodyMoves(PreparedOf(i, l), AssignedOf(i, l)) && CustodyMoves(AssignedOf(i, l), SentOf(i, l))
    ensures CustodyMoves(SentOf(i, l), ExitedOf(i, l)) && CustodyMoves(ExitedOf(i, l), VerifiedOf(i, l))
  {
  }

  /** Attempt `a` runs invocation `i` and has no candidate yet. */
  predicate RunsFor(a: Attempt, i: InvocationIdentity) {
    && a.state == Running
    && a.runtimeIdentity == Some(OfIdentity(i))
    && a.candidateDigest.None? && a.cleanupOutcome.None?
    && a.attemptId == i.attemptId
    && a.authority == i.authority
    && ValidAttempt(a)
  }

  lemma BindSucceeds(s: Stores, id: Id, expected: Digest, controller: string, w: DispatchWorld)
    requires DispatchGuard(s, id, expected, controller, w).Ok?
    requires s.attempts[s.invocations[id].identity.attemptId].updatedAt <= w.boundAt
    requires ValidInvocation(s.invocations[id]) && ValidAttempt(s.attempts[s.invocations[id].identity.attemptId])
    ensures BindGuard(s, id, expected, w.boundAt).Ok?
    ensures var i := s.invocations[id].identity;
            var running := BindGuard(s, id, expected, w.boundAt).value;
            && SaveAttempt(s.attempts, running).Ok?
            && running.attemptId == i.attemptId && RunsFor(running, i) && running.updatedAt == w.boundAt
  {
    var i := s.invocations[id].identity;
    var a := s.attempts[i.attemptId];
    AttemptSavesAreMoves(s.attempts, a.(state := Running, updatedAt := w.boundAt, runtimeIdentity := Some(OfIdentity(i))));
  }

  // ----- what preparation seals is what dispatch asks for

  /** The invocation that a good preparation stores. */
  function SealedBy(s: Stores, attemptId: Id, x: InvocationInputs): Invocation
    requires attemptId in s.attempts && attemptId in s.receipts
  {
    Invocation(NewIdentity(s.attempts[attemptId], s.receipts[attemptId], x), None, None, Prepared, None)
  }

  function PromptWrites(s: Stores, prompt: Content): seq<Write> {
    var f := PromptFile(OfContent(prompt));
    if f in s.contents then [] else [PutContent(f, prompt)]
  }

  lemma PreparationSeals(s: Stores, attemptId: Id, v: WorkspaceView, x: InvocationInputs)
    requires PrepareInvocationEffect(s, attemptId, v, x).outcome.Ok?
    requires AttemptsKeyed(s)
    ensures attemptId in s.attempts && attemptId in s.receipts && x.invocationId !in s.invocations
    ensures var i := SealedBy(s, attemptId, x);
            && PrepareInvocationEffect(s, attemptId, v, x).writes ==
               PromptWrites(s, Prompt(x.prompt)) + [PutInvocation(i)]
            && CleanAttempt(s.attempts[attemptId], Ready)
            && VerifyWorkspace(s, attemptId, v) == Ok(s.receipts[attemptId])
            && i.identity.invocationId == x.invocationId && i.identity.attemptId == attemptId
            && ValidInvocation(i)
            && x.definitionsMatch
            && (forall k | k in s.invocations :: s.invocations[k].identity.attemptId != attemptId)
  {
  }

  function AuthorizedBy(i: Invocation, controller: string, now: int): Invocation {
    i.(state := Authorized, authorizedBy := Some(controller), authorizedAt := Some(now), resultDigest := None)
  }

  /** The directory with this prompt and this invocation. */
  function WithPrepared(s: Stores, i: Invocation, prompt: Content): Stores {
    var f := PromptFile(OfContent(prompt));
    s.(contents := if f in s.contents then s.contents else s.contents[f := prompt],
       invocations := s.invocations[i.identity.invocationId := i])
  }

  lemma PreparationLeaves(s: Stores, i: Invocation, prompt: Content)
    ensures ApplyAll(s, PromptWrites(s, prompt) + [PutInvocation(i)]) == WithPrepared(s, i, prompt)
  {
    var f := PromptFile(OfContent(prompt));
    var put, keep := PutInvocation(i), PutContent(f, prompt);
    assert [put][1..] == [];
    if f in s.contents {
      assert PromptWrites(s, prompt) + [put] == [put];
      assert ApplyAll(s, [put]) == ApplyAll(Apply(s, put), []);
    } else {
      assert (PromptWrites(s, prompt) + [put])[1..] == [put];
      assert ApplyAll(Apply(s, keep), [put]) == ApplyAll(Apply(Apply(s, keep), put), []);
    }
  }

  lemma AuthorizingWrites(t: Stores, i: Invocation, controller: string, now: int)
    requires i.identity.invocationId in t.invocations && t.invocations[i.identity.invocationId] == i
    requires ValidInvocation(i) && i.state == Prepared
    ensures AuthorizeEffect(t, i.identity.invocationId, OfIdentity(i.identity), controller, now).writes ==
            [PutInvocation(AuthorizedBy(i, controller, now))]
  {
    InvocationSavesAreMoves(t.invocations, AuthorizedBy(i, controller, now), OfInvocation(i));
  }

  /** Prepared and then authorized, an invocation passes every record check of
      dispatch, as long as the workspace still looks the same: the prompt it
      asks for has been retained. */
  lemma PreparedAndAuthorizedCanDispatch(
    s: Stores, attemptId: Id, v: WorkspaceView, x: InvocationInputs, controller: string, now: int, w: DispatchWorld)
    requires Inv(s) && PrepareInvocationEffect(s, attemptId, v, x).outcome.Ok?
    requires w.view == v && w.definitionsMatch
    ensures attemptId in s.attempts && attemptId in s.receipts
    ensures var i := SealedBy(s, attemptId, x);
            var j := AuthorizedBy(i, controller, now);
            var t := ApplyAll(s, PrepareInvocationEffect(s, attemptId, v, x).writes);
            && AuthorizeEffect(t, x.invocationId, OfIdentity(i.identity), controller, now).writes == [PutInvocation(j)]
            && DispatchGuard(Apply(t, PutInvocation(j)), x.invocationId, OfIdentity(i.identity), controller, w) == Ok(j)
  {
    PreparationSeals(s, attemptId, v, x);
    var i := SealedBy(s, attemptId, x);
    var t := WithPrepared(s, i, Prompt(x.prompt));
    PreparationLeaves(s, i, Prompt(x.prompt));
    AuthorizingWrites(t, i, controller, now);
    NothingDispatchedYet(s, x.invocationId);
    var j := AuthorizedBy(i, controller, now);
    SealedCanDispatch(Apply(t, PutInvocation(j)), j, controller, v, w);
  }

  lemma NothingDispatchedYet(s: Stores, id: Id)
    requires CustodyPlaced(s) && ResultsKeyed(s) && ResultsSound(s) && id !in s.invocations
    ensures id !in s.custody && id !in s.results
  {
  }

  lemma SealedCanDispatch(u: Stores, i: Invocation, controller: string, v: WorkspaceView, w: DispatchWorld)
    requires i.identity.invocationId in u.invocations && u.invocations[i.identity.invocationId] == i
    requires i.state == Authorized && i.authorizedBy == Some(controller)
    requires i.identity.attemptId in u.attempts && i.identity.attemptId in u.receipts
    requires var a := u.attempts[i.identity.attemptId];
             CleanAttempt(a, Ready) && a.attemptId == i.identity.attemptId && a.authority == i.identity.authority
    requires var p := u.receipts[i.identity.attemptId];
             && VerifyWorkspace(u, i.identity.attemptId, v) == Ok(p)
             && OfReceipt(p) == i.identity.workspaceReceiptDigest
             && p.workspaceRootDigest == i.identity.workspaceRootDigest
             && p.workspacePathDigest == i.identity.workspacePathDigest
    requires i.identity.invocationId !in u.custody && i.identity.invocationId !in u.results
    requires var f := PromptFile(i.identity.promptDigest);
             f in u.contents && OfContent(u.contents[f]) == i.identity.promptDigest
    requires w.view == v && w.definitionsMatch
    ensures DispatchGuard(u, i.identity.invocationId, OfIdentity(i.identity), controller, w) == Ok(i)
  {
  }
}
