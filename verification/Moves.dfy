/** What an accepted store call means for the one record it replaces, stated
    without the guards: which states follow which, and what may change. */
module Moves {
  import opened Outcomes
  import opened Records
  import opened Lifecycle
  import opened Stores

  /** `b` may replace `a` as the next version of an attempt. */
  predicate AttemptMoves(a: Attempt, b: Attempt) {
    && SameAttemptIdentity(a, b)
    && ValidAttempt(b)
    && b.state in LegalAttemptTargets(a.state)
    && a.updatedAt <= b.updatedAt
    && (if b.state == Running then a.runtimeIdentity.None? && b.runtimeIdentity.Some?
        else b.runtimeIdentity == a.runtimeIdentity)
    && (if b.state == Candidate then b.candidateDigest.Some? else b.candidateDigest == a.candidateDigest)
    && (if TerminalAttempt(b.state) then Given(b.cleanupOutcome) else b.cleanupOutcome == a.cleanupOutcome)
  }

  lemma AttemptSavesAreMoves(m: map<Id, Attempt>, a: Attempt)
    ensures SaveAttempt(m, a).Ok? <==> a.attemptId in m && AttemptMoves(m[a.attemptId], a)
    ensures SaveAttempt(m, a).Ok? ==> SaveAttempt(m, a).value == m[a.attemptId := a]
  {
  }

  /** What `transition_attempt` makes is a move, and `save_transition` takes it. */
  lemma AttemptTransitionsAreSaved(
    m: map<Id, Attempt>, a: Attempt, target: AttemptState, at: int,
    candidate: Option<Digest>, runtime: Option<Digest>, cleanup: Option<string>)
    requires a.attemptId in m && m[a.attemptId] == a
    requires TransitionAttempt(a, target, at, candidate, runtime, cleanup).Ok?
    ensures var b := TransitionAttempt(a, target, at, candidate, runtime, cleanup).value;
            && AttemptMoves(a, b) && b.state == target && b.updatedAt == at
            && SaveAttempt(m, b) == Ok(m[a.attemptId := b])
  {
    AttemptSavesAreMoves(m, TransitionAttempt(a, target, at, candidate, runtime, cleanup).value);
  }

  predicate InvocationMoves(i: Invocation, j: Invocation) {
    && i.identity == j.identity
    && ValidInvocation(j)
    && j.state in LegalInvocationTargets(i.state)
    && (j.state != Authorized ==> j.authorizedBy == i.authorizedBy && j.authorizedAt == i.authorizedAt)
  }

  lemma InvocationSavesAreMoves(m: map<Id, Invocation>, j: Invocation, expected: Digest)
    ensures SaveInvocation(m, j, expected).Ok? <==>
              && j.identity.invocationId in m
              && expected == OfInvocation(m[j.identity.invocationId])
              && InvocationMoves(m[j.identity.invocationId], j)
    ensures SaveInvocation(m, j, expected).Ok? ==>
              SaveInvocation(m, j, expected).value == m[j.identity.invocationId := j]
  {
  }

  /** What `transition_invocation` makes is a move, and the store takes it over
      the version it was made from. */
  lemma InvocationTransitionsAreSaved(
    m: map<Id, Invocation>, i: Invocation, target: InvocationState,
    controller: Option<string>, at: Option<int>, result: Option<Digest>)
    requires i.identity.invocationId in m && m[i.identity.invocationId] == i
    requires TransitionInvocation(i, target, controller, at, result).Ok?
    ensures var j := TransitionInvocation(i, target, controller, at, result).value;
            && InvocationMoves(i, j) && j.state == target
            && (target == Authorized ==> j.authorizedBy == controller && j.authorizedAt == at)
            && j.resultDigest == result
            && SaveInvocation(m, j, OfInvocation(i)) == Ok(m[i.identity.invocationId := j])
  {
    InvocationSavesAreMoves(m, TransitionInvocation(i, target, controller, at, result).value, OfInvocation(i));
  }

  predicate CustodyMoves(c: Custody, d: Custody) {
    && SameCustodyIdentity(c, d)
    && ValidCustody(d)
    && d.state in LegalCustodyTargets(c.state)
    && (c.adapterPid.Some? ==> d.adapterPid == c.adapterPid && d.adapterTime == c.adapterTime)
    && (c.firstFailure.Some? ==> d.firstFailure == c.firstFailure)
  }

  lemma CustodySavesAreMoves(m: map<Id, Custody>, d: Custody, expected: Digest)
    ensures SaveCustody(m, d, expected).Ok? <==>
              && d.invocationId in m
              && expected == OfCustody(m[d.invocationId])
              && CustodyMoves(m[d.invocationId], d)
    ensures SaveCustody(m, d, expected).Ok? ==> SaveCustody(m, d, expected).value == m[d.invocationId := d]
  {
  }

  /** What `transition_custody` makes of custody without a failure is a move,
      and the store takes it over the version it was made from. */
  lemma CustodyTransitionsAreSaved(m: map<Id, Custody>, c: Custody, target: CustodyState, u: CustodyUpdate)
    requires c.invocationId in m && m[c.invocationId] == c
    requires TransitionCustody(c, target, u).Ok?
    ensures var d := TransitionCustody(c, target, u).value;
            && d.state == target
            && (d.requestSent <==> c.requestSent || target == DispatchingCustody)
            && (c.firstFailure.None? || d.firstFailure == c.firstFailure ==>
                  (c.adapterPid.None? || target != Assigned ==>
                     CustodyMoves(c, d) && SaveCustody(m, d, OfCustody(c)) == Ok(m[c.invocationId := d])))
  {
    CustodySavesAreMoves(m, TransitionCustody(c, target, u).value, OfCustody(c));
  }

  // ----- the three machines, edge by edge

  const ATTEMPT_EDGES: set<(AttemptState, AttemptState)> := {
    (Draft, Ready), (Ready, Running), (Running, Candidate), (Candidate, Evaluating),
    (Evaluating, Passed), (Evaluating, Failed), (Evaluating, NeedsReview),
    (Passed, Closed), (Failed, Closed), (NeedsReview, Closed),
    (Draft, Aborted), (Ready, Aborted), (Running, Aborted), (Candidate, Aborted), (Evaluating, Aborted) }

  const INVOCATION_EDGES: set<(InvocationState, InvocationState)> := {
    (Prepared, Authorized), (Prepared, Rejected), (Authorized, Dispatching), (Authorized, AbortedInvocation),
    (Dispatching, Completed), (Dispatching, Uncertain), (Uncertain, AbortedInvocation) }

  const CUSTODY_EDGES: set<(CustodyState, CustodyState)> := {
    (PreparedCustody, Assigned), (Assigned, DispatchingCustody), (DispatchingCustody, Exited),
    (PreparedCustody, Terminated), (Assigned, Terminated), (DispatchingCustody, Terminated),
    (PreparedCustody, UncertainCustody), (Assigned, UncertainCustody), (DispatchingCustody, UncertainCustody),
    (Exited, AbsenceVerified), (Terminated, AbsenceVerified) }

  /** The targets of each state are its edges. */
  lemma EdgesAreTargets(a: (AttemptState, AttemptState), i: (InvocationState, InvocationState), c: (CustodyState, CustodyState))
    ensures a in ATTEMPT_EDGES <==> a.1 in LegalAttemptTargets(a.0)
    ensures i in INVOCATION_EDGES <==> i.1 in LegalInvocationTargets(i.0)
    ensures c in CUSTODY_EDGES <==> c.1 in LegalCustodyTargets(c.0)
  {
  }

  // ----- new records

  lemma InvocationCreatesExactly(m: map<Id, Invocation>, i: Invocation)
    ensures CreateInvocation(m, i).Ok? <==>
              && i.identity.invocationId !in m
              && i.state == Prepared && i.authorizedBy.None? && i.authorizedAt.None? && i.resultDigest.None?
              && ((i.identity.operation == ReadOnlyProposal && i.identity.authority.sandbox == ReadOnlySandbox
                   && i.identity.writablePaths == [])
                  || (i.identity.operation == WorkspaceWriteCodeTask && i.identity.authority.sandbox == WorkspaceWriteSandbox
                      && i.identity.writablePaths != []))
    ensures CreateInvocation(m, i).Ok? ==> CreateInvocation(m, i).value == m[i.identity.invocationId := i]
  {
  }

  lemma CustodyCreatesExactly(m: map<Id, Custody>, c: Custody)
    ensures CreateCustody(m, c).Ok? <==>
              && c.invocationId !in m
              && c.state == PreparedCustody && c.adapterPid.None? && c.adapterTime.None? && !c.requestSent
              && c.absenceVerifiedAt.None?
    ensures CreateCustody(m, c).Ok? ==> CreateCustody(m, c).value == m[c.invocationId := c]
  {
  }
}
