/** The pure transitions of the attempt, invocation and custody machines. */
module Lifecycle {
  import opened Outcomes
  import opened Records

  // ----- attempt lifecycle

  function LegalAttemptTargets(s: AttemptState): set<AttemptState> {
    match s
    case Draft => {Ready, Aborted}
    case Ready => {Running, Aborted}
    case Running => {Candidate, Aborted}
    case Candidate => {Evaluating, Aborted}
    case Evaluating => {Passed, Failed, NeedsReview, Aborted}
    case Passed => {Closed}
    case Failed => {Closed}
    case NeedsReview => {Closed}
    case Closed => {}
    case Aborted => {}
  }

  predicate TerminalAttempt(s: AttemptState) {
    s == Closed || s == Aborted
  }

  /** What loading an attempt record demands beyond field formats. */
  predicate ValidAttempt(a: Attempt) {
    && a.createdAt <= a.updatedAt
    && (a.state in {Draft, Ready} ==> a.runtimeIdentity.None?)
    && (a.state !in {Draft, Ready, Aborted} ==> a.runtimeIdentity.Some?)
  }

  predicate Given(text: Option<string>) {
    text.Some? && text.value != ""
  }

  function TransitionAttempt(
    a: Attempt, target: AttemptState, occurredAt: int,
    candidate: Option<Digest>, runtime: Option<Digest>, cleanup: Option<string>): (r: Result<Attempt>)
  {
    if target !in LegalAttemptTargets(a.state) then Err("ATTEMPT_TRANSITION_INVALID")
    else if occurredAt < a.updatedAt then Err("ATTEMPT_TRANSITION_TIME_INVALID")
    else if target == Running && a.runtimeIdentity.Some? then Err("ATTEMPT_RUNTIME_IDENTITY_INVALID")
    else if target == Running && runtime.None? then Err("ATTEMPT_RUNTIME_IDENTITY_REQUIRED")
    else if target != Running && runtime.Some? then Err("ATTEMPT_RUNTIME_IDENTITY_IMMUTABLE")
    else if target == Candidate && candidate.None? then Err("ATTEMPT_CANDIDATE_REQUIRED")
    else if target != Candidate && candidate.Some? && candidate != a.candidateDigest then
      Err("ATTEMPT_IDENTITY_IMMUTABLE")
    else if TerminalAttempt(target) && !Given(cleanup) then Err("ATTEMPT_CLEANUP_REQUIRED")
    else if cleanup.Some? && !TerminalAttempt(target) then Err("ATTEMPT_CLEANUP_INVALID")
    else
      var updated := a.(
                      state := target,
                      updatedAt := occurredAt,
                      runtimeIdentity := if target == Running then runtime else a.runtimeIdentity,
                      candidateDigest := if target == Candidate then candidate else a.candidateDigest,
                      cleanupOutcome := if Given(cleanup) then cleanup else a.cleanupOutcome);
      if ValidAttempt(updated) then Ok(updated) else Err("RECORD_INVALID")
  }

  /** Two attempts that agree on everything no transition may change. */
  predicate SameAttemptIdentity(a: Attempt, b: Attempt) {
    && a.attemptId == b.attemptId
    && a.curriculumId == b.curriculumId
    && a.authority == b.authority
    && a.createdAt == b.createdAt
    && a.priorAttemptId == b.priorAttemptId
  }

  /** `bind_authorized_invocation`: the only source of a runtime identity. */
  function BindAuthorized(a: Attempt, i: Invocation, occurredAt: int): (r: Result<Attempt>) {
    if a.state != Ready || i.state != Authorized then Err("INTEGRATION_AUTHORIZATION_INVALID")
    else if
      || i.identity.attemptId != a.attemptId
      || i.identity.authority != a.authority
      || i.authorizedBy.None?
      || i.authorizedAt.None?
    then Err("INTEGRATION_IDENTITY_INVALID")
    else TransitionAttempt(a, Running, occurredAt, None, Some(OfIdentity(i.identity)), None)
  }

  // ----- invocation lifecycle

  function LegalInvocationTargets(s: InvocationState): set<InvocationState> {
    match s
    case Prepared => {Authorized, Rejected}
    case Authorized => {Dispatching, AbortedInvocation}
    case Dispatching => {Completed, Uncertain}
    case Completed => {}
    case Uncertain => {AbortedInvocation}
    case Rejected => {}
    case AbortedInvocation => {}
  }

  predicate TerminalInvocation(s: InvocationState) {
    s == Completed || s == Rejected || s == AbortedInvocation
  }

  predicate ValidInvocation(i: Invocation) {
    && (i.identity.operation == ReadOnlyProposal <==> i.identity.authority.sandbox == ReadOnlySandbox)
    && (i.identity.operation == ReadOnlyProposal <==> i.identity.writablePaths == [])
    && (i.state in {Prepared, Rejected} ==> i.authorizedBy.None? && i.authorizedAt.None?)
    && (i.state !in {Prepared, Rejected} ==> i.authorizedBy.Some? && i.authorizedAt.Some?)
    && (i.state == Completed <==> i.resultDigest.Some?)
  }

  function TransitionInvocation(
    i: Invocation, target: InvocationState,
    authorizedBy: Option<string>, authorizedAt: Option<int>, resultDigest: Option<Digest>): (r: Result<Invocation>)
  {
    if target !in LegalInvocationTargets(i.state) then Err("INTEGRATION_TRANSITION_INVALID")
    else if target == Completed && resultDigest.None? then Err("INTEGRATION_RESULT_REQUIRED")
    else if target != Completed && resultDigest.Some? then Err("INTEGRATION_RESULT_INVALID")
    else if target == Authorized && (authorizedBy.None? || authorizedAt.None?) then
      Err("INTEGRATION_AUTHORIZATION_INVALID")
    else if target != Authorized && (authorizedBy.Some? || authorizedAt.Some?) then
      Err("INTEGRATION_AUTHORIZATION_INVALID")
    else
      var updated := i.(
                      state := target,
                      authorizedBy := if target == Authorized then authorizedBy else i.authorizedBy,
                      authorizedAt := if target == Authorized then authorizedAt else i.authorizedAt,
                      resultDigest := resultDigest);
      if ValidInvocation(updated) then Ok(updated) else Err("INTEGRATION_INVOCATION_INVALID")
  }

  // ----- custody lifecycle

  function LegalCustodyTargets(s: CustodyState): set<CustodyState> {
    match s
    case PreparedCustody => {Assigned, Terminated, UncertainCustody}
    case Assigned => {DispatchingCustody, Terminated, UncertainCustody}
    case DispatchingCustody => {Exited, Terminated, UncertainCustody}
    case Exited => {AbsenceVerified}
    case Terminated => {AbsenceVerified}
    case UncertainCustody => {}
    case AbsenceVerified => {}
  }

  predicate ValidCustody(c: Custody) {
    var identified := c.adapterPid.Some? && c.adapterTime.Some?;
    && (c.adapterPid.None? <==> c.adapterTime.None?)
    && (c.state == PreparedCustody ==> !identified)
    && (c.state in {Assigned, DispatchingCustody, Exited} ==> identified)
    && (c.state in {DispatchingCustody, Exited, AbsenceVerified} && identified ==> c.requestSent)
    && (c.state in {PreparedCustody, Assigned} ==> !c.requestSent)
    && (c.state in {Terminated, UncertainCustody} ==> c.firstFailure.Some?)
    && (c.state == Exited ==> c.exitCode.Some?)
    && (c.state == AbsenceVerified ==> c.activeCount == Some(0) && c.absenceVerifiedAt.Some?)
    && (c.state != AbsenceVerified ==> c.absenceVerifiedAt.None?)
  }

  /** The optional keyword arguments of `transition_custody`. */
  datatype CustodyUpdate = CustodyUpdate(
    adapterPid: Option<int>, adapterTime: Option<int>,
    exitCode: Option<int>, activeCount: Option<nat>,
    absenceVerifiedAt: Option<int>, firstFailure: Option<string>)

  const NO_UPDATE := CustodyUpdate(None, None, None, None, None, None)

  function TransitionCustody(c: Custody, target: CustodyState, u: CustodyUpdate): (r: Result<Custody>) {
    var outcome := target in {Exited, Terminated, UncertainCustody};
    if target !in LegalCustodyTargets(c.state) then Err("INTEGRATION_CUSTODY_TRANSITION_INVALID")
    else if target != Assigned && (u.adapterPid.Some? || u.adapterTime.Some?) then
      Err("INTEGRATION_CUSTODY_INVALID")
    else if
      && !outcome && target != AbsenceVerified
      && (u.exitCode.Some? || u.activeCount.Some? || u.firstFailure.Some?)
    then Err("INTEGRATION_CUSTODY_INVALID")
    else if target != AbsenceVerified && u.absenceVerifiedAt.Some? then Err("INTEGRATION_CUSTODY_INVALID")
    else
      var updated := c.(
                      state := target,
                      adapterPid := if target == Assigned then u.adapterPid else c.adapterPid,
                      adapterTime := if target == Assigned then u.adapterTime else c.adapterTime,
                      requestSent := c.requestSent || target == DispatchingCustody,
                      exitCode := if outcome then u.exitCode else c.exitCode,
                      activeCount := if outcome || target == AbsenceVerified then u.activeCount else c.activeCount,
                      firstFailure := if outcome && u.firstFailure.Some? then u.firstFailure else c.firstFailure,
                      absenceVerifiedAt := if target == AbsenceVerified then u.absenceVerifiedAt else c.absenceVerifiedAt);
      if ValidCustody(updated) then Ok(updated) else Err("INTEGRATION_CUSTODY_INVALID")
  }
}
