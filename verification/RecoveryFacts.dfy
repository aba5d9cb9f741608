/** Exactly when a recovery is accepted and exactly what it leaves, on the
    fields of the records and of the fresh look at the workspace. */
module RecoveryFacts {
  import opened Outcomes
  import opened Records
  import opened Lifecycle
  import opened Stores
  import opened Commands
  import opened CommandFacts
  import opened Protocol
  import opened RecoveryProofs

  /** The adapter of this invocation had its request and has left nothing alive:
      verified before, or terminated with a failure and its controller gone. */
  predicate GoneForGood(c: Custody, i: InvocationIdentity, w: RecoveryWorld) {
    && c.invocationId == i.invocationId && c.invocationDigest == OfIdentity(i)
    && c.adapterPid.Some? && c.adapterTime.Some? && c.requestSent && c.activeCount == Some(0)
    && (c.state == AbsenceVerified || (c.state == Terminated && c.firstFailure.Some? && !w.controllerActive))
    && c.workspaceContentDigest == w.contentDigest
  }

  /** The receipt is the sealed one, and the workspace is seen as sealed: its
      place, its commit, and nothing changed in it. */
  predicate SeenAsSealed(p: Receipt, i: InvocationIdentity, w: RecoveryWorld) {
    && OfReceipt(p) == i.workspaceReceiptDigest
    && p.state == PreparedReceipt && p.attemptId == i.attemptId && p.relativePath == i.attemptId
    && p.exerciseId == i.authority.exerciseId && p.exerciseVersion == i.authority.exerciseVersion
    && p.templateCommit == i.authority.startingCommit
    && p.workspaceRootDigest == i.workspaceRootDigest && p.workspacePathDigest == i.workspacePathDigest
    && w.rootDigest == i.workspaceRootDigest && w.pathDigest == i.workspacePathDigest
    && w.head == i.authority.startingCommit && w.clean
  }

  /** The attempt still runs for the invocation, or was aborted by this recovery
      after the invocation was. */
  predicate LeftToRecover(i: Invocation, a: Attempt) {
    && a.authority == i.identity.authority && a.runtimeIdentity == Some(OfIdentity(i.identity)) && a.candidateDigest.None?
    && ((i.state in {Dispatching, Uncertain, AbortedInvocation} && a.state == Running)
        || (i.state == AbortedInvocation && a.state == Aborted
            && a.cleanupOutcome == Some("adapter absence and unchanged workspace verified; workspace retained")))
  }

  predicate Recoverable(s: Stores, id: Id, expected: Digest, controller: string, w: RecoveryWorld) {
    && id in s.invocations && id in s.custody && id !in s.results
    && var i := s.invocations[id];
       && OfIdentity(i.identity) == expected && i.authorizedBy == Some(controller)
       && i.identity.attemptId in s.attempts && i.identity.attemptId in s.receipts
       && var a := s.attempts[i.identity.attemptId];
          && LeftToRecover(i, a) && (a.state == Running ==> a.updatedAt <= w.now)
          && SeenAsSealed(s.receipts[i.identity.attemptId], i.identity, w)
          && GoneForGood(s.custody[id], i.identity, w)
  }

  lemma RecordsExactly(s: Stores, id: Id, expected: Digest, controller: string)
    requires AttemptsKeyed(s)
    ensures var r := RecoveryRecords(s.attempts, s.invocations, id, expected, controller);
            && (r.Ok? <==>
                  && id in s.invocations && OfIdentity(s.invocations[id].identity) == expected
                  && s.invocations[id].authorizedBy == Some(controller)
                  && s.invocations[id].identity.attemptId in s.attempts
                  && LeftToRecover(s.invocations[id], s.attempts[s.invocations[id].identity.attemptId]))
            && (r.Ok? ==> r.value == (s.invocations[id], s.attempts[s.invocations[id].identity.attemptId]))
  {
  }

  lemma CustodyExactly(s: Stores, id: Id, i: InvocationIdentity, w: RecoveryWorld)
    requires CustodyKeyed(s) && i.invocationId == id
    ensures var r := RecoveryCustody(s.custody, id, OfIdentity(i), w);
            && (r.Ok? <==> id in s.custody && GoneForGood(s.custody[id], i, w))
            && (r.Ok? ==>
                  var c := s.custody[id];
                  r.value == (c, if c.state == AbsenceVerified then c
                                 else c.(state := AbsenceVerified, absenceVerifiedAt := Some(w.now))))
  {
  }

  lemma AbortExactly(a: Attempt, now: int)
    requires ValidAttempt(a) && a.state in {Running, Aborted}
    ensures RecoveryAbort(a, now).Ok? <==> a.state == Aborted || a.updatedAt <= now
    ensures RecoveryAbort(a, now).Ok? ==> RecoveryAbort(a, now).value == AbortedAttempt(a, now)
  {
  }

  function AbortedAttempt(a: Attempt, now: int): Attempt {
    if a.state == Aborted then a
    else a.(state := Aborted, updatedAt := now,
            cleanupOutcome := Some("adapter absence and unchanged workspace verified; workspace retained"))
  }

  function VerifiedCustody(c: Custody, now: int): Custody {
    if c.state == AbsenceVerified then c else c.(state := AbsenceVerified, absenceVerifiedAt := Some(now))
  }

  function PlanOf(s: Stores, id: Id, now: int): Recovery
    requires id in s.invocations && id in s.custody && s.invocations[id].identity.attemptId in s.attempts
  {
    var i := s.invocations[id];
    var a := s.attempts[i.identity.attemptId];
    Recovery(i, a, s.custody[id], VerifiedCustody(s.custody[id], now), AbortedAttempt(a, now))
  }

  lemma PlansExactly(s: Stores, id: Id, expected: Digest, controller: string, w: RecoveryWorld)
    requires Loads(s)
    ensures var plan := PlanRecovery(s, id, expected, controller, w);
            && (plan.Ok? <==> Recoverable(s, id, expected, controller, w))
            && (plan.Ok? ==> plan.value == PlanOf(s, id, w.now))
  {
    RecordsExactly(s, id, expected, controller);
    if RecoveryRecords(s.attempts, s.invocations, id, expected, controller).Ok? {
      CustodyExactly(s, id, s.invocations[id].identity, w);
      AbortExactly(s.attempts[s.invocations[id].identity.attemptId], w.now);
    }
  }

  /** Why a recovery is refused, as far as its command line and its adapter
      tell: a running controller is told apart from records that do not fit. */
  lemma RecoveryRefusals(s: Stores, id: Id, expected: Digest, controller: string, w: RecoveryWorld)
    ensures var outcome := RecoverEffect(s, id, expected, controller, w).outcome;
            && (id !in s.invocations ==> outcome == Err("STORAGE_RECORD_MISSING"))
            && (id in s.invocations ==>
                  var i := s.invocations[id];
                  && (expected != OfIdentity(i.identity) ==> outcome == Err("INTEGRATION_IDENTITY_INVALID"))
                  && (expected == OfIdentity(i.identity) && i.authorizedBy != Some(controller) ==>
                        outcome == Err("OPERATOR_CONTROLLER_MISMATCH"))
                  && (expected == OfIdentity(i.identity) && i.authorizedBy == Some(controller)
                      && i.state in {Prepared, Authorized, Rejected, Completed} ==>
                        outcome == Err("OPERATOR_RECOVERY_INVALID")))
  {
    var plan := PlanRecovery(s, id, expected, controller, w);
    assert plan.Err? ==> RecoverEffect(s, id, expected, controller, w) == Refuse(plan.code);
  }

  /** With everything else in place, only a running controller stands in the way
      of a TERMINATED adapter's recovery. */
  lemma ActiveControllersAreNamed(s: Stores, id: Id, expected: Digest, controller: string, w: RecoveryWorld)
    requires Loads(s) && Recoverable(s, id, expected, controller, w) && s.custody[id].state == Terminated
    ensures RecoverEffect(s, id, expected, controller, w.(controllerActive := true)) == Refuse("OPERATOR_RECOVERY_ACTIVE")
  {
    RecordsExactly(s, id, expected, controller);
  }

  // ----- what it leaves

  lemma ApplyFirst(s: Stores, w: Write, ws: seq<Write>)
    ensures ApplyAll(s, [w] + ws) == ApplyAll(Apply(s, w), ws)
  {
    assert ([w] + ws)[1..] == ws;
  }

  lemma AttemptIsLeft(s: Stores, p: Recovery)
    requires p.attempt.attemptId in s.attempts && s.attempts[p.attempt.attemptId] == p.attempt
    requires if p.attempt.state == Running then p.aborted.attemptId == p.attempt.attemptId else p.aborted == p.attempt
    ensures ApplyAll(s, AttemptWrites(p)) == s.(attempts := s.attempts[p.attempt.attemptId := p.aborted])
  {
    if p.attempt.state == Running {
      assert AttemptWrites(p) == [PutAttempt(p.aborted)] + [];
      ApplyFirst(s, PutAttempt(p.aborted), []);
    } else {
      assert s.attempts[p.attempt.attemptId := p.aborted] == s.attempts;
    }
  }

  /** The directory with the invocation aborted and the attempt closed. */
  function Closed(s: Stores, p: Recovery): Stores {
    var id := p.invocation.identity.invocationId;
    s.(invocations := s.invocations[id := AbortedOf(p.invocation)],
       attempts := s.attempts[p.attempt.attemptId := p.aborted])
  }

  lemma DoubtIsLeft(s: Stores, p: Recovery, current: Invocation)
    requires current.identity.invocationId in s.invocations && s.invocations[current.identity.invocationId] == current
    requires AbortedOf(current) == AbortedOf(p.invocation)
    requires current.state == Uncertain || current == AbortedOf(current)
    requires p.attempt.attemptId in s.attempts && s.attempts[p.attempt.attemptId] == p.attempt
    requires if p.attempt.state == Running then p.aborted.attemptId == p.attempt.attemptId else p.aborted == p.attempt
    ensures ApplyAll(s, UncertainWrites(p, current)) == Closed(s, p)
  {
    var abort := PutInvocation(AbortedOf(current));
    if current.state == Uncertain {
      ApplyFirst(s, abort, AttemptWrites(p));
      AttemptIsLeft(Apply(s, abort), p);
    } else {
      AttemptIsLeft(s, p);
      assert s.invocations[current.identity.invocationId := AbortedOf(current)] == s.invocations;
    }
  }

  lemma InvocationIsLeft(s: Stores, p: Recovery)
    requires p.invocation.state in {Dispatching, Uncertain} || p.invocation == AbortedOf(p.invocation)
    requires var id := p.invocation.identity.invocationId; id in s.invocations && s.invocations[id] == p.invocation
    requires p.attempt.attemptId in s.attempts && s.attempts[p.attempt.attemptId] == p.attempt
    requires if p.attempt.state == Running then p.aborted.attemptId == p.attempt.attemptId else p.aborted == p.attempt
    ensures ApplyAll(s, DispatchingWrites(p)) == Closed(s, p)
  {
    var i := p.invocation;
    if i.state == Dispatching {
      var doubt := PutInvocation(UncertainOf(i));
      ApplyFirst(s, doubt, UncertainWrites(p, UncertainOf(i)));
      DoubtIsLeft(Apply(s, doubt), p, UncertainOf(i));
      var id := i.identity.invocationId;
      assert s.invocations[id := UncertainOf(i)][id := AbortedOf(i)] == s.invocations[id := AbortedOf(i)];
    } else {
      DoubtIsLeft(s, p, i);
    }
  }

  /** The plan names the stored records and changes only what is open. */
  predicate Fits(s: Stores, p: Recovery) {
    var id := p.invocation.identity.invocationId;
    && (p.invocation.state in {Dispatching, Uncertain} || p.invocation == AbortedOf(p.invocation))
    && id in s.invocations && s.invocations[id] == p.invocation
    && id in s.custody && s.custody[id] == p.custody && p.verified.invocationId == id
    && (p.custody.state == Terminated || p.verified == p.custody)
    && p.attempt.attemptId in s.attempts && s.attempts[p.attempt.attemptId] == p.attempt
    && (if p.attempt.state == Running then p.aborted.attemptId == p.attempt.attemptId else p.aborted == p.attempt)
  }

  lemma RecoveryLeaves(s: Stores, p: Recovery)
    requires Fits(s, p)
    ensures var id := p.invocation.identity.invocationId;
            ApplyAll(s, RecoveryWrites(p)) == Closed(s, p).(custody := s.custody[id := p.verified])
    ensures |RecoveryWrites(p)| <= 4
  {
    if p.custody.state == Terminated {
      ApplyFirst(s, PutCustody(p.verified), DispatchingWrites(p));
      InvocationIsLeft(Apply(s, PutCustody(p.verified)), p);
    } else {
      InvocationIsLeft(s, p);
      assert s.custody[p.verified.invocationId := p.verified] == s.custody;
    }
  }

  /** The answer `r` and the directory `t` of a recovery: it is accepted exactly
      if it can be, and then leaves the custody verified, the invocation and the
      attempt aborted, and everything else as it was. */
  ghost predicate RecoveryAnswered(
    s: Stores, r: Result<Reply>, t: Stores, id: Id, expected: Digest, controller: string, w: RecoveryWorld)
  {
    && (r.Ok? <==> Recoverable(s, id, expected, controller, w))
    && (r.Err? ==> t == s)
    && (Recoverable(s, id, expected, controller, w) ==>
          var i := s.invocations[id];
          var recovered := Invocation(i.identity, i.authorizedBy, i.authorizedAt, AbortedInvocation, None);
          var aborted := AbortedAttempt(s.attempts[i.identity.attemptId], w.now);
          var c := VerifiedCustody(s.custody[id], w.now);
          && r == Ok(RecoveryReply(recovered, aborted, c))
          && t == Stores(
                    s.attempts[i.identity.attemptId := aborted], s.invocations[id := recovered],
                    s.custody[id := c], s.results, s.receipts, s.contents))
  }

  lemma RecoversExactly(s: Stores, id: Id, expected: Digest, controller: string, w: RecoveryWorld)
    requires Loads(s)
    ensures var e := RecoverEffect(s, id, expected, controller, w);
            RecoveryAnswered(s, e.outcome, After(s, e), id, expected, controller, w) && |e.writes| <= 4
  {
    var q := Request(id, expected, controller);
    PlansExactly(s, id, expected, controller, w);
    RefusalsWriteNothing(s, q, w);
    if Plan(s, q, w).Ok? {
      AcceptedRecoveryWrites(s, q, w);
      PlanLeaves(s, id, expected, controller, w, Recover(s, q, w));
    }
  }

  lemma OpenInvocation(i: Invocation, a: Attempt)
    requires ValidInvocation(i) && LeftToRecover(i, a)
    ensures i.resultDigest.None? && (i.state in {Dispatching, Uncertain} || i == AbortedOf(i)) && a.state in {Running, Aborted}
  {
  }

  lemma PlanFits(s: Stores, id: Id, now: int)
    requires id in s.invocations && id in s.custody && s.invocations[id].identity.attemptId in s.attempts
    requires var i := s.invocations[id];
             i.identity.invocationId == id && (i.state in {Dispatching, Uncertain} || i == AbortedOf(i))
    requires s.custody[id].invocationId == id && s.custody[id].state in {AbsenceVerified, Terminated}
    requires var a := s.attempts[s.invocations[id].identity.attemptId];
             a.attemptId == s.invocations[id].identity.attemptId && a.state in {Running, Aborted}
    ensures Fits(s, PlanOf(s, id, now))
  {
  }

  lemma PlanLeaves(s: Stores, id: Id, expected: Digest, controller: string, w: RecoveryWorld, e: Effect)
    requires Loads(s) && Recoverable(s, id, expected, controller, w)
    requires var p := PlanOf(s, id, w.now); e == Effect(RecoveryWrites(p), RecoveryOutcome(p))
    ensures RecoveryAnswered(s, e.outcome, After(s, e), id, expected, controller, w) && |e.writes| <= 4
  {
    OpenInvocation(s.invocations[id], s.attempts[s.invocations[id].identity.attemptId]);
    PlanFits(s, id, w.now);
    RecoveryLeaves(s, PlanOf(s, id, w.now));
  }

  /** On a disk with room for its four writes, a recovery answers exactly so. */
  lemma RecoveryAnswers(d: Disk, id: Id, expected: Digest, controller: string, w: RecoveryWorld)
    requires Loads(d.stores) && d.writesLeft >= 4
    ensures var run := Run(d, RecoverEffect(d.stores, id, expected, controller, w));
            RecoveryAnswered(d.stores, run.1, run.0.stores, id, expected, controller, w)
  {
    RecoversExactly(d.stores, id, expected, controller, w);
    UncutRun(d, RecoverEffect(d.stores, id, expected, controller, w));
  }
}
