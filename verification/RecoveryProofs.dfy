/** `recover_invocation` is restartable: whatever prefix of its writes an
    interrupted run left behind, running it again finishes the same recovery. */
module RecoveryProofs {
  import opened Outcomes
  import opened Records
  import opened Lifecycle
  import opened Stores
  import opened Moves
  import opened Commands
  import opened Protocol
  import opened Histories

  /** The command line of one recovery. */
  datatype Request = Request(invocationId: Id, expected: Digest, controller: string)

  function Plan(s: Stores, q: Request, w: RecoveryWorld): (r: Result<Recovery>) {
    PlanRecovery(s, q.invocationId, q.expected, q.controller, w)
  }

  function Recover(s: Stores, q: Request, w: RecoveryWorld): Effect {
    RecoverEffect(s, q.invocationId, q.expected, q.controller, w)
  }

  /** Records that load: each stands under its name and is well formed. */
  ghost predicate Loads(s: Stores) {
    AttemptsKeyed(s) && InvocationsKeyed(s) && CustodyKeyed(s)
  }

  // ----- the writes of an accepted recovery

  function AbortedOf(i: Invocation): Invocation {
    i.(state := AbortedInvocation, resultDigest := None)
  }

  function UncertainOf(i: Invocation): Invocation {
    i.(state := Uncertain, resultDigest := None)
  }

  function AttemptWrites(p: Recovery): seq<Write> {
    if p.attempt.state == Running then [PutAttempt(p.aborted)] else []
  }

  function UncertainWrites(p: Recovery, current: Invocation): seq<Write> {
    if current.state == Uncertain then [PutInvocation(AbortedOf(current))] + AttemptWrites(p) else AttemptWrites(p)
  }

  function DispatchingWrites(p: Recovery): seq<Write> {
    var i := p.invocation;
    if i.state == Dispatching then [PutInvocation(UncertainOf(i))] + UncertainWrites(p, UncertainOf(i))
    else UncertainWrites(p, i)
  }

  /** Custody first, then the invocation, then the attempt; only what is left. */
  function RecoveryWrites(p: Recovery): seq<Write> {
    if p.custody.state == Terminated then [PutCustody(p.verified)] + DispatchingWrites(p) else DispatchingWrites(p)
  }

  function RecoveryOutcome(p: Recovery): Result<Reply> {
    Ok(RecoveryReply(AbortedOf(p.invocation), p.aborted, p.verified))
  }

  /** The durable records a recovery is about to finish from. */
  ghost predicate Stands(s: Stores, p: Recovery, current: Invocation) {
    var id := p.invocation.identity.invocationId;
    && id in s.invocations && s.invocations[id] == current
    && current.identity == p.invocation.identity
    && AbortedOf(current) == AbortedOf(p.invocation)
    && id in s.custody && s.custody[id] == p.verified
    && p.attempt.attemptId in s.attempts && s.attempts[p.attempt.attemptId] == p.attempt
    && p.aborted.attemptId == p.attempt.attemptId
    && p.aborted.state == Aborted
    && (if p.attempt.state == Running then AttemptMoves(p.attempt, p.aborted) else p.aborted == p.attempt)
  }

  lemma AttemptStage(s: Stores, p: Recovery, current: Invocation)
    requires Stands(s, p, current) && current == AbortedOf(current)
    ensures RecoverAttempt(s, p, current) == Effect(AttemptWrites(p), RecoveryOutcome(p))
  {
    AttemptSavesAreMoves(s.attempts, p.aborted);
  }

  lemma UncertainStage(s: Stores, p: Recovery, current: Invocation)
    requires Stands(s, p, current) && ValidInvocation(current)
    requires current.state in {Uncertain, AbortedInvocation}
    ensures RecoverUncertain(s, p, current) == Effect(UncertainWrites(p, current), RecoveryOutcome(p))
  {
    if current.state == Uncertain {
      var i := AbortedOf(current);
      var t := Apply(s, PutInvocation(i));
      InvocationSavesAreMoves(s.invocations, i, OfInvocation(current));
      AttemptStage(t, p, i);
      assert RecoverUncertain(s, p, current) == Put(PutInvocation(i), RecoverAttempt(t, p, i));
    } else {
      AttemptStage(s, p, current);
    }
  }

  lemma DispatchingStage(s: Stores, p: Recovery)
    requires Stands(s, p, p.invocation) && ValidInvocation(p.invocation)
    requires p.invocation.state in {Dispatching, Uncertain, AbortedInvocation}
    ensures RecoverDispatching(s, p) == Effect(DispatchingWrites(p), RecoveryOutcome(p))
  {
    if p.invocation.state == Dispatching {
      var i := UncertainOf(p.invocation);
      var t := Apply(s, PutInvocation(i));
      InvocationSavesAreMoves(s.invocations, i, OfInvocation(p.invocation));
      UncertainStage(t, p, i);
      assert RecoverDispatching(s, p) == Put(PutInvocation(i), RecoverUncertain(t, p, i));
    } else {
      UncertainStage(s, p, p.invocation);
    }
  }

  /** What an accepted plan says about the directory it was made in. */
  ghost predicate Planned(s: Stores, q: Request, w: RecoveryWorld, p: Recovery) {
    var id := q.invocationId;
    && id in s.invocations && s.invocations[id] == p.invocation && p.invocation.identity.invocationId == id
    && p.invocation.state in {Dispatching, Uncertain, AbortedInvocation}
    && p.attempt.attemptId in s.attempts && s.attempts[p.attempt.attemptId] == p.attempt
    && p.attempt.attemptId == p.invocation.identity.attemptId
    && id in s.custody && s.custody[id] == p.custody && p.custody.invocationId == id
    && (if p.custody.state == Terminated then CustodyMoves(p.custody, p.verified) else p.verified == p.custody)
    && p.verified.state == AbsenceVerified
    && p.verified.workspaceContentDigest == w.contentDigest
    && p.aborted.state == Aborted && p.aborted.attemptId == p.attempt.attemptId
    && p.aborted.cleanupOutcome == Some(RECOVERY_CLEANUP_OUTCOME)
    && (if p.attempt.state == Running then AttemptMoves(p.attempt, p.aborted) else p.aborted == p.attempt)
    && (p.attempt.state == Aborted ==> p.invocation.state == AbortedInvocation)
    && id !in s.results
  }

  lemma PlannedCustody(m: map<Id, Custody>, id: Id, expected: Digest, w: RecoveryWorld)
    requires RecoveryCustody(m, id, expected, w).Ok?
    requires forall k | k in m :: ValidCustody(m[k])
    ensures var (c, verified) := RecoveryCustody(m, id, expected, w).value;
            && id in m && m[id] == c && c.invocationId == id
            && (if c.state == Terminated then CustodyMoves(c, verified) else verified == c)
            && verified.state == AbsenceVerified
            && verified.workspaceContentDigest == w.contentDigest
            && (c.state == Terminated ==> RecoveryCustody(m[id := verified], id, expected, w) == Ok((verified, verified)))
  {
  }

  lemma PlannedAttempt(s: Stores, id: Id, expected: Digest, controller: string, now: int)
    requires AttemptsKeyed(s) && InvocationsKeyed(s)
    requires RecoveryRecords(s.attempts, s.invocations, id, expected, controller).Ok?
    ensures var (i, a) := RecoveryRecords(s.attempts, s.invocations, id, expected, controller).value;
            && id in s.invocations && s.invocations[id] == i && i.identity.invocationId == id
            && i.state in {Dispatching, Uncertain, AbortedInvocation}
            && a.attemptId in s.attempts && s.attempts[a.attemptId] == a
            && a.attemptId == i.identity.attemptId
            && a.state in {Running, Aborted}
            && (a.state == Aborted ==> i.state == AbortedInvocation && a.cleanupOutcome == Some(RECOVERY_CLEANUP_OUTCOME))
            && (RecoveryAbort(a, now).Ok? ==>
                  var b := RecoveryAbort(a, now).value;
                  && b.attemptId == a.attemptId
                  && b.state == Aborted
                  && b.cleanupOutcome == Some(RECOVERY_CLEANUP_OUTCOME)
                  && (if a.state == Running then AttemptMoves(a, b) else b == a))
  {
  }

  lemma PlansAreSound(s: Stores, q: Request, w: RecoveryWorld)
    requires Loads(s) && Plan(s, q, w).Ok?
    ensures Planned(s, q, w, Plan(s, q, w).value)
  {
    PlannedCustody(s.custody, q.invocationId, q.expected, w);
    PlannedAttempt(s, q.invocationId, q.expected, q.controller, w.now);
  }

  lemma CustodyStage(s: Stores, q: Request, w: RecoveryWorld, p: Recovery)
    requires InvocationsKeyed(s) && Planned(s, q, w, p)
    ensures RecoverCustody(s, p) == Effect(RecoveryWrites(p), RecoveryOutcome(p))
  {
    if p.custody.state == Terminated {
      var t := Apply(s, PutCustody(p.verified));
      CustodySavesAreMoves(s.custody, p.verified, OfCustody(p.custody));
      DispatchingStage(t, p);
      assert RecoverCustody(s, p) == Put(PutCustody(p.verified), RecoverDispatching(t, p));
    } else {
      DispatchingStage(s, p);
    }
  }

  /** An accepted recovery makes exactly these writes and then succeeds. */
  lemma AcceptedRecoveryWrites(s: Stores, q: Request, w: RecoveryWorld)
    requires Loads(s) && Plan(s, q, w).Ok?
    ensures var p := Plan(s, q, w).value;
            Recover(s, q, w) == Effect(RecoveryWrites(p), RecoveryOutcome(p))
  {
    PlansAreSound(s, q, w);
    CustodyStage(s, q, w, Plan(s, q, w).value);
  }

  // ----- restarting

  /** A later look at the same workspace, the controller still gone. */
  predicate Later(w: RecoveryWorld, w': RecoveryWorld) {
    && w'.(now := w.now, controllerActive := w.controllerActive) == w
    && w.now <= w'.now
    && !w'.controllerActive
  }

  lemma CustodyKeeps(m: map<Id, Custody>, id: Id, expected: Digest, w: RecoveryWorld, w': RecoveryWorld)
    requires RecoveryCustody(m, id, expected, w).Ok? && Later(w, w')
    ensures RecoveryCustody(m, id, expected, w').Ok?
  {
  }

  /** A plan that was accepted is accepted again later. */
  lemma PlansKeep(s: Stores, q: Request, w: RecoveryWorld, w': RecoveryWorld)
    requires Plan(s, q, w).Ok? && Later(w, w')
    requires AttemptsKeyed(s)
    ensures Plan(s, q, w').Ok?
  {
    CustodyKeeps(s.custody, q.invocationId, q.expected, w, w');
    var (i, a) := RecoveryRecords(s.attempts, s.invocations, q.invocationId, q.expected, q.controller).value;
    assert RecoveryEvidence(s.results, s.receipts, i.identity, w').Ok?;
    assert RecoveryAbort(a, w'.now).Ok?;
  }

  lemma RecordsAfterInvocation(s: Stores, q: Request, i: Invocation)
    requires RecoveryRecords(s.attempts, s.invocations, q.invocationId, q.expected, q.controller).Ok?
    requires var (j, a) := RecoveryRecords(s.attempts, s.invocations, q.invocationId, q.expected, q.controller).value;
             && a.state == Running
             && i.identity == j.identity && i.authorizedBy == j.authorizedBy
    requires i.state in {Uncertain, AbortedInvocation}
    ensures var a := RecoveryRecords(s.attempts, s.invocations, q.invocationId, q.expected, q.controller).value.1;
            RecoveryRecords(s.attempts, s.invocations[q.invocationId := i], q.invocationId, q.expected, q.controller) == Ok((i, a))
  {
  }

  lemma RecordsAfterAttempt(s: Stores, q: Request, now: int)
    requires RecoveryRecords(s.attempts, s.invocations, q.invocationId, q.expected, q.controller).Ok?
    requires var (i, a) := RecoveryRecords(s.attempts, s.invocations, q.invocationId, q.expected, q.controller).value;
             && a.state == Running && i.state == AbortedInvocation && RecoveryAbort(a, now).Ok?
    ensures var (i, a) := RecoveryRecords(s.attempts, s.invocations, q.invocationId, q.expected, q.controller).value;
            var b := RecoveryAbort(a, now).value;
            RecoveryRecords(s.attempts[a.attemptId := b], s.invocations, q.invocationId, q.expected, q.controller) == Ok((i, b))
  {
  }

  /** The recovery that remains after the first write of `p`. */
  function Remaining(p: Recovery): Recovery {
    if p.custody.state == Terminated then p.(custody := p.verified)
    else if p.invocation.state == Dispatching then p.(invocation := UncertainOf(p.invocation))
    else if p.invocation.state == Uncertain then p.(invocation := AbortedOf(p.invocation))
    else p.(attempt := p.aborted)
  }

  /** The parts of a plan. */
  predicate PartsOf(s: Stores, q: Request, w: RecoveryWorld, p: Recovery) {
    && RecoveryRecords(s.attempts, s.invocations, q.invocationId, q.expected, q.controller) == Ok((p.invocation, p.attempt))
    && RecoveryEvidence(s.results, s.receipts, p.invocation.identity, w).Ok?
    && RecoveryCustody(s.custody, q.invocationId, q.expected, w) == Ok((p.custody, p.verified))
    && RecoveryAbort(p.attempt, w.now) == Ok(p.aborted)
  }

  lemma PlanGives(s: Stores, q: Request, w: RecoveryWorld)
    requires Plan(s, q, w).Ok?
    ensures PartsOf(s, q, w, Plan(s, q, w).value)
  {
  }

  lemma PlanIs(s: Stores, q: Request, w: RecoveryWorld, p: Recovery)
    requires PartsOf(s, q, w, p)
    ensures Plan(s, q, w) == Ok(p)
  {
  }

  lemma ResumeAfterCustody(s: Stores, q: Request, w: RecoveryWorld, p: Recovery)
    requires CustodyKeyed(s) && PartsOf(s, q, w, p) && p.custody.state == Terminated
    ensures PartsOf(Apply(s, PutCustody(p.verified)), q, w, Remaining(p))
  {
    PlannedCustody(s.custody, q.invocationId, q.expected, w);
  }

  lemma ResumeAfterDoubt(s: Stores, q: Request, w: RecoveryWorld, p: Recovery)
    requires Planned(s, q, w, p) && Plan(s, q, w) == Ok(p)
    requires p.custody.state != Terminated && p.invocation.state == Dispatching
    ensures Plan(Apply(s, PutInvocation(UncertainOf(p.invocation))), q, w) == Ok(Remaining(p))
  {
    RecordsAfterInvocation(s, q, UncertainOf(p.invocation));
  }

  lemma ResumeAfterAbort(s: Stores, q: Request, w: RecoveryWorld, p: Recovery)
    requires Planned(s, q, w, p) && Plan(s, q, w) == Ok(p)
    requires p.custody.state != Terminated && p.invocation.state == Uncertain
    ensures Plan(Apply(s, PutInvocation(AbortedOf(p.invocation))), q, w) == Ok(Remaining(p))
  {
    RecordsAfterInvocation(s, q, AbortedOf(p.invocation));
  }

  lemma ResumeAfterAttempt(s: Stores, q: Request, w: RecoveryWorld, p: Recovery)
    requires Planned(s, q, w, p) && Plan(s, q, w) == Ok(p)
    requires p.custody.state != Terminated && p.invocation.state == AbortedInvocation && p.attempt.state == Running
    ensures Plan(Apply(s, PutAttempt(p.aborted)), q, w) == Ok(Remaining(p))
  {
    RecordsAfterAttempt(s, q, w.now);
  }

  /** After the first of its writes an accepted recovery is still accepted. */
  lemma FirstWriteIsResumable(s: Stores, q: Request, w: RecoveryWorld, p: Recovery)
    requires Loads(s) && Planned(s, q, w, p) && Plan(s, q, w) == Ok(p)
    requires RecoveryWrites(p) != []
    ensures Plan(Apply(s, RecoveryWrites(p)[0]), q, w) == Ok(Remaining(p))
  {
    if p.custody.state == Terminated {
      PlanGives(s, q, w);
      ResumeAfterCustody(s, q, w, p);
      PlanIs(Apply(s, PutCustody(p.verified)), q, w, Remaining(p));
    } else if p.invocation.state == Dispatching {
      ResumeAfterDoubt(s, q, w, p);
    } else if p.invocation.state == Uncertain {
      ResumeAfterAbort(s, q, w, p);
    } else {
      ResumeAfterAttempt(s, q, w, p);
    }
  }

  /** ... and what it then has left are its remaining writes. */
  lemma RemainingWrites(s: Stores, q: Request, w: RecoveryWorld, p: Recovery)
    requires Planned(s, q, w, p) && RecoveryWrites(p) != []
    ensures RecoveryWrites(Remaining(p)) == RecoveryWrites(p)[1..]
    ensures RecoveryOutcome(Remaining(p)) == RecoveryOutcome(p)
  {
  }

  lemma FirstWriteLoads(s: Stores, q: Request, w: RecoveryWorld, p: Recovery)
    requires Loads(s) && Plan(s, q, w) == Ok(p)
    requires RecoveryWrites(p) != []
    ensures Loads(Apply(s, RecoveryWrites(p)[0]))
  {
    AcceptedRecoveryWrites(s, q, w);
    RecoverIsLegal(s, q.invocationId, q.expected, q.controller, w);
    LegalKeepsAttemptsKeyed(s, RecoveryWrites(p)[0]);
    LegalKeepsInvocationsKeyed(s, RecoveryWrites(p)[0]);
    LegalKeepsCustodyKeyed(s, RecoveryWrites(p)[0]);
  }

  // ----- the main results

  /** Interrupted tries: each looks at the workspace and makes some writes. */
  datatype Try = Try(world: RecoveryWorld, writes: nat)

  function AfterTries(s: Stores, q: Request, tries: seq<Try>): Stores
    decreases tries
  {
    if tries == [] then s
    else AfterTries(ApplyAll(s, Cut(Recover(s, q, tries[0].world).writes, tries[0].writes)), q, tries[1..])
  }

  /** Every try sees the workspace that `w` saw, no earlier than the last one. */
  ghost predicate InOrder(w: RecoveryWorld, tries: seq<Try>)
    decreases tries
  {
    tries == [] || (Later(w, tries[0].world) && InOrder(tries[0].world, tries[1..]))
  }

  /** The state recovery aims at. */
  ghost predicate Recovered(t: Stores, q: Request, w: RecoveryWorld) {
    var id := q.invocationId;
    && id in t.invocations
    && t.invocations[id].state == AbortedInvocation
    && id in t.custody
    && t.custody[id].state == AbsenceVerified
    && t.custody[id].workspaceContentDigest == w.contentDigest
    && id !in t.results
    && t.invocations[id].identity.attemptId in t.attempts
    && var a := t.attempts[t.invocations[id].identity.attemptId];
       && a.state == Aborted
       && a.cleanupOutcome == Some(RECOVERY_CLEANUP_OUTCOME)
  }

  /** `t` differs from `s` at most in the three records of this recovery. */
  ghost predicate OnlyRecovers(s: Stores, t: Stores, q: Request) {
    && q.invocationId in s.invocations
    && t.results == s.results && t.receipts == s.receipts && t.contents == s.contents
    && t.custody - {q.invocationId} == s.custody - {q.invocationId}
    && t.invocations - {q.invocationId} == s.invocations - {q.invocationId}
    && q.invocationId in t.invocations
    && t.invocations[q.invocationId].identity == s.invocations[q.invocationId].identity
    && var a := s.invocations[q.invocationId].identity.attemptId;
       t.attempts - {a} == s.attempts - {a}
  }

  lemma FirstWriteOnlyRecovers(s: Stores, q: Request, w: RecoveryWorld, p: Recovery)
    requires Planned(s, q, w, p) && RecoveryWrites(p) != []
    ensures OnlyRecovers(s, Apply(s, RecoveryWrites(p)[0]), q)
  {
  }

  lemma OnlyRecoversIsTransitive(s: Stores, t: Stores, u: Stores, q: Request)
    requires OnlyRecovers(s, t, q) && OnlyRecovers(t, u, q)
    ensures OnlyRecovers(s, u, q)
  {
  }

  /** An accepted recovery of `t` whose writes are `ws`. */
  ghost predicate Remains(t: Stores, q: Request, w: RecoveryWorld, ws: seq<Write>) {
    && Loads(t)
    && Plan(t, q, w).Ok?
    && RecoveryWrites(Plan(t, q, w).value) == ws
  }

  lemma RemainsAfterFirst(t: Stores, q: Request, w: RecoveryWorld, ws: seq<Write>)
    requires Remains(t, q, w, ws) && ws != []
    ensures Remains(Apply(t, ws[0]), q, w, ws[1..])
    ensures OnlyRecovers(t, Apply(t, ws[0]), q)
  {
    var p := Plan(t, q, w).value;
    PlansAreSound(t, q, w);
    FirstWriteIsResumable(t, q, w, p);
    FirstWriteLoads(t, q, w, p);
    RemainingWrites(t, q, w, p);
    FirstWriteOnlyRecovers(t, q, w, p);
  }

  /** A relation that every first write carries on holds after any prefix. */
  lemma {:induction false} PrefixInduction(r: (Stores, seq<Write>) -> bool, s: Stores, ws: seq<Write>, n: nat)
    requires r(s, ws) && n <= |ws|
    requires forall t, us {:trigger r(t, us)} :: r(t, us) && us != [] ==> r(Apply(t, us[0]), us[1..])
    ensures r(ApplyAll(s, ws[..n]), ws[n..])
    decreases n
  {
    if n == 0 {
      assert ws[..0] == [] && ws[0..] == ws;
    } else {
      PrefixInduction(r, Apply(s, ws[0]), ws[1..], n - 1);
      assert ws[..n][1..] == ws[1..][..n - 1];
      assert ws[1..][n - 1..] == ws[n..];
    }
  }

  lemma PrefixRemains(s: Stores, q: Request, w: RecoveryWorld, ws: seq<Write>, n: nat)
    requires q.invocationId in s.invocations
    requires Remains(s, q, w, ws) && n <= |ws|
    ensures var t := ApplyAll(s, ws[..n]);
            Remains(t, q, w, ws[n..]) && OnlyRecovers(s, t, q)
  {
    var r := (t: Stores, us: seq<Write>) => Remains(t, q, w, us) && OnlyRecovers(s, t, q);
    forall t, us | r(t, us) && us != []
      ensures r(Apply(t, us[0]), us[1..])
    {
      RemainsAfterFirst(t, q, w, us);
      OnlyRecoversIsTransitive(s, t, Apply(t, us[0]), q);
    }
    PrefixInduction(r, s, ws, n);
  }

  /** After any number of its writes an accepted recovery is still accepted,
      has exactly the other writes left, and has touched nothing else. */
  lemma AnyPrefixIsResumable(s: Stores, q: Request, w: RecoveryWorld, n: nat)
    requires Loads(s) && Plan(s, q, w).Ok?
    requires n <= |Recover(s, q, w).writes|
    ensures var ws := Recover(s, q, w).writes;
            var t := ApplyAll(s, ws[..n]);
            Remains(t, q, w, ws[n..]) && OnlyRecovers(s, t, q)
  {
    AcceptedRecoveryWrites(s, q, w);
    PlansAreSound(s, q, w);
    PrefixRemains(s, q, w, Recover(s, q, w).writes, n);
  }

  lemma NothingRemains(t: Stores, q: Request, w: RecoveryWorld)
    requires Remains(t, q, w, [])
    ensures Recovered(t, q, w)
  {
    PlansAreSound(t, q, w);
  }

  lemma FullRunLeavesNothing(s: Stores, q: Request, w: RecoveryWorld)
    requires Loads(s) && Plan(s, q, w).Ok?
    ensures var t := ApplyAll(s, Recover(s, q, w).writes);
            Remains(t, q, w, []) && OnlyRecovers(s, t, q)
  {
    var ws := Recover(s, q, w).writes;
    AnyPrefixIsResumable(s, q, w, |ws|);
    assert ws[..|ws|] == ws && ws[|ws|..] == [];
  }

  /** An uninterrupted recovery that is accepted succeeds and recovers. */
  lemma FullRunRecovers(s: Stores, q: Request, w: RecoveryWorld)
    requires Loads(s) && Plan(s, q, w).Ok?
    ensures var e := Recover(s, q, w);
            && e.outcome.Ok?
            && Recovered(ApplyAll(s, e.writes), q, w)
            && OnlyRecovers(s, ApplyAll(s, e.writes), q)
  {
    RefusalsWriteNothing(s, q, w);
    FullRunLeavesNothing(s, q, w);
    NothingRemains(ApplyAll(s, Recover(s, q, w).writes), q, w);
  }

  /** With fault-free stores every refusal comes before the first write. */
  lemma RefusalsWriteNothing(s: Stores, q: Request, w: RecoveryWorld)
    requires Loads(s)
    ensures Recover(s, q, w).outcome.Ok? <==> Plan(s, q, w).Ok?
    ensures Recover(s, q, w).outcome.Err? ==> Recover(s, q, w).writes == []
  {
    if Plan(s, q, w).Ok? {
      AcceptedRecoveryWrites(s, q, w);
    }
  }

  lemma OneTryStaysResumable(s: Stores, q: Request, w: RecoveryWorld, y: Try)
    requires Loads(s) && Plan(s, q, w).Ok? && Later(w, y.world)
    ensures var t := ApplyAll(s, Cut(Recover(s, q, y.world).writes, y.writes));
            Loads(t) && Plan(t, q, y.world).Ok? && OnlyRecovers(s, t, q)
  {
    PlansKeep(s, q, w, y.world);
    PlansAreSound(s, q, y.world);
    AcceptedRecoveryWrites(s, q, y.world);
    AnyCutRemains(s, q, y.world, RecoveryWrites(Plan(s, q, y.world).value), y.writes);
  }

  lemma AnyCutRemains(s: Stores, q: Request, w: RecoveryWorld, ws: seq<Write>, n: nat)
    requires q.invocationId in s.invocations && Remains(s, q, w, ws)
    ensures var t := ApplyAll(s, Cut(ws, n));
            Loads(t) && Plan(t, q, w).Ok? && OnlyRecovers(s, t, q)
  {
    PrefixRemains(s, q, w, ws, if n <= |ws| then n else |ws|);
    assert ws[..|ws|] == ws;
  }

  /** A relation that every try carries on, and that time keeps, holds after
      any tries. */
  lemma {:induction false} TryInduction(
    r: (Stores, RecoveryWorld) -> bool, s: Stores, q: Request, w: RecoveryWorld, tries: seq<Try>, last: RecoveryWorld)
    requires r(s, w) && InOrder(w, tries + [Try(last, 0)])
    requires forall t, u, y: Try {:trigger r(t, u), Later(u, y.world)} :: r(t, u) && Later(u, y.world) ==>
               r(ApplyAll(t, Cut(Recover(t, q, y.world).writes, y.writes)), y.world)
    requires forall t, u, v {:trigger r(t, u), Later(u, v)} :: r(t, u) && Later(u, v) ==> r(t, v)
    ensures r(AfterTries(s, q, tries), last)
    decreases tries
  {
    if tries == [] {
      assert Later(w, Try(last, 0).world);
    } else {
      assert (tries + [Try(last, 0)])[1..] == tries[1..] + [Try(last, 0)];
      assert Later(w, tries[0].world);
      TryInduction(
        r, ApplyAll(s, Cut(Recover(s, q, tries[0].world).writes, tries[0].writes)), q, tries[0].world, tries[1..], last);
    }
  }

  lemma TriesStayResumable(s: Stores, q: Request, w: RecoveryWorld, tries: seq<Try>, last: RecoveryWorld)
    requires Loads(s) && Plan(s, q, w).Ok?
    requires InOrder(w, tries + [Try(last, 0)])
    ensures var t := AfterTries(s, q, tries);
            Loads(t) && Plan(t, q, last).Ok? && OnlyRecovers(s, t, q)
  {
    var r := (t: Stores, u: RecoveryWorld) => Resumable(s, t, q, u);
    assert Resumable(s, s, q, w) by { PlansAreSound(s, q, w); }
    forall t, u, y: Try | r(t, u) && Later(u, y.world)
      ensures r(ApplyAll(t, Cut(Recover(t, q, y.world).writes, y.writes)), y.world)
    {
      ResumableAfterTry(s, t, q, u, y);
    }
    forall t, u, v | r(t, u) && Later(u, v)
      ensures r(t, v)
    {
      ResumableLater(s, t, q, u, v);
    }
    TryInduction(r, s, q, w, tries, last);
  }

  lemma ResumableAfterTry(s: Stores, t: Stores, q: Request, w: RecoveryWorld, y: Try)
    requires Resumable(s, t, q, w) && Later(w, y.world)
    ensures Resumable(s, ApplyAll(t, Cut(Recover(t, q, y.world).writes, y.writes)), q, y.world)
  {
    OneTryStaysResumable(t, q, w, y);
    OnlyRecoversIsTransitive(s, t, ApplyAll(t, Cut(Recover(t, q, y.world).writes, y.writes)), q);
  }

  lemma ResumableLater(s: Stores, t: Stores, q: Request, w: RecoveryWorld, v: RecoveryWorld)
    requires Resumable(s, t, q, w) && Later(w, v)
    ensures Resumable(s, t, q, v)
  {
    PlansKeep(t, q, w, v);
  }

  /** A state on the way of a recovery that started in `s`. */
  ghost predicate Resumable(s: Stores, t: Stores, q: Request, w: RecoveryWorld) {
    Loads(t) && Plan(t, q, w).Ok? && OnlyRecovers(s, t, q)
  }

  /** Recovery converges.  Start in any state that recovery accepts, interrupt
      it any number of times after any number of writes, then let it run once:
      it succeeds, the three records are in their final states, no result
      exists, nothing else has changed, and one more run changes nothing. */
  lemma RecoveryConverges(s: Stores, q: Request, w: RecoveryWorld, tries: seq<Try>, last: RecoveryWorld, again: RecoveryWorld)
    requires Loads(s) && Plan(s, q, w).Ok?
    requires InOrder(w, tries + [Try(last, 0)]) && Later(last, again)
    ensures var e := Recover(AfterTries(s, q, tries), q, last);
            var t := ApplyAll(AfterTries(s, q, tries), e.writes);
            && e.outcome.Ok?
            && Recovered(t, q, w)
            && OnlyRecovers(s, t, q)
            && Recover(t, q, again).writes == []
            && Recover(t, q, again).outcome.Ok?
  {
    TriesStayResumable(s, q, w, tries, last);
    var u := AfterTries(s, q, tries);
    FullRunRecovers(u, q, last);
    FullRunLeavesNothing(u, q, last);
    var t := ApplyAll(u, Recover(u, q, last).writes);
    OnlyRecoversIsTransitive(s, u, t, q);
    SameContent(w, tries, last);
    PlansKeep(t, q, last, again);
    FinishedStaysFinished(t, q, last, again);
  }

  lemma {:induction false} SameContent(w: RecoveryWorld, tries: seq<Try>, last: RecoveryWorld)
    requires InOrder(w, tries + [Try(last, 0)])
    ensures last.contentDigest == w.contentDigest
    decreases tries
  {
    if tries != [] {
      assert (tries + [Try(last, 0)])[1..] == tries[1..] + [Try(last, 0)];
      SameContent(tries[0].world, tries[1..], last);
    }
  }

  lemma FinishedStaysFinished(t: Stores, q: Request, w: RecoveryWorld, again: RecoveryWorld)
    requires Remains(t, q, w, []) && Plan(t, q, again).Ok?
    ensures Recover(t, q, again).writes == [] && Recover(t, q, again).outcome.Ok?
  {
    PlansAreSound(t, q, w);
    PlansAreSound(t, q, again);
    AcceptedRecoveryWrites(t, q, again);
  }
}
