/** What a dispatch that stops early leaves behind: either recovery takes it
    from there, or its invocation stays DISPATCHING for good. */
module CutDispatches {
  import opened Outcomes
  import opened Records
  import opened Lifecycle
  import opened Stores
  import opened Moves
  import opened Acceptance
  import opened Commands
  import opened Protocol
  import opened Histories
  import opened DispatchFrame
  import opened RecoveryProofs

  // ----- the states of a cut dispatch

  /** While invocation `i` is marked, attempts and receipts are those it was
      marked over; afterwards it is COMPLETED. */
  ghost predicate MidDispatch(t: Stores, i: Invocation, attempts: map<Id, Attempt>, receipts: map<Id, Receipt>) {
    var id := i.identity.invocationId;
    && id in t.invocations
    && (t.invocations[id].state == Completed ||
        (t.invocations[id] == i && t.attempts == attempts && t.receipts == receipts))
  }

  /** Every prefix of `ws` leaves such a state. */
  ghost predicate AllCuts(s: Stores, ws: seq<Write>, i: Invocation, attempts: map<Id, Attempt>, receipts: map<Id, Receipt>)
    decreases ws
  {
    MidDispatch(s, i, attempts, receipts) && (ws == [] || AllCuts(Apply(s, ws[0]), ws[1..], i, attempts, receipts))
  }

  lemma {:induction false} CutIsMidDispatch(
    s: Stores, ws: seq<Write>, n: nat, i: Invocation, attempts: map<Id, Attempt>, receipts: map<Id, Receipt>)
    requires AllCuts(s, ws, i, attempts, receipts) && n <= |ws|
    ensures MidDispatch(ApplyAll(s, ws[..n]), i, attempts, receipts)
    decreases n
  {
    if n > 0 {
      assert ws[..n][1..] == ws[1..][..n - 1];
      CutIsMidDispatch(Apply(s, ws[0]), ws[1..], n - 1, i, attempts, receipts);
    }
  }

  lemma CutsPut(s: Stores, w: Write, rest: Effect, i: Invocation, attempts: map<Id, Attempt>, receipts: map<Id, Receipt>)
    requires MidDispatch(s, i, attempts, receipts) && AllCuts(Apply(s, w), rest.writes, i, attempts, receipts)
    ensures AllCuts(s, Put(w, rest).writes, i, attempts, receipts)
  {
    assert Put(w, rest).writes[1..] == rest.writes;
  }

  lemma CaptureCuts(
    s: Stores, completed: Invocation, r: ResultRecord, w: DispatchWorld,
    i: Invocation, attempts: map<Id, Attempt>, receipts: map<Id, Receipt>)
    requires i.identity.invocationId in s.invocations && s.invocations[i.identity.invocationId].state == Completed
    ensures AllCuts(s, Capture(s, completed, r, w).writes, i, attempts, receipts)
  {
    if Capture(s, completed, r, w).writes != [] {
      var a := s.attempts[completed.identity.attemptId];
      var candidate := TransitionAttempt(a, Candidate, w.candidateAt, Some(OfResult(r)), None, None).value;
      var done := Done(AttemptReply(candidate));
      assert Capture(s, completed, r, w) == Put(PutAttempt(candidate), done);
      CutsPut(s, PutAttempt(candidate), done, i, attempts, receipts);
    }
  }

  lemma CompleteCuts(
    s: Stores, i: Invocation, r: ResultRecord, w: DispatchWorld, attempts: map<Id, Attempt>, receipts: map<Id, Receipt>)
    requires MidDispatch(s, i, attempts, receipts)
    ensures AllCuts(s, Complete(s, i, r, w).writes, i, attempts, receipts)
  {
    if Complete(s, i, r, w).writes != [] {
      var completed := TransitionInvocation(i, Completed, None, None, Some(OfResult(r))).value;
      var t := Apply(s, PutInvocation(completed));
      CaptureCuts(t, completed, r, w, i, attempts, receipts);
      assert Complete(s, i, r, w) == Put(PutInvocation(completed), Capture(t, completed, r, w));
      CutsPut(s, PutInvocation(completed), Capture(t, completed, r, w), i, attempts, receipts);
    }
  }

  lemma StoreResultCuts(
    s: Stores, i: Invocation, r: ResultRecord, w: DispatchWorld, attempts: map<Id, Attempt>, receipts: map<Id, Receipt>)
    requires MidDispatch(s, i, attempts, receipts)
    ensures AllCuts(s, StoreResult(s, i, r, w).writes, i, attempts, receipts)
  {
    var t := Apply(s, PutResult(r));
    CompleteCuts(t, i, r, w, attempts, receipts);
    CutsPut(s, PutResult(r), Complete(t, i, r, w), i, attempts, receipts);
  }

  lemma AfterAdapterCuts(s: Stores, i: Invocation, w: DispatchWorld, attempts: map<Id, Attempt>, receipts: map<Id, Receipt>)
    requires MidDispatch(s, i, attempts, receipts)
    ensures AllCuts(s, AfterAdapter(s, i, w).writes, i, attempts, receipts)
  {
    if AfterAdapter(s, i, w).writes != [] {
      var x := Accept(w.adapter.response, i.identity, s.custody[i.identity.invocationId], w.observed).value;
      if x.reference in s.contents {
        StoreResultCuts(s, i, x.result, w, attempts, receipts);
      } else {
        var keep := PutContent(x.reference, x.content);
        StoreResultCuts(Apply(s, keep), i, x.result, w, attempts, receipts);
        CutsPut(s, keep, StoreResult(Apply(s, keep), i, x.result, w), i, attempts, receipts);
      }
    }
  }

  lemma {:induction false} CallAdapterCuts(
    s: Stores, i: Invocation, calls: seq<CustodyCall>, w: DispatchWorld,
    attempts: map<Id, Attempt>, receipts: map<Id, Receipt>)
    requires MidDispatch(s, i, attempts, receipts)
    ensures AllCuts(s, CallAdapter(s, i, calls, w).writes, i, attempts, receipts)
    decreases calls
  {
    if calls == [] {
      AfterAdapterCuts(s, i, w, attempts, receipts);
    } else if calls[0].record.invocationId == i.identity.invocationId && CustodyCallGuard(s, calls[0]).Ok? {
      var call := PutCustody(calls[0].record);
      CallAdapterCuts(Apply(s, call), i, calls[1..], w, attempts, receipts);
      CutsPut(s, call, CallAdapter(Apply(s, call), i, calls[1..], w), i, attempts, receipts);
    } else {
      CallAdapterCuts(s, i, calls[1..], w, attempts, receipts);
    }
  }

  function MarkedOf(i: Invocation): Invocation {
    i.(state := Dispatching, resultDigest := None)
  }

  /** The attempt as a dispatch binds it. */
  function BoundOf(a: Attempt, i: InvocationIdentity, now: int): Attempt {
    a.(state := Running, updatedAt := now, runtimeIdentity := Some(OfIdentity(i)))
  }

  lemma PrefixOfPut(s: Stores, w: Write, rest: Effect, n: nat)
    requires 0 < n <= |Put(w, rest).writes|
    ensures n - 1 <= |rest.writes| && ApplyAll(s, Put(w, rest).writes[..n]) == ApplyAll(Apply(s, w), rest.writes[..n - 1])
  {
    assert Put(w, rest).writes[..n][1..] == rest.writes[..n - 1];
  }

  lemma MarkShape(s: Stores, i: Invocation, w: DispatchWorld)
    requires ValidInvocation(i) && i.state == Authorized
    requires i.identity.invocationId in s.invocations && s.invocations[i.identity.invocationId] == i
    ensures MarkDispatching(s, i, w) ==
            Put(PutInvocation(MarkedOf(i)), CallAdapter(Apply(s, PutInvocation(MarkedOf(i))), MarkedOf(i), w.calls, w))
  {
    InvocationSavesAreMoves(s.invocations, MarkedOf(i), OfInvocation(i));
  }

  lemma MarkCuts(s: Stores, i: Invocation, w: DispatchWorld, n: nat)
    requires ValidInvocation(i) && i.state == Authorized
    requires i.identity.invocationId in s.invocations && s.invocations[i.identity.invocationId] == i
    requires 0 < n <= |MarkDispatching(s, i, w).writes|
    ensures MidDispatch(ApplyAll(s, MarkDispatching(s, i, w).writes[..n]), MarkedOf(i), s.attempts, s.receipts)
  {
    var mark := PutInvocation(MarkedOf(i));
    var t := Apply(s, mark);
    MarkShape(s, i, w);
    var rest := CallAdapter(t, MarkedOf(i), w.calls, w);
    CallAdapterCuts(t, MarkedOf(i), w.calls, w, s.attempts, s.receipts);
    PrefixOfPut(s, mark, rest, n);
    CutIsMidDispatch(t, rest.writes, n - 1, MarkedOf(i), s.attempts, s.receipts);
  }

  /** The first write of a dispatch binds the attempt. */
  lemma BindShape(s: Stores, id: Id, expected: Digest, controller: string, w: DispatchWorld)
    requires DispatchEffect(s, id, expected, controller, w).writes != []
    ensures id in s.invocations && s.invocations[id].state == Authorized
    ensures var i := s.invocations[id];
            && i.identity.attemptId in s.attempts
            && var a := s.attempts[i.identity.attemptId];
               && a.updatedAt <= w.boundAt && i.identity.attemptId == a.attemptId
               && var bind := PutAttempt(BoundOf(a, i.identity, w.boundAt));
                  DispatchEffect(s, id, expected, controller, w) == Put(bind, MarkDispatching(Apply(s, bind), i, w))
  {
    DispatchShape(s, id, expected, controller, w);
  }

  /** The attempts after that write. */
  function BoundAttempts(s: Stores, i: InvocationIdentity, now: int): map<Id, Attempt>
    requires i.attemptId in s.attempts
  {
    s.attempts[i.attemptId := BoundOf(s.attempts[i.attemptId], i, now)]
  }

  /** After one write the attempt is bound and the invocation still AUTHORIZED;
      after more it is in dispatch or COMPLETED. */
  lemma CutDispatch(s: Stores, id: Id, expected: Digest, controller: string, w: DispatchWorld, n: nat)
    requires InvocationsKeyed(s)
    requires DispatchEffect(s, id, expected, controller, w).writes != []
    requires n <= |DispatchEffect(s, id, expected, controller, w).writes|
    ensures id in s.invocations && s.invocations[id].state == Authorized
    ensures var i := s.invocations[id];
            var t := ApplyAll(s, DispatchEffect(s, id, expected, controller, w).writes[..n]);
            && i.identity.attemptId in s.attempts
            && (n < 2 ==> t.invocations == s.invocations)
            && (n >= 2 ==> MidDispatch(t, MarkedOf(i), BoundAttempts(s, i.identity, w.boundAt), s.receipts))
  {
    BindShape(s, id, expected, controller, w);
    var i := s.invocations[id];
    var bind := PutAttempt(BoundOf(s.attempts[i.identity.attemptId], i.identity, w.boundAt));
    var rest := MarkDispatching(Apply(s, bind), i, w);
    if n > 0 {
      PrefixOfPut(s, bind, rest, n);
      if n > 1 {
        MarkCuts(Apply(s, bind), i, w, n - 1);
      } else {
        assert rest.writes[..0] == [];
      }
    }
  }

  // ----- which of them recovery accepts

  /** Custody that recovery can take to verified absence, or finds there. */
  predicate CanRecover(c: Custody, i: InvocationIdentity) {
    && c.invocationDigest == OfIdentity(i) && c.adapterPid.Some? && c.requestSent
    && (c.state == AbsenceVerified || (c.state == Terminated && c.activeCount == Some(0)))
  }

  /** A look at the sealed workspace, clean on its commit and with the content
      that custody recorded, after the controller process has gone. */
  predicate SeesSealed(v: RecoveryWorld, i: InvocationIdentity, c: Custody) {
    && v.rootDigest == i.workspaceRootDigest && v.pathDigest == i.workspacePathDigest
    && v.head == i.authority.startingCommit && v.clean
    && v.contentDigest == c.workspaceContentDigest && !v.controllerActive
  }

  /** The invocation waits for its recovery. */
  ghost predicate Waits(t: Stores, i: InvocationIdentity) {
    var id := i.invocationId;
    && id in t.invocations && t.invocations[id].state == Dispatching
    && id !in t.results
    && id in t.custody && CanRecover(t.custody[id], i)
  }

  lemma CustodyOfRecovery(m: map<Id, Custody>, i: InvocationIdentity, v: RecoveryWorld)
    requires forall k | k in m :: m[k].invocationId == k && ValidCustody(m[k])
    requires i.invocationId in m && SeesSealed(v, i, m[i.invocationId])
    ensures RecoveryCustody(m, i.invocationId, OfIdentity(i), v).Ok? <==> CanRecover(m[i.invocationId], i)
  {
  }

  lemma EvidenceOfReceipt(s: Stores, i: Invocation, view: WorkspaceView, v: RecoveryWorld, c: Custody)
    requires AttemptsKeyed(s) && i.identity.attemptId in s.attempts
    requires s.attempts[i.identity.attemptId].authority == i.identity.authority
    requires VerifyWorkspace(s, i.identity.attemptId, view).Ok?
    requires var p := VerifyWorkspace(s, i.identity.attemptId, view).value;
             && OfReceipt(p) == i.identity.workspaceReceiptDigest
             && p.workspaceRootDigest == i.identity.workspaceRootDigest
             && p.workspacePathDigest == i.identity.workspacePathDigest
    requires SeesSealed(v, i.identity, c)
    ensures i.identity.attemptId in s.receipts && RecoveryWorkspaceMatches(s.receipts[i.identity.attemptId], i.identity, v)
  {
  }

  lemma RecordsOfMarked(
    attempts: map<Id, Attempt>, invocations: map<Id, Invocation>, a: Attempt, i: Invocation, controller: string, now: int)
    requires i.identity.invocationId in invocations && invocations[i.identity.invocationId] == MarkedOf(i)
    requires i.authorizedBy == Some(controller)
    requires i.identity.attemptId in attempts && attempts[i.identity.attemptId] == BoundOf(a, i.identity, now)
    requires CleanAttempt(a, Ready) && a.attemptId == i.identity.attemptId && a.authority == i.identity.authority
    ensures RecoveryRecords(attempts, invocations, i.identity.invocationId, OfIdentity(i.identity), controller) ==
            Ok((MarkedOf(i), BoundOf(a, i.identity, now)))
  {
  }

  lemma AbortOfBound(a: Attempt, i: InvocationIdentity, now: int, later: int)
    requires CleanAttempt(a, Ready) && ValidAttempt(a) && a.updatedAt <= now <= later
    ensures RecoveryAbort(BoundOf(a, i, now), later).Ok?
  {
  }

  lemma PlanParts(s: Stores, id: Id, expected: Digest, controller: string, w: RecoveryWorld, i: Invocation, a: Attempt)
    requires RecoveryRecords(s.attempts, s.invocations, id, expected, controller) == Ok((i, a))
    ensures PlanRecovery(s, id, expected, controller, w).Ok? <==>
              && RecoveryEvidence(s.results, s.receipts, i.identity, w).Ok?
              && RecoveryCustody(s.custody, id, expected, w).Ok?
              && RecoveryAbort(a, w.now).Ok?
  {
  }

  /** What dispatch has checked of the records it starts from. */
  ghost predicate Dispatchable(s: Stores, i: Invocation, controller: string, w: DispatchWorld) {
    && i.authorizedBy == Some(controller)
    && i.identity.attemptId in s.attempts && i.identity.attemptId in s.receipts
    && var a := s.attempts[i.identity.attemptId];
       && CleanAttempt(a, Ready) && ValidAttempt(a) && a.updatedAt <= w.boundAt
       && a.attemptId == i.identity.attemptId && a.authority == i.identity.authority
       && var p := s.receipts[i.identity.attemptId];
          && VerifyWorkspace(s, i.identity.attemptId, w.view) == Ok(p)
          && OfReceipt(p) == i.identity.workspaceReceiptDigest
          && p.workspaceRootDigest == i.identity.workspaceRootDigest
          && p.workspacePathDigest == i.identity.workspacePathDigest
  }

  lemma DispatchedWasDispatchable(s: Stores, id: Id, expected: Digest, controller: string, w: DispatchWorld)
    requires AttemptsKeyed(s) && DispatchEffect(s, id, expected, controller, w).writes != []
    ensures id in s.invocations && Dispatchable(s, s.invocations[id], controller, w)
    ensures OfIdentity(s.invocations[id].identity) == expected
  {
    DispatchNeedsAuthority(s, id, expected, controller, w);
    BindShape(s, id, expected, controller, w);
  }

  /** A plan is made exactly while the invocation waits for it. */
  lemma WaitingIsRecoverable(s: Stores, t: Stores, i: Invocation, controller: string, w: DispatchWorld, v: RecoveryWorld)
    requires AttemptsKeyed(s) && CustodyKeyed(t) && Dispatchable(s, i, controller, w)
    requires MidDispatch(t, MarkedOf(i), BoundAttempts(s, i.identity, w.boundAt), s.receipts)
    requires i.identity.invocationId in t.custody && SeesSealed(v, i.identity, t.custody[i.identity.invocationId])
    requires w.boundAt <= v.now
    ensures PlanRecovery(t, i.identity.invocationId, OfIdentity(i.identity), controller, v).Ok? <==> Waits(t, i.identity)
  {
    var id, a := i.identity.invocationId, s.attempts[i.identity.attemptId];
    CustodyOfRecovery(t.custody, i.identity, v);
    if t.invocations[id] == MarkedOf(i) {
      RecordsOfMarked(t.attempts, t.invocations, a, i, controller, w.boundAt);
      AbortOfBound(a, i.identity, w.boundAt, v.now);
      EvidenceOfReceipt(s, i, w.view, v, t.custody[id]);
      PlanParts(t, id, OfIdentity(i.identity), controller, v, MarkedOf(i), BoundOf(a, i.identity, w.boundAt));
    }
  }

  lemma PlanAfterCut(s: Stores, t: Stores, i: Invocation, controller: string, w: DispatchWorld, v: RecoveryWorld)
    requires AttemptsKeyed(s) && InvocationsKeyed(t) && CustodyKeyed(t) && Dispatchable(s, i, controller, w)
    requires var id := i.identity.invocationId;
             || (id in t.invocations && t.invocations[id].state == Authorized)
             || MidDispatch(t, MarkedOf(i), BoundAttempts(s, i.identity, w.boundAt), s.receipts)
    requires i.identity.invocationId in t.custody ==> SeesSealed(v, i.identity, t.custody[i.identity.invocationId])
    requires w.boundAt <= v.now
    ensures PlanRecovery(t, i.identity.invocationId, OfIdentity(i.identity), controller, v).Ok? <==> Waits(t, i.identity)
  {
    var id := i.identity.invocationId;
    if PlanRecovery(t, id, OfIdentity(i.identity), controller, v).Ok? {
      PlannedRecovery(t, id, OfIdentity(i.identity), controller, v);
    }
    if id in t.custody && t.invocations[id].state != Authorized {
      WaitingIsRecoverable(s, t, i, controller, w, v);
    }
  }

  /** A dispatch that was cut after any of its writes can be recovered, by its
      controller and over an unchanged workspace, exactly if it left the
      invocation DISPATCHING, without a result, over custody with a sent request
      that ended with nothing alive. */
  lemma CutDispatchIsRecoverable(
    s: Stores, id: Id, expected: Digest, controller: string, w: DispatchWorld, n: nat, v: RecoveryWorld)
    requires Inv(s) && DispatchEffect(s, id, expected, controller, w).writes != []
    requires n <= |DispatchEffect(s, id, expected, controller, w).writes|
    requires var t := ApplyAll(s, DispatchEffect(s, id, expected, controller, w).writes[..n]);
             id in s.invocations &&
             (id in t.custody ==> SeesSealed(v, s.invocations[id].identity, t.custody[id])) && w.boundAt <= v.now
    ensures var t := ApplyAll(s, DispatchEffect(s, id, expected, controller, w).writes[..n]);
            RecoverEffect(t, id, expected, controller, v).outcome.Ok? <==> Waits(t, s.invocations[id].identity)
  {
    var ws := DispatchEffect(s, id, expected, controller, w).writes;
    var t, i := ApplyAll(s, ws[..n]), s.invocations[id];
    CutKeepsInvariant(s, id, expected, controller, w, n);
    CutDispatch(s, id, expected, controller, w, n);
    DispatchedWasDispatchable(s, id, expected, controller, w);
    RefusalsWriteNothing(t, Request(id, expected, controller), v);
    PlanAfterCut(s, t, i, controller, w, v);
  }

  lemma CutKeepsInvariant(s: Stores, id: Id, expected: Digest, controller: string, w: DispatchWorld, n: nat)
    requires Inv(s) && n <= |DispatchEffect(s, id, expected, controller, w).writes|
    ensures Inv(ApplyAll(s, DispatchEffect(s, id, expected, controller, w).writes[..n]))
  {
    DispatchIsLegal(s, id, expected, controller, w);
    LegalPrefixKeepsInvariant(s, DispatchEffect(s, id, expected, controller, w).writes, n);
  }

  // ----- the others stay as they are

  /** Nothing here concerns this invocation or its custody. */
  predicate Spares(id: Id, ws: seq<Write>) {
    forall w | w in ws ::
      && (w.PutInvocation? ==> w.invocation.identity.invocationId != id)
      && (w.PutCustody? ==> w.custody.invocationId != id)
  }

  /** The records of an invocation in `s` still stand in `t`. */
  ghost predicate Kept(s: Stores, t: Stores, id: Id) {
    && id in s.invocations && id in t.invocations && t.invocations[id] == s.invocations[id]
    && (id in t.custody <==> id in s.custody) && (id in s.custody ==> t.custody[id] == s.custody[id])
    && (id in s.results ==> id in t.results)
  }

  lemma SparedOnce(s: Stores, w: Write, id: Id)
    requires Spares(id, [w]) && id in s.invocations
    ensures Kept(s, Apply(s, w), id)
  {
    assert w in [w];
  }

  lemma {:induction false} SparedStays(s: Stores, ws: seq<Write>, n: nat, id: Id)
    requires Spares(id, ws) && id in s.invocations && n <= |ws|
    ensures Kept(s, ApplyAll(s, ws[..n]), id)
    decreases n
  {
    if n > 0 {
      assert ws[0] in ws && ws[..n][1..] == ws[1..][..n - 1];
      SparedOnce(s, ws[0], id);
      SparedStays(Apply(s, ws[0]), ws[1..], n - 1, id);
    }
  }

  lemma SparedCut(s: Stores, ws: seq<Write>, n: nat, id: Id)
    requires Spares(id, ws) && id in s.invocations
    ensures Kept(s, ApplyAll(s, Cut(ws, n)), id)
  {
    SparedStays(s, ws, if n <= |ws| then n else |ws|, id);
    assert ws[..|ws|] == ws;
  }

  /** DISPATCHING, with a result or over custody that cannot be recovered. */
  ghost predicate Strands(s: Stores, id: Id) {
    && id in s.invocations && s.invocations[id].state == Dispatching
    && (id in s.results || id !in s.custody || !CanRecover(s.custody[id], s.invocations[id].identity))
  }

  lemma DispatchSpares(s: Stores, k: Id, expected: Digest, controller: string, w: DispatchWorld, id: Id)
    requires InvocationsKeyed(s) && Strands(s, id)
    ensures Spares(id, DispatchEffect(s, k, expected, controller, w).writes)
  {
    var ws := DispatchEffect(s, k, expected, controller, w).writes;
    if ws != [] {
      DispatchNeedsAuthority(s, k, expected, controller, w);
      DispatchOwns(s, k, expected, controller, w);
      OwnWritesSpare(s.invocations[k].identity, ws, id);
    }
  }

  lemma OwnWritesSpare(i: InvocationIdentity, ws: seq<Write>, id: Id)
    requires AllOwn(i, ws) && i.invocationId != id
    ensures Spares(id, ws)
  {
    forall w | w in ws
      ensures w.PutInvocation? ==> w.invocation.identity.invocationId != id
      ensures w.PutCustody? ==> w.custody.invocationId != id
    {
      assert Owns(i, w);
    }
  }

  lemma PlansRecoverWhatCan(m: map<Id, Custody>, i: InvocationIdentity, v: RecoveryWorld)
    requires forall k | k in m :: ValidCustody(m[k])
    requires RecoveryCustody(m, i.invocationId, OfIdentity(i), v).Ok?
    ensures i.invocationId in m && CanRecover(m[i.invocationId], i)
  {
  }

  lemma PlanSpares(p: Recovery, id: Id)
    requires p.verified.invocationId != id && p.invocation.identity.invocationId != id
    ensures Spares(id, RecoveryWrites(p))
  {
  }

  lemma PlanIsElsewhere(s: Stores, q: Request, v: RecoveryWorld, id: Id)
    requires Loads(s) && Strands(s, id) && Plan(s, q, v).Ok?
    ensures var p := Plan(s, q, v).value; p.verified.invocationId != id && p.invocation.identity.invocationId != id
  {
    PlansAreSound(s, q, v);
    PlansRecoverWhatCan(s.custody, s.invocations[q.invocationId].identity, v);
  }

  lemma RecoverySpares(s: Stores, q: Request, v: RecoveryWorld, id: Id)
    requires Loads(s) && Strands(s, id)
    ensures Spares(id, Recover(s, q, v).writes)
  {
    RefusalsWriteNothing(s, q, v);
    if Plan(s, q, v).Ok? {
      PlanIsElsewhere(s, q, v, id);
      AcceptedRecoveryWrites(s, q, v);
      PlanSpares(Plan(s, q, v).value, id);
    }
  }

  lemma MoveSpares(s: Stores, current: Invocation, moved: Result<Invocation>, id: Id)
    requires moved.Ok? ==> moved.value.identity.invocationId != id
    ensures Spares(id, MoveInvocation(s, current, moved).writes)
  {
  }

  /** A stranded invocation has no transition that an operator could ask for. */
  lemma OperatorMoveSpares(
    s: Stores, k: Id, target: InvocationState, controller: Option<string>, now: Option<int>, id: Id)
    requires InvocationsKeyed(s) && Strands(s, id) && k in s.invocations
    requires target in {Authorized, Rejected, AbortedInvocation}
    ensures var i := s.invocations[k];
            Spares(id, MoveInvocation(s, i, TransitionInvocation(i, target, controller, now, None)).writes)
  {
    MoveSpares(s, s.invocations[k], TransitionInvocation(s.invocations[k], target, controller, now, None), id);
  }

  lemma AuthorizeSpares(s: Stores, k: Id, expected: Digest, controller: string, now: int, id: Id)
    requires InvocationsKeyed(s) && Strands(s, id)
    ensures Spares(id, AuthorizeEffect(s, k, expected, controller, now).writes)
  {
    if k in s.invocations {
      OperatorMoveSpares(s, k, Authorized, Some(controller), Some(now), id);
    }
  }

  lemma RejectSpares(s: Stores, k: Id, expected: Digest, id: Id)
    requires InvocationsKeyed(s) && Strands(s, id)
    ensures Spares(id, RejectEffect(s, k, expected).writes)
  {
    if k in s.invocations {
      OperatorMoveSpares(s, k, Rejected, None, None, id);
    }
  }

  lemma CancelSpares(s: Stores, k: Id, expected: Digest, controller: string, id: Id)
    requires InvocationsKeyed(s) && Strands(s, id)
    ensures Spares(id, CancelEffect(s, k, expected, controller).writes)
  {
    if k in s.invocations {
      OperatorMoveSpares(s, k, AbortedInvocation, None, None, id);
    }
  }

  lemma PreparationSpares(s: Stores, attemptId: Id, v: WorkspaceView, x: InvocationInputs, id: Id)
    requires id in s.invocations
    ensures Spares(id, PrepareInvocationEffect(s, attemptId, v, x).writes)
  {
  }

  lemma PrepareWorkspaceSpares(s: Stores, a: Id, v: WorkspaceView, committed: bool, now: int, id: Id)
    ensures Spares(id, PrepareWorkspaceEffect(s, a, v, committed, now).writes)
  {
  }

  lemma DiscardSpares(s: Stores, a: Id, v: WorkspaceView, q: Digest, cleanup: string, now: int, id: Id)
    ensures Spares(id, DiscardEffect(s, a, v, q, cleanup, now).writes)
  {
  }

  lemma ManualSpares(
    s: Stores, a: Id, target: AttemptState, candidate: Option<Digest>, cleanup: Option<string>, now: int, id: Id)
    ensures Spares(id, TransitionEffect(s, a, target, candidate, cleanup, now).writes)
  {
  }

  lemma AttemptCommandsSpare(s: Stores, c: Command, id: Id)
    requires
      c.CreateAttemptCommand? || c.PrepareWorkspaceCommand? || c.DiscardWorkspaceCommand? || c.TransitionAttemptCommand?
    ensures Spares(id, Execute(s, c).writes)
  {
    match c
    case CreateAttemptCommand(a) =>
    case PrepareWorkspaceCommand(a, v, committed, now) => PrepareWorkspaceSpares(s, a, v, committed, now, id);
    case DiscardWorkspaceCommand(a, v, q, cleanup, now) => DiscardSpares(s, a, v, q, cleanup, now, id);
    case TransitionAttemptCommand(a, target, candidate, cleanup, now) =>
      ManualSpares(s, a, target, candidate, cleanup, now, id);
  }

  lemma OperatorCommandsSpare(s: Stores, c: Command, id: Id)
    requires InvocationsKeyed(s) && Strands(s, id)
    requires c.AuthorizeCommand? || c.RejectCommand? || c.CancelCommand?
    ensures Spares(id, Execute(s, c).writes)
  {
    match c
    case AuthorizeCommand(k, expected, controller, now) => AuthorizeSpares(s, k, expected, controller, now, id);
    case RejectCommand(k, expected) => RejectSpares(s, k, expected, id);
    case CancelCommand(k, expected, controller) => CancelSpares(s, k, expected, controller, id);
  }

  lemma RunCommandsSpare(s: Stores, c: Command, id: Id)
    requires Loads(s) && Strands(s, id)
    requires c.PrepareInvocationCommand? || c.DispatchCommand? || c.RecoverCommand?
    ensures Spares(id, Execute(s, c).writes)
  {
    match c
    case PrepareInvocationCommand(a, v, x) => PreparationSpares(s, a, v, x, id);
    case DispatchCommand(k, expected, controller, w) => DispatchSpares(s, k, expected, controller, w, id);
    case RecoverCommand(k, expected, controller, v) => RecoverySpares(s, Request(k, expected, controller), v, id);
  }

  lemma CommandsSpare(s: Stores, c: Command, id: Id)
    requires Loads(s) && Strands(s, id)
    ensures Spares(id, Execute(s, c).writes)
  {
    if c.PrepareInvocationCommand? || c.DispatchCommand? || c.RecoverCommand? {
      RunCommandsSpare(s, c, id);
    } else if c.AuthorizeCommand? || c.RejectCommand? || c.CancelCommand? {
      OperatorCommandsSpare(s, c, id);
    } else {
      AttemptCommandsSpare(s, c, id);
    }
  }

  /** No later history moves a stranded invocation: dispatch, recovery and
      cancelling all refuse it, wherever commands are cut. */
  lemma {:induction false} StrandedForever(s: Stores, es: seq<Episode>, id: Id)
    requires Inv(s) && Strands(s, id)
    ensures Kept(s, History(s, es), id)
    decreases es
  {
    if es != [] {
      var t := AfterEpisode(s, es[0]);
      CommandsSpare(s, es[0].command, id);
      SparedCut(s, Execute(s, es[0].command).writes, es[0].writes, id);
      EpisodeKeepsInvariant(s, es[0]);
      StrandedForever(t, es[1..], id);
    }
  }

  /** A look that sees what custody has recorded. */
  function LookAt(t: Stores, i: InvocationIdentity, now: int): RecoveryWorld {
    RecoveryWorld(
      i.workspaceRootDigest, i.workspacePathDigest, i.authority.startingCommit, true,
      if i.invocationId in t.custody then t.custody[i.invocationId].workspaceContentDigest else OfDocument(""), false, now)
  }

  /** A dispatch that was cut while its invocation was DISPATCHING either waits
      for a recovery that will be accepted, or its invocation stays DISPATCHING
      in every later history.  The latter is the case after the result is stored,
      and wherever custody is not sent and ended with nothing alive. */
  lemma CutDispatchRecoversOrStays(
    s: Stores, id: Id, expected: Digest, controller: string, w: DispatchWorld, n: nat, es: seq<Episode>)
    requires Inv(s) && DispatchEffect(s, id, expected, controller, w).writes != []
    requires n <= |DispatchEffect(s, id, expected, controller, w).writes|
    requires var t := ApplyAll(s, DispatchEffect(s, id, expected, controller, w).writes[..n]);
             id in t.invocations && t.invocations[id].state == Dispatching
    ensures var t := ApplyAll(s, DispatchEffect(s, id, expected, controller, w).writes[..n]);
            var i := t.invocations[id].identity;
            if Waits(t, i) then RecoverEffect(t, id, expected, controller, LookAt(t, i, w.boundAt)).outcome.Ok?
            else Kept(t, History(t, es), id)
  {
    var t := ApplyAll(s, DispatchEffect(s, id, expected, controller, w).writes[..n]);
    CutKeepsInvariant(s, id, expected, controller, w, n);
    CutDispatch(s, id, expected, controller, w, n);
    if Waits(t, t.invocations[id].identity) {
      CutDispatchIsRecoverable(s, id, expected, controller, w, n, LookAt(t, t.invocations[id].identity, w.boundAt));
    } else {
      StrandedForever(t, es, id);
    }
  }
}
