/** What a dispatch needs before it writes, and what it can touch at all. */
module DispatchFrame {
  import opened Outcomes
  import opened Records
  import opened Lifecycle
  import opened Stores
  import opened Acceptance
  import opened Commands
  import opened Protocol
  import opened Histories

  // ----- the authority of a dispatch

  /** Nothing is written unless the invocation is AUTHORIZED by this controller
      under this identity, its attempt is a clean READY one with the same
      authority, the sealed workspace receipt still stands, and neither custody
      nor a result of the invocation exists. */
  lemma DispatchNeedsAuthority(s: Stores, id: Id, expected: Digest, controller: string, w: DispatchWorld)
    requires DispatchEffect(s, id, expected, controller, w).writes != []
    ensures id in s.invocations
    ensures var i := s.invocations[id];
            && OfIdentity(i.identity) == expected
            && i.state == Authorized && i.authorizedBy == Some(controller)
            && i.identity.attemptId in s.attempts
            && s.attempts[i.identity.attemptId].authority == i.identity.authority
            && CleanAttempt(s.attempts[i.identity.attemptId], Ready)
            && i.identity.attemptId in s.receipts
            && OfReceipt(s.receipts[i.identity.attemptId]) == i.identity.workspaceReceiptDigest
            && s.receipts[i.identity.attemptId].state == PreparedReceipt
            && s.receipts[i.identity.attemptId].workspaceRootDigest == w.view.rootDigest == i.identity.workspaceRootDigest
            && s.receipts[i.identity.attemptId].workspacePathDigest == w.view.pathDigest == i.identity.workspacePathDigest
            && id !in s.custody && id !in s.results
            && w.definitionsMatch && w.view.verified && PromptFile(i.identity.promptDigest) in s.contents
  {
  }

  /** The invocation and identity digest that an operator command names. */
  function Named(c: Command): Option<(Id, Digest)> {
    match c
    case AuthorizeCommand(id, expected, _, _) => Some((id, expected))
    case RejectCommand(id, expected) => Some((id, expected))
    case CancelCommand(id, expected, _) => Some((id, expected))
    case DispatchCommand(id, expected, _, _) => Some((id, expected))
    case RecoverCommand(id, expected, _, _) => Some((id, expected))
    case _ => None
  }

  /** No operator command writes anything unless it names a stored invocation
      with its exact identity. */
  lemma OperatorsNameTheIdentity(s: Stores, c: Command)
    requires Named(c).Some? && Execute(s, c).writes != []
    ensures Named(c).value.0 in s.invocations
    ensures OfIdentity(s.invocations[Named(c).value.0].identity) == Named(c).value.1
  {
    match c
    case DispatchCommand(id, expected, controller, w) => DispatchNeedsAuthority(s, id, expected, controller, w);
    case RecoverCommand(id, expected, controller, w) => RecoveryNeedsEvidence(s, id, expected, controller, w);
    case _ =>
  }

  /** Recovery writes nothing unless this controller authorized the invocation,
      its attempt is bound to it, no result exists, the sealed workspace stands
      clean on its commit with the content it had at launch, the request was
      sent, and nothing was active at the end; and, before absence is verified,
      the controller process is gone. */
  lemma RecoveryNeedsEvidence(s: Stores, id: Id, expected: Digest, controller: string, w: RecoveryWorld)
    requires RecoverEffect(s, id, expected, controller, w).writes != []
    ensures id in s.invocations
    ensures var i := s.invocations[id];
            && OfIdentity(i.identity) == expected && i.authorizedBy == Some(controller)
            && i.identity.attemptId in s.attempts
            && s.attempts[i.identity.attemptId].runtimeIdentity == Some(OfIdentity(i.identity))
            && s.attempts[i.identity.attemptId].candidateDigest.None?
            && i.identity.invocationId !in s.results
            && i.identity.attemptId in s.receipts
            && OfReceipt(s.receipts[i.identity.attemptId]) == i.identity.workspaceReceiptDigest
            && w.rootDigest == i.identity.workspaceRootDigest && w.pathDigest == i.identity.workspacePathDigest
            && w.head == i.identity.authority.startingCommit && w.clean
    ensures id in s.custody
    ensures var c := s.custody[id];
            && c.requestSent && c.adapterPid.Some? && c.activeCount == Some(0)
            && c.workspaceContentDigest == w.contentDigest
            && (c.state == Terminated ==> !w.controllerActive)
  {
    EvidenceOfRecovery(s.custody, id, expected, w);
  }

  lemma EvidenceOfRecovery(m: map<Id, Custody>, id: Id, expected: Digest, w: RecoveryWorld)
    ensures RecoveryCustody(m, id, expected, w).Ok? ==>
              && id in m
              && m[id].requestSent && m[id].adapterPid.Some? && m[id].activeCount == Some(0)
              && m[id].workspaceContentDigest == w.contentDigest
              && (m[id].state == Terminated ==> !w.controllerActive)
  {
  }

  // ----- the frame of a dispatch

  predicate Owns(i: InvocationIdentity, w: Write) {
    match w
    case PutAttempt(a) => a.attemptId == i.attemptId && a.state in {Running, Candidate}
    case PutInvocation(j) => j.identity == i
    case PutCustody(c) => c.invocationId == i.invocationId
    case PutResult(r) => r.invocationId == i.invocationId
    case PutReceipt(_) => false
    case DropReceipt(_) => false
    case PutContent(f, c) => OfContent(c) == f.digest
  }

  predicate AllOwn(i: InvocationIdentity, ws: seq<Write>) {
    forall w | w in ws :: Owns(i, w)
  }

  lemma OwnPut(i: InvocationIdentity, w: Write, rest: Effect)
    requires Owns(i, w) && AllOwn(i, rest.writes)
    ensures AllOwn(i, Put(w, rest).writes)
  {
  }

  lemma CaptureOwns(s: Stores, completed: Invocation, r: ResultRecord, w: DispatchWorld)
    ensures AllOwn(completed.identity, Capture(s, completed, r, w).writes)
  {
  }

  lemma CompleteOwns(s: Stores, i: Invocation, r: ResultRecord, w: DispatchWorld)
    ensures AllOwn(i.identity, Complete(s, i, r, w).writes)
  {
    if Complete(s, i, r, w).writes != [] {
      var completed := TransitionInvocation(i, Completed, None, None, Some(OfResult(r))).value;
      var t := Apply(s, PutInvocation(completed));
      CaptureOwns(t, completed, r, w);
      OwnPut(i.identity, PutInvocation(completed), Capture(t, completed, r, w));
    }
  }

  lemma StoreResultOwns(s: Stores, i: Invocation, r: ResultRecord, w: DispatchWorld)
    requires r.invocationId == i.identity.invocationId
    ensures AllOwn(i.identity, StoreResult(s, i, r, w).writes)
  {
    var t := Apply(s, PutResult(r));
    CompleteOwns(t, i, r, w);
    OwnPut(i.identity, PutResult(r), Complete(t, i, r, w));
  }

  lemma AfterAdapterOwns(s: Stores, i: Invocation, w: DispatchWorld)
    ensures AllOwn(i.identity, AfterAdapter(s, i, w).writes)
  {
    if AfterAdapter(s, i, w).writes != [] {
      var c := s.custody[i.identity.invocationId];
      var x := Accept(w.adapter.response, i.identity, c, w.observed).value;
      AcceptedResultIsBound(w.adapter.response, i.identity, c, w.observed);
      if x.reference in s.contents {
        StoreResultOwns(s, i, x.result, w);
      } else {
        var keep := PutContent(x.reference, x.content);
        StoreResultOwns(Apply(s, keep), i, x.result, w);
        OwnPut(i.identity, keep, StoreResult(Apply(s, keep), i, x.result, w));
      }
    }
  }

  lemma {:induction false} CallAdapterOwns(s: Stores, i: Invocation, calls: seq<CustodyCall>, w: DispatchWorld)
    ensures AllOwn(i.identity, CallAdapter(s, i, calls, w).writes)
    decreases calls
  {
    if calls == [] {
      AfterAdapterOwns(s, i, w);
    } else if calls[0].record.invocationId == i.identity.invocationId && CustodyCallGuard(s, calls[0]).Ok? {
      var call := PutCustody(calls[0].record);
      CallAdapterOwns(Apply(s, call), i, calls[1..], w);
      OwnPut(i.identity, call, CallAdapter(Apply(s, call), i, calls[1..], w));
    } else {
      CallAdapterOwns(s, i, calls[1..], w);
    }
  }

  lemma MarkDispatchingOwns(s: Stores, i: Invocation, w: DispatchWorld)
    ensures AllOwn(i.identity, MarkDispatching(s, i, w).writes)
  {
    if MarkDispatching(s, i, w).writes != [] {
      var dispatching := TransitionInvocation(i, Dispatching, None, None, None).value;
      var t := Apply(s, PutInvocation(dispatching));
      CallAdapterOwns(t, dispatching, w.calls, w);
      OwnPut(i.identity, PutInvocation(dispatching), CallAdapter(t, dispatching, w.calls, w));
    }
  }

  lemma DispatchOwns(s: Stores, id: Id, expected: Digest, controller: string, w: DispatchWorld)
    requires DispatchEffect(s, id, expected, controller, w).writes != []
    ensures id in s.invocations && AllOwn(s.invocations[id].identity, DispatchEffect(s, id, expected, controller, w).writes)
  {
    var i := s.invocations[id];
    var running := BindGuard(s, id, expected, w.boundAt).value;
    var t := Apply(s, PutAttempt(running));
    MarkDispatchingOwns(t, i, w);
    assert DispatchEffect(s, id, expected, controller, w) == Put(PutAttempt(running), MarkDispatching(t, i, w));
    OwnPut(i.identity, PutAttempt(running), MarkDispatching(t, i, w));
  }

  /** `t` differs from `s` at most in the records of one invocation, and has
      lost no retained content. */
  ghost predicate OnlyDispatches(s: Stores, t: Stores, i: InvocationIdentity) {
    && t.attempts - {i.attemptId} == s.attempts - {i.attemptId}
    && t.invocations - {i.invocationId} == s.invocations - {i.invocationId}
    && t.custody - {i.invocationId} == s.custody - {i.invocationId}
    && t.results - {i.invocationId} == s.results - {i.invocationId}
    && t.receipts == s.receipts
    && s.contents.Keys <= t.contents.Keys
  }

  lemma OwnWriteOnlyDispatches(s: Stores, w: Write, i: InvocationIdentity)
    requires Owns(i, w)
    ensures OnlyDispatches(s, Apply(s, w), i)
  {
  }

  lemma OnlyDispatchesIsTransitive(s: Stores, t: Stores, u: Stores, i: InvocationIdentity)
    requires OnlyDispatches(s, t, i) && OnlyDispatches(t, u, i)
    ensures OnlyDispatches(s, u, i)
  {
  }

  lemma {:induction false} OwnWritesOnlyDispatch(s: Stores, ws: seq<Write>, i: InvocationIdentity)
    requires AllOwn(i, ws)
    ensures OnlyDispatches(s, ApplyAll(s, ws), i)
    decreases ws
  {
    if ws != [] {
      OwnWriteOnlyDispatches(s, ws[0], i);
      OwnWritesOnlyDispatch(Apply(s, ws[0]), ws[1..], i);
      OnlyDispatchesIsTransitive(s, Apply(s, ws[0]), ApplyAll(s, ws), i);
    }
  }

  /** A dispatch, cut after any of its writes, leaves the records of every other
      attempt and invocation, and all workspace receipts, as they were. */
  lemma DispatchTouchesItsOwn(s: Stores, id: Id, expected: Digest, controller: string, w: DispatchWorld, n: nat)
    requires id in s.invocations
    requires n <= |DispatchEffect(s, id, expected, controller, w).writes|
    ensures OnlyDispatches(s, ApplyAll(s, DispatchEffect(s, id, expected, controller, w).writes[..n]), s.invocations[id].identity)
  {
    var ws := DispatchEffect(s, id, expected, controller, w).writes;
    if ws != [] {
      DispatchOwns(s, id, expected, controller, w);
    }
    OwnWritesOnlyDispatch(s, ws[..n], s.invocations[id].identity);
  }

  // ----- only dispatch runs attempts

  predicate StartsNothing(ws: seq<Write>) {
    forall w | w in ws :: w.PutAttempt? ==> w.attempt.state != Running
  }

  lemma StartsNothingPut(w: Write, rest: Effect)
    requires StartsNothing(rest.writes) && (w.PutAttempt? ==> w.attempt.state != Running)
    ensures StartsNothing(Put(w, rest).writes)
  {
  }

  lemma RecoverAttemptStartsNothing(s: Stores, p: Recovery, current: Invocation)
    requires p.aborted.state == Aborted
    ensures StartsNothing(RecoverAttempt(s, p, current).writes)
  {
  }

  lemma RecoverUncertainStartsNothing(s: Stores, p: Recovery, current: Invocation)
    requires p.aborted.state == Aborted
    ensures StartsNothing(RecoverUncertain(s, p, current).writes)
  {
    if current.state != Uncertain {
      RecoverAttemptStartsNothing(s, p, current);
    } else if RecoverUncertain(s, p, current).writes != [] {
      var i := TransitionInvocation(current, AbortedInvocation, None, None, None).value;
      RecoverAttemptStartsNothing(Apply(s, PutInvocation(i)), p, i);
      StartsNothingPut(PutInvocation(i), RecoverAttempt(Apply(s, PutInvocation(i)), p, i));
    }
  }

  lemma RecoverDispatchingStartsNothing(s: Stores, p: Recovery)
    requires p.aborted.state == Aborted
    ensures StartsNothing(RecoverDispatching(s, p).writes)
  {
    if p.invocation.state != Dispatching {
      RecoverUncertainStartsNothing(s, p, p.invocation);
    } else if RecoverDispatching(s, p).writes != [] {
      var i := TransitionInvocation(p.invocation, Uncertain, None, None, None).value;
      RecoverUncertainStartsNothing(Apply(s, PutInvocation(i)), p, i);
      StartsNothingPut(PutInvocation(i), RecoverUncertain(Apply(s, PutInvocation(i)), p, i));
    }
  }

  lemma RecoveryStartsNothing(s: Stores, id: Id, expected: Digest, controller: string, w: RecoveryWorld)
    requires InvocationsKeyed(s)
    ensures StartsNothing(RecoverEffect(s, id, expected, controller, w).writes)
  {
    if PlanRecovery(s, id, expected, controller, w).Ok? {
      PlannedRecovery(s, id, expected, controller, w);
      var p := PlanRecovery(s, id, expected, controller, w).value;
      var verify := PutCustody(p.verified);
      RecoverDispatchingStartsNothing(s, p);
      RecoverDispatchingStartsNothing(Apply(s, verify), p);
      StartsNothingPut(verify, RecoverDispatching(Apply(s, verify), p));
    }
  }

  lemma PrepareWorkspaceStartsNothing(s: Stores, id: Id, v: WorkspaceView, committed: bool, now: int)
    ensures StartsNothing(PrepareWorkspaceEffect(s, id, v, committed, now).writes)
  {
  }

  lemma DiscardStartsNothing(s: Stores, id: Id, v: WorkspaceView, q: Digest, cleanup: string, now: int)
    ensures StartsNothing(DiscardEffect(s, id, v, q, cleanup, now).writes)
  {
  }

  lemma ManualStartsNothing(s: Stores, id: Id, target: AttemptState, candidate: Option<Digest>, cleanup: Option<string>, now: int)
    ensures StartsNothing(TransitionEffect(s, id, target, candidate, cleanup, now).writes)
    ensures target == Running ==> TransitionEffect(s, id, target, candidate, cleanup, now).outcome.Err?
  {
  }

  lemma PrepareInvocationStartsNothing(s: Stores, id: Id, v: WorkspaceView, x: InvocationInputs)
    ensures StartsNothing(PrepareInvocationEffect(s, id, v, x).writes)
  {
  }

  lemma MoveStartsNothing(s: Stores, current: Invocation, moved: Result<Invocation>)
    ensures StartsNothing(MoveInvocation(s, current, moved).writes)
  {
  }

  lemma InvocationCommandsStartNothing(s: Stores, c: Command)
    requires c.AuthorizeCommand? || c.RejectCommand? || c.CancelCommand?
    ensures StartsNothing(Execute(s, c).writes)
  {
    if c.invocationId in s.invocations {
      var i := s.invocations[c.invocationId];
      match c
      case AuthorizeCommand(_, _, controller, now) =>
        MoveStartsNothing(s, i, TransitionInvocation(i, Authorized, Some(controller), Some(now), None));
      case RejectCommand(_, _) => MoveStartsNothing(s, i, TransitionInvocation(i, Rejected, None, None, None));
      case CancelCommand(_, _, _) => MoveStartsNothing(s, i, TransitionInvocation(i, AbortedInvocation, None, None, None));
    }
  }

  lemma CreationStartsNothing(s: Stores, a: Attempt)
    ensures StartsNothing(Execute(s, CreateAttemptCommand(a)).writes)
  {
  }

  /** No other command moves an attempt to RUNNING: manual transitions pass no
      runtime identity, and a fresh attempt is a DRAFT. */
  lemma OnlyDispatchRuns(s: Stores, c: Command)
    requires InvocationsKeyed(s)
    requires !StartsNothing(Execute(s, c).writes)
    ensures c.DispatchCommand?
  {
    match c
    case PrepareWorkspaceCommand(id, v, committed, now) => PrepareWorkspaceStartsNothing(s, id, v, committed, now);
    case DiscardWorkspaceCommand(id, v, q, cleanup, now) => DiscardStartsNothing(s, id, v, q, cleanup, now);
    case TransitionAttemptCommand(id, target, candidate, cleanup, now) =>
      ManualStartsNothing(s, id, target, candidate, cleanup, now);
    case RecoverCommand(id, expected, controller, w) => RecoveryStartsNothing(s, id, expected, controller, w);
    case CreateAttemptCommand(a) => CreationStartsNothing(s, a);
    case PrepareInvocationCommand(id, v, x) => PrepareInvocationStartsNothing(s, id, v, x);
    case DispatchCommand(_, _, _, _) =>
    case _ => InvocationCommandsStartNothing(s, c);
  }
}
