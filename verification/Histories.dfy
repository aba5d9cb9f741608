/** Every command only makes legal writes, so the joint invariant holds after
    every history of commands, each cut after any number of its writes. */
module Histories {
  import opened Outcomes
  import opened Records
  import opened Lifecycle
  import opened Stores
  import opened Moves
  import opened Acceptance
  import opened Commands
  import opened Protocol

  lemma LegalPut(s: Stores, w: Write, rest: Effect)
    requires Legal(s, w) && LegalRun(Apply(s, w), rest.writes)
    ensures LegalRun(s, Put(w, rest).writes)
  {
    assert Put(w, rest).writes[1..] == rest.writes;
  }

  // ----- single-write commands

  lemma SavedAttemptIsLegal(s: Stores, a: Attempt)
    requires SaveAttempt(s.attempts, a).Ok?
    requires a.state != Running
    ensures Legal(s, PutAttempt(a))
  {
    AttemptSavesAreMoves(s.attempts, a);
  }

  lemma TransitionIsLegal(s: Stores, id: Id, target: AttemptState, candidate: Option<Digest>, cleanup: Option<string>, now: int)
    ensures LegalRun(s, TransitionEffect(s, id, target, candidate, cleanup, now).writes)
  {
    if TransitionEffect(s, id, target, candidate, cleanup, now).writes != [] {
      var updated := TransitionAttempt(s.attempts[id], target, now, candidate, None, cleanup).value;
      SavedAttemptIsLegal(s, updated);
      LegalPut(s, PutAttempt(updated), Done(AttemptReply(updated)));
    }
  }

  lemma PrepareWorkspaceIsLegal(s: Stores, id: Id, v: WorkspaceView, committed: bool, now: int)
    ensures LegalRun(s, PrepareWorkspaceEffect(s, id, v, committed, now).writes)
  {
    var e := PrepareWorkspaceEffect(s, id, v, committed, now);
    if e.writes != [] {
      var t := Apply(s, e.writes[0]);
      if committed {
        var ready := TransitionAttempt(s.attempts[id], Ready, now, None, None, None).value;
        if SaveAttempt(s.attempts, ready).Ok? {
          SavedAttemptIsLegal(t, ready);
          assert e.writes == [e.writes[0], PutAttempt(ready)];
        } else {
          assert e.writes == [e.writes[0]];
        }
      } else {
        assert e.writes == [e.writes[0], DropReceipt(id)];
      }
    }
  }

  lemma DiscardFinishIsLegal(s: Stores, a: Attempt, reply: Reply)
    requires SaveAttempt(s.attempts, a).Ok? && a.state != Running
    ensures LegalRun(s, Put(PutAttempt(a), Put(DropReceipt(a.attemptId), Done(reply))).writes)
  {
    SavedAttemptIsLegal(s, a);
    var t := Apply(s, PutAttempt(a));
    LegalPut(t, DropReceipt(a.attemptId), Done(reply));
    LegalPut(s, PutAttempt(a), Put(DropReceipt(a.attemptId), Done(reply)));
  }

  /** The end of a disposal: the attempt is saved, then its receipt goes. */
  function DiscardFinish(s: Stores, aborted: Attempt): Effect {
    Step(SaveAttempt(s.attempts, aborted), PutAttempt(aborted),
         Put(DropReceipt(aborted.attemptId), Done(AttemptReply(aborted))))
  }

  lemma FinishIsLegal(s: Stores, t: Stores, aborted: Attempt)
    requires aborted.state == Aborted && t.attempts == s.attempts
    ensures LegalRun(t, DiscardFinish(s, aborted).writes)
  {
    if SaveAttempt(s.attempts, aborted).Ok? {
      DiscardFinishIsLegal(t, aborted, AttemptReply(aborted));
    }
  }

  lemma DiscardIsLegal(s: Stores, id: Id, v: WorkspaceView, q: Digest, cleanup: string, now: int)
    requires AttemptsKeyed(s)
    ensures LegalRun(s, DiscardEffect(s, id, v, q, cleanup, now).writes)
  {
    if DiscardEffect(s, id, v, q, cleanup, now).writes != [] {
      var a := s.attempts[id];
      if a.state == Aborted {
        LegalPut(s, DropReceipt(id), Done(AttemptReply(a)));
      } else {
        var aborted := TransitionAttempt(a, Aborted, now, None, None, Some(cleanup)).value;
        var p := s.receipts[id];
        if p.state == PreparedReceipt {
          var w := PutReceipt(QuarantinedReceiptOf(p, q));
          FinishIsLegal(s, Apply(s, w), aborted);
          LegalPut(s, w, DiscardFinish(s, aborted));
        } else {
          FinishIsLegal(s, s, aborted);
        }
      }
    }
  }

  lemma PrepareInvocationIsLegal(s: Stores, id: Id, v: WorkspaceView, x: InvocationInputs)
    requires AttemptsKeyed(s)
    ensures LegalRun(s, PrepareInvocationEffect(s, id, v, x).writes)
  {
    if PrepareInvocationEffect(s, id, v, x).writes != [] {
      var i := Invocation(NewIdentity(s.attempts[id], s.receipts[id], x), None, None, Prepared, None);
      var f := PromptFile(OfContent(Prompt(x.prompt)));
      if f in s.contents {
        NewInvocationIsLegal(s, i);
      } else {
        var keep := PutContent(f, Prompt(x.prompt));
        NewInvocationIsLegal(Apply(s, keep), i);
        LegalPut(s, keep, StoreInvocation(Apply(s, keep), i));
      }
    }
  }

  lemma NewInvocationIsLegal(s: Stores, i: Invocation)
    requires i.state == Prepared && i.identity.attemptId in s.attempts
    requires s.attempts[i.identity.attemptId].authority == i.identity.authority
    requires forall k | k in s.invocations :: s.invocations[k].identity.attemptId != i.identity.attemptId
    requires PromptFile(i.identity.promptDigest) in s.contents
    ensures LegalRun(s, StoreInvocation(s, i).writes)
  {
    if StoreInvocation(s, i).writes != [] {
      LegalPut(s, PutInvocation(i), Done(InvocationReply(i)));
    }
  }

  lemma MoveInvocationIsLegal(s: Stores, current: Invocation, moved: Result<Invocation>)
    requires moved.Ok? ==> moved.value.state !in {Dispatching, Completed, Uncertain}
    ensures LegalRun(s, MoveInvocation(s, current, moved).writes)
  {
    if MoveInvocation(s, current, moved).writes != [] {
      InvocationSavesAreMoves(s.invocations, moved.value, OfInvocation(current));
      LegalPut(s, PutInvocation(moved.value), Done(InvocationReply(moved.value)));
    }
  }

  // ----- dispatch, from its last step back to its first

  /** Invocation `i` is the stored DISPATCHING one, bound to its attempt and
      without a result. */
  ghost predicate InDispatch(s: Stores, i: Invocation) {
    var id := i.identity.invocationId;
    && Inv(s)
    && id in s.invocations
    && s.invocations[id] == i
    && i.state == Dispatching
    && id !in s.results
  }

  lemma CaptureIsLegal(s: Stores, completed: Invocation, result: ResultRecord, w: DispatchWorld)
    ensures LegalRun(s, Capture(s, completed, result, w).writes)
  {
    if Capture(s, completed, result, w).writes != [] {
      var a := s.attempts[completed.identity.attemptId];
      var candidate := TransitionAttempt(a, Candidate, w.candidateAt, Some(OfResult(result)), None, None).value;
      SavedAttemptIsLegal(s, candidate);
      LegalPut(s, PutAttempt(candidate), Done(AttemptReply(candidate)));
    }
  }

  lemma CompleteIsLegal(s: Stores, i: Invocation, result: ResultRecord, w: DispatchWorld)
    requires i.identity.invocationId in s.results && s.results[i.identity.invocationId] == result
    ensures LegalRun(s, Complete(s, i, result, w).writes)
  {
    if Complete(s, i, result, w).writes != [] {
      var completed := TransitionInvocation(i, Completed, None, None, Some(OfResult(result))).value;
      InvocationSavesAreMoves(s.invocations, completed, OfInvocation(i));
      var close := PutInvocation(completed);
      CaptureIsLegal(Apply(s, close), completed, result, w);
      LegalPut(s, close, Capture(Apply(s, close), completed, result, w));
    }
  }

  lemma StoreResultIsLegal(s: Stores, i: Invocation, result: ResultRecord, w: DispatchWorld)
    requires InDispatch(s, i)
    requires result.invocationId == i.identity.invocationId
    requires ResultIsSound(s, result)
    ensures LegalRun(s, StoreResult(s, i, result, w).writes)
  {
    var store := PutResult(result);
    CompleteIsLegal(Apply(s, store), i, result, w);
    LegalPut(s, store, Complete(Apply(s, store), i, result, w));
  }

  lemma AcceptedResultIsSound(s: Stores, i: Invocation, w: DispatchWorld)
    requires i.identity.invocationId in s.invocations && s.invocations[i.identity.invocationId] == i
    requires i.state == Dispatching
    requires w.adapter.Returned?
    requires i.identity.invocationId in s.custody
    requires Accept(w.adapter.response, i.identity, s.custody[i.identity.invocationId], w.observed).Ok?
    ensures var x := Accept(w.adapter.response, i.identity, s.custody[i.identity.invocationId], w.observed).value;
            && x.result.invocationId == i.identity.invocationId
            && OfContent(x.content) == x.reference.digest
            && (x.reference in s.contents && s.contents[x.reference] == x.content ==> ResultIsSound(s, x.result))
  {
    AcceptedResultIsBound(w.adapter.response, i.identity, s.custody[i.identity.invocationId], w.observed);
  }

  lemma ContentKeepsDispatch(s: Stores, i: Invocation, f: Reference, c: Content)
    requires InDispatch(s, i)
    requires f !in s.contents && OfContent(c) == f.digest
    ensures Legal(s, PutContent(f, c))
    ensures InDispatch(Apply(s, PutContent(f, c)), i)
  {
    LegalWriteKeepsInvariant(s, PutContent(f, c));
  }

  lemma AfterAdapterIsLegal(s: Stores, i: Invocation, w: DispatchWorld)
    requires InDispatch(s, i)
    ensures LegalRun(s, AfterAdapter(s, i, w).writes)
  {
    if AfterAdapter(s, i, w).writes != [] {
      var x := Accept(w.adapter.response, i.identity, s.custody[i.identity.invocationId], w.observed).value;
      AcceptedResultIsSound(s, i, w);
      if x.reference in s.contents {
        StoreResultIsLegal(s, i, x.result, w);
      } else {
        var keep := PutContent(x.reference, x.content);
        ContentKeepsDispatch(s, i, x.reference, x.content);
        AcceptedResultIsSound(Apply(s, keep), i, w);
        StoreResultIsLegal(Apply(s, keep), i, x.result, w);
        LegalPut(s, keep, StoreResult(Apply(s, keep), i, x.result, w));
      }
    }
  }

  lemma CustodyCallIsLegal(s: Stores, i: Invocation, c: CustodyCall)
    requires InDispatch(s, i)
    requires c.record.invocationId == i.identity.invocationId
    requires CustodyCallGuard(s, c).Ok?
    ensures Legal(s, PutCustody(c.record))
    ensures InDispatch(Apply(s, PutCustody(c.record)), i)
  {
    if c.SaveCall? {
      CustodySavesAreMoves(s.custody, c.record, c.expectedDigest);
    }
    LegalWriteKeepsInvariant(s, PutCustody(c.record));
  }

  lemma {:induction false} CallAdapterIsLegal(s: Stores, i: Invocation, calls: seq<CustodyCall>, w: DispatchWorld)
    requires InDispatch(s, i)
    ensures LegalRun(s, CallAdapter(s, i, calls, w).writes)
    decreases calls
  {
    if calls == [] {
      AfterAdapterIsLegal(s, i, w);
    } else if calls[0].record.invocationId == i.identity.invocationId && CustodyCallGuard(s, calls[0]).Ok? {
      var call := PutCustody(calls[0].record);
      CustodyCallIsLegal(s, i, calls[0]);
      CallAdapterIsLegal(Apply(s, call), i, calls[1..], w);
      LegalPut(s, call, CallAdapter(Apply(s, call), i, calls[1..], w));
    } else {
      CallAdapterIsLegal(s, i, calls[1..], w);
    }
  }

  lemma NoEarlyResult(s: Stores, id: Id)
    requires ResultsKeyed(s) && ResultsSound(s)
    requires id in s.invocations && s.invocations[id].state !in {Dispatching, Completed}
    ensures id !in s.results
  {
  }

  /** Invocation `i` is the stored AUTHORIZED one, already bound. */
  ghost predicate BoundForDispatch(s: Stores, i: Invocation) {
    && Inv(s)
    && i.identity.invocationId in s.invocations
    && s.invocations[i.identity.invocationId] == i
    && i.state == Authorized
    && i.identity.attemptId in s.attempts
    && s.attempts[i.identity.attemptId].runtimeIdentity == Some(OfIdentity(i.identity))
  }

  lemma MarkMoves(i: Invocation)
    requires TransitionInvocation(i, Dispatching, None, None, None).Ok?
    ensures var j := TransitionInvocation(i, Dispatching, None, None, None).value;
            j.identity == i.identity && j.state == Dispatching && InvocationMoves(i, j)
  {
  }

  lemma MarkIsAMove(s: Stores, i: Invocation, j: Invocation)
    requires BoundForDispatch(s, i) && InvocationMoves(i, j) && j.state == Dispatching
    ensures Legal(s, PutInvocation(j))
  {
    assert LegalInvocationMove(s, j);
  }

  lemma MarkKeepsInvariant(s: Stores, j: Invocation)
    requires Inv(s) && Legal(s, PutInvocation(j)) && j.state == Dispatching && j.identity.invocationId !in s.results
    ensures InDispatch(Apply(s, PutInvocation(j)), j)
  {
    LegalWriteKeepsInvariant(s, PutInvocation(j));
  }

  lemma MarkIsLegal(s: Stores, i: Invocation)
    requires BoundForDispatch(s, i)
    requires TransitionInvocation(i, Dispatching, None, None, None).Ok?
    ensures var mark := PutInvocation(TransitionInvocation(i, Dispatching, None, None, None).value);
            Legal(s, mark) && InDispatch(Apply(s, mark), mark.invocation)
  {
    var j := TransitionInvocation(i, Dispatching, None, None, None).value;
    NoEarlyResult(s, i.identity.invocationId);
    MarkMoves(i);
    MarkIsAMove(s, i, j);
    MarkKeepsInvariant(s, j);
  }

  lemma MarkDispatchingIsLegal(s: Stores, i: Invocation, w: DispatchWorld)
    requires BoundForDispatch(s, i)
    ensures LegalRun(s, MarkDispatching(s, i, w).writes)
  {
    if MarkDispatching(s, i, w).writes != [] {
      var dispatching := TransitionInvocation(i, Dispatching, None, None, None).value;
      var mark := PutInvocation(dispatching);
      var t := Apply(s, mark);
      MarkIsLegal(s, i);
      CallAdapterIsLegal(t, dispatching, w.calls, w);
      assert MarkDispatching(s, i, w) == Put(mark, CallAdapter(t, dispatching, w.calls, w));
      LegalPut(s, mark, CallAdapter(t, dispatching, w.calls, w));
    }
  }

  lemma BoundAttemptMoves(s: Stores, id: Id, expected: Digest, now: int)
    requires AttemptsKeyed(s) && InvocationsKeyed(s)
    requires BindGuard(s, id, expected, now).Ok?
    requires SaveAttempt(s.attempts, BindGuard(s, id, expected, now).value).Ok?
    ensures var running := BindGuard(s, id, expected, now).value;
            && LegalAttemptMove(s, running)
            && running.attemptId == s.invocations[id].identity.attemptId
            && running.runtimeIdentity == Some(OfIdentity(s.invocations[id].identity))
            && s.invocations[id].state == Authorized
  {
    AttemptSavesAreMoves(s.attempts, BindGuard(s, id, expected, now).value);
  }

  /** A dispatch that writes anything first binds, then marks DISPATCHING. */
  lemma DispatchShape(s: Stores, id: Id, expected: Digest, controller: string, w: DispatchWorld)
    requires DispatchEffect(s, id, expected, controller, w).writes != []
    ensures BindGuard(s, id, expected, w.boundAt).Ok?
    ensures var running := BindGuard(s, id, expected, w.boundAt).value;
            && SaveAttempt(s.attempts, running).Ok?
            && id in s.invocations
            && DispatchEffect(s, id, expected, controller, w) ==
               Put(PutAttempt(running), MarkDispatching(Apply(s, PutAttempt(running)), s.invocations[id], w))
  {
  }

  lemma DispatchIsLegal(s: Stores, id: Id, expected: Digest, controller: string, w: DispatchWorld)
    requires Inv(s)
    ensures LegalRun(s, DispatchEffect(s, id, expected, controller, w).writes)
  {
    if DispatchEffect(s, id, expected, controller, w).writes != [] {
      DispatchShape(s, id, expected, controller, w);
      BoundAttemptMoves(s, id, expected, w.boundAt);
      BoundDispatchIsLegal(s, s.invocations[id], BindGuard(s, id, expected, w.boundAt).value, w);
    }
  }

  lemma BoundDispatchIsLegal(s: Stores, i: Invocation, running: Attempt, w: DispatchWorld)
    requires Inv(s) && LegalAttemptMove(s, running)
    requires i.identity.invocationId in s.invocations && s.invocations[i.identity.invocationId] == i
    requires i.state == Authorized
    requires running.attemptId == i.identity.attemptId
    requires running.runtimeIdentity == Some(OfIdentity(i.identity))
    ensures LegalRun(s, Put(PutAttempt(running), MarkDispatching(Apply(s, PutAttempt(running)), i, w)).writes)
  {
    var bind := PutAttempt(running);
    LegalWriteKeepsInvariant(s, bind);
    MarkDispatchingIsLegal(Apply(s, bind), i, w);
    LegalPut(s, bind, MarkDispatching(Apply(s, bind), i, w));
  }

  // ----- recovery

  lemma RecoverAttemptIsLegal(s: Stores, p: Recovery, current: Invocation)
    requires p.aborted.state == Aborted
    ensures LegalRun(s, RecoverAttempt(s, p, current).writes)
  {
    if RecoverAttempt(s, p, current).writes != [] {
      var abort := PutAttempt(p.aborted);
      SavedAttemptIsLegal(s, p.aborted);
      LegalPut(s, abort, RecoveryCheck(Apply(s, abort), p, current));
    }
  }

  lemma RecoverUncertainIsLegal(s: Stores, p: Recovery, current: Invocation)
    requires p.aborted.state == Aborted
    ensures LegalRun(s, RecoverUncertain(s, p, current).writes)
  {
    if current.state != Uncertain {
      RecoverAttemptIsLegal(s, p, current);
    } else if RecoverUncertain(s, p, current).writes != [] {
      var aborted := TransitionInvocation(current, AbortedInvocation, None, None, None).value;
      InvocationSavesAreMoves(s.invocations, aborted, OfInvocation(current));
      RecoverAttemptIsLegal(Apply(s, PutInvocation(aborted)), p, aborted);
      LegalPut(s, PutInvocation(aborted), RecoverAttempt(Apply(s, PutInvocation(aborted)), p, aborted));
    }
  }

  lemma RecoverDispatchingIsLegal(s: Stores, p: Recovery)
    requires p.aborted.state == Aborted
    requires p.invocation.identity.invocationId !in s.results
    ensures LegalRun(s, RecoverDispatching(s, p).writes)
  {
    if p.invocation.state != Dispatching {
      RecoverUncertainIsLegal(s, p, p.invocation);
    } else if RecoverDispatching(s, p).writes != [] {
      var uncertain := TransitionInvocation(p.invocation, Uncertain, None, None, None).value;
      InvocationSavesAreMoves(s.invocations, uncertain, OfInvocation(p.invocation));
      RecoverUncertainIsLegal(Apply(s, PutInvocation(uncertain)), p, uncertain);
      LegalPut(s, PutInvocation(uncertain), RecoverUncertain(Apply(s, PutInvocation(uncertain)), p, uncertain));
    }
  }

  /** What a recovery plan has checked, without its guards. */
  lemma PlannedRecovery(s: Stores, id: Id, expected: Digest, controller: string, w: RecoveryWorld)
    requires InvocationsKeyed(s) && PlanRecovery(s, id, expected, controller, w).Ok?
    ensures var p := PlanRecovery(s, id, expected, controller, w).value;
            && id in s.invocations && p.invocation == s.invocations[id]
            && p.invocation.identity.invocationId == id
            && p.invocation.state in {Dispatching, Uncertain, AbortedInvocation}
            && id !in s.results
            && id in s.custody && p.custody == s.custody[id]
            && p.custody.state in {Terminated, AbsenceVerified}
            && p.aborted.state == Aborted
  {
    PlannedRecords(s, id, expected, controller);
    PlannedFinalCustody(s.custody, id, expected, w);
    PlannedAbort(PlanRecovery(s, id, expected, controller, w).value.attempt, w.now);
  }

  lemma PlannedRecords(s: Stores, id: Id, expected: Digest, controller: string)
    requires RecoveryRecords(s.attempts, s.invocations, id, expected, controller).Ok?
    ensures var (i, a) := RecoveryRecords(s.attempts, s.invocations, id, expected, controller).value;
            && id in s.invocations && i == s.invocations[id]
            && i.state in {Dispatching, Uncertain, AbortedInvocation}
            && a.state in {Running, Aborted}
  {
  }

  lemma PlannedFinalCustody(m: map<Id, Custody>, id: Id, expected: Digest, w: RecoveryWorld)
    requires RecoveryCustody(m, id, expected, w).Ok?
    ensures id in m && RecoveryCustody(m, id, expected, w).value.0 == m[id] && m[id].state in {Terminated, AbsenceVerified}
  {
  }

  lemma PlannedAbort(a: Attempt, now: int)
    requires a.state in {Running, Aborted} && RecoveryAbort(a, now).Ok?
    ensures RecoveryAbort(a, now).value.state == Aborted
  {
  }

  lemma RecoverIsLegal(s: Stores, id: Id, expected: Digest, controller: string, w: RecoveryWorld)
    requires InvocationsKeyed(s) && CustodyKeyed(s)
    ensures LegalRun(s, RecoverEffect(s, id, expected, controller, w).writes)
  {
    if PlanRecovery(s, id, expected, controller, w).Ok? {
      PlannedRecovery(s, id, expected, controller, w);
      var p := PlanRecovery(s, id, expected, controller, w).value;
      if p.custody.state != Terminated {
        RecoverDispatchingIsLegal(s, p);
      } else if SaveCustody(s.custody, p.verified, OfCustody(p.custody)).Ok? {
        VerifyFirstIsLegal(s, p);
        assert RecoverEffect(s, id, expected, controller, w) ==
               Put(PutCustody(p.verified), RecoverDispatching(Apply(s, PutCustody(p.verified)), p));
      }
    }
  }

  lemma VerifyFirstIsLegal(s: Stores, p: Recovery)
    requires CustodyKeyed(s) && p.aborted.state == Aborted
    requires SaveCustody(s.custody, p.verified, OfCustody(p.custody)).Ok?
    requires var id := p.invocation.identity.invocationId;
             && id in s.invocations && s.invocations[id] == p.invocation
             && p.invocation.state in {Dispatching, Uncertain, AbortedInvocation}
             && id !in s.results && id in s.custody && s.custody[id] == p.custody
    ensures LegalRun(s, Put(PutCustody(p.verified), RecoverDispatching(Apply(s, PutCustody(p.verified)), p)).writes)
  {
    var verify := PutCustody(p.verified);
    CustodySavesAreMoves(s.custody, p.verified, OfCustody(p.custody));
    assert LegalCustody(s, p.verified);
    RecoverDispatchingIsLegal(Apply(s, verify), p);
    LegalPut(s, verify, RecoverDispatching(Apply(s, verify), p));
  }

  // ----- histories

  lemma NewAttemptIsLegal(s: Stores, a: Attempt)
    ensures LegalRun(s, Execute(s, CreateAttemptCommand(a)).writes)
  {
    if CreateAttempt(s.attempts, a).Ok? {
      LegalPut(s, PutAttempt(a), Done(AttemptReply(a)));
    }
  }

  lemma AuthorizeIsLegal(s: Stores, id: Id, expected: Digest, controller: string, now: int)
    ensures LegalRun(s, AuthorizeEffect(s, id, expected, controller, now).writes)
  {
    if id in s.invocations {
      var current := s.invocations[id];
      MoveInvocationIsLegal(s, current, TransitionInvocation(current, Authorized, Some(controller), Some(now), None));
    }
  }

  lemma RejectIsLegal(s: Stores, id: Id, expected: Digest)
    ensures LegalRun(s, RejectEffect(s, id, expected).writes)
  {
    if id in s.invocations {
      MoveInvocationIsLegal(s, s.invocations[id], TransitionInvocation(s.invocations[id], Rejected, None, None, None));
    }
  }

  lemma CancelIsLegal(s: Stores, id: Id, expected: Digest, controller: string)
    ensures LegalRun(s, CancelEffect(s, id, expected, controller).writes)
  {
    if id in s.invocations {
      var current := s.invocations[id];
      MoveInvocationIsLegal(s, current, TransitionInvocation(current, AbortedInvocation, None, None, None));
    }
  }

  /** No command ever makes a write that is not legal in the directory it meets. */
  lemma ExecuteIsLegal(s: Stores, c: Command)
    requires Inv(s)
    ensures LegalRun(s, Execute(s, c).writes)
  {
    match c
    case CreateAttemptCommand(a) => NewAttemptIsLegal(s, a);
    case PrepareWorkspaceCommand(id, v, committed, now) => PrepareWorkspaceIsLegal(s, id, v, committed, now);
    case DiscardWorkspaceCommand(id, v, q, cleanup, now) => DiscardIsLegal(s, id, v, q, cleanup, now);
    case TransitionAttemptCommand(id, target, candidate, cleanup, now) =>
      TransitionIsLegal(s, id, target, candidate, cleanup, now);
    case PrepareInvocationCommand(id, v, x) => PrepareInvocationIsLegal(s, id, v, x);
    case AuthorizeCommand(id, expected, controller, now) => AuthorizeIsLegal(s, id, expected, controller, now);
    case RejectCommand(id, expected) => RejectIsLegal(s, id, expected);
    case CancelCommand(id, expected, controller) => CancelIsLegal(s, id, expected, controller);
    case DispatchCommand(id, expected, controller, w) => DispatchIsLegal(s, id, expected, controller, w);
    case RecoverCommand(id, expected, controller, w) => RecoverIsLegal(s, id, expected, controller, w);
  }

  lemma {:induction false} LegalPrefixKeepsInvariant(s: Stores, ws: seq<Write>, n: nat)
    requires Inv(s) && LegalRun(s, ws) && n <= |ws|
    ensures Inv(ApplyAll(s, ws[..n]))
    decreases n
  {
    if n > 0 {
      LegalWriteKeepsInvariant(s, ws[0]);
      assert ws[..n][1..] == ws[1..][..n - 1];
      LegalPrefixKeepsInvariant(Apply(s, ws[0]), ws[1..], n - 1);
    }
  }

  /** One command of a history, and how many of its writes happen. */
  datatype Episode = Episode(command: Command, writes: nat)

  function Cut(ws: seq<Write>, n: nat): seq<Write> {
    if n <= |ws| then ws[..n] else ws
  }

  lemma RunLeavesCut(d: Disk, e: Effect)
    ensures Run(d, e).0.stores == ApplyAll(d.stores, Cut(e.writes, d.writesLeft))
  {
    RunAppliesPrefix(d, e);
    assert e.writes[..|e.writes|] == e.writes;
  }

  function AfterEpisode(s: Stores, e: Episode): Stores {
    ApplyAll(s, Cut(Execute(s, e.command).writes, e.writes))
  }

  function History(s: Stores, es: seq<Episode>): Stores
    decreases es
  {
    if es == [] then s else History(AfterEpisode(s, es[0]), es[1..])
  }

  lemma EpisodeKeepsInvariant(s: Stores, e: Episode)
    requires Inv(s)
    ensures Inv(AfterEpisode(s, e))
  {
    var ws := Execute(s, e.command).writes;
    ExecuteIsLegal(s, e.command);
    LegalPrefixKeepsInvariant(s, ws, if e.writes <= |ws| then e.writes else |ws|);
    assert ws[..|ws|] == ws;
  }

  lemma {:induction false} HistoryKeepsInvariant(s: Stores, es: seq<Episode>)
    requires Inv(s)
    ensures Inv(History(s, es))
    decreases es
  {
    if es != [] {
      EpisodeKeepsInvariant(s, es[0]);
      HistoryKeepsInvariant(AfterEpisode(s, es[0]), es[1..]);
    }
  }

  /** From an empty directory, every history of cut commands ends in a state
      where the joint invariant holds. */
  lemma InvariantOverAllHistories(es: seq<Episode>)
    ensures Inv(History(EMPTY, es))
  {
    assert Inv(EMPTY);
    HistoryKeepsInvariant(EMPTY, es);
  }
}
