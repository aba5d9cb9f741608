/** The application service: the commands as they read and write the directory,
    step by step, each proved to have exactly the effect described for it. */
module Service {
  import opened Outcomes
  import opened Records
  import opened Lifecycle
  import opened Stores
  import opened Acceptance
  import opened Commands
  import opened CommandFacts
  import opened DispatchFacts
  import opened Protocol
  import opened RecoveryFacts
  import opened RecoveryProofs
  import opened Histories

  /** What a method of the service leaves on a disk that may stop is what one
      episode of the command histories leaves, so the joint invariant holds. */
  lemma RunsAreEpisodes(d: Disk, c: Command)
    ensures Run(d, Execute(d.stores, c)).0.stores == AfterEpisode(d.stores, Episode(c, d.writesLeft))
    ensures Inv(d.stores) ==> Inv(Run(d, Execute(d.stores, c)).0.stores)
  {
    RunLeavesCut(d, Execute(d.stores, c));
    if Inv(d.stores) {
      EpisodeKeepsInvariant(d.stores, Episode(c, d.writesLeft));
    }
  }

  class WorkerLabApplicationService {
    const root: StateRoot

    constructor (root: StateRoot)
      ensures this.root == root
    {
      this.root := root;
    }

    method TransitionAttempt(attemptId: Id, target: AttemptState, candidate: Option<Digest>, cleanup: Option<string>, now: int)
      returns (r: Result<Reply>)
      modifies root
      ensures (root.Now(), r) ==
              Run(old(root.Now()), TransitionEffect(old(root.State()), attemptId, target, candidate, cleanup, now))
      ensures old(AttemptsKeyed(root.State())) && old(root.writesLeft) >= 1 ==>
                TransitionAnswered(old(root.State()), r, root.State(), attemptId, target, candidate, cleanup, now)
    {
      if AttemptsKeyed(root.State()) && root.writesLeft >= 1 {
        TransitionAnswers(root.Now(), attemptId, target, candidate, cleanup, now);
      }
      if attemptId !in root.attempts {
        return Err("STORAGE_RECORD_MISSING");
      }
      var current := root.attempts[attemptId];
      if current.state == Ready && target == Aborted && attemptId in root.receipts {
        return Err("ATTEMPT_WORKSPACE_DISPOSAL_REQUIRED");
      }
      var updated := Lifecycle.TransitionAttempt(current, target, now, candidate, None, cleanup);
      if updated.Err? {
        return Err(updated.code);
      }
      RunStep(root.Now(), SaveAttempt(root.attempts, updated.value), PutAttempt(updated.value), Done(AttemptReply(updated.value)));
      var saved := root.SaveAttemptTransition(updated.value);
      return if saved.Err? then Err(saved.code) else Ok(AttemptReply(updated.value));
    }

    method PrepareInvocation(attemptId: Id, v: WorkspaceView, x: InvocationInputs) returns (r: Result<Reply>)
      modifies root
      ensures (root.Now(), r) == Run(old(root.Now()), PrepareInvocationEffect(old(root.State()), attemptId, v, x))
      ensures old(AttemptsKeyed(root.State()) && FilesKeyed(root.State())) && old(root.writesLeft) >= 2 ==>
                PreparationAnswered(old(root.State()), r, root.State(), attemptId, v, x)
    {
      if AttemptsKeyed(root.State()) && FilesKeyed(root.State()) && root.writesLeft >= 2 {
        PreparationAnswers(root.Now(), attemptId, v, x);
      }
      if !ValidPrompt(x.prompt) {
        return Err("SERVICE_COMMAND_INVALID");
      }
      if attemptId !in root.attempts {
        return Err("STORAGE_RECORD_MISSING");
      }
      var attempt := root.attempts[attemptId];
      if attempt.state != Ready {
        return Err("INTEGRATION_ATTEMPT_STATE_INVALID");
      }
      if exists id | id in root.invocations :: root.invocations[id].identity.attemptId == attemptId {
        return Err("INTEGRATION_INVOCATION_EXISTS");
      }
      if !x.definitionsMatch {
        return Err("INTEGRATION_IDENTITY_INVALID");
      }
      var receipt := VerifyWorkspace(root.State(), attemptId, v);
      if receipt.Err? {
        return Err(receipt.code);
      }
      var invocation := Invocation(NewIdentity(attempt, receipt.value, x), None, None, Prepared, None);
      if !ValidInvocation(invocation) {
        return Err("INTEGRATION_SCOPE_INVALID");
      }
      r := KeepPrompt(invocation, Prompt(x.prompt));
    }

    /** Retains the prompt, never over another one, then stores the invocation. */
    method KeepPrompt(invocation: Invocation, prompt: Content) returns (r: Result<Reply>)
      modifies root
      ensures (root.Now(), r) == Run(old(root.Now()), StorePrompt(old(root.State()), invocation, prompt))
    {
      var f := PromptFile(OfContent(prompt));
      if f in root.contents {
        if root.contents[f] != prompt {
          return Err("STORAGE_RECORD_INVALID");
        }
      } else {
        ghost var keep := PutContent(f, prompt);
        RunPut(root.Now(), keep, StoreInvocation(Apply(root.State(), keep), invocation));
        var kept := root.Write(PutContent(f, prompt));
        if kept.Err? {
          return Err(kept.code);
        }
      }
      RunStep(root.Now(), CreateInvocation(root.invocations, invocation), PutInvocation(invocation), Done(InvocationReply(invocation)));
      var created := root.CreateNewInvocation(invocation);
      return if created.Err? then Err(created.code) else Ok(InvocationReply(invocation));
    }

    /** Loads an invocation by name and identity. */
    method LoadInvocation(id: Id, expected: Digest) returns (r: Result<Invocation>)
      ensures r == if id !in root.invocations then Err("STORAGE_RECORD_MISSING")
                   else if OfIdentity(root.invocations[id].identity) != expected then Err("INTEGRATION_IDENTITY_INVALID")
                   else Ok(root.invocations[id])
    {
      if id !in root.invocations {
        return Err("STORAGE_RECORD_MISSING");
      }
      if OfIdentity(root.invocations[id].identity) != expected {
        return Err("INTEGRATION_IDENTITY_INVALID");
      }
      return Ok(root.invocations[id]);
    }

    method SaveMoved(current: Invocation, moved: Result<Invocation>) returns (r: Result<Reply>)
      modifies root
      ensures (root.Now(), r) == Run(old(root.Now()), MoveInvocation(old(root.State()), current, moved))
    {
      if moved.Err? {
        return Err(moved.code);
      }
      RunStep(root.Now(), SaveInvocation(root.invocations, moved.value, OfInvocation(current)),
              PutInvocation(moved.value), Done(InvocationReply(moved.value)));
      var saved := root.SaveInvocationTransition(moved.value, OfInvocation(current));
      return if saved.Err? then Err(saved.code) else Ok(InvocationReply(moved.value));
    }

    method AuthorizeInvocation(id: Id, expected: Digest, controller: string, now: int) returns (r: Result<Reply>)
      modifies root
      ensures (root.Now(), r) == Run(old(root.Now()), AuthorizeEffect(old(root.State()), id, expected, controller, now))
      ensures old(InvocationsKeyed(root.State())) && old(root.writesLeft) >= 1 ==>
                AuthorizationAnswered(old(root.State()), r, root.State(), id, expected, controller, now)
    {
      if InvocationsKeyed(root.State()) && root.writesLeft >= 1 {
        AuthorizationAnswers(root.Now(), id, expected, controller, now);
      }
      var current := LoadInvocation(id, expected);
      if current.Err? {
        return Err(current.code);
      }
      r := SaveMoved(current.value, TransitionInvocation(current.value, Authorized, Some(controller), Some(now), None));
    }

    method RejectInvocation(id: Id, expected: Digest) returns (r: Result<Reply>)
      modifies root
      ensures (root.Now(), r) == Run(old(root.Now()), RejectEffect(old(root.State()), id, expected))
      ensures old(InvocationsKeyed(root.State())) && old(root.writesLeft) >= 1 ==>
                RejectionAnswered(old(root.State()), r, root.State(), id, expected)
    {
      if InvocationsKeyed(root.State()) && root.writesLeft >= 1 {
        RejectionAnswers(root.Now(), id, expected);
      }
      var current := LoadInvocation(id, expected);
      if current.Err? {
        return Err(current.code);
      }
      r := SaveMoved(current.value, TransitionInvocation(current.value, Rejected, None, None, None));
    }

    method CancelInvocation(id: Id, expected: Digest, controller: string) returns (r: Result<Reply>)
      modifies root
      ensures (root.Now(), r) == Run(old(root.Now()), CancelEffect(old(root.State()), id, expected, controller))
      ensures old(InvocationsKeyed(root.State())) && old(root.writesLeft) >= 1 ==>
                CancellationAnswered(old(root.State()), r, root.State(), id, expected, controller)
    {
      if InvocationsKeyed(root.State()) && root.writesLeft >= 1 {
        CancellationAnswers(root.Now(), id, expected, controller);
      }
      var current := LoadInvocation(id, expected);
      if current.Err? {
        return Err(current.code);
      }
      if current.value.state == Authorized && current.value.authorizedBy != Some(controller) {
        return Err("OPERATOR_CONTROLLER_MISMATCH");
      }
      r := SaveMoved(current.value, TransitionInvocation(current.value, AbortedInvocation, None, None, None));
    }

    // ----- dispatch

    method DispatchInvocation(id: Id, expected: Digest, controller: string, w: DispatchWorld) returns (r: Result<Reply>)
      modifies root
      ensures (root.Now(), r) == Run(old(root.Now()), DispatchEffect(old(root.State()), id, expected, controller, w))
      ensures old(Inv(root.State())) && old(root.writesLeft) >= |w.calls| + 6 ==>
                DispatchAnswered(old(root.State()), r, root.State(), id, expected, controller, w)
    {
      if Inv(root.State()) && root.writesLeft >= |w.calls| + 6 {
        DispatchAnswers(root.Now(), id, expected, controller, w);
      }
      var invocation := DispatchGuard(root.State(), id, expected, controller, w);
      if invocation.Err? {
        return Err(invocation.code);
      }
      var running := BindGuard(root.State(), id, expected, w.boundAt);
      if running.Err? {
        return Err(running.code);
      }
      ghost var bind := PutAttempt(running.value);
      RunStep(root.Now(), SaveAttempt(root.attempts, running.value), bind,
              MarkDispatching(Apply(root.State(), bind), invocation.value, w));
      var bound := root.SaveAttemptTransition(running.value);
      if bound.Err? {
        return Err(bound.code);
      }
      r := DispatchBound(invocation.value, w);
    }

    /** From the durable binding: mark, call the adapter, accept. */
    method DispatchBound(invocation: Invocation, w: DispatchWorld) returns (r: Result<Reply>)
      modifies root
      ensures (root.Now(), r) == Run(old(root.Now()), MarkDispatching(old(root.State()), invocation, w))
    {
      var dispatching := TransitionInvocation(invocation, Dispatching, None, None, None);
      if dispatching.Err? {
        return Err(dispatching.code);
      }
      ghost var mark := PutInvocation(dispatching.value);
      RunStep(root.Now(), SaveInvocation(root.invocations, dispatching.value, OfInvocation(invocation)), mark,
              Commands.CallAdapter(Apply(root.State(), mark), dispatching.value, w.calls, w));
      var marked := root.SaveInvocationTransition(dispatching.value, OfInvocation(invocation));
      if marked.Err? {
        return Err(marked.code);
      }
      var alive := CallAdapter(dispatching.value, w);
      if !alive {
        return Err("STORAGE_WRITE_FAILED");
      }
      r := AcceptResponse(dispatching.value, w);
    }

    /** The adapter's custody calls.  Returns false when the disk stops. */
    method CallAdapter(i: Invocation, w: DispatchWorld) returns (alive: bool)
      modifies root
      ensures var e := Commands.CallAdapter(old(root.State()), i, w.calls, w);
              Run(old(root.Now()), e) ==
              if alive then Run(root.Now(), Commands.AfterAdapter(root.State(), i, w))
              else (root.Now(), Err("STORAGE_WRITE_FAILED"))
    {
      var n := 0;
      while n < |w.calls|
        invariant 0 <= n <= |w.calls|
        invariant Run(old(root.Now()), Commands.CallAdapter(old(root.State()), i, w.calls, w)) ==
                  Run(root.Now(), Commands.CallAdapter(root.State(), i, w.calls[n..], w))
      {
        var call := w.calls[n];
        assert w.calls[n..][0] == call && w.calls[n..][1..] == w.calls[n + 1..];
        if call.record.invocationId == i.identity.invocationId && CustodyCallGuard(root.State(), call).Ok? {
          ghost var put := PutCustody(call.record);
          RunPut(root.Now(), put, Commands.CallAdapter(Apply(root.State(), put), i, w.calls[n + 1..], w));
          var stored;
          match call {
            case CreateCall(record) => stored := root.CreateNewCustody(record);
            case SaveCall(record, expected) => stored := root.SaveCustodyTransition(record, expected);
          }
          if stored.Err? {
            return false;
          }
        }
        n := n + 1;
      }
      assert w.calls[n..] == [];
      return true;
    }

    method AcceptResponse(i: Invocation, w: DispatchWorld) returns (r: Result<Reply>)
      modifies root
      ensures (root.Now(), r) == Run(old(root.Now()), Commands.AfterAdapter(old(root.State()), i, w))
      ensures old(Marked(root.State(), i) && FilesKeyed(root.State())) && old(root.writesLeft) >= 4 ==>
                AdapterAnswered(old(root.State()), r, root.State(), i, w)
    {
      if Marked(root.State(), i) && FilesKeyed(root.State()) && root.writesLeft >= 4 {
        AdapterAnswers(root.Now(), i, w);
      }
      var id := i.identity.invocationId;
      if w.adapter.Raised? {
        return Err(w.adapter.code);
      }
      if id !in root.custody {
        return Err("STORAGE_RECORD_MISSING");
      }
      var accepted := Accept(w.adapter.response, i.identity, root.custody[id], w.observed);
      if accepted.Err? {
        return Err(accepted.code);
      }
      var x := accepted.value;
      if x.reference in root.contents {
        if root.contents[x.reference] != x.content {
          return Err("INTEGRATION_IDENTITY_INVALID");
        }
      } else {
        ghost var keep := PutContent(x.reference, x.content);
        RunPut(root.Now(), keep, Commands.StoreResult(Apply(root.State(), keep), i, x.result, w));
        var kept := root.Write(PutContent(x.reference, x.content));
        if kept.Err? {
          return Err(kept.code);
        }
      }
      r := StoreAndComplete(i, x.result, w);
    }

    method StoreAndComplete(i: Invocation, result: ResultRecord, w: DispatchWorld) returns (r: Result<Reply>)
      modifies root
      ensures (root.Now(), r) == Run(old(root.Now()), Commands.StoreResult(old(root.State()), i, result, w))
    {
      RunPut(root.Now(), PutResult(result), Complete(Apply(root.State(), PutResult(result)), i, result, w));
      var stored := root.Write(PutResult(result));
      if stored.Err? {
        return Err(stored.code);
      }
      var completed := TransitionInvocation(i, Completed, None, None, Some(OfResult(result)));
      if completed.Err? {
        return Err(completed.code);
      }
      ghost var close := PutInvocation(completed.value);
      RunStep(root.Now(), SaveInvocation(root.invocations, completed.value, OfInvocation(i)), close,
              Capture(Apply(root.State(), close), completed.value, result, w));
      var closed := root.SaveInvocationTransition(completed.value, OfInvocation(i));
      if closed.Err? {
        return Err(closed.code);
      }
      r := CaptureCandidate(completed.value, result, w);
    }

    method CaptureCandidate(completed: Invocation, result: ResultRecord, w: DispatchWorld) returns (r: Result<Reply>)
      modifies root
      ensures (root.Now(), r) == Run(old(root.Now()), Capture(old(root.State()), completed, result, w))
    {
      if completed.identity.attemptId !in root.attempts {
        return Err("STORAGE_RECORD_MISSING");
      }
      var running := root.attempts[completed.identity.attemptId];
      if
        || running.state != Running
        || running.runtimeIdentity != Some(OfIdentity(completed.identity))
        || running.candidateDigest.Some?
        || completed.state != Completed
        || completed.resultDigest.None?
        || completed.identity.attemptId != running.attemptId
        || completed.identity.authority != running.authority
      {
        return Err("INTEGRATION_IDENTITY_INVALID");
      }
      var candidate := Lifecycle.TransitionAttempt(running, Candidate, w.candidateAt, Some(OfResult(result)), None, None);
      if candidate.Err? {
        return Err(candidate.code);
      }
      RunStep(root.Now(), SaveAttempt(root.attempts, candidate.value), PutAttempt(candidate.value), Done(AttemptReply(candidate.value)));
      var saved := root.SaveAttemptTransition(candidate.value);
      return if saved.Err? then Err(saved.code) else Ok(AttemptReply(candidate.value));
    }

    // ----- recovery

    method RecoverInvocation(id: Id, expected: Digest, controller: string, w: RecoveryWorld) returns (r: Result<Reply>)
      modifies root
      ensures (root.Now(), r) == Run(old(root.Now()), RecoverEffect(old(root.State()), id, expected, controller, w))
      ensures old(Loads(root.State())) && old(root.writesLeft) >= 4 ==>
                RecoveryAnswered(old(root.State()), r, root.State(), id, expected, controller, w)
    {
      if Loads(root.State()) && root.writesLeft >= 4 {
        RecoveryAnswers(root.Now(), id, expected, controller, w);
      }
      var plan := PlanRecovery(root.State(), id, expected, controller, w);
      if plan.Err? {
        return Err(plan.code);
      }
      var p := plan.value;
      if p.custody.state == Terminated {
        ghost var verify := PutCustody(p.verified);
        RunStep(root.Now(), SaveCustody(root.custody, p.verified, OfCustody(p.custody)), verify,
                RecoverDispatching(Apply(root.State(), verify), p));
        var verified := root.SaveCustodyTransition(p.verified, OfCustody(p.custody));
        if verified.Err? {
          return Err(verified.code);
        }
      }
      r := StopInvocation(p);
    }

    method StopInvocation(p: Recovery) returns (r: Result<Reply>)
      modifies root
      ensures (root.Now(), r) == Run(old(root.Now()), RecoverDispatching(old(root.State()), p))
    {
      var current := p.invocation;
      if current.state == Dispatching {
        var uncertain := TransitionInvocation(current, Uncertain, None, None, None);
        if uncertain.Err? {
          return Err(uncertain.code);
        }
        ghost var doubt := PutInvocation(uncertain.value);
        RunStep(root.Now(), SaveInvocation(root.invocations, uncertain.value, OfInvocation(current)), doubt,
                RecoverUncertain(Apply(root.State(), doubt), p, uncertain.value));
        var doubted := root.SaveInvocationTransition(uncertain.value, OfInvocation(current));
        if doubted.Err? {
          return Err(doubted.code);
        }
        current := uncertain.value;
      }
      r := AbortUncertain(p, current);
    }

    method AbortUncertain(p: Recovery, invocation: Invocation) returns (r: Result<Reply>)
      modifies root
      ensures (root.Now(), r) == Run(old(root.Now()), RecoverUncertain(old(root.State()), p, invocation))
    {
      var current := invocation;
      if current.state == Uncertain {
        var aborted := TransitionInvocation(current, AbortedInvocation, None, None, None);
        if aborted.Err? {
          return Err(aborted.code);
        }
        ghost var abort := PutInvocation(aborted.value);
        RunStep(root.Now(), SaveInvocation(root.invocations, aborted.value, OfInvocation(current)), abort,
                RecoverAttempt(Apply(root.State(), abort), p, aborted.value));
        var stopped := root.SaveInvocationTransition(aborted.value, OfInvocation(current));
        if stopped.Err? {
          return Err(stopped.code);
        }
        current := aborted.value;
      }
      r := AbortAttempt(p, current);
    }

    method AbortAttempt(p: Recovery, current: Invocation) returns (r: Result<Reply>)
      modifies root
      ensures (root.Now(), r) == Run(old(root.Now()), RecoverAttempt(old(root.State()), p, current))
    {
      if p.attempt.state == Running {
        ghost var abort := PutAttempt(p.aborted);
        RunStep(root.Now(), SaveAttempt(root.attempts, p.aborted), abort, RecoveryCheck(Apply(root.State(), abort), p, current));
        var saved := root.SaveAttemptTransition(p.aborted);
        if saved.Err? {
          return Err(saved.code);
        }
      }
      var id := p.invocation.identity.invocationId;
      if id !in root.custody || id !in root.invocations || p.attempt.attemptId !in root.attempts {
        return Err("STORAGE_RECORD_MISSING");
      }
      if
        || root.custody[id] != p.verified
        || root.invocations[id] != current
        || root.attempts[p.attempt.attemptId] != p.aborted
        || current.state != AbortedInvocation
        || p.aborted.state != Aborted
      {
        return Err("OPERATOR_RECOVERY_INVALID");
      }
      return Ok(RecoveryReply(current, p.aborted, p.verified));
    }
  }
}
