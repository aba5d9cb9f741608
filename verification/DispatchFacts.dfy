/** Exactly when a dispatch starts, exactly when it succeeds, and exactly what a
    dispatch that succeeds leaves, on the fields of the records and of what the
    outside world does. */
module DispatchFacts {
  import opened Outcomes
  import opened Records
  import opened Lifecycle
  import opened Stores
  import opened Moves
  import opened Acceptance
  import opened AcceptanceFacts
  import opened Commands
  import opened CommandFacts
  import opened Protocol
  import opened GoodDispatch
  import opened CutDispatches

  // ----- from the last step back to the first

  function CandidateOf(a: Attempt, r: ResultRecord, now: int): Attempt {
    a.(state := Candidate, updatedAt := now, candidateDigest := Some(OfResult(r)))
  }

  function CompletedOf(i: Invocation, r: ResultRecord): Invocation {
    i.(state := Completed, resultDigest := Some(OfResult(r)))
  }

  lemma CaptureExactly(s: Stores, completed: Invocation, r: ResultRecord, w: DispatchWorld)
    requires completed.identity.attemptId in s.attempts
    requires RunsFor(s.attempts[completed.identity.attemptId], completed.identity)
    requires completed.state == Completed && completed.resultDigest.Some?
    ensures var a := s.attempts[completed.identity.attemptId];
            var e := Capture(s, completed, r, w);
            && (e.outcome.Ok? <==> a.updatedAt <= w.candidateAt)
            && (e.outcome.Ok? ==>
                  e == Put(PutAttempt(CandidateOf(a, r, w.candidateAt)), Done(AttemptReply(CandidateOf(a, r, w.candidateAt)))))
  {
    AttemptSavesAreMoves(s.attempts, CandidateOf(s.attempts[completed.identity.attemptId], r, w.candidateAt));
  }

  lemma CompleteShape(s: Stores, i: Invocation, r: ResultRecord, w: DispatchWorld)
    requires i.identity.invocationId in s.invocations && s.invocations[i.identity.invocationId] == i
    requires i.state == Dispatching && ValidInvocation(i)
    ensures var close := PutInvocation(CompletedOf(i, r));
            Complete(s, i, r, w) == Put(close, Capture(Apply(s, close), CompletedOf(i, r), r, w))
  {
    InvocationSavesAreMoves(s.invocations, CompletedOf(i, r), OfInvocation(i));
  }

  /** The stored invocation `i` is marked and its attempt runs for it. */
  ghost predicate Marked(s: Stores, i: Invocation) {
    && i.identity.invocationId in s.invocations && s.invocations[i.identity.invocationId] == i
    && i.state == Dispatching && ValidInvocation(i)
    && i.identity.attemptId in s.attempts && RunsFor(s.attempts[i.identity.attemptId], i.identity)
  }

  /** What a dispatch leaves once result `r` is accepted. */
  function Finished(s: Stores, i: Invocation, r: ResultRecord, now: int): Stores
    requires i.identity.attemptId in s.attempts
  {
    s.(results := s.results[r.invocationId := r],
       invocations := s.invocations[i.identity.invocationId := CompletedOf(i, r)],
       attempts := s.attempts[i.identity.attemptId := CandidateOf(s.attempts[i.identity.attemptId], r, now)])
  }

  /** An effect that ends in the candidate of result `r`, if time allows. */
  ghost predicate Captures(s: Stores, e: Effect, i: Invocation, r: ResultRecord, now: int, t: Stores)
    requires i.identity.attemptId in s.attempts && i.identity.attemptId in t.attempts
  {
    var a := s.attempts[i.identity.attemptId];
    && (e.outcome.Ok? <==> a.updatedAt <= now)
    && (e.outcome.Ok? ==> e.outcome == Ok(AttemptReply(CandidateOf(a, r, now))) && After(s, e) == Finished(t, i, r, now))
  }

  lemma StoreResultExactly(s: Stores, i: Invocation, r: ResultRecord, w: DispatchWorld)
    requires Marked(s, i)
    ensures Captures(s, StoreResult(s, i, r, w), i, r, w.candidateAt, s)
  {
    var a := s.attempts[i.identity.attemptId];
    var t := Apply(s, PutResult(r));
    var close := PutInvocation(CompletedOf(i, r));
    var u := Apply(t, close);
    CompleteShape(t, i, r, w);
    CaptureExactly(u, CompletedOf(i, r), r, w);
    AfterPut(s, PutResult(r), Complete(t, i, r, w));
    AfterPut(t, close, Capture(u, CompletedOf(i, r), r, w));
    if a.updatedAt <= w.candidateAt {
      var done := Done(AttemptReply(CandidateOf(a, r, w.candidateAt)));
      AfterPut(u, PutAttempt(CandidateOf(a, r, w.candidateAt)), done);
      AfterDone(Apply(u, PutAttempt(CandidateOf(a, r, w.candidateAt))), done);
    }
  }

  lemma AfterDone(s: Stores, e: Effect)
    requires e.writes == []
    ensures After(s, e) == s
  {
  }

  /** Content is retained once, under its content address. */
  function Retained(s: Stores, f: Reference, c: Content): Stores {
    if f in s.contents then s else s.(contents := s.contents[f := c])
  }

  lemma AfterAdapterRaised(s: Stores, i: Invocation, w: DispatchWorld)
    requires w.adapter.Raised? || i.identity.invocationId !in s.custody
             || !Acceptable(w.adapter.response, i.identity, s.custody[i.identity.invocationId], w.observed)
    ensures AfterAdapter(s, i, w).outcome.Err? && AfterAdapter(s, i, w).writes == []
  {
    if w.adapter.Returned? && i.identity.invocationId in s.custody {
      AcceptsExactly(w.adapter.response, i.identity, s.custody[i.identity.invocationId], w.observed);
    }
  }

  lemma ContentIsAddressed(x: Accepted, response: Response, i: InvocationIdentity, c: Custody, o: Observations)
    requires Acceptable(response, i, c, o) && Determined(x, response, i, c, o)
    ensures x.reference.digest == OfContent(x.content) && x.result.invocationId == i.invocationId
  {
  }

  lemma AdapterRetains(s: Stores, i: Invocation, w: DispatchWorld, x: Accepted)
    requires w.adapter.Returned? && i.identity.invocationId in s.custody
    requires Accept(w.adapter.response, i.identity, s.custody[i.identity.invocationId], w.observed) == Ok(x)
    ensures AfterAdapter(s, i, w) == RetainContent(s, i, x, w)
  {
  }

  lemma KeptContent(s: Stores, x: Accepted)
    requires FilesKeyed(s) && x.reference.digest == OfContent(x.content)
    ensures x.reference in s.contents ==> s.contents[x.reference] == x.content
  {
  }

  /** The same effect, behind the write that retains the content if it is new. */
  lemma RetainedFirst(s: Stores, x: Accepted, f: Effect, e: Effect)
    requires e == if x.reference in s.contents then f else Put(PutContent(x.reference, x.content), f)
    ensures e.outcome == f.outcome && After(s, e) == After(Retained(s, x.reference, x.content), f)
  {
    if x.reference !in s.contents {
      AfterPut(s, PutContent(x.reference, x.content), f);
    }
  }

  lemma RetainShape(s: Stores, i: Invocation, w: DispatchWorld, x: Accepted)
    requires x.reference in s.contents ==> s.contents[x.reference] == x.content
    ensures var f := StoreResult(Retained(s, x.reference, x.content), i, x.result, w);
            RetainContent(s, i, x, w) == if x.reference in s.contents then f else Put(PutContent(x.reference, x.content), f)
  {
  }

  lemma CapturesBehind(s: Stores, x: Accepted, f: Effect, e: Effect, i: Invocation, now: int)
    requires e == if x.reference in s.contents then f else Put(PutContent(x.reference, x.content), f)
    requires i.identity.attemptId in s.attempts
    requires var t := Retained(s, x.reference, x.content); Captures(t, f, i, x.result, now, t)
    ensures Captures(s, e, i, x.result, now, Retained(s, x.reference, x.content))
  {
    RetainedFirst(s, x, f, e);
  }

  lemma RetainedIsStored(s: Stores, i: Invocation, w: DispatchWorld, x: Accepted)
    requires Marked(s, i) && (x.reference in s.contents ==> s.contents[x.reference] == x.content)
    ensures Captures(s, RetainContent(s, i, x, w), i, x.result, w.candidateAt, Retained(s, x.reference, x.content))
  {
    var t := Retained(s, x.reference, x.content);
    RetainShape(s, i, w, x);
    StoreResultExactly(t, i, x.result, w);
    CapturesBehind(s, x, StoreResult(t, i, x.result, w), RetainContent(s, i, x, w), i, w.candidateAt);
  }

  lemma AfterAdapterAccepted(s: Stores, i: Invocation, w: DispatchWorld) returns (x: Accepted)
    requires Marked(s, i) && FilesKeyed(s) && w.adapter.Returned? && i.identity.invocationId in s.custody
    requires Acceptable(w.adapter.response, i.identity, s.custody[i.identity.invocationId], w.observed)
    ensures Determined(x, w.adapter.response, i.identity, s.custody[i.identity.invocationId], w.observed)
    ensures Captures(s, AfterAdapter(s, i, w), i, x.result, w.candidateAt, Retained(s, x.reference, x.content))
  {
    var c := s.custody[i.identity.invocationId];
    AcceptsExactly(w.adapter.response, i.identity, c, w.observed);
    x := Accept(w.adapter.response, i.identity, c, w.observed).value;
    ContentIsAddressed(x, w.adapter.response, i.identity, c, w.observed);
    KeptContent(s, x);
    AdapterRetains(s, i, w, x);
    RetainedIsStored(s, i, w, x);
  }

  // ----- the adapter's custody calls

  /** A call that concerns the invocation and that the custody store takes. */
  predicate Taken(m: map<Id, Custody>, id: Id, c: CustodyCall) {
    && c.record.invocationId == id
    && match c
       case CreateCall(record) => id !in m && record.state == PreparedCustody && ValidCustody(record)
       case SaveCall(record, expected) => id in m && expected == OfCustody(m[id]) && CustodyMoves(m[id], record)
  }

  /** Custody after the adapter's calls, each taken or refused. */
  function CustodyAfter(m: map<Id, Custody>, id: Id, calls: seq<CustodyCall>): map<Id, Custody>
    decreases calls
  {
    if calls == [] then m
    else CustodyAfter(if Taken(m, id, calls[0]) then m[id := calls[0].record] else m, id, calls[1..])
  }

  lemma TakenIsGuarded(s: Stores, id: Id, c: CustodyCall)
    ensures Taken(s.custody, id, c) <==> c.record.invocationId == id && CustodyCallGuard(s, c).Ok?
  {
    if c.SaveCall? {
      CustodySavesAreMoves(s.custody, c.record, c.expectedDigest);
    }
  }

  lemma {:induction false} CallsLeave(s: Stores, i: Invocation, calls: seq<CustodyCall>, w: DispatchWorld)
    ensures var t := s.(custody := CustodyAfter(s.custody, i.identity.invocationId, calls));
            && CallAdapter(s, i, calls, w).outcome == AfterAdapter(t, i, w).outcome
            && After(s, CallAdapter(s, i, calls, w)) == After(t, AfterAdapter(t, i, w))
    decreases calls
  {
    if calls == [] {
      assert s.(custody := s.custody) == s;
    } else {
      var id := i.identity.invocationId;
      TakenIsGuarded(s, id, calls[0]);
      if Taken(s.custody, id, calls[0]) {
        var put := PutCustody(calls[0].record);
        CallsLeave(Apply(s, put), i, calls[1..], w);
        AfterPut(s, put, CallAdapter(Apply(s, put), i, calls[1..], w));
      } else {
        CallsLeave(s, i, calls[1..], w);
      }
    }
  }

  // ----- when a dispatch starts

  /** Everything that is checked before the first write. */
  ghost predicate Startable(s: Stores, i: Invocation, controller: string, w: DispatchWorld) {
    var id, attemptId := i.identity.invocationId, i.identity.attemptId;
    && i.state == Authorized && i.authorizedBy == Some(controller)
    && attemptId in s.attempts && attemptId in s.receipts && id !in s.results && id !in s.custody
    && PromptFile(i.identity.promptDigest) in s.contents
    && w.definitionsMatch && w.view.verified
    && var a, p := s.attempts[attemptId], s.receipts[attemptId];
       && a.state == Ready && a.runtimeIdentity.None? && a.candidateDigest.None? && a.cleanupOutcome.None?
       && a.authority == i.identity.authority && a.updatedAt <= w.boundAt
       && p.state == PreparedReceipt && p.attemptId == attemptId && p.relativePath == attemptId
       && p.exerciseId == a.authority.exerciseId && p.exerciseVersion == a.authority.exerciseVersion
       && p.templateCommit == a.authority.startingCommit && p.templateRepository == w.view.templateRepository
       && OfReceipt(p) == i.identity.workspaceReceiptDigest
       && p.workspaceRootDigest == w.view.rootDigest && p.workspaceRootDigest == i.identity.workspaceRootDigest
       && p.workspacePathDigest == w.view.pathDigest && p.workspacePathDigest == i.identity.workspacePathDigest
  }

  lemma GuardExactly(s: Stores, id: Id, expected: Digest, controller: string, w: DispatchWorld)
    requires AttemptsKeyed(s) && InvocationsKeyed(s) && FilesKeyed(s) && id in s.invocations
    requires OfIdentity(s.invocations[id].identity) == expected
    ensures Startable(s, s.invocations[id], controller, w) <==>
              && DispatchGuard(s, id, expected, controller, w).Ok?
              && s.attempts[s.invocations[id].identity.attemptId].updatedAt <= w.boundAt
  {
  }

  lemma DispatchWritesWhen(s: Stores, id: Id, expected: Digest, controller: string, w: DispatchWorld)
    ensures var e := DispatchEffect(s, id, expected, controller, w);
            var running := BindGuard(s, id, expected, w.boundAt);
            && (e.writes != [] <==>
                  DispatchGuard(s, id, expected, controller, w).Ok? && running.Ok? && SaveAttempt(s.attempts, running.value).Ok?)
            && (e.writes == [] ==> e.outcome.Err?)
  {
  }

  lemma BindsInTime(s: Stores, id: Id, expected: Digest, controller: string, w: DispatchWorld)
    requires DispatchGuard(s, id, expected, controller, w).Ok? && BindGuard(s, id, expected, w.boundAt).Ok?
    ensures s.attempts[s.invocations[id].identity.attemptId].updatedAt <= w.boundAt
  {
  }

  /** Without its start a dispatch writes nothing and says so; with it, it binds
      the attempt first. */
  lemma StartsExactly(s: Stores, id: Id, expected: Digest, controller: string, w: DispatchWorld)
    requires AttemptsKeyed(s) && InvocationsKeyed(s) && FilesKeyed(s)
    ensures var e := DispatchEffect(s, id, expected, controller, w);
            && (e.writes != [] <==>
                  && id in s.invocations && OfIdentity(s.invocations[id].identity) == expected
                  && Startable(s, s.invocations[id], controller, w))
            && (e.writes == [] ==> e.outcome.Err?)
  {
    DispatchWritesWhen(s, id, expected, controller, w);
    if id in s.invocations && OfIdentity(s.invocations[id].identity) == expected {
      GuardExactly(s, id, expected, controller, w);
      if Startable(s, s.invocations[id], controller, w) {
        BindSucceeds(s, id, expected, controller, w);
      } else if DispatchEffect(s, id, expected, controller, w).writes != [] {
        BindsInTime(s, id, expected, controller, w);
      }
    }
  }

  /** Why a dispatch does not start, as far as its command line tells. */
  lemma DispatchRefusals(s: Stores, id: Id, expected: Digest, controller: string, w: DispatchWorld)
    ensures var outcome := DispatchEffect(s, id, expected, controller, w).outcome;
            && (id !in s.invocations ==> outcome == Err("STORAGE_RECORD_MISSING"))
            && (id in s.invocations ==>
                  var i := s.invocations[id];
                  && (expected != OfIdentity(i.identity) ==> outcome == Err("INTEGRATION_IDENTITY_INVALID"))
                  && (expected == OfIdentity(i.identity) && i.state != Authorized ==>
                        outcome == Err("INTEGRATION_AUTHORIZATION_INVALID"))
                  && (expected == OfIdentity(i.identity) && i.state == Authorized && i.authorizedBy != Some(controller) ==>
                        outcome == Err("OPERATOR_CONTROLLER_MISMATCH")))
  {
    var guard := DispatchGuard(s, id, expected, controller, w);
    assert guard.Err? ==> DispatchEffect(s, id, expected, controller, w) == Refuse(guard.code);
  }

  // ----- the main result

  /** The directory when the adapter has made its custody calls. */
  function Called(s: Stores, i: Invocation, w: DispatchWorld): Stores
    requires i.identity.attemptId in s.attempts
  {
    s.(attempts := BoundAttempts(s, i.identity, w.boundAt),
       invocations := s.invocations[i.identity.invocationId := MarkedOf(i)],
       custody := CustodyAfter(s.custody, i.identity.invocationId, w.calls))
  }

  lemma DispatchUnfolds(s: Stores, id: Id, expected: Digest, controller: string, w: DispatchWorld)
    requires Inv(s) && DispatchEffect(s, id, expected, controller, w).writes != []
    ensures id in s.invocations && s.invocations[id].identity.attemptId in s.attempts
    ensures var i := s.invocations[id];
            var t := Called(s, i, w);
            var e := DispatchEffect(s, id, expected, controller, w);
            && e.outcome == AfterAdapter(t, MarkedOf(i), w).outcome
            && After(s, e) == After(t, AfterAdapter(t, MarkedOf(i), w))
  {
    BindShape(s, id, expected, controller, w);
    var i := s.invocations[id];
    var bind := PutAttempt(BoundOf(s.attempts[i.identity.attemptId], i.identity, w.boundAt));
    var t := Apply(s, bind);
    var mark := PutInvocation(MarkedOf(i));
    MarkShape(t, i, w);
    AfterPut(s, bind, MarkDispatching(t, i, w));
    AfterPut(t, mark, CallAdapter(Apply(t, mark), MarkedOf(i), w.calls, w));
    CallsLeave(Apply(t, mark), MarkedOf(i), w.calls, w);
  }

  /** The response is acceptable over the custody that the adapter has left. */
  ghost predicate Responds(s: Stores, id: Id, w: DispatchWorld)
    requires id in s.invocations
  {
    var m := CustodyAfter(s.custody, id, w.calls);
    && w.adapter.Returned? && id in m && Acceptable(w.adapter.response, s.invocations[id].identity, m[id], w.observed)
  }

  /** The candidate that dispatch returns and the directory it leaves. */
  ghost predicate Leaves(
    s: Stores, id: Id, w: DispatchWorld, x: Accepted, m: map<Id, Custody>, r: Result<Reply>, t: Stores)
    requires id in s.invocations && s.invocations[id].identity.attemptId in s.attempts
  {
    var i := s.invocations[id];
    var attemptId := i.identity.attemptId;
    var candidate := s.attempts[attemptId].(
                       state := Candidate, updatedAt := w.candidateAt,
                       runtimeIdentity := Some(OfIdentity(i.identity)), candidateDigest := Some(OfResult(x.result)));
    && r == Ok(AttemptReply(candidate))
    && t == Stores(
              s.attempts[attemptId := candidate],
              s.invocations[id := i.(state := Completed, resultDigest := Some(OfResult(x.result)))],
              m, s.results[id := x.result], s.receipts,
              if x.reference in s.contents then s.contents else s.contents[x.reference := x.content])
  }

  /** Custody `m` and the response determine a result, and `t` holds it. */
  ghost predicate Concludes(
    s: Stores, id: Id, w: DispatchWorld, m: map<Id, Custody>, r: Result<Reply>, t: Stores)
    requires id in s.invocations && s.invocations[id].identity.attemptId in s.attempts && id in m && w.adapter.Returned?
    requires Acceptable(w.adapter.response, s.invocations[id].identity, m[id], w.observed)
  {
    exists x ::
      && Determined(x, w.adapter.response, s.invocations[id].identity, m[id], w.observed)
      && Leaves(s, id, w, x, m, r, t)
  }

  /** The answer `r` and the directory `t` of a dispatch: it returns the
      candidate exactly if it starts, the adapter's custody and response are
      acceptable, and time does not go back.  It then leaves the CANDIDATE
      attempt, the COMPLETED invocation, the custody, the result and its content,
      and everything else as it was; without its start it leaves all. */
  ghost predicate DispatchAnswered(
    s: Stores, r: Result<Reply>, t: Stores, id: Id, expected: Digest, controller: string, w: DispatchWorld)
  {
    var starts := id in s.invocations && OfIdentity(s.invocations[id].identity) == expected
                  && Startable(s, s.invocations[id], controller, w);
    && (!starts ==> r.Err? && t == s)
    && (starts ==> (r.Ok? <==> Responds(s, id, w) && w.boundAt <= w.candidateAt))
    && (starts && Responds(s, id, w) && r.Ok? ==>
          Concludes(s, id, w, CustodyAfter(s.custody, id, w.calls), r, t))
  }

  lemma DispatchSucceedsExactly(s: Stores, id: Id, expected: Digest, controller: string, w: DispatchWorld)
    requires Inv(s)
    ensures var e := DispatchEffect(s, id, expected, controller, w);
            DispatchAnswered(s, e.outcome, After(s, e), id, expected, controller, w)
  {
    var e := DispatchEffect(s, id, expected, controller, w);
    StartsExactly(s, id, expected, controller, w);
    if e.writes != [] {
      DispatchUnfolds(s, id, expected, controller, w);
      var x := StartedDispatch(s, s.invocations[id], controller, w, e);
    } else {
      AfterDone(s, e);
    }
  }

  lemma CalledIsMarked(s: Stores, i: Invocation, controller: string, w: DispatchWorld)
    requires AttemptsKeyed(s) && ValidInvocation(i) && Startable(s, i, controller, w)
    ensures Marked(Called(s, i, w), MarkedOf(i))
    ensures Called(s, i, w).attempts[i.identity.attemptId].updatedAt == w.boundAt
  {
  }

  lemma FinishedLeaves(s: Stores, i: Invocation, w: DispatchWorld, x: Accepted, e: Effect)
    requires i.identity.invocationId in s.invocations && s.invocations[i.identity.invocationId] == i
    requires i.identity.attemptId in s.attempts && x.result.invocationId == i.identity.invocationId
    requires var t := Called(s, i, w);
             && e.outcome == Ok(AttemptReply(CandidateOf(t.attempts[i.identity.attemptId], x.result, w.candidateAt)))
             && After(s, e) == Finished(Retained(t, x.reference, x.content), MarkedOf(i), x.result, w.candidateAt)
    ensures var m := CustodyAfter(s.custody, i.identity.invocationId, w.calls);
            Leaves(s, i.identity.invocationId, w, x, m, e.outcome, After(s, e))
  {
  }

  lemma StartedDispatch(s: Stores, i: Invocation, controller: string, w: DispatchWorld, e: Effect) returns (x: Accepted)
    requires AttemptsKeyed(s) && FilesKeyed(s) && ValidInvocation(i) && Startable(s, i, controller, w)
    requires i.identity.invocationId in s.invocations && s.invocations[i.identity.invocationId] == i
    requires e.outcome == AfterAdapter(Called(s, i, w), MarkedOf(i), w).outcome
    requires After(s, e) == After(Called(s, i, w), AfterAdapter(Called(s, i, w), MarkedOf(i), w))
    ensures var m := CustodyAfter(s.custody, i.identity.invocationId, w.calls);
            && (e.outcome.Ok? <==> Responds(s, i.identity.invocationId, w) && w.boundAt <= w.candidateAt)
            && (e.outcome.Ok? ==>
                  && Determined(x, w.adapter.response, i.identity, m[i.identity.invocationId], w.observed)
                  && Leaves(s, i.identity.invocationId, w, x, m, e.outcome, After(s, e)))
  {
    var t := Called(s, i, w);
    if Responds(s, i.identity.invocationId, w) {
      CalledIsMarked(s, i, controller, w);
      x := AfterAdapterAccepted(t, MarkedOf(i), w);
      if e.outcome.Ok? {
        var m := CustodyAfter(s.custody, i.identity.invocationId, w.calls);
        ContentIsAddressed(x, w.adapter.response, i.identity, m[i.identity.invocationId], w.observed);
        FinishedLeaves(s, i, w, x, e);
      }
    } else {
      x := *;
      AfterAdapterRaised(t, MarkedOf(i), w);
    }
  }

  // ----- on a disk that does not stop

  lemma ClosingIsShort(s: Stores, i: Invocation, w: DispatchWorld)
    ensures |AfterAdapter(s, i, w).writes| <= 4
  {
    if w.adapter.Returned? && i.identity.invocationId in s.custody {
      var accepted := Accept(w.adapter.response, i.identity, s.custody[i.identity.invocationId], w.observed);
      if accepted.Ok? {
        RetainingIsShort(s, i, accepted.value, w);
      }
    }
  }

  lemma RetainingIsShort(s: Stores, i: Invocation, x: Accepted, w: DispatchWorld)
    ensures |RetainContent(s, i, x, w).writes| <= 4
  {
    forall t: Stores ensures |StoreResult(t, i, x.result, w).writes| <= 3 {
      var u := Apply(t, PutResult(x.result));
      assert |Complete(u, i, x.result, w).writes| <= 2;
    }
  }

  /** The answer `r` and the directory `t` after the adapter's end: accepted
      exactly if it returned, its custody is there, the response is acceptable
      over it, and time does not go back; a response that is not acceptable
      changes nothing. */
  ghost predicate AdapterAnswered(s: Stores, r: Result<Reply>, t: Stores, i: Invocation, w: DispatchWorld)
    requires i.identity.attemptId in s.attempts
  {
    var id := i.identity.invocationId;
    var acceptable := w.adapter.Returned? && id in s.custody
                      && Acceptable(w.adapter.response, i.identity, s.custody[id], w.observed);
    && (r.Ok? <==> acceptable && s.attempts[i.identity.attemptId].updatedAt <= w.candidateAt)
    && (!acceptable ==> t == s)
  }

  lemma AdapterAnswers(d: Disk, i: Invocation, w: DispatchWorld)
    requires Marked(d.stores, i) && FilesKeyed(d.stores) && d.writesLeft >= 4
    ensures var run := Run(d, AfterAdapter(d.stores, i, w));
            AdapterAnswered(d.stores, run.1, run.0.stores, i, w)
  {
    var id := i.identity.invocationId;
    ClosingIsShort(d.stores, i, w);
    UncutRun(d, AfterAdapter(d.stores, i, w));
    if w.adapter.Returned? && id in d.stores.custody
       && Acceptable(w.adapter.response, i.identity, d.stores.custody[id], w.observed) {
      var x := AfterAdapterAccepted(d.stores, i, w);
    } else {
      AfterAdapterRaised(d.stores, i, w);
      AfterDone(d.stores, AfterAdapter(d.stores, i, w));
    }
  }

  lemma {:induction false} CallsAreCounted(s: Stores, i: Invocation, calls: seq<CustodyCall>, w: DispatchWorld)
    ensures |CallAdapter(s, i, calls, w).writes| <= |calls| + 4
    decreases calls
  {
    if calls == [] {
      ClosingIsShort(s, i, w);
    } else {
      CallsAreCounted(Apply(s, PutCustody(calls[0].record)), i, calls[1..], w);
      CallsAreCounted(s, i, calls[1..], w);
    }
  }

  lemma DispatchIsCounted(s: Stores, id: Id, expected: Digest, controller: string, w: DispatchWorld)
    ensures |DispatchEffect(s, id, expected, controller, w).writes| <= |w.calls| + 6
  {
    var running := BindGuard(s, id, expected, w.boundAt);
    var guard := DispatchGuard(s, id, expected, controller, w);
    if running.Ok? && guard.Ok? {
      var t := Apply(s, PutAttempt(running.value));
      var marked := TransitionInvocation(guard.value, Dispatching, None, None, None);
      if marked.Ok? {
        CallsAreCounted(Apply(t, PutInvocation(marked.value)), marked.value, w.calls, w);
      }
    }
  }

  /** A dispatch on a disk with room for its writes answers exactly so. */
  lemma DispatchAnswers(d: Disk, id: Id, expected: Digest, controller: string, w: DispatchWorld)
    requires Inv(d.stores) && d.writesLeft >= |w.calls| + 6
    ensures var run := Run(d, DispatchEffect(d.stores, id, expected, controller, w));
            DispatchAnswered(d.stores, run.1, run.0.stores, id, expected, controller, w)
  {
    DispatchIsCounted(d.stores, id, expected, controller, w);
    DispatchSucceedsExactly(d.stores, id, expected, controller, w);
    UncutRun(d, DispatchEffect(d.stores, id, expected, controller, w));
  }

  // ----- a run that goes well

  lemma {:induction false} TakenCalls(m: map<Id, Custody>, id: Id, c: CustodyCall, rest: seq<CustodyCall>)
    requires Taken(m, id, c)
    ensures CustodyAfter(m, id, [c] + rest) == CustodyAfter(m[id := c.record], id, rest)
  {
    assert ([c] + rest)[1..] == rest;
  }

  lemma TakenSave(m: map<Id, Custody>, id: Id, c: Custody, d: Custody, rest: seq<CustodyCall>)
    requires c.invocationId == d.invocationId == id && CustodyMoves(c, d)
    ensures CustodyAfter(m[id := c], id, [SaveCall(d, OfCustody(c))] + rest) == CustodyAfter(m[id := d], id, rest)
  {
    TakenCalls(m[id := c], id, SaveCall(d, OfCustody(c)), rest);
    assert m[id := c][id := d] == m[id := d];
  }

  /** The custody calls of a clean run are all taken, from PREPARED on, and leave
      custody that is ABSENCE_VERIFIED. */
  lemma GoodCallsLeave(m: map<Id, Custody>, i: InvocationIdentity, l: Launch)
    requires i.invocationId !in m
    ensures CustodyAfter(m, i.invocationId, GoodCalls(i, l)) == m[i.invocationId := VerifiedOf(i, l)]
    ensures EndedWell(VerifiedOf(i, l), i)
  {
    var cs, id := GoodCalls(i, l), i.invocationId;
    assert cs == [cs[0]] + cs[1..] && cs[1..] == [cs[1]] + cs[2..] && cs[2..] == [cs[2]] + cs[3..];
    assert cs[3..] == [cs[3]] + cs[4..] && cs[4..] == [cs[4]] + [];
    GoodMoves(i, l);
    TakenCalls(m, id, cs[0], cs[1..]);
    TakenSave(m, id, PreparedOf(i, l), AssignedOf(i, l), cs[2..]);
    TakenSave(m, id, AssignedOf(i, l), SentOf(i, l), cs[3..]);
    TakenSave(m, id, SentOf(i, l), ExitedOf(i, l), cs[4..]);
    TakenSave(m, id, ExitedOf(i, l), VerifiedOf(i, l), []);
  }

  /** A dispatch that starts, whose adapter leaves custody `c` and a response
      that is acceptable over it, returns the candidate. */
  lemma CleanDispatchSucceeds(
    s: Stores, r: Result<Reply>, t: Stores, id: Id, expected: Digest, controller: string, w: DispatchWorld, c: Custody)
    requires DispatchAnswered(s, r, t, id, expected, controller, w)
    requires id in s.invocations && OfIdentity(s.invocations[id].identity) == expected
    requires Startable(s, s.invocations[id], controller, w)
    requires CustodyAfter(s.custody, id, w.calls) == s.custody[id := c]
    requires w.adapter.Returned? && Acceptable(w.adapter.response, s.invocations[id].identity, c, w.observed)
    requires w.boundAt <= w.candidateAt
    ensures Concludes(s, id, w, s.custody[id := c], r, t)
  {
  }

  /** With such calls, an acceptable response and time that does not go back, a
      dispatch that starts returns the candidate. */
  lemma GoodDispatchSucceeds(s: Stores, id: Id, controller: string, w: DispatchWorld, l: Launch)
    requires Inv(s) && id in s.invocations && Startable(s, s.invocations[id], controller, w)
    requires w.calls == GoodCalls(s.invocations[id].identity, l) && w.adapter.Returned? && w.boundAt <= w.candidateAt
    requires var i := s.invocations[id].identity;
             Acceptable(w.adapter.response, i, VerifiedOf(i, l), w.observed)
    ensures var i := s.invocations[id].identity;
            var e := DispatchEffect(s, id, OfIdentity(i), controller, w);
            Concludes(s, id, w, s.custody[id := VerifiedOf(i, l)], e.outcome, After(s, e))
  {
    var i := s.invocations[id].identity;
    var e := DispatchEffect(s, id, OfIdentity(i), controller, w);
    GoodCallsLeave(s.custody, i, l);
    DispatchSucceedsExactly(s, id, OfIdentity(i), controller, w);
    CleanDispatchSucceeds(s, e.outcome, After(s, e), id, OfIdentity(i), controller, w, VerifiedOf(i, l));
  }
}
