/** Complete runs from an empty directory whose adapter is stopped: the request
    was sent, the job ended with nothing alive, and no response came back. */
module StoppedRuns {
  import opened Outcomes
  import opened Records
  import opened Stores
  import opened Moves
  import opened Commands
  import opened Protocol
  import opened Histories
  import opened RecoveryProofs
  import opened GoodDispatch
  import opened DispatchFacts
  import opened WholeRuns
  import opened CutDispatches
  import opened Operators

  function StoppedOf(i: InvocationIdentity, l: Launch): Custody {
    SentOf(i, l).(state := Terminated, exitCode := Some(1), activeCount := Some(0), firstFailure := Some("CODEX_TIMEOUT"))
  }

  /** The custody calls of a run that ends with a timeout. */
  function StoppedCalls(i: InvocationIdentity, l: Launch): seq<CustodyCall> {
    [ CreateCall(PreparedOf(i, l)),
      SaveCall(AssignedOf(i, l), OfCustody(PreparedOf(i, l))),
      SaveCall(SentOf(i, l), OfCustody(AssignedOf(i, l))),
      SaveCall(StoppedOf(i, l), OfCustody(SentOf(i, l))) ]
  }

  lemma StoppedMoves(i: InvocationIdentity, l: Launch)
    ensures CustodyMoves(SentOf(i, l), StoppedOf(i, l))
  {
  }

  lemma SaveLeaves(s: Stores, i: Invocation, c: Custody, d: Custody, rest: seq<CustodyCall>, w: DispatchWorld)
    requires c.invocationId == d.invocationId == i.identity.invocationId && CustodyMoves(c, d)
    ensures var calls := [SaveCall(d, OfCustody(c))] + rest;
            After(WithCustody(s, c), CallAdapter(WithCustody(s, c), i, calls, w)) ==
            After(WithCustody(s, d), CallAdapter(WithCustody(s, d), i, rest, w))
  {
    var calls, t := [SaveCall(d, OfCustody(c))] + rest, WithCustody(s, c);
    CustodySavesAreMoves(t.custody, d, OfCustody(c));
    LaterCustody(s, c, d);
    assert calls[1..] == rest;
    AfterPut(t, PutCustody(d), CallAdapter(Apply(t, PutCustody(d)), i, rest, w));
  }

  lemma CreateLeaves(s: Stores, i: Invocation, c: Custody, rest: seq<CustodyCall>, w: DispatchWorld)
    requires c.invocationId == i.identity.invocationId && CreateCustody(s.custody, c).Ok?
    ensures After(s, CallAdapter(s, i, [CreateCall(c)] + rest, w)) ==
            After(WithCustody(s, c), CallAdapter(WithCustody(s, c), i, rest, w))
  {
    var calls := [CreateCall(c)] + rest;
    assert calls[1..] == rest;
    AfterPut(s, PutCustody(c), CallAdapter(Apply(s, PutCustody(c)), i, rest, w));
  }

  lemma StoppedCallsLeave(s: Stores, i: Invocation, l: Launch, w: DispatchWorld)
    requires i.identity.invocationId !in s.custody && w.adapter.Raised?
    ensures After(s, CallAdapter(s, i, StoppedCalls(i.identity, l), w)) == WithCustody(s, StoppedOf(i.identity, l))
  {
    var cs := StoppedCalls(i.identity, l);
    var c0, c1 := PreparedOf(i.identity, l), AssignedOf(i.identity, l);
    var c2, c3 := SentOf(i.identity, l), StoppedOf(i.identity, l);
    assert cs == [cs[0]] + cs[1..] && cs[1..] == [cs[1]] + cs[2..];
    assert cs[2..] == [cs[2]] + cs[3..] && cs[3..] == [cs[3]] + [];
    GoodMoves(i.identity, l);
    StoppedMoves(i.identity, l);
    CreateLeaves(s, i, c0, cs[1..], w);
    SaveLeaves(s, i, c0, c1, cs[2..], w);
    SaveLeaves(s, i, c1, c2, cs[3..], w);
    SaveLeaves(s, i, c2, c3, [], w);
    NoResponseLeaves(WithCustody(s, c3), i, w);
  }

  lemma NoResponseLeaves(s: Stores, i: Invocation, w: DispatchWorld)
    requires w.adapter.Raised?
    ensures After(s, CallAdapter(s, i, [], w)) == s
  {
  }

  /** What a dispatch leaves whose adapter makes these calls and then raises. */
  function StoppedStores(s: Stores, i: Invocation, l: Launch, now: int): Stores
    requires i.identity.attemptId in s.attempts
  {
    WithCustody(
      s.(attempts := BoundAttempts(s, i.identity, now),
         invocations := s.invocations[i.identity.invocationId := MarkedOf(i)]),
      StoppedOf(i.identity, l))
  }

  lemma StoppedDispatch(s: Stores, id: Id, expected: Digest, controller: string, w: DispatchWorld, l: Launch)
    requires Inv(s) && DispatchEffect(s, id, expected, controller, w).writes != []
    requires id in s.invocations && s.invocations[id].identity.attemptId in s.attempts && id !in s.custody
    requires w.adapter.Raised? && w.calls == StoppedCalls(s.invocations[id].identity, l)
    ensures After(s, DispatchEffect(s, id, expected, controller, w)) == StoppedStores(s, s.invocations[id], l, w.boundAt)
  {
    BindShape(s, id, expected, controller, w);
    var i := s.invocations[id];
    var bind := PutAttempt(BoundOf(s.attempts[i.identity.attemptId], i.identity, w.boundAt));
    var mark := PutInvocation(MarkedOf(i));
    var t := Apply(s, bind);
    MarkShape(t, i, w);
    AfterPut(s, bind, MarkDispatching(t, i, w));
    AfterPut(t, mark, CallAdapter(Apply(t, mark), MarkedOf(i), w.calls, w));
    StoppedCallsLeave(Apply(t, mark), MarkedOf(i), l, w);
  }

  /** A dispatch of the prepared and authorized invocation that is stopped. */
  predicate Stops(y: Setup, l: Launch, w: DispatchWorld) {
    && Sound(y) && w.view == y.view && w.definitionsMatch && y.now <= w.boundAt
    && w.adapter.Raised? && w.calls == StoppedCalls(InvocationOf(y).identity, l)
  }

  function Authorized(y: Setup): Stores {
    WithInvocation(y, AuthorizedBy(InvocationOf(y), y.controller, y.now))
  }

  function RequestOf(y: Setup): Request {
    Request(y.inputs.invocationId, OfIdentity(InvocationOf(y).identity), y.controller)
  }

  function StoppedDispatchOf(y: Setup, w: DispatchWorld): Effect {
    DispatchEffect(Authorized(y), y.inputs.invocationId, OfIdentity(InvocationOf(y).identity), y.controller, w)
  }

  lemma StoppedDispatchStarts(y: Setup, l: Launch, w: DispatchWorld)
    requires Stops(y, l, w)
    ensures Inv(Authorized(y)) && StoppedDispatchOf(y, w).writes != []
    ensures After(Authorized(y), StoppedDispatchOf(y, w)) ==
            StoppedStores(Authorized(y), AuthorizedBy(InvocationOf(y), y.controller, y.now), l, w.boundAt)
  {
    var s, j := Authorized(y), AuthorizedBy(InvocationOf(y), y.controller, y.now);
    FourCommandsAuthorize(y);
    InvariantOverAllHistories(FirstCommands(y) + NextCommands(y));
    AuthorizedStarts(y, w);
    StartsExactly(s, y.inputs.invocationId, OfIdentity(j.identity), y.controller, w);
    StoppedDispatch(s, y.inputs.invocationId, OfIdentity(j.identity), y.controller, w, l);
  }

  lemma StoppedDispatchWaits(y: Setup, l: Launch, w: DispatchWorld)
    requires Stops(y, l, w)
    ensures var t := After(Authorized(y), StoppedDispatchOf(y, w));
            Inv(t) && Plan(t, RequestOf(y), LookAt(t, InvocationOf(y).identity, w.boundAt)).Ok?
  {
    var s, ws := Authorized(y), StoppedDispatchOf(y, w).writes;
    var id, i := y.inputs.invocationId, InvocationOf(y).identity;
    StoppedDispatchStarts(y, l, w);
    var t := After(s, StoppedDispatchOf(y, w));
    assert ws[..|ws|] == ws;
    CutKeepsInvariant(s, id, OfIdentity(i), y.controller, w, |ws|);
    assert Waits(t, i);
    CutDispatchIsRecoverable(s, id, OfIdentity(i), y.controller, w, |ws|, LookAt(t, i, w.boundAt));
    RefusalsWriteNothing(t, RequestOf(y), LookAt(t, i, w.boundAt));
  }

  /** From an empty directory, a run whose adapter is stopped is recovered. */
  lemma StoppedRunRecovers(y: Setup, l: Launch, w: DispatchWorld)
    requires Stops(y, l, w)
    ensures History(EMPTY, FirstCommands(y) + NextCommands(y)) == Authorized(y)
    ensures var t := After(Authorized(y), StoppedDispatchOf(y, w));
            var v := LookAt(t, InvocationOf(y).identity, w.boundAt);
            Recovered(After(t, Recover(t, RequestOf(y), v)), RequestOf(y), v)
  {
    FourCommandsAuthorize(y);
    StoppedDispatchWaits(y, l, w);
    var t := After(Authorized(y), StoppedDispatchOf(y, w));
    FullRunRecovers(t, RequestOf(y), LookAt(t, InvocationOf(y).identity, w.boundAt));
  }

  /** The same run, its recovery cut after two writes: the invocation is
      UNCERTAIN, and another controller than the one who authorized it and
      began the recovery can cancel it. */
  lemma AnotherCancelsTheRecovery(y: Setup, l: Launch, w: DispatchWorld, other: string)
    requires Stops(y, l, w) && other != y.controller
    ensures var t := After(Authorized(y), StoppedDispatchOf(y, w));
            var v := LookAt(t, InvocationOf(y).identity, w.boundAt);
            var u := ApplyAll(t, Cut(Recover(t, RequestOf(y), v).writes, 2));
            var id := y.inputs.invocationId;
            && id in u.invocations && u.invocations[id].state == Uncertain
            && u.invocations[id].authorizedBy == Some(y.controller)
            && CancelEffect(u, id, OfIdentity(u.invocations[id].identity), other).outcome ==
               Ok(InvocationReply(AbortedOf(u.invocations[id])))
  {
    StoppedDispatchStarts(y, l, w);
    StoppedDispatchWaits(y, l, w);
    var t := After(Authorized(y), StoppedDispatchOf(y, w));
    var v := LookAt(t, InvocationOf(y).identity, w.boundAt);
    RecoveryCutInDoubt(t, RequestOf(y), v);
    var u := ApplyAll(t, Cut(Recover(t, RequestOf(y), v).writes, 2));
    CancelWrites(u, y.inputs.invocationId, OfIdentity(u.invocations[y.inputs.invocationId].identity), other);
  }

  /** The same dispatch, cut when it has just marked its invocation: no later
      history moves the invocation out of DISPATCHING. */
  lemma CutBeforeCustodyStrands(y: Setup, l: Launch, w: DispatchWorld, es: seq<Episode>)
    requires Stops(y, l, w)
    ensures var t := ApplyAll(Authorized(y), Cut(StoppedDispatchOf(y, w).writes, 2));
            var id := y.inputs.invocationId;
            && id in t.invocations && t.invocations[id].state == Dispatching
            && id in History(t, es).invocations && History(t, es).invocations[id].state == Dispatching
  {
    var s, ws := Authorized(y), StoppedDispatchOf(y, w).writes;
    var id, expected := y.inputs.invocationId, OfIdentity(InvocationOf(y).identity);
    StoppedDispatchStarts(y, l, w);
    DispatchMarks(s, id, expected, y.controller, w);
    CutKeepsInvariant(s, id, expected, y.controller, w, 2);
    StrandedForever(ApplyAll(s, ws[..2]), es, id);
  }

  lemma DispatchMarks(s: Stores, id: Id, expected: Digest, controller: string, w: DispatchWorld)
    requires InvocationsKeyed(s) && DispatchEffect(s, id, expected, controller, w).writes != []
    ensures |DispatchEffect(s, id, expected, controller, w).writes| >= 2
    ensures var t := ApplyAll(s, DispatchEffect(s, id, expected, controller, w).writes[..2]);
            && id in t.invocations && t.invocations[id].state == Dispatching
            && t.custody == s.custody
  {
    BindShape(s, id, expected, controller, w);
    var i := s.invocations[id];
    var bind := PutAttempt(BoundOf(s.attempts[i.identity.attemptId], i.identity, w.boundAt));
    MarkShape(Apply(s, bind), i, w);
    TwoWrites(s, DispatchEffect(s, id, expected, controller, w).writes);
  }

  /** Two writes into its recovery a stopped dispatch is UNCERTAIN. */
  lemma RecoveryCutInDoubt(t: Stores, q: Request, v: RecoveryWorld)
    requires Loads(t) && Plan(t, q, v).Ok?
    requires q.invocationId in t.custody && t.custody[q.invocationId].state == Terminated
    requires q.invocationId in t.invocations && t.invocations[q.invocationId].state == Dispatching
    ensures var u := ApplyAll(t, Cut(Recover(t, q, v).writes, 2));
            && Loads(u) && q.invocationId in u.invocations
            && u.invocations[q.invocationId] == UncertainOf(t.invocations[q.invocationId])
  {
    PlansAreSound(t, q, v);
    AcceptedRecoveryWrites(t, q, v);
    var p := Plan(t, q, v).value;
    AnyCutRemains(t, q, v, RecoveryWrites(p), 2);
    FirstRecoveryWrites(p);
    TwoWrites(t, RecoveryWrites(p));
  }

  lemma FirstRecoveryWrites(p: Recovery)
    requires p.custody.state == Terminated && p.invocation.state == Dispatching
    ensures |RecoveryWrites(p)| >= 2
    ensures RecoveryWrites(p)[0] == PutCustody(p.verified)
    ensures RecoveryWrites(p)[1] == PutInvocation(UncertainOf(p.invocation))
  {
  }

  lemma TwoWrites(s: Stores, ws: seq<Write>)
    requires |ws| >= 2
    ensures ApplyAll(s, ws[..2]) == Apply(Apply(s, ws[0]), ws[1])
  {
    assert ws[..2][1..] == [ws[1]] && [ws[1]][1..] == [];
    assert ApplyAll(Apply(s, ws[0]), [ws[1]]) == ApplyAll(Apply(Apply(s, ws[0]), ws[1]), []);
  }
}
