/** What operators can end: who may cancel an invocation, and which command
    ends an attempt that still has its workspace. */
module Operators {
  import opened Outcomes
  import opened Records
  import opened Lifecycle
  import opened Stores
  import opened Moves
  import opened Commands
  import opened Protocol
  import opened Histories
  import opened DispatchFrame
  import opened RecoveryProofs

  // ----- cancelling

  /** The controller is compared for AUTHORIZED invocations only. */
  predicate Cancellable(i: Invocation, controller: string) {
    i.state == Uncertain || (i.state == Authorized && i.authorizedBy == Some(controller))
  }

  lemma AbortTransition(i: Invocation)
    requires ValidInvocation(i)
    ensures TransitionInvocation(i, AbortedInvocation, None, None, None) ==
            if i.state in {Uncertain, Authorized} then Ok(AbortedOf(i)) else Err("INTEGRATION_TRANSITION_INVALID")
  {
  }

  lemma AbortIsStored(s: Stores, id: Id)
    requires InvocationsKeyed(s) && id in s.invocations && s.invocations[id].state in {Uncertain, Authorized}
    ensures var aborted := AbortedOf(s.invocations[id]);
            MoveInvocation(s, s.invocations[id], Ok(aborted)) == Effect([PutInvocation(aborted)], Ok(InvocationReply(aborted)))
  {
    InvocationSavesAreMoves(s.invocations, AbortedOf(s.invocations[id]), OfInvocation(s.invocations[id]));
  }

  /** Cancelling writes exactly if it names a stored invocation with its exact
      identity that this controller may cancel; its one write then aborts it. */
  lemma CancelWrites(s: Stores, id: Id, expected: Digest, controller: string)
    requires InvocationsKeyed(s)
    ensures CancelEffect(s, id, expected, controller).writes != [] <==>
              && id in s.invocations && OfIdentity(s.invocations[id].identity) == expected
              && Cancellable(s.invocations[id], controller)
    ensures CancelEffect(s, id, expected, controller).writes != [] ==>
              var aborted := AbortedOf(s.invocations[id]);
              CancelEffect(s, id, expected, controller) == Effect([PutInvocation(aborted)], Ok(InvocationReply(aborted)))
    ensures CancelEffect(s, id, expected, controller).writes == [] ==>
              CancelEffect(s, id, expected, controller).outcome.Err?
  {
    if id in s.invocations {
      AbortTransition(s.invocations[id]);
      if s.invocations[id].state in {Uncertain, Authorized} {
        AbortIsStored(s, id);
      }
    }
  }

  /** An UNCERTAIN invocation that one controller authorized is aborted by any
      other, and keeps the name of the first. */
  lemma AnyoneCancelsUncertain(s: Stores, id: Id, controller: string, other: string)
    requires InvocationsKeyed(s) && id in s.invocations && s.invocations[id].state == Uncertain
    requires s.invocations[id].authorizedBy == Some(controller) && controller != other
    ensures var e := Episode(CancelCommand(id, OfIdentity(s.invocations[id].identity), other), 1);
            var t := AfterEpisode(s, e);
            && t.invocations == s.invocations[id := AbortedOf(s.invocations[id])]
            && t.invocations[id].state == AbortedInvocation && t.invocations[id].authorizedBy == Some(controller)
            && t.attempts == s.attempts
  {
    var expected := OfIdentity(s.invocations[id].identity);
    CancelWrites(s, id, expected, other);
    var ws := [PutInvocation(AbortedOf(s.invocations[id]))];
    assert Execute(s, CancelCommand(id, expected, other)).writes == ws;
    assert Cut(ws, 1) == ws && ws[1..] == [];
    assert ApplyAll(s, ws) == ApplyAll(Apply(s, ws[0]), []);
  }

  /** Cancelling an UNCERTAIN invocation takes nothing from its recovery: the
      same recovery is accepted afterwards and only has the abort behind it. */
  lemma CancelKeepsRecovery(s: Stores, q: Request, w: RecoveryWorld)
    requires Loads(s) && Plan(s, q, w).Ok? && Plan(s, q, w).value.invocation.state == Uncertain
    ensures var p := Plan(s, q, w).value;
            Plan(Apply(s, PutInvocation(AbortedOf(p.invocation))), q, w) == Ok(p.(invocation := AbortedOf(p.invocation)))
  {
    PlansAreSound(s, q, w);
    PlannedAttempt(s, q.invocationId, q.expected, q.controller, w.now);
    RecordsAfterInvocation(s, q, AbortedOf(Plan(s, q, w).value.invocation));
  }

  // ----- ending attempts that have a workspace

  /** No write ends this attempt as ABORTED. */
  predicate EndsNot(id: Id, ws: seq<Write>) {
    forall w | w in ws :: w.PutAttempt? && w.attempt.attemptId == id ==> w.attempt.state != Aborted
  }

  lemma {:induction false} UnendedStays(s: Stores, ws: seq<Write>, n: nat, id: Id)
    requires EndsNot(id, ws) && n <= |ws|
    requires id in s.attempts && s.attempts[id].state != Aborted
    ensures id in ApplyAll(s, ws[..n]).attempts && ApplyAll(s, ws[..n]).attempts[id].state != Aborted
    decreases n
  {
    if n > 0 {
      assert ws[0] in ws && ws[..n][1..] == ws[1..][..n - 1];
      assert EndsNot(id, ws[1..]);
      UnendedStays(Apply(s, ws[0]), ws[1..], n - 1, id);
    }
  }

  lemma UnendedCut(s: Stores, ws: seq<Write>, n: nat, id: Id)
    requires EndsNot(id, ws) && id in s.attempts && s.attempts[id].state != Aborted
    ensures id in ApplyAll(s, Cut(ws, n)).attempts && ApplyAll(s, Cut(ws, n)).attempts[id].state != Aborted
  {
    UnendedStays(s, ws, if n <= |ws| then n else |ws|, id);
    assert ws[..|ws|] == ws;
  }

  lemma OwnWritesEndNothing(i: InvocationIdentity, ws: seq<Write>, id: Id)
    requires AllOwn(i, ws)
    ensures EndsNot(id, ws)
  {
    forall w | w in ws && w.PutAttempt?
      ensures w.attempt.state != Aborted
    {
      assert Owns(i, w);
    }
  }

  lemma RecoveryEndsNot(s: Stores, q: Request, w: RecoveryWorld, id: Id)
    requires Loads(s) && id in s.attempts && s.attempts[id].state == Ready
    ensures EndsNot(id, Recover(s, q, w).writes)
  {
    RefusalsWriteNothing(s, q, w);
    if Plan(s, q, w).Ok? {
      PlansAreSound(s, q, w);
      AcceptedRecoveryWrites(s, q, w);
      PlanEndsNot(Plan(s, q, w).value, id);
    }
  }

  lemma PlanEndsNot(p: Recovery, id: Id)
    requires p.attempt.state == Running ==> p.aborted.attemptId != id
    ensures EndsNot(id, RecoveryWrites(p))
  {
  }

  lemma DispatchEndsNot(s: Stores, id: Id, expected: Digest, controller: string, w: DispatchWorld, a: Id)
    ensures EndsNot(a, DispatchEffect(s, id, expected, controller, w).writes)
  {
    var ws := DispatchEffect(s, id, expected, controller, w).writes;
    if ws != [] {
      DispatchOwns(s, id, expected, controller, w);
      OwnWritesEndNothing(s.invocations[id].identity, ws, a);
    }
  }

  lemma DiscardEndsItsOwn(s: Stores, id: Id, v: WorkspaceView, q: Digest, cleanup: string, now: int, a: Id)
    requires AttemptsKeyed(s) && a != id
    ensures EndsNot(a, DiscardEffect(s, id, v, q, cleanup, now).writes)
  {
  }

  lemma PreparationEndsNot(s: Stores, id: Id, v: WorkspaceView, committed: bool, now: int, a: Id)
    ensures EndsNot(a, PrepareWorkspaceEffect(s, id, v, committed, now).writes)
  {
  }

  lemma ManualEndsNot(
    s: Stores, id: Id, target: AttemptState, candidate: Option<Digest>, cleanup: Option<string>, now: int, a: Id)
    requires AttemptsKeyed(s) && a in s.attempts && s.attempts[a].state == Ready && a in s.receipts
    ensures EndsNot(a, TransitionEffect(s, id, target, candidate, cleanup, now).writes)
  {
  }

  lemma PrepareInvocationEndsNot(s: Stores, id: Id, v: WorkspaceView, x: InvocationInputs, a: Id)
    ensures EndsNot(a, PrepareInvocationEffect(s, id, v, x).writes)
  {
  }

  lemma MoveEndsNot(s: Stores, current: Invocation, moved: Result<Invocation>, a: Id)
    ensures EndsNot(a, MoveInvocation(s, current, moved).writes)
  {
  }

  lemma InvocationCommandsEndNot(s: Stores, c: Command, a: Id)
    requires c.AuthorizeCommand? || c.RejectCommand? || c.CancelCommand?
    ensures EndsNot(a, Execute(s, c).writes)
  {
    if c.invocationId in s.invocations {
      var i := s.invocations[c.invocationId];
      match c
      case AuthorizeCommand(_, _, controller, now) =>
        MoveEndsNot(s, i, TransitionInvocation(i, Authorized, Some(controller), Some(now), None), a);
      case RejectCommand(_, _) => MoveEndsNot(s, i, TransitionInvocation(i, Rejected, None, None, None), a);
      case CancelCommand(_, _, _) => MoveEndsNot(s, i, TransitionInvocation(i, AbortedInvocation, None, None, None), a);
    }
  }

  lemma OthersEndNot(s: Stores, c: Command, a: Id)
    requires Inv(s) && a in s.attempts && s.attempts[a].state == Ready && a in s.receipts
    requires !(c.DiscardWorkspaceCommand? && c.attemptId == a)
    ensures EndsNot(a, Execute(s, c).writes)
  {
    match c
    case CreateAttemptCommand(b) =>
    case PrepareWorkspaceCommand(id, v, committed, now) => PreparationEndsNot(s, id, v, committed, now, a);
    case DiscardWorkspaceCommand(id, v, q, cleanup, now) => DiscardEndsItsOwn(s, id, v, q, cleanup, now, a);
    case TransitionAttemptCommand(id, target, candidate, cleanup, now) =>
      ManualEndsNot(s, id, target, candidate, cleanup, now, a);
    case DispatchCommand(id, expected, controller, w) => DispatchEndsNot(s, id, expected, controller, w, a);
    case RecoverCommand(id, expected, controller, w) => RecoveryEndsNot(s, Request(id, expected, controller), w, a);
    case PrepareInvocationCommand(id, v, x) => PrepareInvocationEndsNot(s, id, v, x, a);
    case _ => InvocationCommandsEndNot(s, c, a);
  }

  lemma {:induction false} HistorySteps(s: Stores, es: seq<Episode>, k: nat)
    requires k < |es|
    ensures History(s, es[..k + 1]) == AfterEpisode(History(s, es[..k]), es[k])
    decreases k
  {
    if k == 0 {
      assert es[..1][1..] == [] && es[..0] == [];
    } else {
      assert es[..k + 1][1..] == es[1..][..k] && es[..k][1..] == es[1..][..k - 1];
      HistorySteps(AfterEpisode(s, es[0]), es[1..], k - 1);
    }
  }

  /** In every history, wherever its commands are cut: the command that takes an
      attempt from READY with a workspace receipt to ABORTED discards its
      workspace. */
  lemma WorkspacesAreDisposedFirst(es: seq<Episode>, k: nat, a: Id)
    requires k < |es|
    requires var s := History(EMPTY, es[..k]);
             a in s.attempts && s.attempts[a].state == Ready && a in s.receipts
    requires var t := History(EMPTY, es[..k + 1]);
             a in t.attempts && t.attempts[a].state == Aborted
    ensures es[k].command.DiscardWorkspaceCommand? && es[k].command.attemptId == a
  {
    var s, c, n := History(EMPTY, es[..k]), es[k].command, es[k].writes;
    var ws := Execute(s, c).writes;
    HistorySteps(EMPTY, es, k);
    InvariantOverAllHistories(es[..k]);
    if !(c.DiscardWorkspaceCommand? && c.attemptId == a) {
      OthersEndNot(s, c, a);
      UnendedCut(s, ws, n, a);
    }
  }
}
