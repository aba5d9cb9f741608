/** Disposal of a prepared workspace, as the list of changes it makes.

    A workspace lives under its final name or under its quarantine name.  Its
    tree is the list of its entries, in the order in which they get removed. */
module Disposal {
  import opened Outcomes
  import opened Records
  import opened Lifecycle
  import opened Stores
  import opened Moves
  import opened Commands

  type Tree = seq<string>

  datatype LabState = LabState(
    attempts: map<Id, Attempt>,
    receipts: map<Id, Receipt>,
    finals: map<Id, Tree>,
    quarantines: map<Id, Tree>)

  /** One change that a crash can follow.  A directory goes only when it is empty. */
  datatype Change =
    | Rename(id: Id)
    | Record(receipt: Receipt)
    | RemoveEntry(id: Id)
    | RemoveRoot(id: Id)
    | Save(attempt: Attempt)
    | Unlink(id: Id)

  function Effected(s: LabState, c: Change): LabState {
    match c
    case Rename(id) =>
      if id in s.finals then s.(finals := s.finals - {id}, quarantines := s.quarantines[id := s.finals[id]]) else s
    case Record(p) => s.(receipts := s.receipts[p.attemptId := p])
    case RemoveEntry(id) =>
      if id in s.quarantines && s.quarantines[id] != [] then
        s.(quarantines := s.quarantines[id := s.quarantines[id][1..]])
      else s
    case RemoveRoot(id) =>
      if id in s.quarantines && s.quarantines[id] == [] then s.(quarantines := s.quarantines - {id}) else s
    case Save(a) => s.(attempts := s.attempts[a.attemptId := a])
    case Unlink(id) => s.(receipts := s.receipts - {id})
  }

  function EffectedAll(s: LabState, cs: seq<Change>): LabState
    decreases cs
  {
    if cs == [] then s else EffectedAll(Effected(s, cs[0]), cs[1..])
  }

  /** The command line of one disposal and what the directories look like.
      `intact` says which trees pass the check of the prepared repository. */
  datatype Order = Order(id: Id, view: WorkspaceView, quarantineDigest: Digest, cleanup: string, intact: Tree -> bool)

  datatype Disposing = Disposing(changes: seq<Change>, outcome: Result<Attempt>)

  function Refused(code: string): Disposing {
    Disposing([], Err(code))
  }

  function QuarantineView(o: Order): WorkspaceView {
    o.view.(pathDigest := o.quarantineDigest)
  }

  function RemovalOf(id: Id, tree: Tree): seq<Change> {
    if tree == [] then [RemoveRoot(id)] else [RemoveEntry(id)] + RemovalOf(id, tree[1..])
  }

  /** Removing what is in quarantine, then the attempt, then the receipt. */
  function Finish(s: LabState, o: Order, aborted: Attempt): seq<Change> {
    (if o.id in s.quarantines then RemovalOf(o.id, s.quarantines[o.id]) else []) + [Save(aborted), Unlink(o.id)]
  }

  predicate PreparedDescribed(p: Receipt, a: Attempt, o: Order) {
    && p.state == PreparedReceipt
    && ReceiptDescribes(p, a, o.view)
    && p.workspacePathDigest == o.view.pathDigest
    && p.relativePath == o.id
  }

  function DisposeAborted(s: LabState, o: Order, a: Attempt): Disposing {
    if a.runtimeIdentity.Some? || a.candidateDigest.Some? then Refused("WORKSPACE_DISPOSAL_STATE_INVALID")
    else if a.cleanupOutcome != Some(o.cleanup) then Refused("WORKSPACE_CLEANUP_OUTCOME_MISMATCH")
    else if o.id in s.finals || o.id in s.quarantines then Refused("WORKSPACE_DISPOSAL_AMBIGUOUS")
    else if o.id !in s.receipts then Disposing([], Ok(a))
    else if !QuarantineDescribed(s.receipts[o.id], a, QuarantineView(o)) then Refused("WORKSPACE_RECEIPT_MISMATCH")
    else Disposing([Unlink(o.id)], Ok(a))
  }

  function DisposePrepared(s: LabState, o: Order, a: Attempt, aborted: Attempt, p: Receipt): Disposing {
    var record := Record(QuarantinedReceiptOf(p, o.quarantineDigest));
    if !PreparedDescribed(p, a, o) then Refused("WORKSPACE_RECEIPT_MISMATCH")
    else if (o.id in s.finals) == (o.id in s.quarantines) then Refused("WORKSPACE_DISPOSAL_AMBIGUOUS")
    else if o.id in s.finals then
      if !o.intact(s.finals[o.id]) then Refused("WORKSPACE_VERIFY_FAILED")
      else Disposing([Rename(o.id), record] + Finish(Effected(s, Rename(o.id)), o, aborted), Ok(aborted))
    else if !o.intact(s.quarantines[o.id]) then Refused("WORKSPACE_VERIFY_FAILED")
    else Disposing([record] + Finish(s, o, aborted), Ok(aborted))
  }

  function DisposeQuarantined(s: LabState, o: Order, a: Attempt, aborted: Attempt, p: Receipt): Disposing {
    if !QuarantineDescribed(p, a, QuarantineView(o)) then Refused("WORKSPACE_RECEIPT_MISMATCH")
    else if o.id in s.finals then Refused("WORKSPACE_DISPOSAL_AMBIGUOUS")
    else Disposing(Finish(s, o, aborted), Ok(aborted))
  }

  /** `discard_workspace`. */
  function Dispose(s: LabState, o: Order, now: int): Disposing {
    if o.id !in s.attempts then Refused("STORAGE_RECORD_MISSING")
    else
      var a := s.attempts[o.id];
      if a.state == Aborted then DisposeAborted(s, o, a)
      else if !CleanAttempt(a, Ready) then Refused("WORKSPACE_DISPOSAL_STATE_INVALID")
      else
        var aborted := TransitionAttempt(a, Aborted, now, None, None, Some(o.cleanup));
        if aborted.Err? then Refused(aborted.code)
        else if o.id !in s.receipts then Refused("STORAGE_RECORD_MISSING")
        else if s.receipts[o.id].state == PreparedReceipt then
          DisposePrepared(s, o, a, aborted.value, s.receipts[o.id])
        else DisposeQuarantined(s, o, a, aborted.value, s.receipts[o.id])
  }

  ghost predicate Keyed(s: LabState) {
    && (forall k | k in s.attempts :: s.attempts[k].attemptId == k && ValidAttempt(s.attempts[k]))
    && (forall k | k in s.receipts :: s.receipts[k].attemptId == k)
  }

  // ----- what can be disposed of

  /** The receipt is that of the attempt, its template and its root. */
  predicate Owned(p: Receipt, a: Attempt, v: WorkspaceView) {
    && p.attemptId == a.attemptId
    && p.exerciseId == a.authority.exerciseId && p.exerciseVersion == a.authority.exerciseVersion
    && p.templateRepository == v.templateRepository && p.templateCommit == a.authority.startingCommit
    && p.workspaceRootDigest == v.rootDigest
  }

  /** The receipt names the quarantine of the attempt. */
  predicate InQuarantine(p: Receipt, o: Order) {
    && p.state == QuarantinedReceipt && p.workspacePathDigest == o.quarantineDigest
    && p.relativePath == ".worker-lab-quarantine-" + o.id
  }

  /** An attempt that a disposal has aborted: at most its receipt is left. */
  predicate CanFinish(s: LabState, o: Order, a: Attempt) {
    && a.runtimeIdentity.None? && a.candidateDigest.None? && a.cleanupOutcome == Some(o.cleanup)
    && o.id !in s.finals && o.id !in s.quarantines
    && (o.id in s.receipts ==> Owned(s.receipts[o.id], a, o.view) && InQuarantine(s.receipts[o.id], o))
  }

  /** A clean READY attempt and its receipt.  A prepared workspace stands under
      one of the two names and is intact, whatever it contains; a quarantined one
      no longer stands under its final name, and may be gone. */
  predicate CanBegin(s: LabState, o: Order, a: Attempt, now: int) {
    && a.state == Ready && a.runtimeIdentity.None? && a.candidateDigest.None? && a.cleanupOutcome.None?
    && a.updatedAt <= now && |o.cleanup| > 0
    && o.id in s.receipts
    && var p := s.receipts[o.id];
       && Owned(p, a, o.view)
       && ((p.state == PreparedReceipt && p.workspacePathDigest == o.view.pathDigest && p.relativePath == o.id
            && ((o.id in s.finals && o.id !in s.quarantines && o.intact(s.finals[o.id]))
                || (o.id in s.quarantines && o.id !in s.finals && o.intact(s.quarantines[o.id]))))
           || (InQuarantine(p, o) && o.id !in s.finals))
  }

  predicate CanDispose(s: LabState, o: Order, now: int) {
    && o.id in s.attempts
    && var a := s.attempts[o.id];
       if a.state == Aborted then CanFinish(s, o, a) else CanBegin(s, o, a, now)
  }

  /** The attempt that disposal leaves. */
  predicate DisposedAs(a: Attempt, b: Attempt, o: Order, now: int) {
    if a.state == Aborted then b == a
    else
      && b.state == Aborted && b.updatedAt == now && b.cleanupOutcome == Some(o.cleanup)
      && b.attemptId == a.attemptId && b.curriculumId == a.curriculumId && b.authority == a.authority
      && b.createdAt == a.createdAt && b.priorAttemptId == a.priorAttemptId
      && b.runtimeIdentity.None? && b.candidateDigest.None?
  }

  lemma AbortsExactly(a: Attempt, cleanup: string, now: int)
    requires ValidAttempt(a) && CleanAttempt(a, Ready)
    ensures var aborted := TransitionAttempt(a, Aborted, now, None, None, Some(cleanup));
            && (aborted.Ok? <==> a.updatedAt <= now && |cleanup| > 0)
            && (aborted.Ok? ==>
                  aborted.value == a.(state := Aborted, updatedAt := now, cleanupOutcome := Some(cleanup)))
  {
  }

  lemma FinishesExactly(s: LabState, o: Order, a: Attempt)
    requires a.attemptId == o.id
    ensures var e := DisposeAborted(s, o, a);
            && (e.outcome.Ok? <==> CanFinish(s, o, a)) && (e.outcome.Ok? ==> e.outcome.value == a)
            && (e.outcome.Err? ==> e.changes == [])
  {
  }

  lemma BeginsExactly(s: LabState, o: Order, a: Attempt, now: int)
    requires ValidAttempt(a) && a.attemptId == o.id && o.id in s.attempts && s.attempts[o.id] == a && a.state != Aborted
    ensures var e := Dispose(s, o, now);
            && (e.outcome.Ok? <==> CanBegin(s, o, a, now)) && (e.outcome.Ok? ==> DisposedAs(a, e.outcome.value, o, now))
            && (e.outcome.Err? ==> e.changes == [])
  {
    if CleanAttempt(a, Ready) {
      AbortsExactly(a, o.cleanup, now);
    }
  }

  /** Disposal is accepted exactly where it can be done, and says what it
      leaves of the attempt; a refusal changes nothing. */
  lemma DisposesExactly(s: LabState, o: Order, now: int)
    requires Keyed(s)
    ensures Dispose(s, o, now).outcome.Ok? <==> CanDispose(s, o, now)
    ensures Dispose(s, o, now).outcome.Err? ==> Dispose(s, o, now).changes == []
    ensures Dispose(s, o, now).outcome.Ok? ==> DisposedAs(s.attempts[o.id], Dispose(s, o, now).outcome.value, o, now)
  {
    if o.id in s.attempts {
      if s.attempts[o.id].state == Aborted {
        FinishesExactly(s, o, s.attempts[o.id]);
      } else {
        BeginsExactly(s, o, s.attempts[o.id], now);
      }
    }
  }

  /** Why a disposal is refused: another cleanup text, a workspace that an ended
      attempt still has, an attempt that is not clean, no receipt; and for a
      prepared workspace that its receipt describes, both names or none, or a
      tree that is not intact. */
  lemma DisposalRefusals(s: LabState, o: Order, now: int)
    requires Keyed(s)
    ensures var outcome := Dispose(s, o, now).outcome;
            && (o.id !in s.attempts ==> outcome == Err("STORAGE_RECORD_MISSING"))
            && (o.id in s.attempts ==>
                  var a := s.attempts[o.id];
                  && (a.state == Aborted && a.runtimeIdentity.None? && a.candidateDigest.None? ==>
                        && (a.cleanupOutcome != Some(o.cleanup) ==> outcome == Err("WORKSPACE_CLEANUP_OUTCOME_MISMATCH"))
                        && (a.cleanupOutcome == Some(o.cleanup) && (o.id in s.finals || o.id in s.quarantines) ==>
                              outcome == Err("WORKSPACE_DISPOSAL_AMBIGUOUS")))
                  && (a.state !in {Ready, Aborted} ==> outcome == Err("WORKSPACE_DISPOSAL_STATE_INVALID"))
                  && (CleanAttempt(a, Ready) && a.updatedAt <= now && |o.cleanup| > 0 ==>
                        && (o.id !in s.receipts ==> outcome == Err("STORAGE_RECORD_MISSING"))
                        && (o.id in s.receipts && PreparedDescribed(s.receipts[o.id], a, o) ==>
                              && ((o.id in s.finals <==> o.id in s.quarantines) ==>
                                    outcome == Err("WORKSPACE_DISPOSAL_AMBIGUOUS"))
                              && (o.id in s.finals && o.id !in s.quarantines && !o.intact(s.finals[o.id]) ==>
                                    outcome == Err("WORKSPACE_VERIFY_FAILED"))
                              && (o.id in s.quarantines && o.id !in s.finals && !o.intact(s.quarantines[o.id]) ==>
                                    outcome == Err("WORKSPACE_VERIFY_FAILED")))))
  {
    if o.id in s.attempts && CleanAttempt(s.attempts[o.id], Ready) {
      AbortsExactly(s.attempts[o.id], o.cleanup, now);
    }
  }

  // ----- every stage leaves a stage

  /** What disposal promises about every state it passes through. */
  ghost predicate Safe(s: LabState, o: Order, todo: seq<Change>) {
    && !(o.id in s.finals && o.id in s.quarantines)
    && (o.id in s.attempts && s.attempts[o.id].state == Aborted ==> o.id !in s.finals && o.id !in s.quarantines)
    && (todo != [] && (todo[0].RemoveEntry? || todo[0].RemoveRoot?) ==>
          o.id in s.receipts && s.receipts[o.id].state == QuarantinedReceipt)
  }

  /** An accepted disposal of `s` with changes `todo` and outcome `a`. */
  ghost predicate Remains(s: LabState, o: Order, now: int, todo: seq<Change>, a: Attempt) {
    Keyed(s) && Dispose(s, o, now) == Disposing(todo, Ok(a))
  }

  lemma AcceptedIsSafe(s: LabState, o: Order, now: int, todo: seq<Change>, a: Attempt)
    requires Remains(s, o, now, todo, a)
    ensures Safe(s, o, todo)
  {
  }

  /** The first change of an accepted disposal leaves the others to do. */
  lemma FirstChange(s: LabState, o: Order, now: int, todo: seq<Change>, a: Attempt)
    requires Remains(s, o, now, todo, a) && todo != []
    ensures Remains(Effected(s, todo[0]), o, now, todo[1..], a)
  {
    match todo[0]
    case Rename(_) => AfterRename(s, o, now, todo, a);
    case Record(_) => AfterRecord(s, o, now, todo, a);
    case RemoveEntry(_) => AfterRemoval(s, o, now, todo, a);
    case RemoveRoot(_) => AfterRemoval(s, o, now, todo, a);
    case Save(_) => AfterSave(s, o, now, todo, a);
    case Unlink(_) => AfterUnlink(s, o, now, todo, a);
  }

  lemma FinishStarts(s: LabState, o: Order, aborted: Attempt)
    ensures Finish(s, o, aborted) != []
    ensures var c := Finish(s, o, aborted)[0];
            if o.id !in s.quarantines then c == Save(aborted)
            else if s.quarantines[o.id] == [] then c == RemoveRoot(o.id)
            else c == RemoveEntry(o.id)
  {
  }

  /** A disposal that renames begins with a READY attempt, a PREPARED receipt
      and an intact tree under its final name. */
  lemma RenameComesFirst(s: LabState, o: Order, now: int, todo: seq<Change>, a: Attempt)
    requires Remains(s, o, now, todo, a) && todo != [] && todo[0].Rename?
    ensures s.attempts[o.id].state != Aborted && o.id in s.receipts && s.receipts[o.id].state == PreparedReceipt
    ensures o.id in s.finals && o.id !in s.quarantines && todo[0] == Rename(o.id)
    ensures var record := Record(QuarantinedReceiptOf(s.receipts[o.id], o.quarantineDigest));
            todo[1..] == [record] + Finish(Effected(s, todo[0]), o, a)
  {
    if o.id in s.receipts && s.attempts[o.id].state != Aborted {
      FinishStarts(s, o, a);
    }
  }

  lemma AfterRename(s: LabState, o: Order, now: int, todo: seq<Change>, a: Attempt)
    requires Remains(s, o, now, todo, a) && todo != [] && todo[0].Rename?
    ensures Remains(Effected(s, todo[0]), o, now, todo[1..], a)
  {
    RenameComesFirst(s, o, now, todo, a);
  }

  lemma AfterRecord(s: LabState, o: Order, now: int, todo: seq<Change>, a: Attempt)
    requires Remains(s, o, now, todo, a) && todo != [] && todo[0].Record?
    ensures Remains(Effected(s, todo[0]), o, now, todo[1..], a)
  {
    if o.id in s.receipts && s.attempts[o.id].state != Aborted {
      FinishStarts(s, o, a);
      assert todo[1..] == Finish(s, o, a);
      assert Finish(Effected(s, todo[0]), o, a) == Finish(s, o, a);
    }
  }

  /** Removal goes on only in a READY attempt with a QUARANTINED receipt. */
  lemma RemovalIsFinishing(s: LabState, o: Order, now: int, todo: seq<Change>, a: Attempt)
    requires Remains(s, o, now, todo, a) && todo != [] && (todo[0].RemoveEntry? || todo[0].RemoveRoot?)
    ensures s.attempts[o.id].state != Aborted && o.id in s.receipts
    ensures s.receipts[o.id].state == QuarantinedReceipt
    ensures todo == Finish(s, o, a) && o.id in s.quarantines && o.id !in s.finals
    ensures todo[0] == if s.quarantines[o.id] == [] then RemoveRoot(o.id) else RemoveEntry(o.id)
  {
    if s.attempts[o.id].state != Aborted {
      FinishStarts(s, o, a);
    }
  }

  lemma AfterRemoval(s: LabState, o: Order, now: int, todo: seq<Change>, a: Attempt)
    requires Remains(s, o, now, todo, a) && todo != [] && (todo[0].RemoveEntry? || todo[0].RemoveRoot?)
    ensures Remains(Effected(s, todo[0]), o, now, todo[1..], a)
  {
    RemovalIsFinishing(s, o, now, todo, a);
    FinishShrinks(s, o, a);
    QuarantinedRemains(s, Effected(s, todo[0]), o, now, todo, todo[1..], a);
  }

  lemma FinishShrinks(s: LabState, o: Order, a: Attempt)
    requires o.id in s.quarantines
    ensures var todo := Finish(s, o, a);
            && todo != []
            && Finish(Effected(s, todo[0]), o, a) == todo[1..]
  {
  }

  /** Only the quarantine has changed, so the same call goes on from there. */
  lemma QuarantinedRemains(s: LabState, t: LabState, o: Order, now: int, todo: seq<Change>, rest: seq<Change>, a: Attempt)
    requires Remains(s, o, now, todo, a)
    requires s.attempts[o.id].state != Aborted && o.id in s.receipts && s.receipts[o.id].state == QuarantinedReceipt
    requires t == s.(quarantines := t.quarantines) && rest == Finish(t, o, a)
    ensures Remains(t, o, now, rest, a)
  {
  }

  lemma AfterSave(s: LabState, o: Order, now: int, todo: seq<Change>, a: Attempt)
    requires Remains(s, o, now, todo, a) && todo != [] && todo[0].Save?
    ensures Remains(Effected(s, todo[0]), o, now, todo[1..], a)
  {
    if o.id in s.receipts && s.attempts[o.id].state != Aborted {
      FinishStarts(s, o, a);
      assert todo == Finish(s, o, a);
      assert todo == [Save(a), Unlink(o.id)];
    }
  }

  lemma AfterUnlink(s: LabState, o: Order, now: int, todo: seq<Change>, a: Attempt)
    requires Remains(s, o, now, todo, a) && todo != [] && todo[0].Unlink?
    ensures Remains(Effected(s, todo[0]), o, now, todo[1..], a)
  {
    UnlinkComesLast(s, o, now, todo, a);
  }

  /** The receipt goes only once the attempt is ABORTED. */
  lemma UnlinkComesLast(s: LabState, o: Order, now: int, todo: seq<Change>, a: Attempt)
    requires Remains(s, o, now, todo, a) && todo != [] && todo[0].Unlink?
    ensures s.attempts[o.id].state == Aborted && todo == [Unlink(o.id)]
  {
    if o.id in s.receipts && s.attempts[o.id].state != Aborted {
      FinishStarts(s, o, a);
    }
  }

  // ----- restarting

  /** What disposal aims at. */
  ghost predicate Disposed(t: LabState, o: Order) {
    && o.id in t.attempts
    && t.attempts[o.id].state == Aborted
    && t.attempts[o.id].cleanupOutcome == Some(o.cleanup)
    && o.id !in t.receipts
    && o.id !in t.finals
    && o.id !in t.quarantines
  }

  /** `t` differs from `s` at most in what belongs to the attempt. */
  ghost predicate OnlyDisposes(s: LabState, t: LabState, o: Order) {
    && t.attempts - {o.id} == s.attempts - {o.id}
    && t.receipts - {o.id} == s.receipts - {o.id}
    && t.finals - {o.id} == s.finals - {o.id}
    && t.quarantines - {o.id} == s.quarantines - {o.id}
  }

  lemma FirstChangeOnlyDisposes(s: LabState, o: Order, now: int, todo: seq<Change>, a: Attempt)
    requires Remains(s, o, now, todo, a) && todo != []
    ensures OnlyDisposes(s, Effected(s, todo[0]), o)
  {
    assert ChangesId(todo[0], o.id) by { FirstChangeIsOwn(s, o, now, todo, a); }
  }

  predicate ChangesId(c: Change, id: Id) {
    match c
    case Rename(x) => x == id
    case Record(p) => p.attemptId == id
    case RemoveEntry(x) => x == id
    case RemoveRoot(x) => x == id
    case Save(a) => a.attemptId == id
    case Unlink(x) => x == id
  }

  lemma FirstChangeIsOwn(s: LabState, o: Order, now: int, todo: seq<Change>, a: Attempt)
    requires Remains(s, o, now, todo, a) && todo != []
    ensures ChangesId(todo[0], o.id)
  {
    if s.attempts[o.id].state != Aborted {
      FinishStarts(s, o, a);
    }
  }

  /** A state on the way of one run from `s`. */
  ghost predicate OnTheWay(s: LabState, o: Order, now: int, a: Attempt, t: LabState, todo: seq<Change>) {
    Remains(t, o, now, todo, a) && Safe(t, o, todo) && OnlyDisposes(s, t, o)
  }

  lemma OneStepOn(s: LabState, o: Order, now: int, a: Attempt, t: LabState, todo: seq<Change>)
    requires OnTheWay(s, o, now, a, t, todo) && todo != []
    ensures OnTheWay(s, o, now, a, Effected(t, todo[0]), todo[1..])
  {
    FirstChange(t, o, now, todo, a);
    AcceptedIsSafe(Effected(t, todo[0]), o, now, todo[1..], a);
    FirstChangeOnlyDisposes(t, o, now, todo, a);
    OnlyDisposesIsTransitive(s, t, Effected(t, todo[0]), o);
  }

  lemma OnlyDisposesIsTransitive(s: LabState, t: LabState, u: LabState, o: Order)
    requires OnlyDisposes(s, t, o) && OnlyDisposes(t, u, o)
    ensures OnlyDisposes(s, u, o)
  {
  }

  /** A relation that every first change carries on holds after any prefix. */
  lemma {:induction false} ChangeInduction(r: (LabState, seq<Change>) -> bool, s: LabState, cs: seq<Change>, n: nat)
    requires r(s, cs) && n <= |cs|
    requires forall t, us {:trigger r(t, us)} :: r(t, us) && us != [] ==> r(Effected(t, us[0]), us[1..])
    ensures r(EffectedAll(s, cs[..n]), cs[n..])
    decreases n
  {
    if n == 0 {
      assert cs[..0] == [] && cs[0..] == cs;
    } else {
      ChangeInduction(r, Effected(s, cs[0]), cs[1..], n - 1);
      assert cs[..n][1..] == cs[1..][..n - 1];
      assert cs[1..][n - 1..] == cs[n..];
    }
  }

  /** Every state on the way of one run: what is left to do there, that it is
      safe, and that nothing foreign was touched. */
  lemma AnyPrefix(s: LabState, o: Order, now: int, todo: seq<Change>, a: Attempt, n: nat)
    requires Remains(s, o, now, todo, a) && n <= |todo|
    ensures OnTheWay(s, o, now, a, EffectedAll(s, todo[..n]), todo[n..])
  {
    AcceptedIsSafe(s, o, now, todo, a);
    var r := (t: LabState, us: seq<Change>) => OnTheWay(s, o, now, a, t, us);
    forall t, us | r(t, us) && us != []
      ensures r(Effected(t, us[0]), us[1..])
    {
      OneStepOn(s, o, now, a, t, us);
    }
    ChangeInduction(r, s, todo, n);
  }

  lemma NothingRemains(t: LabState, o: Order, now: int, a: Attempt)
    requires Remains(t, o, now, [], a)
    ensures Disposed(t, o) && t.attempts[o.id] == a
  {
    if t.attempts[o.id].state != Aborted {
      FinishStarts(t, o, a);
    }
  }

  /** A later call of the same disposal is accepted where an earlier one is. */
  lemma LaterIsAccepted(s: LabState, o: Order, now: int, later: int)
    requires CanDispose(s, o, now) && now <= later
    ensures CanDispose(s, o, later)
  {
  }

  /** Interrupted calls: the time of each and how many changes it made. */
  datatype Try = Try(now: int, changes: nat)

  function CutChanges(cs: seq<Change>, n: nat): seq<Change> {
    if n <= |cs| then cs[..n] else cs
  }

  function AfterTries(s: LabState, o: Order, tries: seq<Try>): LabState
    decreases tries
  {
    if tries == [] then s
    else AfterTries(EffectedAll(s, CutChanges(Dispose(s, o, tries[0].now).changes, tries[0].changes)), o, tries[1..])
  }

  predicate NotBefore(now: int, tries: seq<Try>)
    decreases tries
  {
    tries == [] || (now <= tries[0].now && NotBefore(tries[0].now, tries[1..]))
  }

  lemma OneTry(s: LabState, o: Order, now: int, n: nat)
    requires Keyed(s) && CanDispose(s, o, now)
    ensures var t := EffectedAll(s, CutChanges(Dispose(s, o, now).changes, n));
            Keyed(t) && CanDispose(t, o, now) && OnlyDisposes(s, t, o)
  {
    DisposesExactly(s, o, now);
    var todo := Dispose(s, o, now).changes;
    AnyPrefix(s, o, now, todo, Dispose(s, o, now).outcome.value, if n <= |todo| then n else |todo|);
    assert todo[..|todo|] == todo;
    DisposesExactly(EffectedAll(s, CutChanges(todo, n)), o, now);
  }

  lemma {:induction false} TriesStayAccepted(s: LabState, o: Order, now: int, tries: seq<Try>, last: int)
    requires Keyed(s) && CanDispose(s, o, now)
    requires NotBefore(now, tries + [Try(last, 0)])
    ensures var t := AfterTries(s, o, tries);
            Keyed(t) && CanDispose(t, o, last) && OnlyDisposes(s, t, o)
    decreases tries
  {
    if tries == [] {
      LaterIsAccepted(s, o, now, last);
    } else {
      assert (tries + [Try(last, 0)])[1..] == tries[1..] + [Try(last, 0)];
      LaterIsAccepted(s, o, now, tries[0].now);
      OneTry(s, o, tries[0].now, tries[0].changes);
      var t := EffectedAll(s, CutChanges(Dispose(s, o, tries[0].now).changes, tries[0].changes));
      TriesStayAccepted(t, o, tries[0].now, tries[1..], last);
    }
  }

  /** The directories without anything of the attempt but its ended record. */
  function Cleared(s: LabState, id: Id, a: Attempt): LabState {
    LabState(s.attempts[id := a], s.receipts - {id}, s.finals - {id}, s.quarantines - {id})
  }

  /** One full call ends the attempt, removes its workspace and its receipt, and
      leaves everything else. */
  lemma FullDisposal(s: LabState, o: Order, now: int)
    requires Keyed(s) && CanDispose(s, o, now)
    ensures var e := Dispose(s, o, now);
            e.outcome.Ok? && EffectedAll(s, e.changes) == Cleared(s, o.id, e.outcome.value)
    ensures Disposed(EffectedAll(s, Dispose(s, o, now).changes), o)
  {
    DisposesExactly(s, o, now);
    var todo, a := Dispose(s, o, now).changes, Dispose(s, o, now).outcome.value;
    AnyPrefix(s, o, now, todo, a, |todo|);
    assert todo[..|todo|] == todo && todo[|todo|..] == [];
    NothingRemains(EffectedAll(s, todo), o, now, a);
    OnlyDisposesMeans(s, EffectedAll(s, todo), o);
  }

  lemma OnlyDisposesMeans(s: LabState, t: LabState, o: Order)
    requires OnlyDisposes(s, t, o) && Disposed(t, o)
    ensures t == Cleared(s, o.id, t.attempts[o.id])
  {
    var id := o.id;
    assert t.attempts == (t.attempts - {id})[id := t.attempts[id]];
    assert s.attempts[id := t.attempts[id]] == (s.attempts - {id})[id := t.attempts[id]];
    assert t.receipts == t.receipts - {id} && t.finals == t.finals - {id} && t.quarantines == t.quarantines - {id};
  }

  /** Disposal converges.  Start where it can be done, stop it any number of
      times after any number of changes, then let it run once, never earlier
      than before: it succeeds, the attempt is ABORTED with the given text,
      receipt and workspace are gone, and nothing else was touched. */
  lemma DisposalConverges(s: LabState, o: Order, now: int, tries: seq<Try>, last: int)
    requires Keyed(s) && CanDispose(s, o, now)
    requires NotBefore(now, tries + [Try(last, 0)])
    ensures var u := AfterTries(s, o, tries);
            var e := Dispose(u, o, last);
            && e.outcome.Ok?
            && Disposed(EffectedAll(u, e.changes), o)
            && EffectedAll(u, e.changes) == Cleared(s, o.id, e.outcome.value)
  {
    TriesStayAccepted(s, o, now, tries, last);
    var u := AfterTries(s, o, tries);
    FullDisposal(u, o, last);
    ClearedAlike(s, u, o, Dispose(u, o, last).outcome.value);
  }

  lemma ClearedAlike(s: LabState, t: LabState, o: Order, a: Attempt)
    requires OnlyDisposes(s, t, o)
    ensures Cleared(s, o.id, a) == Cleared(t, o.id, a)
  {
    assert s.attempts[o.id := a] == (s.attempts - {o.id})[o.id := a];
    assert t.attempts[o.id := a] == (t.attempts - {o.id})[o.id := a];
  }

  /** In every state between two changes of one call at most one of the two
      names exists, removal only goes on under a durable QUARANTINED receipt,
      and an ABORTED attempt has no workspace under either name. */
  lemma DisposalIsSafeThroughout(s: LabState, o: Order, now: int, n: nat)
    requires Keyed(s) && CanDispose(s, o, now)
    requires n <= |Dispose(s, o, now).changes|
    ensures var todo := Dispose(s, o, now).changes;
            Safe(EffectedAll(s, todo[..n]), o, todo[n..])
  {
    DisposesExactly(s, o, now);
    AnyPrefix(s, o, now, Dispose(s, o, now).changes, Dispose(s, o, now).outcome.value, n);
  }

  /** The entries of the attempt's workspace, under either name. */
  function Entries(s: LabState, id: Id): nat {
    if id in s.finals then |s.finals[id]| else if id in s.quarantines then |s.quarantines[id]| else 0
  }

  lemma {:induction false} RemovalIsCounted(id: Id, tree: Tree)
    ensures |RemovalOf(id, tree)| == |tree| + 1
  {
    if tree != [] {
      RemovalIsCounted(id, tree[1..]);
    }
  }

  /** Renaming, recording, removing each entry and the root, saving, unlinking. */
  lemma DisposalIsCounted(s: LabState, o: Order, now: int)
    ensures |Dispose(s, o, now).changes| <= Entries(s, o.id) + 5
  {
    if o.id in s.finals {
      RemovalIsCounted(o.id, s.finals[o.id]);
    }
    if o.id in s.quarantines {
      RemovalIsCounted(o.id, s.quarantines[o.id]);
    }
  }

  // ----- the record writes are those of the command

  function RecordWrites(cs: seq<Change>): seq<Write> {
    if cs == [] then []
    else
      match cs[0]
      case Record(p) => [PutReceipt(p)] + RecordWrites(cs[1..])
      case Save(a) => [PutAttempt(a)] + RecordWrites(cs[1..])
      case Unlink(id) => [DropReceipt(id)] + RecordWrites(cs[1..])
      case _ => RecordWrites(cs[1..])
  }

  lemma {:induction false} RemovalWritesNothing(id: Id, tree: Tree, rest: seq<Change>)
    ensures RecordWrites(RemovalOf(id, tree) + rest) == RecordWrites(rest)
  {
    var cs := RemovalOf(id, tree) + rest;
    if tree == [] {
      assert cs[1..] == rest;
    } else {
      assert cs[1..] == RemovalOf(id, tree[1..]) + rest;
      RemovalWritesNothing(id, tree[1..], rest);
    }
  }

  lemma FinishWrites(s: LabState, o: Order, aborted: Attempt)
    ensures RecordWrites(Finish(s, o, aborted)) == [PutAttempt(aborted), DropReceipt(o.id)]
  {
    var last := [Save(aborted), Unlink(o.id)];
    assert last[1..] == [Unlink(o.id)];
    assert RecordWrites(last) == [PutAttempt(aborted)] + RecordWrites([Unlink(o.id)]);
    if o.id in s.quarantines {
      RemovalWritesNothing(o.id, s.quarantines[o.id], last);
    } else {
      assert Finish(s, o, aborted) == last;
    }
  }

  /** Where the directories allow it, disposal makes exactly the record writes
      that the command histories ascribe to it. */
  lemma DisposalWritesAreTheCommands(t: Stores, s: LabState, o: Order, now: int)
    requires s.attempts == t.attempts && s.receipts == t.receipts && Keyed(s)
    requires Dispose(s, o, now).outcome.Ok?
    ensures DiscardEffect(t, o.id, o.view.(verified := true), o.quarantineDigest, o.cleanup, now).writes ==
            RecordWrites(Dispose(s, o, now).changes)
  {
    var a := s.attempts[o.id];
    if a.state == Aborted {
      AbortedWrites(t, s, o, now);
    } else if s.receipts[o.id].state == PreparedReceipt {
      PreparedWrites(t, s, o, now);
    } else {
      QuarantinedWrites(t, s, o, now);
    }
  }

  lemma AbortedWrites(t: Stores, s: LabState, o: Order, now: int)
    requires s.attempts == t.attempts && s.receipts == t.receipts
    requires Dispose(s, o, now).outcome.Ok? && s.attempts[o.id].state == Aborted
    ensures DiscardEffect(t, o.id, o.view.(verified := true), o.quarantineDigest, o.cleanup, now).writes ==
            RecordWrites(Dispose(s, o, now).changes)
  {
    assert [Unlink(o.id)][1..] == [];
  }

  lemma QuarantinedWrites(t: Stores, s: LabState, o: Order, now: int)
    requires s.attempts == t.attempts && s.receipts == t.receipts && Keyed(s)
    requires Dispose(s, o, now).outcome.Ok?
    requires s.attempts[o.id].state != Aborted && s.receipts[o.id].state == QuarantinedReceipt
    ensures DiscardEffect(t, o.id, o.view.(verified := true), o.quarantineDigest, o.cleanup, now).writes ==
            RecordWrites(Dispose(s, o, now).changes)
  {
    var aborted := TransitionAttempt(s.attempts[o.id], Aborted, now, None, None, Some(o.cleanup)).value;
    AttemptSavesAreMoves(t.attempts, aborted);
    FinishWrites(s, o, aborted);
  }

  lemma PreparedWrites(t: Stores, s: LabState, o: Order, now: int)
    requires s.attempts == t.attempts && s.receipts == t.receipts && Keyed(s)
    requires Dispose(s, o, now).outcome.Ok?
    requires s.attempts[o.id].state != Aborted && s.receipts[o.id].state == PreparedReceipt
    ensures DiscardEffect(t, o.id, o.view.(verified := true), o.quarantineDigest, o.cleanup, now).writes ==
            RecordWrites(Dispose(s, o, now).changes)
  {
    var aborted := TransitionAttempt(s.attempts[o.id], Aborted, now, None, None, Some(o.cleanup)).value;
    AttemptSavesAreMoves(t.attempts, aborted);
    var record := Record(QuarantinedReceiptOf(s.receipts[o.id], o.quarantineDigest));
    var cs := Dispose(s, o, now).changes;
    var u := if o.id in s.finals then Effected(s, Rename(o.id)) else s;
    FinishWrites(u, o, aborted);
    RecordFirst(record, Finish(u, o, aborted));
    if o.id in s.finals {
      assert cs[1..] == [record] + Finish(u, o, aborted);
    }
  }

  lemma RecordFirst(record: Change, rest: seq<Change>)
    requires record.Record?
    ensures RecordWrites([record] + rest) == [PutReceipt(record.receipt)] + RecordWrites(rest)
  {
    assert ([record] + rest)[1..] == rest;
  }

  /** What the record writes of disposal ask of the records alone. */
  predicate RecordsAllow(t: Stores, o: Order, now: int) {
    && o.id in t.attempts
    && var a := t.attempts[o.id];
       if a.state == Aborted then
         && a.runtimeIdentity.None? && a.candidateDigest.None? && a.cleanupOutcome == Some(o.cleanup)
         && (o.id in t.receipts ==> Owned(t.receipts[o.id], a, o.view) && InQuarantine(t.receipts[o.id], o))
       else
         && a.state == Ready && a.runtimeIdentity.None? && a.candidateDigest.None? && a.cleanupOutcome.None?
         && a.updatedAt <= now && |o.cleanup| > 0 && o.id in t.receipts
         && var p := t.receipts[o.id];
            && Owned(p, a, o.view)
            && ((p.state == PreparedReceipt && p.workspacePathDigest == o.view.pathDigest && p.relativePath == o.id
                 && o.view.verified) || InQuarantine(p, o))
  }

  /** The command of the histories is accepted exactly there. */
  lemma DiscardsExactly(t: Stores, o: Order, now: int)
    requires forall k | k in t.attempts :: t.attempts[k].attemptId == k && ValidAttempt(t.attempts[k])
    ensures var e := DiscardEffect(t, o.id, o.view, o.quarantineDigest, o.cleanup, now);
            && (e.outcome.Ok? <==> RecordsAllow(t, o, now))
            && (e.outcome.Err? ==> e.writes == [])
            && (e.outcome.Ok? ==>
                  e.outcome.value.AttemptReply? && DisposedAs(t.attempts[o.id], e.outcome.value.attempt, o, now))
  {
    if o.id in t.attempts && CleanAttempt(t.attempts[o.id], Ready) {
      var a := t.attempts[o.id];
      AbortsExactly(a, o.cleanup, now);
      AttemptSavesAreMoves(t.attempts, a.(state := Aborted, updatedAt := now, cleanupOutcome := Some(o.cleanup)));
    }
  }
}
