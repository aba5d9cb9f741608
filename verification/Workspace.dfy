/** The lab directories: preparing a workspace and discarding it. */
module Workspace {
  import opened Outcomes
  import opened Records
  import opened Lifecycle
  import opened Stores
  import opened Moves
  import opened Commands
  import opened Disposal

  /** The directories and how many more changes a call will get to make. */
  datatype LabDisk = LabDisk(state: LabState, changesLeft: nat)

  /** Running a disposal on a disk that may stop before any change. */
  function RunChanges(d: LabDisk, cs: seq<Change>, outcome: Result<Attempt>): (LabDisk, Result<Attempt>)
    decreases cs
  {
    if cs == [] then (d, outcome)
    else if d.changesLeft == 0 then (d, Err("STOPPED"))
    else RunChanges(LabDisk(Effected(d.state, cs[0]), d.changesLeft - 1), cs[1..], outcome)
  }

  /** A run leaves a prefix of the changes, all of them when it is not stopped. */
  lemma {:induction false} RunMakesPrefix(d: LabDisk, cs: seq<Change>, outcome: Result<Attempt>)
    ensures var n := if |cs| <= d.changesLeft then |cs| else d.changesLeft;
            && RunChanges(d, cs, outcome).0 == LabDisk(EffectedAll(d.state, cs[..n]), d.changesLeft - n)
            && RunChanges(d, cs, outcome).1 == if |cs| <= d.changesLeft then outcome else Err("STOPPED")
    decreases cs
  {
    if cs != [] && d.changesLeft > 0 {
      RunMakesPrefix(LabDisk(Effected(d.state, cs[0]), d.changesLeft - 1), cs[1..], outcome);
      var n := if |cs| <= d.changesLeft then |cs| else d.changesLeft;
      assert cs[..n][1..] == cs[1..][..n - 1];
    }
  }

  /** The last two changes of a disposal, spelled out. */
  lemma OrderOfLast(d: LabDisk, aborted: Attempt, id: Id)
    ensures RunChanges(d, [Save(aborted), Unlink(id)], Ok(aborted)) ==
            if d.changesLeft == 0 then (d, Err("STOPPED"))
            else
              var saved := LabDisk(Effected(d.state, Save(aborted)), d.changesLeft - 1);
              if saved.changesLeft == 0 then (saved, Err("STOPPED"))
              else (LabDisk(Effected(saved.state, Unlink(id)), saved.changesLeft - 1), Ok(aborted))
  {
    var last := [Save(aborted), Unlink(id)];
    assert last[1..] == [Unlink(id)];
    if d.changesLeft > 0 {
      var saved := LabDisk(Effected(d.state, Save(aborted)), d.changesLeft - 1);
      assert RunChanges(d, last, Ok(aborted)) == RunChanges(saved, [Unlink(id)], Ok(aborted));
      LastChange(saved, aborted, id);
    }
  }

  lemma LastChange(d: LabDisk, aborted: Attempt, id: Id)
    ensures RunChanges(d, [Unlink(id)], Ok(aborted)) ==
            if d.changesLeft == 0 then (d, Err("STOPPED"))
            else (LabDisk(Effected(d.state, Unlink(id)), d.changesLeft - 1), Ok(aborted))
  {
    assert [Unlink(id)][1..] == [];
  }

  /** The answer `r` and the directories `t` of one disposal: done exactly where
      it can be, it leaves the ended attempt and nothing else of it; refused, it
      leaves everything. */
  ghost predicate DisposalAnswered(s: LabState, r: Result<Attempt>, t: LabState, o: Order, now: int) {
    && (r.Ok? <==> CanDispose(s, o, now))
    && (r.Err? ==> t == s)
    && (r.Ok? && o.id in s.attempts ==>
          && DisposedAs(s.attempts[o.id], r.value, o, now)
          && t == LabState(s.attempts[o.id := r.value], s.receipts - {o.id}, s.finals - {o.id}, s.quarantines - {o.id}))
  }

  /** A disposal with room for all its changes answers exactly so. */
  lemma DisposalAnswers(d: LabDisk, o: Order, now: int)
    requires Keyed(d.state) && d.changesLeft >= Entries(d.state, o.id) + 5
    ensures var e := Dispose(d.state, o, now);
            var run := RunChanges(d, e.changes, e.outcome);
            DisposalAnswered(d.state, run.1, run.0.state, o, now)
  {
    var e := Dispose(d.state, o, now);
    DisposesExactly(d.state, o, now);
    DisposalIsCounted(d.state, o, now);
    RunMakesPrefix(d, e.changes, e.outcome);
    assert e.changes[..|e.changes|] == e.changes;
    if CanDispose(d.state, o, now) {
      FullDisposal(d.state, o, now);
    }
  }

  /** What happens around one preparation: which checks and calls succeed, and
      whether compensation can remove what it finds. */
  datatype PreparationWorld = PreparationWorld(
    view: WorkspaceView, inputs: bool, token: nat, makesStaging: bool,
    clones: bool, tree: Tree, renames: bool, removesParent: bool, finalChecks: bool,
    receiptWrite: WriteFault, receiptChecks: bool, save: WriteFault,
    removesFinal: bool, removesStaging: bool, removesReceipt: bool, leftover: Tree)

  /** Every check and call of the protected part succeeds, and both record
      writes persist, though they may still raise. */
  predicate AllGoesWell(w: PreparationWorld) {
    && w.makesStaging && w.clones && w.renames && w.removesParent && w.finalChecks && w.receiptChecks
    && w.receiptWrite != RaisesBefore && w.save != RaisesBefore
  }

  /** The code that the first failing step of a publication raises. */
  predicate PublishRaises(w: PreparationWorld, code: string) {
    if !w.makesStaging then code == "WORKSPACE_PREPARE_FAILED"
    else if !w.clones then code == "WORKSPACE_GIT_FAILED"
    else if !w.renames || !w.removesParent then code == "WORKSPACE_PREPARE_FAILED"
    else if !w.finalChecks then code == "WORKSPACE_VERIFY_FAILED"
    else if w.receiptWrite == RaisesBefore then code == "STORAGE_WRITE_FAILED"
    else if !w.receiptChecks then code == "WORKSPACE_RECEIPT_MISMATCH"
    else w.save == RaisesBefore && code == "STORAGE_WRITE_FAILED"
  }

  function NewReceipt(a: Attempt, v: WorkspaceView, now: int): Receipt {
    Receipt(
      a.attemptId, a.authority.exerciseId, a.authority.exerciseVersion, v.templateRepository,
      a.authority.startingCommit, v.rootDigest, v.pathDigest, a.attemptId, now, PreparedReceipt)
  }

  /** A clean DRAFT attempt, and time that does not go back. */
  predicate CanBeMadeReady(a: Attempt, now: int) {
    && a.state == Draft && a.runtimeIdentity.None? && a.candidateDigest.None? && a.cleanupOutcome.None?
    && a.updatedAt <= now
  }

  predicate MadeReady(a: Attempt, b: Attempt, now: int) {
    && b.state == Ready && b.updatedAt == now
    && b.attemptId == a.attemptId && b.curriculumId == a.curriculumId && b.authority == a.authority
    && b.createdAt == a.createdAt && b.priorAttemptId == a.priorAttemptId
    && b.runtimeIdentity.None? && b.candidateDigest.None? && b.cleanupOutcome.None?
  }

  /** The receipt of a fresh workspace: whose it is, what it was made from, and
      where it stands. */
  predicate Receives(p: Receipt, a: Attempt, v: WorkspaceView, now: int) {
    && p.state == PreparedReceipt && p.createdAt == now
    && p.attemptId == a.attemptId && p.relativePath == a.attemptId
    && p.exerciseId == a.authority.exerciseId && p.exerciseVersion == a.authority.exerciseVersion
    && p.templateRepository == v.templateRepository && p.templateCommit == a.authority.startingCommit
    && p.workspaceRootDigest == v.rootDigest && p.workspacePathDigest == v.pathDigest
  }

  lemma ReadiesExactly(a: Attempt, now: int)
    requires ValidAttempt(a)
    ensures var ready := TransitionAttempt(a, Ready, now, None, None, None);
            && (CanBeMadeReady(a, now) <==> CleanAttempt(a, Draft) && ready.Ok?)
            && (CanBeMadeReady(a, now) ==> MadeReady(a, ready.value, now))
  {
  }

  /** What a successful preparation stores is what the command histories
      ascribe to it. */
  lemma PreparationIsTheCommand(t: Stores, id: Id, v: WorkspaceView, now: int)
    requires id in t.attempts && t.attempts[id].attemptId == id && ValidAttempt(t.attempts[id])
    requires CleanAttempt(t.attempts[id], Draft) && id !in t.receipts && v.verified
    requires TransitionAttempt(t.attempts[id], Ready, now, None, None, None).Ok?
    ensures var ready := TransitionAttempt(t.attempts[id], Ready, now, None, None, None).value;
            var p := NewReceipt(t.attempts[id], v, now);
            var e := PrepareWorkspaceEffect(t, id, v, true, now);
            && e.outcome == Ok(ReceiptReply(p))
            && ApplyAll(t, e.writes) == t.(attempts := t.attempts[id := ready], receipts := t.receipts[id := p])
  {
    var ready := TransitionAttempt(t.attempts[id], Ready, now, None, None, None).value;
    var p := NewReceipt(t.attempts[id], v, now);
    AttemptSavesAreMoves(t.attempts, ready);
    var ws := PrepareWorkspaceEffect(t, id, v, true, now).writes;
    assert ws == [PutReceipt(p), PutAttempt(ready)];
    assert ws[1..] == [PutAttempt(ready)] && ws[1..][1..] == [];
    var u := Apply(t, ws[0]);
    assert ApplyAll(t, ws) == ApplyAll(u, [PutAttempt(ready)]) == Apply(u, PutAttempt(ready));
  }

  /** The command of the histories is accepted exactly for a clean DRAFT attempt
      without a receipt, in a workspace that verifies, when it is not undone. */
  lemma PreparesExactly(t: Stores, id: Id, v: WorkspaceView, committed: bool, now: int)
    requires forall k | k in t.attempts :: t.attempts[k].attemptId == k && ValidAttempt(t.attempts[k])
    ensures var e := PrepareWorkspaceEffect(t, id, v, committed, now);
            && (e.outcome.Ok? <==>
                  && id in t.attempts && CanBeMadeReady(t.attempts[id], now)
                  && id !in t.receipts && v.verified && committed)
            && (e.outcome.Ok? ==> e.outcome.value.ReceiptReply? && Receives(e.outcome.value.receipt, t.attempts[id], v, now))
  {
    if id in t.attempts {
      var a := t.attempts[id];
      ReadiesExactly(a, now);
      AttemptSavesAreMoves(t.attempts, a.(state := Ready, updatedAt := now));
    }
  }

  /** What a preparation knows when its protected part ends. */
  datatype Progress = Progress(staged: bool, published: bool, receiptWritten: bool, transitionStarted: bool)

  class Lab {
    var attempts: map<Id, Attempt>
    var receipts: map<Id, Receipt>
    var finals: map<Id, Tree>
    var quarantines: map<Id, Tree>
    var stagings: set<(Id, nat)>
    var changesLeft: nat

    function State(): LabState
      reads this
    {
      LabState(attempts, receipts, finals, quarantines)
    }

    function Now(): LabDisk
      reads this
    {
      LabDisk(State(), changesLeft)
    }

    constructor (s: LabState, stagings: set<(Id, nat)>, changesLeft: nat)
      ensures State() == s && this.stagings == stagings && this.changesLeft == changesLeft
    {
      attempts, receipts, finals, quarantines := s.attempts, s.receipts, s.finals, s.quarantines;
      this.stagings, this.changesLeft := stagings, changesLeft;
    }

    // ----- discarding

    method Make(c: Change) returns (made: bool)
      modifies this
      ensures stagings == old(stagings)
      ensures made <==> old(changesLeft) > 0
      ensures Now() == if made then LabDisk(Effected(old(State()), c), old(changesLeft) - 1) else old(Now())
    {
      if changesLeft == 0 {
        return false;
      }
      changesLeft := changesLeft - 1;
      match c {
        case Rename(id) =>
          if id in finals {
            finals, quarantines := finals - {id}, quarantines[id := finals[id]];
          }
        case Record(p) => receipts := receipts[p.attemptId := p];
        case RemoveEntry(id) =>
          if id in quarantines && quarantines[id] != [] {
            quarantines := quarantines[id := quarantines[id][1..]];
          }
        case RemoveRoot(id) =>
          if id in quarantines && quarantines[id] == [] {
            quarantines := quarantines - {id};
          }
        case Save(a) => attempts := attempts[a.attemptId := a];
        case Unlink(id) => receipts := receipts - {id};
      }
      return true;
    }

    /** Removes the quarantined tree, entry by entry, then its root. */
    method RemoveQuarantine(id: Id, ghost rest: seq<Change>, ghost outcome: Result<Attempt>) returns (removed: bool)
      requires id in quarantines
      modifies this
      ensures removed ==>
                RunChanges(Now(), rest, outcome) == RunChanges(old(Now()), RemovalOf(id, old(quarantines[id])) + rest, outcome)
      ensures !removed ==>
                (Now(), Err("STOPPED")) == RunChanges(old(Now()), RemovalOf(id, old(quarantines[id])) + rest, outcome)
      ensures attempts == old(attempts) && receipts == old(receipts)
    {
      while quarantines[id] != []
        invariant id in quarantines
        invariant attempts == old(attempts) && receipts == old(receipts)
        invariant RunChanges(Now(), RemovalOf(id, quarantines[id]) + rest, outcome) ==
                  RunChanges(old(Now()), RemovalOf(id, old(quarantines[id])) + rest, outcome)
        decreases |quarantines[id]|
      {
        ghost var todo := RemovalOf(id, quarantines[id]) + rest;
        assert todo[1..] == RemovalOf(id, quarantines[id][1..]) + rest;
        var made := Make(RemoveEntry(id));
        if !made {
          return false;
        }
      }
      assert (RemovalOf(id, quarantines[id]) + rest)[1..] == rest;
      removed := Make(RemoveRoot(id));
    }

    method DiscardWorkspace(o: Order, now: int) returns (r: Result<Attempt>)
      modifies this
      ensures var e := Dispose(old(State()), o, now);
              (Now(), r) == RunChanges(old(Now()), e.changes, e.outcome)
      ensures old(Keyed(State())) && old(changesLeft) >= old(Entries(State(), o.id)) + 5 ==>
                DisposalAnswered(old(State()), r, State(), o, now)
    {
      if Keyed(State()) && changesLeft >= Entries(State(), o.id) + 5 {
        DisposalAnswers(Now(), o, now);
      }
      ghost var e := Dispose(State(), o, now);
      if o.id !in attempts {
        return Err("STORAGE_RECORD_MISSING");
      }
      var attempt := attempts[o.id];
      if attempt.state == Aborted {
        r := DiscardAborted(o, attempt);
        return;
      }
      if !CleanAttempt(attempt, Ready) {
        return Err("WORKSPACE_DISPOSAL_STATE_INVALID");
      }
      var aborted := TransitionAttempt(attempt, Aborted, now, None, None, Some(o.cleanup));
      if aborted.Err? {
        return aborted;
      }
      if o.id !in receipts {
        return Err("STORAGE_RECORD_MISSING");
      }
      if receipts[o.id].state == PreparedReceipt {
        r := DiscardPrepared(o, attempt, aborted.value);
        return;
      }
      if !QuarantineDescribed(receipts[o.id], attempt, QuarantineView(o)) {
        return Err("WORKSPACE_RECEIPT_MISMATCH");
      }
      if o.id in finals {
        return Err("WORKSPACE_DISPOSAL_AMBIGUOUS");
      }
      r := FinishDisposal(o, aborted.value);
    }

    method DiscardAborted(o: Order, attempt: Attempt) returns (r: Result<Attempt>)
      modifies this
      ensures var e := DisposeAborted(old(State()), o, attempt);
              (Now(), r) == RunChanges(old(Now()), e.changes, e.outcome)
    {
      if attempt.runtimeIdentity.Some? || attempt.candidateDigest.Some? {
        return Err("WORKSPACE_DISPOSAL_STATE_INVALID");
      }
      if attempt.cleanupOutcome != Some(o.cleanup) {
        return Err("WORKSPACE_CLEANUP_OUTCOME_MISMATCH");
      }
      if o.id in finals || o.id in quarantines {
        return Err("WORKSPACE_DISPOSAL_AMBIGUOUS");
      }
      if o.id !in receipts {
        return Ok(attempt);
      }
      if !QuarantineDescribed(receipts[o.id], attempt, QuarantineView(o)) {
        return Err("WORKSPACE_RECEIPT_MISMATCH");
      }
      var made := Make(Unlink(o.id));
      return if made then Ok(attempt) else Err("STOPPED");
    }

    method DiscardPrepared(o: Order, attempt: Attempt, aborted: Attempt) returns (r: Result<Attempt>)
      requires o.id in receipts
      modifies this
      ensures var e := DisposePrepared(old(State()), o, attempt, aborted, old(receipts[o.id]));
              (Now(), r) == RunChanges(old(Now()), e.changes, e.outcome)
    {
      var receipt := receipts[o.id];
      if !PreparedDescribed(receipt, attempt, o) {
        return Err("WORKSPACE_RECEIPT_MISMATCH");
      }
      if (o.id in finals) == (o.id in quarantines) {
        return Err("WORKSPACE_DISPOSAL_AMBIGUOUS");
      }
      ghost var record := Record(QuarantinedReceiptOf(receipt, o.quarantineDigest));
      if o.id in finals {
        if !o.intact(finals[o.id]) {
          return Err("WORKSPACE_VERIFY_FAILED");
        }
        ghost var rest := Finish(Effected(State(), Rename(o.id)), o, aborted);
        assert ([Rename(o.id), record] + rest)[1..] == [record] + rest;
        var renamed := Make(Rename(o.id));
        if !renamed {
          return Err("STOPPED");
        }
      } else if !o.intact(quarantines[o.id]) {
        return Err("WORKSPACE_VERIFY_FAILED");
      }
      ghost var rest := Finish(State(), o, aborted);
      assert ([record] + rest)[1..] == rest;
      var recorded := Make(Record(QuarantinedReceiptOf(receipt, o.quarantineDigest)));
      if !recorded {
        return Err("STOPPED");
      }
      r := FinishDisposal(o, aborted);
    }

    method FinishDisposal(o: Order, aborted: Attempt) returns (r: Result<Attempt>)
      modifies this
      ensures (Now(), r) == RunChanges(old(Now()), Finish(old(State()), o, aborted), Ok(aborted))
    {
      ghost var last := [Save(aborted), Unlink(o.id)];
      if o.id in quarantines {
        var removed := RemoveQuarantine(o.id, last, Ok(aborted));
        if !removed {
          return Err("STOPPED");
        }
      } else {
        assert Finish(State(), o, aborted) == last;
      }
      OrderOfLast(Now(), aborted, o.id);
      var saved := Make(Save(aborted));
      if !saved {
        return Err("STOPPED");
      }
      var unlinked := Make(Unlink(o.id));
      return if unlinked then Ok(aborted) else Err("STOPPED");
    }

    // ----- preparing

    /** The part of a preparation whose failures are compensated.  It returns
        the receipt, or the code it raises and how far it came. */
    method Publish(attempt: Attempt, ready: Attempt, w: PreparationWorld, now: int)
      returns (r: Result<Receipt>, p: Progress)
      requires attempt.attemptId in attempts && attempts[attempt.attemptId] == attempt
      requires attempt.attemptId !in finals && attempt.attemptId !in receipts
      requires (attempt.attemptId, w.token) !in stagings
      requires SaveAttempt(attempts, ready).Ok? && ready != attempt && ready.attemptId == attempt.attemptId
      modifies this
      ensures var id := attempt.attemptId;
              && quarantines == old(quarantines) && changesLeft == old(changesLeft)
              && finals == (if p.published then old(finals)[id := w.tree] else old(finals))
              && stagings == (if p.staged then old(stagings) + {(id, w.token)} else old(stagings))
              && receipts == (if p.receiptWritten then old(receipts)[id := NewReceipt(attempt, w.view, now)] else old(receipts))
              && attempts == (if r.Ok? then old(attempts)[id := ready] else old(attempts))
              && (r.Ok? ==> !p.staged && p.published && p.receiptWritten && r.value == NewReceipt(attempt, w.view, now))
              && (r.Err? ==> r.code != "WORKSPACE_COMPENSATION_FAILED")
              && (r.Ok? <==> AllGoesWell(w))
              && (r.Err? ==> PublishRaises(w, r.code))
    {
      var id := attempt.attemptId;
      p := Progress(false, false, false, false);
      if !w.makesStaging {
        return Err("WORKSPACE_PREPARE_FAILED"), p;
      }
      stagings := stagings + {(id, w.token)};
      p := p.(staged := true);
      if !w.clones {
        return Err("WORKSPACE_GIT_FAILED"), p;
      }
      if !w.renames {
        return Err("WORKSPACE_PREPARE_FAILED"), p;
      }
      finals := finals[id := w.tree];
      p := p.(published := true);
      if !w.removesParent {
        return Err("WORKSPACE_PREPARE_FAILED"), p;
      }
      stagings := stagings - {(id, w.token)};
      assert stagings == old(stagings);
      p := p.(staged := false);
      if !w.finalChecks {
        return Err("WORKSPACE_VERIFY_FAILED"), p;
      }
      var receipt := NewReceipt(attempt, w.view, now);
      if w.receiptWrite != RaisesBefore {
        receipts := receipts[id := receipt];
      }
      if w.receiptWrite != Persists && !(id in receipts && receipts[id] == receipt) {
        return Err("STORAGE_WRITE_FAILED"), p;
      }
      p := p.(receiptWritten := true);
      if !w.receiptChecks || !(id in receipts && receipts[id] == receipt) {
        return Err("WORKSPACE_RECEIPT_MISMATCH"), p;
      }
      p := p.(transitionStarted := true);
      if w.save != RaisesBefore {
        attempts := attempts[id := ready];
      }
      if w.save != Persists && attempts[id] != ready {
        return Err("STORAGE_WRITE_FAILED"), p;
      }
      return Ok(receipt), p;
    }

    /** Undoes what a failed preparation left, until a removal fails. */
    method Compensate(id: Id, w: PreparationWorld, p: Progress) returns (undone: bool)
      modifies this
      ensures attempts == old(attempts) && quarantines == old(quarantines) && changesLeft == old(changesLeft)
      ensures undone ==>
                && finals == (if p.published then old(finals) - {id} else old(finals))
                && stagings == (if p.staged then old(stagings) - {(id, w.token)} else old(stagings))
                && receipts == (if p.receiptWritten then old(receipts) - {id} else old(receipts))
      ensures w.removesFinal && w.removesStaging && w.removesReceipt ==> undone
      ensures forall k | k != id :: (k in receipts <==> k in old(receipts)) && (k in finals <==> k in old(finals))
    {
      if p.published && id in finals {
        if !w.removesFinal {
          finals := finals[id := w.leftover];
          return false;
        }
        finals := finals - {id};
      }
      if p.staged && (id, w.token) in stagings {
        if !w.removesStaging {
          return false;
        }
        stagings := stagings - {(id, w.token)};
      }
      if p.receiptWritten && id in receipts {
        if !w.removesReceipt {
          return false;
        }
        receipts := receipts - {id};
      }
      return true;
    }

    /** Preparation is all or nothing: it returns the receipt exactly when the
        attempt is READY and receipt and workspace are durable; when it raises,
        nothing has changed, unless it says that compensation failed, and even
        then the attempt is as before. */
    method PrepareWorkspace(id: Id, w: PreparationWorld, now: int) returns (r: Result<Receipt>)
      requires Keyed(State()) && (id, w.token) !in stagings
      modifies this
      ensures quarantines == old(quarantines) && changesLeft == old(changesLeft)
      ensures r.Ok? <==>
                && id in old(attempts) && CanBeMadeReady(old(attempts[id]), now)
                && w.inputs && id !in old(finals) && id !in old(quarantines) && id !in old(receipts)
                && AllGoesWell(w)
      ensures r.Ok? ==>
                && id in attempts && MadeReady(old(attempts[id]), attempts[id], now)
                && attempts == old(attempts)[id := attempts[id]]
                && Receives(r.value, old(attempts[id]), w.view, now)
                && receipts == old(receipts)[id := r.value] && finals == old(finals)[id := w.tree]
                && stagings == old(stagings)
      ensures r.Err? ==> attempts == old(attempts)
      ensures r.Err? && r.code != "WORKSPACE_COMPENSATION_FAILED" ==>
                receipts == old(receipts) && finals == old(finals) && stagings == old(stagings)
      ensures r.Err? && r.code == "WORKSPACE_COMPENSATION_FAILED" ==>
                !(w.removesFinal && w.removesStaging && w.removesReceipt)
      ensures id !in old(attempts) ==> r == Err("STORAGE_RECORD_MISSING")
      ensures id in old(attempts) && CanBeMadeReady(old(attempts[id]), now) ==>
                && (!w.inputs ==> r == Err("WORKSPACE_VERIFY_FAILED"))
                && (w.inputs && (id in old(finals) || id in old(quarantines)) ==> r == Err("WORKSPACE_TARGET_EXISTS"))
                && (w.inputs && id !in old(finals) && id !in old(quarantines) && id in old(receipts) ==>
                      r == Err("WORKSPACE_RECEIPT_EXISTS"))
                && (w.inputs && id !in old(finals) && id !in old(quarantines) && id !in old(receipts) ==>
                      r.Ok? || r.code == "WORKSPACE_COMPENSATION_FAILED" || PublishRaises(w, r.code))
    {
      if id !in attempts {
        return Err("STORAGE_RECORD_MISSING");
      }
      var attempt := attempts[id];
      if !CleanAttempt(attempt, Draft) {
        return Err("WORKSPACE_ATTEMPT_STATE_INVALID");
      }
      var ready := TransitionAttempt(attempt, Ready, now, None, None, None);
      ReadiesExactly(attempt, now);
      if ready.Err? {
        assert ready.code != "WORKSPACE_COMPENSATION_FAILED";
        return Err(ready.code);
      }
      if !w.inputs {
        return Err("WORKSPACE_VERIFY_FAILED");
      }
      if id in finals || id in quarantines {
        return Err("WORKSPACE_TARGET_EXISTS");
      }
      if id in receipts {
        return Err("WORKSPACE_RECEIPT_EXISTS");
      }
      AttemptSavesAreMoves(attempts, ready.value);
      var progress;
      r, progress := Publish(attempt, ready.value, w, now);
      if r.Err? {
        if progress.transitionStarted && attempts[id] == ready.value {
          return Ok(NewReceipt(attempt, w.view, now));
        }
        var undone := Compensate(id, w, progress);
        if !undone {
          return Err("WORKSPACE_COMPENSATION_FAILED");
        }
      }
    }
  }

  lemma AddedAndRemoved<T>(m: map<Id, T>, id: Id, value: T)
    requires id !in m
    ensures m[id := value] - {id} == m == m - {id}
  {
  }

  /** A fresh READY attempt with its receipt and its tree can be disposed of. */
  lemma FreshIsDisposable(s: LabState, p: Receipt, o: Order, now: int, later: int, was: Attempt)
    requires o.id in s.attempts && MadeReady(was, s.attempts[o.id], now) && was.attemptId == o.id
    requires o.id in s.receipts && s.receipts[o.id] == p && Receives(p, was, o.view, now)
    requires o.id in s.finals && o.id !in s.quarantines && o.intact(s.finals[o.id])
    requires |o.cleanup| > 0 && now <= later
    ensures CanDispose(s, o, later)
  {
  }

  /** The directories of a successful preparation. */
  predicate JustPrepared(s: LabState, t: LabState, p: Receipt, o: Order, tree: Tree, now: int) {
    && o.id in s.attempts && o.id !in s.receipts && o.id !in s.finals && o.id !in s.quarantines
    && o.id in t.attempts && t.attempts == s.attempts[o.id := t.attempts[o.id]]
    && MadeReady(s.attempts[o.id], t.attempts[o.id], now) && Receives(p, s.attempts[o.id], o.view, now)
    && t.receipts == s.receipts[o.id := p] && t.finals == s.finals[o.id := tree] && t.quarantines == s.quarantines
  }

  /** What a disposal leaves after a preparation: all as before it, but for the
      ended attempt. */
  predicate AsBefore(s: LabState, u: LabState, o: Order, later: int) {
    && u.receipts == s.receipts && u.finals == s.finals && u.quarantines == s.quarantines
    && o.id in u.attempts && u.attempts == s.attempts[o.id := u.attempts[o.id]]
    && u.attempts[o.id].state == Aborted && u.attempts[o.id].cleanupOutcome == Some(o.cleanup)
    && u.attempts[o.id].updatedAt == later
  }

  lemma PreparedIsDisposed(
    s: LabState, t: LabState, p: Receipt, o: Order, tree: Tree, now: int, r: Result<Attempt>, u: LabState, later: int)
    requires JustPrepared(s, t, p, o, tree, now) && s.attempts[o.id].attemptId == o.id
    requires o.intact(tree) && |o.cleanup| > 0 && now <= later
    requires DisposalAnswered(t, r, u, o, later)
    ensures r.Ok? && AsBefore(s, u, o, later)
  {
    FreshIsDisposable(t, p, o, now, later, s.attempts[o.id]);
    AddedAndRemoved(s.finals, o.id, tree);
    AddedAndRemoved(s.receipts, o.id, p);
    assert s.quarantines - {o.id} == s.quarantines;
    assert s.attempts[o.id := t.attempts[o.id]][o.id := r.value] == s.attempts[o.id := r.value];
  }

  /** A workspace that was just prepared, whatever is in it, is disposed of: the
      attempt ends, and the directories are as they were. */
  method PrepareAndDiscard(lab: Lab, w: PreparationWorld, o: Order, now: int, later: int) returns (r: Result<Attempt>)
    requires Keyed(lab.State()) && (o.id, w.token) !in lab.stagings
    requires o.id in lab.attempts && CanBeMadeReady(lab.attempts[o.id], now)
    requires o.id !in lab.finals && o.id !in lab.quarantines && o.id !in lab.receipts && w.inputs && AllGoesWell(w)
    requires o.view == w.view && o.intact(w.tree) && |o.cleanup| > 0 && now <= later
    requires lab.changesLeft >= |w.tree| + 5
    modifies lab
    ensures r.Ok? && AsBefore(old(lab.State()), lab.State(), o, later)
  {
    ghost var s := lab.State();
    var prepared := lab.PrepareWorkspace(o.id, w, now);
    ghost var t := lab.State();
    assert JustPrepared(s, t, prepared.value, o, w.tree, now) && Entries(t, o.id) == |w.tree|;
    KeyedAfter(s, t, prepared.value, o, w.tree, now);
    r := lab.DiscardWorkspace(o, later);
    PreparedIsDisposed(s, t, prepared.value, o, w.tree, now, r, lab.State(), later);
  }

  lemma KeyedAfter(s: LabState, t: LabState, p: Receipt, o: Order, tree: Tree, now: int)
    requires Keyed(s) && JustPrepared(s, t, p, o, tree, now) && s.attempts[o.id].updatedAt <= now
    ensures Keyed(t)
  {
  }
}
