/** The job runner: one contained adapter run and the custody it leaves. */
module Runner {
  import opened Outcomes
  import opened Records
  import opened Lifecycle
  import opened Stores
  import opened Moves
  import opened Acceptance
  import opened CustodyLog
  import Readers

  /** How the wait for the adapter ends. */
  datatype Waiting = Exits(code: int) | TimesOut(code: int) | NeverStops

  /** Everything a run learns from the kernel, the clock and the adapter's two
      streams: what each holds, chunk by chunk, and how its readers take turns
      until they are joined; a reader may stop because a read raises. */
  datatype RunWorld = RunWorld(
    evidence: Option<Digest>, controllerPid: int, controllerTime: int,
    createsJob: bool, launches: bool,
    assigns: bool, stops: bool, assignExit: Option<int>, assignQuery: Option<nat>,
    adapterPid: int, adapterTime: Option<int>, sends: bool, waiting: Waiting,
    outLimit: nat, outChunks: seq<Bytes>, outFails: bool,
    errLimit: nat, errChunks: seq<Bytes>, errFails: bool, turns: seq<bool>,
    endQuery: Option<nat>, faultExit: Option<int>, faultQuery: Option<nat>, now: int)

  /** The buffers and the shared flag when the readers are joined. */
  function Drained(w: RunWorld): Readers.Readers {
    Readers.RunSchedule(
      Readers.Readers(
        Readers.Start("stdout", w.outLimit, w.outChunks), Readers.Start("stderr", w.errLimit, w.errChunks), false, []),
      w.turns)
  }

  /** No reader is alive after the join. */
  predicate ReadersStop(w: RunWorld) {
    (Drained(w).out.stage.Done? || w.outFails) && (Drained(w).err.stage.Done? || w.errFails)
  }

  predicate ReadersFail(w: RunWorld) {
    w.outFails || w.errFails
  }

  /** Both streams end, within their limits. */
  predicate StreamsFit(w: RunWorld) {
    && ReadersStop(w) && !ReadersFail(w)
    && |Readers.Concat(w.outChunks)| <= w.outLimit && |Readers.Concat(w.errChunks)| <= w.errLimit
  }

  /** Nothing goes wrong from the workspace check to the observed zero. */
  predicate CleanRun(w: RunWorld) {
    && w.evidence.Some? && w.createsJob && w.launches && w.assigns && w.adapterTime.Some? && w.sends
    && w.waiting == Exits(0) && StreamsFit(w) && w.endQuery == Some(0)
  }

  function RunFailure(w: RunWorld): Option<string>
    requires !w.waiting.NeverStops?
  {
    var drained := Drained(w);
    if w.waiting.TimesOut? then Some("CODEX_TIMEOUT")
    else if ReadersFail(w) then Some("INTEGRATION_RESULT_INVALID")
    else if drained.overflow then
      if drained.names == [] then Some("INTEGRATION_RESULT_INVALID")
      else if drained.names[0] == "stdout" then Some("INTEGRATION_STDOUT_LIMIT") else Some("INTEGRATION_STDERR_LIMIT")
    else if w.waiting.code != 0 then Some("INTEGRATION_EXECUTION_FAILED")
    else None
  }

  /** Joined readers that did not fail leave the flag unset exactly if both
      streams fit, and then the buffer is the complete standard output. */
  lemma JoinedReaders(w: RunWorld)
    requires ReadersStop(w) && !ReadersFail(w)
    ensures !Drained(w).overflow <==> StreamsFit(w)
    ensures StreamsFit(w) ==> Drained(w).out.buffer == Readers.Concat(w.outChunks)
  {
    Readers.ReadersAreExact("stdout", w.outLimit, w.outChunks, "stderr", w.errLimit, w.errChunks, w.turns);
  }

  /** A run has no failure exactly if both streams fit and the exit code is zero. */
  lemma SuccessMeans(w: RunWorld)
    requires !w.waiting.NeverStops? && ReadersStop(w)
    ensures RunFailure(w).None? <==> StreamsFit(w) && w.waiting == Exits(0)
    ensures RunFailure(w).None? ==> Drained(w).out.buffer == Readers.Concat(w.outChunks)
  {
    if !ReadersFail(w) {
      JoinedReaders(w);
    }
  }

  /** A stream holds more than its reader may keep. */
  predicate Overflows(w: RunWorld) {
    |Readers.Concat(w.outChunks)| > w.outLimit || |Readers.Concat(w.errChunks)| > w.errLimit
  }

  /** What a run whose adapter ended calls its failure: a timeout before all
      else, then a failed reader, then a stream that did not fit, then the exit
      code.  Where both streams overflow, either may have been the first. */
  predicate Names(w: RunWorld, failure: Option<string>)
    requires !w.waiting.NeverStops?
  {
    var read := w.waiting.Exits? && !w.outFails && !w.errFails;
    && (failure == Some("CODEX_TIMEOUT") <==> w.waiting.TimesOut?)
    && (failure == Some("INTEGRATION_RESULT_INVALID") <==> w.waiting.Exits? && (w.outFails || w.errFails))
    && (failure == Some("INTEGRATION_STDOUT_LIMIT") ==> |Readers.Concat(w.outChunks)| > w.outLimit)
    && (failure == Some("INTEGRATION_STDERR_LIMIT") ==> |Readers.Concat(w.errChunks)| > w.errLimit)
    && (failure in {Some("INTEGRATION_STDOUT_LIMIT"), Some("INTEGRATION_STDERR_LIMIT")} <==> read && Overflows(w))
    && (failure == Some("INTEGRATION_EXECUTION_FAILED") <==> read && !Overflows(w) && w.waiting.code != 0)
    && (failure.None? <==> read && !Overflows(w) && w.waiting.code == 0)
  }

  /** The failure that a run records is named truly. */
  lemma FailuresAreNamedTruly(w: RunWorld)
    requires !w.waiting.NeverStops? && ReadersStop(w)
    ensures Names(w, RunFailure(w))
  {
    assert "CODEX_TIMEOUT"[0] == 'C' && "INTEGRATION_RESULT_INVALID"[0] == 'I';
    assert "INTEGRATION_EXECUTION_FAILED"[12] == 'E' && "INTEGRATION_RESULT_INVALID"[12] == 'R';
    assert "INTEGRATION_STDOUT_LIMIT"[12] == 'S' && "INTEGRATION_STDERR_LIMIT"[12] == 'S';
    assert "INTEGRATION_STDOUT_LIMIT"[15] == 'O' && "INTEGRATION_STDERR_LIMIT"[15] == 'E';
    if !ReadersFail(w) {
      JoinedReaders(w);
      if Drained(w).overflow {
        NamedStreamsOverflow(w);
      }
    }
  }

  lemma NamedStreamsOverflow(w: RunWorld)
    requires ReadersStop(w) && !ReadersFail(w) && Drained(w).overflow
    ensures var names := Drained(w).names;
            && names != []
            && (names[0] == "stdout" ==> |Readers.Concat(w.outChunks)| > w.outLimit)
            && (names[0] != "stdout" ==> |Readers.Concat(w.errChunks)| > w.errLimit)
  {
    Readers.ReadersAreExact("stdout", w.outLimit, w.outChunks, "stderr", w.errLimit, w.errChunks, w.turns);
    assert "stdout"[3] != "stderr"[3];
    assert Drained(w).names[0] in Drained(w).names;
  }

  function EndedBy(count: Option<nat>): CustodyState {
    if count == Some(0) then Terminated else UncertainCustody
  }

  function Verify(c: Custody, now: int): Result<Custody> {
    TransitionCustody(c, AbsenceVerified, NO_UPDATE.(activeCount := Some(0), absenceVerifiedAt := Some(now)))
  }

  function End(c: Custody, code: int, count: Option<nat>, failure: Option<string>): Result<Custody> {
    TransitionCustody(
      c, if failure.Some? then Terminated else Exited,
      NO_UPDATE.(exitCode := Some(code), activeCount := count, firstFailure := failure))
  }

  lemma EndMoves(c: Custody, code: int, count: Option<nat>, failure: Option<string>)
    requires c.state == DispatchingCustody && ValidCustody(c) && c.requestSent && c.firstFailure.None?
    ensures End(c, code, count, failure).Ok?
    ensures var end := End(c, code, count, failure).value;
            && CustodyMoves(c, end) && end.requestSent
            && end.state == (if failure.Some? then Terminated else Exited)
            && end.exitCode == Some(code) && end.activeCount == count && end.firstFailure == failure
            && end.adapterPid.Some? && end.adapterTime.Some?
  {
  }

  lemma VerifyMoves(c: Custody, now: int)
    requires c.state in {Exited, Terminated} && ValidCustody(c) && c.requestSent
    ensures Verify(c, now).Ok?
    ensures var v := Verify(c, now).value;
            && CustodyMoves(c, v) && v.state == AbsenceVerified && v.activeCount == Some(0)
            && v == c.(state := AbsenceVerified, activeCount := Some(0), absenceVerifiedAt := Some(now))
  {
  }

  /** What a fault leaves in place of `from`: verified absence where nothing was
      seen alive and the request was sent or no adapter is known; an adapter
      that never got its request is never verified gone. */
  function FaultRecord(from: Custody, exitCode: Option<int>, count: Option<nat>, failure: string, now: int): Custody {
    var ended := from.(state := EndedBy(count), exitCode := exitCode, activeCount := count, firstFailure := Some(failure));
    if count == Some(0) && (from.requestSent || from.adapterPid.None?) then
      ended.(state := AbsenceVerified, absenceVerifiedAt := Some(now))
    else ended
  }

  lemma FaultMoves(from: Custody, exitCode: Option<int>, count: Option<nat>, failure: string, now: int)
    requires from.state in {PreparedCustody, Assigned, DispatchingCustody} && ValidCustody(from)
    ensures var u := NO_UPDATE.(exitCode := exitCode, activeCount := count, firstFailure := Some(failure));
            var failed := TransitionCustody(from, EndedBy(count), u);
            && failed.Ok?
            && (count == Some(0) && Verify(failed.value, now).Ok? ==>
                  Verify(failed.value, now).value == FaultRecord(from, exitCode, count, failure, now))
            && (count != Some(0) || Verify(failed.value, now).Err? ==>
                  failed.value == FaultRecord(from, exitCode, count, failure, now))
  {
  }

  // ----- what a run records and raises when no write raises

  /** The adapter was assigned to the job, and its request marked as sent. */
  predicate Marked(w: RunWorld) {
    w.createsJob && w.launches && w.assigns && w.adapterTime.Some?
  }

  /** The end of the run was seen and counted. */
  predicate Counted(w: RunWorld) {
    Marked(w) && w.sends && !w.waiting.NeverStops? && ReadersStop(w) && w.endQuery.Some?
  }

  /** How a fault is told: what was seen of the exit and of the count, gone for
      good only if nothing was counted. */
  predicate Told(c: Custody, exitCode: Option<int>, count: Option<nat>, failure: string, now: int) {
    && c.exitCode == exitCode && c.activeCount == count && c.firstFailure == Some(failure)
    && (count == Some(0) ==> c.state == AbsenceVerified && c.absenceVerifiedAt == Some(now))
    && (count != Some(0) ==> c.state == UncertainCustody && c.absenceVerifiedAt.None?)
  }

  /** The record of a run of invocation `i`, field by field. */
  predicate Recorded(c: Custody, w: RunWorld, i: InvocationIdentity) {
    && c.invocationDigest == OfIdentity(i) && c.invocationId == i.invocationId
    && c.controllerPid == w.controllerPid && c.controllerTime == w.controllerTime
    && w.evidence == Some(c.workspaceContentDigest)
    && (Marked(w) ==> c.adapterPid == Some(w.adapterPid) && c.adapterTime == w.adapterTime && c.requestSent)
    && (!Marked(w) ==> c.adapterPid.None? && c.adapterTime.None? && !c.requestSent)
    && (!w.createsJob ==>
          && c.state == UncertainCustody && c.exitCode.None? && c.activeCount.None? && c.absenceVerifiedAt.None?
          && c.firstFailure == Some("INTEGRATION_CONTAINMENT_FAILED"))
    && (w.createsJob && w.launches && !w.assigns && w.stops ==>
          Told(c, w.assignExit, w.assignQuery, "INTEGRATION_CONTAINMENT_FAILED", w.now))
    && (w.createsJob && w.launches && !w.assigns && !w.stops ==>
          Told(c, w.faultExit, w.faultQuery, "INTEGRATION_CONTAINMENT_FAILED", w.now))
    && (w.createsJob && !w.launches ==> Told(c, None, w.faultQuery, "INTEGRATION_CONTAINMENT_FAILED", w.now))
    && (w.createsJob && w.launches && w.assigns && w.adapterTime.None? ==>
          Told(c, w.faultExit, w.faultQuery, "INTEGRATION_CONTAINMENT_FAILED", w.now))
    && (Marked(w) && !Counted(w) ==> Told(c, w.faultExit, w.faultQuery, "INTEGRATION_OUTCOME_UNCERTAIN", w.now))
    && (Counted(w) ==> EndTold(c, w))
  }

  /** How a counted end is told: its exit code, its count and its failure. */
  predicate EndTold(c: Custody, w: RunWorld)
    requires !w.waiting.NeverStops?
  {
    && c.exitCode == Some(w.waiting.code) && c.activeCount == w.endQuery && Names(w, c.firstFailure)
    && (w.endQuery == Some(0) ==> c.state == AbsenceVerified && c.absenceVerifiedAt == Some(w.now))
    && (w.endQuery != Some(0) ==>
          c.absenceVerifiedAt.None? && c.state == if c.firstFailure.Some? then Terminated else Exited)
  }

  predicate StartRaises(w: RunWorld, code: string) {
    && (!w.launches ==> code == "OS_ERROR")
    && (w.launches && !w.assigns && w.stops ==> code == "INTEGRATION_CONTAINMENT_FAILED")
    && (w.launches && !w.assigns && !w.stops ==> code == "TIMEOUT_EXPIRED")
    && (w.launches && w.assigns && w.adapterTime.None? ==> code == "INTEGRATION_PROCESS_IDENTITY_INVALID")
    && (w.launches && w.assigns && w.adapterTime.Some? ==> !w.sends && code == "OS_ERROR")
  }

  predicate EndRaises(w: RunWorld, code: string)
    requires !w.waiting.NeverStops?
  {
    && (w.endQuery != Some(0) ==> code == "INTEGRATION_OUTCOME_UNCERTAIN")
    && (w.endQuery == Some(0) ==>
          && (w.outFails || w.errFails || Overflows(w) ==> code == "INTEGRATION_RESULT_INVALID")
          && (!w.outFails && !w.errFails && !Overflows(w) ==>
                if w.waiting.TimesOut? then code == "CODEX_TIMEOUT"
                else w.waiting.code != 0 && code == "INTEGRATION_EXECUTION_FAILED"))
  }

  predicate WaitRaises(w: RunWorld, code: string) {
    && (w.waiting.NeverStops? ==> code == "TIMEOUT_EXPIRED")
    && (!w.waiting.NeverStops? && !ReadersStop(w) ==> code == "INTEGRATION_OUTCOME_UNCERTAIN")
    && (!w.waiting.NeverStops? && ReadersStop(w) && w.endQuery.None? ==> code == "INTEGRATION_CONTAINMENT_FAILED")
    && (!w.waiting.NeverStops? && ReadersStop(w) && w.endQuery.Some? ==> EndRaises(w, code))
  }

  /** The code that a run raises. */
  predicate Raises(w: RunWorld, code: string) {
    && (w.evidence.None? ==> code == "INTEGRATION_IDENTITY_INVALID")
    && (w.evidence.Some? && !w.createsJob ==> code == "INTEGRATION_CONTAINMENT_FAILED")
    && (w.evidence.Some? && w.createsJob ==>
          if Marked(w) && w.sends then WaitRaises(w, code) else StartRaises(w, code))
  }

  /** The faults left are among the faults there were. */
  predicate FewerFaults(before: seq<WriteFault>, after: seq<WriteFault>) {
    forall f | f in after :: f in before
  }

  class WindowsJobAdapterRunner {
    const store: CustodyDisk
    const invocation: InvocationIdentity

    constructor (store: CustodyDisk, invocation: InvocationIdentity)
      ensures this.store == store && this.invocation == invocation
    {
      this.store, this.invocation := store, invocation;
    }

    function NewCustody(w: RunWorld, content: Digest): (c: Custody)
      ensures c.state == PreparedCustody && ValidCustody(c) && c.invocationId == invocation.invocationId
      ensures c.activeCount.None? && c.firstFailure.None? && c.exitCode.None?
    {
      Custody(
        OfIdentity(invocation), invocation.invocationId, w.controllerPid, w.controllerTime, None, None, content,
        PreparedCustody, false, None, None, None, None)
    }

    /** The durable record meets the acceptance test of its invocation. */
    predicate Accepted()
      reads store
    {
      invocation.invocationId in store.custody && VerifiedSuccess(store.custody[invocation.invocationId], invocation)
    }

    /** The log has begun and its last record is the durable one. */
    ghost predicate Begun()
      reads store
    {
      && store.Valid() && store.id == invocation.invocationId
      && store.log != [] && invocation.invocationId in store.custody
    }

    /** One guarded save.  Nothing is stored over a record other than `from`. */
    method SaveMove(from: Custody, next: Custody) returns (saved: bool)
      requires Begun() && from.invocationId == invocation.invocationId
      requires CustodyMoves(from, next) && Observed(LastSeen(store.log), next)
      modifies store
      ensures Begun() && LastSeen(store.log) == LastSeen(old(store.log))
      ensures old(store.custody[invocation.invocationId]) != from ==>
                !saved && store.custody == old(store.custody) && store.faults == old(store.faults)
      ensures old(store.custody[invocation.invocationId]) == from ==>
                && store.faults == (if old(store.faults) == [] then [] else old(store.faults)[1..])
                && var fault := if old(store.faults) == [] then Persists else old(store.faults)[0];
                   && saved == (fault == Persists)
                   && store.custody == if fault == RaisesBefore then old(store.custody)
                                       else old(store.custody)[invocation.invocationId := next]
    {
      CustodySavesAreMoves(store.custody, next, OfCustody(from));
      saved := store.Save(next, OfCustody(from));
    }

    /** Saves an ended record after a query, then its verified form when the
        query saw nothing alive.  Refusals end it silently. */
    method SaveEnded(from: Custody, w: RunWorld, exitCode: Option<int>, count: Option<nat>, failure: string)
      requires Begun() && from.invocationId == invocation.invocationId && from.firstFailure.None?
      requires from.state in {PreparedCustody, Assigned, DispatchingCustody} && ValidCustody(from)
      requires LastSeen(store.log) == Some(count)
      modifies store
      ensures Begun()
      ensures !old(Accepted()) ==> !Accepted()
      ensures FewerFaults(old(store.faults), store.faults)
      ensures old(store.custody[invocation.invocationId]) != from ==> store.custody == old(store.custody)
      ensures old(store.custody[invocation.invocationId]) == from && RaisesBefore !in old(store.faults) ==>
                var c := store.custody[invocation.invocationId];
                && c.activeCount == count && c.exitCode == exitCode && c.firstFailure == Some(failure)
                && c.state in {EndedBy(count), AbsenceVerified}
                && (c.state == AbsenceVerified ==> count == Some(0))
      ensures old(store.custody[invocation.invocationId]) == from && NoFaults(old(store.faults)) ==>
                store.custody == old(store.custody)[invocation.invocationId := FaultRecord(from, exitCode, count, failure, w.now)]
    {
      var u := NO_UPDATE.(exitCode := exitCode, activeCount := count, firstFailure := Some(failure));
      FaultMoves(from, exitCode, count, failure, w.now);
      var failed := TransitionCustody(from, EndedBy(count), u).value;
      var saved := SaveMove(from, failed);
      if !saved || count != Some(0) {
        return;
      }
      var verified := Verify(failed, w.now);
      if verified.Err? {
        return;
      }
      saved := SaveMove(failed, verified.value);
    }

    /** The adapter could not be put into the job: kill it and say so. */
    method AssignmentFailed(custody: Custody, w: RunWorld)
      requires Begun() && custody.invocationId == invocation.invocationId && custody.firstFailure.None?
      requires custody.state == PreparedCustody && ValidCustody(custody)
      modifies store
      ensures Begun()
      ensures !old(Accepted()) ==> !Accepted()
      ensures FewerFaults(old(store.faults), store.faults)
      ensures
        w.stops && old(store.custody[invocation.invocationId]) == custody && RaisesBefore !in old(store.faults) ==>
          AssignmentTold(w)
      ensures
        old(store.custody[invocation.invocationId]) == custody && NoFaults(old(store.faults)) ==>
          store.custody == old(store.custody)[invocation.invocationId := AfterAssignment(custody, w)]
    {
      if !w.stops {
        return;
      }
      var count := store.Query(w.assignQuery);
      SaveEnded(custody, w, w.assignExit, count, "INTEGRATION_CONTAINMENT_FAILED");
    }

    /** What the assignment path stores when no write raises. */
    function AfterAssignment(custody: Custody, w: RunWorld): Custody {
      if w.stops then FaultRecord(custody, w.assignExit, w.assignQuery, "INTEGRATION_CONTAINMENT_FAILED", w.now)
      else custody
    }

    /** The durable record is the one the assignment path has stored. */
    predicate AssignmentTold(w: RunWorld)
      reads store
    {
      && invocation.invocationId in store.custody
      && var c := store.custody[invocation.invocationId];
         && c.activeCount == w.assignQuery && c.exitCode == w.assignExit
         && c.firstFailure == Some("INTEGRATION_CONTAINMENT_FAILED")
         && c.state in {EndedBy(w.assignQuery), AbsenceVerified}
         && (c.state == AbsenceVerified ==> w.assignQuery == Some(0))
    }

    /** Any fault: ask once more and store what is seen over `persisted`, the
        record held in memory.  Where that is stale nothing is stored. */
    method RecordFault(persisted: Custody, w: RunWorld)
      requires Begun() && persisted.invocationId == invocation.invocationId && persisted.firstFailure.None?
      requires persisted.state in {PreparedCustody, Assigned, DispatchingCustody} && ValidCustody(persisted)
      modifies store
      ensures Begun()
      ensures !old(Accepted()) ==> !Accepted()
      ensures old(store.custody[invocation.invocationId]) != persisted ==> store.custody == old(store.custody)
      ensures old(store.custody[invocation.invocationId]) == persisted && NoFaults(old(store.faults)) ==>
                store.custody == old(store.custody)[invocation.invocationId := AfterFault(persisted, w)]
    {
      var count := store.Query(w.faultQuery);
      SaveEnded(persisted, w, if w.launches then w.faultExit else None, count, FaultText(persisted));
    }

    function FaultText(persisted: Custody): string {
      if persisted.state == PreparedCustody then "INTEGRATION_CONTAINMENT_FAILED" else "INTEGRATION_OUTCOME_UNCERTAIN"
    }

    function AfterFault(persisted: Custody, w: RunWorld): Custody {
      FaultRecord(persisted, if w.launches then w.faultExit else None, w.faultQuery, FaultText(persisted), w.now)
    }

    /** The records of a run, up to the sent request. */
    function AssignedRecord(custody: Custody, w: RunWorld): Custody {
      custody.(state := Assigned, adapterPid := Some(w.adapterPid), adapterTime := w.adapterTime)
    }

    function DispatchedRecord(custody: Custody, w: RunWorld): Custody {
      AssignedRecord(custody, w).(state := DispatchingCustody, requestSent := true)
    }

    /** The record of a run whose end was counted. */
    function EndRecord(dispatched: Custody, w: RunWorld): Custody
      requires !w.waiting.NeverStops?
    {
      var failure := RunFailure(w);
      dispatched.(
        state := if w.endQuery == Some(0) then AbsenceVerified else if failure.Some? then Terminated else Exited,
        exitCode := Some(w.waiting.code), activeCount := w.endQuery, firstFailure := failure,
        absenceVerifiedAt := if w.endQuery == Some(0) then Some(w.now) else None)
    }

    /** The record that a run leaves when no write raises. */
    function FinalRecord(w: RunWorld): Custody
      requires w.evidence.Some?
    {
      var custody := NewCustody(w, w.evidence.value);
      var dispatched := DispatchedRecord(custody, w);
      if !w.createsJob then
        custody.(state := UncertainCustody, firstFailure := Some("INTEGRATION_CONTAINMENT_FAILED"))
      else if w.launches && !w.assigns && w.stops then AfterAssignment(custody, w)
      else if !w.launches || !w.assigns || w.adapterTime.None? then AfterFault(custody, w)
      else if !w.sends then AfterFault(dispatched, w)
      else CompletedRecord(dispatched, w)
    }

    /** That record tells the run. */
    lemma FinalRecordTells(w: RunWorld)
      requires w.evidence.Some?
      ensures Recorded(FinalRecord(w), w, invocation)
    {
      if Counted(w) {
        FailuresAreNamedTruly(w);
      }
    }

    /** From the launch to the sent request.  Returns the last record known to
        be stored, and the code that is raised. */
    method Start(custody: Custody, w: RunWorld) returns (r: Result<()>, persisted: Custody)
      requires Begun() && store.custody[invocation.invocationId] == custody
      requires custody.state == PreparedCustody && ValidCustody(custody) && custody.firstFailure.None?
      requires custody.activeCount.None? && custody.invocationId == invocation.invocationId
      requires custody.invocationDigest == OfIdentity(invocation)
      modifies store
      ensures Begun() && !Accepted() && FewerFaults(old(store.faults), store.faults)
      ensures persisted.invocationId == invocation.invocationId && persisted.firstFailure.None?
      ensures persisted.state in {PreparedCustody, Assigned, DispatchingCustody} && ValidCustody(persisted)
      ensures r.Ok? ==>
                && store.custody[invocation.invocationId] == persisted
                && persisted.state == DispatchingCustody && persisted.requestSent && ValidCustody(persisted)
                && persisted.invocationDigest == OfIdentity(invocation)
      ensures w.launches && !w.assigns ==> persisted == custody && r.Err?
      ensures NoFaults(old(store.faults)) ==>
                (if w.launches && !w.assigns then
                   store.custody == old(store.custody)[invocation.invocationId := AfterAssignment(custody, w)]
                 else if !w.launches || w.adapterTime.None? then persisted == custody && store.custody == old(store.custody)
                 else
                   && persisted == DispatchedRecord(custody, w)
                   && store.custody == old(store.custody)[invocation.invocationId := persisted])
      ensures w.launches && w.assigns && w.adapterTime.Some? && old(store.faults) == [Persists, RaisesBefore] ==>
                && r.Err? && store.faults == [] && persisted == AssignedRecord(custody, w)
                && store.custody == old(store.custody)[invocation.invocationId := persisted]
      ensures r.Ok? ==> w.launches && w.assigns && w.adapterTime.Some? && w.sends
      ensures w.launches && w.assigns && w.adapterTime.Some? && w.sends && NoFaults(old(store.faults)) ==> r.Ok?
      ensures w.launches && !w.assigns && w.stops && RaisesBefore !in old(store.faults) ==> AssignmentTold(w)
      ensures r.Err? && NoFaults(old(store.faults)) ==> StartRaises(w, r.code)
    {
      persisted := custody;
      if !w.launches {
        return Err("OS_ERROR"), persisted;
      }
      if !w.assigns {
        AssignmentFailed(custody, w);
        return Err(if w.stops then "INTEGRATION_CONTAINMENT_FAILED" else "TIMEOUT_EXPIRED"), persisted;
      }
      if w.adapterTime.None? {
        return Err("INTEGRATION_PROCESS_IDENTITY_INVALID"), persisted;
      }
      r, persisted := SendRequest(custody, w);
    }

    /** From the assigned adapter to the sent request. */
    method SendRequest(custody: Custody, w: RunWorld) returns (r: Result<()>, persisted: Custody)
      requires Begun() && store.custody[invocation.invocationId] == custody
      requires custody.state == PreparedCustody && ValidCustody(custody) && custody.firstFailure.None?
      requires custody.activeCount.None? && custody.invocationId == invocation.invocationId
      requires custody.invocationDigest == OfIdentity(invocation) && w.adapterTime.Some?
      modifies store
      ensures Begun() && !Accepted() && FewerFaults(old(store.faults), store.faults)
      ensures persisted.invocationId == invocation.invocationId && persisted.firstFailure.None?
      ensures persisted.state in {PreparedCustody, Assigned, DispatchingCustody} && ValidCustody(persisted)
      ensures r.Ok? ==>
                && store.custody[invocation.invocationId] == persisted
                && persisted.state == DispatchingCustody && persisted.requestSent && ValidCustody(persisted)
                && persisted.invocationDigest == OfIdentity(invocation)
      ensures r.Ok? ==> w.sends
      ensures w.sends && NoFaults(old(store.faults)) ==> r.Ok?
      ensures r.Err? && NoFaults(old(store.faults)) ==> r.code == "OS_ERROR"
      ensures NoFaults(old(store.faults)) ==>
                && persisted == DispatchedRecord(custody, w)
                && store.custody == old(store.custody)[invocation.invocationId := persisted]
      ensures old(store.faults) == [Persists, RaisesBefore] ==>
                && r.Err? && store.faults == [] && persisted == AssignedRecord(custody, w)
                && store.custody == old(store.custody)[invocation.invocationId := persisted]
    {
      persisted := custody;
      var joined := TransitionCustody(
        custody, Assigned, NO_UPDATE.(adapterPid := Some(w.adapterPid), adapterTime := w.adapterTime)).value;
      var saved := SaveMove(custody, joined);
      if !saved {
        return Err("STORAGE_WRITE_FAILED"), persisted;
      }
      persisted := joined;
      var dispatching := TransitionCustody(joined, DispatchingCustody, NO_UPDATE).value;
      saved := SaveMove(joined, dispatching);
      if !saved {
        return Err("STORAGE_WRITE_FAILED"), persisted;
      }
      persisted := dispatching;
      if !w.sends {
        return Err("OS_ERROR"), persisted;
      }
      return Ok(()), persisted;
    }

    /** Turns an ended record with nothing active into verified absence. */
    method SaveVerified(end: Custody, w: RunWorld) returns (saved: bool)
      requires Begun() && store.custody[invocation.invocationId] == end && end.invocationId == invocation.invocationId
      requires end.state in {Exited, Terminated} && ValidCustody(end) && end.requestSent
      requires LastSeen(store.log) == Some(Some(0))
      modifies store
      ensures Begun()
      ensures Verify(end, w.now).Ok?
      ensures saved ==> store.custody == old(store.custody)[invocation.invocationId := Verify(end, w.now).value]
      ensures !saved && RaisesAfter !in old(store.faults) ==> store.custody == old(store.custody)
      ensures NoFaults(old(store.faults)) ==> saved
    {
      VerifyMoves(end, w.now);
      var verified := Verify(end, w.now).value;
      saved := SaveMove(end, verified);
    }

    /** From the sent request to the verified end. */
    method Finish(dispatching: Custody, w: RunWorld) returns (r: Result<Bytes>, ended: bool)
      requires Begun() && !Accepted() && store.custody[invocation.invocationId] == dispatching
      requires dispatching.state == DispatchingCustody && dispatching.requestSent && ValidCustody(dispatching)
      requires dispatching.invocationId == invocation.invocationId && dispatching.firstFailure.None?
      requires dispatching.invocationDigest == OfIdentity(invocation)
      modifies store
      ensures Begun()
      ensures r.Ok? ==>
                && Accepted() && r.value == Readers.Concat(w.outChunks)
                && StreamsFit(w) && w.waiting == Exits(0) && w.endQuery == Some(0)
      ensures r.Err? && RaisesAfter !in old(store.faults) ==> !Accepted()
      ensures w.waiting == Exits(0) && StreamsFit(w) && w.endQuery == Some(0) && NoFaults(old(store.faults)) ==> r.Ok?
      ensures !ended ==> !Accepted()
      ensures NoFaults(old(store.faults)) ==>
                && (ended <==> !w.waiting.NeverStops? && ReadersStop(w) && w.endQuery.Some?)
                && (!ended ==> NoFaults(store.faults))
                && store.custody == (if ended then old(store.custody)[invocation.invocationId := EndRecord(dispatching, w)]
                                     else old(store.custody))
                && (r.Err? ==> WaitRaises(w, r.code))
    {
      if w.waiting.NeverStops? {
        return Err("TIMEOUT_EXPIRED"), false;
      }
      if !ReadersStop(w) {
        return Err("INTEGRATION_OUTCOME_UNCERTAIN"), false;
      }
      var count := store.Query(w.endQuery);
      if count.None? {
        return Err("INTEGRATION_CONTAINMENT_FAILED"), false;
      }
      r, ended := StoreEnd(dispatching, w);
    }

    /** From the counted end to the verified one. */
    method StoreEnd(dispatching: Custody, w: RunWorld) returns (r: Result<Bytes>, ended: bool)
      requires Begun() && !Accepted() && store.custody[invocation.invocationId] == dispatching
      requires dispatching.state == DispatchingCustody && dispatching.requestSent && ValidCustody(dispatching)
      requires dispatching.invocationId == invocation.invocationId && dispatching.firstFailure.None?
      requires dispatching.invocationDigest == OfIdentity(invocation)
      requires !w.waiting.NeverStops? && ReadersStop(w) && w.endQuery.Some? && LastSeen(store.log) == Some(w.endQuery)
      modifies store
      ensures Begun()
      ensures r.Ok? ==>
                && Accepted() && r.value == Readers.Concat(w.outChunks)
                && StreamsFit(w) && w.waiting == Exits(0) && w.endQuery == Some(0)
      ensures r.Err? && RaisesAfter !in old(store.faults) ==> !Accepted()
      ensures w.waiting == Exits(0) && StreamsFit(w) && w.endQuery == Some(0) && NoFaults(old(store.faults)) ==> r.Ok?
      ensures !ended ==> !Accepted()
      ensures NoFaults(old(store.faults)) ==>
                && ended
                && store.custody == old(store.custody)[invocation.invocationId := EndRecord(dispatching, w)]
                && EndTold(store.custody[invocation.invocationId], w)
                && (r.Err? ==> EndRaises(w, r.code))
    {
      var failure := RunFailure(w);
      SuccessMeans(w);
      EndTells(dispatching, w);
      EndMoves(dispatching, w.waiting.code, w.endQuery, failure);
      EndRecordIsStored(dispatching, w);
      var end := End(dispatching, w.waiting.code, w.endQuery, failure).value;
      var saved := SaveMove(dispatching, end);
      if !saved {
        return Err("STORAGE_WRITE_FAILED"), false;
      }
      if w.endQuery != Some(0) {
        return Err("INTEGRATION_OUTCOME_UNCERTAIN"), true;
      }
      saved := SaveVerified(end, w);
      if !saved {
        return Err("STORAGE_WRITE_FAILED"), true;
      }
      assert store.custody == old(store.custody)[invocation.invocationId := EndRecord(dispatching, w)];
      if failure.Some? {
        return Err(if Drained(w).overflow || ReadersFail(w) then "INTEGRATION_RESULT_INVALID" else failure.value), true;
      }
      return Ok(Drained(w).out.buffer), true;
    }

    lemma EndTells(dispatching: Custody, w: RunWorld)
      requires !w.waiting.NeverStops? && ReadersStop(w)
      ensures EndTold(EndRecord(dispatching, w), w)
      ensures w.endQuery == Some(0) && RunFailure(w).Some? ==>
                EndRaises(w, if Drained(w).overflow || ReadersFail(w) then "INTEGRATION_RESULT_INVALID" else RunFailure(w).value)
    {
      FailuresAreNamedTruly(w);
      if !ReadersFail(w) {
        JoinedReaders(w);
      }
    }

    lemma EndRecordIsStored(dispatching: Custody, w: RunWorld)
      requires dispatching.state == DispatchingCustody && dispatching.requestSent && ValidCustody(dispatching)
      requires dispatching.firstFailure.None? && !w.waiting.NeverStops? && w.endQuery.Some?
      ensures var end := End(dispatching, w.waiting.code, w.endQuery, RunFailure(w));
              && end.Ok?
              && if w.endQuery == Some(0) then Verify(end.value, w.now) == Ok(EndRecord(dispatching, w))
                 else end.value == EndRecord(dispatching, w)
    {
      EndMoves(dispatching, w.waiting.code, w.endQuery, RunFailure(w));
    }

    /** There is no job object: nothing was started and nothing was counted. */
    method RecordNoJob(custody: Custody)
      requires Begun() && store.custody[invocation.invocationId] == custody && store.log == [Stored(custody)]
      requires custody.state == PreparedCustody && ValidCustody(custody) && custody.firstFailure.None?
      requires custody.activeCount.None? && custody.exitCode.None? && custody.invocationId == invocation.invocationId
      modifies store
      ensures store.Valid() && !Accepted()
      ensures NoFaults(old(store.faults)) ==>
                store.custody == old(store.custody)[
                  invocation.invocationId :=
                    custody.(state := UncertainCustody, firstFailure := Some("INTEGRATION_CONTAINMENT_FAILED"))]
    {
      var uncertain := TransitionCustody(
        custody, UncertainCustody, NO_UPDATE.(firstFailure := Some("INTEGRATION_CONTAINMENT_FAILED"))).value;
      var _ := SaveMove(custody, uncertain);
    }

    /** From the sent request on: the end is stored, or the fault is. */
    method Complete(dispatching: Custody, w: RunWorld) returns (r: Result<Bytes>)
      requires Begun() && !Accepted() && store.custody[invocation.invocationId] == dispatching
      requires dispatching.state == DispatchingCustody && dispatching.requestSent && ValidCustody(dispatching)
      requires dispatching.invocationId == invocation.invocationId && dispatching.firstFailure.None?
      requires dispatching.invocationDigest == OfIdentity(invocation)
      modifies store
      ensures store.Valid()
      ensures r.Ok? ==>
                && Accepted() && r.value == Readers.Concat(w.outChunks)
                && StreamsFit(w) && w.waiting == Exits(0) && w.endQuery == Some(0)
      ensures RaisesAfter !in old(store.faults) ==> (r.Ok? <==> Accepted())
      ensures NoFaults(old(store.faults)) ==>
                && (r.Ok? <==> w.waiting == Exits(0) && StreamsFit(w) && w.endQuery == Some(0))
                && (r.Err? ==> WaitRaises(w, r.code))
                && store.custody == old(store.custody)[invocation.invocationId := CompletedRecord(dispatching, w)]
    {
      var ended;
      r, ended := Finish(dispatching, w);
      if r.Err? && !ended {
        RecordFault(dispatching, w);
      }
    }

    function CompletedRecord(dispatched: Custody, w: RunWorld): Custody {
      if w.waiting.NeverStops? || !ReadersStop(w) || w.endQuery.None? then AfterFault(dispatched, w)
      else EndRecord(dispatched, w)
    }

    /** The part of a run that has a job object. */
    method CallInJob(custody: Custody, w: RunWorld) returns (r: Result<Bytes>)
      requires Begun() && store.custody[invocation.invocationId] == custody
      requires w.evidence.Some? && w.createsJob && custody == NewCustody(w, w.evidence.value)
      modifies store
      ensures store.Valid()
      ensures r.Ok? ==> Accepted() && r.value == Readers.Concat(w.outChunks) && CleanRun(w)
      ensures NoFaults(old(store.faults)) ==>
                && (r.Ok? <==> CleanRun(w)) && (r.Err? ==> Raises(w, r.code))
                && store.custody == old(store.custody)[invocation.invocationId := FinalRecord(w)]
      ensures RaisesAfter !in old(store.faults) ==> (r.Ok? <==> Accepted())
      ensures w.launches && w.assigns && w.adapterTime.Some? && old(store.faults) == [Persists, RaisesBefore] ==>
                && r.Err? && store.custody == old(store.custody)[
                                                invocation.invocationId := AfterFault(AssignedRecord(custody, w), w)]
    {
      var started, persisted := Start(custody, w);
      if started.Ok? {
        r := Complete(persisted, w);
      } else {
        RecordFault(persisted, w);
        r := Err(started.code);
      }
    }

    /** From the created custody on. */
    method CallCreated(custody: Custody, w: RunWorld) returns (r: Result<Bytes>)
      requires Begun() && store.custody[invocation.invocationId] == custody && store.log == [Stored(custody)]
      requires w.evidence.Some? && custody == NewCustody(w, w.evidence.value)
      modifies store
      ensures store.Valid()
      ensures r.Ok? ==> Accepted() && r.value == Readers.Concat(w.outChunks) && CleanRun(w)
      ensures NoFaults(old(store.faults)) ==>
                && (r.Ok? <==> CleanRun(w)) && (r.Err? ==> Raises(w, r.code))
                && store.custody == old(store.custody)[invocation.invocationId := FinalRecord(w)]
      ensures RaisesAfter !in old(store.faults) ==> (r.Ok? <==> Accepted())
      ensures
        w.createsJob && w.launches && w.assigns && w.adapterTime.Some? && old(store.faults) == [Persists, RaisesBefore] ==>
          && r.Err? && store.custody == old(store.custody)[
                                          invocation.invocationId := AfterFault(AssignedRecord(custody, w), w)]
    {
      if !w.createsJob {
        RecordNoJob(custody);
        return Err("INTEGRATION_CONTAINMENT_FAILED");
      }
      r := CallInJob(custody, w);
    }

    /** One run.  It leaves truthful custody however it ends; it returns the
        complete standard output only over durable custody that the acceptance
        test accepts, and always does when no write raises after persisting.
        When no write raises, each exit leaves its own record and raises its own
        code; what the failed assignment has stored is not overwritten by the
        record still held in memory; when the adapter is assigned and the request cannot be marked
        as sent, its custody is never verified gone, whatever is counted. */
    method Call(w: RunWorld) returns (r: Result<Bytes>)
      requires store.Valid() && store.log == [] && store.id == invocation.invocationId
      modifies store
      ensures store.Valid()
      ensures r.Ok? ==> Accepted() && r.value == Readers.Concat(w.outChunks) && CleanRun(w)
      ensures invocation.invocationId !in old(store.custody) && NoFaults(old(store.faults)) ==> (r.Ok? <==> CleanRun(w))
      ensures invocation.invocationId !in old(store.custody) && RaisesAfter !in old(store.faults) ==> (r.Ok? <==> Accepted())
      ensures invocation.invocationId in old(store.custody) ==> store.custody == old(store.custody)
      ensures
        invocation.invocationId !in old(store.custody) && NoFaults(old(store.faults)) && w.evidence.Some? ==>
          && store.custody == old(store.custody)[invocation.invocationId := FinalRecord(w)]
          && Recorded(store.custody[invocation.invocationId], w, invocation)
      ensures w.evidence.None? ==> store.custody == old(store.custody)
      ensures invocation.invocationId !in old(store.custody) && NoFaults(old(store.faults)) && r.Err? ==> Raises(w, r.code)
      ensures w.evidence.Some? && invocation.invocationId in old(store.custody) ==> r == Err("INTEGRATION_CUSTODY_EXISTS")
      ensures
        (invocation.invocationId !in old(store.custody) && old(store.faults) == [Persists, Persists, RaisesBefore]
         && w.evidence.Some? && w.createsJob && w.launches && w.assigns && w.adapterTime.Some?)
        ==> && r.Err? && invocation.invocationId in store.custody
            && var c := store.custody[invocation.invocationId];
               && c.state == EndedBy(w.faultQuery) && c.activeCount == w.faultQuery
               && c.adapterPid == Some(w.adapterPid) && !c.requestSent
    {
      if w.evidence.None? {
        return Err("INTEGRATION_IDENTITY_INVALID");
      }
      var custody := NewCustody(w, w.evidence.value);
      if invocation.invocationId in store.custody {
        return Err("INTEGRATION_CUSTODY_EXISTS");
      }
      var created := store.Create(custody);
      if !created {
        return Err("STORAGE_WRITE_FAILED");
      }
      FinalRecordTells(w);
      r := CallCreated(custody, w);
    }

    /** When no write raises, a run leaves verified absence exactly if it had a
        job and the query that ended it saw nothing alive; and its record passes
        the acceptance test exactly after a clean run. */
    lemma VerifiedExactlyAfterZero(w: RunWorld)
      requires w.evidence.Some?
      ensures FinalRecord(w).state == AbsenceVerified <==> w.createsJob && EndingQuery(w) == Some(0)
      ensures VerifiedSuccess(FinalRecord(w), invocation) <==> CleanRun(w)
    {
      if !w.waiting.NeverStops? && ReadersStop(w) {
        SuccessMeans(w);
      }
    }
  }

  /** The answer that decides how a run is recorded. */
  function EndingQuery(w: RunWorld): Option<nat> {
    if w.launches && !w.assigns && w.stops then w.assignQuery
    else if
      w.launches && w.assigns && w.adapterTime.Some? && w.sends && !w.waiting.NeverStops? && ReadersStop(w)
      && w.endQuery.Some?
    then w.endQuery
    else w.faultQuery
  }

  /** An assigned adapter whose request could not be marked as sent: nothing is
      alive any more, and its custody stays TERMINATED. */
  method UnsentRun(invocation: InvocationIdentity) returns (c: Custody)
    ensures c.state == Terminated && c.activeCount == Some(0) && c.adapterPid.Some? && !c.requestSent
  {
    var store := new CustodyDisk(invocation.invocationId, map[], [Persists, Persists, RaisesBefore]);
    var runner := new WindowsJobAdapterRunner(store, invocation);
    var w := RunWorld(
      Some(OfDocument("workspace")), 1, 1, true, true, true, true, None, None, 2, Some(2), true, Exits(0),
      65_536, [], false, 65_536, [], false, [true, false], Some(0), Some(1), Some(0), 9);
    var r := runner.Call(w);
    c := store.custody[invocation.invocationId];
  }
}
