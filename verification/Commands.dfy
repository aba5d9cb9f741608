/** The operator commands of the application service.

    A command is described by its effect on a given directory: the durable
    writes it makes, in order, and how it ends.  A crash, or any exception that
    is not caught, leaves a prefix of those writes.  Git, the clock, the
    definitions directory, the process probe and the adapter are inputs. */
module Commands {
  import opened Outcomes
  import opened Records
  import opened Lifecycle
  import opened Stores
  import opened Acceptance

  const RECOVERY_CLEANUP_OUTCOME := "adapter absence and unchanged workspace verified; workspace retained"

  datatype Reply =
    | AttemptReply(attempt: Attempt)
    | InvocationReply(invocation: Invocation)
    | ReceiptReply(receipt: Receipt)
    | RecoveryReply(recovered: Invocation, aborted: Attempt, custody: Custody)

  datatype Effect = Effect(writes: seq<Write>, outcome: Result<Reply>)

  function Refuse(code: string): Effect {
    Effect([], Err(code))
  }

  function Done(reply: Reply): Effect {
    Effect([], Ok(reply))
  }

  function Put(w: Write, rest: Effect): Effect {
    Effect([w] + rest.writes, rest.outcome)
  }

  /** One guarded store call followed by the rest of the command. */
  function Step<T>(guard: Result<T>, w: Write, rest: Effect): Effect {
    if guard.Err? then Refuse(guard.code) else Put(w, rest)
  }

  /** Running an effect on a disk that may fault before any of its writes. */
  function Run(d: Disk, e: Effect): (Disk, Result<Reply>)
    decreases |e.writes|
  {
    if e.writes == [] then (d, e.outcome)
    else
      var (d', r) := WriteOn(d, e.writes[0]);
      if r.Err? then (d', Err(r.code)) else Run(d', Effect(e.writes[1..], e.outcome))
  }

  /** A run leaves a prefix of the writes, all of them when no fault hits. */
  lemma {:induction false} RunAppliesPrefix(d: Disk, e: Effect)
    ensures var n := if |e.writes| <= d.writesLeft then |e.writes| else d.writesLeft;
            && Run(d, e).0 == Disk(ApplyAll(d.stores, e.writes[..n]), d.writesLeft - n)
            && Run(d, e).1 == if |e.writes| <= d.writesLeft then e.outcome else Err("STORAGE_WRITE_FAILED")
    decreases |e.writes|
  {
    if e.writes != [] && d.writesLeft > 0 {
      var d' := WriteOn(d, e.writes[0]).0;
      RunAppliesPrefix(d', Effect(e.writes[1..], e.outcome));
      var n := if |e.writes| <= d.writesLeft then |e.writes| else d.writesLeft;
      assert e.writes[..n][1..] == e.writes[1..][..n - 1];
    }
  }

  lemma RunStep<T>(d: Disk, guard: Result<T>, w: Write, rest: Effect)
    ensures Run(d, Step(guard, w, rest)) ==
            if guard.Err? then (d, Err(guard.code))
            else if d.writesLeft == 0 then (d, Err("STORAGE_WRITE_FAILED"))
            else Run(Disk(Apply(d.stores, w), d.writesLeft - 1), rest)
  {
    if guard.Ok? {
      RunPut(d, w, rest);
    }
  }

  lemma RunPut(d: Disk, w: Write, rest: Effect)
    ensures Run(d, Put(w, rest)) ==
            if d.writesLeft == 0 then (d, Err("STORAGE_WRITE_FAILED"))
            else Run(Disk(Apply(d.stores, w), d.writesLeft - 1), rest)
  {
    PutSplits(w, rest);
    RunFirst(d, Put(w, rest), w, rest);
  }

  lemma PutSplits(w: Write, rest: Effect)
    ensures var e := Put(w, rest);
            e.writes != [] && e.writes[0] == w && Effect(e.writes[1..], e.outcome) == rest
  {
    assert Put(w, rest).writes[1..] == rest.writes;
  }

  lemma RunFirst(d: Disk, e: Effect, w: Write, rest: Effect)
    requires e.writes != [] && e.writes[0] == w && Effect(e.writes[1..], e.outcome) == rest
    ensures Run(d, e) ==
            if d.writesLeft == 0 then (d, Err("STORAGE_WRITE_FAILED"))
            else Run(Disk(Apply(d.stores, w), d.writesLeft - 1), rest)
  {
  }

  /** The directory after an effect that nothing cuts. */
  function After(s: Stores, e: Effect): Stores {
    ApplyAll(s, e.writes)
  }

  lemma AfterPut(s: Stores, w: Write, rest: Effect)
    ensures After(s, Put(w, rest)) == After(Apply(s, w), rest)
  {
    assert Put(w, rest).writes[1..] == rest.writes;
  }

  /** A disk that does not stop leaves all of it. */
  lemma RunUncut(d: Disk, e: Effect)
    requires |e.writes| <= d.writesLeft
    ensures Run(d, e) == (Disk(After(d.stores, e), d.writesLeft - |e.writes|), e.outcome)
  {
    RunAppliesPrefix(d, e);
    assert e.writes[..|e.writes|] == e.writes;
  }

  // ----- attempt commands

  function TransitionEffect(
    s: Stores, attemptId: Id, target: AttemptState,
    candidate: Option<Digest>, cleanup: Option<string>, now: int): Effect
  {
    if attemptId !in s.attempts then Refuse("STORAGE_RECORD_MISSING")
    else
      var current := s.attempts[attemptId];
      if current.state == Ready && target == Aborted && attemptId in s.receipts then
        Refuse("ATTEMPT_WORKSPACE_DISPOSAL_REQUIRED")
      else
        var updated := TransitionAttempt(current, target, now, candidate, None, cleanup);
        if updated.Err? then Refuse(updated.code)
        else Step(SaveAttempt(s.attempts, updated.value), PutAttempt(updated.value), Done(AttemptReply(updated.value)))
  }

  predicate CleanAttempt(a: Attempt, state: AttemptState) {
    && a.state == state
    && a.runtimeIdentity.None?
    && a.candidateDigest.None?
    && a.cleanupOutcome.None?
  }

  /** What is observed of the workspace root, its template and its Git state. */
  datatype WorkspaceView = WorkspaceView(
    rootDigest: Digest, pathDigest: Digest, templateRepository: string, verified: bool)

  predicate ReceiptDescribes(p: Receipt, a: Attempt, v: WorkspaceView) {
    && p.attemptId == a.attemptId
    && p.exerciseId == a.authority.exerciseId
    && p.exerciseVersion == a.authority.exerciseVersion
    && p.templateRepository == v.templateRepository
    && p.templateCommit == a.authority.startingCommit
    && p.workspaceRootDigest == v.rootDigest
  }

  function VerifyWorkspace(s: Stores, attemptId: Id, v: WorkspaceView): (r: Result<Receipt>) {
    if attemptId !in s.attempts then Err("STORAGE_RECORD_MISSING")
    else
      var a := s.attempts[attemptId];
      if !CleanAttempt(a, Ready) then Err("WORKSPACE_ATTEMPT_STATE_INVALID")
      else if attemptId !in s.receipts then Err("STORAGE_RECORD_MISSING")
      else
        var p := s.receipts[attemptId];
        if
          || p.state != PreparedReceipt
          || !ReceiptDescribes(p, a, v)
          || p.workspacePathDigest != v.pathDigest
          || p.relativePath != attemptId
        then Err("WORKSPACE_RECEIPT_MISMATCH")
        else if !v.verified then Err("WORKSPACE_VERIFY_FAILED")
        else Ok(p)
  }

  /** The record writes of `prepare_workspace`; a run that fails after writing
      the receipt removes it again.  Its directory work is in `Workspace`. */
  function PrepareWorkspaceEffect(s: Stores, attemptId: Id, v: WorkspaceView, committed: bool, now: int): Effect {
    if attemptId !in s.attempts then Refuse("STORAGE_RECORD_MISSING")
    else
      var a := s.attempts[attemptId];
      var ready := TransitionAttempt(a, Ready, now, None, None, None);
      if !CleanAttempt(a, Draft) then Refuse("WORKSPACE_ATTEMPT_STATE_INVALID")
      else if ready.Err? then Refuse(ready.code)
      else if attemptId in s.receipts then Refuse("WORKSPACE_RECEIPT_EXISTS")
      else if !v.verified then Refuse("WORKSPACE_VERIFY_FAILED")
      else
        var p := Receipt(
                   attemptId, a.authority.exerciseId, a.authority.exerciseVersion, v.templateRepository,
                   a.authority.startingCommit, v.rootDigest, v.pathDigest, attemptId, now, PreparedReceipt);
        if committed then
          Put(PutReceipt(p),
              Step(SaveAttempt(s.attempts, ready.value), PutAttempt(ready.value), Done(ReceiptReply(p))))
        else
          Put(PutReceipt(p), Put(DropReceipt(attemptId), Refuse("WORKSPACE_PREPARE_FAILED")))
  }

  function QuarantinedReceiptOf(p: Receipt, quarantineDigest: Digest): Receipt {
    p.(workspacePathDigest := quarantineDigest,
       relativePath := ".worker-lab-quarantine-" + p.attemptId,
       state := QuarantinedReceipt)
  }

  predicate QuarantineDescribed(p: Receipt, a: Attempt, v: WorkspaceView) {
    && p.state == QuarantinedReceipt
    && ReceiptDescribes(p, a, v)
    && p.workspacePathDigest == v.pathDigest
    && p.relativePath == ".worker-lab-quarantine-" + a.attemptId
  }

  /** The record writes of `discard_workspace`.  `v` describes the final
      directory and `quarantineDigest` the path it is renamed to. */
  function DiscardEffect(s: Stores, attemptId: Id, v: WorkspaceView, quarantineDigest: Digest, cleanup: string, now: int): Effect {
    if attemptId !in s.attempts then Refuse("STORAGE_RECORD_MISSING")
    else
      var a := s.attempts[attemptId];
      var q := v.(pathDigest := quarantineDigest);
      if a.state == Aborted then
        if a.runtimeIdentity.Some? || a.candidateDigest.Some? then Refuse("WORKSPACE_DISPOSAL_STATE_INVALID")
        else if a.cleanupOutcome != Some(cleanup) then Refuse("WORKSPACE_CLEANUP_OUTCOME_MISMATCH")
        else if attemptId !in s.receipts then Done(AttemptReply(a))
        else if !QuarantineDescribed(s.receipts[attemptId], a, q) then Refuse("WORKSPACE_RECEIPT_MISMATCH")
        else Put(DropReceipt(attemptId), Done(AttemptReply(a)))
      else if !CleanAttempt(a, Ready) then Refuse("WORKSPACE_DISPOSAL_STATE_INVALID")
      else
        var aborted := TransitionAttempt(a, Aborted, now, None, None, Some(cleanup));
        if aborted.Err? then Refuse(aborted.code)
        else if attemptId !in s.receipts then Refuse("STORAGE_RECORD_MISSING")
        else
          var p := s.receipts[attemptId];
          var finish := Step(SaveAttempt(s.attempts, aborted.value), PutAttempt(aborted.value),
                             Put(DropReceipt(attemptId), Done(AttemptReply(aborted.value))));
          if p.state == PreparedReceipt then
            if !ReceiptDescribes(p, a, v) || p.workspacePathDigest != v.pathDigest || p.relativePath != attemptId then
              Refuse("WORKSPACE_RECEIPT_MISMATCH")
            else if !v.verified then Refuse("WORKSPACE_VERIFY_FAILED")
            else Put(PutReceipt(QuarantinedReceiptOf(p, quarantineDigest)), finish)
          else if !QuarantineDescribed(p, a, q) then Refuse("WORKSPACE_RECEIPT_MISMATCH")
          else finish
  }

  // ----- invocation commands

  /** What `prepare_invocation` takes from outside the attempt and the receipt:
      a fresh identifier, the protected definitions and the prompt. */
  datatype InvocationInputs = InvocationInputs(
    invocationId: Id, exerciseDigest: Digest, contextManifestId: Id, contextManifestVersion: int,
    testPlanDigest: Digest, testIds: seq<string>,
    workerLabInstallation: Digest, frameworkInstallation: Digest,
    readablePaths: seq<(string, Digest)>, writablePaths: seq<string>, prompt: Bytes,
    definitionsMatch: bool)

  function NewIdentity(a: Attempt, p: Receipt, x: InvocationInputs): InvocationIdentity {
    var readOnly := a.authority.sandbox == ReadOnlySandbox;
    InvocationIdentity(
      x.invocationId, a.attemptId, if readOnly then ReadOnlyProposal else WorkspaceWriteCodeTask,
      x.exerciseDigest, x.contextManifestId, x.contextManifestVersion, a.authority,
      x.testPlanDigest, x.testIds, x.workerLabInstallation, x.frameworkInstallation,
      OfReceipt(p), p.workspaceRootDigest, p.workspacePathDigest,
      x.readablePaths, if readOnly then [] else x.writablePaths, OfContent(Prompt(x.prompt)))
  }

  const MAX_PROMPT_BYTES := 32_768

  predicate ValidPrompt(prompt: Bytes) {
    0 < |prompt| <= MAX_PROMPT_BYTES && 0 !in prompt
  }

  /** The prompt is stored under its content address, then the invocation. */
  function PrepareInvocationEffect(s: Stores, attemptId: Id, v: WorkspaceView, x: InvocationInputs): Effect {
    if !ValidPrompt(x.prompt) then Refuse("SERVICE_COMMAND_INVALID")
    else if attemptId !in s.attempts then Refuse("STORAGE_RECORD_MISSING")
    else
      var a := s.attempts[attemptId];
      if a.state != Ready then Refuse("INTEGRATION_ATTEMPT_STATE_INVALID")
      else if exists id | id in s.invocations :: s.invocations[id].identity.attemptId == attemptId then
        Refuse("INTEGRATION_INVOCATION_EXISTS")
      else if !x.definitionsMatch then Refuse("INTEGRATION_IDENTITY_INVALID")
      else
        var receipt := VerifyWorkspace(s, attemptId, v);
        if receipt.Err? then Refuse(receipt.code)
        else
          var i := Invocation(NewIdentity(a, receipt.value, x), None, None, Prepared, None);
          if !ValidInvocation(i) then Refuse("INTEGRATION_SCOPE_INVALID") else StorePrompt(s, i, Prompt(x.prompt))
  }

  function StorePrompt(s: Stores, i: Invocation, prompt: Content): Effect {
    var f := PromptFile(OfContent(prompt));
    if f in s.contents then
      if s.contents[f] != prompt then Refuse("STORAGE_RECORD_INVALID") else StoreInvocation(s, i)
    else Put(PutContent(f, prompt), StoreInvocation(Apply(s, PutContent(f, prompt)), i))
  }

  function StoreInvocation(s: Stores, i: Invocation): Effect {
    Step(CreateInvocation(s.invocations, i), PutInvocation(i), Done(InvocationReply(i)))
  }

  /** The shared shape of authorize, reject and cancel. */
  function MoveInvocation(s: Stores, current: Invocation, moved: Result<Invocation>): Effect {
    if moved.Err? then Refuse(moved.code)
    else
      Step(SaveInvocation(s.invocations, moved.value, OfInvocation(current)),
           PutInvocation(moved.value), Done(InvocationReply(moved.value)))
  }

  function AuthorizeEffect(s: Stores, id: Id, expected: Digest, controller: string, now: int): Effect {
    if id !in s.invocations then Refuse("STORAGE_RECORD_MISSING")
    else
      var current := s.invocations[id];
      if OfIdentity(current.identity) != expected then Refuse("INTEGRATION_IDENTITY_INVALID")
      else MoveInvocation(s, current, TransitionInvocation(current, Authorized, Some(controller), Some(now), None))
  }

  function RejectEffect(s: Stores, id: Id, expected: Digest): Effect {
    if id !in s.invocations then Refuse("STORAGE_RECORD_MISSING")
    else
      var current := s.invocations[id];
      if OfIdentity(current.identity) != expected then Refuse("INTEGRATION_IDENTITY_INVALID")
      else MoveInvocation(s, current, TransitionInvocation(current, Rejected, None, None, None))
  }

  /** Cancelling also meets UNCERTAIN invocations: their transition is legal
      and the controller is compared for AUTHORIZED ones only. */
  function CancelEffect(s: Stores, id: Id, expected: Digest, controller: string): Effect {
    if id !in s.invocations then Refuse("STORAGE_RECORD_MISSING")
    else
      var current := s.invocations[id];
      if OfIdentity(current.identity) != expected then Refuse("INTEGRATION_IDENTITY_INVALID")
      else if current.state == Authorized && current.authorizedBy != Some(controller) then
        Refuse("OPERATOR_CONTROLLER_MISMATCH")
      else MoveInvocation(s, current, TransitionInvocation(current, AbortedInvocation, None, None, None))
  }

  // ----- dispatch

  datatype CustodyCall =
    | CreateCall(record: Custody)
    | SaveCall(record: Custody, expectedDigest: Digest)

  function CustodyCallGuard(s: Stores, c: CustodyCall): (r: Result<map<Id, Custody>>) {
    match c
    case CreateCall(record) => CreateCustody(s.custody, record)
    case SaveCall(record, expected) => SaveCustody(s.custody, record, expected)
  }

  datatype AdapterEnd = Returned(response: Response) | Raised(code: string)

  /** What the outside world does during one dispatch.  The adapter may make
      any custody calls for its invocation before it returns or raises. */
  datatype DispatchWorld = DispatchWorld(
    definitionsMatch: bool, view: WorkspaceView, boundAt: int,
    calls: seq<CustodyCall>, adapter: AdapterEnd,
    observed: Observations, candidateAt: int)

  function DispatchGuard(s: Stores, id: Id, expected: Digest, controller: string, w: DispatchWorld): (r: Result<Invocation>) {
    if id !in s.invocations then Err("STORAGE_RECORD_MISSING")
    else
      var i := s.invocations[id];
      if OfIdentity(i.identity) != expected then Err("INTEGRATION_IDENTITY_INVALID")
      else if i.state != Authorized then Err("INTEGRATION_AUTHORIZATION_INVALID")
      else if i.authorizedBy != Some(controller) then Err("OPERATOR_CONTROLLER_MISMATCH")
      else if i.identity.attemptId !in s.attempts then Err("STORAGE_RECORD_MISSING")
      else
        var a := s.attempts[i.identity.attemptId];
        if
          || a.state != Ready
          || a.runtimeIdentity.Some?
          || a.candidateDigest.Some?
          || i.identity.attemptId != a.attemptId
          || i.identity.authority != a.authority
        then Err("INTEGRATION_IDENTITY_INVALID")
        else if !w.definitionsMatch then Err("INTEGRATION_IDENTITY_INVALID")
        else
          var receipt :- VerifyWorkspace(s, a.attemptId, w.view);
          if
            || OfReceipt(receipt) != i.identity.workspaceReceiptDigest
            || receipt.workspaceRootDigest != i.identity.workspaceRootDigest
            || receipt.workspacePathDigest != i.identity.workspacePathDigest
          then Err("INTEGRATION_IDENTITY_INVALID")
          else if id in s.results || id in s.custody then Err("INTEGRATION_AUTHORIZATION_INVALID")
          else
            var prompt := PromptFile(i.identity.promptDigest);
            if prompt !in s.contents then Err("STORAGE_RECORD_MISSING")
            else if OfContent(s.contents[prompt]) != i.identity.promptDigest then Err("INTEGRATION_IDENTITY_INVALID")
            else Ok(i)
  }

  /** `AttemptStore.bind_authorized_invocation`, reloading both records. */
  function BindGuard(s: Stores, id: Id, expected: Digest, now: int): (r: Result<Attempt>) {
    if id !in s.invocations then Err("STORAGE_RECORD_MISSING")
    else
      var i := s.invocations[id];
      if i.identity.attemptId !in s.attempts then Err("STORAGE_RECORD_MISSING")
      else if i.state != Authorized then Err("INTEGRATION_AUTHORIZATION_INVALID")
      else if OfIdentity(i.identity) != expected then Err("INTEGRATION_IDENTITY_INVALID")
      else BindAuthorized(s.attempts[i.identity.attemptId], i, now)
  }

  function DispatchEffect(s: Stores, id: Id, expected: Digest, controller: string, w: DispatchWorld): Effect {
    var guard := DispatchGuard(s, id, expected, controller, w);
    if guard.Err? then Refuse(guard.code)
    else
      var running := BindGuard(s, id, expected, w.boundAt);
      if running.Err? then Refuse(running.code)
      else
        var bind := PutAttempt(running.value);
        Step(SaveAttempt(s.attempts, running.value), bind, MarkDispatching(Apply(s, bind), guard.value, w))
  }

  function MarkDispatching(s: Stores, i: Invocation, w: DispatchWorld): Effect {
    var dispatching := TransitionInvocation(i, Dispatching, None, None, None);
    if dispatching.Err? then Refuse(dispatching.code)
    else
      var mark := PutInvocation(dispatching.value);
      Step(SaveInvocation(s.invocations, dispatching.value, OfInvocation(i)), mark,
           CallAdapter(Apply(s, mark), dispatching.value, w.calls, w))
  }

  /** The adapter's custody calls; one that is refused raises inside the
      adapter, which may still go on. */
  function CallAdapter(s: Stores, i: Invocation, calls: seq<CustodyCall>, w: DispatchWorld): Effect
    decreases calls
  {
    if calls == [] then AfterAdapter(s, i, w)
    else if calls[0].record.invocationId == i.identity.invocationId && CustodyCallGuard(s, calls[0]).Ok? then
      Put(PutCustody(calls[0].record), CallAdapter(Apply(s, PutCustody(calls[0].record)), i, calls[1..], w))
    else CallAdapter(s, i, calls[1..], w)
  }

  function AfterAdapter(s: Stores, i: Invocation, w: DispatchWorld): Effect {
    var id := i.identity.invocationId;
    if w.adapter.Raised? then Refuse(w.adapter.code)
    else if id !in s.custody then Refuse("STORAGE_RECORD_MISSING")
    else
      var accepted := Accept(w.adapter.response, i.identity, s.custody[id], w.observed);
      if accepted.Err? then Refuse(accepted.code) else RetainContent(s, i, accepted.value, w)
  }

  function RetainContent(s: Stores, i: Invocation, x: Accepted, w: DispatchWorld): Effect {
    if x.reference in s.contents then
      if s.contents[x.reference] != x.content then Refuse("INTEGRATION_IDENTITY_INVALID")
      else StoreResult(s, i, x.result, w)
    else
      var keep := PutContent(x.reference, x.content);
      Put(keep, StoreResult(Apply(s, keep), i, x.result, w))
  }

  function StoreResult(s: Stores, i: Invocation, result: ResultRecord, w: DispatchWorld): Effect {
    var store := PutResult(result);
    Put(store, Complete(Apply(s, store), i, result, w))
  }

  function Complete(s: Stores, i: Invocation, result: ResultRecord, w: DispatchWorld): Effect {
    var completed := TransitionInvocation(i, Completed, None, None, Some(OfResult(result)));
    if completed.Err? then Refuse(completed.code)
    else
      var close := PutInvocation(completed.value);
      Step(SaveInvocation(s.invocations, completed.value, OfInvocation(i)), close,
           Capture(Apply(s, close), completed.value, result, w))
  }

  function Capture(s: Stores, completed: Invocation, result: ResultRecord, w: DispatchWorld): Effect {
    if completed.identity.attemptId !in s.attempts then Refuse("STORAGE_RECORD_MISSING")
    else
      var a := s.attempts[completed.identity.attemptId];
      if
        || a.state != Running
        || a.runtimeIdentity != Some(OfIdentity(completed.identity))
        || a.candidateDigest.Some?
        || completed.state != Completed
        || completed.resultDigest.None?
        || completed.identity.attemptId != a.attemptId
        || completed.identity.authority != a.authority
      then Refuse("INTEGRATION_IDENTITY_INVALID")
      else
        var candidate := TransitionAttempt(a, Candidate, w.candidateAt, Some(OfResult(result)), None, None);
        if candidate.Err? then Refuse(candidate.code)
        else
          Step(SaveAttempt(s.attempts, candidate.value), PutAttempt(candidate.value),
               Done(AttemptReply(candidate.value)))
  }

  // ----- recovery

  /** A fresh look at the workspace, and whether the recorded controller
      process still runs with its recorded creation time. */
  datatype RecoveryWorld = RecoveryWorld(
    rootDigest: Digest, pathDigest: Digest, head: string, clean: bool,
    contentDigest: Digest, controllerActive: bool, now: int)

  datatype Recovery = Recovery(
    invocation: Invocation, attempt: Attempt, custody: Custody,
    verified: Custody, aborted: Attempt)

  /** `recover_absence_after_controller_exit`, applied to TERMINATED custody. */
  function RecoverAbsence(c: Custody, w: RecoveryWorld): (r: Result<Custody>) {
    if w.controllerActive then Err("OPERATOR_RECOVERY_ACTIVE")
    else if
      || c.state != Terminated
      || !c.requestSent
      || c.adapterPid.None?
      || c.adapterTime.None?
      || c.activeCount != Some(0)
      || c.firstFailure.None?
    then Err("INTEGRATION_OUTCOME_UNCERTAIN")
    else TransitionCustody(c, AbsenceVerified, NO_UPDATE.(activeCount := Some(0), absenceVerifiedAt := Some(w.now)))
  }

  /** The receipt and the workspace are those of the invocation, whose attempt
      is known to agree with it by now. */
  predicate RecoveryWorkspaceMatches(p: Receipt, i: InvocationIdentity, w: RecoveryWorld) {
    && p.state == PreparedReceipt
    && p.attemptId == i.attemptId
    && p.exerciseId == i.authority.exerciseId
    && p.exerciseVersion == i.authority.exerciseVersion
    && p.templateCommit == i.authority.startingCommit
    && OfReceipt(p) == i.workspaceReceiptDigest
    && p.workspaceRootDigest == i.workspaceRootDigest
    && p.workspacePathDigest == i.workspacePathDigest
    && p.relativePath == i.attemptId
    && w.rootDigest == i.workspaceRootDigest
    && w.pathDigest == i.workspacePathDigest
    && w.head == i.authority.startingCommit
    && w.clean
  }

  function RecoveryRecords(
    attempts: map<Id, Attempt>, invocations: map<Id, Invocation>,
    id: Id, expected: Digest, controller: string): (r: Result<(Invocation, Attempt)>)
  {
    if id !in invocations then Err("STORAGE_RECORD_MISSING")
    else
      var i := invocations[id];
      if OfIdentity(i.identity) != expected then Err("INTEGRATION_IDENTITY_INVALID")
      else if i.authorizedBy != Some(controller) then Err("OPERATOR_CONTROLLER_MISMATCH")
      else if i.state !in {Dispatching, Uncertain, AbortedInvocation} then Err("OPERATOR_RECOVERY_INVALID")
      else if i.identity.attemptId !in attempts then Err("STORAGE_RECORD_MISSING")
      else
        var a := attempts[i.identity.attemptId];
        if
          || i.identity.attemptId != a.attemptId
          || i.identity.authority != a.authority
          || a.runtimeIdentity != Some(OfIdentity(i.identity))
          || a.candidateDigest.Some?
        then Err("INTEGRATION_IDENTITY_INVALID")
        else if a.state !in {Running, Aborted} then Err("OPERATOR_RECOVERY_INVALID")
        else if a.state == Aborted && (i.state != AbortedInvocation || a.cleanupOutcome != Some(RECOVERY_CLEANUP_OUTCOME)) then
          Err("OPERATOR_RECOVERY_INVALID")
        else Ok((i, a))
  }

  /** No result is retained and the workspace is the sealed one, unchanged. */
  function RecoveryEvidence(
    results: map<Id, ResultRecord>, receipts: map<Id, Receipt>,
    i: InvocationIdentity, w: RecoveryWorld): (r: Result<()>)
  {
    if i.invocationId in results then Err("OPERATOR_RECOVERY_INVALID")
    else if i.attemptId !in receipts then Err("STORAGE_RECORD_MISSING")
    else if !RecoveryWorkspaceMatches(receipts[i.attemptId], i, w) then Err("OPERATOR_RECOVERY_INVALID")
    else Ok(())
  }

  /** Custody bound to the dispatch, and its verified form. */
  function RecoveryCustody(custody: map<Id, Custody>, id: Id, expected: Digest, w: RecoveryWorld): (r: Result<(Custody, Custody)>) {
    if id !in custody then Err("STORAGE_RECORD_MISSING")
    else
      var c := custody[id];
      if
        || c.invocationId != id
        || c.invocationDigest != expected
        || c.adapterPid.None?
        || c.adapterTime.None?
        || !c.requestSent
      then Err("OPERATOR_RECOVERY_INVALID")
      else
        var verified :-
          if c.state == Terminated then RecoverAbsence(c, w)
          else if c.state == AbsenceVerified then Ok(c)
          else Err("INTEGRATION_OUTCOME_UNCERTAIN");
        if
          || verified.activeCount != Some(0)
          || verified.absenceVerifiedAt.None?
          || verified.workspaceContentDigest != w.contentDigest
        then Err("OPERATOR_RECOVERY_INVALID")
        else Ok((c, verified))
  }

  function RecoveryAbort(a: Attempt, now: int): (r: Result<Attempt>) {
    if a.state == Running then TransitionAttempt(a, Aborted, now, None, None, Some(RECOVERY_CLEANUP_OUTCOME))
    else Ok(a)
  }

  /** Every check `recover_invocation` makes before its first write. */
  function PlanRecovery(s: Stores, id: Id, expected: Digest, controller: string, w: RecoveryWorld): (r: Result<Recovery>) {
    var (i, a) :- RecoveryRecords(s.attempts, s.invocations, id, expected, controller);
    var _ :- RecoveryEvidence(s.results, s.receipts, i.identity, w);
    var (c, verified) :- RecoveryCustody(s.custody, id, expected, w);
    var aborted :- RecoveryAbort(a, w.now);
    Ok(Recovery(i, a, c, verified, aborted))
  }

  function RecoverEffect(s: Stores, id: Id, expected: Digest, controller: string, w: RecoveryWorld): Effect {
    var plan := PlanRecovery(s, id, expected, controller, w);
    if plan.Err? then Refuse(plan.code) else RecoverCustody(s, plan.value)
  }

  function RecoverCustody(s: Stores, p: Recovery): Effect {
    if p.custody.state == Terminated then
      var verify := PutCustody(p.verified);
      Step(SaveCustody(s.custody, p.verified, OfCustody(p.custody)), verify, RecoverDispatching(Apply(s, verify), p))
    else RecoverDispatching(s, p)
  }

  function RecoverDispatching(s: Stores, p: Recovery): Effect {
    if p.invocation.state == Dispatching then
      var uncertain := TransitionInvocation(p.invocation, Uncertain, None, None, None);
      if uncertain.Err? then Refuse(uncertain.code)
      else
        var doubt := PutInvocation(uncertain.value);
        Step(SaveInvocation(s.invocations, uncertain.value, OfInvocation(p.invocation)), doubt,
             RecoverUncertain(Apply(s, doubt), p, uncertain.value))
    else RecoverUncertain(s, p, p.invocation)
  }

  function RecoverUncertain(s: Stores, p: Recovery, current: Invocation): Effect {
    if current.state == Uncertain then
      var aborted := TransitionInvocation(current, AbortedInvocation, None, None, None);
      if aborted.Err? then Refuse(aborted.code)
      else
        var abort := PutInvocation(aborted.value);
        Step(SaveInvocation(s.invocations, aborted.value, OfInvocation(current)), abort,
             RecoverAttempt(Apply(s, abort), p, aborted.value))
    else RecoverAttempt(s, p, current)
  }

  function RecoverAttempt(s: Stores, p: Recovery, current: Invocation): Effect {
    if p.attempt.state == Running then
      var abort := PutAttempt(p.aborted);
      Step(SaveAttempt(s.attempts, p.aborted), abort, RecoveryCheck(Apply(s, abort), p, current))
    else RecoveryCheck(s, p, current)
  }

  /** The final comparison of the durable records with the intended ones. */
  function RecoveryCheck(s: Stores, p: Recovery, current: Invocation): Effect {
    var id := p.invocation.identity.invocationId;
    if id !in s.custody || id !in s.invocations || p.attempt.attemptId !in s.attempts then
      Refuse("STORAGE_RECORD_MISSING")
    else if
      || s.custody[id] != p.verified
      || s.invocations[id] != current
      || s.attempts[p.attempt.attemptId] != p.aborted
      || current.state != AbortedInvocation
      || p.aborted.state != Aborted
    then Refuse("OPERATOR_RECOVERY_INVALID")
    else Done(RecoveryReply(current, p.aborted, p.verified))
  }

  // ----- all commands

  datatype Command =
    | CreateAttemptCommand(attempt: Attempt)
    | PrepareWorkspaceCommand(attemptId: Id, view: WorkspaceView, committed: bool, now: int)
    | DiscardWorkspaceCommand(attemptId: Id, view: WorkspaceView, quarantineDigest: Digest, cleanup: string, now: int)
    | TransitionAttemptCommand(attemptId: Id, target: AttemptState, candidate: Option<Digest>, outcome: Option<string>, now: int)
    | PrepareInvocationCommand(attemptId: Id, view: WorkspaceView, inputs: InvocationInputs)
    | AuthorizeCommand(invocationId: Id, expected: Digest, controller: string, now: int)
    | RejectCommand(invocationId: Id, expected: Digest)
    | CancelCommand(invocationId: Id, expected: Digest, controller: string)
    | DispatchCommand(invocationId: Id, expected: Digest, controller: string, world: DispatchWorld)
    | RecoverCommand(invocationId: Id, expected: Digest, controller: string, observed: RecoveryWorld)

  function Execute(s: Stores, c: Command): Effect {
    match c
    case CreateAttemptCommand(a) => Step(CreateAttempt(s.attempts, a), PutAttempt(a), Done(AttemptReply(a)))
    case PrepareWorkspaceCommand(id, v, committed, now) => PrepareWorkspaceEffect(s, id, v, committed, now)
    case DiscardWorkspaceCommand(id, v, q, cleanup, now) => DiscardEffect(s, id, v, q, cleanup, now)
    case TransitionAttemptCommand(id, target, candidate, cleanup, now) =>
      TransitionEffect(s, id, target, candidate, cleanup, now)
    case PrepareInvocationCommand(id, v, x) => PrepareInvocationEffect(s, id, v, x)
    case AuthorizeCommand(id, expected, controller, now) => AuthorizeEffect(s, id, expected, controller, now)
    case RejectCommand(id, expected) => RejectEffect(s, id, expected)
    case CancelCommand(id, expected, controller) => CancelEffect(s, id, expected, controller)
    case DispatchCommand(id, expected, controller, w) => DispatchEffect(s, id, expected, controller, w)
    case RecoverCommand(id, expected, controller, w) => RecoverEffect(s, id, expected, controller, w)
  }
}
