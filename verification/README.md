# Worker lab: a verified model of its durable control protocol

The worker lab runs one bounded worker job at a time on behalf of an operator.
Its state lives in six kinds of small files: attempts, invocations, process
custody, results, workspace receipts and retained content.  Each file is
replaced atomically, and there is no transaction across them.  What holds
between them comes from the order of the writes, from guards that compare a
record with the version it was made from, from digests that link one record to
another, and from a recovery that can be run again.

This project models that protocol in Dafny and proves what it keeps over every
run, including runs that stop between any two writes.

## How the model is built

A digest is a term that contains the digested record, so equal digests mean
equal records and nothing else is assumed about hashing.  Times are integers.
Git, the clock, the definitions directory, the kernel and the adapter are
inputs that may answer anything.  A command is described by its effect: the
writes it makes, in order, and how it ends.  A crash, or an exception that is
not caught, leaves a prefix of those writes; a write that raises after it has
persisted is a prefix that includes it.  The classes do the same work step
by step, and each of their methods is proved to have exactly that effect.

- `Outcomes`, `Records`, `Lifecycle`, `Moves`: results, records, the three pure
  transition machines, and what an accepted store call means without its guards.
- `Stores`, `StoreHistories`, `Retry`, `Graph`, `Plans`: the guarded stores and
  the state directory; histories of one record; retry chains; depth-first
  cycle detection and its two callers.
- `Canonical`, `CanonicalProofs`, `ResultKeys`, `Encoding`, `Storage`: canonical
  JSON, a parser for sections 2 to 7 of RFC 8259 (without fractions and
  exponents), the sizes of encoded records, and the atomic file store.
- `Acceptance`, `Commands`, `Protocol`, `Histories`, `Service`: acceptance of
  responses, the operator commands as effects, the joint invariant, its proof
  over all histories, and the imperative service.
- `AcceptanceFacts`, `CommandFacts`, `DispatchFacts`, `RecoveryFacts`,
  `ReviewFacts`: when each command succeeds and what it then leaves, both ways
  and field by field, stated without the functions that compute it.
- `Launch`, `DispatchFrame`, `GoodDispatch`, `WholeRuns`: at most one adapter
  launch under every interleaving; what a dispatch needs and touches; complete
  runs from an empty directory.
- `RecoveryProofs`: recovery is restartable and converges.
- `CutDispatches`, `Operators`, `StoppedRuns`: which interrupted dispatches
  recovery accepts and what becomes of the others; who can cancel, and what ends
  an attempt that has a workspace; runs from an empty directory that are stopped.
- `Reviews`, `DispatchReview`: a finished dispatch can be reviewed, then and after every later command.
- `Disposal`, `Workspace`: preparing and discarding workspaces.
- `CustodyLog`, `Runner`, `Readers`: the job runner, its truthful custody, and
  its two concurrent reader threads.
- `WorkerResults`, `Harness`: the fixture job and the validator of its reports.
- `Bench`: benchmark runs that crash and resume.
- `PosixPaths`, `Backup`: backup, verification and restore.

## What turned out to differ from what one might expect

- Review after dispatch is not unconditional.  `parse_result` limits a result
  to 65,536 bytes, while acceptance limits only the adapter response, and the
  result is always longer.  `DispatchReview` proves the exact condition, which
  can be computed from the sealed invocation before it is dispatched, and
  `WholeRuns` gives a run from an empty directory that ends this way.
- The relation check asks that a retry is dated no earlier than the end of its
  prior attempt; `create` does not.  `Retry` proves when the check passes and
  gives a retry that is accepted and then refused.
- Not every interrupted dispatch can be recovered.  Recovery refuses a stored
  result, and custody that is not sent and ended with nothing alive; nothing
  else moves a DISPATCHING invocation.  `CutDispatches` proves that such a
  dispatch is either recoverable or DISPATCHING in every later history, and
  `StoppedRuns` gives one of each kind.
- Cancelling also meets UNCERTAIN invocations, without comparing the controller:
  the transition is legal and the comparison is made for AUTHORIZED ones only.
  `Operators` proves exactly when cancelling writes, and `StoppedRuns` gives a
  run whose recovery another controller can cancel.
- A fault after assignment but before the request is marked as sent leaves
  TERMINATED custody even when nothing is active any more: custody validation
  refuses verified absence with an adapter identity and no sent request, and the
  runner swallows that refusal.  The contracts of `Runner` say so, and
  `UnsentRun` is such a run.
- With errors rerun on resume, a benchmark case can keep messages that miss an
  answer stored before it.  `Bench` proves that this can happen exactly if an
  error is stored before another case of its preserved conversation.
- An operator may move RUNNING to CANDIDATE with any digest, so a CANDIDATE
  attempt alone says nothing about its invocation; nothing here claims it does.

## Model

| member | source | states |
|---|---|---|
| `Moves.AttemptSavesAreMoves` | components/worker-lab/worker_lab/attempt_store.py:45-77 | An attempt save is accepted exactly when the new record is a legal move of the stored one (identity kept, time not back, runtime identity set only on READY to RUNNING, candidate only on RUNNING to CANDIDATE, cleanup text only on ending), and then replaces it. |
| `Moves.AttemptTransitionsAreSaved` | components/worker-lab/worker_lab/lifecycle.py:29-91 | Whatever the pure attempt transition makes is a move to the asked state at the asked time, and the store takes it. |
| `Moves.InvocationSavesAreMoves` | components/worker-lab/worker_lab/invocation_store.py:37-55 | An invocation save is accepted exactly when the expected digest is that of the stored version and the new one is a legal move of it. |
| `Moves.InvocationTransitionsAreSaved` | components/worker-lab/worker_lab/integration.py:271-296 | Whatever the pure invocation transition makes is a move, sets authorization only on AUTHORIZED, and is taken over the version it was made from. |
| `Moves.CustodySavesAreMoves` | components/worker-lab/worker_lab/process_custody.py:147-170 | A custody save is accepted exactly when the expected digest is that of the stored record and the new one is a legal move of it. |
| `Moves.CustodyTransitionsAreSaved` | components/worker-lab/worker_lab/process_custody.py:88-124 | The pure custody transition reaches the asked state, marks the request as sent exactly by DISPATCHING, and is taken by the store. |
| `Moves.EdgesAreTargets` | components/worker-lab/worker_lab/lifecycle.py:10-26 | The three machines, edge by edge: the targets of every attempt, invocation and custody state are exactly these. |
| `Moves.InvocationCreatesExactly` | components/worker-lab/worker_lab/invocation_store.py:25-35 | A new invocation is stored exactly if it is PREPARED, without authorization and result, with operation, sandbox and writable paths that agree, under a new name. |
| `Moves.CustodyCreatesExactly` | components/worker-lab/worker_lab/process_custody.py:131-142 | New custody is stored exactly if it is PREPARED, without adapter, request and absence, under a new name. |
| `Stores.StateRoot.ValidateRetryLink` | components/worker-lab/worker_lab/attempt_store.py:106-129 | The loop over prior attempts ends on every store and returns what the walk function says. |
| `Stores.StateRoot.CreateNewAttempt` | components/worker-lab/worker_lab/attempt_store.py:28-43 | Creation refuses with the code of its guard and leaves the directory as it was, or makes its one write. |
| `Stores.StateRoot.SaveAttemptTransition` | components/worker-lab/worker_lab/attempt_store.py:45-77 | The guarded save: refusal without change, or the one write. |
| `Stores.StateRoot.CreateNewInvocation` | components/worker-lab/worker_lab/invocation_store.py:25-35 | The guarded creation of a PREPARED invocation under a new name. |
| `Stores.StateRoot.SaveInvocationTransition` | components/worker-lab/worker_lab/invocation_store.py:37-55 | The guarded compare-and-swap of an invocation. |
| `Stores.StateRoot.CreateNewCustody` | components/worker-lab/worker_lab/process_custody.py:131-142 | The guarded creation of PREPARED custody under a new name. |
| `Stores.StateRoot.SaveCustodyTransition` | components/worker-lab/worker_lab/process_custody.py:147-170 | The guarded compare-and-swap of a custody record. |
| `StoreHistories.AttemptHistory` | components/worker-lab/worker_lab/attempt_store.py:28-77 | Over every run of store calls: immutable fields constant, time never back, no state twice, runtime identity changes exactly on READY to RUNNING, candidate exactly on RUNNING to CANDIDATE, cleanup text exactly on terminal versions, a terminal version is the last. |
| `StoreHistories.AttemptsSkipNoStep` | components/worker-lab/worker_lab/lifecycle.py:10-26 | No step of the lifecycle is skipped: unless it was aborted, the number of an attempt's version is the rank of its state. |
| `StoreHistories.InvocationHistory` | components/worker-lab/worker_lab/integration.py:43-51 | Over every run of store calls: the identity digest is constant, authorization is set once, no state and no record digest comes twice. |
| `StoreHistories.InvocationsSkipNoStep` | components/worker-lab/worker_lab/integration.py:43-51 | No step is skipped: COMPLETED was AUTHORIZED and DISPATCHING before, and only AUTHORIZED or UNCERTAIN is aborted. |
| `StoreHistories.CompareAndSwapMeansUntouched` | components/worker-lab/worker_lab/invocation_store.py:37-55 | A save that expects the digest of a version read earlier is accepted only if no call in between has written the invocation. |
| `Protocol.LegalWriteKeepsInvariant` | components/worker-lab/worker_lab/application_service.py:1007-1090 | Each single legal write keeps the joint invariant of the six stores. |
| `Protocol.ResultStaysSound` | components/worker-lab/worker_lab/application_service.py:1076-1090 | A stored result keeps its invocation, its verified custody and its retained content under every legal write. |
| `Histories.ExecuteIsLegal` | components/worker-lab/worker_lab/application_service.py:568-1275 | In every state with the joint invariant every write of every command is legal where it is made. |
| `Histories.DispatchIsLegal` | components/worker-lab/worker_lab/application_service.py:940-1096 | The same for dispatch, for any custody calls, response and observations. |
| `Histories.AcceptedResultIsSound` | components/worker-lab/worker_lab/framework_adapter.py:301-534 | A result that acceptance returns rests on the durable custody it was judged on and on content whose digest it names. |
| `Histories.BoundAttemptMoves` | components/worker-lab/worker_lab/attempt_store.py:79-99 | Binding moves exactly the invocation's attempt to RUNNING, with the invocation's identity digest as runtime identity. |
| `Histories.InvariantOverAllHistories` | components/worker-lab/worker_lab/application_service.py:731-737 | From an empty directory, after every history of commands each cut after any number of writes: at most one invocation per attempt, its prompt retained; a runtime identity names it and it is neither PREPARED nor REJECTED; DISPATCHING, UNCERTAIN and COMPLETED are bound; results stand only under DISPATCHING or COMPLETED; COMPLETED has the recorded result over immutable, successful ABSENCE_VERIFIED custody. |
| `Commands.RunAppliesPrefix` | components/worker-lab/worker_lab/storage.py:43-69 | A command that meets a write fault leaves exactly a prefix of its writes. |
| `Service.RunsAreEpisodes` | components/worker-lab/worker_lab/application_service.py:406-477 | What a service call leaves on a disk that may stop is one cut command of a history, so the joint invariant holds. |
| `Service.WorkerLabApplicationService.TransitionAttempt` | components/worker-lab/worker_lab/application_service.py:676-712 | On a disk that does not stop: answers with an attempt exactly if it is stored, its workspace need not be disposed of first, the move is an edge other than READY to RUNNING, time does not go back, and candidate and cleanup fit the target; that attempt then stands under its name in the asked state at the asked time with the given cleanup or candidate, all else unchanged, and a refusal changes nothing. On any disk it leaves a prefix. |
| `CommandFacts.TransitionsExactly` | components/worker-lab/worker_lab/lifecycle.py:29-91 | Exactly when an operator's transition is accepted, and the one attempt it writes, field by field. |
| `CommandFacts.TransitionRefusals` | components/worker-lab/worker_lab/lifecycle.py:38-76 | Why it is refused, in the order in which it is looked at: missing, disposal required, no such edge, time, candidate, cleanup. |
| `Service.WorkerLabApplicationService.PrepareInvocation` | components/worker-lab/worker_lab/application_service.py:714-852 | On a disk that does not stop: answers with an invocation exactly if prompt, READY attempt, definitions, receipt and workspace fit, the attempt has none yet, and its identifier is new; that PREPARED invocation names, field by field, its inputs, the attempt's authority, both installations, the receipt and its paths, no writable path if read-only, and the digest of the prompt; prompt and invocation are stored and nothing else changed. On any disk, a prefix: the prompt first. |
| `CommandFacts.PreparationAnswers` | components/worker-lab/worker_lab/application_service.py:764-847 | The same for the command's effect, with the refusals that leave nothing and the one that leaves only the prompt. |
| `Service.WorkerLabApplicationService.KeepPrompt` | components/worker-lab/worker_lab/application_service.py:830-847 | The prompt is never stored over another one, and is durable before the invocation that names it. |
| `Service.WorkerLabApplicationService.AuthorizeInvocation` | components/worker-lab/worker_lab/application_service.py:854-883 | On a disk that does not stop, succeeds exactly on a PREPARED invocation named by its identity digest, and then stores it AUTHORIZED with this controller and time, all else unchanged. |
| `Service.WorkerLabApplicationService.RejectInvocation` | components/worker-lab/worker_lab/application_service.py:885-907 | On a disk that does not stop, succeeds exactly on a PREPARED invocation named by its identity digest, and then stores it REJECTED without authorization, all else unchanged. |
| `Service.WorkerLabApplicationService.CancelInvocation` | components/worker-lab/worker_lab/application_service.py:909-938 | On a disk that does not stop, succeeds exactly on an UNCERTAIN invocation, or an AUTHORIZED one by its own controller, named by its identity digest, and then stores it ABORTED with its authorization kept, all else unchanged. |
| `Service.WorkerLabApplicationService.DispatchInvocation` | components/worker-lab/worker_lab/application_service.py:940-1020 | On a disk that does not stop: changes nothing unless every check holds; returns the CANDIDATE attempt exactly if, besides, the adapter's custody and response are acceptable and time does not go back; and then leaves exactly the candidate, the COMPLETED invocation, the custody, the result and its content. On any disk, a prefix of its writes in the order bind, mark, adapter, content, result, complete, capture. |
| `Service.WorkerLabApplicationService.DispatchBound` | components/worker-lab/worker_lab/application_service.py:1014-1035 | From the durable binding on: marks, lets the adapter make its custody calls, accepts. |
| `Service.WorkerLabApplicationService.CallAdapter` | components/worker-lab/worker_lab/application_service.py:1021-1035 | The loop over the adapter's custody calls has the described effect. |
| `Service.WorkerLabApplicationService.AcceptResponse` | components/worker-lab/worker_lab/application_service.py:1036-1075 | Over reloaded custody, succeeds exactly if the adapter returned, the response is acceptable over that custody, and time does not go back; a response that is not acceptable changes nothing; content is retained under its digest, never over other content. |
| `Service.WorkerLabApplicationService.StoreAndComplete` | components/worker-lab/worker_lab/application_service.py:1076-1085 | Stores the result before the invocation is completed with its digest. |
| `Service.WorkerLabApplicationService.CaptureCandidate` | components/worker-lab/worker_lab/application_service.py:1086-1096 | Captures the candidate of a running attempt that is bound to the completed invocation. |
| `Service.WorkerLabApplicationService.RecoverInvocation` | components/worker-lab/worker_lab/application_service.py:1098-1275 | On a disk that does not stop: succeeds exactly if the invocation, its attempt, its custody, its receipt and the fresh look at the workspace allow it, and then leaves the custody verified, invocation and attempt ABORTED, and everything else; a refusal changes nothing. On any disk, a prefix: custody, invocation, attempt. |
| `Service.WorkerLabApplicationService.StopInvocation` | components/worker-lab/worker_lab/application_service.py:1231-1241 | DISPATCHING goes to UNCERTAIN before it is aborted. |
| `Service.WorkerLabApplicationService.AbortUncertain` | components/worker-lab/worker_lab/application_service.py:1242-1251 | UNCERTAIN goes to ABORTED. |
| `Service.WorkerLabApplicationService.AbortAttempt` | components/worker-lab/worker_lab/application_service.py:1252-1275 | The running attempt is aborted last, then all three records are compared again. |
| `AcceptanceFacts.AcceptsExactly` | components/worker-lab/worker_lab/framework_adapter.py:301-410 | A response is accepted if and only if custody ended well with nothing alive, identities agree, and either the proposal tells the truth about its own bytes and digests, is bounded and screened over an untouched sealed workspace, or the code task changed exactly the authorized paths, and every planned test passed; every field of the result and the retained content is stated. |
| `AcceptanceFacts.RefusalsTell` | components/worker-lab/worker_lab/framework_adapter.py:322-357 | Custody is judged first, then shape and identity of the response, each with its code. |
| `DispatchFacts.StartsExactly` | components/worker-lab/worker_lab/application_service.py:940-1020 | A dispatch writes anything if and only if every record, definition and workspace check holds and time does not go back. |
| `DispatchFacts.DispatchRefusals` | components/worker-lab/worker_lab/application_service.py:955-985 | Missing, wrong identity, wrong state and wrong controller are told by their codes. |
| `DispatchFacts.CallsLeave` | components/worker-lab/worker_lab/application_service.py:1021-1035 | The adapter's custody calls leave exactly what taking the takeable ones and skipping the others leaves. |
| `DispatchFacts.DispatchSucceedsExactly` | components/worker-lab/worker_lab/application_service.py:1007-1096 | A dispatch returns the candidate if and only if it starts, its response is acceptable over the custody left, and time does not go back; the whole directory it then leaves is stated. |
| `RecoveryFacts.PlansExactly` | components/worker-lab/worker_lab/application_service.py:1114-1224 | A recovery is accepted if and only if these conditions on the fields of invocation, attempt, custody, receipt and workspace hold. |
| `RecoveryFacts.RecoversExactly` | components/worker-lab/worker_lab/application_service.py:1098-1275 | It then leaves exactly the verified custody, the ABORTED invocation and the ABORTED attempt; refused, it leaves everything. |
| `RecoveryFacts.RecoveryRefusals` | components/worker-lab/worker_lab/application_service.py:1111-1134 | Missing, wrong identity, wrong controller and wrong state are told by their codes. |
| `RecoveryFacts.ActiveControllersAreNamed` | components/worker-lab/worker_lab/windows_job.py:466-487 | With all else in place, a running controller is refused by its own code. |
| `Launch.AtMostOneLaunch` | components/worker-lab/worker_lab/application_service.py:1007-1035 | For every interleaving of any number of dispatchers with arbitrary guarded store calls: no two launches share an invocation or an attempt; each launched invocation is durably past AUTHORIZED and named by its attempt's runtime identity. |
| `Launch.NextIsSafe` | components/worker-lab/worker_lab/attempt_store.py:45-99 | Each single step of a dispatcher or of the environment keeps the safety invariant. |
| `Launch.SoloDispatchLaunches` | components/worker-lab/worker_lab/application_service.py:1007-1035 | Alone, a dispatcher that passes its checks makes the first two writes of the dispatch command and launches once. |
| `DispatchFrame.DispatchTouchesItsOwn` | components/worker-lab/worker_lab/application_service.py:940-1096 | A dispatch cut anywhere leaves all other attempts' and invocations' records and all receipts unchanged, and loses no retained content. |
| `DispatchFrame.OnlyDispatchRuns` | components/worker-lab/worker_lab/application_service.py:704-710 | No command but dispatch moves an attempt to RUNNING. |
| `DispatchFrame.OperatorsNameTheIdentity` | components/worker-lab/worker_lab/application_service.py:854-963 | No operator command writes anything unless it names a stored invocation with its exact identity digest. |
| `Operators.CancelWrites` | components/worker-lab/worker_lab/application_service.py:909-938 | Cancelling writes exactly if it names a stored invocation with its identity digest that is UNCERTAIN, or AUTHORIZED by this controller; its one write aborts it. |
| `Operators.AnyoneCancelsUncertain` | components/worker-lab/worker_lab/application_service.py:927-932 | An UNCERTAIN invocation authorized by one controller is aborted by any other. |
| `Operators.CancelKeepsRecovery` | components/worker-lab/worker_lab/application_service.py:1114-1224 | After an UNCERTAIN invocation was cancelled, its recovery is still accepted and has only that abort behind it. |
| `Operators.WorkspacesAreDisposedFirst` | components/worker-lab/worker_lab/application_service.py:692-703 | In every history of cut commands, the command that takes an attempt from READY with a workspace receipt to ABORTED is the one that discards its workspace. |
| `CutDispatches.CutDispatch` | components/worker-lab/worker_lab/application_service.py:1007-1096 | What a dispatch cut after any number of writes leaves: before its second write the invocations are as they were; later the invocation is COMPLETED, or marked over exactly the bound attempt and the receipts it started from. |
| `CutDispatches.CutDispatchIsRecoverable` | components/worker-lab/worker_lab/application_service.py:1114-1224 | A dispatch cut after any of its writes is recovered, by its controller over an unchanged workspace, exactly if DISPATCHING is stored, no result is stored, and custody has sent its request and is ABSENCE_VERIFIED or TERMINATED with nothing alive. |
| `CutDispatches.StrandedForever` | components/worker-lab/worker_lab/application_service.py:909-1157 | A DISPATCHING invocation with a stored result, or over any other custody, keeps its record in every later history of cut commands. |
| `CutDispatches.CutDispatchRecoversOrStays` | components/worker-lab/worker_lab/application_service.py:1007-1157 | A dispatch cut while DISPATCHING either can be recovered or stays DISPATCHING in every later history. |
| `DispatchFacts.GoodDispatchSucceeds` | components/worker-lab/worker_lab/application_service.py:1007-1096 | A dispatch that starts, whose run is contained and exits with zero and whose response is acceptable, returns the candidate and leaves its records. |
| `GoodDispatch.PreparedAndAuthorizedCanDispatch` | components/worker-lab/worker_lab/application_service.py:714-1006 | After the writes of a good preparation and an authorization, the invocation passes every record check of dispatch, its prompt included, while the workspace looks the same. |
| `WholeRuns.FourCommandsAuthorize` | components/worker-lab/worker_lab/application_service.py:568-883 | From an empty directory, creating an attempt, preparing its workspace and its invocation, and authorizing it leads to exactly one authorized invocation over a READY attempt. |
| `WholeRuns.WholeRunSucceeds` | components/worker-lab/worker_lab/application_service.py:568-1096 | After these four commands a dispatch over clean custody calls and an acceptable response, of either kind, returns the CANDIDATE attempt and leaves the result that its inputs determine. |
| `WholeRuns.ProposalRuns` | components/worker-lab/worker_lab/framework_adapter.py:301-410 | From an empty directory, any proposal of 1 to 32,768 bytes without a zero is accepted: its text is retained under its digest and the stored result names it. |
| `WholeRuns.CodeTaskRuns` | components/worker-lab/worker_lab/application_service.py:568-1096 | From an empty directory, a code task on any non-empty list of authorized paths becomes a candidate. |
| `StoppedRuns.StoppedRunRecovers` | components/worker-lab/worker_lab/application_service.py:1098-1275 | From an empty directory, a run whose adapter is stopped after the request was sent is recovered. |
| `StoppedRuns.AnotherCancelsTheRecovery` | components/worker-lab/worker_lab/application_service.py:927-932 | The same run, its recovery cut after two writes, is UNCERTAIN, and a controller who did not authorize it can cancel it. |
| `StoppedRuns.CutBeforeCustodyStrands` | components/worker-lab/worker_lab/application_service.py:1014-1035 | The same dispatch, cut when it has just marked its invocation, leaves it DISPATCHING in every later history. |
| `DispatchFacts.GoodCallsLeave` | components/worker-lab/worker_lab/windows_job.py:184-320 | The custody calls of a clean run are all taken, from PREPARED on, and leave ABSENCE_VERIFIED custody that ended well. |
| `RecoveryProofs.RefusalsWriteNothing` | components/worker-lab/worker_lab/application_service.py:1114-1224 | Recovery succeeds exactly when its plan is accepted, and otherwise writes nothing. |
| `RecoveryProofs.AcceptedRecoveryWrites` | components/worker-lab/worker_lab/application_service.py:1226-1268 | An accepted recovery makes exactly the writes that are left, custody first, then the invocation, then the attempt. |
| `RecoveryProofs.AnyPrefixIsResumable` | components/worker-lab/worker_lab/application_service.py:1098-1275 | After any prefix of its writes a recovery is still accepted, has exactly the other writes left, and has touched nothing else. |
| `RecoveryProofs.FullRunRecovers` | components/worker-lab/worker_lab/application_service.py:1226-1275 | An uninterrupted accepted recovery ends with custody ABSENCE_VERIFIED over an unchanged workspace, invocation and attempt ABORTED, and no result. |
| `RecoveryProofs.RecoveryConverges` | components/worker-lab/worker_lab/application_service.py:1098-1275 | The same after any number of interruptions after any number of writes; one more run changes nothing. |
| `Histories.RecoverIsLegal` | components/worker-lab/worker_lab/application_service.py:1152-1157 | Recovery marks UNCERTAIN only where no result exists. |
| `Reviews.SealedForever` | components/worker-lab/worker_lab/application_service.py:493-523 | Attempt, invocation and result of a finished dispatch keep their candidate under every later history. |
| `Reviews.SealedIsReviewable` | components/worker-lab/worker_lab/application_service.py:493-566 | A sealed candidate is accepted exactly when its canonical result is within the size limit, and then review reports the proposal's digest, or for a code task the framework's candidate digest from the retained manifest. |
| `ReviewFacts.ReviewsExactly` | components/worker-lab/worker_lab/application_service.py:493-566 | Over any records that load, review accepts an attempt if and only if its one invocation completed with its one result, the four records name each other, the result is well formed, bound and within 65,536 bytes, and the content it describes is retained; it then reports that content. |
| `Reviews.GatePassesResults` | components/worker-lab/worker_lab/framework_adapter.py:85-99 | The canonical text of any result passes the decode-and-reprint gate. |
| `DispatchReview.DispatchImpliesReviewForever` | components/worker-lab/worker_lab/application_service.py:493-566 | After a dispatch returned, review accepts in that state and after every later history of cut commands if and only if the planned result, known from the sealed invocation, is within 65,536 bytes; it then always reports the digest that the adapter's response named. |
| `DispatchReview.FilledResponseIsNotReviewable` | components/worker-lab/worker_lab/framework_adapter.py:91-93 | It can fail: a code task whose paths fill the adapter response is dispatched and then refused by review. |
| `DispatchReview.FilledResponseIsAccepted` | components/worker-lab/worker_lab/framework_adapter.py:414-534 | Such a task passes acceptance: about a thousand sorted, distinct file names of 61 characters, its custody, and a response within 65,536 bytes whose result is beyond. |
| `WholeRuns.ReviewCanRefuse` | components/worker-lab/worker_lab/framework_adapter.py:91-93 | A whole run from an empty directory, on about a thousand files with ordinary names, whose dispatch returns and whose candidate review refuses. |
| `Encoding.PrintedSize` | components/worker-lab/worker_lab/canonical.py:11-22 | The number of bytes of canonical JSON does not depend on key order and is the structural size. |
| `Encoding.ResultExceedsResponse` | components/worker-lab/worker_lab/integration.py:230-236 | A result is always more than 64 bytes longer than the code-task response with the same changed paths. |
| `CanonicalProofs.RoundTrip` | components/worker-lab/worker_lab/canonical.py:11-22 | Parsing the canonical text of any accepted value gives the value in normal form. |
| `CanonicalProofs.PrintIsInjective` | components/worker-lab/worker_lab/canonical.py:11-52 | Two accepted values have the same text exactly if they are the same up to key order and list or tuple. |
| `CanonicalProofs.GatePassesPrinterOutput` | components/worker-lab/worker_lab/framework_adapter.py:85-99 | The decode-and-reprint gate passes exactly the printer's own output. |
| `CanonicalProofs.OneTextPerValue` | components/worker-lab/worker_lab/framework_adapter.py:85-99 | Every value has exactly one text that passes the gate and means it. |
| `CanonicalProofs.CharsRead` | components/worker-lab/worker_lab/canonical.py:14-20 | Printed strings, escapes included, parse back. |
| `CanonicalProofs.IntReads` | components/worker-lab/worker_lab/canonical.py:14-20 | Printed integers parse back. |
| `CanonicalProofs.SortSorts` | components/worker-lab/worker_lab/canonical.py:14-20 | Sorting distinct keys puts them strictly in order. |
| `Storage.AtomicRecordStore.Replace` | components/worker-lab/worker_lab/storage.py:52-69 | At every step the files are the old ones or the old ones with the whole new content; the temporary file goes unless it cannot be unlinked. |
| `Storage.AtomicRecordStore.Write` | components/worker-lab/worker_lab/storage.py:43-69 | Succeeds exactly if every step does; the file is the canonical text exactly if the rename happened, and the old one otherwise. |
| `Storage.AtomicRecordStore.WriteBytes` | components/worker-lab/worker_lab/storage.py:82-113 | Content is never stored over other content unless asked, and then refused by its code; the same content again changes nothing; otherwise stored exactly if the rename happened. |
| `Storage.AtomicRecordStore.Read` | components/worker-lab/worker_lab/storage.py:24-41 | A record that a write has stored comes back as the same value; only a missing file is reported missing, and no stored record is reported corrupt. |
| `Storage.WriteThenRead` | components/worker-lab/worker_lab/storage.py:24-69 | A write and a read after it: a write that succeeded is read back, one that failed leaves what could be read before or the whole new record. |
| `Storage.StoredRecordsReadBack` | components/worker-lab/worker_lab/storage.py:24-51 | What a write stores, a read gives back; equal files exactly for equal values. |
| `Workspace.Lab.PrepareWorkspace` | components/worker-lab/worker_lab/workspace.py:238-422 | All or nothing: a receipt exactly for a clean DRAFT attempt, free names, time that does not go back, checks that succeed and record writes that persist; then the attempt is READY, receipt and tree stand, and each of their fields is stated; otherwise nothing changed, unless it says that compensation failed, and even then the attempt is as before; each failing step raises its own code. |
| `Workspace.Lab.Publish` | components/worker-lab/worker_lab/workspace.py:294-396 | The protected part reports truly how far it came. |
| `Workspace.Lab.Compensate` | components/worker-lab/worker_lab/workspace.py:916-945 | Compensation undoes exactly what was reported. |
| `Workspace.PreparationIsTheCommand` | components/worker-lab/worker_lab/workspace.py:350-396 | What a preparation stores is what the command histories ascribe to it. |
| `Workspace.PreparesExactly` | components/worker-lab/worker_lab/workspace.py:238-422 | Exactly when the preparing command of the histories succeeds, and its receipt field by field. |
| `Workspace.Lab.DiscardWorkspace` | components/worker-lab/worker_lab/workspace.py:100-235 | With room for its changes: succeeds exactly where the attempt, the receipt, the two names and the check of the tree allow it, whatever the tree contains, and then leaves the ended attempt and nothing else of it; refused, it leaves everything. Stopped early, it leaves a prefix of its changes. |
| `Workspace.Lab.DiscardAborted` | components/worker-lab/worker_lab/workspace.py:131-163 | The branch for an attempt that is ABORTED already. |
| `Workspace.Lab.DiscardPrepared` | components/worker-lab/worker_lab/workspace.py:180-211 | The branch for a PREPARED receipt, under either name: the tree is checked, renamed, recorded and removed; `Disposal.DisposesExactly` says when. |
| `Workspace.Lab.RemoveQuarantine` | components/worker-lab/worker_lab/workspace.py:219-229 | The removal loop has the described changes. |
| `Workspace.Lab.FinishDisposal` | components/worker-lab/worker_lab/workspace.py:219-235 | Removal, then the attempt, then the receipt. |
| `Workspace.PrepareAndDiscard` | components/worker-lab/worker_lab/workspace.py:100-422 | A workspace that was just prepared, whatever is in it, is disposed of: the directories are as before, and the attempt is ABORTED with the given text. |
| `Workspace.RunMakesPrefix` | components/worker-lab/worker_lab/workspace.py:100-235 | A stopped disposal has made exactly a prefix of its changes. |
| `Disposal.DisposesExactly` | components/worker-lab/worker_lab/workspace.py:131-211 | Disposal is accepted if and only if: aborted with this text, no workspace left, and at most its QUARANTINED receipt; or clean and READY with a PREPARED receipt and an intact tree under exactly one name; or with a QUARANTINED receipt and no final name. A refusal changes nothing. |
| `Disposal.DisposalRefusals` | components/worker-lab/worker_lab/workspace.py:131-211 | Why disposal is refused: the code for another cleanup text, a workspace left, a state that is not clean, a missing receipt, both names or none, and a tree that is not intact. |
| `Disposal.FullDisposal` | components/worker-lab/worker_lab/workspace.py:100-235 | One full call leaves everything but the attempt's workspace and receipt, and the attempt ended. |
| `Disposal.DiscardsExactly` | components/worker-lab/worker_lab/workspace.py:131-235 | Exactly when the discarding command of the histories succeeds, on the records alone. |
| `Disposal.FirstChange` | components/worker-lab/worker_lab/workspace.py:131-235 | After the first change of an accepted disposal the same call is accepted and has exactly the other changes left. |
| `Disposal.DisposalIsSafeThroughout` | components/worker-lab/worker_lab/workspace.py:180-229 | Between any two changes: not both names exist, removal goes on only under a durable QUARANTINED receipt, an ABORTED attempt has no workspace. |
| `Disposal.DisposalConverges` | components/worker-lab/worker_lab/workspace.py:100-235 | Started where it can be done and stopped any number of times anywhere, even inside removal, the same call later succeeds: ABORTED with the given text, no receipt, no workspace, and all else exactly as at the start. |
| `Disposal.DisposalWritesAreTheCommands` | components/worker-lab/worker_lab/workspace.py:180-235 | Its record writes are those of the discard command in the histories. |
| `Runner.WindowsJobAdapterRunner.Call` | components/worker-lab/worker_lab/windows_job.py:145-352 | Custody is truthful however the run ends; the complete standard output is returned only by a clean run over durable custody that acceptance accepts. When no write raises: exactly by a clean run; otherwise the raised code is that of the exit, and every field of the record left is stated, with CODEX_TIMEOUT exactly after a timeout, then INTEGRATION_RESULT_INVALID exactly after a failed reader, then the limit of a stream that overflowed, then INTEGRATION_EXECUTION_FAILED exactly for a non-zero exit. When the request cannot be marked as sent, custody stays TERMINATED or UNCERTAIN as counted. |
| `Runner.WindowsJobAdapterRunner.CallInJob` | components/worker-lab/worker_lab/windows_job.py:195-352 | The same for the part of a run that has a job object: the record left, and the code of each exit. |
| `Runner.WindowsJobAdapterRunner.VerifiedExactlyAfterZero` | components/worker-lab/worker_lab/windows_job.py:217-343 | When no write raises, the record left is ABSENCE_VERIFIED exactly if the query that ended the run saw nothing alive, and passes the acceptance test exactly after a clean run. |
| `Runner.UnsentRun` | components/worker-lab/worker_lab/process_custody.py:188-193 | A run whose dispatching record cannot be stored: nothing is alive any more, and its custody stays TERMINATED. |
| `Runner.FailuresAreNamedTruly` | components/worker-lab/worker_lab/windows_job.py:284-291 | The recorded failure by what happened: timeout, failed reader, overflowing stream, exit code, none, each if and only if. |
| `Runner.WindowsJobAdapterRunner.FinalRecordTells` | components/worker-lab/worker_lab/windows_job.py:167-344 | Every field of the record that a run leaves when no write raises, for each of its exits. |
| `Runner.WindowsJobAdapterRunner.EndTells` | components/worker-lab/worker_lab/windows_job.py:283-312 | How a counted end is recorded and which code it raises. |
| `Runner.WindowsJobAdapterRunner.Start` | components/worker-lab/worker_lab/windows_job.py:211-268 | From the launch to the sent request: no exit leaves accepted custody. |
| `Runner.WindowsJobAdapterRunner.SendRequest` | components/worker-lab/worker_lab/windows_job.py:238-268 | Assignment and dispatching are durable before the request is written. |
| `Runner.WindowsJobAdapterRunner.Finish` | components/worker-lab/worker_lab/windows_job.py:270-312 | Both streams within their limits, exit zero and an observed zero are needed to return bytes, and they are the complete standard output; each other end raises its own code. |
| `Runner.WindowsJobAdapterRunner.StoreEnd` | components/worker-lab/worker_lab/windows_job.py:283-312 | From the counted end to the verified one: exit code, count, failure and state of the record left, and the code that is raised. |
| `Runner.WindowsJobAdapterRunner.AssignmentFailed` | components/worker-lab/worker_lab/windows_job.py:217-236 | The record of a failed assignment carries the count that was observed. |
| `Runner.WindowsJobAdapterRunner.RecordFault` | components/worker-lab/worker_lab/windows_job.py:313-344 | Nothing is stored over a record other than the one held in memory; over that one, exactly what the last query saw, verified gone only if the request was sent or no adapter is known. |
| `Runner.WindowsJobAdapterRunner.SaveEnded` | components/worker-lab/worker_lab/windows_job.py:326-343 | A failed query is stored as UNCERTAIN without a count; when no write raises, the ended record is ABSENCE_VERIFIED exactly if the query saw zero and the request was sent or there is no adapter identity, and otherwise TERMINATED or UNCERTAIN as counted. |
| `Runner.WindowsJobAdapterRunner.SaveMove` | components/worker-lab/worker_lab/process_custody.py:147-170 | One guarded save of the runner: nothing is stored over another record, and each write fault leaves the old or the new record. |
| `Runner.WindowsJobAdapterRunner.SaveVerified` | components/worker-lab/worker_lab/windows_job.py:303-308 | Absence is verified only after an observed zero. |
| `CustodyLog.TruthfulRecord` | components/worker-lab/worker_lab/windows_job.py:211-343 | Reading a truthful log: verified absence comes after an observed zero, a stored count was observed, a failed last query means UNCERTAIN. |
| `CustodyLog.CustodyDisk.Save` | components/worker-lab/worker_lab/process_custody.py:147-170 | The guarded save keeps the log truthful, with writes that raise before or after persisting. |
| `Readers.ReadersAreExact` | components/worker-lab/worker_lab/windows_job.py:567-597 | For every chunking and interleaving: a set flag has a name, names only name streams over their limit; at the end buffers are the fitting beginnings, the flag is set exactly if a stream did not fit, and without it the output is complete. |
| `Readers.EnoughTurnsFinish` | components/worker-lab/worker_lab/windows_job.py:567-597 | A schedule with enough turns for each thread finishes both. |
| `Graph.AssertAcyclic` | components/worker-lab/worker_lab/validation.py:241-258 | The search ends on every finite graph and raises exactly if the graph between its keys has a cycle. |
| `Graph.Search.Visit` | components/worker-lab/worker_lab/validation.py:245-255 | One visit keeps a finished order, or has found a cycle. |
| `Graph.FinishedIsAcyclic` | components/worker-lab/worker_lab/validation.py:241-258 | An order in which edges only lead back rules out every cycle. |
| `Plans.ValidGraph` | components/local-model-bench/src/localbench/evaluate.py:27-62 | The plan check with its search gives the verdict that needs no search. |
| `Plans.VerdictMeansOrdered` | components/local-model-bench/src/localbench/evaluate.py:32-44 | The verdict is positive exactly for plans whose items depend on earlier items only. |
| `Plans.VerdictNamesTheFirst` | components/local-model-bench/src/localbench/evaluate.py:31-45 | The message names the first item that lists anything but earlier items, and why. |
| `Plans.CycleIsNeverReported` | components/local-model-bench/src/localbench/evaluate.py:60-61 | The message about a cycle is never given. |
| `Retry.AcceptedLinksAreChains` | components/worker-lab/worker_lab/attempt_store.py:106-129 | On any store, cyclic or not, a retry link is accepted exactly if the prior attempts form a finite chain of distinct stored attempts that starts at a terminal one and avoids the new one. |
| `Retry.AttemptCreatesExactly` | components/worker-lab/worker_lab/attempt_store.py:28-43 | A new attempt is stored exactly if it is a clean DRAFT under a new name whose prior attempts are such a chain. |
| `Retry.FreshLinks` | components/worker-lab/worker_lab/attempt_store.py:106-129 | On a built store a fresh attempt's link is judged by its first step alone. |
| `Retry.BuiltStoresAreAcyclic` | components/worker-lab/worker_lab/attempt_store.py:28-43 | On a store built by creates and saves the prior graph is acyclic with terminal priors, and the cycle error meets only attempts that name themselves. |
| `Retry.ValidatePriors` | components/worker-lab/worker_lab/validation.py:185-200 | The relation check accepts exactly if references hold, the prior graph is acyclic, priors are terminal and retries are dated after them; it tells a late check by its code. |
| `Retry.CheckReferences` | components/worker-lab/worker_lab/validation.py:185-188 | The reference loop accepts exactly if every retry names another stored attempt; otherwise it tells the first that does not by its code. |
| `Retry.CheckPriorsEnded` | components/worker-lab/worker_lab/validation.py:194-200 | The state and time loop accepts exactly if priors are terminal and retries dated after them, and tells the two apart by their codes. |
| `Retry.BuiltStoresValidate` | components/worker-lab/worker_lab/validation.py:185-200 | On a built store reference, cycle and state checks always pass; the time check passes exactly if every accepted retry was created no earlier than its prior attempt ended. |
| `Retry.EarlyRetryIsAccepted` | components/worker-lab/worker_lab/validation.py:199-200 | The store accepts a retry that the time check refuses. |
| `Harness.RunFixtureJob` | components/autonomous-worker-framework/tools/local_worker_harness.py:567-859 | Every report is one that the validator accepts; at most one repair runs; ready exactly if all gates passed, and then the paths are some and all allowed; otherwise the report tells where the job ended: the code, the first failure's boundary and code, and the verdicts of the three checks. |
| `Harness.RunTrustedValidation` | components/autonomous-worker-framework/tools/local_worker_harness.py:360-388 | Commands run in order up to the first failure, which the last stage names. |
| `Harness.RunFixtureFullValidation` | components/autonomous-worker-framework/tools/local_worker_harness.py:391-445 | Full validation passes exactly if diff, fixture and all commands do. |
| `Harness.FailureResult` | components/autonomous-worker-framework/tools/local_worker_harness.py:448-511 | Every failure report is valid and not ready, and keeps the first failure of a repaired job. |
| `Harness.ReadyResult` | components/autonomous-worker-framework/tools/local_worker_harness.py:840-859 | A ready report is valid. |
| `Harness.RunPreconditions` | components/autonomous-worker-framework/tools/local_worker_harness.py:581-614 | The gates before the mutation. |
| `Harness.RunMutation` | components/autonomous-worker-framework/tools/local_worker_harness.py:616-667 | The mutation and its boundary. |
| `Harness.RunQuickStage` | components/autonomous-worker-framework/tools/local_worker_harness.py:671-777 | Target validation with one repair if there is a repairer; the original failure is kept. |
| `Harness.RunQuickCommands` | components/autonomous-worker-framework/tools/local_worker_harness.py:779-817 | Trusted quick commands behind the target check. |
| `Harness.RunValidations` | components/autonomous-worker-framework/tools/local_worker_harness.py:779-859 | Ready exactly if all trusted commands and the full validation pass. |
| `Harness.RunCandidate` | components/autonomous-worker-framework/tools/local_worker_harness.py:669-859 | From the mutation on: the quick stage with its repair and the validations, with the same report. |
| `WorkerResults.ValidResultsTell` | components/autonomous-worker-framework/tools/worker_result.py:106-215 | What an accepted manifest tells: ready exactly with every check passed over a changed candidate, a first failure exactly after a failure or a repair, a reason for each failure, each path once. |
| `Bench.ModelRun.RunModel` | components/local-model-bench/src/localbench/runner.py:275-298 | The loop over cases leaves the files that the run function describes. |
| `Bench.ExecuteCase` | components/local-model-bench/src/localbench/runner.py:314-410 | The first attempt that does not raise decides; an error uses all tries. |
| `Bench.RequestsAreComplete` | components/local-model-bench/src/localbench/runner.py:63-77 | A request begins with the whole conversation and asks every message of its case. |
| `Bench.AnswersAreCarriedOn` | components/local-model-bench/src/localbench/runner.py:63-94 | After a stored success, the next request of its conversation is what that case was asked, the stored answer as the assistant's message, and then the case without a system message that the conversation opened with. |
| `Bench.FreshCasesAreAskedPlainly` | components/local-model-bench/src/localbench/runner.py:63-77 | An isolated case, or one before which its conversation has no success, is asked with its own messages. |
| `Bench.RerunsKeepTheFoldIffNoneStranded` | components/local-model-bench/src/localbench/runner.py:283-295 | Rerunning errors keeps the messages of every stored case the fold of the records before it, for every provider and wherever the run stops, if and only if no stored error of a preserved conversation has a stored case of that conversation after it. |
| `Bench.RerunErrorsBreakTheFold` | components/local-model-bench/src/localbench/runner.py:283-290 | Such files come about: a run of two cases stores one, and a resumed run with rerun of errors breaks the fold. |
| `Bench.StoredCasesAreConsistent` | components/local-model-bench/src/localbench/runner.py:63-94 | After any crashes and resumes, with errors rerun only where none is stranded, the stored cases are a prefix of the case order and the messages of each are the fold of the records before it. |
| `Bench.DeterministicRunsAgree` | components/local-model-bench/src/localbench/runner.py:275-298 | With a deterministic provider the stored requests, statuses and contents are those of an uninterrupted run, whether or not errors are rerun. |
| `Backup.CreateBackup` | components/worker-lab/worker_lab/backup.py:72-121 | Succeeds exactly if no durable root is a file; holds the durable projection and its sorted manifest; its own verification never fails. |
| `Backup.VerifyBackup` | components/worker-lab/worker_lab/backup.py:124-159 | Accepts exactly a valid manifest that lists exactly the content. |
| `Backup.RestoreBackup` | components/worker-lab/worker_lab/backup.py:162-202 | Succeeds exactly on verified backups and yields exactly their content. |
| `Backup.TreeEntries` | components/worker-lab/worker_lab/backup.py:218-256 | Walking in any order gives the one sorted entry list. |
| `Backup.BackupRoundTrip` | components/worker-lab/worker_lab/backup.py:72-202 | A created backup verifies, restores to the durable projection of its source, and backing that up gives the same manifest. |
| `Backup.BackUpTwice` | components/worker-lab/worker_lab/backup.py:72-202 | Create, restore, create as run one after the other: the restored tree is the durable projection, and its backup is the same backup. |
| `Backup.WorkspacesAreDropped` | components/worker-lab/worker_lab/backup.py:23-26 | Two trees have the same backup exactly if their durable parts are the same; so what lies below excluded directories, attempt workspaces among them, and temporary files changes no backup. |
| `Backup.DurablePathsHaveDurableTexts` | components/worker-lab/worker_lab/backup.py:259-272 | The walk and the manifest loader agree: a path is kept if and only if its text is accepted and it lies below a root. |
| `Backup.WhatIsKept` | components/worker-lab/worker_lab/backup.py:20-24 | What is kept, name by name. |
| `PosixPaths.SplitJoin` | components/worker-lab/worker_lab/backup.py:176-180 | A path text splits back into its names. |

## Left out

- Interleaving inside one store call: each guarded call is one step, so two processes that both read before either writes are not modelled, except that a dispatcher's loads, checks, binding and marking are separate steps in `Launch`.
- Commands that run concurrently, beyond at-most-one launch: recovery, preparation and disposal are meant for one operator at a time.
- Field formats: identifiers, commit and digest syntax, timestamp syntax, and versions and report texts that are pinned to one constant.
- The read-only evaluation plan: its agreement is an input of acceptance (`stages`).
- Evidence and failure records: review lists them, and the model has none.
- Texts of blanks only, which the source refuses as cleanup outcomes and prompts: a text is empty or not.
- Links, junctions, reparse points and path containment: the checks are inputs that may fail.
- A directory rename either happens or raises without effect.
- Exceptions other than LabValidationError and OSError inside `prepare_workspace`, such as an interrupt, skip its compensation.
- A crash inside `prepare_workspace` is not restartable in the source and is only part of the histories as a prefix of its record writes.
- Killing and waiting for the process tree, closing handles: they change no record; what the kernel reports afterwards is an input.
- Read errors in the reader threads: they are inputs of the runner (`outFails`, `errFails`), which end a reader, and not steps of the thread model.
- Screening of proposals for forbidden markers is an input of acceptance.
- `TestCatalog` selection: a test plan is a fixed list of test identifiers.
- Command line, display objects, HTTP providers, prompt texts, model metadata and unload records of the benchmark: input and output only.
- `synthetic_read_only.py`: a weaker duplicate of the service protocol, whose recovery is not restartable once the invocation has stopped.
- Strings with lone surrogates, and integers beyond the decoder's digit limit: they have no text that could be read back.
- `_validate_json_value` on floats, non-text keys and other types: they are refused before printing and are not values here.
- Empty directories are not part of a backup tree, and the fixed wording of harness reports is abbreviated.
- Storage.AtomicRecordStore.Read: refuses repeated keys, fractions and exponents, which the JSON decoder accepts before the record loader sees them, because only canonical text is ever stored.
- Readers.EnoughTurnsFinish: counts turns instead of assuming a fair scheduler.
- Bench.ModelRun.RunModel: takes the cases of all suites as one list instead of two nested loops, because their numbering is the same.
- Bench.ExecuteCase: leaves out timings, token counts and the retry delay, which no later request depends on.
- Service.WorkerLabApplicationService.PrepareInvocation: does not store the read-only evaluation plan, which the source writes between the prompt and the invocation, under an identifier that no other record has yet; whether a prompt is only blanks is not checked, because prompts are bytes here.
- Plans.ValidGraph: an item part is either usable or missing, instead of an arbitrary JSON value.
- Workspace.Lab.PrepareWorkspace: treats the Git commands before publication as one step that succeeds or fails, because none of them is seen outside the staging directory.
- Runner.WindowsJobAdapterRunner.Call: the request and command checks before custody is created are not modelled, because they leave nothing behind.
