/** The joint invariant of the record stores over all command histories.

    Every command, however it is cut, only makes writes that are legal in the
    directory they meet; every legal write keeps the invariant. */
module Protocol {
  import opened Outcomes
  import opened Records
  import opened Lifecycle
  import opened Stores
  import opened Acceptance
  import opened Moves

  // ----- the invariant

  ghost predicate AttemptsKeyed(s: Stores) {
    forall k | k in s.attempts :: s.attempts[k].attemptId == k && ValidAttempt(s.attempts[k])
  }

  ghost predicate InvocationsKeyed(s: Stores) {
    forall k | k in s.invocations ::
      s.invocations[k].identity.invocationId == k && ValidInvocation(s.invocations[k])
  }

  ghost predicate CustodyKeyed(s: Stores) {
    forall k | k in s.custody :: s.custody[k].invocationId == k && ValidCustody(s.custody[k])
  }

  ghost predicate ResultsKeyed(s: Stores) {
    forall k | k in s.results :: s.results[k].invocationId == k
  }

  /** Receipts stand under their attempt and content under its own digest. */
  ghost predicate FilesKeyed(s: Stores) {
    && (forall k | k in s.receipts :: s.receipts[k].attemptId == k)
    && (forall f | f in s.contents :: OfContent(s.contents[f]) == f.digest)
  }

  /** Every invocation belongs to one attempt, shares its authority, and is the
      only invocation of that attempt. */
  ghost predicate OneInvocationEach(s: Stores) {
    && (forall k | k in s.invocations ::
          var i := s.invocations[k].identity;
          i.attemptId in s.attempts && s.attempts[i.attemptId].authority == i.authority)
    && (forall j, k | j in s.invocations && k in s.invocations ::
          s.invocations[j].identity.attemptId == s.invocations[k].identity.attemptId ==> j == k)
  }

  /** A runtime identity names the attempt's invocation, which is neither
      PREPARED nor REJECTED. */
  ghost predicate RuntimeNamesInvocation(s: Stores, a: Attempt) {
    a.runtimeIdentity.Some? ==>
      && a.runtimeIdentity.value.OfIdentity?
      && var i := a.runtimeIdentity.value.identity;
         && i.attemptId == a.attemptId
         && i.invocationId in s.invocations
         && s.invocations[i.invocationId].identity == i
         && s.invocations[i.invocationId].state !in {Prepared, Rejected}
  }

  /** DISPATCHING, UNCERTAIN and COMPLETED invocations are bound. */
  ghost predicate DispatchedIsBound(s: Stores, i: Invocation) {
    i.state in {Dispatching, Uncertain, Completed} ==>
      && i.identity.attemptId in s.attempts
      && s.attempts[i.identity.attemptId].runtimeIdentity == Some(OfIdentity(i.identity))
  }

  /** A result stands under DISPATCHING or COMPLETED and rests on successful,
      immutable custody and on retained content. */
  ghost predicate ResultIsSound(s: Stores, r: ResultRecord) {
    && r.invocationId in s.invocations
    && var i := s.invocations[r.invocationId];
       && i.state in {Dispatching, Completed}
       && ValidResult(r)
       && BindsInvocation(r, i.identity)
       && r.processOutcome == PassOutcome
       && r.invocationId in s.custody
       && VerifiedSuccess(s.custody[r.invocationId], i.identity)
       && r.processIdentity == Some(OfCustody(s.custody[r.invocationId]))
       && r.contentReference.Some?
       && r.contentReference.value in s.contents
       && ContentMatches(r, s.contents[r.contentReference.value])
  }

  ghost predicate CompletedHasResult(s: Stores, i: Invocation) {
    i.state == Completed ==>
      && i.identity.invocationId in s.results
      && i.resultDigest == Some(OfResult(s.results[i.identity.invocationId]))
  }

  ghost predicate RuntimesNamed(s: Stores) {
    forall k | k in s.attempts :: RuntimeNamesInvocation(s, s.attempts[k])
  }

  ghost predicate InvocationsBound(s: Stores) {
    forall k | k in s.invocations :: DispatchedIsBound(s, s.invocations[k])
  }

  ghost predicate CompletionsHaveResults(s: Stores) {
    forall k | k in s.invocations :: CompletedHasResult(s, s.invocations[k])
  }

  ghost predicate ResultsSound(s: Stores) {
    forall k | k in s.results :: ResultIsSound(s, s.results[k])
  }

  /** Custody exists only for invocations that were dispatched. */
  ghost predicate CustodyPlaced(s: Stores) {
    forall k | k in s.custody ::
      k in s.invocations && s.invocations[k].state !in {Prepared, Authorized, Rejected}
  }

  /** Every invocation's prompt is retained. */
  ghost predicate PromptsRetained(s: Stores) {
    forall k | k in s.invocations :: PromptFile(s.invocations[k].identity.promptDigest) in s.contents
  }

  ghost predicate Inv(s: Stores) {
    && AttemptsKeyed(s)
    && InvocationsKeyed(s)
    && CustodyKeyed(s)
    && ResultsKeyed(s)
    && FilesKeyed(s)
    && OneInvocationEach(s)
    && RuntimesNamed(s)
    && InvocationsBound(s)
    && CompletionsHaveResults(s)
    && ResultsSound(s)
    && CustodyPlaced(s)
    && PromptsRetained(s)
  }

  // ----- legal writes

  ghost predicate LegalNewAttempt(s: Stores, a: Attempt) {
    && a.attemptId !in s.attempts
    && a.state == Draft
    && ValidAttempt(a)
  }

  ghost predicate LegalAttemptMove(s: Stores, a: Attempt) {
    && a.attemptId in s.attempts
    && AttemptMoves(s.attempts[a.attemptId], a)
    && (a.state == Running ==>
          && a.runtimeIdentity.value.OfIdentity?
          && var i := a.runtimeIdentity.value.identity;
             && i.attemptId == a.attemptId
             && i.invocationId in s.invocations
             && s.invocations[i.invocationId].identity == i
             && s.invocations[i.invocationId].state == Authorized)
  }

  ghost predicate LegalNewInvocation(s: Stores, i: Invocation) {
    && i.identity.invocationId !in s.invocations
    && i.state == Prepared
    && ValidInvocation(i)
    && i.identity.attemptId in s.attempts
    && s.attempts[i.identity.attemptId].authority == i.identity.authority
    && (forall k | k in s.invocations :: s.invocations[k].identity.attemptId != i.identity.attemptId)
    && PromptFile(i.identity.promptDigest) in s.contents
  }

  ghost predicate LegalInvocationMove(s: Stores, i: Invocation) {
    var id := i.identity.invocationId;
    && id in s.invocations
    && InvocationMoves(s.invocations[id], i)
    && (i.state == Dispatching ==>
          && i.identity.attemptId in s.attempts
          && s.attempts[i.identity.attemptId].runtimeIdentity == Some(OfIdentity(i.identity)))
    && (i.state == Completed ==> id in s.results && i.resultDigest == Some(OfResult(s.results[id])))
    && (i.state == Uncertain ==> id !in s.results)
  }

  ghost predicate LegalCustody(s: Stores, c: Custody) {
    var id := c.invocationId;
    && id in s.invocations
    && id !in s.results
    && s.invocations[id].state in {Dispatching, Uncertain, AbortedInvocation}
    && ValidCustody(c)
    && (id in s.custody ==> CustodyMoves(s.custody[id], c))
  }

  ghost predicate LegalResult(s: Stores, r: ResultRecord) {
    && r.invocationId in s.invocations
    && r.invocationId !in s.results
    && s.invocations[r.invocationId].state == Dispatching
    && ResultIsSound(s, r)
  }

  /** Every write any command makes is legal where it is made. */
  ghost predicate Legal(s: Stores, w: Write) {
    match w
    case PutAttempt(a) => LegalNewAttempt(s, a) || LegalAttemptMove(s, a)
    case PutInvocation(i) => LegalNewInvocation(s, i) || LegalInvocationMove(s, i)
    case PutCustody(c) => LegalCustody(s, c)
    case PutResult(r) => LegalResult(s, r)
    case PutReceipt(p) => true
    case DropReceipt(_) => true
    case PutContent(f, c) => f !in s.contents && OfContent(c) == f.digest
  }

  ghost predicate LegalRun(s: Stores, ws: seq<Write>)
    decreases ws
  {
    ws == [] || (Legal(s, ws[0]) && LegalRun(Apply(s, ws[0]), ws[1..]))
  }

  // ----- every legal write keeps the invariant

  lemma LegalKeepsAttemptsKeyed(s: Stores, w: Write)
    requires AttemptsKeyed(s) && Legal(s, w)
    ensures AttemptsKeyed(Apply(s, w))
  {
  }

  lemma LegalKeepsInvocationsKeyed(s: Stores, w: Write)
    requires InvocationsKeyed(s) && Legal(s, w)
    ensures InvocationsKeyed(Apply(s, w))
  {
  }

  lemma LegalKeepsCustodyKeyed(s: Stores, w: Write)
    requires CustodyKeyed(s) && Legal(s, w)
    ensures CustodyKeyed(Apply(s, w))
  {
  }

  lemma LegalKeepsResultsKeyed(s: Stores, w: Write)
    requires ResultsKeyed(s) && Legal(s, w)
    ensures ResultsKeyed(Apply(s, w))
  {
  }

  lemma LegalKeepsFilesKeyed(s: Stores, w: Write)
    requires FilesKeyed(s) && Legal(s, w)
    ensures FilesKeyed(Apply(s, w))
  {
  }

  lemma LegalKeepsOneInvocation(s: Stores, w: Write)
    requires OneInvocationEach(s) && Legal(s, w)
    ensures OneInvocationEach(Apply(s, w))
  {
  }

  lemma LegalKeepsRuntimes(s: Stores, w: Write)
    requires RuntimesNamed(s) && Legal(s, w)
    ensures RuntimesNamed(Apply(s, w))
  {
  }

  lemma LegalKeepsBindings(s: Stores, w: Write)
    requires InvocationsKeyed(s) && InvocationsBound(s) && Legal(s, w)
    ensures InvocationsBound(Apply(s, w))
  {
  }

  lemma LegalKeepsCompletions(s: Stores, w: Write)
    requires InvocationsKeyed(s) && CompletionsHaveResults(s) && Legal(s, w)
    ensures CompletionsHaveResults(Apply(s, w))
  {
  }

  lemma LegalKeepsResults(s: Stores, w: Write)
    requires ResultsKeyed(s) && ResultsSound(s) && Legal(s, w)
    ensures ResultsSound(Apply(s, w))
  {
    var t := Apply(s, w);
    forall k | k in t.results
      ensures ResultIsSound(t, t.results[k])
    {
      ResultStaysSound(s, w, t.results[k]);
    }
  }

  lemma LegalKeepsCustody(s: Stores, w: Write)
    requires CustodyPlaced(s) && Legal(s, w)
    ensures CustodyPlaced(Apply(s, w))
  {
  }

  lemma LegalKeepsPrompts(s: Stores, w: Write)
    requires PromptsRetained(s) && Legal(s, w)
    ensures PromptsRetained(Apply(s, w))
  {
  }

  lemma LegalWriteKeepsInvariant(s: Stores, w: Write)
    requires Inv(s) && Legal(s, w)
    ensures Inv(Apply(s, w))
  {
    LegalKeepsAttemptsKeyed(s, w);
    LegalKeepsInvocationsKeyed(s, w);
    LegalKeepsCustodyKeyed(s, w);
    LegalKeepsResultsKeyed(s, w);
    LegalKeepsFilesKeyed(s, w);
    LegalKeepsOneInvocation(s, w);
    LegalKeepsRuntimes(s, w);
    LegalKeepsBindings(s, w);
    LegalKeepsCompletions(s, w);
    LegalKeepsResults(s, w);
    LegalKeepsCustody(s, w);
    LegalKeepsPrompts(s, w);
  }

  lemma ResultStaysSound(s: Stores, w: Write, r: ResultRecord)
    requires Legal(s, w) && ResultIsSound(s, r)
    requires r.invocationId in s.results || w == PutResult(r)
    ensures ResultIsSound(Apply(s, w), r)
  {
  }
}
