/** Exactly which candidates review accepts, over any records that load. */
module ReviewFacts {
  import opened Outcomes
  import opened Records
  import opened Stores
  import opened Acceptance
  import opened Protocol
  import opened Encoding
  import opened Reviews

  /** The result names this invocation, its inputs and its sealed workspace. */
  predicate NamesInvocation(r: ResultRecord, i: InvocationIdentity) {
    && r.invocationDigest == OfIdentity(i) && r.requestDigest == OfIdentity(i)
    && r.invocationId == i.invocationId && r.attemptId == i.attemptId && r.operation == i.operation
    && r.frameworkInstallation == i.frameworkInstallation && r.promptDigest == i.promptDigest
    && r.catalogVersion == i.authority.catalogVersion && r.catalogDigest == i.authority.catalogDigest
    && r.testPlanDigest == i.testPlanDigest && r.testIds == i.testIds
    && r.workspaceReceiptDigest == i.workspaceReceiptDigest
    && r.workspaceRootDigest == i.workspaceRootDigest && r.workspacePathDigest == i.workspacePathDigest
    && r.startingCommit == i.authority.startingCommit
  }

  /** The text of the result is within the limit of what is read. */
  predicate WithinLimit(r: ResultRecord) {
    1 <= Utf8Length(ResultText(r)) <= 65_536
  }

  /** A proposal is named by its digest twice; a code task's manifest is named,
      and names the invocation and the changed paths. */
  predicate Describes(r: ResultRecord, c: Content) {
    || (r.operation == ReadOnlyProposal && c.Proposal?
        && r.proposalDigest == Some(OfContent(c)) && r.outputDigest == OfContent(c))
    || (r.operation == WorkspaceWriteCodeTask && c.CandidateManifest? && r.candidateDigest == Some(OfContent(c))
        && c.invocationDigest == r.invocationDigest && c.changedPaths == r.changedPaths)
  }

  /** Attempt, invocation, result and custody name each other. */
  predicate NameEachOther(a: Attempt, i: Invocation, r: ResultRecord, c: Custody) {
    && i.state == Completed && i.resultDigest == Some(OfResult(r)) && a.candidateDigest == Some(OfResult(r))
    && a.runtimeIdentity == Some(OfIdentity(i.identity))
    && c.invocationId == i.identity.invocationId && c.invocationDigest == OfIdentity(i.identity)
    && c.state == AbsenceVerified && r.processIdentity == Some(OfCustody(c))
  }

  predicate ContentStands(s: Stores, r: ResultRecord) {
    && r.contentReference.Some? && r.contentReference.value in s.contents
    && Describes(r, s.contents[r.contentReference.value])
  }

  /** The one invocation of the attempt completed with the one result of the
      attempt; the attempt, the invocation, the result and the verified custody
      name each other; the result is well formed and within the limit, and its
      content is retained. */
  ghost predicate Reviewable(s: Stores, attemptId: Id, id: Id) {
    && attemptId in s.attempts && id in s.invocations && id in s.results && id in s.custody
    && s.invocations[id].identity.attemptId == attemptId && s.results[id].attemptId == attemptId
    && (forall k | k in s.invocations && s.invocations[k].identity.attemptId == attemptId :: k == id)
    && (forall k | k in s.results && s.results[k].attemptId == attemptId :: k == id)
    && var a, i, r, c := s.attempts[attemptId], s.invocations[id], s.results[id], s.custody[id];
       && NameEachOther(a, i, r, c)
       && WithinLimit(r) && ValidResult(r) && NamesInvocation(r, i.identity) && ContentStands(s, r)
  }

  ghost predicate RecordsLoad(s: Stores) {
    AttemptsKeyed(s) && InvocationsKeyed(s) && CustodyKeyed(s) && ResultsKeyed(s) && FilesKeyed(s)
  }

  lemma ParsesExactly(r: ResultRecord, i: InvocationIdentity)
    ensures ParseResult(r, i).Ok? <==> WithinLimit(r) && ValidResult(r) && NamesInvocation(r, i)
  {
    GatePassesResults(r);
  }

  lemma ContentExactly(s: Stores, r: ResultRecord)
    ensures CheckContent(s, r).Ok? <==> ContentStands(s, r)
    ensures CheckContent(s, r).Ok? ==> CheckContent(s, r).value == ReviewedDigest(s.contents[r.contentReference.value])
  {
  }

  lemma ChecksExactly(s: Stores, a: Attempt, i: Invocation, r: ResultRecord, c: Custody)
    ensures CheckCandidate(s, a, i, r, c).Ok? <==>
              && NameEachOther(a, i, r, c) && WithinLimit(r) && ValidResult(r) && NamesInvocation(r, i.identity)
              && ContentStands(s, r)
    ensures CheckCandidate(s, a, i, r, c).Ok? ==>
              CheckCandidate(s, a, i, r, c).value == ReviewedDigest(s.contents[r.contentReference.value])
  {
    ParsesExactly(r, i.identity);
    ContentExactly(s, r);
  }

  lemma AloneIsOne(s: Stores, attemptId: Id, id: Id)
    requires id in s.invocations && id in s.results && id in s.custody && CustodyKeyed(s)
    requires s.invocations[id].identity.attemptId == attemptId && s.results[id].attemptId == attemptId
    requires forall k | k in s.invocations && s.invocations[k].identity.attemptId == attemptId :: k == id
    requires forall k | k in s.results && s.results[k].attemptId == attemptId :: k == id
    ensures InvocationsOf(s, attemptId) == {id} && ResultsOf(s, attemptId) == {id} && CustodyOf(s, {id}) == {id}
  {
  }

  lemma ReviewableIsReviewed(s: Stores, attemptId: Id, id: Id)
    requires RecordsLoad(s) && Reviewable(s, attemptId, id)
    ensures ReviewCandidate(s, attemptId) == Ok(ReviewedDigest(s.contents[s.results[id].contentReference.value]))
  {
    AloneIsOne(s, attemptId, id);
    TimelineOfOne(s, s.attempts[attemptId], id);
    ChecksExactly(s, s.attempts[attemptId], s.invocations[id], s.results[id], s.custody[id]);
  }

  lemma OneOf(s: Stores, attemptId: Id) returns (id: Id)
    requires RecordsLoad(s) && ReviewCandidate(s, attemptId).Ok?
    ensures id in s.invocations && id in s.results && id in s.custody
    ensures InvocationsOf(s, attemptId) == {id} && ResultsOf(s, attemptId) == {id} && CustodyOf(s, {id}) == {id}
  {
    var invocations, results := InvocationsOf(s, attemptId), ResultsOf(s, attemptId);
    id := Only(invocations);
    assert id in invocations;
    var r, c := Only(results), Only(CustodyOf(s, invocations));
    assert r in results && c in CustodyOf(s, invocations);
    assert s.results[r].invocationId in invocations;
    assert s.custody[c].invocationId in invocations;
  }

  /** Review accepts an attempt exactly if it has such an invocation, and then
      reports the digest of the retained content. */
  lemma ReviewsExactly(s: Stores, attemptId: Id)
    requires RecordsLoad(s)
    ensures ReviewCandidate(s, attemptId).Ok? <==> exists id :: Reviewable(s, attemptId, id)
    ensures forall id | Reviewable(s, attemptId, id) ::
              ReviewCandidate(s, attemptId) == Ok(ReviewedDigest(s.contents[s.results[id].contentReference.value]))
  {
    if ReviewCandidate(s, attemptId).Ok? {
      var id := OneOf(s, attemptId);
      TimelineOfOne(s, s.attempts[attemptId], id);
      ChecksExactly(s, s.attempts[attemptId], s.invocations[id], s.results[id], s.custody[id]);
      AloneOf(s, attemptId, id);
      assert Reviewable(s, attemptId, id);
    }
    forall id | Reviewable(s, attemptId, id)
      ensures ReviewCandidate(s, attemptId) == Ok(ReviewedDigest(s.contents[s.results[id].contentReference.value]))
    {
      ReviewableIsReviewed(s, attemptId, id);
    }
  }

  lemma AloneOf(s: Stores, attemptId: Id, id: Id)
    requires InvocationsOf(s, attemptId) == {id} && ResultsOf(s, attemptId) == {id}
    ensures id in s.invocations && id in s.results
    ensures s.invocations[id].identity.attemptId == attemptId && s.results[id].attemptId == attemptId
    ensures forall k | k in s.invocations && s.invocations[k].identity.attemptId == attemptId :: k == id
    ensures forall k | k in s.results && s.results[k].attemptId == attemptId :: k == id
  {
    assert id in InvocationsOf(s, attemptId) && id in ResultsOf(s, attemptId);
    forall k | k in s.invocations && s.invocations[k].identity.attemptId == attemptId
      ensures k == id
    {
      assert k in InvocationsOf(s, attemptId);
    }
    forall k | k in s.results && s.results[k].attemptId == attemptId
      ensures k == id
    {
      assert k in ResultsOf(s, attemptId);
    }
  }
}
