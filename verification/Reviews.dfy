/** A dispatch that returned leaves a candidate that can be reviewed, and no
    later command takes that away; the one condition is the size of its result. */
module Reviews {
  import opened Outcomes
  import opened Records
  import opened Stores
  import opened Acceptance
  import opened Commands
  import opened Protocol
  import opened Histories
  import opened Encoding
  import opened ResultKeys
  import Canonical
  import CanonicalProofs

  // ----- review_candidate

  /** `parse_result` on the canonical text of a stored result. */
  function ParseResult(r: ResultRecord, i: InvocationIdentity): (x: Result<ResultRecord>) {
    if !ResultFits(r) || !CanonicalProofs.Gate(ResultText(r)) || !ValidResult(r) then Err("INTEGRATION_RESULT_INVALID")
    else if !BindsInvocation(r, i) then Err("INTEGRATION_IDENTITY_INVALID")
    else Ok(r)
  }

  function InvocationsOf(s: Stores, attemptId: Id): set<Id> {
    set k | k in s.invocations && s.invocations[k].identity.attemptId == attemptId
  }

  function ResultsOf(s: Stores, attemptId: Id): set<Id> {
    set k | k in s.results && s.results[k].attemptId == attemptId
  }

  function CustodyOf(s: Stores, invocations: set<Id>): set<Id> {
    set k | k in s.custody && s.custody[k].invocationId in invocations
  }

  predicate ShareIdentity(a: Attempt, i: Invocation, r: ResultRecord, c: Custody) {
    && i.state == Completed
    && i.resultDigest == Some(OfResult(r))
    && a.candidateDigest == Some(OfResult(r))
    && a.runtimeIdentity == Some(OfIdentity(i.identity))
    && c.invocationId == i.identity.invocationId
    && c.invocationDigest == OfIdentity(i.identity)
    && c.state == AbsenceVerified
    && r.processIdentity == Some(OfCustody(c))
  }

  function CheckCandidate(s: Stores, a: Attempt, i: Invocation, r: ResultRecord, c: Custody): (x: Result<Digest>) {
    if !ShareIdentity(a, i, r, c) then Err("SERVICE_CANDIDATE_IDENTITY_INVALID")
    else if ParseResult(r, i.identity).Err? then Err("SERVICE_CANDIDATE_IDENTITY_INVALID")
    else CheckContent(s, r)
  }

  /** The retained content agrees with the result. */
  function CheckContent(s: Stores, r: ResultRecord): (x: Result<Digest>) {
    if r.contentReference.None? then Err("SERVICE_CANDIDATE_CONTENT_MISSING")
    else if r.contentReference.value !in s.contents then Err("STORAGE_RECORD_MISSING")
    else
      var content := s.contents[r.contentReference.value];
      if !ContentMatches(r, content) then Err("SERVICE_CANDIDATE_CONTENT_INVALID")
      else Ok(ReviewedDigest(content))
  }

  /** What review reports: the digest of a proposal, or the candidate digest
      that a code task's manifest took over from the framework. */
  function ReviewedDigest(c: Content): Digest {
    if c.CandidateManifest? then c.frameworkCandidate else OfContent(c)
  }

  ghost function ReviewTimeline(
    s: Stores, a: Attempt, invocations: set<Id>, results: set<Id>, custody: set<Id>): (r: Result<Digest>)
    requires invocations <= s.invocations.Keys && results <= s.results.Keys && custody <= s.custody.Keys
  {
    if exists k :: k in results && s.results[k].invocationId !in invocations then
      Err("SERVICE_TIMELINE_IDENTITY_INVALID")
    else if a.candidateDigest.None? then Err("SERVICE_CANDIDATE_MISSING")
    else if |invocations| != 1 || |results| != 1 || |custody| != 1 then Err("SERVICE_CANDIDATE_IDENTITY_INVALID")
    else CheckCandidate(s, a, s.invocations[Only(invocations)], s.results[Only(results)], s.custody[Only(custody)])
  }

  /** The digest reported for the accepted candidate, or why there is none. */
  ghost function ReviewCandidate(s: Stores, attemptId: Id): (r: Result<Digest>) {
    if attemptId !in s.attempts then Err("STORAGE_RECORD_MISSING")
    else if attemptId in s.receipts && s.receipts[attemptId].attemptId != attemptId then
      Err("SERVICE_TIMELINE_IDENTITY_INVALID")
    else
      var invocations := InvocationsOf(s, attemptId);
      ReviewTimeline(
        s, s.attempts[attemptId], invocations, ResultsOf(s, attemptId), CustodyOf(s, invocations))
  }

  /** The one member of a singleton. */
  ghost function Only(ids: set<Id>): (id: Id)
    requires |ids| == 1
    ensures ids == {id}
  {
    var x :| x in ids;
    assert |ids - {x}| == 0;
    x
  }

  // ----- sealed candidates

  /** Attempt, invocation and result of a finished dispatch. */
  ghost predicate Sealed(s: Stores, i: InvocationIdentity, r: ResultRecord) {
    && i.invocationId in s.invocations
    && s.invocations[i.invocationId].identity == i
    && s.invocations[i.invocationId].state == Completed
    && i.invocationId in s.results
    && s.results[i.invocationId] == r
    && i.attemptId in s.attempts
    && s.attempts[i.attemptId].state !in {Draft, Ready, Running}
    && s.attempts[i.attemptId].candidateDigest == Some(OfResult(r))
  }

  lemma SealedStays(s: Stores, w: Write, i: InvocationIdentity, r: ResultRecord)
    requires Legal(s, w) && Sealed(s, i, r)
    ensures Sealed(Apply(s, w), i, r)
  {
  }

  lemma {:induction false} SealedPrefix(s: Stores, ws: seq<Write>, n: nat, i: InvocationIdentity, r: ResultRecord)
    requires LegalRun(s, ws) && n <= |ws| && Sealed(s, i, r)
    ensures Sealed(ApplyAll(s, ws[..n]), i, r)
    decreases n
  {
    if n > 0 {
      SealedStays(s, ws[0], i, r);
      assert ws[..n][1..] == ws[1..][..n - 1];
      SealedPrefix(Apply(s, ws[0]), ws[1..], n - 1, i, r);
    }
  }

  lemma SealedEpisode(s: Stores, e: Episode, i: InvocationIdentity, r: ResultRecord)
    requires Inv(s) && Sealed(s, i, r)
    ensures Sealed(AfterEpisode(s, e), i, r)
  {
    ExecuteIsLegal(s, e.command);
    SealedCut(s, Execute(s, e.command).writes, e.writes, i, r);
  }

  lemma SealedCut(s: Stores, ws: seq<Write>, n: nat, i: InvocationIdentity, r: ResultRecord)
    requires LegalRun(s, ws) && Sealed(s, i, r)
    ensures Sealed(ApplyAll(s, Cut(ws, n)), i, r)
  {
    SealedPrefix(s, ws, if n <= |ws| then n else |ws|, i, r);
    assert ws[..|ws|] == ws;
  }

  lemma {:induction false} SealedForever(s: Stores, es: seq<Episode>, i: InvocationIdentity, r: ResultRecord)
    requires Inv(s) && Sealed(s, i, r)
    ensures Inv(History(s, es)) && Sealed(History(s, es), i, r)
    decreases es
  {
    if es != [] {
      SealedEpisode(s, es[0], i, r);
      EpisodeKeepsInvariant(s, es[0]);
      SealedForever(AfterEpisode(s, es[0]), es[1..], i, r);
    }
  }

  // ----- a sealed candidate is accepted when its result fits

  lemma OneInvocationOf(s: Stores, i: InvocationIdentity)
    requires OneInvocationEach(s)
    requires i.invocationId in s.invocations && s.invocations[i.invocationId].identity == i
    ensures InvocationsOf(s, i.attemptId) == {i.invocationId}
  {
  }

  /** Every result belongs to the attempt of its invocation. */
  ghost predicate ResultsBelong(s: Stores) {
    forall k | k in s.results ::
      k in s.invocations && s.results[k].attemptId == s.invocations[k].identity.attemptId
  }

  lemma SoundResultBelongs(s: Stores, r: ResultRecord)
    requires ResultIsSound(s, r)
    ensures r.invocationId in s.invocations && r.attemptId == s.invocations[r.invocationId].identity.attemptId
  {
  }

  lemma SoundResultsBelong(s: Stores)
    requires ResultsKeyed(s) && ResultsSound(s)
    ensures ResultsBelong(s)
  {
    forall k | k in s.results
      ensures k in s.invocations && s.results[k].attemptId == s.invocations[k].identity.attemptId
    {
      SoundResultBelongs(s, s.results[k]);
    }
  }

  lemma OneResultOf(s: Stores, i: InvocationIdentity)
    requires OneInvocationEach(s) && ResultsBelong(s)
    requires i.invocationId in s.invocations && s.invocations[i.invocationId].identity == i && i.invocationId in s.results
    ensures ResultsOf(s, i.attemptId) == {i.invocationId}
  {
  }

  lemma OneCustodyOf(s: Stores, i: InvocationIdentity, r: ResultRecord)
    requires CustodyKeyed(s) && ResultsSound(s) && ResultsKeyed(s) && Sealed(s, i, r)
    ensures CustodyOf(s, {i.invocationId}) == {i.invocationId}
  {
    assert ResultIsSound(s, r);
  }

  lemma GatePassesResults(r: ResultRecord)
    ensures CanonicalProofs.Gate(ResultText(r))
  {
    ResultIsWellFormed(r);
    CanonicalProofs.OneTextPerValue(ResultJson(r), ResultText(r));
  }

  lemma SealedShares(s: Stores, i: InvocationIdentity, r: ResultRecord)
    requires Inv(s) && Sealed(s, i, r)
    ensures i.invocationId in s.custody
    ensures ShareIdentity(s.attempts[i.attemptId], s.invocations[i.invocationId], r, s.custody[i.invocationId])
    ensures ResultIsSound(s, r)
  {
    assert ResultIsSound(s, r);
    assert DispatchedIsBound(s, s.invocations[i.invocationId]);
    assert CompletedHasResult(s, s.invocations[i.invocationId]);
  }

  lemma OnlyOf(id: Id)
    ensures Only({id}) == id
  {
    assert Only({id}) in {id};
  }

  lemma TimelineOfOne(s: Stores, a: Attempt, id: Id)
    requires id in s.invocations && id in s.results && id in s.custody
    requires s.results[id].invocationId == id && a.candidateDigest.Some?
    ensures ReviewTimeline(s, a, {id}, {id}, {id}) ==
            CheckCandidate(s, a, s.invocations[id], s.results[id], s.custody[id])
  {
    OnlyOf(id);
  }

  /** The content that a result refers to has this digest for review. */
  predicate Reports(r: ResultRecord, d: Digest) {
    && r.contentReference.Some? && r.contentReference.value.digest.OfContent?
    && ReviewedDigest(r.contentReference.value.digest.content) == d
  }

  /** A sealed candidate is accepted exactly when its result is within the size
      limit, and then review reports on the content that the result refers to. */
  lemma SealedIsReviewable(s: Stores, i: InvocationIdentity, r: ResultRecord)
    requires Inv(s) && Sealed(s, i, r)
    ensures r.contentReference.Some? && r.contentReference.value.digest.OfContent?
    ensures ReviewCandidate(s, i.attemptId) ==
            if ResultFits(r) then Ok(ReviewedDigest(r.contentReference.value.digest.content))
            else Err("SERVICE_CANDIDATE_IDENTITY_INVALID")
  {
    SealedShares(s, i, r);
    SealedStandsAlone(s, i, r);
    TimelineOfOne(s, s.attempts[i.attemptId], i.invocationId);
    CheckOfSealed(s, s.attempts[i.attemptId], s.invocations[i.invocationId], r, s.custody[i.invocationId]);
  }

  lemma SealedStandsAlone(s: Stores, i: InvocationIdentity, r: ResultRecord)
    requires Inv(s) && Sealed(s, i, r)
    ensures InvocationsOf(s, i.attemptId) == {i.invocationId}
    ensures ResultsOf(s, i.attemptId) == {i.invocationId}
    ensures CustodyOf(s, {i.invocationId}) == {i.invocationId}
    ensures s.results[i.invocationId].invocationId == i.invocationId
    ensures i.attemptId in s.receipts ==> s.receipts[i.attemptId].attemptId == i.attemptId
  {
    OneInvocationOf(s, i);
    SoundResultsBelong(s);
    OneResultOf(s, i);
    OneCustodyOf(s, i, r);
  }

  lemma ParseOfSound(r: ResultRecord, i: InvocationIdentity)
    requires ValidResult(r) && BindsInvocation(r, i)
    ensures ParseResult(r, i).Ok? <==> ResultFits(r)
  {
    GatePassesResults(r);
  }

  lemma ContentOfSound(s: Stores, r: ResultRecord)
    requires FilesKeyed(s) && r.contentReference.Some? && r.contentReference.value in s.contents
    requires ContentMatches(r, s.contents[r.contentReference.value])
    ensures r.contentReference.value.digest.OfContent?
    ensures CheckContent(s, r) == Ok(ReviewedDigest(r.contentReference.value.digest.content))
  {
  }

  lemma CheckOfSealed(s: Stores, a: Attempt, i: Invocation, r: ResultRecord, c: Custody)
    requires ShareIdentity(a, i, r, c) && FilesKeyed(s)
    requires ValidResult(r) && BindsInvocation(r, i.identity)
    requires r.contentReference.Some? && r.contentReference.value in s.contents
    requires ContentMatches(r, s.contents[r.contentReference.value])
    ensures r.contentReference.value.digest.OfContent?
    ensures CheckCandidate(s, a, i, r, c) ==
            if ResultFits(r) then Ok(ReviewedDigest(r.contentReference.value.digest.content))
            else Err("SERVICE_CANDIDATE_IDENTITY_INVALID")
  {
    ParseOfSound(r, i.identity);
    ContentOfSound(s, r);
  }

  // ----- a result is well-formed JSON

  /** These are well-formed fields under these names. */
  ghost predicate Stand(fs: seq<Canonical.Field>, names: seq<string>) {
    && |fs| == |names|
    && (forall k | 0 <= k < |names| :: fs[k].key == names[k] && Canonical.WellFormed(fs[k].value))
  }

  lemma StandTogether(a: seq<Canonical.Field>, aNames: seq<string>, b: seq<Canonical.Field>, bNames: seq<string>)
    requires Stand(a, aNames) && Stand(b, bNames)
    ensures Stand(a + b, aNames + bNames)
  {
  }

  lemma StandingObject(fs: seq<Canonical.Field>, names: seq<string>)
    requires Stand(fs, names) && Distinct(names)
    ensures Canonical.WellFormed(Canonical.Object(fs))
  {
  }

  lemma TaskFieldsStand(r: ResultRecord)
    ensures Stand(TaskFields(r), TASK_KEYS)
  {
  }

  lemma EvidenceFieldsStand(r: ResultRecord)
    ensures Stand(EvidenceFields(r), EVIDENCE_KEYS)
  {
    StagesAreWellFormed(r.stages);
  }

  lemma StageIsWellFormed(t: Stage)
    ensures Canonical.WellFormed(StageJson(t))
  {
  }

  lemma StagesAreWellFormed(stages: seq<Stage>)
    ensures Canonical.WellFormed(StagesJson(stages))
  {
    forall k | 0 <= k < |stages|
      ensures Canonical.WellFormed(StageJson(stages[k]))
    {
      StageIsWellFormed(stages[k]);
    }
  }

  lemma DigestFieldsStand(names: seq<string>)
    ensures Stand(DigestFields(names), names)
  {
  }

  lemma PathsStand(changedPaths: seq<string>)
    ensures Stand([Canonical.Field("changed_paths", Texts(changedPaths))], PATH_KEYS)
  {
  }

  lemma ResultIsWellFormed(r: ResultRecord)
    ensures Canonical.WellFormed(ResultJson(r))
  {
    var paths := [Canonical.Field("changed_paths", Texts(r.changedPaths))];
    PathsStand(r.changedPaths);
    DigestFieldsStand(SHARED_DIGESTS);
    DigestFieldsStand(RESULT_DIGESTS);
    TaskFieldsStand(r);
    EvidenceFieldsStand(r);
    AllStand(
      paths, PATH_KEYS, DigestFields(SHARED_DIGESTS), SHARED_DIGESTS, DigestFields(RESULT_DIGESTS), RESULT_DIGESTS,
      TaskFields(r), TASK_KEYS, EvidenceFields(r), EVIDENCE_KEYS);
    KeysDiffer();
    StandingObject(ResultJson(r).fields, FIRST_KEYS + (TASK_KEYS + EVIDENCE_KEYS));
  }

  lemma AllStand(
    a: seq<Canonical.Field>, aNames: seq<string>, b: seq<Canonical.Field>, bNames: seq<string>,
    c: seq<Canonical.Field>, cNames: seq<string>, d: seq<Canonical.Field>, dNames: seq<string>,
    e: seq<Canonical.Field>, eNames: seq<string>)
    requires Stand(a, aNames) && Stand(b, bNames) && Stand(c, cNames) && Stand(d, dNames) && Stand(e, eNames)
    ensures Stand(a + b + (c + (d + e)), aNames + bNames + cNames + (dNames + eNames))
  {
    StandTogether(a, aNames, b, bNames);
    StandTogether(a + b, aNames + bNames, c, cNames);
    StandTogether(d, dNames, e, eNames);
    StandTogether(a + b + c, aNames + bNames + cNames, d + e, dNames + eNames);
    assert a + b + (c + (d + e)) == a + b + c + (d + e);
  }
}
