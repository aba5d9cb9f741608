/** Complete runs from an empty directory: create an attempt, prepare its
    workspace and its invocation, authorize it, and dispatch it. */
module WholeRuns {
  import opened Outcomes
  import opened Records
  import opened Lifecycle
  import opened Stores
  import opened Moves
  import opened Acceptance
  import opened AcceptanceFacts
  import opened Commands
  import opened Histories
  import opened Encoding
  import opened Reviews
  import opened DispatchReview
  import opened GoodDispatch
  import opened DispatchFacts

  /** What an operator and the definitions provide for one run. */
  datatype Setup = Setup(a: Attempt, view: WorkspaceView, inputs: InvocationInputs, controller: string, now: int)

  /** A clean first attempt, a workspace that verifies, matching definitions. */
  predicate Sound(y: Setup) {
    && CleanAttempt(y.a, Draft) && ValidAttempt(y.a) && y.a.priorAttemptId.None?
    && y.a.updatedAt <= y.now
    && y.view.verified && y.inputs.definitionsMatch && ValidPrompt(y.inputs.prompt)
    && (y.a.authority.sandbox == WorkspaceWriteSandbox ==> y.inputs.writablePaths != [])
  }

  function ReadyOf(y: Setup): Attempt {
    y.a.(state := Ready, updatedAt := y.now)
  }

  function ReceiptOf(y: Setup): Receipt {
    Receipt(
      y.a.attemptId, y.a.authority.exerciseId, y.a.authority.exerciseVersion, y.view.templateRepository,
      y.a.authority.startingCommit, y.view.rootDigest, y.view.pathDigest, y.a.attemptId, y.now, PreparedReceipt)
  }

  function InvocationOf(y: Setup): Invocation {
    Invocation(NewIdentity(ReadyOf(y), ReceiptOf(y), y.inputs), None, None, Prepared, None)
  }

  function Created(y: Setup): Stores {
    EMPTY.(attempts := map[y.a.attemptId := y.a])
  }

  function ReadyStores(y: Setup): Stores {
    EMPTY.(attempts := map[y.a.attemptId := ReadyOf(y)], receipts := map[y.a.attemptId := ReceiptOf(y)])
  }

  function WithInvocation(y: Setup, i: Invocation): Stores {
    ReadyStores(y).(
      invocations := map[y.inputs.invocationId := i],
      contents := map[PromptFile(OfContent(Prompt(y.inputs.prompt))) := Prompt(y.inputs.prompt)])
  }

  function FirstCommands(y: Setup): seq<Episode> {
    [ Episode(CreateAttemptCommand(y.a), 1),
      Episode(PrepareWorkspaceCommand(y.a.attemptId, y.view, true, y.now), 2) ]
  }

  function NextCommands(y: Setup): seq<Episode> {
    [ Episode(PrepareInvocationCommand(y.a.attemptId, y.view, y.inputs), 2),
      Episode(AuthorizeCommand(y.inputs.invocationId, OfIdentity(InvocationOf(y).identity), y.controller, y.now), 1) ]
  }

  lemma OneWrite(s: Stores, e: Episode, w: Write)
    requires Execute(s, e.command).writes == [w] && e.writes == 1
    ensures AfterEpisode(s, e) == Apply(s, w)
  {
    assert Cut([w], 1) == [w] && [w][1..] == [];
    assert ApplyAll(s, [w]) == ApplyAll(Apply(s, w), []);
  }

  lemma CreateRuns(y: Setup)
    requires Sound(y)
    ensures AfterEpisode(EMPTY, FirstCommands(y)[0]) == Created(y)
  {
    assert Execute(EMPTY, CreateAttemptCommand(y.a)).writes == [PutAttempt(y.a)];
    OneWrite(EMPTY, FirstCommands(y)[0], PutAttempt(y.a));
    assert Apply(EMPTY, PutAttempt(y.a)).attempts == map[y.a.attemptId := y.a];
  }

  lemma PrepareRuns(y: Setup)
    requires Sound(y)
    ensures AfterEpisode(Created(y), FirstCommands(y)[1]) == ReadyStores(y)
  {
    var s := Created(y);
    AttemptSavesAreMoves(s.attempts, ReadyOf(y));
    var ws := [PutReceipt(ReceiptOf(y)), PutAttempt(ReadyOf(y))];
    assert Execute(s, FirstCommands(y)[1].command).writes == ws;
    assert Cut(ws, 2) == ws && ws[1..] == [ws[1]] && ws[1..][1..] == [];
    var t := Apply(s, ws[0]);
    assert ApplyAll(s, ws) == ApplyAll(t, [ws[1]]) == Apply(t, ws[1]);
    assert t.receipts == map[y.a.attemptId := ReceiptOf(y)];
    assert Apply(t, ws[1]).attempts == map[y.a.attemptId := ReadyOf(y)];
  }

  lemma InvocationRuns(y: Setup)
    requires Sound(y)
    ensures AfterEpisode(ReadyStores(y), NextCommands(y)[0]) == WithInvocation(y, InvocationOf(y))
    ensures PrepareInvocationEffect(ReadyStores(y), y.a.attemptId, y.view, y.inputs).outcome.Ok?
  {
    var s, prompt := ReadyStores(y), Prompt(y.inputs.prompt);
    assert VerifyWorkspace(s, y.a.attemptId, y.view) == Ok(ReceiptOf(y));
    assert ValidInvocation(InvocationOf(y));
    assert PrepareInvocationEffect(s, y.a.attemptId, y.view, y.inputs) == StorePrompt(s, InvocationOf(y), prompt);
    var ws := PromptWrites(s, prompt) + [PutInvocation(InvocationOf(y))];
    assert Execute(s, NextCommands(y)[0].command).writes == ws;
    assert Cut(ws, 2) == ws;
    PreparationLeaves(s, InvocationOf(y), prompt);
    assert WithPrepared(s, InvocationOf(y), prompt) == WithInvocation(y, InvocationOf(y));
  }

  lemma AuthorizeRuns(y: Setup)
    requires Sound(y)
    ensures AfterEpisode(WithInvocation(y, InvocationOf(y)), NextCommands(y)[1]) ==
            WithInvocation(y, AuthorizedBy(InvocationOf(y), y.controller, y.now))
  {
    var s := WithInvocation(y, InvocationOf(y));
    var j := AuthorizedBy(InvocationOf(y), y.controller, y.now);
    InvocationSavesAreMoves(s.invocations, j, OfInvocation(InvocationOf(y)));
    assert Execute(s, NextCommands(y)[1].command).writes == [PutInvocation(j)];
    OneWrite(s, NextCommands(y)[1], PutInvocation(j));
    assert Apply(s, PutInvocation(j)).invocations == map[y.inputs.invocationId := j];
  }

  lemma TwoEpisodes(s: Stores, t: Stores, u: Stores, es: seq<Episode>)
    requires |es| == 2 && AfterEpisode(s, es[0]) == t && AfterEpisode(t, es[1]) == u
    ensures History(s, es) == u
  {
    assert es[1..][1..] == [];
    assert History(t, es[1..]) == History(u, es[1..][1..]);
  }

  lemma {:induction false} HistoryTwice(s: Stores, es: seq<Episode>, more: seq<Episode>)
    ensures History(s, es + more) == History(History(s, es), more)
    decreases es
  {
    if es == [] {
      assert es + more == more;
    } else {
      assert (es + more)[1..] == es[1..] + more;
      HistoryTwice(AfterEpisode(s, es[0]), es[1..], more);
    }
  }

  /** The four commands lead from an empty directory to an authorized invocation. */
  lemma FourCommandsAuthorize(y: Setup)
    requires Sound(y)
    ensures History(EMPTY, FirstCommands(y) + NextCommands(y)) ==
            WithInvocation(y, AuthorizedBy(InvocationOf(y), y.controller, y.now))
  {
    CreateRuns(y);
    PrepareRuns(y);
    TwoEpisodes(EMPTY, Created(y), ReadyStores(y), FirstCommands(y));
    InvocationRuns(y);
    AuthorizeRuns(y);
    TwoEpisodes(
      ReadyStores(y), WithInvocation(y, InvocationOf(y)),
      WithInvocation(y, AuthorizedBy(InvocationOf(y), y.controller, y.now)), NextCommands(y));
    HistoryTwice(EMPTY, FirstCommands(y), NextCommands(y));
  }

  /** The authorized directory passes everything that dispatch checks. */
  lemma AuthorizedStarts(y: Setup, w: DispatchWorld)
    requires Sound(y) && w.view == y.view && w.definitionsMatch && y.now <= w.boundAt
    ensures var j := AuthorizedBy(InvocationOf(y), y.controller, y.now);
            Startable(WithInvocation(y, j), j, y.controller, w)
  {
  }

  /** After the four commands, a dispatch over clean custody calls and an
      acceptable response returns the candidate and leaves its records. */
  lemma WholeRunSucceeds(y: Setup, l: Launch, w: DispatchWorld)
    requires Sound(y)
    requires w.view == y.view && w.definitionsMatch
    requires w.calls == GoodCalls(InvocationOf(y).identity, l) && w.adapter.Returned?
    requires y.now <= w.boundAt <= w.candidateAt
    requires Acceptable(w.adapter.response, InvocationOf(y).identity, VerifiedOf(InvocationOf(y).identity, l), w.observed)
    ensures var s := History(EMPTY, FirstCommands(y) + NextCommands(y));
            var i, id := InvocationOf(y).identity, y.inputs.invocationId;
            var e := DispatchEffect(s, id, OfIdentity(i), y.controller, w);
            && e.outcome.Ok? && id in s.invocations && s.invocations[id].identity == i && i.attemptId in s.attempts
            && Concludes(s, id, w, map[id := VerifiedOf(i, l)], e.outcome, After(s, e))
  {
    FourCommandsAuthorize(y);
    InvariantOverAllHistories(FirstCommands(y) + NextCommands(y));
    AuthorizedStarts(y, w);
    var j := AuthorizedBy(InvocationOf(y), y.controller, y.now);
    var u, id := WithInvocation(y, j), y.inputs.invocationId;
    GoodDispatchSucceeds(u, id, y.controller, w, l);
    assert u.custody[id := VerifiedOf(j.identity, l)] == map[id := VerifiedOf(j.identity, l)];
  }

  const DOCUMENT := OfDocument("protected")

  /** The same first attempt, workspace and operator for both kinds of run. */
  function PlainSetup(commit: string, sandbox: Sandbox, paths: seq<string>): Setup {
    var d := DOCUMENT;
    var authority := Authority("exercise", 1, "policy", 1, d, "role", 1, d, d, d, "catalog", d, commit, sandbox);
    var a := Attempt("attempt", "curriculum", authority, 1, None, Draft, 1, None, None, None);
    var inputs := InvocationInputs("invocation", d, "context", 1, d, ["T001"], d, d, [], paths, [65], true);
    Setup(a, WorkspaceView(d, d, "template", true), inputs, "operator", 2)
  }

  function PlainWorld(y: Setup, response: Response, o: Observations): DispatchWorld {
    DispatchWorld(true, y.view, 3, GoodCalls(InvocationOf(y).identity, PLAIN_LAUNCH), Returned(response), o, 7)
  }

  const PLAIN_LAUNCH := Launch(1, 1, 2, 2, DOCUMENT, 5)

  /** A code task that changes exactly these paths, from the empty directory to
      its candidate. */
  lemma CodeTaskRuns(paths: seq<string>, commit: string) returns (y: Setup, w: DispatchWorld)
    requires paths != []
    ensures Sound(y) && y.a.authority.sandbox == WorkspaceWriteSandbox
    ensures y.inputs.writablePaths == paths && y.a.authority.startingCommit == commit
    ensures DispatchEffect(
              History(EMPTY, FirstCommands(y) + NextCommands(y)), y.inputs.invocationId,
              OfIdentity(InvocationOf(y).identity), y.controller, w).outcome.Ok?
  {
    y := PlainSetup(commit, WorkspaceWriteSandbox, paths);
    var d, i := DOCUMENT, InvocationOf(y).identity;
    var response := WorkspaceWriteResponse(OfIdentity(i), i.promptDigest, d, d, d, d, paths);
    var seen := WorkspaceEvidence(commit, paths, d, d, d, d);
    w := PlainWorld(y, response, Observations(d, 4, 6, true, Ok(paths), Ok(seen), Ok(PassingStages(["T001"]))));
    assert TaskInScope(response, i, VerifiedOf(i, PLAIN_LAUNCH), w.observed);
    WholeRunSucceeds(y, PLAIN_LAUNCH, w);
  }

  /** A read-only proposal of any text within the bounds, from the empty
      directory to its candidate: the text is retained under its digest and the
      stored result names it. */
  lemma ProposalRuns(text: Bytes, commit: string) returns (y: Setup, w: DispatchWorld)
    requires 1 <= |text| <= 32_768 && forall b | b in text :: b != 0
    ensures Sound(y) && y.a.authority.sandbox == ReadOnlySandbox && y.a.authority.startingCommit == commit
    ensures w.adapter.Returned? && w.adapter.response.ReadOnlyResponse? && w.adapter.response.proposalContent == text
    ensures var id := y.inputs.invocationId;
            var s := History(EMPTY, FirstCommands(y) + NextCommands(y));
            var e := DispatchEffect(s, id, OfIdentity(InvocationOf(y).identity), y.controller, w);
            var t, file := After(s, e), ProposalFile(OfContent(Proposal(text)));
            && e.outcome.Ok? && id in t.results
            && t.results[id].contentReference == Some(file) && t.results[id].changedPaths == []
            && file in t.contents && t.contents[file] == Proposal(text)
  {
    y := PlainSetup(commit, ReadOnlySandbox, []);
    var d, i := DOCUMENT, InvocationOf(y).identity;
    var digest := OfContent(Proposal(text));
    var response := ReadOnlyResponse(OfIdentity(i), i.promptDigest, d, digest, digest, text, |text|, 0);
    var seen := WorkspaceEvidence(commit, [], i.workspaceReceiptDigest, d, d, d);
    w := PlainWorld(y, response, Observations(d, 4, 6, true, Ok([]), Ok(seen), Ok(PassingStages(["T001"]))));
    assert TruthfulProposal(response, i, VerifiedOf(i, PLAIN_LAUNCH), w.observed);
    WholeRunSucceeds(y, PLAIN_LAUNCH, w);
    ProposalIsRetained(y, w, text, VerifiedOf(i, PLAIN_LAUNCH));
  }

  lemma ProposalIsRetained(y: Setup, w: DispatchWorld, text: Bytes, c: Custody)
    requires Sound(y) && y.a.authority.sandbox == ReadOnlySandbox
    requires w.adapter.Returned? && w.adapter.response.ReadOnlyResponse? && w.adapter.response.proposalContent == text
    requires var s := History(EMPTY, FirstCommands(y) + NextCommands(y));
             var i, id := InvocationOf(y).identity, y.inputs.invocationId;
             var e := DispatchEffect(s, id, OfIdentity(i), y.controller, w);
             && id in s.invocations && s.invocations[id].identity == i && i.attemptId in s.attempts
             && Acceptable(w.adapter.response, i, c, w.observed) && Concludes(s, id, w, map[id := c], e.outcome, After(s, e))
    ensures var id := y.inputs.invocationId;
            var s := History(EMPTY, FirstCommands(y) + NextCommands(y));
            var e := DispatchEffect(s, id, OfIdentity(InvocationOf(y).identity), y.controller, w);
            var t, file := After(s, e), ProposalFile(OfContent(Proposal(text)));
            && id in t.results
            && t.results[id].contentReference == Some(file) && t.results[id].changedPaths == []
            && file in t.contents && t.contents[file] == Proposal(text)
  {
    FourCommandsAuthorize(y);
  }

  /** A whole run that ends in a good dispatch and cannot be reviewed: a code
      task on about a thousand files that fill the adapter's response. */
  lemma ReviewCanRefuse() returns (y: Setup, w: DispatchWorld)
    ensures Sound(y) && y.a.authority.startingCommit == COMMIT
    ensures OrdinaryPaths(y.inputs.writablePaths) && |y.inputs.writablePaths| <= 1024
    ensures var id := y.inputs.invocationId;
            var s := History(EMPTY, FirstCommands(y) + NextCommands(y));
            var e := DispatchEffect(s, id, OfIdentity(InvocationOf(y).identity), y.controller, w);
            && e.outcome.Ok? && id in s.invocations
            && ReviewCandidate(ApplyAll(s, e.writes), s.invocations[id].identity.attemptId).Err?
  {
    FillingPathsAreOrdinary();
    y, w := CodeTaskRuns(FillingPaths(), COMMIT);
    RefusedAfterRun(y, w);
  }

  lemma RefusedAfterRun(y: Setup, w: DispatchWorld)
    requires Sound(y) && y.a.authority.sandbox == WorkspaceWriteSandbox && y.inputs.writablePaths == FillingPaths()
    requires var s := History(EMPTY, FirstCommands(y) + NextCommands(y));
             DispatchEffect(s, y.inputs.invocationId, OfIdentity(InvocationOf(y).identity), y.controller, w).outcome.Ok?
    ensures var s := History(EMPTY, FirstCommands(y) + NextCommands(y));
            var e := DispatchEffect(s, y.inputs.invocationId, OfIdentity(InvocationOf(y).identity), y.controller, w);
            && y.inputs.invocationId in s.invocations
            && ReviewCandidate(ApplyAll(s, e.writes), s.invocations[y.inputs.invocationId].identity.attemptId).Err?
  {
    FourCommandsAuthorize(y);
    InvariantOverAllHistories(FirstCommands(y) + NextCommands(y));
    FilledResponseIsNotReviewable(
      History(EMPTY, FirstCommands(y) + NextCommands(y)), y.inputs.invocationId,
      OfIdentity(InvocationOf(y).identity), y.controller, w);
  }
}
