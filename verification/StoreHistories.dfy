/** What any run of guarded store calls does to one record.

    The successive versions of a record form a chain of moves; everything the
    stores promise about identity, time and terminal records is a fact about
    such chains. */
module StoreHistories {
  import opened Outcomes
  import opened Records
  import opened Lifecycle
  import opened Stores
  import opened Moves

  // ----- attempts

  datatype AttemptCall = CreateA(attempt: Attempt) | SaveA(attempt: Attempt)

  function CallAttempts(m: map<Id, Attempt>, c: AttemptCall): (r: Result<map<Id, Attempt>>) {
    match c
    case CreateA(a) => CreateAttempt(m, a)
    case SaveA(a) => SaveAttempt(m, a)
  }

  function AttemptsAfter(m: map<Id, Attempt>, cs: seq<AttemptCall>): map<Id, Attempt>
    decreases cs
  {
    if cs == [] then m
    else
      var r := CallAttempts(m, cs[0]);
      AttemptsAfter(if r.Ok? then r.value else m, cs[1..])
  }

  function Current<T>(m: map<Id, T>, id: Id): seq<T> {
    if id in m then [m[id]] else []
  }

  /** Every version of one attempt, from the first to the last. */
  function AttemptVersions(m: map<Id, Attempt>, cs: seq<AttemptCall>, id: Id): seq<Attempt>
    decreases cs
  {
    if cs == [] then Current(m, id)
    else
      var r := CallAttempts(m, cs[0]);
      if r.Err? then AttemptVersions(m, cs[1..], id)
      else if cs[0].attempt.attemptId != id then AttemptVersions(r.value, cs[1..], id)
      else Current(m, id) + AttemptVersions(r.value, cs[1..], id)
  }

  ghost predicate AttemptChain(vs: seq<Attempt>) {
    forall k | 0 < k < |vs| :: AttemptMoves(vs[k - 1], vs[k])
  }

  lemma {:induction false} VersionsChain(m: map<Id, Attempt>, cs: seq<AttemptCall>, id: Id)
    ensures var vs := AttemptVersions(m, cs, id);
            && AttemptChain(vs)
            && (id in m ==> vs != [] && vs[0] == m[id])
            && (id !in m && vs != [] ==>
                  && vs[0].state == Draft && ValidAttempt(vs[0])
                  && vs[0].candidateDigest.None? && vs[0].cleanupOutcome.None?)
            && (id in AttemptsAfter(m, cs) <==> vs != [])
            && (vs != [] ==> AttemptsAfter(m, cs)[id] == vs[|vs| - 1])
    decreases cs
  {
    if cs != [] {
      var r := CallAttempts(m, cs[0]);
      VersionsChain(if r.Ok? then r.value else m, cs[1..], id);
      if r.Ok? {
        CallMoves(m, cs[0]);
      }
    }
  }

  /** An accepted call moves its own attempt, or makes a fresh draft of it. */
  lemma CallMoves(m: map<Id, Attempt>, c: AttemptCall)
    requires CallAttempts(m, c).Ok?
    ensures CallAttempts(m, c).value == m[c.attempt.attemptId := c.attempt]
    ensures if c.attempt.attemptId in m then AttemptMoves(m[c.attempt.attemptId], c.attempt)
            else
              && c.attempt.state == Draft && ValidAttempt(c.attempt)
              && c.attempt.candidateDigest.None? && c.attempt.cleanupOutcome.None?
  {
    AttemptSavesAreMoves(m, c.attempt);
  }

  /** What an earlier version `a` and a later version `b` always share. */
  ghost predicate AttemptEvolves(a: Attempt, b: Attempt) {
    && SameAttemptIdentity(a, b)
    && a.updatedAt <= b.updatedAt
    && AttemptRank(a.state) <= AttemptRank(b.state)
    && (AttemptRank(a.state) == AttemptRank(b.state) ==> a == b)
    && (a.runtimeIdentity.Some? ==> b.runtimeIdentity == a.runtimeIdentity)
  }

  /** Every legal move goes up in rank, so no state is entered twice. */
  function AttemptRank(s: AttemptState): nat {
    match s
    case Draft => 0
    case Ready => 1
    case Running => 2
    case Candidate => 3
    case Evaluating => 4
    case Passed => 5
    case Failed => 5
    case NeedsReview => 5
    case Closed => 6
    case Aborted => 6
  }

  lemma {:induction false} ChainsEvolve(vs: seq<Attempt>, j: nat, k: nat)
    requires AttemptChain(vs) && j <= k < |vs|
    ensures AttemptEvolves(vs[j], vs[k])
    ensures j < k ==> AttemptRank(vs[j].state) < AttemptRank(vs[k].state)
    decreases k - j
  {
    if j < k {
      ChainsEvolve(vs, j, k - 1);
      assert AttemptMoves(vs[k - 1], vs[k]);
    }
  }

  /** A record as the store creates it and keeps it: cleanup text exactly on
      terminal records, a candidate digest exactly from CANDIDATE on. */
  ghost predicate WellKept(a: Attempt) {
    && ValidAttempt(a)
    && (TerminalAttempt(a.state) <==> a.cleanupOutcome.Some?)
    && (a.cleanupOutcome.Some? ==> Given(a.cleanupOutcome))
    && (a.state in {Draft, Ready, Running} ==> a.candidateDigest.None?)
    && (a.state !in {Draft, Ready, Running, Aborted} ==> a.candidateDigest.Some?)
  }

  lemma {:induction false} ChainsAreWellKept(vs: seq<Attempt>, k: nat)
    requires AttemptChain(vs) && k < |vs| && WellKept(vs[0])
    ensures WellKept(vs[k])
  {
    if k > 0 {
      ChainsAreWellKept(vs, k - 1);
      assert AttemptMoves(vs[k - 1], vs[k]);
    }
  }

  /** The history of one attempt in any run of store calls that starts without
      it: identity fields never change, time never goes back, no state comes
      twice, the runtime identity is set exactly by READY to RUNNING, the
      candidate digest exactly by RUNNING to CANDIDATE, cleanup text is there
      exactly on terminal versions, and a terminal version is the last. */
  lemma AttemptHistory(m: map<Id, Attempt>, cs: seq<AttemptCall>, id: Id)
    requires id !in m
    ensures var vs := AttemptVersions(m, cs, id);
            && (forall j, k | 0 <= j < k < |vs| ::
                  && AttemptEvolves(vs[j], vs[k])
                  && vs[j].state != vs[k].state
                  && !TerminalAttempt(vs[j].state))
            && (forall k | 0 < k < |vs| ::
                  && (vs[k].runtimeIdentity != vs[k - 1].runtimeIdentity <==>
                        vs[k - 1].state == Ready && vs[k].state == Running)
                  && (vs[k].candidateDigest != vs[k - 1].candidateDigest <==>
                        vs[k - 1].state == Running && vs[k].state == Candidate))
            && (forall k | 0 <= k < |vs| :: WellKept(vs[k]))
  {
    var vs := AttemptVersions(m, cs, id);
    VersionsChain(m, cs, id);
    forall j, k | 0 <= j < k < |vs|
      ensures AttemptEvolves(vs[j], vs[k]) && vs[j].state != vs[k].state && !TerminalAttempt(vs[j].state)
    {
      ChainsEvolve(vs, j, k);
      assert AttemptMoves(vs[j], vs[j + 1]);
    }
    forall k | 0 <= k < |vs|
      ensures WellKept(vs[k])
    {
      ChainsAreWellKept(vs, k);
    }
    forall k | 0 < k < |vs|
      ensures vs[k].runtimeIdentity != vs[k - 1].runtimeIdentity <==> vs[k - 1].state == Ready && vs[k].state == Running
      ensures vs[k].candidateDigest != vs[k - 1].candidateDigest <==> vs[k - 1].state == Running && vs[k].state == Candidate
    {
      ChainsAreWellKept(vs, k - 1);
      OneMove(vs[k - 1], vs[k]);
    }
  }

  /** No step of the lifecycle is skipped: unless it was aborted, an attempt's
      version number is the rank of its state. */
  lemma {:induction false} AttemptsSkipNoStep(m: map<Id, Attempt>, cs: seq<AttemptCall>, id: Id, k: nat)
    requires id !in m && k < |AttemptVersions(m, cs, id)|
    ensures var vs := AttemptVersions(m, cs, id);
            && (vs[k].state != Aborted ==> AttemptRank(vs[k].state) == k)
            && (vs[k].state == Aborted ==> k > 0 && AttemptRank(vs[k - 1].state) == k - 1 <= 4)
  {
    var vs := AttemptVersions(m, cs, id);
    VersionsChain(m, cs, id);
    if k > 0 {
      AttemptsSkipNoStep(m, cs, id, k - 1);
      assert AttemptMoves(vs[k - 1], vs[k]);
    }
  }

  lemma OneMove(a: Attempt, b: Attempt)
    requires AttemptMoves(a, b) && WellKept(a)
    ensures b.runtimeIdentity != a.runtimeIdentity <==> a.state == Ready && b.state == Running
    ensures b.candidateDigest != a.candidateDigest <==> a.state == Running && b.state == Candidate
  {
  }

  // ----- invocations

  datatype InvocationCall = CreateI(invocation: Invocation) | SaveI(invocation: Invocation, expected: Digest)

  function CallInvocations(m: map<Id, Invocation>, c: InvocationCall): (r: Result<map<Id, Invocation>>) {
    match c
    case CreateI(i) => CreateInvocation(m, i)
    case SaveI(i, expected) => SaveInvocation(m, i, expected)
  }

  function InvocationsAfter(m: map<Id, Invocation>, cs: seq<InvocationCall>): map<Id, Invocation>
    decreases cs
  {
    if cs == [] then m
    else
      var r := CallInvocations(m, cs[0]);
      InvocationsAfter(if r.Ok? then r.value else m, cs[1..])
  }

  function InvocationVersions(m: map<Id, Invocation>, cs: seq<InvocationCall>, id: Id): seq<Invocation>
    decreases cs
  {
    if cs == [] then Current(m, id)
    else
      var r := CallInvocations(m, cs[0]);
      if r.Err? then InvocationVersions(m, cs[1..], id)
      else if cs[0].invocation.identity.invocationId != id then InvocationVersions(r.value, cs[1..], id)
      else Current(m, id) + InvocationVersions(r.value, cs[1..], id)
  }

  ghost predicate InvocationChain(vs: seq<Invocation>) {
    forall k | 0 < k < |vs| :: InvocationMoves(vs[k - 1], vs[k])
  }

  lemma {:induction false} InvocationVersionsChain(m: map<Id, Invocation>, cs: seq<InvocationCall>, id: Id)
    ensures var vs := InvocationVersions(m, cs, id);
            && InvocationChain(vs)
            && (id in m ==> vs != [] && vs[0] == m[id])
            && (id !in m && vs != [] ==> vs[0].state == Prepared && ValidInvocation(vs[0]))
            && (id in InvocationsAfter(m, cs) <==> vs != [])
            && (vs != [] ==> InvocationsAfter(m, cs)[id] == vs[|vs| - 1])
    decreases cs
  {
    if cs != [] {
      var r := CallInvocations(m, cs[0]);
      InvocationVersionsChain(if r.Ok? then r.value else m, cs[1..], id);
      if r.Ok? && cs[0].SaveI? {
        InvocationSavesAreMoves(m, cs[0].invocation, cs[0].expected);
      }
    }
  }

  function InvocationRank(s: InvocationState): nat {
    match s
    case Prepared => 0
    case Authorized => 1
    case Rejected => 1
    case Dispatching => 2
    case Completed => 3
    case Uncertain => 3
    case AbortedInvocation => 4
  }

  ghost predicate InvocationEvolves(i: Invocation, j: Invocation) {
    && OfIdentity(i.identity) == OfIdentity(j.identity)
    && InvocationRank(i.state) <= InvocationRank(j.state)
    && (i.authorizedBy.Some? ==> j.authorizedBy == i.authorizedBy)
    && (i.authorizedAt.Some? ==> j.authorizedAt == i.authorizedAt)
  }

  lemma {:induction false} InvocationChainsEvolve(vs: seq<Invocation>, j: nat, k: nat)
    requires InvocationChain(vs) && j <= k < |vs|
    requires forall v | v in vs :: ValidInvocation(v)
    ensures InvocationEvolves(vs[j], vs[k])
    ensures j < k ==> InvocationRank(vs[j].state) < InvocationRank(vs[k].state)
    decreases k - j
  {
    if j < k {
      InvocationChainsEvolve(vs, j, k - 1);
      assert InvocationMoves(vs[k - 1], vs[k]);
      assert vs[k - 1] in vs;
    }
  }

  lemma ChainedInvocationsAreValid(vs: seq<Invocation>)
    requires InvocationChain(vs) && (vs != [] ==> ValidInvocation(vs[0]))
    ensures forall v | v in vs :: ValidInvocation(v)
  {
    forall k | 0 <= k < |vs|
      ensures ValidInvocation(vs[k])
    {
      if k > 0 {
        assert InvocationMoves(vs[k - 1], vs[k]);
      }
    }
  }

  /** The history of one invocation in any run of store calls: the identity
      digest is constant, authorization is set once and kept, no state and no
      record digest comes twice. */
  lemma InvocationHistory(m: map<Id, Invocation>, cs: seq<InvocationCall>, id: Id)
    requires id in m ==> ValidInvocation(m[id])
    ensures var vs := InvocationVersions(m, cs, id);
            && (forall v | v in vs :: ValidInvocation(v))
            && (forall j, k | 0 <= j < k < |vs| ::
                  && InvocationEvolves(vs[j], vs[k])
                  && vs[j].state != vs[k].state
                  && OfInvocation(vs[j]) != OfInvocation(vs[k])
                  && !TerminalInvocation(vs[j].state))
  {
    var vs := InvocationVersions(m, cs, id);
    InvocationVersionsChain(m, cs, id);
    ChainedInvocationsAreValid(vs);
    forall j, k | 0 <= j < k < |vs|
      ensures InvocationEvolves(vs[j], vs[k]) && vs[j].state != vs[k].state && !TerminalInvocation(vs[j].state)
    {
      InvocationChainsEvolve(vs, j, k);
      assert InvocationMoves(vs[j], vs[j + 1]);
    }
  }

  /** Nor does an invocation skip a step: unless it was aborted, its version
      number is the rank of its state, so COMPLETED was AUTHORIZED and
      DISPATCHING before. */
  lemma {:induction false} InvocationsSkipNoStep(m: map<Id, Invocation>, cs: seq<InvocationCall>, id: Id, k: nat)
    requires id !in m && k < |InvocationVersions(m, cs, id)|
    ensures var vs := InvocationVersions(m, cs, id);
            && (vs[k].state != AbortedInvocation ==> InvocationRank(vs[k].state) == k)
            && (vs[k].state == AbortedInvocation ==> k > 0 && vs[k - 1].state in {Authorized, Uncertain})
  {
    var vs := InvocationVersions(m, cs, id);
    InvocationVersionsChain(m, cs, id);
    if k > 0 {
      InvocationsSkipNoStep(m, cs, id, k - 1);
      assert InvocationMoves(vs[k - 1], vs[k]);
    }
  }

  /** The compare-and-swap is free of ABA: when a save that expects the digest
      of a version read earlier is accepted, no call in between has written
      that invocation. */
  lemma CompareAndSwapMeansUntouched(m: map<Id, Invocation>, cs: seq<InvocationCall>, updated: Invocation)
    requires updated.identity.invocationId in m
    requires ValidInvocation(m[updated.identity.invocationId])
    requires SaveInvocation(InvocationsAfter(m, cs), updated, OfInvocation(m[updated.identity.invocationId])).Ok?
    ensures InvocationVersions(m, cs, updated.identity.invocationId) == [m[updated.identity.invocationId]]
  {
    var id := updated.identity.invocationId;
    var vs := InvocationVersions(m, cs, id);
    InvocationHistory(m, cs, id);
    InvocationVersionsChain(m, cs, id);
    if |vs| > 1 {
      assert false;
    }
  }
}
