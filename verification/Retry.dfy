/** Retry chains: which links the attempt store accepts, and what the relation
    check finds on a store that was built through it. */
module Retry {
  import opened Outcomes
  import opened Records
  import opened Lifecycle
  import opened Stores
  import opened Moves
  import opened Graph
  import opened StoreHistories

  /** The graph `validate_relations` checks: each attempt and its prior one. */
  function PriorGraph(m: map<Id, Attempt>): Digraph {
    map k | k in m :: if m[k].priorAttemptId.None? then [] else [m[k].priorAttemptId.value]
  }

  /** Every referenced attempt exists and is terminal. */
  predicate PriorsTerminal(m: map<Id, Attempt>) {
    forall k | k in m ::
      m[k].priorAttemptId.Some? ==>
        m[k].priorAttemptId.value in m && TerminalAttempt(m[m[k].priorAttemptId.value].state)
  }

  // ----- chains in any store

  /** `p` leads from an attempt's prior link to an attempt without one. */
  ghost predicate RetryChain(m: map<Id, Attempt>, current: Option<Id>, p: seq<Id>) {
    && (forall k | 0 <= k < |p| :: p[k] in m)
    && (if p == [] then current.None?
        else
          && current == Some(p[0])
          && (forall k | 0 < k < |p| :: m[p[k - 1]].priorAttemptId == Some(p[k]))
          && m[p[|p| - 1]].priorAttemptId.None?)
  }

  ghost predicate Fresh(p: seq<Id>, seen: set<Id>) {
    && (forall k | 0 <= k < |p| :: p[k] !in seen)
    && (forall j, k | 0 <= j < k < |p| :: p[j] != p[k])
  }

  lemma {:induction false} WalkFindsChain(m: map<Id, Attempt>, current: Option<Id>, seen: set<Id>, first: bool) returns (p: seq<Id>)
    requires RetryWalk(m, current, seen, first).Ok?
    ensures RetryChain(m, current, p) && Fresh(p, seen)
    ensures first && p != [] ==> TerminalAttempt(m[p[0]].state)
    decreases m.Keys - seen
  {
    if current.None? {
      p := [];
    } else {
      var id := current.value;
      var rest := WalkFindsChain(m, m[id].priorAttemptId, seen + {id}, false);
      p := [id] + rest;
    }
  }

  lemma {:induction false} ChainWalks(m: map<Id, Attempt>, current: Option<Id>, seen: set<Id>, first: bool, p: seq<Id>)
    requires RetryChain(m, current, p) && Fresh(p, seen)
    requires first && p != [] ==> TerminalAttempt(m[p[0]].state)
    ensures RetryWalk(m, current, seen, first).Ok?
    decreases p
  {
    if p != [] {
      var rest := p[1..];
      if rest != [] {
        assert m[p[0]].priorAttemptId == Some(p[1]);
      }
      assert RetryChain(m, m[p[0]].priorAttemptId, rest) by {
        forall k | 0 < k < |rest|
          ensures m[rest[k - 1]].priorAttemptId == Some(rest[k])
        {
          assert m[p[k]].priorAttemptId == Some(p[k + 1]);
        }
      }
      ChainWalks(m, m[p[0]].priorAttemptId, seen + {p[0]}, false, rest);
    }
  }

  /** On any store, cyclic or not: a link is accepted exactly when the prior
      attempts form a finite chain of distinct stored attempts, not through the
      new one, that starts at a terminal attempt. */
  lemma AcceptedLinksAreChains(m: map<Id, Attempt>, a: Attempt)
    ensures RetryLink(m, a).Ok? <==>
              exists p :: RetryChain(m, a.priorAttemptId, p) && Fresh(p, {a.attemptId})
                          && (p != [] ==> TerminalAttempt(m[p[0]].state))
  {
    if RetryLink(m, a).Ok? {
      var p := WalkFindsChain(m, a.priorAttemptId, {a.attemptId}, true);
    }
    if p :| RetryChain(m, a.priorAttemptId, p) && Fresh(p, {a.attemptId}) && (p != [] ==> TerminalAttempt(m[p[0]].state)) {
      ChainWalks(m, a.priorAttemptId, {a.attemptId}, true, p);
    }
  }

  /** A new attempt is stored exactly if it is a clean DRAFT under a new name
      whose prior attempts are such a chain. */
  lemma AttemptCreatesExactly(m: map<Id, Attempt>, a: Attempt)
    ensures CreateAttempt(m, a).Ok? <==>
              && a.attemptId !in m
              && a.state == Draft && a.runtimeIdentity.None? && a.candidateDigest.None? && a.cleanupOutcome.None?
              && a.createdAt <= a.updatedAt
              && exists p :: RetryChain(m, a.priorAttemptId, p) && Fresh(p, {a.attemptId})
                             && (p != [] ==> TerminalAttempt(m[p[0]].state))
    ensures CreateAttempt(m, a).Ok? ==> CreateAttempt(m, a).value == m[a.attemptId := a]
  {
    AcceptedLinksAreChains(m, a);
  }

  // ----- stores built by create and save

  /** An order in which every attempt comes after its prior one. */
  ghost predicate Grown(m: map<Id, Attempt>, order: seq<Id>) {
    && (forall k | k in m :: k in order)
    && (forall k | k in order :: k in m)
    && Finished(PriorGraph(m), order)
    && PriorsTerminal(m)
    && forall k | k in m :: m[k].attemptId == k
  }

  lemma {:induction false} WalkReachesEnd(m: map<Id, Attempt>, order: seq<Id>, n: nat, current: Option<Id>, seen: set<Id>)
    requires Grown(m, order) && n <= |order|
    requires current.Some? ==> current.value in order[..n]
    requires forall id | id in order[..n] :: id !in seen
    ensures RetryWalk(m, current, seen, false).Ok?
    decreases n
  {
    if current.Some? {
      var id := current.value;
      var k := FirstAt(order, id, n);
      var prior := m[id].priorAttemptId;
      if prior.Some? {
        assert Edge(PriorGraph(m), order[k], prior.value);
      }
      forall j | j in order[..k]
        ensures j !in seen + {id}
      {
        assert j in order[..n];
      }
      WalkReachesEnd(m, order, k, prior, seen + {id});
    }
  }

  /** The first place of an identifier in an order. */
  lemma {:induction false} FirstAt(order: seq<Id>, id: Id, n: nat) returns (k: nat)
    requires n <= |order| && id in order[..n]
    ensures k < n && order[k] == id && id !in order[..k]
  {
    k :| k < n && order[k] == id;
    if id in order[..k] {
      k := FirstAt(order, id, k);
    }
  }

  /** On a grown store a fresh attempt's link is judged by its first step
      alone; apart from naming itself it never closes a cycle. */
  lemma FreshLinks(m: map<Id, Attempt>, order: seq<Id>, a: Attempt)
    requires Grown(m, order) && a.attemptId !in m
    ensures RetryLink(m, a) ==
            if a.priorAttemptId.None? then Ok(())
            else if a.priorAttemptId.value == a.attemptId then Err("ATTEMPT_RETRY_CYCLE")
            else if a.priorAttemptId.value !in m then Err("ATTEMPT_PRIOR_MISSING")
            else if !TerminalAttempt(m[a.priorAttemptId.value].state) then Err("ATTEMPT_PRIOR_ACTIVE")
            else Ok(())
  {
    if a.priorAttemptId.Some? && a.priorAttemptId.value in m {
      var id := a.priorAttemptId.value;
      var k := FirstAt(order, id, |order|) by { assert order[..|order|] == order; }
      if m[id].priorAttemptId.Some? {
        assert Edge(PriorGraph(m), order[k], m[id].priorAttemptId.value);
      }
      WalkReachesEnd(m, order, k, m[id].priorAttemptId, {a.attemptId, id});
      assert {a.attemptId} + {id} == {a.attemptId, id};
      assert RetryWalk(m, Some(id), {a.attemptId}, true) ==
             if !TerminalAttempt(m[id].state) then Err("ATTEMPT_PRIOR_ACTIVE")
             else RetryWalk(m, m[id].priorAttemptId, {a.attemptId, id}, false);
      WalksEndWell(m, m[id].priorAttemptId, {a.attemptId, id});
    }
  }

  lemma WalksEndWell(m: map<Id, Attempt>, current: Option<Id>, seen: set<Id>)
    ensures RetryWalk(m, current, seen, false).Ok? ==> RetryWalk(m, current, seen, false) == Ok(())
  {
    var r := RetryWalk(m, current, seen, false);
    if r.Ok? {
      match r.value { case () => }
    }
  }

  lemma CreateGrows(m: map<Id, Attempt>, order: seq<Id>, a: Attempt)
    requires Grown(m, order) && CreateAttempt(m, a).Ok?
    ensures Grown(CreateAttempt(m, a).value, order + [a.attemptId])
  {
    FreshLinks(m, order, a);
    var n := m[a.attemptId := a];
    var more := order + [a.attemptId];
    forall k, b | 0 <= k < |more| && Edge(PriorGraph(n), more[k], b)
      ensures b in more[..k]
    {
      if k < |order| {
        assert more[..k] == order[..k];
        assert Edge(PriorGraph(m), order[k], b);
      } else {
        assert more[..k] == order;
      }
    }
  }

  lemma SaveKeepsGrown(m: map<Id, Attempt>, order: seq<Id>, a: Attempt)
    requires Grown(m, order) && SaveAttempt(m, a).Ok?
    ensures Grown(SaveAttempt(m, a).value, order)
  {
    AttemptSavesAreMoves(m, a);
    var n := m[a.attemptId := a];
    assert PriorGraph(n) == PriorGraph(m);
  }

  lemma {:induction false} CallsGrow(m: map<Id, Attempt>, order: seq<Id>, cs: seq<AttemptCall>) returns (after: seq<Id>)
    requires Grown(m, order)
    ensures Grown(AttemptsAfter(m, cs), after)
    decreases cs
  {
    if cs == [] {
      after := order;
    } else {
      var r := CallAttempts(m, cs[0]);
      var next := order;
      if r.Ok? {
        match cs[0] {
          case CreateA(a) => CreateGrows(m, order, a); next := order + [a.attemptId];
          case SaveA(a) => SaveKeepsGrown(m, order, a);
        }
      }
      after := CallsGrow(if r.Ok? then r.value else m, next, cs[1..]);
    }
  }

  /** Any store built by creates and saves has terminal priors only and an
      acyclic prior graph, and judges fresh links by their first step. */
  lemma BuiltStoresAreAcyclic(cs: seq<AttemptCall>)
    ensures var m := AttemptsAfter(map[], cs);
            PriorsTerminal(m) && !HasCycle(PriorGraph(m))
    ensures var m := AttemptsAfter(map[], cs);
            forall a: Attempt | a.attemptId !in m ::
              RetryLink(m, a) == Err("ATTEMPT_RETRY_CYCLE") <==> a.priorAttemptId == Some(a.attemptId)
  {
    var m := AttemptsAfter(map[], cs);
    var order := CallsGrow(map[], [], cs);
    FinishedIsAcyclic(PriorGraph(m), order);
    forall a: Attempt | a.attemptId !in m
      ensures RetryLink(m, a) == Err("ATTEMPT_RETRY_CYCLE") <==> a.priorAttemptId == Some(a.attemptId)
    {
      FreshLinks(m, order, a);
    }
  }

  // ----- the prior-attempt part of validate_relations

  predicate Retried(a: Attempt) {
    a.priorAttemptId.Some?
  }

  /** The reference check of the first loop. */
  function Reference(m: map<Id, Attempt>, a: Attempt): (r: Result<()>) {
    if a.priorAttemptId == Some(a.attemptId) then Err("RELATION_CYCLE_INVALID")
    else if Retried(a) && a.priorAttemptId.value !in m then Err("RELATION_REFERENCE_MISSING")
    else Ok(())
  }

  /** The state and time check of the last loop. */
  function PriorEnded(m: map<Id, Attempt>, a: Attempt): (r: Result<()>)
    requires Retried(a) ==> a.priorAttemptId.value in m
  {
    if !Retried(a) then Ok(())
    else
      var prior := m[a.priorAttemptId.value];
      if !TerminalAttempt(prior.state) then Err("RELATION_STATE_INVALID")
      else if a.createdAt < prior.updatedAt then Err("RELATION_TIME_INVALID")
      else Ok(())
  }

  ghost predicate Listed(m: map<Id, Attempt>, ids: seq<Id>) {
    && (forall id :: id in ids <==> id in m)
    && (forall id | id in m :: m[id].attemptId == id)
  }

  /** The retry of `a` was created after its prior attempt had ended. */
  predicate InTime(m: map<Id, Attempt>, a: Attempt) {
    Retried(a) && a.priorAttemptId.value in m ==> m[a.priorAttemptId.value].updatedAt <= a.createdAt
  }

  /** The attempt retries nothing, or another attempt that is stored. */
  predicate Refers(m: map<Id, Attempt>, a: Attempt) {
    a.priorAttemptId.Some? ==> a.priorAttemptId.value != a.attemptId && a.priorAttemptId.value in m
  }

  ghost predicate ReferencesHold(m: map<Id, Attempt>) {
    forall id | id in m :: Refers(m, m[id])
  }

  method CheckReferences(m: map<Id, Attempt>, ids: seq<Id>) returns (r: Result<()>)
    requires Listed(m, ids)
    ensures r.Ok? <==> ReferencesHold(m)
    ensures r.Err? ==>
              exists k | 0 <= k < |ids| ::
                && !Refers(m, m[ids[k]]) && (forall j | 0 <= j < k :: Refers(m, m[ids[j]]))
                && r == Err(if m[ids[k]].priorAttemptId == Some(ids[k]) then "RELATION_CYCLE_INVALID"
                            else "RELATION_REFERENCE_MISSING")
  {
    var k := 0;
    while k < |ids|
      invariant 0 <= k <= |ids|
      invariant forall j | 0 <= j < k :: Refers(m, m[ids[j]])
    {
      var reference := Reference(m, m[ids[k]]);
      if reference.Err? {
        return reference;
      }
      k := k + 1;
    }
    return Ok(());
  }

  ghost predicate AllInTime(m: map<Id, Attempt>) {
    forall id | id in m :: InTime(m, m[id])
  }

  method CheckPriorsEnded(m: map<Id, Attempt>, ids: seq<Id>) returns (r: Result<()>)
    requires Listed(m, ids) && ReferencesHold(m)
    ensures r.Ok? <==> PriorsTerminal(m) && AllInTime(m)
    ensures r.Err? && PriorsTerminal(m) ==> r.code == "RELATION_TIME_INVALID"
    ensures r.Err? && AllInTime(m) ==> r.code == "RELATION_STATE_INVALID"
  {
    var k := 0;
    while k < |ids|
      invariant 0 <= k <= |ids|
      invariant forall j | 0 <= j < k :: EndedAt(m, ids[j])
    {
      assert Refers(m, m[ids[k]]);
      var ended := PriorEnded(m, m[ids[k]]);
      if ended.Err? {
        assert !EndedAt(m, ids[k]);
        return ended;
      }
      k := k + 1;
    }
    forall id | id in m
      ensures EndedAt(m, id)
    {
      assert id in ids;
    }
    return Ok(());
  }

  predicate EndedAt(m: map<Id, Attempt>, id: Id)
    requires id in m
  {
    && (Retried(m[id]) ==> m[id].priorAttemptId.value in m && TerminalAttempt(m[m[id].priorAttemptId.value].state))
    && InTime(m, m[id])
  }

  /** Checks all attempts in the order `ids`: the first failing reference, then
      the graph, then the first prior attempt that had not ended. */
  method ValidatePriors(m: map<Id, Attempt>, ids: seq<Id>) returns (r: Result<()>)
    requires Listed(m, ids)
    ensures r.Ok? <==> ReferencesHold(m) && !HasCycle(PriorGraph(m)) && PriorsTerminal(m) && AllInTime(m)
    ensures r.Err? && ReferencesHold(m) && HasCycle(PriorGraph(m)) ==> r.code == "RELATION_CYCLE_INVALID"
    ensures r.Err? && ReferencesHold(m) && !HasCycle(PriorGraph(m)) && PriorsTerminal(m) ==>
              r.code == "RELATION_TIME_INVALID"
  {
    r := CheckReferences(m, ids);
    if r.Ok? {
      r := AssertAcyclic(PriorGraph(m), ids);
    }
    if r.Ok? {
      r := CheckPriorsEnded(m, ids);
    }
  }

  /** Each accepted create came no earlier than the end of its prior attempt. */
  predicate CreatedInTime(m: map<Id, Attempt>, cs: seq<AttemptCall>)
    decreases cs
  {
    cs == [] ||
    var r := CallAttempts(m, cs[0]);
    && (r.Ok? && cs[0].CreateA? ==> InTime(m, cs[0].attempt))
    && CreatedInTime(if r.Ok? then r.value else m, cs[1..])
  }

  lemma CreateKeepsTimes(m: map<Id, Attempt>, order: seq<Id>, a: Attempt)
    requires Grown(m, order) && CreateAttempt(m, a).Ok?
    ensures AllInTime(CreateAttempt(m, a).value) <==> AllInTime(m) && InTime(m, a)
  {
    FreshLinks(m, order, a);
    var n := m[a.attemptId := a];
    forall id | id in m
      ensures InTime(n, n[id]) <==> InTime(m, m[id])
    {
    }
    assert InTime(n, n[a.attemptId]) <==> InTime(m, a);
  }

  lemma SaveKeepsTimes(m: map<Id, Attempt>, order: seq<Id>, a: Attempt)
    requires Grown(m, order) && SaveAttempt(m, a).Ok?
    ensures AllInTime(SaveAttempt(m, a).value) <==> AllInTime(m)
  {
    AttemptSavesAreMoves(m, a);
    var n := m[a.attemptId := a];
    forall id | id in m
      ensures InTime(n, n[id]) <==> InTime(m, m[id])
    {
    }
  }

  lemma {:induction false} TimesFollowCreates(m: map<Id, Attempt>, order: seq<Id>, cs: seq<AttemptCall>)
    requires Grown(m, order)
    ensures AllInTime(AttemptsAfter(m, cs)) <==> AllInTime(m) && CreatedInTime(m, cs)
    decreases cs
  {
    if cs != [] {
      var r := CallAttempts(m, cs[0]);
      if r.Err? {
        TimesFollowCreates(m, order, cs[1..]);
      } else {
        match cs[0] {
          case CreateA(a) =>
            CreateGrows(m, order, a);
            CreateKeepsTimes(m, order, a);
            TimesFollowCreates(r.value, order + [a.attemptId], cs[1..]);
          case SaveA(a) =>
            SaveKeepsGrown(m, order, a);
            SaveKeepsTimes(m, order, a);
            TimesFollowCreates(r.value, order, cs[1..]);
        }
      }
    }
  }

  /** On a built store the reference, cycle and state checks always pass; the
      time check passes exactly when every accepted retry was created no
      earlier than its prior attempt had ended, which `create` does not ask. */
  lemma BuiltStoresValidate(cs: seq<AttemptCall>)
    ensures var m := AttemptsAfter(map[], cs);
            && ReferencesHold(m)
            && !HasCycle(PriorGraph(m))
            && PriorsTerminal(m)
            && (AllInTime(m) <==> CreatedInTime(map[], cs))
  {
    var m := AttemptsAfter(map[], cs);
    BuiltStoresAreAcyclic(cs);
    var order := CallsGrow(map[], [], cs);
    TimesFollowCreates(map[], [], cs);
    AcyclicReferences(m);
  }

  lemma AcyclicReferences(m: map<Id, Attempt>)
    requires PriorsTerminal(m) && !HasCycle(PriorGraph(m))
    requires forall k | k in m :: m[k].attemptId == k
    ensures ReferencesHold(m)
  {
    forall id | id in m
      ensures Reference(m, m[id]).Ok?
    {
      if m[id].priorAttemptId == Some(id) {
        assert Edge(PriorGraph(m), id, id);
        assert Path(PriorGraph(m), [id, id]);
      }
    }
  }

  /** A retry that the store accepts and the relation check then refuses: it
      is dated before the end of its prior attempt. */
  lemma EarlyRetryIsAccepted(a: Attempt)
    requires CreateAttempt(map[], a).Ok? && a.priorAttemptId.None? && a.updatedAt == a.createdAt
    ensures var ended := a.(state := Aborted, updatedAt := a.createdAt + 1, cleanupOutcome := Some("done"));
            var retry := a.(attemptId := a.attemptId + "2", priorAttemptId := Some(a.attemptId));
            var m := AttemptsAfter(map[], [CreateA(a), SaveA(ended), CreateA(retry)]);
            retry.attemptId in m && m[retry.attemptId] == retry && !InTime(m, retry)
  {
    var ended := a.(state := Aborted, updatedAt := a.createdAt + 1, cleanupOutcome := Some("done"));
    var retry := a.(attemptId := a.attemptId + "2", priorAttemptId := Some(a.attemptId));
    assert "done" != "" && |retry.attemptId| == |a.attemptId| + 1;
    var m1 := map[a.attemptId := a];
    var m2 := map[a.attemptId := ended];
    AttemptSavesAreMoves(m1, ended);
    assert Given(Some("done")) && AttemptMoves(a, ended);
    assert m1[a.attemptId := ended] == m2;
    assert CallAttempts(map[], CreateA(a)) == Ok(m1);
    assert CallAttempts(m1, SaveA(ended)) == Ok(m2);
    assert RetryWalk(m2, None, {retry.attemptId, a.attemptId}, false) == Ok(());
    assert {retry.attemptId} + {a.attemptId} == {retry.attemptId, a.attemptId};
    assert RetryWalk(m2, Some(a.attemptId), {retry.attemptId}, true) == Ok(());
    assert RetryLink(m2, retry) == Ok(());
    assert CallAttempts(m2, CreateA(retry)) == Ok(m2[retry.attemptId := retry]);
    ThreeCalls(map[], m1, m2, m2[retry.attemptId := retry], CreateA(a), SaveA(ended), CreateA(retry));
  }

  lemma ThreeCalls(
    m0: map<Id, Attempt>, m1: map<Id, Attempt>, m2: map<Id, Attempt>, m3: map<Id, Attempt>,
    c1: AttemptCall, c2: AttemptCall, c3: AttemptCall)
    requires CallAttempts(m0, c1) == Ok(m1) && CallAttempts(m1, c2) == Ok(m2) && CallAttempts(m2, c3) == Ok(m3)
    ensures AttemptsAfter(m0, [c1, c2, c3]) == m3
  {
    assert [c1, c2, c3][1..] == [c2, c3] && [c2, c3][1..] == [c3];
    assert AttemptsAfter(m2, [c3]) == m3;
    assert AttemptsAfter(m1, [c2, c3]) == m3;
  }
}
