/** At most one adapter launch, under every interleaving of store calls.

    Any number of dispatchers run concurrently, each one store call at a time,
    beside an environment that makes arbitrary guarded store calls.  A dispatcher
    that crashes is one that takes no further step. */
module Launch {
  import opened Outcomes
  import opened Records
  import opened Lifecycle
  import opened Stores
  import opened Moves
  import Commands

  /** Where a dispatcher is in `dispatch_invocation`.  `i` is the invocation it
      loaded first; the binding loads invocation and attempt again. */
  datatype Stage =
    | Started
    | Loaded(i: Invocation)
    | Checked(i: Invocation)
    | Located(i: Invocation, attemptId: Id)
    | Fetched(i: Invocation, a: Attempt)
    | Decided(i: Invocation, running: Attempt)
    | Bound(i: Invocation)
    | Marked(i: Invocation)
    | Launched(i: Invocation)
    | Refused

  datatype Dispatcher = Dispatcher(invocationId: Id, expected: Digest, controller: string, stage: Stage)

  datatype World = World(
    attempts: map<Id, Attempt>,
    invocations: map<Id, Invocation>,
    dispatchers: map<nat, Dispatcher>,
    launches: seq<nat>)

  datatype Event =
    | StartDispatch(t: nat, invocationId: Id, expected: Digest, controller: string)
    | LoadInvocation(t: nat)
    | CheckDispatch(t: nat, passes: bool)
    | LocateAttempt(t: nat)
    | FetchAttempt(t: nat)
    | DecideBinding(t: nat, now: int)
    | SaveBinding(t: nat)
    | MarkInvocation(t: nat)
    | CallAdapter(t: nat)
    | OtherCreateAttempt(a: Attempt)
    | OtherSaveAttempt(a: Attempt)
    | OtherCreateInvocation(i: Invocation)
    | OtherSaveInvocation(i: Invocation, expected: Digest)

  /** The dispatcher's own work between two writes: it only reads. */
  function Reads(w: World, d: Dispatcher, e: Event): Stage {
    match e
    case LoadInvocation(_) =>
      if !d.stage.Started? then d.stage
      else if d.invocationId !in w.invocations then Refused
      else
        var i := w.invocations[d.invocationId];
        if OfIdentity(i.identity) != d.expected || i.state != Authorized || i.authorizedBy != Some(d.controller) then
          Refused
        else Loaded(i)
    case CheckDispatch(_, passes) =>
      if !d.stage.Loaded? then d.stage else if passes then Checked(d.stage.i) else Refused
    case LocateAttempt(_) =>
      if !d.stage.Checked? then d.stage
      else if d.invocationId !in w.invocations then Refused
      else Located(d.stage.i, w.invocations[d.invocationId].identity.attemptId)
    case FetchAttempt(_) =>
      if !d.stage.Located? then d.stage
      else if d.stage.attemptId !in w.attempts then Refused
      else Fetched(d.stage.i, w.attempts[d.stage.attemptId])
    case DecideBinding(_, now) =>
      if !d.stage.Fetched? then d.stage
      else if d.invocationId !in w.invocations then Refused
      else
        var j := w.invocations[d.invocationId];
        if j.state != Authorized || OfIdentity(j.identity) != d.expected then Refused
        else
          var running := BindAuthorized(d.stage.a, j, now);
          if running.Err? then Refused else Decided(d.stage.i, running.value)
    case _ => d.stage
  }

  function SetStage(w: World, t: nat, stage: Stage): World
    requires t in w.dispatchers
  {
    w.(dispatchers := w.dispatchers[t := w.dispatchers[t].(stage := stage)])
  }

  function BindStep(w: World, t: nat): World
    requires t in w.dispatchers
  {
    var stage := w.dispatchers[t].stage;
    if !stage.Decided? then w
    else
      var saved := SaveAttempt(w.attempts, stage.running);
      if saved.Err? then SetStage(w, t, Refused) else SetStage(w.(attempts := saved.value), t, Bound(stage.i))
  }

  function MarkStep(w: World, t: nat): World
    requires t in w.dispatchers
  {
    var stage := w.dispatchers[t].stage;
    if !stage.Bound? then w
    else
      var dispatching := TransitionInvocation(stage.i, Dispatching, None, None, None);
      if dispatching.Err? then SetStage(w, t, Refused)
      else
        var saved := SaveInvocation(w.invocations, dispatching.value, OfInvocation(stage.i));
        if saved.Err? then SetStage(w, t, Refused) else SetStage(w.(invocations := saved.value), t, Marked(stage.i))
  }

  function LaunchStep(w: World, t: nat): World
    requires t in w.dispatchers
  {
    var stage := w.dispatchers[t].stage;
    if !stage.Marked? then w
    else SetStage(w.(launches := w.launches + [t]), t, Launched(stage.i))
  }

  function Store<T>(saved: Result<T>, current: T): T {
    if saved.Ok? then saved.value else current
  }

  function Next(w: World, e: Event): World {
    match e
    case StartDispatch(t, id, expected, controller) =>
      if t in w.dispatchers then w
      else w.(dispatchers := w.dispatchers[t := Dispatcher(id, expected, controller, Started)])
    case SaveBinding(t) => if t in w.dispatchers then BindStep(w, t) else w
    case MarkInvocation(t) => if t in w.dispatchers then MarkStep(w, t) else w
    case CallAdapter(t) => if t in w.dispatchers then LaunchStep(w, t) else w
    case OtherCreateAttempt(a) => w.(attempts := Store(CreateAttempt(w.attempts, a), w.attempts))
    case OtherSaveAttempt(a) => w.(attempts := Store(SaveAttempt(w.attempts, a), w.attempts))
    case OtherCreateInvocation(i) => w.(invocations := Store(CreateInvocation(w.invocations, i), w.invocations))
    case OtherSaveInvocation(i, expected) =>
      w.(invocations := Store(SaveInvocation(w.invocations, i, expected), w.invocations))
    case _ => if e.t in w.dispatchers then SetStage(w, e.t, Reads(w, w.dispatchers[e.t], e)) else w
  }

  function RunEvents(w: World, es: seq<Event>): World
    decreases es
  {
    if es == [] then w else RunEvents(Next(w, es[0]), es[1..])
  }

  // ----- the invariant

  predicate HasInvocation(stage: Stage) {
    !stage.Started? && !stage.Refused?
  }

  /** The dispatcher made the READY to RUNNING write of its attempt. */
  predicate HasBound(stage: Stage) {
    stage.Bound? || stage.Marked? || stage.Launched?
  }

  /** The dispatcher made the AUTHORIZED to DISPATCHING write. */
  predicate HasMarked(stage: Stage) {
    stage.Marked? || stage.Launched?
  }

  /** What is durable once a dispatcher has made its two writes. */
  predicate Durable(attempts: map<Id, Attempt>, invocations: map<Id, Invocation>, d: Dispatcher) {
    && (HasInvocation(d.stage) ==>
          && d.stage.i.identity.invocationId == d.invocationId
          && OfIdentity(d.stage.i.identity) == d.expected
          && d.stage.i.state == Authorized)
    && (d.stage.Decided? ==>
          && d.stage.running.attemptId == d.stage.i.identity.attemptId
          && d.stage.running.state == Running
          && d.stage.running.runtimeIdentity == Some(OfIdentity(d.stage.i.identity)))
    && (HasBound(d.stage) ==>
          && d.stage.i.identity.attemptId in attempts
          && attempts[d.stage.i.identity.attemptId].runtimeIdentity == Some(OfIdentity(d.stage.i.identity)))
    && (HasMarked(d.stage) ==>
          && d.invocationId in invocations
          && invocations[d.invocationId].identity == d.stage.i.identity
          && PastAuthorized(invocations[d.invocationId].state))
  }

  predicate PastAuthorized(s: InvocationState) {
    s !in {Prepared, Authorized, Rejected}
  }

  ghost predicate Keyed(w: World) {
    && (forall k | k in w.attempts :: w.attempts[k].attemptId == k)
    && (forall k | k in w.invocations :: w.invocations[k].identity.invocationId == k)
  }

  ghost predicate AllDurable(w: World) {
    forall t | t in w.dispatchers :: Durable(w.attempts, w.invocations, w.dispatchers[t])
  }

  /** No two dispatchers bound the same attempt, or marked the same invocation. */
  ghost predicate OneBinder(w: World) {
    forall t, u | t in w.dispatchers && u in w.dispatchers && t != u ::
      HasBound(w.dispatchers[t].stage) && HasBound(w.dispatchers[u].stage) ==>
        w.dispatchers[t].stage.i.identity.attemptId != w.dispatchers[u].stage.i.identity.attemptId
  }

  ghost predicate OneMarker(w: World) {
    forall t, u | t in w.dispatchers && u in w.dispatchers && t != u ::
      HasMarked(w.dispatchers[t].stage) && HasMarked(w.dispatchers[u].stage) ==>
        w.dispatchers[t].invocationId != w.dispatchers[u].invocationId
  }

  /** The launch log holds exactly the dispatchers that launched, once each. */
  ghost predicate LogIsTrue(w: World) {
    && (forall k | 0 <= k < |w.launches| ::
          w.launches[k] in w.dispatchers && w.dispatchers[w.launches[k]].stage.Launched?)
    && (forall j, k | 0 <= j < k < |w.launches| :: w.launches[j] != w.launches[k])
  }

  ghost predicate Safe(w: World) {
    Keyed(w) && AllDurable(w) && OneBinder(w) && OneMarker(w) && LogIsTrue(w)
  }

  // ----- what store calls keep

  /** A runtime identity, once durable, stays. */
  predicate AttemptsKeep(m: map<Id, Attempt>, n: map<Id, Attempt>) {
    forall k | k in m :: k in n && (m[k].runtimeIdentity.Some? ==> n[k].runtimeIdentity == m[k].runtimeIdentity)
  }

  /** An invocation past AUTHORIZED stays there, under the same identity. */
  predicate InvocationsKeep(m: map<Id, Invocation>, n: map<Id, Invocation>) {
    forall k | k in m ::
      && k in n
      && n[k].identity == m[k].identity
      && (PastAuthorized(m[k].state) ==> PastAuthorized(n[k].state))
  }

  predicate KeyedAttempts(m: map<Id, Attempt>) {
    forall k | k in m :: m[k].attemptId == k
  }

  predicate KeyedInvocations(m: map<Id, Invocation>) {
    forall k | k in m :: m[k].identity.invocationId == k
  }

  lemma AttemptCallsKeep(m: map<Id, Attempt>, a: Attempt)
    requires KeyedAttempts(m)
    ensures var n := Store(CreateAttempt(m, a), m); AttemptsKeep(m, n) && KeyedAttempts(n)
    ensures var n := Store(SaveAttempt(m, a), m); AttemptsKeep(m, n) && KeyedAttempts(n)
  {
    AttemptSavesAreMoves(m, a);
  }

  lemma InvocationCallsKeep(m: map<Id, Invocation>, i: Invocation, expected: Digest)
    requires KeyedInvocations(m)
    ensures var n := Store(CreateInvocation(m, i), m); InvocationsKeep(m, n) && KeyedInvocations(n)
    ensures var n := Store(SaveInvocation(m, i, expected), m); InvocationsKeep(m, n) && KeyedInvocations(n)
  {
    InvocationSavesAreMoves(m, i, expected);
  }

  lemma StoresKeepDurable(w: World, w': World)
    requires AllDurable(w)
    requires w'.dispatchers == w.dispatchers
    requires AttemptsKeep(w.attempts, w'.attempts) && InvocationsKeep(w.invocations, w'.invocations)
    ensures AllDurable(w')
  {
  }

  // ----- every event keeps the invariant

  lemma OtherAttemptCallsAreSafe(w: World, a: Attempt)
    requires Safe(w)
    ensures Safe(w.(attempts := Store(CreateAttempt(w.attempts, a), w.attempts)))
    ensures Safe(w.(attempts := Store(SaveAttempt(w.attempts, a), w.attempts)))
  {
    AttemptCallsKeep(w.attempts, a);
    SafeWithAttempts(w, Store(CreateAttempt(w.attempts, a), w.attempts));
    SafeWithAttempts(w, Store(SaveAttempt(w.attempts, a), w.attempts));
  }

  lemma OtherInvocationCallsAreSafe(w: World, i: Invocation, expected: Digest)
    requires Safe(w)
    ensures Safe(w.(invocations := Store(CreateInvocation(w.invocations, i), w.invocations)))
    ensures Safe(w.(invocations := Store(SaveInvocation(w.invocations, i, expected), w.invocations)))
  {
    InvocationCallsKeep(w.invocations, i, expected);
    SafeWithInvocations(w, Store(CreateInvocation(w.invocations, i), w.invocations));
    SafeWithInvocations(w, Store(SaveInvocation(w.invocations, i, expected), w.invocations));
  }

  lemma SafeWithAttempts(w: World, n: map<Id, Attempt>)
    requires Safe(w) && KeyedAttempts(n) && AttemptsKeep(w.attempts, n)
    ensures Safe(w.(attempts := n))
  {
    StoresKeepDurable(w, w.(attempts := n));
  }

  lemma SafeWithInvocations(w: World, n: map<Id, Invocation>)
    requires Safe(w) && KeyedInvocations(n) && InvocationsKeep(w.invocations, n)
    ensures Safe(w.(invocations := n))
  {
    StoresKeepDurable(w, w.(invocations := n));
  }

  /** A stage that promises no more than the old one. */
  lemma QuietStageIsSafe(w: World, t: nat, stage: Stage)
    requires Safe(w) && t in w.dispatchers
    requires Durable(w.attempts, w.invocations, w.dispatchers[t].(stage := stage))
    requires stage == w.dispatchers[t].stage || (!HasBound(stage) && !w.dispatchers[t].stage.Launched?)
    ensures Safe(SetStage(w, t, stage))
  {
  }

  lemma ReadsAreDurable(w: World, d: Dispatcher, e: Event)
    requires Keyed(w) && Durable(w.attempts, w.invocations, d)
    ensures Durable(w.attempts, w.invocations, d.(stage := Reads(w, d, e)))
    ensures Reads(w, d, e) == d.stage || (!HasBound(Reads(w, d, e)) && !d.stage.Launched?)
  {
  }

  lemma BindIsSafe(w: World, t: nat)
    requires Safe(w) && t in w.dispatchers
    ensures Safe(BindStep(w, t))
  {
    var stage := w.dispatchers[t].stage;
    if stage.Decided? {
      if SaveAttempt(w.attempts, stage.running).Err? {
        QuietStageIsSafe(w, t, Refused);
      } else {
        SavedBindingIsSafe(w, t);
      }
    }
  }

  lemma SavedBindingIsSafe(w: World, t: nat)
    requires Safe(w) && t in w.dispatchers && w.dispatchers[t].stage.Decided?
    requires SaveAttempt(w.attempts, w.dispatchers[t].stage.running).Ok?
    ensures Safe(BindStep(w, t))
  {
    var stage := w.dispatchers[t].stage;
    var v := w.(attempts := SaveAttempt(w.attempts, stage.running).value);
    AttemptSavesAreMoves(w.attempts, stage.running);
    AttemptCallsKeep(w.attempts, stage.running);
    SafeWithAttempts(w, v.attempts);
    assert w.attempts[stage.running.attemptId].runtimeIdentity.None?;
    NewBinderIsSafe(v, w, t);
  }

  /** The attempt had no runtime identity before, so nobody else had bound it. */
  lemma NewBinderIsSafe(v: World, w: World, t: nat)
    requires Safe(v) && AllDurable(w) && v.dispatchers == w.dispatchers
    requires t in v.dispatchers && v.dispatchers[t].stage.Decided?
    requires var stage := v.dispatchers[t].stage;
             && stage.i.identity.attemptId in w.attempts
             && w.attempts[stage.i.identity.attemptId].runtimeIdentity.None?
             && Durable(v.attempts, v.invocations, v.dispatchers[t].(stage := Bound(stage.i)))
    ensures Safe(SetStage(v, t, Bound(v.dispatchers[t].stage.i)))
  {
    forall u | u in w.dispatchers && HasBound(w.dispatchers[u].stage)
      ensures w.dispatchers[u].stage.i.identity.attemptId != v.dispatchers[t].stage.i.identity.attemptId
    {
      assert Durable(w.attempts, w.invocations, w.dispatchers[u]);
    }
  }

  lemma MarkIsSafe(w: World, t: nat)
    requires Safe(w) && t in w.dispatchers
    ensures Safe(MarkStep(w, t))
  {
    var stage := w.dispatchers[t].stage;
    if stage.Bound? {
      var dispatching := TransitionInvocation(stage.i, Dispatching, None, None, None);
      if dispatching.Err? || SaveInvocation(w.invocations, dispatching.value, OfInvocation(stage.i)).Err? {
        QuietStageIsSafe(w, t, Refused);
      } else {
        SavedMarkIsSafe(w, t, dispatching.value);
      }
    }
  }

  lemma SavedMarkIsSafe(w: World, t: nat, dispatching: Invocation)
    requires Safe(w) && t in w.dispatchers && w.dispatchers[t].stage.Bound?
    requires TransitionInvocation(w.dispatchers[t].stage.i, Dispatching, None, None, None) == Ok(dispatching)
    requires SaveInvocation(w.invocations, dispatching, OfInvocation(w.dispatchers[t].stage.i)).Ok?
    ensures Safe(MarkStep(w, t))
  {
    var i := w.dispatchers[t].stage.i;
    var v := w.(invocations := SaveInvocation(w.invocations, dispatching, OfInvocation(i)).value);
    InvocationSavesAreMoves(w.invocations, dispatching, OfInvocation(i));
    InvocationCallsKeep(w.invocations, dispatching, OfInvocation(i));
    SafeWithInvocations(w, v.invocations);
    NewMarkerIsSafe(v, w, t);
  }

  /** The stored invocation was still AUTHORIZED, so nobody else had marked it. */
  lemma NewMarkerIsSafe(v: World, w: World, t: nat)
    requires Safe(v) && AllDurable(w) && v.dispatchers == w.dispatchers
    requires t in v.dispatchers && v.dispatchers[t].stage.Bound?
    requires v.dispatchers[t].invocationId in w.invocations
    requires w.invocations[v.dispatchers[t].invocationId].state == Authorized
    requires Durable(v.attempts, v.invocations, v.dispatchers[t].(stage := Marked(v.dispatchers[t].stage.i)))
    ensures Safe(SetStage(v, t, Marked(v.dispatchers[t].stage.i)))
  {
    forall u | u in w.dispatchers && HasMarked(w.dispatchers[u].stage)
      ensures w.dispatchers[u].invocationId != v.dispatchers[t].invocationId
    {
      assert Durable(w.attempts, w.invocations, w.dispatchers[u]);
    }
  }

  lemma LaunchIsSafe(w: World, t: nat)
    requires Safe(w) && t in w.dispatchers
    ensures Safe(LaunchStep(w, t))
  {
    if w.dispatchers[t].stage.Marked? {
      assert Durable(w.attempts, w.invocations, w.dispatchers[t]);
    }
  }

  lemma StartIsSafe(w: World, t: nat, id: Id, expected: Digest, controller: string)
    requires Safe(w) && t !in w.dispatchers
    ensures Safe(w.(dispatchers := w.dispatchers[t := Dispatcher(id, expected, controller, Started)]))
  {
  }

  lemma ReadStepIsSafe(w: World, t: nat, e: Event)
    requires Safe(w) && t in w.dispatchers
    ensures Safe(SetStage(w, t, Reads(w, w.dispatchers[t], e)))
  {
    ReadsAreDurable(w, w.dispatchers[t], e);
    QuietStageIsSafe(w, t, Reads(w, w.dispatchers[t], e));
  }

  lemma NextIsSafe(w: World, e: Event)
    requires Safe(w)
    ensures Safe(Next(w, e))
  {
    match e
    case StartDispatch(t, id, expected, controller) =>
      if t !in w.dispatchers { StartIsSafe(w, t, id, expected, controller); }
    case SaveBinding(t) => if t in w.dispatchers { BindIsSafe(w, t); }
    case MarkInvocation(t) => if t in w.dispatchers { MarkIsSafe(w, t); }
    case CallAdapter(t) => if t in w.dispatchers { LaunchIsSafe(w, t); }
    case OtherCreateAttempt(a) => OtherAttemptCallsAreSafe(w, a);
    case OtherSaveAttempt(a) => OtherAttemptCallsAreSafe(w, a);
    case OtherCreateInvocation(i) => OtherInvocationCallsAreSafe(w, i, OfInvocation(i));
    case OtherSaveInvocation(i, expected) => OtherInvocationCallsAreSafe(w, i, expected);
    case _ => if e.t in w.dispatchers { ReadStepIsSafe(w, e.t, e); }
  }

  lemma {:induction false} RunIsSafe(w: World, es: seq<Event>)
    requires Safe(w)
    ensures Safe(RunEvents(w, es))
    decreases es
  {
    if es != [] {
      NextIsSafe(w, es[0]);
      RunIsSafe(Next(w, es[0]), es[1..]);
    }
  }

  // ----- a dispatcher that runs alone

  lemma {:induction false} RunTwice(w: World, es: seq<Event>, more: seq<Event>)
    ensures RunEvents(w, es + more) == RunEvents(RunEvents(w, es), more)
    decreases es
  {
    if es == [] {
      assert es + more == more;
    } else {
      assert (es + more)[1..] == es[1..] + more;
      RunTwice(Next(w, es[0]), es[1..], more);
    }
  }

  function LoadingEvents(id: Id, expected: Digest, controller: string): seq<Event> {
    [StartDispatch(0, id, expected, controller), LoadInvocation(0), CheckDispatch(0, true), LocateAttempt(0)]
  }

  function DecidingEvents(now: int): seq<Event> {
    [FetchAttempt(0), DecideBinding(0, now)]
  }

  const WRITING_EVENTS := [SaveBinding(0), MarkInvocation(0), CallAdapter(0)]

  lemma LoadingRuns(w: World, id: Id, expected: Digest, controller: string)
    requires w.dispatchers == map[] && id in w.invocations
    requires var i := w.invocations[id];
             OfIdentity(i.identity) == expected && i.state == Authorized && i.authorizedBy == Some(controller)
    ensures var i := w.invocations[id];
            RunEvents(w, LoadingEvents(id, expected, controller)) ==
            w.(dispatchers := map[0 := Dispatcher(id, expected, controller, Located(i, i.identity.attemptId))])
  {
    var es := LoadingEvents(id, expected, controller);
    var w1 := Next(w, es[0]);
    var w2 := Next(w1, es[1]);
    var w3 := Next(w2, es[2]);
    assert RunEvents(w, es) == RunEvents(w1, es[1..]);
    assert RunEvents(w1, es[1..]) == RunEvents(w2, es[1..][1..]);
    assert RunEvents(w2, es[1..][1..]) == RunEvents(w3, es[1..][1..][1..]);
    assert RunEvents(w3, es[1..][1..][1..]) == Next(w3, es[3]);
  }

  lemma DecidingRuns(w: World, d: Dispatcher, now: int, running: Attempt)
    requires w.dispatchers == map[0 := d] && d.invocationId in w.invocations
    requires var i := w.invocations[d.invocationId];
             && d.stage == Located(i, i.identity.attemptId)
             && i.state == Authorized && OfIdentity(i.identity) == d.expected
             && i.identity.attemptId in w.attempts
             && BindAuthorized(w.attempts[i.identity.attemptId], i, now) == Ok(running)
    ensures RunEvents(w, DecidingEvents(now)) ==
            w.(dispatchers := map[0 := d.(stage := Decided(w.invocations[d.invocationId], running))])
  {
    var es := DecidingEvents(now);
    var w1 := Next(w, es[0]);
    assert RunEvents(w, es) == RunEvents(w1, es[1..]);
    assert RunEvents(w1, es[1..]) == Next(w1, es[1]);
  }

  lemma WritingRuns(w: World, d: Dispatcher, running: Attempt, i: Invocation, dispatching: Invocation)
    requires w.dispatchers == map[0 := d] && w.launches == []
    requires d.stage == Decided(i, running)
    requires SaveAttempt(w.attempts, running) == Ok(w.attempts[running.attemptId := running])
    requires TransitionInvocation(i, Dispatching, None, None, None) == Ok(dispatching)
    requires SaveInvocation(w.invocations, dispatching, OfInvocation(i)) ==
             Ok(w.invocations[dispatching.identity.invocationId := dispatching])
    ensures var v := RunEvents(w, WRITING_EVENTS);
            && v.attempts == w.attempts[running.attemptId := running]
            && v.invocations == w.invocations[dispatching.identity.invocationId := dispatching]
            && v.launches == [0]
  {
    var es := WRITING_EVENTS;
    var w1 := Next(w, es[0]);
    var w2 := Next(w1, es[1]);
    assert RunEvents(w, es) == RunEvents(w1, es[1..]);
    assert RunEvents(w1, es[1..]) == RunEvents(w2, es[2..]) by { assert es[1..][1..] == es[2..]; }
    assert RunEvents(w2, es[2..]) == Next(w2, es[2]);
  }

  lemma TwoWrites(s: Stores, running: Attempt, dispatching: Invocation)
    ensures var t := ApplyAll(s, [PutAttempt(running), PutInvocation(dispatching)]);
            && t.attempts == s.attempts[running.attemptId := running]
            && t.invocations == s.invocations[dispatching.identity.invocationId := dispatching]
  {
    var ws := [PutAttempt(running), PutInvocation(dispatching)];
    var t := Apply(s, ws[0]);
    assert ws[1..] == [ws[1]] && ws[1..][1..] == [];
    assert ApplyAll(s, ws) == ApplyAll(t, [ws[1]]) == Apply(t, ws[1]);
  }

  /** Alone, a dispatcher that passes its checks makes the first two writes of
      `dispatch_invocation` and then launches once. */
  lemma SoloDispatchLaunches(s: Stores, id: Id, expected: Digest, controller: string, v: Commands.DispatchWorld)
    requires Commands.DispatchGuard(s, id, expected, controller, v).Ok?
    requires |Commands.DispatchEffect(s, id, expected, controller, v).writes| >= 2
    ensures var es := LoadingEvents(id, expected, controller) + (DecidingEvents(v.boundAt) + WRITING_EVENTS);
            var w := RunEvents(World(s.attempts, s.invocations, map[], []), es);
            var two := Commands.DispatchEffect(s, id, expected, controller, v).writes[..2];
            && w.launches == [0]
            && w.attempts == ApplyAll(s, two).attempts
            && w.invocations == ApplyAll(s, two).invocations
  {
    var running, dispatching := FirstTwoWrites(s, id, expected, controller, v);
    TwoWrites(s, running, dispatching);
    SoloRun(World(s.attempts, s.invocations, map[], []), id, expected, controller, v.boundAt, running, dispatching);
  }

  lemma SoloRun(w: World, id: Id, expected: Digest, controller: string, now: int, running: Attempt, dispatching: Invocation)
    requires w.dispatchers == map[] && w.launches == [] && id in w.invocations
    requires var i := w.invocations[id];
             && OfIdentity(i.identity) == expected && i.state == Authorized && i.authorizedBy == Some(controller)
             && i.identity.attemptId in w.attempts
             && BindAuthorized(w.attempts[i.identity.attemptId], i, now) == Ok(running)
             && SaveAttempt(w.attempts, running) == Ok(w.attempts[running.attemptId := running])
             && TransitionInvocation(i, Dispatching, None, None, None) == Ok(dispatching)
             && SaveInvocation(w.invocations, dispatching, OfInvocation(i)) ==
                Ok(w.invocations[dispatching.identity.invocationId := dispatching])
    ensures var v := RunEvents(w, LoadingEvents(id, expected, controller) + (DecidingEvents(now) + WRITING_EVENTS));
            && v.attempts == w.attempts[running.attemptId := running]
            && v.invocations == w.invocations[dispatching.identity.invocationId := dispatching]
            && v.launches == [0]
  {
    var i := w.invocations[id];
    var located := Dispatcher(id, expected, controller, Located(i, i.identity.attemptId));
    var decided := located.(stage := Decided(i, running));
    RunTwice(w, LoadingEvents(id, expected, controller), DecidingEvents(now) + WRITING_EVENTS);
    LoadingRuns(w, id, expected, controller);
    var u := w.(dispatchers := map[0 := located]);
    RunTwice(u, DecidingEvents(now), WRITING_EVENTS);
    DecidingRuns(u, located, now, running);
    WritingRuns(w.(dispatchers := map[0 := decided]), decided, running, i, dispatching);
  }

  lemma FirstTwoWrites(s: Stores, id: Id, expected: Digest, controller: string, v: Commands.DispatchWorld)
    returns (running: Attempt, dispatching: Invocation)
    requires Commands.DispatchGuard(s, id, expected, controller, v).Ok?
    requires |Commands.DispatchEffect(s, id, expected, controller, v).writes| >= 2
    ensures id in s.invocations
    ensures var i := s.invocations[id];
            && OfIdentity(i.identity) == expected && i.state == Authorized && i.authorizedBy == Some(controller)
            && i.identity.attemptId in s.attempts
            && BindAuthorized(s.attempts[i.identity.attemptId], i, v.boundAt) == Ok(running)
            && SaveAttempt(s.attempts, running) == Ok(s.attempts[running.attemptId := running])
            && TransitionInvocation(i, Dispatching, None, None, None) == Ok(dispatching)
            && SaveInvocation(s.invocations, dispatching, OfInvocation(i)) ==
               Ok(s.invocations[dispatching.identity.invocationId := dispatching])
    ensures Commands.DispatchEffect(s, id, expected, controller, v).writes[..2] ==
            [PutAttempt(running), PutInvocation(dispatching)]
  {
    var i := s.invocations[id];
    running := Commands.BindGuard(s, id, expected, v.boundAt).value;
    var rest := Commands.MarkDispatching(Apply(s, PutAttempt(running)), i, v);
    assert Commands.DispatchEffect(s, id, expected, controller, v) == Commands.Put(PutAttempt(running), rest);
    dispatching := MarkWrite(Apply(s, PutAttempt(running)), i, v);
  }

  lemma MarkWrite(s: Stores, i: Invocation, v: Commands.DispatchWorld) returns (dispatching: Invocation)
    requires Commands.MarkDispatching(s, i, v).writes != []
    ensures TransitionInvocation(i, Dispatching, None, None, None) == Ok(dispatching)
    ensures SaveInvocation(s.invocations, dispatching, OfInvocation(i)) ==
            Ok(s.invocations[dispatching.identity.invocationId := dispatching])
    ensures Commands.MarkDispatching(s, i, v).writes[0] == PutInvocation(dispatching)
  {
    dispatching := TransitionInvocation(i, Dispatching, None, None, None).value;
  }

  // ----- the main result

  function LaunchOf(w: World, k: nat): InvocationIdentity
    requires LogIsTrue(w) && k < |w.launches|
  {
    w.dispatchers[w.launches[k]].stage.i.identity
  }

  /** Whatever was stored before, and however dispatchers and other store calls
      interleave, no two launches share an invocation or an attempt, and each
      launched invocation is durably past AUTHORIZED and durably named by its
      attempt's runtime identity. */
  lemma AtMostOneLaunch(attempts: map<Id, Attempt>, invocations: map<Id, Invocation>, es: seq<Event>)
    requires KeyedAttempts(attempts) && KeyedInvocations(invocations)
    ensures var w := RunEvents(World(attempts, invocations, map[], []), es);
            && LogIsTrue(w)
            && (forall j, k | 0 <= j < k < |w.launches| ::
                  && LaunchOf(w, j).invocationId != LaunchOf(w, k).invocationId
                  && LaunchOf(w, j).attemptId != LaunchOf(w, k).attemptId)
            && (forall k | 0 <= k < |w.launches| ::
                  var i := LaunchOf(w, k);
                  && i.invocationId in w.invocations
                  && w.invocations[i.invocationId].identity == i
                  && PastAuthorized(w.invocations[i.invocationId].state)
                  && i.attemptId in w.attempts
                  && w.attempts[i.attemptId].runtimeIdentity == Some(OfIdentity(i)))
  {
    var start := World(attempts, invocations, map[], []);
    RunIsSafe(start, es);
    var w := RunEvents(start, es);
    forall k | 0 <= k < |w.launches|
      ensures Durable(w.attempts, w.invocations, w.dispatchers[w.launches[k]])
    {
    }
  }
}
