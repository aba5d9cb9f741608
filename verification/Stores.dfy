/** The durable state directory: one record per file, replaced atomically.

    The functions say what each guarded store call accepts; the class is the
    directory itself.  A write that fails before its replace and a process that
    dies just before it leave the same files, so both are one fault here:
    `writesLeft` is how many more writes will reach the disk. */
module Stores {
  import opened Outcomes
  import opened Records
  import opened Lifecycle

  datatype Stores = Stores(
    attempts: map<Id, Attempt>,
    invocations: map<Id, Invocation>,
    custody: map<Id, Custody>,
    results: map<Id, ResultRecord>,
    receipts: map<Id, Receipt>,
    contents: map<Reference, Content>)

  const EMPTY := Stores(map[], map[], map[], map[], map[], map[])

  /** One atomic change of the directory. */
  datatype Write =
    | PutAttempt(attempt: Attempt)
    | PutInvocation(invocation: Invocation)
    | PutCustody(custody: Custody)
    | PutResult(result: ResultRecord)
    | PutReceipt(receipt: Receipt)
    | DropReceipt(attemptId: Id)
    | PutContent(reference: Reference, content: Content)

  function Apply(s: Stores, w: Write): Stores {
    match w
    case PutAttempt(a) => s.(attempts := s.attempts[a.attemptId := a])
    case PutInvocation(i) => s.(invocations := s.invocations[i.identity.invocationId := i])
    case PutCustody(c) => s.(custody := s.custody[c.invocationId := c])
    case PutResult(r) => s.(results := s.results[r.invocationId := r])
    case PutReceipt(p) => s.(receipts := s.receipts[p.attemptId := p])
    case DropReceipt(id) => s.(receipts := s.receipts - {id})
    case PutContent(f, c) => s.(contents := s.contents[f := c])
  }

  function ApplyAll(s: Stores, ws: seq<Write>): Stores
    decreases ws
  {
    if ws == [] then s else ApplyAll(Apply(s, ws[0]), ws[1..])
  }

  // ----- attempt store

  /** The walk of `_validate_retry_link` from `current`, having seen `seen`. */
  function RetryWalk(m: map<Id, Attempt>, current: Option<Id>, seen: set<Id>, first: bool): (r: Result<()>)
    decreases m.Keys - seen
  {
    if current.None? then Ok(())
    else if current.value in seen then Err("ATTEMPT_RETRY_CYCLE")
    else if current.value !in m then Err("ATTEMPT_PRIOR_MISSING")
    else if first && !TerminalAttempt(m[current.value].state) then Err("ATTEMPT_PRIOR_ACTIVE")
    else RetryWalk(m, m[current.value].priorAttemptId, seen + {current.value}, false)
  }

  function RetryLink(m: map<Id, Attempt>, a: Attempt): (r: Result<()>) {
    if a.priorAttemptId == Some(a.attemptId) then Err("ATTEMPT_RETRY_CYCLE")
    else RetryWalk(m, a.priorAttemptId, {a.attemptId}, true)
  }

  function CreateAttempt(m: map<Id, Attempt>, a: Attempt): (r: Result<map<Id, Attempt>>) {
    if a.state != Draft || a.candidateDigest.Some? || a.cleanupOutcome.Some? then
      Err("ATTEMPT_CREATE_STATE_INVALID")
    else if !ValidAttempt(a) then Err("RECORD_INVALID")
    else if a.attemptId in m then Err("ATTEMPT_EXISTS")
    else
      var _ :- RetryLink(m, a);
      Ok(m[a.attemptId := a])
  }

  function SaveAttempt(m: map<Id, Attempt>, updated: Attempt): (r: Result<map<Id, Attempt>>) {
    if updated.attemptId !in m then Err("STORAGE_RECORD_MISSING")
    else
      var current := m[updated.attemptId];
      if TerminalAttempt(current.state) then Err("ATTEMPT_TERMINAL_IMMUTABLE")
      else if !SameAttemptIdentity(current, updated) then Err("ATTEMPT_IDENTITY_IMMUTABLE")
      else
        var expected :- TransitionAttempt(
                          current, updated.state, updated.updatedAt,
                          if updated.state == Candidate then updated.candidateDigest else None,
                          if updated.state == Running then updated.runtimeIdentity else None,
                          if TerminalAttempt(updated.state) then updated.cleanupOutcome else None);
        if expected != updated then Err("ATTEMPT_TRANSITION_INVALID") else Ok(m[updated.attemptId := updated])
  }

  // ----- invocation store

  function CreateInvocation(m: map<Id, Invocation>, i: Invocation): (r: Result<map<Id, Invocation>>) {
    if i.state != Prepared || i.resultDigest.Some? then Err("INTEGRATION_CREATE_INVALID")
    else if !ValidInvocation(i) then Err("INTEGRATION_INVOCATION_INVALID")
    else if i.identity.invocationId in m then Err("INTEGRATION_INVOCATION_EXISTS")
    else Ok(m[i.identity.invocationId := i])
  }

  function SaveInvocation(m: map<Id, Invocation>, updated: Invocation, expectedDigest: Digest): (r: Result<map<Id, Invocation>>) {
    if updated.identity.invocationId !in m then Err("STORAGE_RECORD_MISSING")
    else
      var current := m[updated.identity.invocationId];
      if OfInvocation(current) != expectedDigest then Err("INTEGRATION_STALE_WRITE")
      else if TerminalInvocation(current.state) then Err("INTEGRATION_TERMINAL_IMMUTABLE")
      else if current.identity != updated.identity then Err("INTEGRATION_IDENTITY_IMMUTABLE")
      else
        var expected :- TransitionInvocation(
                          current, updated.state,
                          if updated.state == Authorized then updated.authorizedBy else None,
                          if updated.state == Authorized then updated.authorizedAt else None,
                          updated.resultDigest);
        if expected != updated then Err("INTEGRATION_TRANSITION_INVALID")
        else Ok(m[updated.identity.invocationId := updated])
  }

  // ----- custody store

  function CreateCustody(m: map<Id, Custody>, c: Custody): (r: Result<map<Id, Custody>>) {
    if c.state != PreparedCustody || !ValidCustody(c) then Err("INTEGRATION_CUSTODY_INVALID")
    else if c.invocationId in m then Err("INTEGRATION_CUSTODY_EXISTS")
    else Ok(m[c.invocationId := c])
  }

  predicate SameCustodyIdentity(a: Custody, b: Custody) {
    && a.invocationDigest == b.invocationDigest
    && a.invocationId == b.invocationId
    && a.controllerPid == b.controllerPid
    && a.controllerTime == b.controllerTime
    && a.workspaceContentDigest == b.workspaceContentDigest
  }

  function SaveCustody(m: map<Id, Custody>, updated: Custody, expectedDigest: Digest): (r: Result<map<Id, Custody>>) {
    if updated.invocationId !in m then Err("STORAGE_RECORD_MISSING")
    else
      var current := m[updated.invocationId];
      if current.state == AbsenceVerified then Err("INTEGRATION_CUSTODY_TERMINAL")
      else if OfCustody(current) != expectedDigest then Err("INTEGRATION_CUSTODY_STALE_WRITE")
      else if !SameCustodyIdentity(current, updated) then Err("INTEGRATION_CUSTODY_INVALID")
      else if
        && current.adapterPid.Some?
        && (updated.adapterPid != current.adapterPid || updated.adapterTime != current.adapterTime)
      then Err("INTEGRATION_CUSTODY_INVALID")
      else if current.firstFailure.Some? && updated.firstFailure != current.firstFailure then
        Err("INTEGRATION_CUSTODY_INVALID")
      else if updated.state !in LegalCustodyTargets(current.state) then
        Err("INTEGRATION_CUSTODY_TRANSITION_INVALID")
      else if !ValidCustody(updated) then Err("INTEGRATION_CUSTODY_INVALID")
      else Ok(m[updated.invocationId := updated])
  }

  // ----- the directory

  /** A single write may also raise without having persisted, or after it has. */
  datatype WriteFault = Persists | RaisesBefore | RaisesAfter

  /** The directory together with the number of writes that will still succeed. */
  datatype Disk = Disk(stores: Stores, writesLeft: nat)

  function WriteOn(d: Disk, w: Write): (Disk, Result<()>) {
    if d.writesLeft == 0 then (d, Err("STORAGE_WRITE_FAILED"))
    else (Disk(Apply(d.stores, w), d.writesLeft - 1), Ok(()))
  }

  /** A store call: its guard refuses with a code, or its one write is tried. */
  function GuardedWrite<T>(guard: Result<T>, d: Disk, w: Write): (Disk, Result<()>) {
    if guard.Err? then (d, Err(guard.code)) else WriteOn(d, w)
  }

  class StateRoot {
    var attempts: map<Id, Attempt>
    var invocations: map<Id, Invocation>
    var custody: map<Id, Custody>
    var results: map<Id, ResultRecord>
    var receipts: map<Id, Receipt>
    var contents: map<Reference, Content>
    var writesLeft: nat

    function State(): Stores
      reads this
    {
      Stores(attempts, invocations, custody, results, receipts, contents)
    }

    constructor (s: Stores, writesLeft: nat)
      ensures State() == s && this.writesLeft == writesLeft
    {
      attempts, invocations, custody := s.attempts, s.invocations, s.custody;
      results, receipts, contents := s.results, s.receipts, s.contents;
      this.writesLeft := writesLeft;
    }

    function Now(): Disk
      reads this
    {
      Disk(State(), writesLeft)
    }

    /** One atomic replace, or the fault that prevents it. */
    method Write(w: Write) returns (r: Result<()>)
      modifies this
      ensures (Now(), r) == WriteOn(old(Now()), w)
    {
      if writesLeft == 0 {
        return Err("STORAGE_WRITE_FAILED");
      }
      writesLeft := writesLeft - 1;
      match w {
        case PutAttempt(a) => attempts := attempts[a.attemptId := a];
        case PutInvocation(i) => invocations := invocations[i.identity.invocationId := i];
        case PutCustody(c) => custody := custody[c.invocationId := c];
        case PutResult(x) => results := results[x.invocationId := x];
        case PutReceipt(p) => receipts := receipts[p.attemptId := p];
        case DropReceipt(id) => receipts := receipts - {id};
        case PutContent(f, c) => contents := contents[f := c];
      }
      return Ok(());
    }

    /** Follows the prior attempts of a new attempt until the chain ends. */
    method ValidateRetryLink(attempt: Attempt) returns (r: Result<()>)
      ensures r == RetryLink(attempts, attempt)
    {
      if attempt.priorAttemptId == Some(attempt.attemptId) {
        return Err("ATTEMPT_RETRY_CYCLE");
      }
      var seen := {attempt.attemptId};
      var currentId := attempt.priorAttemptId;
      var first := true;
      while currentId.Some?
        invariant RetryWalk(attempts, currentId, seen, first) == RetryLink(attempts, attempt)
        decreases attempts.Keys - seen
      {
        var id := currentId.value;
        if id in seen {
          return Err("ATTEMPT_RETRY_CYCLE");
        }
        if id !in attempts {
          return Err("ATTEMPT_PRIOR_MISSING");
        }
        seen := seen + {id};
        var prior := attempts[id];
        if first && !TerminalAttempt(prior.state) {
          return Err("ATTEMPT_PRIOR_ACTIVE");
        }
        first := false;
        currentId := prior.priorAttemptId;
      }
      return Ok(());
    }

    method CreateNewAttempt(attempt: Attempt) returns (r: Result<()>)
      modifies this
      ensures (Now(), r) == GuardedWrite(CreateAttempt(old(attempts), attempt), old(Now()), PutAttempt(attempt))
    {
      if attempt.state != Draft || attempt.candidateDigest.Some? || attempt.cleanupOutcome.Some? {
        return Err("ATTEMPT_CREATE_STATE_INVALID");
      }
      if !ValidAttempt(attempt) {
        return Err("RECORD_INVALID");
      }
      if attempt.attemptId in attempts {
        return Err("ATTEMPT_EXISTS");
      }
      if attempt.priorAttemptId.Some? {
        var link := ValidateRetryLink(attempt);
        if link.Err? {
          return link;
        }
      }
      r := Write(PutAttempt(attempt));
    }

    method SaveAttemptTransition(updated: Attempt) returns (r: Result<()>)
      modifies this
      ensures (Now(), r) == GuardedWrite(SaveAttempt(old(attempts), updated), old(Now()), PutAttempt(updated))
    {
      if updated.attemptId !in attempts {
        return Err("STORAGE_RECORD_MISSING");
      }
      var current := attempts[updated.attemptId];
      if TerminalAttempt(current.state) {
        return Err("ATTEMPT_TERMINAL_IMMUTABLE");
      }
      if !SameAttemptIdentity(current, updated) {
        return Err("ATTEMPT_IDENTITY_IMMUTABLE");
      }
      var expected := TransitionAttempt(
        current, updated.state, updated.updatedAt,
        if updated.state == Candidate then updated.candidateDigest else None,
        if updated.state == Running then updated.runtimeIdentity else None,
        if TerminalAttempt(updated.state) then updated.cleanupOutcome else None);
      if expected.Err? {
        return Err(expected.code);
      }
      if expected.value != updated {
        return Err("ATTEMPT_TRANSITION_INVALID");
      }
      r := Write(PutAttempt(updated));
    }

    method CreateNewInvocation(invocation: Invocation) returns (r: Result<()>)
      modifies this
      ensures (Now(), r) == GuardedWrite(CreateInvocation(old(invocations), invocation), old(Now()), PutInvocation(invocation))
    {
      if invocation.state != Prepared || invocation.resultDigest.Some? {
        return Err("INTEGRATION_CREATE_INVALID");
      }
      if !ValidInvocation(invocation) {
        return Err("INTEGRATION_INVOCATION_INVALID");
      }
      if invocation.identity.invocationId in invocations {
        return Err("INTEGRATION_INVOCATION_EXISTS");
      }
      r := Write(PutInvocation(invocation));
    }

    method SaveInvocationTransition(updated: Invocation, expectedDigest: Digest) returns (r: Result<()>)
      modifies this
      ensures (Now(), r) == GuardedWrite(SaveInvocation(old(invocations), updated, expectedDigest), old(Now()), PutInvocation(updated))
    {
      if updated.identity.invocationId !in invocations {
        return Err("STORAGE_RECORD_MISSING");
      }
      var current := invocations[updated.identity.invocationId];
      if OfInvocation(current) != expectedDigest {
        return Err("INTEGRATION_STALE_WRITE");
      }
      if TerminalInvocation(current.state) {
        return Err("INTEGRATION_TERMINAL_IMMUTABLE");
      }
      if current.identity != updated.identity {
        return Err("INTEGRATION_IDENTITY_IMMUTABLE");
      }
      var expected := TransitionInvocation(
        current, updated.state,
        if updated.state == Authorized then updated.authorizedBy else None,
        if updated.state == Authorized then updated.authorizedAt else None,
        updated.resultDigest);
      if expected.Err? {
        return Err(expected.code);
      }
      if expected.value != updated {
        return Err("INTEGRATION_TRANSITION_INVALID");
      }
      r := Write(PutInvocation(updated));
    }

    method CreateNewCustody(record: Custody) returns (r: Result<()>)
      modifies this
      ensures (Now(), r) == GuardedWrite(CreateCustody(old(custody), record), old(Now()), PutCustody(record))
    {
      if record.state != PreparedCustody || !ValidCustody(record) {
        return Err("INTEGRATION_CUSTODY_INVALID");
      }
      if record.invocationId in custody {
        return Err("INTEGRATION_CUSTODY_EXISTS");
      }
      r := Write(PutCustody(record));
    }

    method SaveCustodyTransition(updated: Custody, expectedDigest: Digest) returns (r: Result<()>)
      modifies this
      ensures (Now(), r) == GuardedWrite(SaveCustody(old(custody), updated, expectedDigest), old(Now()), PutCustody(updated))
    {
      if updated.invocationId !in custody {
        return Err("STORAGE_RECORD_MISSING");
      }
      var current := custody[updated.invocationId];
      if current.state == AbsenceVerified {
        return Err("INTEGRATION_CUSTODY_TERMINAL");
      }
      if OfCustody(current) != expectedDigest {
        return Err("INTEGRATION_CUSTODY_STALE_WRITE");
      }
      if !SameCustodyIdentity(current, updated) {
        return Err("INTEGRATION_CUSTODY_INVALID");
      }
      if
        && current.adapterPid.Some?
        && (updated.adapterPid != current.adapterPid || updated.adapterTime != current.adapterTime)
      {
        return Err("INTEGRATION_CUSTODY_INVALID");
      }
      if current.firstFailure.Some? && updated.firstFailure != current.firstFailure {
        return Err("INTEGRATION_CUSTODY_INVALID");
      }
      if updated.state !in LegalCustodyTargets(current.state) {
        return Err("INTEGRATION_CUSTODY_TRANSITION_INVALID");
      }
      if !ValidCustody(updated) {
        return Err("INTEGRATION_CUSTODY_INVALID");
      }
      r := Write(PutCustody(updated));
    }
  }
}
