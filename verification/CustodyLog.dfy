/** The custody store as one runner sees it: a write may raise before or after
    it has persisted, and a ghost log keeps what was stored and observed. */
module CustodyLog {
  import opened Outcomes
  import opened Records
  import opened Lifecycle
  import opened Stores
  import opened Moves

  predicate NoFaults(faults: seq<WriteFault>) {
    RaisesBefore !in faults && RaisesAfter !in faults
  }

  /** A stored record, or the answer to a query for the number of active
      processes; a query that failed answered nothing. */
  datatype Entry = Stored(record: Custody) | Seen(count: Option<nat>)

  /** The last stored record of a log. */
  function LastStored(log: seq<Entry>): Option<Custody> {
    if log == [] then None
    else if log[|log| - 1].Stored? then Some(log[|log| - 1].record)
    else LastStored(log[..|log| - 1])
  }

  /** The answer to the last query of a log. */
  function LastSeen(log: seq<Entry>): Option<Option<nat>> {
    if log == [] then None
    else if log[|log| - 1].Seen? then Some(log[|log| - 1].count)
    else LastSeen(log[..|log| - 1])
  }

  /** A record that may be stored after `log`: it claims no more than the last
      query has shown, and it follows the record stored before it. */
  predicate Truthful(log: seq<Entry>, c: Custody) {
    && ValidCustody(c)
    && (match LastStored(log)
        case None => c.state == PreparedCustody
        case Some(d) => CustodyMoves(d, c))
    && Observed(LastSeen(log), c)
  }

  predicate Observed(seen: Option<Option<nat>>, c: Custody) {
    match c.state
    case PreparedCustody => c.activeCount.None?
    case Assigned => c.activeCount.None?
    case DispatchingCustody => c.activeCount.None?
    case AbsenceVerified => seen == Some(Some(0))
    case _ => Ended(seen, c)
  }

  /** Without an answer the outcome is uncertain and no count is recorded. */
  predicate Ended(seen: Option<Option<nat>>, c: Custody) {
    match seen
    case None => c.state == UncertainCustody && c.activeCount.None?
    case Some(None) => c.state == UncertainCustody && c.activeCount.None?
    case Some(count) => c.activeCount == count
  }

  /** Every record of the log was truthful when it was stored. */
  ghost predicate TruthfulLog(log: seq<Entry>) {
    forall k | 0 <= k < |log| && log[k].Stored? :: Truthful(log[..k], log[k].record)
  }

  lemma LogGrows(log: seq<Entry>, e: Entry)
    requires TruthfulLog(log) && (e.Stored? ==> Truthful(log, e.record))
    ensures TruthfulLog(log + [e])
    ensures LastStored(log + [e]) == if e.Stored? then Some(e.record) else LastStored(log)
    ensures LastSeen(log + [e]) == if e.Seen? then Some(e.count) else LastSeen(log)
  {
    var more := log + [e];
    assert more[..|more| - 1] == log;
    forall k | 0 <= k < |more| && more[k].Stored?
      ensures Truthful(more[..k], more[k].record)
    {
      if k < |log| {
        assert more[..k] == log[..k];
      } else {
        assert more[..k] == log;
      }
    }
  }

  lemma {:induction false} LastSeenOccurs(log: seq<Entry>)
    requires LastSeen(log).Some?
    ensures Seen(LastSeen(log).value) in log
  {
    if !log[|log| - 1].Seen? {
      LastSeenOccurs(log[..|log| - 1]);
    }
  }

  /** What a truthful log says about one stored record: verified absence comes
      after an observed zero, a recorded count was observed, and after a query
      that failed the outcome is uncertain. */
  lemma TruthfulRecord(log: seq<Entry>, k: nat)
    requires TruthfulLog(log) && k < |log| && log[k].Stored?
    ensures var c := log[k].record;
            && (c.state == AbsenceVerified ==> Seen(Some(0)) in log[..k])
            && (c.activeCount.Some? ==> Seen(c.activeCount) in log[..k])
            && (c.state in {Exited, Terminated, UncertainCustody} && LastSeen(log[..k]) == Some(None) ==>
                  c.state == UncertainCustody && c.activeCount.None?)
  {
    assert Truthful(log[..k], log[k].record);
    if LastSeen(log[..k]).Some? {
      LastSeenOccurs(log[..k]);
    }
  }

  class CustodyDisk {
    const id: Id
    var custody: map<Id, Custody>
    var faults: seq<WriteFault>
    ghost var log: seq<Entry>

    /** The log is truthful and ends in the durable record. */
    ghost predicate Valid()
      reads this
    {
      && TruthfulLog(log)
      && (log != [] ==> LastStored(log) == if id in custody then Some(custody[id]) else None)
    }

    constructor (id: Id, custody: map<Id, Custody>, faults: seq<WriteFault>)
      ensures Valid() && log == []
      ensures this.id == id && this.custody == custody && this.faults == faults
    {
      this.id, this.custody, this.faults, log := id, custody, faults, [];
    }

    /** One replace of the record, with the next fault. */
    method Write(c: Custody) returns (ok: bool)
      requires Valid() && c.invocationId == id && Truthful(log, c)
      requires log == [] ==> id !in custody
      modifies this
      ensures Valid()
      ensures NoFaults(old(faults)) ==> ok
      ensures var fault := if old(faults) == [] then Persists else old(faults)[0];
              && faults == (if old(faults) == [] then [] else old(faults)[1..])
              && ok == (fault == Persists)
              && custody == (if fault == RaisesBefore then old(custody) else old(custody)[id := c])
              && log == (if fault == RaisesBefore then old(log) else old(log) + [Stored(c)])
    {
      var fault := if faults == [] then Persists else faults[0];
      assert faults != [] ==> faults[0] in faults;
      faults := if faults == [] then [] else faults[1..];
      if fault != RaisesBefore {
        LogGrows(log, Stored(c));
        custody := custody[c.invocationId := c];
        log := log + [Stored(c)];
      }
      return fault == Persists;
    }

    ghost predicate AfterWrite(c: Custody, ok: bool, before: map<Id, Custody>, beforeLog: seq<Entry>, beforeFaults: seq<WriteFault>)
      reads this
    {
      var fault := if beforeFaults == [] then Persists else beforeFaults[0];
      && faults == (if beforeFaults == [] then [] else beforeFaults[1..])
      && ok == (fault == Persists)
      && custody == (if fault == RaisesBefore then before else before[id := c])
      && log == (if fault == RaisesBefore then beforeLog else beforeLog + [Stored(c)])
    }

    method Create(c: Custody) returns (ok: bool)
      requires Valid() && log == [] && c.invocationId == id && c.activeCount.None?
      modifies this
      ensures Valid()
      ensures CreateCustody(old(custody), c).Ok? && NoFaults(old(faults)) ==> ok
      ensures if CreateCustody(old(custody), c).Ok? then AfterWrite(c, ok, old(custody), old(log), old(faults))
              else !ok && custody == old(custody) && log == old(log) && faults == old(faults)
    {
      if c.state != PreparedCustody || !ValidCustody(c) || id in custody {
        return false;
      }
      ok := Write(c);
    }

    /** A guarded transition.  What the guard lets pass must be truthful. */
    method Save(updated: Custody, expected: Digest) returns (ok: bool)
      requires Valid() && log != [] && updated.invocationId == id
      requires SaveCustody(custody, updated, expected).Ok? ==> Truthful(log, updated)
      modifies this
      ensures Valid()
      ensures SaveCustody(old(custody), updated, expected).Ok? && NoFaults(old(faults)) ==> ok
      ensures if SaveCustody(old(custody), updated, expected).Ok? then
                AfterWrite(updated, ok, old(custody), old(log), old(faults))
              else !ok && custody == old(custody) && log == old(log) && faults == old(faults)
    {
      var guard := SaveCustody(custody, updated, expected);
      if guard.Err? {
        return false;
      }
      ok := Write(updated);
    }

    /** Asks the job object how many processes are active. */
    method Query(answer: Option<nat>) returns (count: Option<nat>)
      requires Valid() && log != []
      modifies this`log
      ensures Valid() && count == answer && log == old(log) + [Seen(answer)]
    {
      LogGrows(log, Seen(answer));
      log := log + [Seen(answer)];
      return answer;
    }
  }
}
