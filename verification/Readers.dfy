/** The two threads that drain the adapter's output into bounded buffers.

    Each thread runs `_drain_bounded`; they share one overflow flag and one list
    of names.  A schedule says which thread takes the next step. */
module Readers {
  import opened Records

  /** Where a thread is: at a read, or between the check of the flag, the
      append of its name and the setting of the flag. */
  datatype Stage = Reading | Checking | Naming | Setting | Done

  datatype Reader = Reader(name: string, limit: nat, pending: seq<Bytes>, buffer: Bytes, stage: Stage)

  datatype Readers = Readers(out: Reader, err: Reader, overflow: bool, names: seq<string>)

  function Concat(chunks: seq<Bytes>): Bytes {
    if chunks == [] then [] else chunks[0] + Concat(chunks[1..])
  }

  function Take(s: Bytes, n: nat): Bytes {
    if n <= |s| then s[..n] else s
  }

  /** One read: what fits is kept, and a chunk that does not fit is noticed. */
  function Read(r: Reader): Reader {
    if r.pending == [] then r.(stage := Done)
    else
      var chunk := r.pending[0];
      var remaining := if |r.buffer| <= r.limit then r.limit - |r.buffer| else 0;
      r.(pending := r.pending[1..],
         buffer := r.buffer + Take(chunk, remaining),
         stage := if |chunk| > remaining then Checking else Reading)
  }

  /** One step of a thread that sees the shared state. */
  function StepReader(r: Reader, overflow: bool, names: seq<string>): (Reader, bool, seq<string>) {
    match r.stage
    case Reading => (Read(r), overflow, names)
    case Checking => (r.(stage := if overflow then Reading else Naming), overflow, names)
    case Naming => (r.(stage := Setting), overflow, names + [r.name])
    case Setting => (r.(stage := Reading), true, names)
    case Done => (r, overflow, names)
  }

  function Step(s: Readers, first: bool): Readers {
    if first then
      var (r, overflow, names) := StepReader(s.out, s.overflow, s.names);
      Readers(r, s.err, overflow, names)
    else
      var (r, overflow, names) := StepReader(s.err, s.overflow, s.names);
      Readers(s.out, r, overflow, names)
  }

  function RunSchedule(s: Readers, schedule: seq<bool>): Readers
    decreases schedule
  {
    if schedule == [] then s else RunSchedule(Step(s, schedule[0]), schedule[1..])
  }

  function Start(name: string, limit: nat, chunks: seq<Bytes>): Reader {
    Reader(name, limit, chunks, [], Reading)
  }

  predicate Exceeds(stream: Bytes, limit: nat) {
    |stream| > limit
  }

  // ----- the invariant

  /** A thread has read `seen` of its stream and kept what fits of it. */
  ghost predicate ReaderInv(r: Reader, stream: Bytes, seen: Bytes) {
    && stream == seen + Concat(r.pending)
    && r.buffer == Take(seen, r.limit)
    && (r.stage in {Checking, Naming, Setting} ==> Exceeds(seen, r.limit))
    && (r.stage == Done ==> r.pending == [])
  }

  /** A thread that has seen too much is about to say so, or it has been said. */
  ghost predicate Noticed(r: Reader, seen: Bytes, overflow: bool) {
    Exceeds(seen, r.limit) ==> overflow || r.stage in {Checking, Naming, Setting}
  }

  ghost predicate Inv(s: Readers, outStream: Bytes, errStream: Bytes, outSeen: Bytes, errSeen: Bytes) {
    && ReaderInv(s.out, outStream, outSeen)
    && ReaderInv(s.err, errStream, errSeen)
    && Noticed(s.out, outSeen, s.overflow)
    && Noticed(s.err, errSeen, s.overflow)
    && (s.overflow || s.out.stage == Setting || s.err.stage == Setting ==> s.names != [])
    && (forall name | name in s.names ::
          || (name == s.out.name && Exceeds(outSeen, s.out.limit))
          || (name == s.err.name && Exceeds(errSeen, s.err.limit)))
  }

  lemma ReadKeeps(r: Reader, stream: Bytes, seen: Bytes) returns (more: Bytes)
    requires ReaderInv(r, stream, seen) && r.stage == Reading
    ensures ReaderInv(Read(r), stream, more)
    ensures |seen| <= |more|
    ensures Exceeds(more, r.limit) ==> Exceeds(seen, r.limit) || Read(r).stage == Checking
  {
    more := seen;
    if r.pending != [] {
      more := seen + r.pending[0];
      assert stream == more + Concat(r.pending[1..]);
      TakeMore(seen, r.pending[0], r.limit);
    }
  }

  lemma TakeMore(seen: Bytes, chunk: Bytes, limit: nat)
    ensures var remaining := if |Take(seen, limit)| <= limit then limit - |Take(seen, limit)| else 0;
            Take(seen, limit) + Take(chunk, remaining) == Take(seen + chunk, limit)
  {
  }

  lemma StepKeeps(s: Readers, first: bool, outStream: Bytes, errStream: Bytes, outSeen: Bytes, errSeen: Bytes)
    returns (outMore: Bytes, errMore: Bytes)
    requires Inv(s, outStream, errStream, outSeen, errSeen)
    ensures Inv(Step(s, first), outStream, errStream, outMore, errMore)
  {
    outMore, errMore := outSeen, errSeen;
    if first && s.out.stage == Reading {
      outMore := ReadKeeps(s.out, outStream, outSeen);
    } else if !first && s.err.stage == Reading {
      errMore := ReadKeeps(s.err, errStream, errSeen);
    }
  }

  lemma {:induction false} ScheduleKeeps(
    s: Readers, schedule: seq<bool>, outStream: Bytes, errStream: Bytes, outSeen: Bytes, errSeen: Bytes)
    returns (outMore: Bytes, errMore: Bytes)
    requires Inv(s, outStream, errStream, outSeen, errSeen)
    ensures Inv(RunSchedule(s, schedule), outStream, errStream, outMore, errMore)
    decreases schedule
  {
    outMore, errMore := outSeen, errSeen;
    if schedule != [] {
      outMore, errMore := StepKeeps(s, schedule[0], outStream, errStream, outSeen, errSeen);
      outMore, errMore := ScheduleKeeps(Step(s, schedule[0]), schedule[1..], outStream, errStream, outMore, errMore);
    }
  }

  lemma {:induction false} NamesStay(s: Readers, schedule: seq<bool>)
    ensures var t := RunSchedule(s, schedule);
            && t.out.name == s.out.name && t.out.limit == s.out.limit
            && t.err.name == s.err.name && t.err.limit == s.err.limit
    decreases schedule
  {
    if schedule != [] {
      NamesStay(Step(s, schedule[0]), schedule[1..]);
    }
  }

  // ----- main results

  /** For every chunking of both streams and every interleaving: a set flag has
      a name, every name belongs to a stream that went over its limit, and when
      both threads are done each buffer holds exactly the beginning of its
      stream that fits and the flag is set exactly if a stream did not fit.
      Without the flag, then, the buffers are the complete streams. */
  lemma ReadersAreExact(
    outName: string, outLimit: nat, outChunks: seq<Bytes>,
    errName: string, errLimit: nat, errChunks: seq<Bytes>, schedule: seq<bool>)
    ensures var s := RunSchedule(
                       Readers(Start(outName, outLimit, outChunks), Start(errName, errLimit, errChunks), false, []), schedule);
            var out := Concat(outChunks);
            var err := Concat(errChunks);
            && (s.overflow ==> s.names != [])
            && (forall name | name in s.names ::
                  (name == outName && Exceeds(out, outLimit)) || (name == errName && Exceeds(err, errLimit)))
            && (s.out.stage == Done ==> s.out.buffer == Take(out, outLimit))
            && (s.err.stage == Done ==> s.err.buffer == Take(err, errLimit))
            && (s.out.stage == Done && s.err.stage == Done ==>
                  && (s.overflow <==> Exceeds(out, outLimit) || Exceeds(err, errLimit))
                  && (!s.overflow ==> s.out.buffer == out && s.err.buffer == err))
  {
    var start := Readers(Start(outName, outLimit, outChunks), Start(errName, errLimit, errChunks), false, []);
    var outSeen, errSeen := ScheduleKeeps(start, schedule, Concat(outChunks), Concat(errChunks), [], []);
    NamesStay(start, schedule);
    var s := RunSchedule(start, schedule);
    if s.overflow {
      assert s.names[0] in s.names;
    }
  }

  /** Work left to a thread; it shrinks with every step before the end. */
  function Work(r: Reader): nat {
    match r.stage
    case Reading => 4 * |r.pending| + 1
    case Checking => 4 * |r.pending| + 4
    case Naming => 4 * |r.pending| + 3
    case Setting => 4 * |r.pending| + 2
    case Done => 0
  }

  /** A schedule that gives each thread that many turns finishes both. */
  lemma {:induction false} EnoughTurnsFinish(s: Readers, schedule: seq<bool>)
    requires Turns(schedule, true) >= Work(s.out) && Turns(schedule, false) >= Work(s.err)
    ensures RunSchedule(s, schedule).out.stage == Done && RunSchedule(s, schedule).err.stage == Done
    decreases schedule
  {
    if schedule != [] {
      EnoughTurnsFinish(Step(s, schedule[0]), schedule[1..]);
    }
  }

  function Turns(schedule: seq<bool>, first: bool): nat {
    if schedule == [] then 0 else (if schedule[0] == first then 1 else 0) + Turns(schedule[1..], first)
  }
}
