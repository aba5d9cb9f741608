/** Atomic replacement of files: write beside the target, then rename over it.

    A file content is a text; raw bytes are treated like texts. */
module Storage {
  import opened Outcomes
  import opened Canonical
  import opened CanonicalProofs

  type Files = map<string, string>

  /** Which steps of one write succeed, and how much of the payload reaches the
      temporary file.  `contained` stands for the path and link checks. */
  datatype WriteSteps = WriteSteps(
    contained: bool, creates: bool, token: nat, written: nat, fills: bool,
    renames: bool, syncsDirectory: bool, unlinks: bool)

  function Filled(payload: string, w: WriteSteps): string {
    if w.fills || w.written >= |payload| then payload else payload[..w.written]
  }

  class AtomicRecordStore {
    var files: Files
    var temporaries: map<nat, string>

    constructor ()
      ensures files == map[] && temporaries == map[]
    {
      files, temporaries := map[], map[];
    }

    /** The common end of `write` and `write_bytes`.  `seen` lists the files
        after every step, which is what a crash there would leave. */
    method Replace(path: string, payload: string, w: WriteSteps) returns (r: Result<()>, ghost seen: seq<Files>)
      requires w.token !in temporaries
      modifies this
      ensures r.Ok? <==> w.creates && w.fills && w.renames && w.syncsDirectory
      ensures files == if w.creates && w.fills && w.renames then old(files)[path := payload] else old(files)
      ensures r.Ok? ==> temporaries == old(temporaries)
      ensures w.unlinks ==> temporaries == old(temporaries)
      ensures temporaries - {w.token} == old(temporaries)
      ensures forall f | f in seen :: f == old(files) || f == old(files)[path := payload]
    {
      seen := [files];
      if !w.creates {
        return Err("STORAGE_WRITE_FAILED"), seen;
      }
      temporaries := temporaries[w.token := []];
      seen := seen + [files];
      temporaries := temporaries[w.token := Filled(payload, w)];
      seen := seen + [files];
      var renamed := false;
      if w.fills && w.renames {
        files := files[path := temporaries[w.token]];
        temporaries := temporaries - {w.token};
        seen := seen + [files];
        renamed := true;
      }
      if !renamed && w.unlinks {
        temporaries := temporaries - {w.token};
        seen := seen + [files];
      }
      r := if renamed && w.syncsDirectory then Ok(()) else Err("STORAGE_WRITE_FAILED");
    }

    /** Stores a record.  It either keeps the old file or has the whole new
        one, at every moment; an error after the rename leaves the new one. */
    method Write(path: string, record: Json, w: WriteSteps) returns (r: Result<()>)
      requires w.token !in temporaries
      modifies this
      ensures r.Ok? <==> w.contained && w.creates && w.fills && w.renames && w.syncsDirectory
      ensures files == if w.contained && w.creates && w.fills && w.renames then old(files)[path := Print(record) + "\n"]
                       else old(files)
      ensures r.Ok? ==> temporaries == old(temporaries)
      ensures temporaries - {w.token} == old(temporaries)
      ensures w.unlinks ==> temporaries == old(temporaries)
    {
      if !w.contained {
        return Err("STORAGE_PATH_ESCAPE");
      }
      ghost var seen;
      r, seen := Replace(path, Print(record) + "\n", w);
    }

    /** Stores content under its content address: never over other content. */
    method WriteBytes(path: string, payload: string, overwrite: bool, w: WriteSteps) returns (r: Result<()>)
      requires w.token !in temporaries
      modifies this
      ensures r.Ok? ==> files == old(files)[path := payload] && temporaries == old(temporaries)
      ensures path in old(files) && old(files)[path] == payload ==> files == old(files) && (r.Ok? <==> w.contained)
      ensures path in old(files) && old(files)[path] != payload && !overwrite ==>
                files == old(files) && r == Err(if w.contained then "STORAGE_RECORD_INVALID" else "STORAGE_PATH_ESCAPE")
      ensures path !in old(files) || (old(files)[path] != payload && overwrite) ==>
                && (r.Ok? <==> w.contained && w.creates && w.fills && w.renames && w.syncsDirectory)
                && files == if w.contained && w.creates && w.fills && w.renames then old(files)[path := payload]
                            else old(files)
      ensures w.unlinks ==> temporaries == old(temporaries)
    {
      if !w.contained {
        return Err("STORAGE_PATH_ESCAPE");
      }
      if path in files {
        if files[path] == payload {
          assert files == files[path := payload];
          return Ok(());
        }
        if !overwrite {
          return Err("STORAGE_RECORD_INVALID");
        }
      }
      ghost var seen;
      r, seen := Replace(path, payload, w);
    }

    /** Reads a record.  Whatever a write has stored comes back as the same
        value; only a missing file is reported as missing, and only a text that
        no write has stored as corrupt. */
    method Read(path: string) returns (r: Result<Json>)
      ensures r == Err("STORAGE_RECORD_MISSING") <==> path !in files
      ensures forall v {:trigger Print(v)} | WellFormed(v) && path in files && files[path] == Print(v) + "\n" ::
                r == Ok(Normalize(v)) && Same(r.value, v)
      ensures r.Ok? ==> path in files && Parse(files[path]) == Some(r.value)
      ensures r.Err? && path in files ==> Parse(files[path]).None? && r == Err("STORAGE_RECORD_CORRUPT")
    {
      if path !in files {
        return Err("STORAGE_RECORD_MISSING");
      }
      forall v | WellFormed(v) && files[path] == Print(v) + "\n"
        ensures Parse(files[path]) == Some(Normalize(v)) && Same(Normalize(v), v)
      {
        StoredRecordsReadBack(v, v);
      }
      match Parse(files[path]) {
        case None => return Err("STORAGE_RECORD_CORRUPT");
        case Some(v) => return Ok(v);
      }
    }
  }

  /** A record that is written and then read: a write that succeeded is read
      back, and one that failed leaves the old record or the whole new one. */
  method WriteThenRead(store: AtomicRecordStore, path: string, record: Json, w: WriteSteps)
    returns (before: Result<Json>, stored: Result<()>, after: Result<Json>)
    requires w.token !in store.temporaries && WellFormed(record)
    modifies store
    ensures stored.Ok? ==> after == Ok(Normalize(record))
    ensures stored.Err? ==> after == before || after == Ok(Normalize(record))
  {
    before := store.Read(path);
    stored := store.Write(path, record, w);
    after := store.Read(path);
  }

  /** What `write` stores for a value, `read` gives back, and two values are
      stored as the same text exactly if they are the same. */
  lemma StoredRecordsReadBack(u: Json, v: Json)
    requires WellFormed(u) && WellFormed(v)
    ensures Parse(Print(v) + "\n") == Some(Normalize(v)) && Same(Normalize(v), v)
    ensures Print(u) + "\n" == Print(v) + "\n" <==> Same(u, v)
  {
    NormalizeIsNormal(v);
    ValuesRead(Normalize(v), "\n");
    assert SkipSpace("\n") == [];
    NormalIsWellFormed(Normalize(v));
    NormalizeTwice(v);
    SameIsEqualNormal(Normalize(v), v);
    PrintIsInjective(u, v);
    SameLine(Print(u), Print(v));
  }

  lemma SameLine(a: string, b: string)
    ensures a + "\n" == b + "\n" <==> a == b
  {
    if a + "\n" == b + "\n" {
      assert a == (a + "\n")[..|a|] && b == (b + "\n")[..|b|];
    }
  }
}
