/** Backup and restore of the durable directories.

    A tree maps paths to file contents; a path is the list of its names.  A
    manifest lists text paths and content digests, and a digest stands for the
    bytes it digests. */
module Backup {
  import opened Outcomes
  import opened Records
  import opened Canonical
  import opened PosixPaths

  type Tree = map<Path, Bytes>

  datatype FileDigest = FileDigest(bytes: Bytes)

  datatype Entry = Entry(path: string, digest: FileDigest)

  datatype Backup = Backup(files: seq<Entry>, content: Tree)

  const DURABLE_ROOTS: seq<Name> := ["curricula", "state"]

  const EXCLUDED_DIRECTORIES: set<Name> := {
    ".git", ".pytest_cache", "__pycache__", ".workspaces", "attempt-workspaces", "workspaces", "tmp", "temp"}

  // ----- durable paths

  /** Files with plain names, none of which is also a directory. */
  ghost predicate WellFormedTree(t: Tree) {
    && (forall p | p in t :: PlainPath(p))
    && (forall p, q | p in t && q in t :: p <= q ==> p == q)
  }

  predicate TemporaryName(n: Name) {
    (|n| >= 4 && n[|n| - 4..] == ".tmp") || ".tmp-" <= n
  }

  /** A file that belongs into a backup: below a durable root, through no
      excluded name, and not a temporary file. */
  predicate Durable(p: Path) {
    && |p| >= 2
    && p[0] in DURABLE_ROOTS
    && (forall n | n in p[1..] :: n !in EXCLUDED_DIRECTORIES)
    && !TemporaryName(p[|p| - 1])
  }

  /** What is kept, name by name. */
  lemma WhatIsKept(p: Path)
    ensures Durable(p) <==>
              && |p| >= 2
              && (p[0] == "curricula" || p[0] == "state")
              && (forall k | 1 <= k < |p| ::
                    && p[k] != ".git" && p[k] != ".pytest_cache" && p[k] != "__pycache__"
                    && p[k] != ".workspaces" && p[k] != "attempt-workspaces" && p[k] != "workspaces"
                    && p[k] != "tmp" && p[k] != "temp")
              && !(".tmp-" <= p[|p| - 1])
              && !(|p[|p| - 1]| >= 4 && p[|p| - 1][|p[|p| - 1]| - 4..] == ".tmp")
  {
    if |p| >= 2 {
      forall k | 1 <= k < |p|
        ensures p[k] in p[1..]
      {
        assert p[1..][k - 1] == p[k];
      }
    }
  }

  /** `_is_durable_path`, on the text of a manifest entry. */
  predicate DurableText(s: string) {
    s != [] && '\\' !in s && DurableNames(Split(s))
  }

  predicate DurableNames(p: Path)
    requires p != []
  {
    && (forall n | n in p :: n != [] && n != "." && n != "..")
    && p[0] in DURABLE_ROOTS
    && (forall n | n in p :: n !in EXCLUDED_DIRECTORIES)
    && !TemporaryName(p[|p| - 1])
  }

  lemma RootsAreNotExcluded(n: Name)
    requires n in DURABLE_ROOTS
    ensures n !in EXCLUDED_DIRECTORIES
  {
  }

  lemma DurablePathsHaveDurableNames(p: Path)
    requires PlainPath(p)
    ensures Durable(p) <==> |p| >= 2 && DurableNames(p)
  {
    forall n | n in p
      ensures n != [] && n != "." && n != ".."
    {
      assert Plain(n);
    }
    if p[0] in DURABLE_ROOTS {
      RootsAreNotExcluded(p[0]);
      assert p == [p[0]] + p[1..];
    }
  }

  /** The walk that makes a backup and the check that loads a manifest agree on
      every path: kept files have accepted texts, and accepted texts below a
      root are of kept files. */
  lemma DurablePathsHaveDurableTexts(p: Path)
    requires PlainPath(p)
    ensures Durable(p) <==> |p| >= 2 && DurableText(Join(p))
  {
    SplitJoin(p);
    JoinIsPlain(p);
    DurablePathsHaveDurableNames(p);
  }

  /** The durable projection of a tree. */
  function DurablePart(t: Tree): Tree {
    map p | p in t && Durable(p) :: t[p]
  }

  // ----- entry lists

  predicate SortedEntries(es: seq<Entry>) {
    forall j, k | 0 <= j < k < |es| :: Less(es[j].path, es[k].path)
  }

  function InsertEntry(e: Entry, es: seq<Entry>): (r: seq<Entry>)
    requires SortedEntries(es) && forall f | f in es :: f.path != e.path
    ensures SortedEntries(r)
    ensures forall f :: f in r <==> f in es || f == e
  {
    if es == [] then [e]
    else if Less(e.path, es[0].path) then
      InsertFirst(e, es);
      [e] + es
    else
      LessIsTotal(e.path, es[0].path);
      var rest := InsertEntry(e, es[1..]);
      KeepFirst(e, es, rest);
      [es[0]] + rest
  }

  lemma InsertFirst(e: Entry, es: seq<Entry>)
    requires es != [] && SortedEntries(es) && Less(e.path, es[0].path)
    ensures SortedEntries([e] + es)
  {
    forall k | 0 < k < |es|
      ensures Less(e.path, es[k].path)
    {
      LessIsTransitive(e.path, es[0].path, es[k].path);
    }
  }

  lemma KeepFirst(e: Entry, es: seq<Entry>, rest: seq<Entry>)
    requires es != [] && SortedEntries(es) && Less(es[0].path, e.path)
    requires SortedEntries(rest) && forall f :: f in rest <==> f in es[1..] || f == e
    ensures SortedEntries([es[0]] + rest)
    ensures forall f :: f in [es[0]] + rest <==> f in es || f == e
  {
    forall k | 0 <= k < |rest|
      ensures Less(es[0].path, rest[k].path)
    {
      assert rest[k] in rest;
    }
    assert es == [es[0]] + es[1..];
  }

  /** Entry lists with the same entries are the same list. */
  lemma {:induction false} SortedListsAreEqual(a: seq<Entry>, b: seq<Entry>)
    requires SortedEntries(a) && SortedEntries(b)
    requires forall e :: e in a <==> e in b
    ensures a == b
  {
    assert b != [] ==> b[0] in b;
    if a != [] {
      assert a[0] in b && b[0] in a;
      if a[0] != b[0] {
        LessIsStrict(a[0].path, b[0].path);
      }
      forall e
        ensures e in a[1..] <==> e in b[1..]
      {
        RestOfSorted(a, e);
        RestOfSorted(b, e);
      }
      SortedListsAreEqual(a[1..], b[1..]);
      assert a == [a[0]] + a[1..] && b == [b[0]] + b[1..];
    }
  }

  lemma RestOfSorted(a: seq<Entry>, e: Entry)
    requires a != [] && SortedEntries(a)
    ensures e in a[1..] <==> e in a && e != a[0]
  {
    LessIsStrict(a[0].path, a[0].path);
  }

  function EntryOf(t: Tree, p: Path): Entry
    requires p in t && p != []
  {
    Entry(Join(p), FileDigest(t[p]))
  }

  /** The entry list of a tree. */
  ghost predicate Lists(es: seq<Entry>, t: Tree)
    requires forall p | p in t :: p != []
  {
    && SortedEntries(es)
    && (forall p | p in t :: EntryOf(t, p) in es)
    && (forall e | e in es :: exists p :: p in t && e == EntryOf(t, p))
  }

  lemma ListsAreUnique(a: seq<Entry>, b: seq<Entry>, t: Tree)
    requires (forall p | p in t :: p != []) && Lists(a, t) && Lists(b, t)
    ensures a == b
  {
    SortedListsAreEqual(a, b);
  }

  lemma NewPathIsNew(kept: Tree, es: seq<Entry>, p: Path)
    requires forall q | q in kept :: q != [] && PlainPath(q)
    requires Lists(es, kept) && PlainPath(p) && p !in kept
    ensures forall f | f in es :: f.path != Join(p)
  {
    forall f | f in es
      ensures f.path != Join(p)
    {
      var q :| q in kept && f == EntryOf(kept, q);
      SplitJoin(p);
      SplitJoin(q);
    }
  }

  /** The files that were not walked yet are missing from `kept`. */
  ghost predicate Walked(kept: Tree, left: set<Path>, t: Tree, exclude: bool) {
    && left <= t.Keys
    && (forall p | p in t :: p in kept <==> p !in left && (exclude ==> Durable(p)))
    && (forall p | p in kept :: p in t && kept[p] == t[p] && p != [])
  }

  /** `_tree_entries`: walks the files in any order and sorts what it keeps. */
  method TreeEntries(t: Tree, exclude: bool) returns (es: seq<Entry>)
    requires WellFormedTree(t)
    ensures Lists(es, if exclude then DurablePart(t) else t)
  {
    es := [];
    ghost var kept: Tree := map[];
    var left := t.Keys;
    while left != {}
      invariant Walked(kept, left, t, exclude)
      invariant Lists(es, kept)
      decreases left
    {
      var p :| p in left;
      WalkOn(kept, left, t, exclude, p);
      left := left - {p};
      if !exclude || Durable(p) {
        NewPathIsNew(kept, es, p);
        es := InsertEntry(EntryOf(t, p), es);
        ListsGrow(kept, es, p, t[p]);
        kept := kept[p := t[p]];
      }
    }
    WalkEnds(kept, t, exclude);
  }

  lemma WalkOn(kept: Tree, left: set<Path>, t: Tree, exclude: bool, p: Path)
    requires Walked(kept, left, t, exclude) && p in left && WellFormedTree(t)
    ensures p !in kept && PlainPath(p) && forall q | q in kept :: PlainPath(q)
    ensures Walked(if !exclude || Durable(p) then kept[p := t[p]] else kept, left - {p}, t, exclude)
  {
  }

  lemma WalkEnds(kept: Tree, t: Tree, exclude: bool)
    requires Walked(kept, {}, t, exclude)
    ensures kept == if exclude then DurablePart(t) else t
  {
  }

  lemma ListsGrow(kept: Tree, es: seq<Entry>, p: Path, bytes: Bytes)
    requires (forall q | q in kept :: q != []) && p != [] && p !in kept
    requires SortedEntries(es)
    requires (forall q | q in kept :: EntryOf(kept, q) in es) && Entry(Join(p), FileDigest(bytes)) in es
    requires forall e | e in es :: e == Entry(Join(p), FileDigest(bytes)) || exists q :: q in kept && e == EntryOf(kept, q)
    ensures Lists(es, kept[p := bytes])
  {
    var more := kept[p := bytes];
    forall e | e in es
      ensures exists q :: q in more && e == EntryOf(more, q)
    {
      if e == Entry(Join(p), FileDigest(bytes)) {
        assert e == EntryOf(more, p);
      } else {
        var q :| q in kept && e == EntryOf(kept, q);
        assert e == EntryOf(more, q);
      }
    }
    forall q | q in more
      ensures EntryOf(more, q) in es
    {
      if q != p {
        assert EntryOf(more, q) == EntryOf(kept, q);
      }
    }
  }

  // ----- verification

  /** `BackupManifest.from_mapping`. */
  predicate ValidManifest(files: seq<Entry>) {
    SortedEntries(files) && forall e | e in files :: DurableText(e.path)
  }

  function DigestsOf(es: seq<Entry>): map<string, FileDigest>
    requires SortedEntries(es)
  {
    map k | k in Paths(es) :: DigestAt(es, k)
  }

  function Paths(es: seq<Entry>): set<string> {
    set e | e in es :: e.path
  }

  function DigestAt(es: seq<Entry>, path: string): FileDigest
    requires path in Paths(es)
  {
    if es[0].path == path then es[0].digest else DigestAt(es[1..], path)
  }

  lemma {:induction false} DigestAtEntry(es: seq<Entry>, e: Entry)
    requires SortedEntries(es) && e in es
    ensures e.path in Paths(es) && DigestAt(es, e.path) == e.digest
  {
    if es[0] != e {
      LessIsStrict(es[0].path, e.path);
      assert e in es[1..];
      DigestAtEntry(es[1..], e);
    }
  }

  /** Two lists agree as maps exactly if they are the same list. */
  lemma SameDigests(a: seq<Entry>, b: seq<Entry>)
    requires SortedEntries(a) && SortedEntries(b)
    ensures DigestsOf(a) == DigestsOf(b) <==> a == b
  {
    if DigestsOf(a) == DigestsOf(b) {
      forall e
        ensures e in a <==> e in b
      {
        if e in a {
          InOther(a, b, e);
        }
        if e in b {
          InOther(b, a, e);
        }
      }
      SortedListsAreEqual(a, b);
    }
  }

  lemma InOther(a: seq<Entry>, b: seq<Entry>, e: Entry)
    requires SortedEntries(a) && SortedEntries(b) && DigestsOf(a) == DigestsOf(b) && e in a
    ensures e in b
  {
    DigestAtEntry(a, e);
    assert e.path in DigestsOf(a);
    assert e.path in DigestsOf(b);
    var f :| f in b && f.path == e.path;
    DigestAtEntry(b, f);
    assert DigestsOf(b)[e.path] == f.digest;
  }

  /** The manifest is valid and lists exactly the content. */
  ghost predicate Verified(b: Backup)
    requires WellFormedTree(b.content)
  {
    ValidManifest(b.files) && Lists(b.files, b.content)
  }

  method VerifyBackup(b: Backup) returns (r: Result<seq<Entry>>)
    requires WellFormedTree(b.content)
    ensures r.Ok? <==> Verified(b)
    ensures r.Ok? ==> r.value == b.files
  {
    if !ValidManifest(b.files) {
      return Err("BACKUP_MANIFEST_INVALID");
    }
    var actual := TreeEntries(b.content, false);
    var expected := DigestsOf(b.files);
    var found := DigestsOf(actual);
    SameDigests(actual, b.files);
    if Verified(b) {
      ListsAreUnique(actual, b.files, b.content);
    }
    var missing := expected.Keys - found.Keys;
    var extra := found.Keys - expected.Keys;
    var changed := set path | path in expected && path in found && expected[path] != found[path];
    if missing != {} || extra != {} || changed != {} {
      assert expected != found;
      return Err("BACKUP_CONTENT_INVALID");
    }
    forall path | path in expected || path in found
      ensures path in expected && path in found && expected[path] == found[path]
    {
      assert path !in missing && path !in extra && path !in changed;
    }
    assert expected == found;
    return Ok(b.files);
  }

  // ----- creating and restoring

  /** What `create_backup` makes of a tree. */
  ghost predicate IsBackupOf(b: Backup, t: Tree)
    requires WellFormedTree(t)
  {
    b.content == DurablePart(t) && Lists(b.files, b.content)
  }

  /** No durable root is a file. */
  predicate RootsAreDirectories(t: Tree) {
    forall root | root in DURABLE_ROOTS :: [root] !in t
  }

  lemma BackupsVerify(b: Backup, t: Tree)
    requires WellFormedTree(t) && IsBackupOf(b, t)
    ensures WellFormedTree(b.content) && Verified(b)
  {
    forall e | e in b.files
      ensures DurableText(e.path)
    {
      var p :| p in b.content && e == EntryOf(b.content, p);
      DurablePathsHaveDurableTexts(p);
    }
  }

  /** Copies every listed file. */
  method CopyFiles(files: seq<Entry>, origin: Tree, ghost listed: Tree) returns (copy: Tree)
    requires WellFormedTree(listed) && Lists(files, listed)
    requires forall p | p in listed :: p in origin && origin[p] == listed[p]
    ensures copy == listed
  {
    copy := map[];
    var n := 0;
    while n < |files|
      invariant 0 <= n <= |files|
      invariant forall p | p in copy :: p in listed && copy[p] == listed[p]
      invariant forall p | p in listed && EntryOf(listed, p) in files[..n] :: p in copy
    {
      var target := Split(files[n].path);
      ListedTarget(files, listed, n);
      copy := copy[target := origin[target]];
      n := n + 1;
    }
    assert files[..n] == files;
  }

  lemma ListedTarget(files: seq<Entry>, listed: Tree, n: nat)
    requires WellFormedTree(listed) && Lists(files, listed) && n < |files|
    ensures Split(files[n].path) in listed
    ensures forall p | p in listed && EntryOf(listed, p) == files[n] :: p == Split(files[n].path)
  {
    assert files[n] in files;
    var q :| q in listed && files[n] == EntryOf(listed, q);
    SplitJoin(q);
    forall p | p in listed && EntryOf(listed, p) == files[n]
      ensures p == Split(files[n].path)
    {
      SplitJoin(p);
    }
  }

  method CreateBackup(t: Tree) returns (r: Result<Backup>)
    requires WellFormedTree(t)
    ensures r.Ok? <==> RootsAreDirectories(t)
    ensures r.Ok? ==> IsBackupOf(r.value, t)
  {
    if !RootsAreDirectories(t) {
      return Err("BACKUP_SOURCE_INVALID");
    }
    var files := TreeEntries(t, true);
    var content := CopyFiles(files, t, DurablePart(t));
    var backup := Backup(files, content);
    BackupsVerify(backup, t);
    var verified := VerifyBackup(backup);
    if verified != Ok(files) {
      return Err("BACKUP_CREATE_FAILED");
    }
    return Ok(backup);
  }

  method RestoreBackup(b: Backup) returns (r: Result<Tree>)
    requires WellFormedTree(b.content)
    ensures r.Ok? <==> Verified(b)
    ensures r.Ok? ==> r.value == b.content
  {
    var verified := VerifyBackup(b);
    if verified.Err? {
      return Err(verified.code);
    }
    var staged := CopyFiles(b.files, b.content, b.content);
    var restored := TreeEntries(staged, false);
    ListsAreUnique(restored, b.files, b.content);
    if (set e | e in restored) != (set e | e in b.files) {
      return Err("RESTORE_VERIFICATION_FAILED");
    }
    var again := VerifyBackup(b);
    if again != Ok(b.files) {
      return Err("RESTORE_VERIFICATION_FAILED");
    }
    return Ok(staged);
  }

  /** The round trip: a created backup verifies, it restores to exactly the
      durable projection of its source, that projection can be backed up again,
      and every backup of it is the same backup. */
  lemma BackupRoundTrip(t: Tree, b: Backup, again: Backup)
    requires WellFormedTree(t) && IsBackupOf(b, t)
    ensures WellFormedTree(b.content) && Verified(b)
    ensures b.content == DurablePart(t)
    ensures RootsAreDirectories(DurablePart(t))
    ensures IsBackupOf(again, b.content) ==> again == b
  {
    BackupsVerify(b, t);
    assert DurablePart(DurablePart(t)) == DurablePart(t);
    if IsBackupOf(again, b.content) {
      ListsAreUnique(again.files, b.files, b.content);
    }
  }

  /** Below an excluded name, or a temporary file. */
  predicate Passing(p: Path) {
    (exists n | n in p :: n in EXCLUDED_DIRECTORIES) || (p != [] && TemporaryName(p[|p| - 1]))
  }

  lemma DurableStays(p: Path)
    requires Durable(p)
    ensures !Passing(p)
  {
    RootsAreNotExcluded(p[0]);
    assert forall n | n in p :: n == p[0] || n in p[1..];
  }

  lemma SameDurablePart(t: Tree, u: Tree)
    requires forall p | p in t.Keys + u.Keys && !Passing(p) :: p in t && p in u && t[p] == u[p]
    ensures DurablePart(t) == DurablePart(u)
  {
    forall p | p in t.Keys + u.Keys && Durable(p)
      ensures p in t && p in u && t[p] == u[p]
    {
      DurableStays(p);
    }
  }

  /** Two trees have the same backup exactly if their durable parts are the
      same; trees that differ only below excluded directories, such as
      `state/workspaces`, and in temporary files therefore do. */
  lemma WorkspacesAreDropped(t: Tree, u: Tree, b: Backup, c: Backup)
    requires WellFormedTree(t) && WellFormedTree(u) && IsBackupOf(b, t) && IsBackupOf(c, u)
    ensures b == c <==> DurablePart(t) == DurablePart(u)
    ensures (forall p | p in t.Keys + u.Keys && !Passing(p) :: p in t && p in u && t[p] == u[p]) ==> b == c
  {
    if forall p | p in t.Keys + u.Keys && !Passing(p) :: p in t && p in u && t[p] == u[p] {
      SameDurablePart(t, u);
    }
    if DurablePart(t) == DurablePart(u) {
      ListsAreUnique(b.files, c.files, b.content);
    }
  }

  /** Backing up, restoring and backing up again: the restored tree is the
      durable part of the source and its backup is the backup it came from. */
  method BackUpTwice(t: Tree) returns (first: Result<Backup>, restored: Result<Tree>, second: Result<Backup>)
    requires WellFormedTree(t)
    ensures first.Ok? <==> RootsAreDirectories(t)
    ensures first.Ok? ==> IsBackupOf(first.value, t) && restored == Ok(DurablePart(t)) && second == first
    ensures first.Err? ==> restored == Err(first.code) && second == first
  {
    first := CreateBackup(t);
    if first.Err? {
      return first, Err(first.code), first;
    }
    BackupsVerify(first.value, t);
    restored := RestoreBackup(first.value);
    second := CreateBackup(restored.value);
    BackupRoundTrip(t, first.value, second.value);
  }
}
