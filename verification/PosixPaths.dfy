/** Relative POSIX paths as lists of names, and their texts. */
module PosixPaths {

  type Name = string

  type Path = seq<Name>

  /** A name that no separator or special meaning gets in the way of. */
  predicate Plain(n: Name) {
    n != [] && n != "." && n != ".." && '/' !in n && '\\' !in n
  }

  predicate PlainPath(p: Path) {
    p != [] && forall n | n in p :: Plain(n)
  }

  function Join(p: Path): string
    requires p != []
  {
    if |p| == 1 then p[0] else p[0] + "/" + Join(p[1..])
  }

  function SlashAt(s: string): (k: nat)
    ensures k <= |s|
    ensures k < |s| ==> s[k] == '/'
    ensures '/' !in s[..k]
  {
    if s == [] || s[0] == '/' then 0
    else
      var k := SlashAt(s[1..]);
      assert s[..k + 1] == [s[0]] + s[1..][..k];
      k + 1
  }

  function Split(s: string): (p: Path)
    ensures p != []
    decreases |s|
  {
    var k := SlashAt(s);
    if k == |s| then [s] else [s[..k]] + Split(s[k + 1..])
  }

  lemma SlashAfterName(n: Name, rest: string)
    requires '/' !in n
    ensures SlashAt(n) == |n|
    ensures SlashAt(n + "/" + rest) == |n|
  {
    var s := n + "/" + rest;
    FirstSlash(s, |n|);
    FirstSlash(n, |n|);
  }

  lemma {:induction false} FirstSlash(s: string, k: nat)
    requires k <= |s| && '/' !in s[..k] && (k < |s| ==> s[k] == '/')
    ensures SlashAt(s) == k
    decreases k
  {
    if k > 0 {
      assert s[0] in s[..k];
      assert s[1..][..k - 1] == s[..k][1..];
      FirstSlash(s[1..], k - 1);
    }
  }

  /** A joined path splits into its names again. */
  lemma {:induction false} SplitJoin(p: Path)
    requires PlainPath(p)
    ensures Split(Join(p)) == p
  {
    assert Plain(p[0]);
    if |p| == 1 {
      SlashAfterName(p[0], []);
    } else {
      var rest := Join(p[1..]);
      var s := p[0] + "/" + rest;
      SlashAfterName(p[0], rest);
      assert s[..|p[0]|] == p[0] && s[|p[0]| + 1..] == rest;
      SplitJoin(p[1..]);
    }
  }

  lemma {:induction false} JoinIsPlain(p: Path)
    requires PlainPath(p)
    ensures Join(p) != [] && '\\' !in Join(p)
  {
    assert Plain(p[0]);
    if |p| > 1 {
      JoinIsPlain(p[1..]);
    }
  }
}
