/** The dependency check of benchmark plans, `_valid_graph`. */
module Plans {
  import opened Outcomes
  import opened Graph

  /** A plan item; a missing part is one that is not a non-empty string, or not
      a list of non-blank strings. */
  datatype Item = Item(id: Option<Node>, dependencies: Option<seq<Node>>)

  const NEEDS_IDS := "items need unique string ids"
  const CYCLE := "dependency cycle detected"
  const VALID := "dependency ids are valid, acyclic, and ordered"

  predicate Named(items: seq<Item>) {
    forall item | item in items :: item.id.Some?
  }

  function Ids(items: seq<Item>): (ids: seq<Node>)
    requires Named(items)
    ensures |ids| == |items|
    ensures forall k | 0 <= k < |items| :: ids[k] == items[k].id.value
  {
    seq(|items|, k requires 0 <= k < |items| => assert items[k] in items; items[k].id.value)
  }

  predicate Unique(ids: seq<Node>) {
    forall j, k | 0 <= j < k < |ids| :: ids[j] != ids[k]
  }

  /** What is wrong with item `k`, if anything. */
  function Problem(items: seq<Item>, k: nat): Option<string>
    requires Named(items) && k < |items|
  {
    var ids := Ids(items);
    match items[k].dependencies
    case None => Some(ids[k] + " dependencies must be a string list")
    case Some(deps) =>
      if exists d | d in deps :: d !in ids then Some(ids[k] + " references an unknown dependency")
      else if exists d | d in deps :: d !in ids[..k] then Some(ids[k] + " dependency is not earlier in output order")
      else None
  }

  function FirstProblem(items: seq<Item>, k: nat): Option<string>
    requires Named(items) && k <= |items|
    decreases |items| - k
  {
    if k == |items| then None
    else if Problem(items, k).Some? then Problem(items, k)
    else FirstProblem(items, k + 1)
  }

  /** Verdict and message without any search for cycles. */
  function Verdict(items: seq<Item>): (bool, string) {
    if !Named(items) || !Unique(Ids(items)) then (false, NEEDS_IDS)
    else
      match FirstProblem(items, 0)
      case Some(problem) => (false, problem)
      case None => (true, VALID)
  }

  /** Item `k` lists earlier items only. */
  predicate Fine(items: seq<Item>, k: nat)
    requires Named(items) && k < |items|
  {
    items[k].dependencies.Some? && forall d | d in items[k].dependencies.value :: d in Ids(items)[..k]
  }

  /** Every item depends on earlier items only. */
  ghost predicate Ordered(items: seq<Item>) {
    && Named(items)
    && Unique(Ids(items))
    && forall k | 0 <= k < |items| :: Fine(items, k)
  }

  lemma {:induction false} NoProblemsFrom(items: seq<Item>, k: nat)
    requires Named(items) && k <= |items|
    ensures FirstProblem(items, k).None? <==> forall j | k <= j < |items| :: Problem(items, j).None?
    decreases |items| - k
  {
    if k < |items| {
      NoProblemsFrom(items, k + 1);
    }
  }

  lemma NoProblemMeansEarlier(items: seq<Item>, k: nat)
    requires Named(items) && k < |items|
    ensures Problem(items, k).None? <==> Fine(items, k)
  {
  }

  /** The verdict is positive exactly for ordered plans. */
  lemma VerdictMeansOrdered(items: seq<Item>)
    ensures Verdict(items).0 <==> Ordered(items)
  {
    if Named(items) {
      NoProblemsFrom(items, 0);
      forall k | 0 <= k < |items|
        ensures Problem(items, k).None? <==> Fine(items, k)
      {
        NoProblemMeansEarlier(items, k);
      }
    }
  }

  /** Of a plan that is not ordered, the message names the first item that is
      not fine, and why. */
  lemma {:induction false} FirstProblemIsNamed(items: seq<Item>, from: nat) returns (k: nat)
    requires Named(items) && from < |items| && exists j | from <= j < |items| :: !Fine(items, j)
    ensures from <= k < |items| && !Fine(items, k) && forall j | from <= j < k :: Fine(items, j)
    ensures FirstProblem(items, from) == Some(Ids(items)[k] + Complaint(items, k))
    decreases |items| - from
  {
    NoProblemMeansEarlier(items, from);
    k := from;
    if Fine(items, from) {
      k := FirstProblemIsNamed(items, from + 1);
    }
  }

  function Complaint(items: seq<Item>, k: nat): string
    requires Named(items) && k < |items|
  {
    if items[k].dependencies.None? then " dependencies must be a string list"
    else if forall d | d in items[k].dependencies.value :: d in Ids(items) then " dependency is not earlier in output order"
    else " references an unknown dependency"
  }

  lemma VerdictNamesTheFirst(items: seq<Item>) returns (k: nat)
    requires Named(items) && Unique(Ids(items)) && !Ordered(items)
    ensures k < |items| && !Fine(items, k) && forall j | 0 <= j < k :: Fine(items, j)
    ensures Verdict(items) == (false, Ids(items)[k] + Complaint(items, k))
  {
    k := FirstProblemIsNamed(items, 0);
  }

  /** The graph that the check builds from the first `n` items. */
  ghost predicate Describes(g: Digraph, items: seq<Item>, n: nat)
    requires Named(items) && n <= |items|
  {
    && g.Keys == (set x | x in Ids(items)[..n])
    && forall k | 0 <= k < n :: items[k].dependencies == Some(g[Ids(items)[k]])
  }

  lemma OrderedHasNoCycle(items: seq<Item>, g: Digraph)
    requires Ordered(items) && Describes(g, items, |items|)
    ensures !HasCycle(g)
  {
    var ids := Ids(items);
    assert ids[..|items|] == ids;
    forall k, b | 0 <= k < |ids| && Edge(g, ids[k], b)
      ensures b in ids[..k]
    {
      assert Fine(items, k) && b in items[k].dependencies.value;
    }
    FinishedIsAcyclic(g, ids);
  }

  /** The check itself.  It may answer that a cycle was found, but never does:
      each item has been compared with its position first. */
  method ValidGraph(items: seq<Item>) returns (valid: bool, message: string)
    ensures (valid, message) == Verdict(items)
  {
    if !Named(items) || !Unique(Ids(items)) {
      return false, NEEDS_IDS;
    }
    var ids := Ids(items);
    var graph: Digraph := map[];
    var k := 0;
    while k < |items|
      invariant 0 <= k <= |items|
      invariant FirstProblem(items, k) == FirstProblem(items, 0)
      invariant Describes(graph, items, k)
    {
      var problem := Problem(items, k);
      if problem.Some? {
        return false, problem.value;
      }
      graph := graph[ids[k] := items[k].dependencies.value];
      k := k + 1;
    }
    VerdictMeansOrdered(items);
    OrderedHasNoCycle(items, graph);
    assert ids[..|items|] == ids;
    var search := AssertAcyclic(graph, ids);
    if search.Err? {
      return false, CYCLE;
    }
    return true, VALID;
  }

  /** In particular the message about cycles is never given. */
  lemma CycleIsNeverReported(items: seq<Item>)
    ensures Verdict(items).1 != CYCLE
  {
    if Named(items) {
      ProblemsAreNotCycle(items, 0);
    }
  }

  lemma {:induction false} ProblemsAreNotCycle(items: seq<Item>, k: nat)
    requires Named(items) && k <= |items|
    ensures FirstProblem(items, k) != Some(CYCLE)
    decreases |items| - k
  {
    if k < |items| {
      ProblemsAreNotCycle(items, k + 1);
      var id := Ids(items)[k];
      EndsDiffer(id, " dependencies must be a string list");
      EndsDiffer(id, " references an unknown dependency");
      EndsDiffer(id, " dependency is not earlier in output order");
    }
  }

  lemma EndsDiffer(id: string, end: string)
    requires end != [] && end[|end| - 1] != 'd'
    ensures id + end != CYCLE
  {
    assert (id + end)[|id + end| - 1] == end[|end| - 1];
    assert CYCLE[|CYCLE| - 1] == 'd';
  }
}
