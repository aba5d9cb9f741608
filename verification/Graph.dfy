/** Cycle detection by depth-first search, as `_assert_acyclic` does it. */
module Graph {
  import opened Outcomes

  type Node = string

  type Digraph = map<Node, seq<Node>>

  /** An edge counts only between keys of the graph. */
  predicate Edge(g: Digraph, a: Node, b: Node) {
    a in g && b in g && b in g[a]
  }

  predicate Path(g: Digraph, p: seq<Node>) {
    forall k | 0 < k < |p| :: Edge(g, p[k - 1], p[k])
  }

  ghost predicate HasCycle(g: Digraph) {
    exists p: seq<Node> :: |p| >= 2 && Path(g, p) && p[0] == p[|p| - 1]
  }

  /** Every edge out of a listed node leads to a node listed before it. */
  ghost predicate Finished(g: Digraph, order: seq<Node>) {
    forall k, b | 0 <= k < |order| && Edge(g, order[k], b) :: b in order[..k]
  }

  lemma {:induction false} PathsDescend(g: Digraph, order: seq<Node>, k: nat, p: seq<Node>)
    requires Finished(g, order) && k < |order|
    requires |p| >= 2 && Path(g, p) && p[0] == order[k]
    ensures p[|p| - 1] in order[..k]
    decreases |p|
  {
    assert Edge(g, p[0], p[1]);
    var j :| 0 <= j < k && order[j] == p[1];
    if |p| > 2 {
      assert Path(g, p[1..]) by {
        forall i | 0 < i < |p[1..]|
          ensures Edge(g, p[1..][i - 1], p[1..][i])
        {
          assert Edge(g, p[i], p[i + 1]);
        }
      }
      PathsDescend(g, order, j, p[1..]);
    }
  }

  lemma {:induction false} NoReturn(g: Digraph, order: seq<Node>, k: nat, p: seq<Node>)
    requires Finished(g, order) && k < |order|
    requires |p| >= 2 && Path(g, p) && p[0] == order[k] && p[|p| - 1] == p[0]
    ensures false
    decreases k
  {
    PathsDescend(g, order, k, p);
    var j :| 0 <= j < k && order[j] == p[0];
    NoReturn(g, order, j, p);
  }

  /** A finished order of all keys rules out cycles. */
  lemma FinishedIsAcyclic(g: Digraph, order: seq<Node>)
    requires Finished(g, order) && forall x | x in g :: x in order
    ensures !HasCycle(g)
  {
    forall p: seq<Node> | |p| >= 2 && Path(g, p) && p[0] == p[|p| - 1]
      ensures false
    {
      assert Edge(g, p[0], p[1]);
      var k :| 0 <= k < |order| && order[k] == p[0];
      NoReturn(g, order, k, p);
    }
  }

  lemma FinishOne(g: Digraph, order: seq<Node>, a: Node)
    requires Finished(g, order) && forall b | Edge(g, a, b) :: b in order
    ensures Finished(g, order + [a])
  {
    var more := order + [a];
    forall k, b | 0 <= k < |more| && Edge(g, more[k], b)
      ensures b in more[..k]
    {
      if k < |order| {
        assert more[..k] == order[..k];
      } else {
        assert more[..k] == order;
      }
    }
  }

  /** Extending a path by an edge out of its last node. */
  lemma PathGrows(g: Digraph, p: seq<Node>, b: Node)
    requires Path(g, p) && (p != [] ==> Edge(g, p[|p| - 1], b))
    ensures Path(g, p + [b])
  {
    forall i | 0 < i < |p + [b]|
      ensures Edge(g, (p + [b])[i - 1], (p + [b])[i])
    {
      if i < |p| {
        assert Edge(g, p[i - 1], p[i]);
      }
    }
  }

  /** A path that comes back to one of its nodes is a cycle. */
  lemma ClosedPathIsCycle(g: Digraph, stack: seq<Node>, a: Node)
    requires Path(g, stack + [a]) && a in stack
    ensures HasCycle(g)
  {
    var p := stack + [a];
    var k :| 0 <= k < |stack| && stack[k] == a;
    var loop := p[k..];
    forall i | 0 < i < |loop|
      ensures Edge(g, loop[i - 1], loop[i])
    {
      assert Edge(g, p[k + i - 1], p[k + i]);
    }
    assert loop[0] == loop[|loop| - 1];
  }

  /** The two sets that the nested function `visit` shares. */
  class Search {
    const graph: Digraph
    var visiting: set<Node>
    var visited: set<Node>
    ghost var order: seq<Node>

    ghost predicate Valid()
      reads this
    {
      && visiting <= graph.Keys
      && visited == (set x | x in order)
      && visited <= graph.Keys
      && Finished(graph, order)
    }

    constructor (graph: Digraph)
      ensures Valid() && this.graph == graph && visiting == {} && order == []
    {
      this.graph := graph;
      visiting, visited, order := {}, {}, [];
    }

    /** Visits one node below the nodes on `stack`, which lead to it.  Returns
        false when it finds a cycle. */
    method Visit(identity: Node, ghost stack: seq<Node>) returns (ok: bool)
      requires Valid() && identity in graph
      requires visiting == (set x | x in stack) && Path(graph, stack + [identity])
      modifies this
      ensures Valid()
      ensures ok ==> visiting == old(visiting) && old(visited) <= visited && identity in visited
      ensures !ok ==> HasCycle(graph)
      decreases graph.Keys - visiting
    {
      if identity in visiting {
        ClosedPathIsCycle(graph, stack, identity);
        return false;
      }
      if identity in visited {
        return true;
      }
      visiting := visiting + {identity};
      ghost var below := stack + [identity];
      assert visiting == (set x | x in below);
      var required := graph[identity];
      var n := 0;
      while n < |required|
        invariant 0 <= n <= |required|
        invariant Valid() && visiting == old(visiting) + {identity} && old(visited) <= visited
        invariant forall b | b in required[..n] && b in graph :: b in visited
      {
        if required[n] in graph {
          PathGrows(graph, below, required[n]);
          ok := Visit(required[n], below);
          if !ok {
            return false;
          }
        }
        n := n + 1;
      }
      assert required[..n] == required;
      FinishOne(graph, order, identity);
      Finish(identity);
      return true;
    }

    method Finish(identity: Node)
      requires Valid() && identity in graph
      requires Finished(graph, order + [identity])
      modifies this
      ensures Valid()
      ensures visiting == old(visiting) - {identity} && visited == old(visited) + {identity}
    {
      visiting := visiting - {identity};
      visited := visited + {identity};
      order := order + [identity];
    }
  }

  /** Succeeds exactly on graphs without a cycle, and always terminates. */
  method AssertAcyclic(graph: Digraph, keys: seq<Node>) returns (r: Result<()>)
    requires forall x :: x in keys <==> x in graph
    ensures r == if HasCycle(graph) then Err("RELATION_CYCLE_INVALID") else Ok(())
  {
    var search := new Search(graph);
    var n := 0;
    while n < |keys|
      invariant 0 <= n <= |keys|
      invariant search.Valid() && search.graph == graph && search.visiting == {}
      invariant forall x | x in keys[..n] :: x in search.visited
    {
      var ok := search.Visit(keys[n], []);
      if !ok {
        return Err("RELATION_CYCLE_INVALID");
      }
      n := n + 1;
    }
    assert keys[..n] == keys;
    FinishedIsAcyclic(graph, search.order);
    return Ok(());
  }
}
