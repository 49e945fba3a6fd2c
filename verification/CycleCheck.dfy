/**
 The depth-first graph check and the ancestor work list. The blueprint schema
 (`BlueprintInput.dag`) and the cloud-init contract (`validate_cloud_init_workflow`)
 each nest a copy of both; the cloud-init copy also reports a dependency on a step
 that does not exist, which the schema has already ruled out when it searches.
 */
module CycleCheck {
  import opened DependencyGraph

  datatype Verdict = Sound | MissingStep | Cyclic

  /** What the ghost history of a search says about its two sets. */
  datatype History = History(chain: seq<StepId>, rank: map<StepId, nat>, clock: nat)

  ghost predicate Consistent(g: Graph, visiting: set<StepId>, visited: set<StepId>, h: History) {
    && visiting <= g.Keys
    && visited <= g.Keys
    && visiting !! visited
    && (forall x :: x in visiting <==> x in h.chain)
    && IsPath(g, h.chain)
    && h.rank.Keys == visited
    && (forall a :: a in visited ==> h.rank[a] < h.clock)
    && (forall a, b :: a in visited && Edge(g, a, b) ==> b in visited && h.rank[b] < h.rank[a])
  }

  /** The step may be visited next: the search starts with it or its last step waits for it. */
  ghost predicate Follows(g: Graph, h: History, node: StepId) {
    h.chain == [] || Edge(g, h.chain[|h.chain| - 1], node)
  }

  ghost function Entered(h: History, node: StepId): History {
    h.(chain := h.chain + [node])
  }

  ghost function Finished(h: History, node: StepId): History
    requires h.chain != []
  {
    History(h.chain[..|h.chain| - 1], h.rank[node := h.clock], h.clock + 1)
  }

  /** A step met again while it is still being visited closes a cycle. */
  lemma RevisitIsCycle(g: Graph, visiting: set<StepId>, visited: set<StepId>, h: History, node: StepId)
    requires Consistent(g, visiting, visited, h) && Follows(g, h, node) && node in visiting
    ensures DependsOn(g, node, node)
  {
    var i :| 0 <= i < |h.chain| && h.chain[i] == node;
    PathExtends(g, h.chain, node);
    SubpathConnects(g, h.chain + [node], i, |h.chain|);
  }

  lemma EnterKeeps(g: Graph, visiting: set<StepId>, visited: set<StepId>, h: History, node: StepId)
    requires Consistent(g, visiting, visited, h) && Follows(g, h, node)
    requires node in g && node !in visiting && node !in visited
    ensures Consistent(g, visiting + {node}, visited, Entered(h, node))
    ensures |g.Keys - (visiting + {node})| < |g.Keys - visiting|
  {
    PathExtends(g, h.chain, node);
    SubsetIsSmaller(g.Keys - (visiting + {node}), g.Keys - visiting);
  }

  lemma FinishKeeps(g: Graph, visiting: set<StepId>, visited: set<StepId>, h: History, node: StepId,
                    outer: set<StepId>, outerChain: seq<StepId>)
    requires Consistent(g, visiting, visited, h)
    requires visiting == outer + {node} && node !in outer && h.chain == outerChain + [node]
    requires forall x :: x in outer <==> x in outerChain
    requires forall b :: Edge(g, node, b) ==> b in visited
    ensures Consistent(g, outer, visited + {node}, Finished(h, node))
    ensures Finished(h, node).chain == outerChain
  {
  }

  ghost predicate AllIn(steps: seq<StepId>, s: set<StepId>) {
    forall x :: x in steps ==> x in s
  }

  lemma AllInGrows(steps: seq<StepId>, i: nat, s: set<StepId>, t: set<StepId>)
    requires i < |steps| && AllIn(steps[..i], s) && s <= t && steps[i] in t
    ensures AllIn(steps[..i + 1], t)
  {
  }

  lemma AllInWhole(steps: seq<StepId>, s: set<StepId>)
    requires AllIn(steps[..|steps|], s)
    ensures AllIn(steps, s)
  {
  }

  /** The two sets shared by the nested `visit` calls. */
  class Visitor {
    const graph: Graph
    var visiting: set<StepId>
    var visited: set<StepId>
    ghost var history: History

    ghost predicate Valid()
      reads this
    {
      Consistent(graph, visiting, visited, history)
    }

    constructor (graph: Graph)
      ensures Valid() && this.graph == graph && visiting == {} && visited == {} && history.chain == []
    {
      this.graph := graph;
      visiting, visited := {}, {};
      history := History([], map[], 0);
    }

    method Enter(node: StepId)
      requires Valid() && node in graph && Follows(graph, history, node)
      requires node !in visiting && node !in visited
      modifies this
      ensures Valid() && visited == old(visited) && visiting == old(visiting) + {node}
      ensures history.chain == old(history.chain) + [node]
      ensures |graph.Keys - visiting| < old(|graph.Keys - visiting|)
    {
      EnterKeeps(graph, visiting, visited, history, node);
      visiting, history := visiting + {node}, Entered(history, node);
    }

    method Leave(node: StepId, ghost outer: set<StepId>, ghost outerChain: seq<StepId>)
      requires Valid() && visiting == outer + {node} && node !in outer
      requires history.chain == outerChain + [node] && forall x :: x in outer <==> x in outerChain
      requires forall b :: Edge(graph, node, b) ==> b in visited
      modifies this
      ensures Valid() && visited == old(visited) + {node} && visiting == outer && history.chain == outerChain
    {
      FinishKeeps(graph, visiting, visited, history, node, outer, outerChain);
      visiting, visited := visiting - {node}, visited + {node};
      history := Finished(history, node);
      assert visiting == outer;
    }

    method Visit(node: StepId) returns (v: Verdict)
      requires Valid() && Follows(graph, history, node)
      requires history.chain == [] ==> node in graph
      modifies this
      ensures v.Sound? ==> Valid() && node in visited && old(visited) <= visited
      ensures v.Sound? ==> visiting == old(visiting) && history.chain == old(history.chain)
      ensures v.MissingStep? ==> !Closed(graph)
      ensures v.Cyclic? ==> exists x :: DependsOn(graph, x, x)
      decreases |graph.Keys - visiting|
    {
      if node !in graph {
        return MissingStep;
      }
      if node in visiting {
        RevisitIsCycle(graph, visiting, visited, history, node);
        return Cyclic;
      }
      if node in visited {
        return Sound;
      }
      Enter(node);
      var parents := graph[node];
      for i := 0 to |parents|
        invariant Valid() && old(visited) <= visited
        invariant visiting == old(visiting) + {node} && history.chain == old(history.chain) + [node]
        invariant AllIn(parents[..i], visited)
      {
        assert Edge(graph, node, parents[i]);
        ghost var seen := visited;
        v := Visit(parents[i]);
        if !v.Sound? {
          return;
        }
        AllInGrows(parents, i, seen, visited);
      }
      AllInWhole(parents, visited);
      Leave(node, old(visiting), old(history.chain));
      return Sound;
    }
  }

  lemma SubsetIsSmaller(a: set<StepId>, b: set<StepId>)
    requires a < b
    ensures |a| < |b|
  {
    assert b == a + (b - a);
    assert |b| == |a| + |b - a|;
  }

  /** Exactly the closed graphs with a topological rank pass, whatever order the steps are visited in. */
  method CheckGraph(graph: Graph, order: seq<StepId>) returns (v: Verdict)
    requires forall x :: x in order <==> x in graph
    ensures v.Sound? <==> Closed(graph) && HasRank(graph)
    ensures v.MissingStep? ==> !Closed(graph)
    ensures v.Cyclic? ==> !HasRank(graph)
  {
    var visitor := new Visitor(graph);
    for i := 0 to |order|
      invariant visitor.Valid() && visitor.graph == graph && visitor.history.chain == []
      invariant fresh(visitor)
      invariant forall k :: 0 <= k < i ==> order[k] in visitor.visited
    {
      v := visitor.Visit(order[i]);
      if v.Cyclic? {
        ghost var x :| DependsOn(graph, x, x);
        CycleHasNoRank(graph, x);
        return;
      }
      if v.MissingStep? {
        return;
      }
    }
    assert IsRank(graph, visitor.history.rank);
    return Sound;
  }

  /** The work list collects exactly what `start` depends on, duplicates in the list included. */
  method Ancestors(graph: Graph, start: StepId) returns (result: set<StepId>)
    requires Closed(graph) && start in graph
    ensures forall x :: x in result <==> DependsOn(graph, start, x)
  {
    result := {};
    var pending := graph[start];
    forall x | x in pending ensures x in graph && DependsOn(graph, start, x) {
      assert Edge(graph, start, x);
      EdgeIsDependency(graph, start, x);
    }
    while pending != []
      invariant result <= graph.Keys
      invariant forall x :: x in pending ==> x in graph
      invariant forall x :: x in result || x in pending ==> DependsOn(graph, start, x)
      invariant forall b :: Edge(graph, start, b) ==> b in result || b in pending
      invariant forall a, b :: a in result && Edge(graph, a, b) ==> b in result || b in pending
      decreases |graph.Keys - result|, |pending|
    {
      var parent := pending[|pending| - 1];
      ghost var before := pending;
      pending := pending[..|pending| - 1];
      assert before == pending + [parent];
      if parent in result {
        continue;
      }
      SubsetIsSmaller(graph.Keys - (result + {parent}), graph.Keys - result);
      forall x | x in graph[parent] ensures x in graph && DependsOn(graph, start, x) {
        assert Edge(graph, parent, x);
        DependencyExtends(graph, start, parent, x);
      }
      result := result + {parent};
      pending := pending + graph[parent];
    }
    forall x | DependsOn(graph, start, x) ensures x in result {
      var p :| Connects(graph, p, start, x);
      ClosedSetHoldsPath(graph, result, p, |p| - 1);
    }
  }
}
