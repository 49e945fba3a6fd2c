/**
 Removing nodes from a dependency graph and splicing their dependencies into the nodes
 that waited for them, and why the dependencies between the remaining nodes stay the same.
 */
module Contraction {
  import opened DependencyGraph

  /** Following only removed steps from `dependency` leads to the kept step `x`. */
  ghost predicate ExpandsTo(removed: Graph, dependency: StepId, x: StepId) {
    x !in removed && (x == dependency || DependsOn(removed, dependency, x))
  }

  /** `h` is `g` without the removed steps, with their dependencies spliced in. */
  ghost predicate IsContraction(g: Graph, removed: Graph, h: Graph) {
    && (forall k :: k in removed ==> k in g && removed[k] == g[k])
    && (forall a, x :: Edge(h, a, x) ==> a !in removed && SplicedEdge(g, removed, a, x))
    && (forall a, x :: a !in removed && SplicedEdge(g, removed, a, x) ==> Edge(h, a, x))
  }

  ghost predicate SplicedEdge(g: Graph, removed: Graph, a: StepId, x: StepId) {
    exists d :: Edge(g, a, d) && ExpandsTo(removed, d, x)
  }

  lemma RemovedPathIsPath(g: Graph, removed: Graph, d: StepId, x: StepId)
    requires forall k :: k in removed ==> k in g && removed[k] == g[k]
    requires DependsOn(removed, d, x)
    ensures DependsOn(g, d, x)
  {
    var p :| Connects(removed, p, d, x);
    forall i, j | 0 <= i && j == i + 1 && j < |p| ensures Edge(g, p[i], p[j]) {
      assert Edge(removed, p[i], p[j]);
    }
    assert Connects(g, p, d, x);
  }

  /** An edge of the contraction stands for a dependency of the original graph. */
  lemma SplicedEdgeDepends(g: Graph, removed: Graph, h: Graph, a: StepId, x: StepId)
    requires IsContraction(g, removed, h) && Edge(h, a, x)
    ensures DependsOn(g, a, x)
  {
    var d :| Edge(g, a, d) && ExpandsTo(removed, d, x);
    EdgeIsDependency(g, a, d);
    if d != x {
      RemovedPathIsPath(g, removed, d, x);
      DependencyIsTransitive(g, a, d, x);
    }
  }

  lemma {:induction false} ContractionPathDepends(g: Graph, removed: Graph, h: Graph, p: seq<StepId>)
    requires IsContraction(g, removed, h) && |p| >= 2 && IsPath(h, p)
    ensures DependsOn(g, p[0], p[|p| - 1])
    decreases |p|
  {
    assert Edge(h, p[0], p[1]);
    SplicedEdgeDepends(g, removed, h, p[0], p[1]);
    if |p| > 2 {
      SubpathConnects(h, p, 1, |p| - 1);
      assert p[1..|p|] == p[1..];
      ContractionPathDepends(g, removed, h, p[1..]);
      DependencyIsTransitive(g, p[0], p[1], p[|p| - 1]);
    }
  }

  /** The first kept step on a path, reached through removed steps only. */
  lemma {:induction false} FirstKept(g: Graph, removed: Graph, p: seq<StepId>, k: nat) returns (j: nat)
    requires forall n :: n in removed ==> n in g && removed[n] == g[n]
    requires IsPath(g, p) && k < |p| && p[|p| - 1] !in removed
    ensures k <= j < |p| && ExpandsTo(removed, p[k], p[j])
    decreases |p| - k
  {
    if p[k] !in removed {
      return k;
    }
    assert Edge(g, p[k], p[k + 1]);
    assert Edge(removed, p[k], p[k + 1]);
    j := FirstKept(g, removed, p, k + 1);
    EdgeIsDependency(removed, p[k], p[k + 1]);
    if p[j] != p[k + 1] {
      DependencyIsTransitive(removed, p[k], p[k + 1], p[j]);
    }
  }

  lemma {:induction false} PathSurvives(g: Graph, removed: Graph, h: Graph, p: seq<StepId>)
    requires IsContraction(g, removed, h) && |p| >= 2 && IsPath(g, p)
    requires p[0] !in removed && p[|p| - 1] !in removed
    ensures DependsOn(h, p[0], p[|p| - 1])
    decreases |p|
  {
    assert Edge(g, p[0], p[1]);
    var j := FirstKept(g, removed, p, 1);
    assert SplicedEdge(g, removed, p[0], p[j]);
    EdgeIsDependency(h, p[0], p[j]);
    if j < |p| - 1 {
      SubpathConnects(g, p, j, |p| - 1);
      assert p[j..|p|] == p[j..];
      PathSurvives(g, removed, h, p[j..]);
      DependencyIsTransitive(h, p[0], p[j], p[|p| - 1]);
    }
  }

  /** Between kept steps, transitive dependency is the same before and after. */
  lemma ContractionKeepsDependencies(g: Graph, removed: Graph, h: Graph, a: StepId, b: StepId)
    requires IsContraction(g, removed, h) && a !in removed && b !in removed
    ensures DependsOn(g, a, b) <==> DependsOn(h, a, b)
  {
    if DependsOn(g, a, b) {
      var p :| Connects(g, p, a, b);
      PathSurvives(g, removed, h, p);
    }
    if DependsOn(h, a, b) {
      var p :| Connects(h, p, a, b);
      ContractionPathDepends(g, removed, h, p);
    }
  }

  /** Any rank of the original graph ranks the contraction. */
  lemma ContractionKeepsRank(g: Graph, removed: Graph, h: Graph)
    requires IsContraction(g, removed, h) && HasRank(g)
    ensures HasRank(h)
  {
    var rank :| IsRank(g, rank);
    forall a, x | Edge(h, a, x) ensures a in rank && x in rank && rank[x] < rank[a] {
      SplicedEdgeDepends(g, removed, h, a, x);
      RankFalls(g, rank, a, x);
    }
    assert IsRank(h, rank);
  }
}
