/**
 Dependency graphs of workflow steps: paths, transitive dependency, and the
 topological rank that is the reference meaning of "acyclic".
 */
module DependencyGraph {

  type StepId = string

  /** Maps a step to the steps it waits for, in the order they are listed. */
  type Graph = map<StepId, seq<StepId>>

  ghost predicate Edge(g: Graph, a: StepId, b: StepId) {
    a in g && b in g[a]
  }

  /** Every dependency names a step of the graph. */
  ghost predicate Closed(g: Graph) {
    forall a, b :: Edge(g, a, b) ==> b in g
  }

  ghost predicate IsPath(g: Graph, p: seq<StepId>) {
    forall i, j :: 0 <= i && j == i + 1 && j < |p| ==> Edge(g, p[i], p[j])
  }

  ghost predicate Connects(g: Graph, p: seq<StepId>, a: StepId, b: StepId) {
    |p| >= 2 && p[0] == a && p[|p| - 1] == b && IsPath(g, p)
  }

  /** `a` waits, directly or through other steps, for `b`. */
  ghost predicate DependsOn(g: Graph, a: StepId, b: StepId) {
    exists p :: Connects(g, p, a, b)
  }

  ghost predicate IsRank(g: Graph, rank: map<StepId, nat>) {
    forall a, b :: Edge(g, a, b) ==> a in rank && b in rank && rank[b] < rank[a]
  }

  /** A numbering exists in which every step comes after all of its dependencies. */
  ghost predicate HasRank(g: Graph) {
    exists rank :: IsRank(g, rank)
  }

  lemma EdgeIsDependency(g: Graph, a: StepId, b: StepId)
    requires Edge(g, a, b)
    ensures DependsOn(g, a, b)
  {
    assert Connects(g, [a, b], a, b);
  }

  lemma DependencyIsTransitive(g: Graph, a: StepId, b: StepId, c: StepId)
    requires DependsOn(g, a, b) && DependsOn(g, b, c)
    ensures DependsOn(g, a, c)
  {
    var p :| Connects(g, p, a, b);
    var q :| Connects(g, q, b, c);
    var r := p + q[1..];
    forall i, j | 0 <= i && j == i + 1 && j < |r| ensures Edge(g, r[i], r[j]) {
      if j < |p| {
        assert Edge(g, p[i], p[j]);
      } else {
        assert Edge(g, q[i - |p| + 1], q[j - |p| + 1]);
      }
    }
    assert Connects(g, r, a, c);
  }

  lemma DependencyExtends(g: Graph, a: StepId, b: StepId, c: StepId)
    requires DependsOn(g, a, b) && Edge(g, b, c)
    ensures DependsOn(g, a, c)
  {
    EdgeIsDependency(g, b, c);
    DependencyIsTransitive(g, a, b, c);
  }

  lemma SubpathConnects(g: Graph, p: seq<StepId>, i: nat, j: nat)
    requires IsPath(g, p) && i < j < |p|
    ensures Connects(g, p[i..j + 1], p[i], p[j])
  {
  }

  lemma PathExtends(g: Graph, p: seq<StepId>, n: StepId)
    requires IsPath(g, p)
    requires p == [] || Edge(g, p[|p| - 1], n)
    ensures IsPath(g, p + [n])
  {
  }

  /** A set that holds the direct dependencies of `a` and is closed holds everything `a` depends on. */
  lemma {:induction false} ClosedSetHoldsPath(g: Graph, s: set<StepId>, p: seq<StepId>, k: nat)
    requires IsPath(g, p) && 1 <= k < |p|
    requires forall b :: Edge(g, p[0], b) ==> b in s
    requires forall a, b :: a in s && Edge(g, a, b) ==> b in s
    ensures p[k] in s
  {
    assert Edge(g, p[k - 1], p[k]);
    if k > 1 {
      ClosedSetHoldsPath(g, s, p, k - 1);
    }
  }

  /** Ranks strictly fall along dependencies, so a ranked graph has no cycle. */
  lemma {:induction false} RankFallsAlongPath(g: Graph, rank: map<StepId, nat>, p: seq<StepId>, k: nat)
    requires IsRank(g, rank) && IsPath(g, p) && 1 <= k < |p|
    ensures p[0] in rank && p[k] in rank && rank[p[k]] < rank[p[0]]
  {
    assert Edge(g, p[k - 1], p[k]);
    if k > 1 {
      RankFallsAlongPath(g, rank, p, k - 1);
    }
  }

  lemma RankFalls(g: Graph, rank: map<StepId, nat>, a: StepId, b: StepId)
    requires IsRank(g, rank) && DependsOn(g, a, b)
    ensures a in rank && b in rank && rank[b] < rank[a]
  {
    var p :| Connects(g, p, a, b);
    RankFallsAlongPath(g, rank, p, |p| - 1);
  }

  lemma CycleHasNoRank(g: Graph, a: StepId)
    requires DependsOn(g, a, a)
    ensures !HasRank(g)
  {
    forall rank | IsRank(g, rank) ensures false {
      RankFalls(g, rank, a, a);
    }
  }
}
