/**
 The step list snapshotted when a blueprint is executed (`_execution_workflow_steps`).
 When AWX onboarding is offered and declined, the register_awx steps are removed and
 their dependencies are spliced into the steps that waited for them.
 */
module AwxSplice {
  import opened DependencyGraph
  import opened Contraction
  import opened Workflow
  import opened BlueprintDag
  import opened CycleCheck

  function Expansion(removed: Graph, dependency: StepId, seen: set<StepId>): seq<StepId>
    decreases |removed.Keys - seen|, 0
  {
    if dependency !in removed then [dependency]
    else if dependency in seen then []
    else
      SubsetIsSmaller(removed.Keys - (seen + {dependency}), removed.Keys - seen);
      Expansions(removed, removed[dependency], seen + {dependency})
  }

  function Expansions(removed: Graph, dependencies: seq<StepId>, seen: set<StepId>): seq<StepId>
    decreases |removed.Keys - seen|, 1 + |dependencies|
  {
    if dependencies == [] then []
    else Expansion(removed, dependencies[0], seen) + Expansions(removed, dependencies[1..], seen)
  }

  lemma {:induction false} ExpansionsAppend(removed: Graph, xs: seq<StepId>, x: StepId, seen: set<StepId>)
    ensures Expansions(removed, xs + [x], seen) == Expansions(removed, xs, seen) + Expansion(removed, x, seen)
  {
    if xs == [] {
      assert xs + [x] == [x];
      assert Expansions(removed, [], seen) == [];
      assert [x][1..] == [];
    } else {
      ExpansionsAppend(removed, xs[1..], x, seen);
      assert (xs + [x])[1..] == xs[1..] + [x];
    }
  }

  /** The nested `expand`: its own copy of `seen` makes it terminate on cyclic removed steps as well. */
  method Expand(removed: Graph, dependency: StepId, seen: set<StepId>) returns (result: seq<StepId>)
    ensures result == Expansion(removed, dependency, seen)
    decreases |removed.Keys - seen|
  {
    if dependency !in removed {
      return [dependency];
    }
    if dependency in seen {
      return [];
    }
    SubsetIsSmaller(removed.Keys - (seen + {dependency}), removed.Keys - seen);
    result := [];
    var parents := removed[dependency];
    for i := 0 to |parents|
      invariant result == Expansions(removed, parents[..i], seen + {dependency})
    {
      var more := Expand(removed, parents[i], seen + {dependency});
      ExpansionsAppend(removed, parents[..i], parents[i], seen + {dependency});
      assert parents[..i + 1] == parents[..i] + [parents[i]];
      result := result + more;
    }
    assert parents[..|parents|] == parents;
  }

  lemma {:induction false} ExpansionSound(removed: Graph, dependency: StepId, seen: set<StepId>, x: StepId)
    requires x in Expansion(removed, dependency, seen)
    ensures ExpandsTo(removed, dependency, x)
    decreases |removed.Keys - seen|, 0
  {
    if dependency in removed {
      SubsetIsSmaller(removed.Keys - (seen + {dependency}), removed.Keys - seen);
      var d := ExpansionsSound(removed, removed[dependency], seen + {dependency}, x);
      assert Edge(removed, dependency, d);
      EdgeIsDependency(removed, dependency, d);
      if d != x {
        DependencyIsTransitive(removed, dependency, d, x);
      }
    }
  }

  lemma {:induction false} ExpansionsSound(removed: Graph, dependencies: seq<StepId>, seen: set<StepId>, x: StepId)
    returns (d: StepId)
    requires x in Expansions(removed, dependencies, seen)
    ensures d in dependencies && ExpandsTo(removed, d, x)
    decreases |removed.Keys - seen|, 1 + |dependencies|
  {
    if x in Expansion(removed, dependencies[0], seen) {
      ExpansionSound(removed, dependencies[0], seen, x);
      d := dependencies[0];
    } else {
      d := ExpansionsSound(removed, dependencies[1..], seen, x);
    }
  }

  lemma {:induction false} ExpansionsContain(removed: Graph, dependencies: seq<StepId>, seen: set<StepId>, d: StepId, x: StepId)
    requires d in dependencies && x in Expansion(removed, d, seen)
    ensures x in Expansions(removed, dependencies, seen)
  {
    if d != dependencies[0] {
      ExpansionsContain(removed, dependencies[1..], seen, d, x);
    }
  }

  /** No step occurs twice. */
  ghost predicate NoDuplicates(xs: seq<StepId>) {
    forall i, j :: 0 <= i < j < |xs| ==> xs[i] != xs[j]
  }

  lemma {:induction false} SimplePathExists(g: Graph, p: seq<StepId>, a: StepId, b: StepId) returns (q: seq<StepId>)
    requires Connects(g, p, a, b) && a != b
    ensures Connects(g, q, a, b) && NoDuplicates(q)
    decreases |p|
  {
    if NoDuplicates(p) {
      return p;
    }
    var i, j :| 0 <= i < j < |p| && p[i] == p[j];
    var r := p[..i] + p[j..];
    forall k, l | 0 <= k && l == k + 1 && l < |r| ensures Edge(g, r[k], r[l]) {
      if l < i {
        assert Edge(g, p[k], p[l]);
      } else if l == i {
        assert Edge(g, p[k], p[l]);
      } else {
        assert Edge(g, p[k + j - i], p[l + j - i]);
      }
    }
    assert r[|r| - 1] == b && r[0] == a;
    q := SimplePathExists(g, r, a, b);
  }

  lemma {:induction false} ExpansionFollowsPath(removed: Graph, p: seq<StepId>, seen: set<StepId>)
    requires |p| >= 1 && IsPath(removed, p) && NoDuplicates(p) && p[|p| - 1] !in removed
    requires forall i :: 0 <= i < |p| - 1 ==> p[i] !in seen
    ensures p[|p| - 1] in Expansion(removed, p[0], seen)
    decreases |p|
  {
    if |p| > 1 {
      assert Edge(removed, p[0], p[1]);
      SubpathConnects(removed, p, 0, |p| - 1);
      forall i, j | 0 <= i && j == i + 1 && j < |p[1..]| ensures Edge(removed, p[1..][i], p[1..][j]) {
        assert Edge(removed, p[i + 1], p[j + 1]);
      }
      ExpansionFollowsPath(removed, p[1..], seen + {p[0]});
      ExpansionsContain(removed, removed[p[0]], seen + {p[0]}, p[1], p[|p| - 1]);
    }
  }

  /** `expand` returns exactly the kept steps reachable through removed steps. */
  lemma ExpansionExact(removed: Graph, dependency: StepId, x: StepId)
    ensures x in Expansion(removed, dependency, {}) <==> ExpandsTo(removed, dependency, x)
  {
    if x in Expansion(removed, dependency, {}) {
      ExpansionSound(removed, dependency, {}, x);
    }
    if ExpandsTo(removed, dependency, x) && x != dependency {
      var p :| Connects(removed, p, dependency, x);
      var q := SimplePathExists(removed, p, dependency, x);
      ExpansionFollowsPath(removed, q, {});
    }
  }

  lemma ExpansionsExact(removed: Graph, dependencies: seq<StepId>, x: StepId)
    ensures x in Expansions(removed, dependencies, {}) <==> exists d :: d in dependencies && ExpandsTo(removed, d, x)
  {
    if x in Expansions(removed, dependencies, {}) {
      var d := ExpansionsSound(removed, dependencies, {}, x);
    }
    forall d | d in dependencies && ExpandsTo(removed, d, x) ensures x in Expansions(removed, dependencies, {}) {
      ExpansionExact(removed, d, x);
      ExpansionsContain(removed, dependencies, {}, d, x);
    }
  }

  /** Appends the elements of `xs` that are not there yet, in order. */
  function AddNew(acc: seq<StepId>, xs: seq<StepId>): seq<StepId>
    decreases |xs|
  {
    if xs == [] then acc
    else AddNew(if xs[0] in acc then acc else acc + [xs[0]], xs[1..])
  }

  lemma {:induction false} AddNewCollects(acc: seq<StepId>, xs: seq<StepId>)
    requires NoDuplicates(acc)
    ensures NoDuplicates(AddNew(acc, xs))
    ensures forall x :: x in AddNew(acc, xs) <==> x in acc || x in xs
    decreases |xs|
  {
    if xs != [] {
      var next := if xs[0] in acc then acc else acc + [xs[0]];
      AddNewCollects(next, xs[1..]);
      assert xs == [xs[0]] + xs[1..];
    }
  }

  lemma {:induction false} AddNewAppend(acc: seq<StepId>, xs: seq<StepId>, ys: seq<StepId>)
    ensures AddNew(acc, xs + ys) == AddNew(AddNew(acc, xs), ys)
    decreases |xs|
  {
    if xs == [] {
      assert xs + ys == ys;
    } else {
      assert (xs + ys)[1..] == xs[1..] + ys;
      AddNewAppend(if xs[0] in acc then acc else acc + [xs[0]], xs[1..], ys);
    }
  }

  function SplicedDependencies(removed: Graph, dependencies: seq<StepId>): seq<StepId> {
    AddNew([], Expansions(removed, dependencies, {}))
  }

  /** The kept steps in their order, with only their dependency lists rewritten. */
  function Spliced(removed: Graph, steps: seq<Step>): seq<Step> {
    if steps == [] then []
    else
      var init, last := steps[..|steps| - 1], steps[|steps| - 1];
      if last.kind == RegisterAwx then Spliced(removed, init)
      else Spliced(removed, init) + [last.(dependsOn := SplicedDependencies(removed, last.dependsOn))]
  }

  function RemovedSteps(steps: seq<Step>): Graph {
    GraphOf(OfKind(steps, RegisterAwx))
  }

  /** The snapshot when the operator was asked about AWX and declined. */
  function Declined(steps: seq<Step>): seq<Step> {
    if RemovedSteps(steps) == map[] then steps else Spliced(RemovedSteps(steps), steps)
  }

  /** The inner two loops: expand each dependency and keep first occurrences. */
  method SpliceDependencies(removed: Graph, dependencies: seq<StepId>) returns (result: seq<StepId>)
    ensures result == SplicedDependencies(removed, dependencies)
  {
    result := [];
    for i := 0 to |dependencies|
      invariant result == AddNew([], Expansions(removed, dependencies[..i], {}))
    {
      var expanded := Expand(removed, dependencies[i], {});
      ghost var before := result;
      for j := 0 to |expanded|
        invariant result == AddNew(before, expanded[..j])
      {
        AddNewAppend(before, expanded[..j], [expanded[j]]);
        assert expanded[..j + 1] == expanded[..j] + [expanded[j]];
        if expanded[j] !in result {
          result := result + [expanded[j]];
        }
      }
      assert expanded[..|expanded|] == expanded;
      AddNewAppend([], Expansions(removed, dependencies[..i], {}), expanded);
      ExpansionsAppend(removed, dependencies[..i], dependencies[i], {});
      assert dependencies[..i + 1] == dependencies[..i] + [dependencies[i]];
    }
    assert dependencies[..|dependencies|] == dependencies;
  }

  method ExecutionWorkflowSteps(steps: seq<Step>, promptAwxOnExecute: bool, awxChosen: bool) returns (result: seq<Step>)
    ensures result == if promptAwxOnExecute && !awxChosen then Declined(steps) else steps
  {
    if !promptAwxOnExecute || awxChosen {
      return steps;
    }
    var removed := RemovedSteps(steps);
    if removed == map[] {
      return steps;
    }
    result := [];
    for i := 0 to |steps|
      invariant result == Spliced(removed, steps[..i])
    {
      assert steps[..i + 1][..i] == steps[..i];
      if steps[i].kind == RegisterAwx {
        continue;
      }
      var dependencies := SpliceDependencies(removed, steps[i].dependsOn);
      result := result + [steps[i].(dependsOn := dependencies)];
    }
    assert steps[..|steps|] == steps;
  }
}
