/**
 What the snapshotted step list still guarantees after the register_awx steps were
 spliced out, and the one guarantee that needs an extra premise.
 */
module SpliceMeaning {
  import opened DependencyGraph
  import opened Contraction
  import opened Workflow
  import opened BlueprintDag
  import opened AwxSplice

  function Rewritten(removed: Graph, s: Step): Step {
    s.(dependsOn := SplicedDependencies(removed, s.dependsOn))
  }

  ghost predicate Kept(steps: seq<Step>, s: Step) {
    s in steps && s.kind != RegisterAwx
  }

  lemma {:induction false} SplicedSteps(removed: Graph, steps: seq<Step>)
    ensures forall s :: Kept(steps, s) ==> Rewritten(removed, s) in Spliced(removed, steps)
    ensures forall t :: t in Spliced(removed, steps) ==> exists s :: Kept(steps, s) && t == Rewritten(removed, s)
  {
    if steps != [] {
      var init, last := steps[..|steps| - 1], steps[|steps| - 1];
      SplicedSteps(removed, init);
      assert steps == init + [last];
      assert forall s :: Kept(init, s) ==> Kept(steps, s);
      forall t | t in Spliced(removed, steps) ensures exists s :: Kept(steps, s) && t == Rewritten(removed, s) {
        if t in Spliced(removed, init) {
          var s :| Kept(init, s) && t == Rewritten(removed, s);
          assert Kept(steps, s);
        } else {
          assert Kept(steps, last) && t == Rewritten(removed, last);
        }
      }
    }
  }

  lemma {:induction false} SplicedUnique(removed: Graph, steps: seq<Step>)
    requires UniqueIds(steps)
    ensures UniqueIds(Spliced(removed, steps))
  {
    if steps != [] {
      var init, last := steps[..|steps| - 1], steps[|steps| - 1];
      UniqueIdsSplit(steps);
      SplicedUnique(removed, init);
      SplicedSteps(removed, init);
      if last.kind != RegisterAwx {
        var all := Spliced(removed, steps);
        assert all[..|all| - 1] == Spliced(removed, init);
        IdMembers(init);
        IdMembers(all[..|all| - 1]);
        UniqueIdsSplit(all);
      }
    }
  }

  lemma IdMembers(steps: seq<Step>)
    ensures forall x :: x in Ids(steps) <==> exists s :: s in steps && s.id == x
  {
  }

  lemma SameIdSameStep(steps: seq<Step>, s: Step, t: Step)
    requires UniqueIds(steps) && s in steps && t in steps && s.id == t.id
    ensures s == t
  {
  }

  lemma {:induction false} OfKindUnique(steps: seq<Step>, kind: StepType)
    requires UniqueIds(steps)
    ensures UniqueIds(OfKind(steps, kind))
  {
    if steps != [] {
      var rest := OfKind(steps[1..], kind);
      assert UniqueIds(steps[1..]);
      OfKindUnique(steps[1..], kind);
      OfKindSelects(steps[1..], kind);
      if steps[0].kind == kind {
        forall i | 0 <= i < |rest| ensures rest[i].id != steps[0].id {
          assert rest[i] in steps[1..];
        }
      }
    }
  }

  lemma StepEdge(steps: seq<Step>, s: Step, x: StepId)
    requires UniqueIds(steps) && s in steps
    ensures Edge(GraphOf(steps), s.id, x) <==> x in s.dependsOn
  {
  }

  lemma StepOfNode(steps: seq<Step>, a: StepId) returns (s: Step)
    requires a in GraphOf(steps)
    ensures s in steps && s.id == a
  {
    GraphKeys(steps);
    IdMembers(steps);
    s :| s in steps && s.id == a;
  }

  /** The removed graph is the original graph on the register_awx steps. */
  lemma RemovedIsRestriction(steps: seq<Step>)
    requires UniqueIds(steps)
    ensures forall k :: k in RemovedSteps(steps) ==> k in GraphOf(steps) && RemovedSteps(steps)[k] == GraphOf(steps)[k]
    ensures forall s :: s in steps ==> (s.id in RemovedSteps(steps) <==> s.kind == RegisterAwx)
  {
    var awx := OfKind(steps, RegisterAwx);
    OfKindUnique(steps, RegisterAwx);
    OfKindSelects(steps, RegisterAwx);
    forall k | k in GraphOf(awx) ensures k in GraphOf(steps) && GraphOf(awx)[k] == GraphOf(steps)[k] {
      var s := StepOfNode(awx, k);
      var i :| 0 <= i < |awx| && awx[i] == s;
      GraphLookup(awx, i);
      var j :| 0 <= j < |steps| && steps[j] == s;
      GraphLookup(steps, j);
    }
    forall s | s in steps ensures s.id in RemovedSteps(steps) <==> s.kind == RegisterAwx {
      if s.id in GraphOf(awx) {
        var t := StepOfNode(awx, s.id);
        SameIdSameStep(steps, s, t);
      }
      if s.kind == RegisterAwx {
        var i :| 0 <= i < |awx| && awx[i] == s;
        GraphLookup(awx, i);
      }
    }
  }

  /** The spliced dependency list holds exactly the expansions, without duplicates. */
  lemma SplicedDependenciesExact(removed: Graph, dependencies: seq<StepId>)
    ensures NoDuplicates(SplicedDependencies(removed, dependencies))
    ensures forall x :: x in SplicedDependencies(removed, dependencies)
                   <==> exists d :: d in dependencies && ExpandsTo(removed, d, x)
  {
    AddNewCollects([], Expansions(removed, dependencies, {}));
    forall x ensures x in SplicedDependencies(removed, dependencies)
                <==> exists d :: d in dependencies && ExpandsTo(removed, d, x)
    {
      ExpansionsExact(removed, dependencies, x);
    }
  }

  lemma {:induction false} KeptListExpands(removed: Graph, dependencies: seq<StepId>)
    requires forall d :: d in dependencies ==> d !in removed
    ensures Expansions(removed, dependencies, {}) == dependencies
  {
    if dependencies != [] {
      KeptListExpands(removed, dependencies[1..]);
    }
  }

  lemma {:induction false} NewOnesAreAppended(acc: seq<StepId>, xs: seq<StepId>)
    requires NoDuplicates(acc + xs)
    ensures AddNew(acc, xs) == acc + xs
    decreases |xs|
  {
    if xs != [] {
      assert (acc + [xs[0]]) + xs[1..] == acc + xs;
      assert (acc + xs)[|acc|] == xs[0] && forall k :: 0 <= k < |acc| ==> (acc + xs)[k] == acc[k];
      NewOnesAreAppended(acc + [xs[0]], xs[1..]);
    }
  }

  /** A list without removed steps and duplicates stays as it is, in its order. */
  lemma UntouchedListStays(removed: Graph, dependencies: seq<StepId>)
    requires NoDuplicates(dependencies) && forall d :: d in dependencies ==> d !in removed
    ensures SplicedDependencies(removed, dependencies) == dependencies
  {
    KeptListExpands(removed, dependencies);
    assert [] + dependencies == dependencies;
    NewOnesAreAppended([], dependencies);
  }

  lemma SplicedEdges(steps: seq<Step>, s: Step, x: StepId)
    requires UniqueIds(steps) && Kept(steps, s)
    ensures var removed := RemovedSteps(steps);
            x in Rewritten(removed, s).dependsOn <==> SplicedEdge(GraphOf(steps), removed, s.id, x)
  {
    var removed := RemovedSteps(steps);
    SplicedDependenciesExact(removed, s.dependsOn);
    forall d ensures Edge(GraphOf(steps), s.id, d) <==> d in s.dependsOn {
      StepEdge(steps, s, d);
    }
  }

  lemma SplicedIsContraction(steps: seq<Step>)
    requires UniqueIds(steps)
    ensures IsContraction(GraphOf(steps), RemovedSteps(steps), GraphOf(Spliced(RemovedSteps(steps), steps)))
  {
    var g, removed := GraphOf(steps), RemovedSteps(steps);
    var result := Spliced(removed, steps);
    RemovedIsRestriction(steps);
    SplicedUnique(removed, steps);
    SplicedSteps(removed, steps);
    forall a, x | Edge(GraphOf(result), a, x) ensures a !in removed && SplicedEdge(g, removed, a, x) {
      var t := StepOfNode(result, a);
      StepEdge(result, t, x);
      var s :| Kept(steps, s) && t == Rewritten(removed, s);
      SplicedEdges(steps, s, x);
    }
    forall a, x | a !in removed && SplicedEdge(g, removed, a, x) ensures Edge(GraphOf(result), a, x) {
      var s := StepOfNode(steps, a);
      SplicedEdges(steps, s, x);
      StepEdge(result, Rewritten(removed, s), x);
    }
  }

  lemma EmptyGraphHasNoDependencies(a: StepId, b: StepId)
    ensures !DependsOn(map[], a, b)
  {
    forall p ensures !Connects(map[], p, a, b) {
      if |p| >= 2 {
        assert !Edge(map[], p[0], p[1]);
      }
    }
  }

  lemma NothingRemovedIsContraction(g: Graph)
    ensures IsContraction(g, map[], g)
  {
    forall d, x ensures ExpandsTo(map[], d, x) <==> d == x {
      EmptyGraphHasNoDependencies(d, x);
    }
    forall a, x | Edge(g, a, x) ensures SplicedEdge(g, map[], a, x) {
      assert ExpandsTo(map[], x, x);
    }
  }

  /** Declining AWX contracts the dependency graph by the register_awx steps. */
  lemma DeclinedIsContraction(steps: seq<Step>)
    requires UniqueIds(steps)
    ensures UniqueIds(Declined(steps))
    ensures IsContraction(GraphOf(steps), RemovedSteps(steps), GraphOf(Declined(steps)))
  {
    if RemovedSteps(steps) == map[] {
      NothingRemovedIsContraction(GraphOf(steps));
    } else {
      SplicedIsContraction(steps);
      SplicedUnique(RemovedSteps(steps), steps);
    }
  }

  /** The same step up to its dependency list. */
  predicate Same(s: Step, t: Step) {
    t == s.(dependsOn := t.dependsOn)
  }

  function KeptSteps(steps: seq<Step>): seq<Step> {
    if steps == [] then []
    else if steps[|steps| - 1].kind == RegisterAwx then KeptSteps(steps[..|steps| - 1])
    else KeptSteps(steps[..|steps| - 1]) + [steps[|steps| - 1]]
  }

  /** Splicing keeps the other steps in order and touches nothing but their dependency lists. */
  lemma {:induction false} SplicedKeepsSteps(removed: Graph, steps: seq<Step>)
    ensures |Spliced(removed, steps)| == |KeptSteps(steps)|
    ensures forall i :: 0 <= i < |KeptSteps(steps)| ==> Same(KeptSteps(steps)[i], Spliced(removed, steps)[i])
  {
    if steps != [] {
      SplicedKeepsSteps(removed, steps[..|steps| - 1]);
    }
  }

  /** The step of the snapshot that a kept step became. */
  lemma Snapshot(steps: seq<Step>, s: Step) returns (t: Step)
    requires UniqueIds(steps) && Kept(steps, s)
    ensures t in Declined(steps) && Same(s, t)
  {
    var removed := RemovedSteps(steps);
    if removed == map[] {
      t := s;
    } else {
      SplicedSteps(removed, steps);
      t := Rewritten(removed, s);
    }
  }

  /** The kept step behind a step of the snapshot. */
  lemma Original(steps: seq<Step>, t: Step) returns (s: Step)
    requires UniqueIds(steps) && t in Declined(steps)
    ensures Kept(steps, s) && Same(s, t) && s.id !in RemovedSteps(steps)
  {
    var removed := RemovedSteps(steps);
    RemovedIsRestriction(steps);
    if removed == map[] {
      s := t;
    } else {
      SplicedSteps(removed, steps);
      s :| Kept(steps, s) && t == Rewritten(removed, s);
    }
  }

  /** For two kept steps, one waits for the other afterwards exactly when it did before. */
  lemma DecliningKeepsDependencies(steps: seq<Step>, s: Step, t: Step)
    requires UniqueIds(steps) && Kept(steps, s) && Kept(steps, t)
    ensures DependsOn(GraphOf(steps), s.id, t.id) <==> DependsOn(GraphOf(Declined(steps)), s.id, t.id)
  {
    DeclinedIsContraction(steps);
    RemovedIsRestriction(steps);
    ContractionKeepsDependencies(GraphOf(steps), RemovedSteps(steps), GraphOf(Declined(steps)), s.id, t.id);
  }

  /** The snapshot is a sound graph over kept steps only, and its rewritten lists hold no duplicates. */
  lemma DecliningKeepsGraph(steps: seq<Step>)
    requires UniqueIds(steps) && Closed(GraphOf(steps)) && HasRank(GraphOf(steps))
    ensures UniqueIds(Declined(steps)) && Closed(GraphOf(Declined(steps))) && HasRank(GraphOf(Declined(steps)))
    ensures forall t, d :: t in Declined(steps) && d in t.dependsOn ==> d !in RemovedSteps(steps)
    ensures RemovedSteps(steps) != map[] ==> forall t :: t in Declined(steps) ==> NoDuplicates(t.dependsOn)
  {
    var g, removed, h := GraphOf(steps), RemovedSteps(steps), GraphOf(Declined(steps));
    DeclinedIsContraction(steps);
    ContractionKeepsRank(g, removed, h);
    forall a, x | Edge(h, a, x) ensures x in h && x !in removed {
      DeclinedNodes(steps, a, x);
    }
    forall t, d | t in Declined(steps) && d in t.dependsOn ensures d !in removed {
      StepEdge(Declined(steps), t, d);
    }
    if removed != map[] {
      SplicedSteps(removed, steps);
      forall t | t in Declined(steps) ensures NoDuplicates(t.dependsOn) {
        var s :| Kept(steps, s) && t == Rewritten(removed, s);
        SplicedDependenciesExact(removed, s.dependsOn);
      }
    }
  }

  lemma DeclinedNodes(steps: seq<Step>, a: StepId, x: StepId)
    requires UniqueIds(steps) && Closed(GraphOf(steps)) && Edge(GraphOf(Declined(steps)), a, x)
    ensures x in GraphOf(Declined(steps)) && x !in RemovedSteps(steps)
  {
    var g, removed := GraphOf(steps), RemovedSteps(steps);
    DeclinedIsContraction(steps);
    SplicedEdgeDepends(g, removed, GraphOf(Declined(steps)), a, x);
    var p :| Connects(g, p, a, x);
    assert Edge(g, p[|p| - 2], p[|p| - 1]);
    KeptNode(steps, x);
  }

  lemma KeptNode(steps: seq<Step>, x: StepId)
    requires UniqueIds(steps) && x in GraphOf(steps) && x !in RemovedSteps(steps)
    ensures x in GraphOf(Declined(steps))
  {
    var s := StepOfNode(steps, x);
    RemovedIsRestriction(steps);
    var t := Snapshot(steps, s);
    GraphKeys(Declined(steps));
    IdMembers(Declined(steps));
  }

  /** Every type order that held at save time holds in the snapshot. */
  lemma DecliningKeepsOrder(steps: seq<Step>, direct: bool)
    requires UniqueIds(steps) && WellOrdered(steps, direct)
    ensures WellOrdered(Declined(steps), direct)
  {
    var result := Declined(steps);
    forall i, j | 0 <= i < |result| && 0 <= j < |result| && MustFollow(direct, result[i].kind, result[j].kind)
      ensures DependsOn(GraphOf(result), result[i].id, result[j].id)
    {
      var s := Original(steps, result[i]);
      var t := Original(steps, result[j]);
      var k :| 0 <= k < |steps| && steps[k] == s;
      var l :| 0 <= l < |steps| && steps[l] == t;
      assert DependsOn(GraphOf(steps), steps[k].id, steps[l].id);
      DecliningKeepsDependencies(steps, s, t);
    }
  }

  /** Every terraform_destroy step is named as rollback by a step that is not register_awx. */
  predicate DestroyNamedByKeptStep(steps: seq<Step>) {
    forall s :: s in steps && s.kind == TerraformDestroy ==>
      exists t :: t in steps && t.kind != RegisterAwx && t.rollback != "" && t.rollback == s.id
  }

  /** terraform_destroy stays rollback-only exactly when a kept step names each such step. */
  lemma DestroyStaysRollbackOnly(steps: seq<Step>)
    requires UniqueIds(steps) && DestroyIsRollbackOnly(steps)
    ensures DestroyIsRollbackOnly(Declined(steps)) <==> DestroyNamedByKeptStep(steps)
  {
    if DestroyNamedByKeptStep(steps) {
      NamedStaysNamed(steps);
    }
    if DestroyIsRollbackOnly(Declined(steps)) {
      forall s | s in steps && s.kind == TerraformDestroy
        ensures exists t :: t in steps && t.kind != RegisterAwx && t.rollback != "" && t.rollback == s.id
      {
        var t := SnapshotNames(steps, s);
      }
    }
  }

  lemma NamedStaysNamed(steps: seq<Step>)
    requires UniqueIds(steps) && DestroyNamedByKeptStep(steps)
    ensures DestroyIsRollbackOnly(Declined(steps))
  {
    var result := Declined(steps);
    forall d | d in result && d.kind == TerraformDestroy ensures d.id in RollbackTargets(result) {
      var s := Original(steps, d);
      var t :| t in steps && t.kind != RegisterAwx && t.rollback != "" && t.rollback == s.id;
      var u := Snapshot(steps, t);
    }
  }

  lemma SnapshotNames(steps: seq<Step>, s: Step) returns (t: Step)
    requires UniqueIds(steps) && s in steps && s.kind == TerraformDestroy
    requires DestroyIsRollbackOnly(Declined(steps))
    ensures t in steps && t.kind != RegisterAwx && t.rollback != "" && t.rollback == s.id
  {
    var d := Snapshot(steps, s);
    var u :| u in Declined(steps) && u.rollback != "" && u.rollback == d.id;
    t := Original(steps, u);
  }
}
