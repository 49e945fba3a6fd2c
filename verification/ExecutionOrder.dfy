/**
 From an accepted blueprint to the order in which its steps run.
 */
module ExecutionOrder {
  import opened DependencyGraph
  import opened Workflow
  import opened BlueprintDag
  import opened AwxSplice
  import opened SpliceMeaning
  import opened WorkflowOrder

  /** Every step runs after all steps that its type must follow. */
  ghost predicate RunsInOrder(order: seq<Step>, direct: bool) {
    forall i, j :: 0 <= i < |order| && 0 <= j < |order| && MustFollow(direct, order[i].kind, order[j].kind) ==> j < i
  }

  lemma WellOrderedRunsInOrder(steps: seq<Step>, order: seq<Step>, direct: bool)
    requires UniqueIds(steps) && WellOrdered(steps, direct)
    requires Permutation(steps, order) && Respects(order)
    ensures RunsInOrder(order, direct)
  {
    PermutationUnique(steps, order);
    PermutationMembers(steps, order);
    forall i, j | 0 <= i < |order| && 0 <= j < |order| && MustFollow(direct, order[i].kind, order[j].kind)
      ensures j < i
    {
      assert order[i] in steps && order[j] in steps;
      var k :| 0 <= k < |steps| && steps[k] == order[i];
      var l :| 0 <= l < |steps| && steps[l] == order[j];
      assert DependsOn(GraphOf(steps), steps[k].id, steps[l].id);
      DependenciesComeEarlier(steps, order, i, j);
    }
  }

  /**
   In every linear order that respects depends_on, an accepted workflow runs cloud_init, plan,
   approval, apply (or clone) and the VM runtime steps in that order.
   */
  lemma AcceptedRunsInOrder(b: Blueprint, order: seq<Step>)
    requires Accepted(b) && Permutation(b.steps, order) && Respects(order)
    ensures RunsInOrder(order, b.Direct())
  {
    AcceptedIsWellOrdered(b);
    WellOrderedRunsInOrder(b.steps, order, b.Direct());
  }

  /** The same holds for the steps left after AWX was declined. */
  lemma DeclinedRunsInOrder(b: Blueprint, order: seq<Step>)
    requires Accepted(b) && Permutation(Declined(b.steps), order) && Respects(order)
    ensures RunsInOrder(order, b.Direct())
  {
    AcceptedIsWellOrdered(b);
    DecliningKeepsOrder(b.steps, b.Direct());
    DeclinedIsContraction(b.steps);
    WellOrderedRunsInOrder(Declined(b.steps), order, b.Direct());
  }

  lemma SoundGraphIsOrderable(steps: seq<Step>)
    requires UniqueIds(steps) && "" !in Ids(steps) && Closed(GraphOf(steps)) && HasRank(GraphOf(steps))
    ensures Orderable(steps)
  {
    GraphKeys(steps);
    forall s | s in steps ensures s.id !in s.dependsOn {
      StepEdge(steps, s, s.id);
    }
    forall s, d | s in steps && d in s.dependsOn ensures d in Ids(steps) {
      StepEdge(steps, s, d);
    }
  }

  lemma DeclinedIsOrderable(b: Blueprint)
    requires Accepted(b)
    ensures Orderable(b.steps) && Orderable(Declined(b.steps))
  {
    AcceptedGraph(b);
    SoundGraphIsOrderable(b.steps);
    DecliningKeepsGraph(b.steps);
    IdMembers(b.steps);
    IdMembers(Declined(b.steps));
    forall t | t in Declined(b.steps) ensures t.id != "" {
      var s := Original(b.steps, t);
    }
    SoundGraphIsOrderable(Declined(b.steps));
  }

  /** An accepted blueprint always has an execution order, with or without AWX, and it keeps the type order. */
  method PlanExecution(b: Blueprint, awxChosen: bool) returns (order: seq<Step>)
    requires Accepted(b)
    ensures RunsInOrder(order, b.Direct()) && Respects(order)
    ensures Permutation(if b.promptAwxOnExecute && !awxChosen then Declined(b.steps) else b.steps, order)
  {
    DeclinedIsOrderable(b);
    var steps := ExecutionWorkflowSteps(b.steps, b.promptAwxOnExecute, awxChosen);
    var ordering := OrderedWorkflowSteps(steps);
    order := ordering.steps;
    if b.promptAwxOnExecute && !awxChosen {
      DeclinedRunsInOrder(b, order);
    } else {
      AcceptedRunsInOrder(b, order);
    }
  }

  const APPLY := Step("apply", TerraformApply, [], false, 0, "")
  const AWX := Step("awx", RegisterAwx, ["apply"], false, 0, "destroy")
  const DESTROY := Step("destroy", TerraformDestroy, [], false, 0, "")

  /** AWX onboarding names the destroy step as its rollback, and is the only step that does. */
  const EXAMPLE := Blueprint({}, [APPLY, AWX, DESTROY], false, Terraform, "linux-vm", 0, true, true)

  lemma ExampleGraph()
    ensures GraphOf(EXAMPLE.steps) == map["apply" := [], "awx" := ["apply"], "destroy" := []]
    ensures GraphRules(EXAMPLE)
  {
    var steps := EXAMPLE.steps;
    assert steps[..2] == [APPLY, AWX] && steps[..2][..1] == [APPLY] && steps[..2][..1][..0] == [];
    assert GraphOf([APPLY]) == map["apply" := []];
    assert GraphOf([APPLY, AWX]) == map["apply" := [], "awx" := ["apply"]];
    assert Ids(steps) == ["apply", "awx", "destroy"];
    assert "apply" in Ids(steps);
    assert IsRank(GraphOf(steps), map["apply" := 0, "awx" := 1, "destroy" := 0]);
  }

  lemma ExampleCounts(kind: StepType)
    ensures OfKind(EXAMPLE.steps, kind) ==
            if kind == TerraformApply then [APPLY] else if kind == RegisterAwx then [AWX]
            else if kind == TerraformDestroy then [DESTROY] else []
  {
    var steps := EXAMPLE.steps;
    assert steps[1..] == [AWX, DESTROY] && steps[1..][1..] == [DESTROY] && steps[1..][1..][1..] == [];
    assert OfKind([DESTROY], kind) == if kind == TerraformDestroy then [DESTROY] else [];
  }

  lemma ExampleRollback()
    ensures RollbackRules(EXAMPLE.steps) && !DestroyNamedByKeptStep(EXAMPLE.steps)
  {
    var steps := EXAMPLE.steps;
    assert forall s :: s in steps ==> s == APPLY || s == AWX || s == DESTROY;
    assert RollbackTargets(steps) == {"destroy"} by {
      assert AWX in steps;
    }
    assert Ids(steps)[2] == "destroy";
    assert DESTROY in steps;
  }

  lemma ExampleShape()
    ensures CloudInitRule(EXAMPLE.steps) && ApprovalRules(EXAMPLE) && TerraformShape(EXAMPLE) && OnboardingRules(EXAMPLE)
  {
    ExampleCounts(TerraformApply);
    ExampleCounts(TerraformPlan);
    ExampleCounts(Approval);
    ExampleCounts(RegisterAwx);
    ExampleCounts(RunAnsiblePlaybook);
    ExampleCounts(StepType.CloudInit);
    assert forall s :: s in EXAMPLE.steps ==> s == APPLY || s == AWX || s == DESTROY;
  }

  lemma ExampleOrder()
    ensures TerraformOrdered(EXAMPLE.steps)
  {
    var steps := EXAMPLE.steps;
    ExampleCounts(TerraformApply);
    ExampleCounts(TerraformPlan);
    ExampleCounts(Approval);
    ExampleGraph();
    assert Edge(GraphOf(steps), "awx", "apply");
    EdgeIsDependency(GraphOf(steps), "awx", "apply");
    assert AllDependOn(steps, RUNTIME_TYPES, APPLY.id);
  }

  /**
   The premise of DestroyStaysRollbackOnly is needed: after this accepted blueprint is executed with
   AWX declined, its terraform_destroy step is no longer the rollback target of anything.
   */
  lemma DecliningCanExposeDestroy()
    ensures Accepted(EXAMPLE) && EXAMPLE.promptAwxOnExecute
    ensures !DestroyIsRollbackOnly(Declined(EXAMPLE.steps))
  {
    ExampleGraph();
    ExampleRollback();
    ExampleShape();
    ExampleOrder();
    DestroyStaysRollbackOnly(EXAMPLE.steps);
  }
}
