/**
 The first-boot cloud-init contract of a workflow (`validate_cloud_init_workflow`).
 */
module CloudInit {
  import opened DependencyGraph
  import opened Workflow
  import opened CycleCheck

  datatype Selection = NotSelected | Selected | Rejected

  /** The one cloud-init declaration is unconditional and runs before every boot, plan and apply. */
  ghost predicate FirstBootContract(steps: seq<Step>) {
    var declared := OfKind(steps, StepType.CloudInit);
    && |declared| == 1
    && declared[0].Plain()
    && UniqueIds(steps)
    && "" !in GraphOf(steps)
    && Closed(GraphOf(steps))
    && HasRank(GraphOf(steps))
    && AllDependOn(steps, AFTER_CLOUD_INIT_TYPES, declared[0].id)
  }

  /** The loop `for step in steps: if step.type in later and anchor not in ancestors(step.id)`. */
  method EveryStepFollows(steps: seq<Step>, graph: Graph, later: set<StepType>, anchor: StepId) returns (ok: bool)
    requires graph == GraphOf(steps) && Closed(graph)
    ensures ok <==> AllDependOn(steps, later, anchor)
  {
    GraphKeys(steps);
    for i := 0 to |steps|
      invariant forall k :: 0 <= k < i && steps[k].kind in later ==> DependsOn(graph, steps[k].id, anchor)
    {
      if steps[i].kind in later {
        assert Ids(steps)[i] == steps[i].id;
        var ancestors := Ancestors(graph, steps[i].id);
        if anchor !in ancestors {
          return false;
        }
      }
    }
    return true;
  }

  method Validate(steps: seq<Step>) returns (r: Selection)
    ensures r.NotSelected? <==> forall s :: s in steps ==> s.kind != StepType.CloudInit
    ensures r.Selected? <==> FirstBootContract(steps)
  {
    var declared := OfKind(steps, StepType.CloudInit);
    OfKindSelects(steps, StepType.CloudInit);
    if declared == [] {
      return NotSelected;
    }
    assert declared[0] in declared;
    if |declared| != 1 || !declared[0].Plain() {
      return Rejected;
    }
    var cloud := declared[0].id;
    var graph := GraphOf(steps);
    GraphSize(steps);
    GraphKeys(steps);
    if cloud == "" || |graph| != |steps| || "" in graph {
      if cloud == "" {
        var i :| 0 <= i < |steps| && steps[i] == declared[0];
        assert Ids(steps)[i] == "";
      }
      return Rejected;
    }
    var verdict := CheckGraph(graph, Ids(steps));
    if !verdict.Sound? {
      return Rejected;
    }
    var boots := EveryStepFollows(steps, graph, {StartVm}, cloud);
    if !boots {
      return Rejected;
    }
    var applies := EveryStepFollows(steps, graph, {TerraformPlan, TerraformApply}, cloud);
    if !applies {
      return Rejected;
    }
    return Selected;
  }
}
