/**
 Blueprint workflow steps, the graph a step list stands for, and the order that the
 step types must keep.
 */
module Workflow {
  import opened DependencyGraph

  datatype StepType =
    | CloneVm | ConfigureVm | CloudInit | StartVm
    | WaitForVm | WaitForAgent | WaitForIp | WaitForSsh
    | RunAnsiblePlaybook | RegisterAwx
    | TerraformPlan | TerraformApply | TerraformDestroy
    | CreateSnapshot | HealthCheck | Condition | Approval | Delay | Notification

  /** `rollback` is the empty string when the step names no rollback step. */
  datatype Step = Step(
    id: StepId,
    kind: StepType,
    dependsOn: seq<StepId>,
    hasConditions: bool,
    retry: nat,
    rollback: StepId)
  {
    /** No conditions, no retries, no rollback. */
    predicate Plain() {
      !hasConditions && retry == 0 && rollback == ""
    }
  }

  const RUNTIME_TYPES: set<StepType> :=
    {WaitForVm, WaitForAgent, WaitForIp, WaitForSsh, RunAnsiblePlaybook, RegisterAwx, CreateSnapshot, HealthCheck}

  const AFTER_CLONE_TYPES: set<StepType> := RUNTIME_TYPES + {ConfigureVm, CloudInit, StartVm}

  const AFTER_CLOUD_INIT_TYPES: set<StepType> := {StartVm, TerraformPlan, TerraformApply}

  const DIRECT_ONLY_TYPES: set<StepType> := {CloneVm, ConfigureVm, StartVm}

  const SAFE_ROLLBACK_TYPES: set<StepType> := {TerraformDestroy, Notification, Delay}

  /** The dictionary `{step.id: step.depends_on}`: a repeated id keeps its last entry. */
  function GraphOf(steps: seq<Step>): Graph {
    if steps == [] then map[]
    else
      var last := steps[|steps| - 1];
      GraphOf(steps[..|steps| - 1])[last.id := last.dependsOn]
  }

  ghost predicate UniqueIds(steps: seq<Step>) {
    forall i, j :: 0 <= i < j < |steps| ==> steps[i].id != steps[j].id
  }

  function OfKind(steps: seq<Step>, kind: StepType): seq<Step> {
    if steps == [] then []
    else if steps[0].kind == kind then [steps[0]] + OfKind(steps[1..], kind)
    else OfKind(steps[1..], kind)
  }

  /** The selected steps are exactly the steps of that type. */
  lemma {:induction false} OfKindSelects(steps: seq<Step>, kind: StepType)
    ensures forall s :: s in OfKind(steps, kind) <==> s in steps && s.kind == kind
  {
    if steps != [] {
      OfKindSelects(steps[1..], kind);
      assert steps == [steps[0]] + steps[1..];
    }
  }

  function Ids(steps: seq<Step>): (r: seq<StepId>)
    ensures |r| == |steps|
    ensures forall i :: 0 <= i < |steps| ==> r[i] == steps[i].id
  {
    seq(|steps|, i requires 0 <= i < |steps| => steps[i].id)
  }

  /** The nodes of the graph are the step ids. */
  lemma {:induction false} GraphKeys(steps: seq<Step>)
    ensures forall x :: x in GraphOf(steps) <==> x in Ids(steps)
  {
    if steps != [] {
      var init, last := steps[..|steps| - 1], steps[|steps| - 1];
      GraphKeys(init);
      assert Ids(steps) == Ids(init) + [last.id];
    }
  }

  lemma UniqueIdsSplit(steps: seq<Step>)
    requires steps != []
    ensures UniqueIds(steps)
       <==> UniqueIds(steps[..|steps| - 1]) && steps[|steps| - 1].id !in Ids(steps[..|steps| - 1])
  {
  }

  /** The graph has as many nodes as there are steps exactly when no id repeats. */
  lemma {:induction false} GraphSize(steps: seq<Step>)
    ensures |GraphOf(steps)| <= |steps|
    ensures |GraphOf(steps)| == |steps| <==> UniqueIds(steps)
  {
    if steps != [] {
      var init, last := steps[..|steps| - 1], steps[|steps| - 1];
      GraphSize(init);
      GraphKeys(init);
      UniqueIdsSplit(steps);
      var g := GraphOf(init);
      assert g[last.id := last.dependsOn].Keys == g.Keys + {last.id};
    }
  }

  /** With unique ids the graph lists each step's own dependencies. */
  lemma {:induction false} GraphLookup(steps: seq<Step>, i: nat)
    requires UniqueIds(steps) && i < |steps|
    ensures steps[i].id in GraphOf(steps) && GraphOf(steps)[steps[i].id] == steps[i].dependsOn
  {
    if i < |steps| - 1 {
      GraphLookup(steps[..|steps| - 1], i);
    }
  }

  lemma GraphEdge(steps: seq<Step>, a: StepId, b: StepId)
    requires UniqueIds(steps)
    ensures Edge(GraphOf(steps), a, b) <==> exists i :: 0 <= i < |steps| && steps[i].id == a && b in steps[i].dependsOn
  {
    GraphKeys(steps);
    if a in GraphOf(steps) {
      var i :| 0 <= i < |steps| && Ids(steps)[i] == a;
      GraphLookup(steps, i);
    }
    forall i | 0 <= i < |steps| && steps[i].id == a && b in steps[i].dependsOn ensures Edge(GraphOf(steps), a, b) {
      GraphLookup(steps, i);
    }
  }

  /** Whether a step of type `later` may only run after every step of type `earlier`. */
  predicate MustFollow(direct: bool, later: StepType, earlier: StepType) {
    match earlier
    case CloudInit => later in AFTER_CLOUD_INIT_TYPES
    case TerraformPlan => !direct && later in {TerraformApply, Approval}
    case Approval => !direct && later == TerraformApply
    case TerraformApply => !direct && later in RUNTIME_TYPES
    case CloneVm => direct && later in AFTER_CLONE_TYPES
    case _ => false
  }

  /** Every pair of steps that must keep an order is ordered by the dependencies. */
  ghost predicate WellOrdered(steps: seq<Step>, direct: bool) {
    forall i, j :: 0 <= i < |steps| && 0 <= j < |steps| && MustFollow(direct, steps[i].kind, steps[j].kind)
      ==> DependsOn(GraphOf(steps), steps[i].id, steps[j].id)
  }

  /** The steps of kind in `later` all depend on the step `anchor`. */
  ghost predicate AllDependOn(steps: seq<Step>, later: set<StepType>, anchor: StepId) {
    forall i :: 0 <= i < |steps| && steps[i].kind in later ==> DependsOn(GraphOf(steps), steps[i].id, anchor)
  }

  /** Known dependencies make a closed graph. */
  lemma DependenciesClose(steps: seq<Step>)
    requires UniqueIds(steps) && forall s, d :: s in steps && d in s.dependsOn ==> d in Ids(steps)
    ensures Closed(GraphOf(steps))
  {
    GraphKeys(steps);
    forall a, b | Edge(GraphOf(steps), a, b) ensures b in GraphOf(steps) {
      GraphEdge(steps, a, b);
      var i :| 0 <= i < |steps| && steps[i].id == a && b in steps[i].dependsOn;
      assert steps[i] in steps;
    }
  }
}
