/**
 The workflow rules a blueprint must meet before it is stored (`BlueprintInput.dag`),
 and what an accepted workflow guarantees about every execution order.
 */
module BlueprintDag {
  import opened DependencyGraph
  import opened Workflow
  import opened CycleCheck
  import opened CloudInit

  datatype Executor = Terraform | OpenTofu | Proxmox

  datatype Blueprint = Blueprint(
    variables: set<string>,
    steps: seq<Step>,
    requiresApproval: bool,
    executor: Executor,
    template: string,
    ansibleRuns: nat,
    awx: bool,
    promptAwxOnExecute: bool)
  {
    predicate Direct() {
      executor.Proxmox?
    }
  }

  const RESERVED_VARIABLES: set<string> := {"hostname", "ip_address", "ip_address_cidr", "ip_gateway", "ip_prefix_length"}

  function RollbackTargets(steps: seq<Step>): set<StepId> {
    set s | s in steps && s.rollback != "" :: s.rollback
  }

  function Count(b: Blueprint, kind: StepType): nat {
    |OfKind(b.steps, kind)|
  }

  /** A rollback target is of a harmless type and stands apart from the normal workflow. */
  predicate RollbackOnly(steps: seq<Step>, target: Step) {
    && target.kind in SAFE_ROLLBACK_TYPES
    && target.dependsOn == []
    && forall u :: u in steps ==> target.id !in u.dependsOn
  }

  ghost predicate DependenciesKnown(steps: seq<Step>) {
    forall i :: 0 <= i < |steps| ==> KnowsDependencies(steps, steps[i])
  }

  ghost predicate KnowsDependencies(steps: seq<Step>, s: Step) {
    s.id !in s.dependsOn && forall d :: d in s.dependsOn ==> d in Ids(steps)
  }

  ghost predicate TargetsKnown(steps: seq<Step>) {
    forall t :: t in RollbackTargets(steps) ==> t in Ids(steps)
  }

  ghost predicate NoSelfRollback(steps: seq<Step>) {
    forall s :: s in steps && s.rollback != "" ==> s.rollback != s.id
  }

  ghost predicate TargetsStandApart(steps: seq<Step>) {
    forall s :: s in steps && s.id in RollbackTargets(steps) ==> RollbackOnly(steps, s)
  }

  /** terraform_destroy runs only when some other step is rolled back. */
  ghost predicate DestroyIsRollbackOnly(steps: seq<Step>) {
    forall s :: s in steps && s.kind == TerraformDestroy ==> s.id in RollbackTargets(steps)
  }

  ghost predicate CloudInitRule(steps: seq<Step>) {
    (forall s :: s in steps ==> s.kind != StepType.CloudInit) || FirstBootContract(steps)
  }

  ghost predicate AllPlain(steps: seq<Step>, kind: StepType) {
    forall s :: s in OfKind(steps, kind) ==> s.Plain()
  }

  ghost predicate DirectShape(b: Blueprint) {
    && b.template == "proxmox-vm"
    && Count(b, TerraformApply) == 0 && Count(b, TerraformPlan) == 0 && Count(b, Approval) == 0
    && Count(b, CloneVm) == 1
  }

  ghost predicate TerraformShape(b: Blueprint) {
    && Count(b, TerraformApply) == 1
    && (forall s :: s in b.steps ==> s.kind !in DIRECT_ONLY_TYPES)
    && AllPlain(b.steps, StepType.CloudInit)
  }

  /** Every step of a type in `later` depends on every step of type `earlier`. */
  ghost predicate TypesOrdered(steps: seq<Step>, later: set<StepType>, earlier: StepType) {
    forall anchor :: anchor in OfKind(steps, earlier) ==> AllDependOn(steps, later, anchor.id)
  }

  ghost predicate DirectOrdered(steps: seq<Step>) {
    TypesOrdered(steps, AFTER_CLONE_TYPES, CloneVm) && TypesOrdered(steps, {StartVm}, StepType.CloudInit)
  }

  ghost predicate TerraformOrdered(steps: seq<Step>) {
    && TypesOrdered(steps, {TerraformApply}, TerraformPlan)
    && TypesOrdered(steps, {TerraformApply}, Approval)
    && TypesOrdered(steps, {Approval}, TerraformPlan)
    && TypesOrdered(steps, RUNTIME_TYPES, TerraformApply)
  }

  ghost predicate GraphRules(b: Blueprint) {
    && "" !in Ids(b.steps)
    && b.variables !! RESERVED_VARIABLES
    && UniqueIds(b.steps)
    && DependenciesKnown(b.steps)
    && HasRank(GraphOf(b.steps))
  }

  ghost predicate RollbackRules(steps: seq<Step>) {
    TargetsKnown(steps) && NoSelfRollback(steps) && TargetsStandApart(steps) && DestroyIsRollbackOnly(steps)
  }

  ghost predicate ApprovalRules(b: Blueprint) {
    && (Count(b, Approval) > 0 ==> b.requiresApproval)
    && Count(b, Approval) <= 1
    && AllPlain(b.steps, Approval)
    && Count(b, TerraformPlan) <= 1
  }

  ghost predicate ExecutorRules(b: Blueprint) {
    if b.Direct() then DirectShape(b) && DirectOrdered(b.steps) else TerraformShape(b) && TerraformOrdered(b.steps)
  }

  predicate OnboardingRules(b: Blueprint) {
    && Count(b, RunAnsiblePlaybook) == (if b.ansibleRuns > 0 then 1 else 0)
    && (b.promptAwxOnExecute ==> b.awx)
    && Count(b, RegisterAwx) == (if b.awx then 1 else 0)
  }

  ghost predicate Accepted(b: Blueprint) {
    && GraphRules(b)
    && RollbackRules(b.steps)
    && CloudInitRule(b.steps)
    && ApprovalRules(b)
    && ExecutorRules(b)
    && OnboardingRules(b)
  }

  lemma KnownDependenciesClose(steps: seq<Step>)
    requires UniqueIds(steps) && DependenciesKnown(steps)
    ensures Closed(GraphOf(steps))
  {
    forall s, d | s in steps && d in s.dependsOn ensures d in Ids(steps) {
      assert KnowsDependencies(steps, s);
    }
    DependenciesClose(steps);
  }

  method CheckDependencies(steps: seq<Step>) returns (ok: bool)
    ensures ok <==> DependenciesKnown(steps)
  {
    var known := Ids(steps);
    for i := 0 to |steps|
      invariant forall k :: 0 <= k < i ==> KnowsDependencies(steps, steps[k])
    {
      if steps[i].id in steps[i].dependsOn {
        return false;
      }
      if exists d :: d in steps[i].dependsOn && d !in known {
        return false;
      }
    }
    return true;
  }

  /** Names, dependencies and cycles. */
  method CheckGraphRules(b: Blueprint) returns (ok: bool)
    ensures ok <==> GraphRules(b)
  {
    var graph := GraphOf(b.steps);
    GraphSize(b.steps);
    GraphKeys(b.steps);
    if "" in Ids(b.steps) || !(b.variables !! RESERVED_VARIABLES) || |graph| != |b.steps| {
      return false;
    }
    var known := CheckDependencies(b.steps);
    if !known {
      return false;
    }
    KnownDependenciesClose(b.steps);
    var verdict := CheckGraph(graph, Ids(b.steps));
    return verdict.Sound?;
  }

  method CheckRollbackRules(steps: seq<Step>) returns (ok: bool)
    ensures ok <==> RollbackRules(steps)
  {
    var targets := RollbackTargets(steps);
    var known := Ids(steps);
    if exists t :: t in targets && t !in known {
      return false;
    }
    if exists s :: s in steps && s.rollback != "" && s.rollback == s.id {
      return false;
    }
    if exists s :: s in steps && s.id in targets && !RollbackOnly(steps, s) {
      return false;
    }
    return !exists s :: s in steps && s.kind == TerraformDestroy && s.id !in targets;
  }

  method CheckApprovalRules(b: Blueprint) returns (ok: bool)
    ensures ok <==> ApprovalRules(b)
  {
    var approvals := OfKind(b.steps, Approval);
    if |approvals| > 0 && !b.requiresApproval {
      return false;
    }
    if |approvals| > 1 {
      return false;
    }
    if |approvals| > 0 && !approvals[0].Plain() {
      return false;
    }
    return |OfKind(b.steps, TerraformPlan)| <= 1;
  }

  /** `anchors[0].id in ancestors(...)` for every step of a type in `later`, vacuous without an anchor. */
  method CheckOrder(steps: seq<Step>, later: set<StepType>, earlier: StepType) returns (ok: bool)
    requires Closed(GraphOf(steps)) && |OfKind(steps, earlier)| <= 1
    ensures ok <==> TypesOrdered(steps, later, earlier)
  {
    var anchors := OfKind(steps, earlier);
    if anchors == [] {
      return true;
    }
    ok := EveryStepFollows(steps, GraphOf(steps), later, anchors[0].id);
    assert anchors[0] in OfKind(steps, earlier);
  }

  method CheckDirectOrder(steps: seq<Step>) returns (ok: bool)
    requires Closed(GraphOf(steps)) && |OfKind(steps, CloneVm)| == 1 && |OfKind(steps, StepType.CloudInit)| <= 1
    ensures ok <==> DirectOrdered(steps)
  {
    ok := CheckOrder(steps, AFTER_CLONE_TYPES, CloneVm);
    if ok {
      ok := CheckOrder(steps, {StartVm}, StepType.CloudInit);
    }
  }

  method CheckTerraformOrder(steps: seq<Step>) returns (ok: bool)
    requires Closed(GraphOf(steps)) && |OfKind(steps, TerraformApply)| == 1
    requires |OfKind(steps, TerraformPlan)| <= 1 && |OfKind(steps, Approval)| <= 1
    ensures ok <==> TerraformOrdered(steps)
  {
    ok := CheckOrder(steps, {TerraformApply}, TerraformPlan);
    if ok {
      ok := CheckOrder(steps, {TerraformApply}, Approval);
    }
    if ok {
      ok := CheckOrder(steps, {Approval}, TerraformPlan);
    }
    if ok {
      ok := CheckOrder(steps, RUNTIME_TYPES, TerraformApply);
    }
  }

  method CheckExecutorRules(b: Blueprint) returns (ok: bool)
    requires Closed(GraphOf(b.steps)) && ApprovalRules(b) && |OfKind(b.steps, StepType.CloudInit)| <= 1
    ensures ok <==> ExecutorRules(b)
  {
    if b.Direct() {
      if b.template != "proxmox-vm" || Count(b, TerraformApply) > 0 || Count(b, TerraformPlan) > 0 {
        return false;
      }
      if Count(b, CloneVm) != 1 || Count(b, Approval) > 0 {
        return false;
      }
      ok := CheckDirectOrder(b.steps);
    } else {
      if Count(b, TerraformApply) != 1 || exists s :: s in b.steps && s.kind in DIRECT_ONLY_TYPES {
        return false;
      }
      if exists s :: s in OfKind(b.steps, StepType.CloudInit) && !s.Plain() {
        return false;
      }
      ok := CheckTerraformOrder(b.steps);
    }
  }

  lemma CloudInitIsSingle(steps: seq<Step>)
    requires CloudInitRule(steps)
    ensures |OfKind(steps, StepType.CloudInit)| <= 1
  {
  }

  /** The validator accepts exactly the blueprints that meet every rule. */
  method Validate(b: Blueprint) returns (ok: bool)
    ensures ok <==> Accepted(b)
  {
    ok := CheckGraphRules(b);
    if !ok {
      return;
    }
    KnownDependenciesClose(b.steps);
    ok := CheckRollbackRules(b.steps);
    if !ok {
      return;
    }
    var selection := CloudInit.Validate(b.steps);
    if selection.Rejected? {
      return false;
    }
    CloudInitIsSingle(b.steps);
    ok := CheckApprovalRules(b);
    if !ok {
      return;
    }
    ok := CheckExecutorRules(b);
    ok := ok && OnboardingRules(b);
  }

  lemma OnlyAnchorOrders(steps: seq<Step>, later: set<StepType>, earlier: StepType)
    requires |OfKind(steps, earlier)| == 1 && AllDependOn(steps, later, OfKind(steps, earlier)[0].id)
    ensures TypesOrdered(steps, later, earlier)
  {
  }

  lemma CloudInitOrders(steps: seq<Step>)
    requires CloudInitRule(steps)
    ensures TypesOrdered(steps, AFTER_CLOUD_INIT_TYPES, StepType.CloudInit)
  {
    if FirstBootContract(steps) {
      OnlyAnchorOrders(steps, AFTER_CLOUD_INIT_TYPES, StepType.CloudInit);
    } else {
      OfKindSelects(steps, StepType.CloudInit);
    }
  }

  lemma TypesOrder(steps: seq<Step>, later: set<StepType>, earlier: StepType, i: nat, j: nat)
    requires TypesOrdered(steps, later, earlier) && i < |steps| && j < |steps|
    requires steps[j].kind == earlier && steps[i].kind in later
    ensures DependsOn(GraphOf(steps), steps[i].id, steps[j].id)
  {
    OfKindSelects(steps, earlier);
    assert steps[j] in OfKind(steps, earlier);
  }

  lemma DirectWellOrdered(steps: seq<Step>, i: nat, j: nat)
    requires CloudInitRule(steps) && DirectOrdered(steps)
    requires i < |steps| && j < |steps| && MustFollow(true, steps[i].kind, steps[j].kind)
    ensures DependsOn(GraphOf(steps), steps[i].id, steps[j].id)
  {
    if steps[j].kind == CloneVm {
      TypesOrder(steps, AFTER_CLONE_TYPES, CloneVm, i, j);
    } else {
      CloudInitOrders(steps);
      TypesOrder(steps, AFTER_CLOUD_INIT_TYPES, StepType.CloudInit, i, j);
    }
  }

  lemma TerraformWellOrdered(steps: seq<Step>, i: nat, j: nat)
    requires CloudInitRule(steps) && TerraformOrdered(steps)
    requires i < |steps| && j < |steps| && MustFollow(false, steps[i].kind, steps[j].kind)
    ensures DependsOn(GraphOf(steps), steps[i].id, steps[j].id)
  {
    match steps[j].kind
    case CloudInit =>
      CloudInitOrders(steps);
      TypesOrder(steps, AFTER_CLOUD_INIT_TYPES, StepType.CloudInit, i, j);
    case TerraformPlan => TypesOrder(steps, {steps[i].kind}, TerraformPlan, i, j);
    case Approval => TypesOrder(steps, {TerraformApply}, Approval, i, j);
    case TerraformApply => TypesOrder(steps, RUNTIME_TYPES, TerraformApply, i, j);
  }

  /** Acceptance orders every pair of steps whose types must keep an order. */
  lemma AcceptedIsWellOrdered(b: Blueprint)
    requires Accepted(b)
    ensures WellOrdered(b.steps, b.Direct())
  {
    var steps := b.steps;
    forall i, j | 0 <= i < |steps| && 0 <= j < |steps| && MustFollow(b.Direct(), steps[i].kind, steps[j].kind)
      ensures DependsOn(GraphOf(steps), steps[i].id, steps[j].id)
    {
      if b.Direct() {
        DirectWellOrdered(steps, i, j);
      } else {
        TerraformWellOrdered(steps, i, j);
      }
    }
  }

  /** What the graph and rollback rules promise together. */
  lemma AcceptedGraph(b: Blueprint)
    requires Accepted(b)
    ensures UniqueIds(b.steps) && Closed(GraphOf(b.steps)) && HasRank(GraphOf(b.steps))
    ensures TargetsStandApart(b.steps) && DestroyIsRollbackOnly(b.steps)
  {
    KnownDependenciesClose(b.steps);
  }
}
