/**
 What acceptance means type by type: which step types an accepted blueprint runs after
 terraform_apply, clone_vm and cloud_init, and which ones it may run before them.
 */
module StepOrder {
  import opened DependencyGraph
  import opened Workflow
  import opened BlueprintDag
  import opened CloudInit
  import opened AwxSplice
  import opened SpliceMeaning
  import opened WorkflowOrder
  import opened ExecutionOrder

  /** Every step of type `later` depends on every step of type `earlier`. */
  ghost predicate Follows(steps: seq<Step>, later: StepType, earlier: StepType) {
    forall i, j :: 0 <= i < |steps| && 0 <= j < |steps| && steps[i].kind == later && steps[j].kind == earlier
      ==> DependsOn(GraphOf(steps), steps[i].id, steps[j].id)
  }

  ghost predicate Once(steps: seq<Step>, kind: StepType) {
    exists i :: 0 <= i < |steps| && steps[i].kind == kind && forall j :: 0 <= j < |steps| && steps[j].kind == kind ==> j == i
  }

  ghost predicate Never(steps: seq<Step>, kind: StepType) {
    forall i :: 0 <= i < |steps| ==> steps[i].kind != kind
  }

  ghost predicate AtMostOnce(steps: seq<Step>, kind: StepType) {
    forall i, j :: 0 <= i < |steps| && 0 <= j < |steps| && steps[i].kind == kind && steps[j].kind == kind ==> i == j
  }

  lemma {:induction false} CountedNever(steps: seq<Step>, kind: StepType)
    ensures |OfKind(steps, kind)| == 0 <==> Never(steps, kind)
  {
    if steps != [] {
      CountedNever(steps[1..], kind);
      assert forall j :: 1 <= j < |steps| ==> steps[j] == steps[1..][j - 1];
    }
  }

  lemma {:induction false} CountedAtMostOnce(steps: seq<Step>, kind: StepType)
    ensures |OfKind(steps, kind)| <= 1 <==> AtMostOnce(steps, kind)
  {
    if steps != [] {
      var rest := steps[1..];
      CountedAtMostOnce(rest, kind);
      CountedNever(rest, kind);
      assert forall j :: 1 <= j < |steps| ==> steps[j] == rest[j - 1];
      assert forall j :: 0 <= j < |rest| ==> rest[j] == steps[j + 1];
      if AtMostOnce(rest, kind) && (steps[0].kind != kind || Never(rest, kind)) {
        forall i, j | 0 <= i < |steps| && 0 <= j < |steps| && steps[i].kind == kind && steps[j].kind == kind ensures i == j {
          if i > 0 && j > 0 {
            assert rest[i - 1].kind == kind && rest[j - 1].kind == kind;
          }
        }
      }
    }
  }

  lemma CountedOnce(steps: seq<Step>, kind: StepType)
    ensures |OfKind(steps, kind)| == 1 <==> Once(steps, kind)
  {
    CountedNever(steps, kind);
    CountedAtMostOnce(steps, kind);
  }

  ghost predicate AllFollow(steps: seq<Step>, later: set<StepType>, earlier: StepType) {
    forall k :: k in later ==> Follows(steps, k, earlier)
  }

  lemma OrderedFollows(steps: seq<Step>, later: set<StepType>, earlier: StepType, k: StepType)
    requires TypesOrdered(steps, later, earlier) && k in later
    ensures Follows(steps, k, earlier)
  {
    forall i, j | 0 <= i < |steps| && 0 <= j < |steps| && steps[i].kind == k && steps[j].kind == earlier
      ensures DependsOn(GraphOf(steps), steps[i].id, steps[j].id)
    {
      TypesOrder(steps, later, earlier, i, j);
    }
  }

  lemma FollowsOrders(steps: seq<Step>, later: set<StepType>, earlier: StepType)
    requires AllFollow(steps, later, earlier)
    ensures TypesOrdered(steps, later, earlier)
  {
    OfKindSelects(steps, earlier);
    forall anchor | anchor in OfKind(steps, earlier) ensures AllDependOn(steps, later, anchor.id) {
      var j :| 0 <= j < |steps| && steps[j] == anchor;
      forall i | 0 <= i < |steps| && steps[i].kind in later ensures DependsOn(GraphOf(steps), steps[i].id, anchor.id) {
        assert Follows(steps, steps[i].kind, earlier);
      }
    }
  }

  lemma OrderMeans(steps: seq<Step>, later: set<StepType>, earlier: StepType)
    ensures TypesOrdered(steps, later, earlier) <==> AllFollow(steps, later, earlier)
  {
    if AllFollow(steps, later, earlier) {
      FollowsOrders(steps, later, earlier);
    } else {
      var k :| k in later && !Follows(steps, k, earlier);
      if TypesOrdered(steps, later, earlier) {
        OrderedFollows(steps, later, earlier, k);
      }
    }
  }

  // ----- The rules in terms of step types, both ways -----

  lemma TerraformOrderMeans(steps: seq<Step>)
    ensures TerraformOrdered(steps) <==>
              && Follows(steps, TerraformApply, TerraformPlan)
              && Follows(steps, TerraformApply, Approval)
              && Follows(steps, Approval, TerraformPlan)
              && AllFollow(steps, {WaitForVm, WaitForAgent, WaitForIp, WaitForSsh, RunAnsiblePlaybook, RegisterAwx, CreateSnapshot, HealthCheck},
                           TerraformApply)
  {
    OrderMeans(steps, {TerraformApply}, TerraformPlan);
    OrderMeans(steps, {TerraformApply}, Approval);
    OrderMeans(steps, {Approval}, TerraformPlan);
    OrderMeans(steps, RUNTIME_TYPES, TerraformApply);
    assert RUNTIME_TYPES == {WaitForVm, WaitForAgent, WaitForIp, WaitForSsh, RunAnsiblePlaybook, RegisterAwx, CreateSnapshot, HealthCheck};
  }

  lemma TerraformShapeMeans(b: Blueprint)
    ensures TerraformShape(b) <==>
              && Once(b.steps, TerraformApply)
              && Never(b.steps, CloneVm) && Never(b.steps, ConfigureVm) && Never(b.steps, StartVm)
              && forall s :: s in b.steps && s.kind == StepType.CloudInit ==> !s.hasConditions && s.retry == 0 && s.rollback == ""
  {
    CountedOnce(b.steps, TerraformApply);
    OfKindSelects(b.steps, StepType.CloudInit);
    AllowedTypes(b.steps);
  }

  /** The rules for Terraform and OpenTofu: one apply, no direct steps, and everything that needs the VM after apply. */
  lemma TerraformRulesMean(b: Blueprint)
    requires b.executor in {Terraform, OpenTofu}
    ensures ExecutorRules(b) <==>
              && Once(b.steps, TerraformApply)
              && Never(b.steps, CloneVm) && Never(b.steps, ConfigureVm) && Never(b.steps, StartVm)
              && (forall s :: s in b.steps && s.kind == StepType.CloudInit ==> !s.hasConditions && s.retry == 0 && s.rollback == "")
              && Follows(b.steps, TerraformApply, TerraformPlan)
              && Follows(b.steps, TerraformApply, Approval)
              && Follows(b.steps, Approval, TerraformPlan)
              && AllFollow(b.steps, {WaitForVm, WaitForAgent, WaitForIp, WaitForSsh, RunAnsiblePlaybook, RegisterAwx, CreateSnapshot, HealthCheck},
                           TerraformApply)
  {
    TerraformOrderMeans(b.steps);
    TerraformShapeMeans(b);
  }

  lemma AllowedTypes(steps: seq<Step>)
    ensures (forall s :: s in steps ==> s.kind !in DIRECT_ONLY_TYPES)
       <==> Never(steps, CloneVm) && Never(steps, ConfigureVm) && Never(steps, StartVm)
  {
    if forall s :: s in steps ==> s.kind !in DIRECT_ONLY_TYPES {
      assert forall i :: 0 <= i < |steps| ==> steps[i] in steps;
    }
  }

  lemma DirectShapeMeans(b: Blueprint)
    ensures DirectShape(b) <==>
              && b.template == "proxmox-vm"
              && Never(b.steps, TerraformApply) && Never(b.steps, TerraformPlan) && Never(b.steps, Approval)
              && Once(b.steps, CloneVm)
  {
    CountedNever(b.steps, TerraformApply);
    CountedNever(b.steps, TerraformPlan);
    CountedNever(b.steps, Approval);
    CountedOnce(b.steps, CloneVm);
  }

  lemma DirectOrderMeans(steps: seq<Step>)
    ensures DirectOrdered(steps) <==>
              && Follows(steps, StartVm, StepType.CloudInit)
              && AllFollow(steps, {ConfigureVm, StepType.CloudInit, StartVm, WaitForVm, WaitForAgent, WaitForIp, WaitForSsh,
                                   RunAnsiblePlaybook, RegisterAwx, CreateSnapshot, HealthCheck}, CloneVm)
  {
    OrderMeans(steps, AFTER_CLONE_TYPES, CloneVm);
    OrderMeans(steps, {StartVm}, StepType.CloudInit);
    assert AFTER_CLONE_TYPES == {ConfigureVm, StepType.CloudInit, StartVm, WaitForVm, WaitForAgent, WaitForIp, WaitForSsh,
                                 RunAnsiblePlaybook, RegisterAwx, CreateSnapshot, HealthCheck};
  }

  /** The rules for direct Proxmox: one clone, no Terraform or approval steps, and everything that touches the VM after the clone. */
  lemma DirectRulesMean(b: Blueprint)
    requires b.executor == Proxmox
    ensures ExecutorRules(b) <==>
              && b.template == "proxmox-vm"
              && Never(b.steps, TerraformApply) && Never(b.steps, TerraformPlan) && Never(b.steps, Approval)
              && Once(b.steps, CloneVm)
              && Follows(b.steps, StartVm, StepType.CloudInit)
              && AllFollow(b.steps, {ConfigureVm, StepType.CloudInit, StartVm, WaitForVm, WaitForAgent, WaitForIp, WaitForSsh,
                                     RunAnsiblePlaybook, RegisterAwx, CreateSnapshot, HealthCheck}, CloneVm)
  {
    DirectShapeMeans(b);
    DirectOrderMeans(b.steps);
  }

  /** On a sound graph the first-boot rule asks for one plain cloud_init step before every boot. */
  lemma FirstBootMeans(steps: seq<Step>)
    requires UniqueIds(steps) && "" !in GraphOf(steps) && Closed(GraphOf(steps)) && HasRank(GraphOf(steps))
    ensures CloudInitRule(steps) <==>
              && AtMostOnce(steps, StepType.CloudInit)
              && (forall s :: s in steps && s.kind == StepType.CloudInit ==> !s.hasConditions && s.retry == 0 && s.rollback == "")
              && AllFollow(steps, {StartVm, TerraformPlan, TerraformApply}, StepType.CloudInit)
  {
    CountedAtMostOnce(steps, StepType.CloudInit);
    CountedNever(steps, StepType.CloudInit);
    OfKindSelects(steps, StepType.CloudInit);
    if CloudInitRule(steps) {
      CloudInitOrders(steps);
      OrderMeans(steps, AFTER_CLOUD_INIT_TYPES, StepType.CloudInit);
    } else {
      OrderMeans(steps, {StartVm, TerraformPlan, TerraformApply}, StepType.CloudInit);
    }
  }

  /** Approval is asked for once, plainly, and only where the blueprint requires it. */
  lemma ApprovalRulesMean(b: Blueprint)
    ensures ApprovalRules(b) <==>
              && AtMostOnce(b.steps, Approval) && AtMostOnce(b.steps, TerraformPlan)
              && forall s :: s in b.steps && s.kind == Approval ==>
                   b.requiresApproval && !s.hasConditions && s.retry == 0 && s.rollback == ""
  {
    CountedAtMostOnce(b.steps, Approval);
    CountedAtMostOnce(b.steps, TerraformPlan);
    OfKindSelects(b.steps, Approval);
    if Count(b, Approval) > 0 {
      assert OfKind(b.steps, Approval)[0] in OfKind(b.steps, Approval);
    }
  }

  /** The onboarding steps are there exactly when they are configured. */
  lemma OnboardingRulesMean(b: Blueprint)
    ensures OnboardingRules(b) <==>
              && (if b.ansibleRuns > 0 then Once(b.steps, RunAnsiblePlaybook) else Never(b.steps, RunAnsiblePlaybook))
              && (if b.awx then Once(b.steps, RegisterAwx) else Never(b.steps, RegisterAwx) && !b.promptAwxOnExecute)
  {
    CountedOnce(b.steps, RunAnsiblePlaybook);
    CountedNever(b.steps, RunAnsiblePlaybook);
    CountedOnce(b.steps, RegisterAwx);
    CountedNever(b.steps, RegisterAwx);
  }

  ghost predicate TargetOf(steps: seq<Step>, t: Step, s: Step) {
    s in steps && s.rollback != "" && s.rollback == t.id
  }

  /** Rollbacks name other steps, which are harmless and outside the normal workflow; terraform_destroy is nothing else. */
  lemma RollbackRulesMean(steps: seq<Step>)
    ensures RollbackRules(steps) <==>
              && (forall s :: s in steps && s.rollback != "" ==> s.rollback != s.id && s.rollback in Ids(steps))
              && (forall s, t :: t in steps && TargetOf(steps, t, s) ==> t.kind in {TerraformDestroy, Notification, Delay} && t.dependsOn == [])
              && (forall s, t, u :: t in steps && u in steps && TargetOf(steps, t, s) ==> t.id !in u.dependsOn)
              && (forall t :: t in steps && t.kind == TerraformDestroy ==> exists s :: TargetOf(steps, t, s))
  {
    forall t | t in steps ensures t.id in RollbackTargets(steps) <==> exists s :: TargetOf(steps, t, s) {
      if t.id in RollbackTargets(steps) {
        var s :| s in steps && s.rollback != "" && s.rollback == t.id;
        assert TargetOf(steps, t, s);
      }
    }
    assert (forall x :: x in RollbackTargets(steps) ==> x in Ids(steps)) <==>
           (forall s :: s in steps && s.rollback != "" ==> s.rollback in Ids(steps));
    TargetsStandApartMeans(steps);
  }

  lemma TargetsStandApartMeans(steps: seq<Step>)
    ensures TargetsStandApart(steps) <==>
              && (forall s, t :: t in steps && TargetOf(steps, t, s) ==> t.kind in {TerraformDestroy, Notification, Delay} && t.dependsOn == [])
              && (forall s, t, u :: t in steps && u in steps && TargetOf(steps, t, s) ==> t.id !in u.dependsOn)
  {
    forall s, t | t in steps && TargetOf(steps, t, s) ensures t.id in RollbackTargets(steps) {
    }
    forall t | t in steps && t.id in RollbackTargets(steps) ensures exists s :: TargetOf(steps, t, s) {
      var s :| s in steps && s.rollback != "" && s.rollback == t.id;
      assert TargetOf(steps, t, s);
    }
  }

  /** Names, dependencies and cycles; five variable names are taken. */
  lemma GraphRulesMean(b: Blueprint)
    ensures GraphRules(b) <==>
              && (forall s :: s in b.steps ==> s.id != "" && s.id !in s.dependsOn)
              && (forall s, d :: s in b.steps && d in s.dependsOn ==> exists t :: t in b.steps && t.id == d)
              && (forall i, j :: 0 <= i < j < |b.steps| ==> b.steps[i].id != b.steps[j].id)
              && HasRank(GraphOf(b.steps))
              && b.variables !! {"hostname", "ip_address", "ip_address_cidr", "ip_gateway", "ip_prefix_length"}
  {
    IdMembers(b.steps);
    if forall s :: s in b.steps ==> KnowsDependencies(b.steps, s) {
      assert DependenciesKnown(b.steps);
    }
    if DependenciesKnown(b.steps) {
      forall s | s in b.steps ensures KnowsDependencies(b.steps, s) {
        var i :| 0 <= i < |b.steps| && b.steps[i] == s;
      }
    }
  }

  // ----- What an accepted blueprint promises -----

  /** With Terraform or OpenTofu everything that needs the VM comes after apply, apply after its plan and approval. */
  lemma TerraformOrder(b: Blueprint)
    requires Accepted(b) && b.executor in {Terraform, OpenTofu}
    ensures Once(b.steps, TerraformApply)
    ensures Never(b.steps, CloneVm) && Never(b.steps, ConfigureVm) && Never(b.steps, StartVm)
    ensures AllFollow(b.steps, {WaitForVm, WaitForAgent, WaitForIp, WaitForSsh, RunAnsiblePlaybook, RegisterAwx, CreateSnapshot, HealthCheck},
                      TerraformApply)
    ensures Follows(b.steps, TerraformApply, TerraformPlan) && Follows(b.steps, TerraformApply, Approval)
    ensures Follows(b.steps, Approval, TerraformPlan)
  {
    TerraformRulesMean(b);
  }

  /** With direct Proxmox everything that touches the VM comes after the clone. */
  lemma DirectOrder(b: Blueprint)
    requires Accepted(b) && b.executor == Proxmox
    ensures Once(b.steps, CloneVm)
    ensures Never(b.steps, TerraformApply) && Never(b.steps, TerraformPlan) && Never(b.steps, Approval)
    ensures AllFollow(b.steps, {ConfigureVm, StepType.CloudInit, StartVm, WaitForVm, WaitForAgent, WaitForIp, WaitForSsh,
                                RunAnsiblePlaybook, RegisterAwx, CreateSnapshot, HealthCheck}, CloneVm)
  {
    DirectRulesMean(b);
  }

  lemma AcceptedGraphIsSound(b: Blueprint)
    requires Accepted(b)
    ensures UniqueIds(b.steps) && "" !in GraphOf(b.steps) && Closed(GraphOf(b.steps)) && HasRank(GraphOf(b.steps))
    ensures RollbackRules(b.steps) && CloudInitRule(b.steps)
  {
    AcceptedGraph(b);
    GraphKeys(b.steps);
  }

  /** With either executor the VM is configured for its first boot before it can boot. */
  lemma FirstBootOrder(b: Blueprint)
    requires Accepted(b)
    ensures AtMostOnce(b.steps, StepType.CloudInit)
    ensures AllFollow(b.steps, {StartVm, TerraformPlan, TerraformApply}, StepType.CloudInit)
  {
    AcceptedGraphIsSound(b);
    FirstBootMeans(b.steps);
  }

  // ----- In which order they run -----

  /** Wherever a step of type `later` stands in the order, every step of type `earlier` has run. */
  ghost predicate RunsAfter(order: seq<Step>, later: StepType, earlier: StepType) {
    forall i, j :: 0 <= i < |order| && 0 <= j < |order| && order[i].kind == later && order[j].kind == earlier ==> j < i
  }

  lemma ChosenRunsInOrder(b: Blueprint, order: seq<Step>, declined: bool, later: StepType, earlier: StepType)
    requires Accepted(b) && Respects(order) && Permutation(if declined then Declined(b.steps) else b.steps, order)
    requires MustFollow(b.executor.Proxmox?, later, earlier)
    ensures RunsAfter(order, later, earlier)
  {
    if declined {
      DeclinedRunsInOrder(b, order);
    } else {
      AcceptedRunsInOrder(b, order);
    }
  }

  /** No step that needs the VM runs before apply, nor apply before its plan and approval; with AWX declined or not. */
  lemma TerraformRunOrder(b: Blueprint, order: seq<Step>, declined: bool)
    requires Accepted(b) && b.executor in {Terraform, OpenTofu} && Respects(order)
    requires Permutation(if declined then Declined(b.steps) else b.steps, order)
    ensures forall k :: k in {WaitForVm, WaitForAgent, WaitForIp, WaitForSsh, RunAnsiblePlaybook, RegisterAwx, CreateSnapshot, HealthCheck}
              ==> RunsAfter(order, k, TerraformApply)
    ensures RunsAfter(order, TerraformApply, TerraformPlan) && RunsAfter(order, TerraformApply, Approval)
    ensures RunsAfter(order, Approval, TerraformPlan) && RunsAfter(order, TerraformApply, StepType.CloudInit)
  {
    forall k | k in {WaitForVm, WaitForAgent, WaitForIp, WaitForSsh, RunAnsiblePlaybook, RegisterAwx, CreateSnapshot, HealthCheck}
      ensures RunsAfter(order, k, TerraformApply)
    {
      ChosenRunsInOrder(b, order, declined, k, TerraformApply);
    }
    ChosenRunsInOrder(b, order, declined, TerraformApply, TerraformPlan);
    ChosenRunsInOrder(b, order, declined, TerraformApply, Approval);
    ChosenRunsInOrder(b, order, declined, Approval, TerraformPlan);
    ChosenRunsInOrder(b, order, declined, TerraformApply, StepType.CloudInit);
  }

  /** No step that touches the VM runs before the clone, and the VM starts only after cloud_init. */
  lemma DirectRunOrder(b: Blueprint, order: seq<Step>, declined: bool)
    requires Accepted(b) && b.executor == Proxmox && Respects(order)
    requires Permutation(if declined then Declined(b.steps) else b.steps, order)
    ensures forall k :: k in {ConfigureVm, StepType.CloudInit, StartVm, WaitForVm, WaitForAgent, WaitForIp, WaitForSsh,
                              RunAnsiblePlaybook, RegisterAwx, CreateSnapshot, HealthCheck}
              ==> RunsAfter(order, k, CloneVm)
    ensures RunsAfter(order, StartVm, StepType.CloudInit)
  {
    forall k | k in {ConfigureVm, StepType.CloudInit, StartVm, WaitForVm, WaitForAgent, WaitForIp, WaitForSsh,
                     RunAnsiblePlaybook, RegisterAwx, CreateSnapshot, HealthCheck}
      ensures RunsAfter(order, k, CloneVm)
    {
      ChosenRunsInOrder(b, order, declined, k, CloneVm);
    }
    ChosenRunsInOrder(b, order, declined, StartVm, StepType.CloudInit);
  }

  // ----- What may stand before apply and before the clone -----

  /** A step of type `anchor` waits for a step of type `kind`. */
  ghost predicate WaitsFor(steps: seq<Step>, anchor: StepType, kind: StepType) {
    exists i, j :: 0 <= i < |steps| && 0 <= j < |steps| && steps[i].kind == anchor && steps[j].kind == kind
                   && DependsOn(GraphOf(steps), steps[i].id, steps[j].id)
  }

  lemma NothingWaitsForTarget(steps: seq<Step>, a: StepId, t: StepId)
    requires UniqueIds(steps) && forall k :: 0 <= k < |steps| ==> t !in steps[k].dependsOn
    ensures !DependsOn(GraphOf(steps), a, t)
  {
    if DependsOn(GraphOf(steps), a, t) {
      var p :| Connects(GraphOf(steps), p, a, t);
      assert Edge(GraphOf(steps), p[|p| - 2], p[|p| - 1]);
      GraphEdge(steps, p[|p| - 2], t);
    }
  }

  lemma NothingWaitsForDestroy(steps: seq<Step>, a: StepId, j: nat)
    requires UniqueIds(steps) && RollbackRules(steps) && j < |steps| && steps[j].kind == TerraformDestroy
    ensures !DependsOn(GraphOf(steps), a, steps[j].id)
  {
    RollbackRulesMean(steps);
    assert steps[j] in steps;
    var s :| TargetOf(steps, steps[j], s);
    NothingWaitsForTarget(steps, a, steps[j].id);
  }

  lemma NoWayBack(g: Graph, a: StepId, b: StepId)
    requires HasRank(g) && DependsOn(g, a, b)
    ensures a != b && !DependsOn(g, b, a)
  {
    var rank :| IsRank(g, rank);
    RankFalls(g, rank, a, b);
    if DependsOn(g, b, a) {
      RankFalls(g, rank, b, a);
    }
  }

  /** What a step waits for is another step, does not wait for it in turn and is no terraform_destroy. */
  lemma AwaitedStep(steps: seq<Step>, anchor: StepType, kind: StepType)
    requires UniqueIds(steps) && HasRank(GraphOf(steps)) && RollbackRules(steps) && WaitsFor(steps, anchor, kind)
    ensures !Never(steps, kind) && kind != TerraformDestroy
    ensures !Follows(steps, kind, anchor)
    ensures Once(steps, anchor) ==> kind != anchor
  {
    var i, j :| 0 <= i < |steps| && 0 <= j < |steps| && steps[i].kind == anchor && steps[j].kind == kind
                && DependsOn(GraphOf(steps), steps[i].id, steps[j].id);
    NoWayBack(GraphOf(steps), steps[i].id, steps[j].id);
    assert i != j;
    if kind == TerraformDestroy {
      NothingWaitsForDestroy(steps, steps[i].id, j);
    }
  }

  /** A step `x` of the given type and an anchor step that waits for it. */
  function Pair(kind: StepType, anchor: StepType): Blueprint {
    Blueprint({}, [Step("x", kind, [], false, 0, ""), Step("y", anchor, ["x"], false, 0, "")],
              kind == Approval, if anchor == CloneVm then Proxmox else Terraform, "proxmox-vm", 0, false, false)
  }

  lemma PairCounts(kind: StepType, anchor: StepType, k: StepType)
    ensures var steps := Pair(kind, anchor).steps;
            OfKind(steps, k) == (if kind == k then [steps[0]] else []) + (if anchor == k then [steps[1]] else [])
  {
    var steps := Pair(kind, anchor).steps;
    assert steps[1..] == [steps[1]] && steps[1..][1..] == [];
  }

  lemma PairGraph(kind: StepType, anchor: StepType)
    ensures var steps := Pair(kind, anchor).steps;
            && GraphOf(steps) == map["x" := [], "y" := ["x"]]
            && UniqueIds(steps) && DependenciesKnown(steps)
            && Closed(GraphOf(steps)) && HasRank(GraphOf(steps)) && DependsOn(GraphOf(steps), "y", "x")
  {
    var steps := Pair(kind, anchor).steps;
    assert steps[..1][..0] == [] && steps[..1] == [steps[0]];
    assert Ids(steps) == ["x", "y"];
    assert Edge(GraphOf(steps), "y", "x");
    assert IsRank(GraphOf(steps), map["x" := 0, "y" := 1]);
    EdgeIsDependency(GraphOf(steps), "y", "x");
  }

  lemma PairGraphRules(kind: StepType, anchor: StepType)
    ensures GraphRules(Pair(kind, anchor))
  {
    PairGraph(kind, anchor);
    assert Ids(Pair(kind, anchor).steps) == ["x", "y"];
  }

  lemma PairRollbackRules(kind: StepType, anchor: StepType)
    requires kind != TerraformDestroy && anchor != TerraformDestroy
    ensures RollbackRules(Pair(kind, anchor).steps)
  {
    assert RollbackTargets(Pair(kind, anchor).steps) == {};
  }

  lemma PairOrders(kind: StepType, anchor: StepType, later: set<StepType>, k: StepType)
    requires kind !in later && k != anchor
    ensures TypesOrdered(Pair(kind, anchor).steps, later, k)
  {
    PairCounts(kind, anchor, k);
    PairGraph(kind, anchor);
  }

  lemma PairFirstBoot(kind: StepType, anchor: StepType)
    requires anchor == TerraformApply || (anchor == CloneVm && kind != StepType.CloudInit)
    ensures CloudInitRule(Pair(kind, anchor).steps)
  {
    PairCounts(kind, anchor, StepType.CloudInit);
    PairGraph(kind, anchor);
    GraphKeys(Pair(kind, anchor).steps);
  }

  lemma PairApproval(kind: StepType, anchor: StepType)
    requires anchor in {TerraformApply, CloneVm} && kind !in {RunAnsiblePlaybook, RegisterAwx}
    ensures ApprovalRules(Pair(kind, anchor)) && OnboardingRules(Pair(kind, anchor))
  {
    PairCounts(kind, anchor, Approval);
    PairCounts(kind, anchor, TerraformPlan);
    PairCounts(kind, anchor, RunAnsiblePlaybook);
    PairCounts(kind, anchor, RegisterAwx);
  }

  /** Nothing waits for the anchor in the pair. */
  lemma PairAfterApply(kind: StepType, anchor: StepType, later: set<StepType>)
    requires kind !in later && anchor !in later
    ensures TypesOrdered(Pair(kind, anchor).steps, later, anchor)
  {
  }

  lemma TerraformPairShape(kind: StepType)
    requires kind in {StepType.CloudInit, TerraformPlan, Approval, Condition, Delay, Notification}
    ensures TerraformShape(Pair(kind, TerraformApply))
  {
    PairCounts(kind, TerraformApply, TerraformApply);
    PairCounts(kind, TerraformApply, StepType.CloudInit);
  }

  lemma TerraformPair(kind: StepType)
    requires kind in {StepType.CloudInit, TerraformPlan, Approval, Condition, Delay, Notification}
    ensures ExecutorRules(Pair(kind, TerraformApply))
  {
    TerraformPairShape(kind);
    TerraformPairOrder(kind);
  }

  lemma TerraformPairOrder(kind: StepType)
    requires kind in {StepType.CloudInit, TerraformPlan, Approval, Condition, Delay, Notification}
    ensures TerraformOrdered(Pair(kind, TerraformApply).steps)
  {
    PairOrders(kind, TerraformApply, {TerraformApply}, TerraformPlan);
    PairOrders(kind, TerraformApply, {TerraformApply}, Approval);
    PairOrdersApproval(kind);
    assert kind !in RUNTIME_TYPES;
    PairAfterApply(kind, TerraformApply, RUNTIME_TYPES);
  }

  /** A pair has no plan beside an approval. */
  lemma PairOrdersApproval(kind: StepType)
    ensures TypesOrdered(Pair(kind, TerraformApply).steps, {Approval}, TerraformPlan)
  {
    PairCounts(kind, TerraformApply, TerraformPlan);
  }

  lemma DirectPair(kind: StepType)
    requires kind in {Condition, Delay, Notification}
    ensures ExecutorRules(Pair(kind, CloneVm))
  {
    PairCounts(kind, CloneVm, TerraformApply);
    PairCounts(kind, CloneVm, TerraformPlan);
    PairCounts(kind, CloneVm, Approval);
    PairCounts(kind, CloneVm, CloneVm);
    PairAfterApply(kind, CloneVm, AFTER_CLONE_TYPES);
    PairOrders(kind, CloneVm, {StartVm}, StepType.CloudInit);
  }

  lemma PairIsAccepted(kind: StepType, anchor: StepType)
    requires anchor in {TerraformApply, CloneVm}
    requires kind in {Condition, Delay, Notification} || (anchor == TerraformApply && kind in {StepType.CloudInit, TerraformPlan, Approval})
    ensures Accepted(Pair(kind, anchor)) && WaitsFor(Pair(kind, anchor).steps, anchor, kind)
  {
    PairGraphRules(kind, anchor);
    PairRollbackRules(kind, anchor);
    PairFirstBoot(kind, anchor);
    PairApproval(kind, anchor);
    if anchor == TerraformApply {
      TerraformPair(kind);
    } else {
      DirectPair(kind);
    }
    PairWaits(kind, anchor);
  }

  lemma PairWaits(kind: StepType, anchor: StepType)
    ensures WaitsFor(Pair(kind, anchor).steps, anchor, kind)
  {
    PairGraph(kind, anchor);
    var steps := Pair(kind, anchor).steps;
    assert DependsOn(GraphOf(steps), steps[1].id, steps[0].id);
  }

  ghost predicate MayPrecede(direct: bool, anchor: StepType, kind: StepType) {
    exists b: Blueprint :: Accepted(b) && b.executor.Proxmox? == direct && WaitsFor(b.steps, anchor, kind)
  }

  lemma AwaitedByApply(b: Blueprint, kind: StepType)
    requires Accepted(b) && b.executor != Proxmox && WaitsFor(b.steps, TerraformApply, kind)
    ensures kind in {StepType.CloudInit, TerraformPlan, Approval, Condition, Delay, Notification}
  {
    TerraformOrder(b);
    AcceptedGraphIsSound(b);
    AwaitedStep(b.steps, TerraformApply, kind);
  }

  lemma AwaitedByClone(b: Blueprint, kind: StepType)
    requires Accepted(b) && b.executor == Proxmox && WaitsFor(b.steps, CloneVm, kind)
    ensures kind in {Condition, Delay, Notification}
  {
    DirectOrder(b);
    AcceptedGraphIsSound(b);
    AwaitedStep(b.steps, CloneVm, kind);
  }

  /** Exactly six step types can stand before terraform_apply in an accepted blueprint. */
  lemma BeforeApply(kind: StepType)
    ensures MayPrecede(false, TerraformApply, kind)
       <==> kind in {StepType.CloudInit, TerraformPlan, Approval, Condition, Delay, Notification}
  {
    if kind in {StepType.CloudInit, TerraformPlan, Approval, Condition, Delay, Notification} {
      PairIsAccepted(kind, TerraformApply);
    } else if MayPrecede(false, TerraformApply, kind) {
      var b: Blueprint :| Accepted(b) && b.executor.Proxmox? == false && WaitsFor(b.steps, TerraformApply, kind);
      AwaitedByApply(b, kind);
    }
  }

  /** Exactly three step types can stand before clone_vm. */
  lemma BeforeClone(kind: StepType)
    ensures MayPrecede(true, CloneVm, kind) <==> kind in {Condition, Delay, Notification}
  {
    if kind in {Condition, Delay, Notification} {
      PairIsAccepted(kind, CloneVm);
    } else if MayPrecede(true, CloneVm, kind) {
      var b: Blueprint :| Accepted(b) && b.executor.Proxmox? == true && WaitsFor(b.steps, CloneVm, kind);
      AwaitedByClone(b, kind);
    }
  }
}
