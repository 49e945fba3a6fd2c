/**
 Adopted VMs: their deployments are plan-only, and over any run nothing is ever applied to them.
 */
module Adoption {
  import opened Wrappers
  import opened PlaybookCatalog
  import opened JobStore

  /** A plan-only deployment has no apply job, live or ended. */
  ghost predicate PlanOnlyRespected(s: State) {
    forall j :: j in s.jobs && s.jobs[j].operation == TerraformApply && s.jobs[j].deployment.Some? ==>
                  s.jobs[j].deployment.value in s.deployments && !s.deployments[s.jobs[j].deployment.value].planOnly
  }

  lemma NewJobRespectsPlanOnly(s: State, id: JobId, base: Job, gated: bool)
    requires PlanOnlyRespected(s) && CanEnqueue(s, id, base)
    requires base.operation == TerraformApply && base.deployment.Some? ==> !s.deployments[base.deployment.value].planOnly
    ensures PlanOnlyRespected(NewJob(s, id, base, gated))
  {
  }

  /** Rows keep their jobs' operations and deployments, and deployments what makes them plan-only. */
  lemma UpdateRespectsPlanOnly(s: State, t: State)
    requires PlanOnlyRespected(s)
    requires forall j :: j in t.jobs ==>
               (j in s.jobs && t.jobs[j].operation == s.jobs[j].operation && t.jobs[j].deployment == s.jobs[j].deployment)
               || t.jobs[j].operation == BlueprintDelete
    requires forall d :: d in s.deployments ==> d in t.deployments && t.deployments[d].planOnly == s.deployments[d].planOnly
    ensures PlanOnlyRespected(t)
  {
  }

  lemma SettleRespectsPlanOnly(s: State, id: JobId, job: Job, status: DeploymentStatus, release: bool)
    requires PlanOnlyRespected(s) && id in s.jobs
    requires job.operation == s.jobs[id].operation && job.deployment == s.jobs[id].deployment
    ensures PlanOnlyRespected(Settle(s, id, job, status, release))
  {
    UpdateRespectsPlanOnly(s, Settle(s, id, job, status, release));
  }

  lemma CancelRespectsPlanOnly(s: State, id: JobId)
    requires PlanOnlyRespected(s) && id in s.jobs && Live(s.jobs[id].status)
    ensures PlanOnlyRespected(CancelJob(s, id))
  {
    var job := s.jobs[id];
    var pending := job.status in {Queued, WaitingApproval};
    SettleRespectsPlanOnly(s, id, job.(status := if pending then Cancelled else Cancelling, cancelRequested := true),
                           if pending then StatusAfterCancel(s, id) else CancellingD, pending && job.operation != TerraformPlan);
  }

  lemma ApiRespectsPlanOnly(s: State, e: ApiStep)
    requires PlanOnlyRespected(s) && ApiEnabled(s, e)
    ensures PlanOnlyRespected(ApiNext(s, e))
  {
    match e
    case Create(id, op, d, payloadGiven, playbooks, gated) =>
      NewJobRespectsPlanOnly(s, id, CreateBase(s, op, d, payloadGiven, playbooks), gated);
    case Execute(id, d, b, direct, allocates, playbooks, gated) =>
      NewJobRespectsPlanOnly(WithDeployment(s, d, NewRow(Some(b), false, allocates)), id, ExecuteJob(d, b, direct, playbooks), gated);
    case CreateDeployment(id, d, playbooks, gated) =>
      NewJobRespectsPlanOnly(WithDeployment(s, d, NewRow(None, false, false)), id,
                             FirstJob(TerraformApply, Some(d), None, playbooks), gated);
    case Adopt(id, d, gated) =>
      NewJobRespectsPlanOnly(WithDeployment(s, d, NewRow(None, true, false)), id, FirstJob(TerraformImport, Some(d), None, []), gated);
    case Retry(id, newId, gated) => RetryRespectsPlanOnly(s, id, newId, gated);
    case AcceptAwx(id, newId, _, gated) => NewJobRespectsPlanOnly(s, newId, AcceptedPayload(id, s.jobs[id]), gated);
    case DeleteBlueprint(b, id) => UpdateRespectsPlanOnly(s, RequestDelete(s, b, id));
    case Approve(id, _) => SettleRespectsPlanOnly(s, id, s.jobs[id].(status := Queued), QueuedD, false);
    case Cancel(id) => CancelRespectsPlanOnly(s, id);
    case FinaliseMissing(_) =>
    case EditCatalog(_) =>
  }

  lemma RetryRespectsPlanOnly(s: State, id: JobId, newId: JobId, gated: bool)
    requires PlanOnlyRespected(s) && id in s.jobs
    ensures PlanOnlyRespected(RetryJob(s, id, newId, gated))
  {
    var t := s.(plans := PlansAfterRetry(s, id));
    if CanCreate(t, newId, RetryPayload(id, s.jobs[id])) {
      NewJobRespectsPlanOnly(t, newId, RetryPayload(id, s.jobs[id]), gated);
    }
  }

  lemma WorkerRespectsPlanOnly(s: State, e: WorkerStep)
    requires PlanOnlyRespected(s) && WorkerEnabled(s, e)
    ensures PlanOnlyRespected(WorkerNext(s, e))
  {
  }

  lemma DispatcherRespectsPlanOnly(s: State, e: DispatcherStep)
    requires PlanOnlyRespected(s) && DispatcherEnabled(s, e)
    ensures PlanOnlyRespected(DispatcherNext(s, e))
  {
    match e
    case ReapStaleAndResume(id, newId) => ResumeRespectsPlanOnly(s, id, newId);
    case ExpireApproval(id, hasResource) => ExpiryRespectsPlanOnly(s, id, hasResource);
    case Scheduled(id, op, d, playbooks, gated) => NewJobRespectsPlanOnly(s, id, ScheduledJob(s, op, d, playbooks), gated);
    case ReapCancelled(id) => UpdateRespectsPlanOnly(s, DispatcherNext(s, e));
    case ReapStale(id) => SettleRespectsPlanOnly(s, id, s.jobs[id].(status := Failed), FailedD, false);
    case Quarantine(id) => SettleRespectsPlanOnly(s, id, s.jobs[id].(status := Failed), ReconciliationRequired, false);
    case Resync(_) =>
    case ForgetReleases(_) =>
  }

  lemma ExpiryRespectsPlanOnly(s: State, id: JobId, hasResource: bool)
    requires PlanOnlyRespected(s) && id in s.jobs
    ensures PlanOnlyRespected(Expire(s, id, hasResource))
  {
    var job, t := s.jobs[id], Unplanned(s, s.jobs[id].deployment);
    if hasResource && job.runtime.providerApplied {
      SettleRespectsPlanOnly(t, id, job.(status := Failed), FailedD, false);
    } else {
      var status := StatusAfterExpiry(job, hasResource);
      SettleRespectsPlanOnly(t, id, job.(status := Cancelled), status, status == CancelledD);
    }
  }

  lemma ResumeRespectsPlanOnly(s: State, id: JobId, newId: JobId)
    requires PlanOnlyRespected(s) && Owns(s, id)
    ensures PlanOnlyRespected(Resumed(s, id, newId))
  {
    SettleRespectsPlanOnly(s, id, s.jobs[id].(status := Failed), FailedD, false);
  }

  /** In no run is an apply job ever started on an adopted deployment, by whatever chain of retries. */
  lemma {:induction false} AdoptedIsNeverApplied(states: seq<State>, steps: seq<Step>, i: nat)
    requires IsRun(states, steps) && i < |states|
    ensures PlanOnlyRespected(states[i])
  {
    if i > 0 {
      AdoptedIsNeverApplied(states, steps, i - 1);
      assert RunStep(states, steps, i - 1);
      match steps[i - 1]
      case Api(a) => ApiRespectsPlanOnly(states[i - 1], a);
      case Worker(w) => WorkerRespectsPlanOnly(states[i - 1], w);
      case Dispatcher(x) => DispatcherRespectsPlanOnly(states[i - 1], x);
    }
  }
}
