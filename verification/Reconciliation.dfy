/**
 A deployment in reconciliation_required owes a successful plan. Which transactions can take the
 debt away is settled exactly.
 */
module Reconciliation {
  import opened Wrappers
  import opened PlaybookCatalog
  import opened JobStore
  import opened JobHistory
  import opened JobInvariants
  import opened JobChains

  ghost predicate PlansFor(s: State, id: JobId, d: DeploymentId) {
    && Owns(s, id)
    && s.jobs[id].deployment == Some(d)
    && s.jobs[id].operation == TerraformPlan
    && s.jobs[id].previousStatus == Some(ReconciliationRequired)
  }

  /** The deployment is to be reconciled, or the plan that may reconcile it is under way. */
  ghost predicate Owed(s: State, d: DeploymentId) {
    && d in s.deployments
    && (s.deployments[d].status == ReconciliationRequired
        || (s.deployments[d].active.Some? && PlansFor(s, s.deployments[d].active.value, d)))
  }

  /** What takes a deployment out of the debt. */
  ghost predicate Discharges(s: State, e: Step, d: DeploymentId) {
    match e
    case Api(FinaliseMissing(x)) => x == d
    case Worker(Finish(id, outcome, _, _)) => PlansFor(s, id, d) && outcome == Successful
    case Dispatcher(Scheduled(_, op, x, _, _)) => x == d && op != TerraformPlan
    case Dispatcher(ReapCancelled(id)) => PlansFor(s, id, d)
    case Dispatcher(ReapStale(id)) => PlansFor(s, id, d)
    case Dispatcher(ExpireApproval(id, hasResource)) =>
      PlansFor(s, id, d) && (!hasResource || s.jobs[id].runtime.providerApplied)
    case _ => false
  }

  lemma SettleOwed(s: State, id: JobId, job: Job, status: DeploymentStatus, release: bool, d: DeploymentId)
    requires OneLive(s) && Owed(s, d) && id in s.jobs && Live(s.jobs[id].status) && Kept(s.jobs[id], job)
    ensures Owed(Settle(s, id, job, status, release), d) <==>
            (PlansFor(s, id, d) ==> Live(job.status) || status == ReconciliationRequired)
  {
  }

  /** Owed looks only at the rows. */
  lemma OwedFrame(s: State, t: State, d: DeploymentId)
    requires t.jobs == s.jobs && t.deployments == s.deployments
    ensures Owed(t, d) <==> Owed(s, d)
  {
  }

  lemma LaunchOwed(s: State, id: JobId, job: Job, status: DeploymentStatus, d: DeploymentId)
    requires OneLive(s) && Owed(s, d) && id !in s.jobs && !Settled(status)
    requires job.deployment.Some? ==> job.deployment.value in s.deployments && s.deployments[job.deployment.value].active.None?
    requires job.deployment == Some(d) ==> job.previousStatus == Some(s.deployments[d].status)
    ensures Owed(Launch(s, id, job, status), d) <==> (job.deployment == Some(d) ==> job.operation == TerraformPlan)
  {
  }

  lemma NewJobOwed(s: State, id: JobId, base: Job, gated: bool, d: DeploymentId)
    requires OneLive(s) && Owed(s, d) && CanEnqueue(s, id, base)
    requires base.deployment.Some? ==> s.deployments[base.deployment.value].active.None?
    ensures Owed(NewJob(s, id, base, gated), d) <==> (base.deployment == Some(d) ==> base.operation == TerraformPlan)
  {
    LaunchOwed(s, id, Prepared(s, base, gated), if gated then WaitingApprovalD else QueuedD, d);
  }

  lemma OpenOwed(s: State, id: JobId, x: DeploymentId, row: Deployment, base: Job, gated: bool, d: DeploymentId)
    requires OneLive(s) && Owed(s, d) && CanOpen(s, id, x, row, base)
    ensures Owed(Opened(s, id, x, row, base, gated), d)
  {
  }

  lemma RetryOwed(s: State, id: JobId, newId: JobId, gated: bool, d: DeploymentId)
    requires OneLive(s) && Owed(s, d) && id in s.jobs
    ensures Owed(RetryJob(s, id, newId, gated), d)
  {
    var t := s.(plans := PlansAfterRetry(s, id));
    OwedFrame(s, t, d);
    if CanCreate(t, newId, RetryPayload(id, s.jobs[id])) {
      PlainUpdateKeepsOneLive(s, t);
      NewJobOwed(t, newId, RetryPayload(id, s.jobs[id]), gated, d);
    }
  }

  lemma CancelOwed(s: State, id: JobId, d: DeploymentId)
    requires OneLive(s) && Owed(s, d) && id in s.jobs && Live(s.jobs[id].status)
    ensures Owed(CancelJob(s, id), d)
  {
  }

  lemma RowUpdateOwed(s: State, t: State, id: JobId, job: Job, d: DeploymentId)
    requires Owed(s, d) && t.deployments == s.deployments && t.jobs == s.jobs[id := job]
    requires id in s.jobs ==> Kept(s.jobs[id], job)
    requires OneLive(s)
    ensures Owed(t, d)
  {
  }

  lemma RequestDeleteOwed(s: State, b: BlueprintId, id: JobId, d: DeploymentId)
    requires OneLive(s) && Owed(s, d) && id !in s.jobs
    ensures Owed(RequestDelete(s, b, id), d)
  {
  }

  lemma FinaliseOwed(s: State, x: DeploymentId, d: DeploymentId)
    requires OneLive(s) && Owed(s, d) && x in s.deployments && s.deployments[x].active.None?
    ensures Owed(s.(deployments := s.deployments[x := FinalisedRow(s.deployments[x])]), d) <==> x != d
  {
  }

  lemma ApiOwed(s: State, e: ApiStep, d: DeploymentId)
    requires Consistent(s) && Owed(s, d) && ApiEnabled(s, e)
    ensures Owed(ApiNext(s, e), d) <==> !Discharges(s, Api(e), d)
  {
    match e
    case Create(id, op, x, payloadGiven, playbooks, gated) =>
      NewJobOwed(s, id, CreateBase(s, op, x, payloadGiven, playbooks), gated, d);
    case Execute(id, x, b, direct, allocates, playbooks, gated) =>
      OpenOwed(s, id, x, NewRow(Some(b), false, allocates), ExecuteJob(x, b, direct, playbooks), gated, d);
    case CreateDeployment(id, x, playbooks, gated) =>
      OpenOwed(s, id, x, NewRow(None, false, false), FirstJob(TerraformApply, Some(x), None, playbooks), gated, d);
    case Adopt(id, x, gated) =>
      OpenOwed(s, id, x, NewRow(None, true, false), FirstJob(TerraformImport, Some(x), None, []), gated, d);
    case DeleteBlueprint(b, id) => RequestDeleteOwed(s, b, id, d);
    case Approve(id, _) => SettleOwed(s, id, s.jobs[id].(status := Queued), QueuedD, false, d);
    case Cancel(id) => CancelOwed(s, id, d);
    case Retry(id, newId, gated) => RetryOwed(s, id, newId, gated, d);
    case AcceptAwx(id, newId, _, gated) => NewJobOwed(s, newId, AcceptedPayload(id, s.jobs[id]), gated, d);
    case FinaliseMissing(x) => FinaliseOwed(s, x, d);
    case EditCatalog(catalog) => OwedFrame(s, s.(catalog := catalog), d);
  }

  lemma FinishOwed(s: State, id: JobId, outcome: JobStatus, rollbackDestroyed: bool, submitted: bool, d: DeploymentId)
    requires OneLive(s) && Owed(s, d) && id in s.jobs && outcome in {Successful, Failed, Cancelled}
    ensures Owed(FinishJob(s, id, outcome, rollbackDestroyed, submitted), d) <==> !(PlansFor(s, id, d) && outcome == Successful)
  {
    if Live(s.jobs[id].status) {
      var status := StatusAfterFinish(s, id, outcome, rollbackDestroyed, submitted);
      SettleOwed(s, id, s.jobs[id].(status := outcome), status, status == Destroyed, d);
    } else {
      EndedOwnsNothing(s, id);
      RowUpdateOwed(s, FinishJob(s, id, outcome, rollbackDestroyed, submitted), id, s.jobs[id].(status := outcome), d);
    }
  }

  lemma RecoverOwed(s: State, id: JobId, submitted: bool, recovery: JobId, d: DeploymentId)
    requires OneLive(s) && Owed(s, d) && Working(s, id) && Provisioning(s.jobs[id].operation) && Owns(s, id) && recovery !in s.jobs
    ensures Owed(Recovered(s, id, submitted, recovery), d)
  {
  }

  lemma PauseOwed(s: State, id: JobId, d: DeploymentId)
    requires OneLive(s) && Owed(s, d) && Working(s, id) && s.jobs[id].deployment.Some?
    ensures Owed(AwaitingApproval(s, id), d) && Owed(Deferred(s, id), d)
  {
  }

  lemma WorkerOwed(s: State, e: WorkerStep, d: DeploymentId)
    requires Consistent(s) && Owed(s, d) && WorkerEnabled(s, e)
    ensures Owed(WorkerNext(s, e), d) <==> !Discharges(s, Worker(e), d)
  {
    match e
    case Claim(id) => SettleOwed(s, id, s.jobs[id].(status := Running), RunningD, false, d);
    case Checkpoint(id, _, _, _) => RowUpdateOwed(s, WorkerNext(s, e), id, WorkerNext(s, e).jobs[id], d);
    case DeferForProvider(id) => PauseOwed(s, id, d);
    case AwaitApproval(id) => PauseOwed(s, id, d);
    case StorePlan(_) => OwedFrame(s, WorkerNext(s, e), d);
    case DropPlan(_) => OwedFrame(s, WorkerNext(s, e), d);
    case ClearWait(id) => WaitClearedOwed(s, s.jobs[id].deployment.value, d);
    case Finish(id, outcome, rollbackDestroyed, submitted) => FinishOwed(s, id, outcome, rollbackDestroyed, submitted, d);
    case FinishAndRecover(id, submitted, recovery) => RecoverOwed(s, id, submitted, recovery, d);
    case PerformDelete(_) => OwedFrame(s, WorkerNext(s, e), d);
    case RequeueDelete(id) => RowUpdateOwed(s, WorkerNext(s, e), id, s.jobs[id].(status := Queued), d);
  }

  lemma ResumeOwed(s: State, id: JobId, newId: JobId, d: DeploymentId)
    requires OneLive(s) && Owed(s, d) && Owns(s, id) && Live(s.jobs[id].status) && Provisioning(s.jobs[id].operation)
    requires newId !in s.jobs
    ensures Owed(Resumed(s, id, newId), d)
  {
  }

  lemma ExpiryOwed(s: State, id: JobId, hasResource: bool, d: DeploymentId)
    requires OneLive(s) && Owed(s, d) && id in s.jobs && s.jobs[id].status == WaitingApproval
    ensures Owed(Expire(s, id, hasResource), d) <==>
            !(PlansFor(s, id, d) && (!hasResource || s.jobs[id].runtime.providerApplied))
  {
  }

  lemma RelabelOwed(s: State, x: DeploymentId, row: Deployment, d: DeploymentId)
    requires OneLive(s) && Owed(s, d) && x in s.deployments && row.active == s.deployments[x].active
    requires s.deployments[x].status == ReconciliationRequired ==> row.status == ReconciliationRequired
    ensures Owed(s.(deployments := s.deployments[x := row]), d)
  {
    if s.deployments[d].active.Some? {
      assert PlansFor(s.(deployments := s.deployments[x := row]), s.deployments[d].active.value, d);
    }
  }

  lemma WaitClearedOwed(s: State, x: DeploymentId, d: DeploymentId)
    requires OneLive(s) && Owed(s, d) && x in s.deployments
    ensures Owed(WaitCleared(s, x), d)
  {
    if s.deployments[x].status == WaitingProvider {
      RelabelOwed(s, x, s.deployments[x].(status := RunningD), d);
    }
  }

  lemma ResyncOwed(s: State, x: DeploymentId, d: DeploymentId)
    requires OneLive(s) && Owed(s, d) && x in s.deployments && s.deployments[x].active.Some?
    ensures Owed(s.(deployments := s.deployments[x := Resynced(s, x)]), d)
  {
  }

  lemma ReapOwed(s: State, id: JobId, d: DeploymentId)
    requires OneLive(s) && Owed(s, d) && DispatcherEnabled(s, ReapCancelled(id))
    ensures Owed(DispatcherNext(s, ReapCancelled(id)), d) <==> !PlansFor(s, id, d)
  {
  }

  lemma DispatcherOwed(s: State, e: DispatcherStep, d: DeploymentId)
    requires Consistent(s) && Owed(s, d) && DispatcherEnabled(s, e)
    ensures Owed(DispatcherNext(s, e), d) <==> !Discharges(s, Dispatcher(e), d)
  {
    match e
    case Scheduled(id, op, x, playbooks, gated) => NewJobOwed(s, id, ScheduledJob(s, op, x, playbooks), gated, d);
    case ReapCancelled(id) => ReapOwed(s, id, d);
    case ReapStale(id) => SettleOwed(s, id, s.jobs[id].(status := Failed), FailedD, false, d);
    case ReapStaleAndResume(id, newId) => ResumeOwed(s, id, newId, d);
    case ExpireApproval(id, hasResource) => ExpiryOwed(s, id, hasResource, d);
    case Resync(x) => ResyncOwed(s, x, d);
    case ForgetReleases(x) => RelabelOwed(s, x, s.deployments[x].(released := false), d);
    case Quarantine(id) => SettleOwed(s, id, s.jobs[id].(status := Failed), ReconciliationRequired, false, d);
  }

  /** The debt outlives a transaction exactly when the transaction does not discharge it. */
  lemma StepOwed(s: State, e: Step, d: DeploymentId)
    requires Consistent(s) && Owed(s, d) && Enabled(s, e)
    ensures Owed(Next(s, e), d) <==> !Discharges(s, e, d)
  {
    match e
    case Api(a) => ApiOwed(s, a, d);
    case Worker(w) => WorkerOwed(s, w, d);
    case Dispatcher(x) => DispatcherOwed(s, x, d);
  }

  /**
   Over any run the debt stays until one of those transactions. Among API and worker steps they
   are a successful plan and finalising the deployment as missing; cancelling is never a way out.
   */
  lemma {:induction false} DebtNeedsDischarge(states: seq<State>, steps: seq<Step>, i: nat, k: nat, d: DeploymentId)
    requires IsRun(states, steps) && i <= k < |states| && Owed(states[i], d)
    requires forall n :: i <= n < k ==> !Discharges(states[n], steps[n], d)
    ensures Owed(states[k], d)
    decreases k
  {
    if i < k {
      DebtNeedsDischarge(states, steps, i, k - 1, d);
      RunIsConsistent(states, steps, k - 1);
      assert RunStep(states, steps, k - 1);
      StepOwed(states[k - 1], steps[k - 1], d);
    }
  }

  // ----- Cancelling a plan -----

  ghost predicate RemembersStatus(s: State, t: State, id: JobId, d: DeploymentId) {
    id !in s.jobs && id in t.jobs && t.jobs[id].operation == TerraformPlan && t.jobs[id].deployment == Some(d) ==>
      d in s.deployments && t.jobs[id].previousStatus == Some(s.deployments[d].status)
  }

  lemma ApiPlanRemembers(s: State, e: ApiStep, id: JobId, d: DeploymentId)
    requires ApiEnabled(s, e)
    ensures RemembersStatus(s, ApiNext(s, e), id, d)
  {
  }

  lemma WorkerPlanRemembers(s: State, e: WorkerStep, id: JobId, d: DeploymentId)
    requires WorkerEnabled(s, e)
    ensures RemembersStatus(s, WorkerNext(s, e), id, d)
  {
  }

  lemma DispatcherPlanRemembers(s: State, e: DispatcherStep, id: JobId, d: DeploymentId)
    requires DispatcherEnabled(s, e)
    ensures RemembersStatus(s, DispatcherNext(s, e), id, d)
  {
  }

  /** A plan job is born with the status its deployment has at that moment. */
  lemma PlanRemembersStatus(s: State, e: Step, id: JobId, d: DeploymentId)
    requires Enabled(s, e)
    ensures RemembersStatus(s, Next(s, e), id, d)
  {
    match e
    case Api(a) => ApiPlanRemembers(s, a, id, d);
    case Worker(w) => WorkerPlanRemembers(s, w, id, d);
    case Dispatcher(x) => DispatcherPlanRemembers(s, x, id, d);
  }

  lemma CancelPutsBack(s: State, id: JobId)
    requires Owns(s, id) && s.jobs[id].status in {Queued, WaitingApproval}
    requires s.jobs[id].operation == TerraformPlan && s.jobs[id].previousStatus.Some?
    ensures var d := s.jobs[id].deployment.value;
            CancelJob(s, id).deployments[d] == s.deployments[d].(status := s.jobs[id].previousStatus.value, active := None)
  {
  }

  /** Cancelling a plan that has not run puts the deployment back where the plan found it, whatever happened in between. */
  lemma CancelRestores(states: seq<State>, steps: seq<Step>, i: nat, k: nat, id: JobId, d: DeploymentId)
    requires IsRun(states, steps) && i < k < |steps|
    requires id !in states[i].jobs && id in states[i + 1].jobs
    requires states[i + 1].jobs[id].operation == TerraformPlan && states[i + 1].jobs[id].deployment == Some(d)
    requires steps[k] == Api(Cancel(id)) && id in states[k].jobs && states[k].jobs[id].status in {Queued, WaitingApproval}
    ensures d in states[i].deployments && d in states[k + 1].deployments
    ensures states[k + 1].deployments[d].status == states[i].deployments[d].status
    ensures states[k + 1].deployments[d].active.None?
  {
    assert RunStep(states, steps, i);
    PlanRemembersStatus(states[i], steps[i], id, d);
    RunEvolves(states, steps, i + 1, k, id);
    RunIsConsistent(states, steps, k);
    assert RunStep(states, steps, k);
    CancelPutsBack(states[k], id);
  }
}
