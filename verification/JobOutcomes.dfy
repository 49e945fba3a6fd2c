/**
 What single transactions come to, in terms of the rows they leave: where a retry starts, what an
 accepted onboarding adds, and the status a deployment is left in.
 */
module JobOutcomes {
  import opened Wrappers
  import opened PlaybookCatalog
  import opened JobStore

  lemma EndedIsNotLive(status: JobStatus)
    ensures Live(status) <==> status !in {Successful, Failed, Cancelled}
    ensures Live(status) <==> status in {Queued, WaitingApproval} || status in {Running, Cancelling}
  {
  }

  // ----- The next attempt -----

  /** The job changes the provider and has already begun to. */
  predicate AlreadyApplied(job: Job) {
    || (job.operation == TerraformApply && job.runtime.providerApplied)
    || (job.operation == ProxmoxProvision && (job.runtime.providerApplied || job.proxmoxStarted))
  }

  /** Everything about the attempt that follows `old` but its checkpoints. */
  ghost predicate NextAttempt(s: State, id: JobId, job: Job, gated: bool)
    requires id in s.jobs
  {
    var was := s.jobs[id];
    && job.operation == was.operation
    && job.deployment == was.deployment
    && job.blueprint == was.blueprint
    && job.playbooks == was.playbooks
    && job.retryOf == Some(id)
    && job.attempt == was.attempt + 1
    && job.status == (if gated then WaitingApproval else Queued)
    && !job.cancelRequested
    && job.stoppedAt == None
    && job.previousStatus ==
         (if was.deployment.Some? && was.deployment.value in s.deployments then Some(s.deployments[was.deployment.value].status) else None)
  }

  /** The next attempt starts from the beginning, or where the provider was changed already, with all its checkpoints. */
  predicate StartsOver(before: Job, job: Job) {
    && (!AlreadyApplied(before) ==>
          && job.runtime == Runtime(false, false, {})
          && !job.resumesAfterApply
          && (job.operation == ProxmoxProvision ==> !job.proxmoxStarted))
    && (AlreadyApplied(before) ==>
          && job.runtime == before.runtime
          && job.proxmoxStarted == before.proxmoxStarted
          && job.resumesAfterApply)
  }

  /** An accepted retry of a job that had not changed the provider starts from the beginning; any other keeps its checkpoints. */
  lemma RetryStartsOver(s: State, id: JobId, newId: JobId, gated: bool)
    requires ApiEnabled(s, Retry(id, newId, gated)) && newId !in s.jobs && newId in ApiNext(s, Retry(id, newId, gated)).jobs
    ensures var before, job := s.jobs[id], ApiNext(s, Retry(id, newId, gated)).jobs[newId];
            NextAttempt(s, id, job, gated) && StartsOver(before, job)
  {
  }

  /** The deployment may be given a job of this kind. */
  predicate Open(s: State, op: Operation, d: DeploymentId) {
    && d in s.deployments
    && s.deployments[d].active == None
    && s.deployments[d].status != Destroyed
    && (s.deployments[d].status == ReconciliationRequired ==> op == TerraformPlan)
    && (s.deployments[d].released ==> op !in {TerraformApply, ProxmoxProvision})
    && (s.deployments[d].planOnly ==> op != TerraformApply)
  }

  lemma OpenIsAdmissible(s: State, op: Operation, d: DeploymentId)
    ensures Admissible(s, op, Some(d)) <==> Open(s, op, d)
  {
  }

  lemma CreatedExactly(s: State, newId: JobId, payload: Job)
    requires newId !in s.jobs && WellFiled(payload.snapshots)
    ensures CanCreate(s, newId, payload) <==>
              && (payload.deployment.Some? ==> Open(s, payload.operation, payload.deployment.value))
              && forall i :: 0 <= i < |payload.playbooks| ==> !Barred(s.catalog, payload.snapshots, payload.playbooks[i])
  {
    RefusedExactly(s.catalog, payload.snapshots, payload.playbooks);
    if payload.deployment.Some? {
      OpenIsAdmissible(s, payload.operation, payload.deployment.value);
    }
  }

  /** A retry is created exactly when the deployment is open for it and no playbook of it is barred. */
  lemma RetryIsCreated(s: State, id: JobId, newId: JobId, gated: bool)
    requires ApiEnabled(s, Retry(id, newId, gated)) && newId !in s.jobs && WellFiled(s.jobs[id].snapshots)
    ensures newId in ApiNext(s, Retry(id, newId, gated)).jobs <==>
              && (s.jobs[id].deployment.Some? ==> Open(s, s.jobs[id].operation, s.jobs[id].deployment.value))
              && forall i :: 0 <= i < |s.jobs[id].playbooks| ==> !Barred(s.catalog, s.jobs[id].snapshots, s.jobs[id].playbooks[i])
  {
    CreatedExactly(s.(plans := PlansAfterRetry(s, id)), newId, RetryPayload(id, s.jobs[id]));
  }

  /** An onboarding is accepted only for a failed apply or provision whose VM stands and whose deployment nobody holds. */
  lemma AcceptedOnlyAfterProvisioning(s: State, id: JobId, newId: JobId, vmActive: bool, gated: bool)
    requires ApiEnabled(s, AcceptAwx(id, newId, vmActive, gated))
    ensures var job := s.jobs[id];
            && job.status == Failed && job.operation in {TerraformApply, ProxmoxProvision}
            && job.runtime.providerApplied && job.runtime.inventorySynced && vmActive
            && job.deployment.Some? && job.deployment.value in s.deployments
            && s.deployments[job.deployment.value].active == None
            && s.deployments[job.deployment.value].status != Destroyed
            && s.deployments[job.deployment.value].status != ReconciliationRequired
            && !s.deployments[job.deployment.value].released
  {
  }

  /** Accepting the onboarding adds the step the job stopped at to the completed ones and nothing else. */
  lemma AcceptedStepIsCompleted(s: State, id: JobId, newId: JobId, vmActive: bool, gated: bool)
    requires ApiEnabled(s, AcceptAwx(id, newId, vmActive, gated))
    ensures s.jobs[id].stoppedAt.Some? && newId in ApiNext(s, AcceptAwx(id, newId, vmActive, gated)).jobs
    ensures var before, job := s.jobs[id], ApiNext(s, AcceptAwx(id, newId, vmActive, gated)).jobs[newId];
            && NextAttempt(s, id, job, gated)
            && (forall x :: x in job.runtime.completed <==> x in before.runtime.completed || x == before.stoppedAt.value)
            && job.runtime.providerApplied && job.runtime.inventorySynced
            && job.proxmoxStarted == before.proxmoxStarted
            && job.resumesAfterApply == before.resumesAfterApply
  {
  }

  /** The job queued for a stale one carries on where it stopped; the one queued to recover destroys what was built. */
  lemma FollowUpJobs(s: State, id: JobId, newId: JobId, submitted: bool)
    requires id in s.jobs && Owns(s, id) && newId !in s.jobs
    ensures var before, job := s.jobs[id], Resumed(s, id, newId).jobs[newId];
            job.operation == before.operation && job.runtime == before.runtime && job.proxmoxStarted == before.proxmoxStarted
            && job.status == Queued && job.retryOf == Some(id) && job.deployment == before.deployment
    ensures var before, job := s.jobs[id], Recovered(s, id, submitted, newId).jobs[newId];
            job.operation == (if before.operation == ProxmoxProvision then ProxmoxDestroy else TerraformDestroy)
            && job.status == Queued && job.retryOf == None && job.deployment == before.deployment
  {
  }

  // ----- Which jobs can be born -----

  ghost predicate Born(s: State, t: State, j: JobId) {
    j in t.jobs && j !in s.jobs
  }

  /** Once its addresses are released a deployment is not provisioned again, but for resuming a job that is still its own. */
  lemma ReleasedIsNotProvisioned(s: State, e: Step, j: JobId, d: DeploymentId)
    requires Enabled(s, e) && Born(s, Next(s, e), j) && d in s.deployments && s.deployments[d].released
    requires Next(s, e).jobs[j].deployment == Some(d) && Next(s, e).jobs[j].operation in {TerraformApply, ProxmoxProvision}
    ensures e.Dispatcher? && e.dispatcher.ReapStaleAndResume?
  {
    match e
    case Api(a) => ApiProvisions(s, a, j, d);
    case Worker(w) =>
    case Dispatcher(x) =>
  }

  lemma ApiProvisions(s: State, a: ApiStep, j: JobId, d: DeploymentId)
    requires ApiEnabled(s, a) && Born(s, ApiNext(s, a), j) && d in s.deployments && s.deployments[d].released
    requires ApiNext(s, a).jobs[j].deployment == Some(d)
    ensures ApiNext(s, a).jobs[j].operation !in {TerraformApply, ProxmoxProvision}
  {
  }

  /** While a delete of the blueprint is unfinished, or once it is removed, the blueprint is not executed. */
  lemma NoExecutionWhileDeleting(s: State, id: JobId, d: DeploymentId, b: BlueprintId, direct: bool, allocates: bool,
                                 playbooks: seq<PlaybookId>, gated: bool, x: JobId)
    requires ApiEnabled(s, Execute(id, d, b, direct, allocates, playbooks, gated))
    ensures b in s.blueprints
    ensures x in s.jobs && s.jobs[x].operation == BlueprintDelete && s.jobs[x].blueprint == Some(b) ==>
              s.jobs[x].status in {Successful, Failed, Cancelled}
  {
    if x in s.jobs && s.jobs[x].operation == BlueprintDelete && s.jobs[x].blueprint == Some(b) {
      EndedIsNotLive(s.jobs[x].status);
      assert !IsPendingDelete(s, x, b);
    }
  }

  // ----- The status a deployment is left in -----

  /** The row after a job that it was held by has ended: nobody holds it, and addresses go with the deployment. */
  ghost predicate Freed(before: Deployment, after: Deployment, status: DeploymentStatus, release: bool) {
    && after.status == status
    && after.active == None
    && after.blueprint == before.blueprint
    && after.planOnly == before.planOnly
    && after.hasAllocations == (before.hasAllocations && !release)
    && after.released == (before.released || (before.hasAllocations && release))
  }

  /** The end of a job of any kind but a plan. */
  lemma FinishOutcome(s: State, id: JobId, outcome: JobStatus, rollbackDestroyed: bool, submitted: bool)
    requires id in s.jobs && Owns(s, id) && outcome in {Successful, Failed, Cancelled} && s.jobs[id].operation != TerraformPlan
    ensures var job, d := s.jobs[id], s.jobs[id].deployment.value;
            var after := FinishJob(s, id, outcome, rollbackDestroyed, submitted).deployments[d];
            var imported := job.operation == TerraformImport && outcome == Successful;
            var destroyed := !imported && (rollbackDestroyed || (outcome == Successful && job.operation in {TerraformDestroy, ProxmoxDestroy}));
            var unknown := outcome != Successful && submitted && !rollbackDestroyed && !job.runtime.providerApplied
                           && job.operation in {TerraformApply, TerraformDestroy, TerraformImport};
            && Freed(s.deployments[d], after, after.status, destroyed)
            && (after.status == Imported <==> imported)
            && (after.status == Destroyed <==> destroyed)
            && (after.status == ReconciliationRequired <==> unknown)
            && (after.status == SuccessfulD <==> outcome == Successful && !imported && !destroyed)
            && (after.status == FailedD <==> outcome == Failed && !destroyed && !unknown)
            && (after.status == CancelledD <==> outcome == Cancelled && !destroyed && !unknown)
  {
  }

  /** A plan changes nothing, so its deployment goes back; a successful one settles an unknown state. */
  lemma PlanOutcome(s: State, id: JobId, outcome: JobStatus, submitted: bool)
    requires id in s.jobs && Owns(s, id) && outcome in {Successful, Failed, Cancelled}
    requires s.jobs[id].operation == TerraformPlan && s.jobs[id].previousStatus.Some? && s.jobs[id].previousStatus.value != Destroyed
    ensures var d, previous := s.jobs[id].deployment.value, s.jobs[id].previousStatus.value;
            Freed(s.deployments[d], FinishJob(s, id, outcome, false, submitted).deployments[d],
                  if previous == ReconciliationRequired && outcome == Successful then SuccessfulD else previous, false)
  {
  }

  /** Cancelling before the work began ends the job at once, and afterwards asks it to stop. */
  lemma CancelOutcome(s: State, id: JobId)
    requires id in s.jobs && Owns(s, id) && s.jobs[id].status in {WaitingApproval, Queued, Running}
    ensures var job, d, t := s.jobs[id], s.jobs[id].deployment.value, CancelJob(s, id);
            && t.jobs == s.jobs[id := job.(status := if job.status == Running then Cancelling else Cancelled, cancelRequested := true)]
            && (job.status == Running ==>
                  t.deployments[d] == s.deployments[d].(status := CancellingD) && t.plans == s.plans)
            && (job.status != Running && job.operation != TerraformPlan ==> Freed(s.deployments[d], t.deployments[d], CancelledD, true))
            && (job.status != Running && job.operation == TerraformPlan && job.previousStatus.Some? ==>
                  Freed(s.deployments[d], t.deployments[d], job.previousStatus.value, false))
            && (job.status == WaitingApproval ==> t.plans == s.plans - {d})
            && (job.status == Queued ==> t.plans == s.plans)
  {
  }

  /**
   An approval that expires drops the plan. Where the provider was changed the job fails; where there is a
   resource the deployment goes back to the settled status it had; and otherwise everything is given up.
   */
  lemma ExpiryOutcome(s: State, id: JobId, hasResource: bool)
    requires id in s.jobs && Owns(s, id)
    ensures var job, d, t := s.jobs[id], s.jobs[id].deployment.value, Expire(s, id, hasResource);
            var settled := job.previousStatus.Some? && job.previousStatus.value !in {QueuedD, RunningD, WaitingApprovalD, CancellingD};
            && t.plans == s.plans - {d}
            && (if hasResource && job.runtime.providerApplied then
                  t.jobs[id].status == Failed && Freed(s.deployments[d], t.deployments[d], FailedD, false)
                else if hasResource && settled then
                  t.jobs[id].status == Cancelled
                  && Freed(s.deployments[d], t.deployments[d], job.previousStatus.value, job.previousStatus.value == CancelledD)
                else t.jobs[id].status == Cancelled && Freed(s.deployments[d], t.deployments[d], CancelledD, true))
  {
  }

  /** A job whose worker is gone: what Terraform may have been doing is unknown after a cancel, failed after a crash. */
  lemma ReapOutcome(s: State, id: JobId)
    requires Owns(s, id) && Working(s, id)
    ensures var d := s.jobs[id].deployment.value;
            && (s.jobs[id].cancelRequested ==>
                  var t := DispatcherNext(s, ReapCancelled(id));
                  && t.jobs[id].status == Cancelled
                  && Freed(s.deployments[d], t.deployments[d],
                           if s.jobs[id].operation in {TerraformApply, TerraformDestroy, TerraformImport} then ReconciliationRequired else CancelledD,
                           false))
            && (s.jobs[id].status == Running && !s.jobs[id].cancelRequested ==>
                  var t := DispatcherNext(s, ReapStale(id));
                  t.jobs[id].status == Failed && Freed(s.deployments[d], t.deployments[d], FailedD, false))
            && (var t := DispatcherNext(s, Quarantine(id));
                t.jobs[id].status == Failed && Freed(s.deployments[d], t.deployments[d], ReconciliationRequired, false))
  {
  }

  /** The deployment shows what the job that holds it is doing. */
  lemma HolderIsShown(s: State, id: JobId)
    requires Owns(s, id)
    ensures var row := s.deployments[s.jobs[id].deployment.value];
            var d := s.jobs[id].deployment.value;
            && (WorkerEnabled(s, Claim(id)) ==>
                  WorkerNext(s, Claim(id)).jobs[id].status == Running && WorkerNext(s, Claim(id)).deployments[d] == row.(status := RunningD))
            && (WorkerEnabled(s, DeferForProvider(id)) ==>
                  WorkerNext(s, DeferForProvider(id)).jobs[id].status == Queued
                  && WorkerNext(s, DeferForProvider(id)).deployments[d] == row.(status := WaitingProvider))
            && (WorkerEnabled(s, AwaitApproval(id)) ==>
                  WorkerNext(s, AwaitApproval(id)).jobs[id].status == WaitingApproval
                  && WorkerNext(s, AwaitApproval(id)).deployments[d] == row.(status := WaitingApprovalD))
            && (ApiEnabled(s, Approve(id, true)) ==>
                  ApiNext(s, Approve(id, true)).jobs[id].status == Queued
                  && ApiNext(s, Approve(id, true)).deployments[d] == row.(status := QueuedD))
  {
  }

  // ----- Removed blueprints -----

  /** A delete removes the blueprint exactly when no unfinished apply or provision names it. */
  lemma RemovalOutcome(s: State, b: BlueprintId, id: JobId)
    requires ApiEnabled(s, DeleteBlueprint(b, id))
    ensures b !in ApiNext(s, DeleteBlueprint(b, id)).blueprints <==>
              forall j :: j in s.jobs && s.jobs[j].operation in {TerraformApply, ProxmoxProvision, BlueprintDelete} && s.jobs[j].blueprint == Some(b)
                ==> s.jobs[j].status in {Successful, Failed, Cancelled}
    ensures forall x :: x != b ==> (x in ApiNext(s, DeleteBlueprint(b, id)).blueprints <==> x in s.blueprints)
  {
    if j :| j in s.jobs && s.jobs[j].operation in {TerraformApply, ProxmoxProvision, BlueprintDelete}
            && s.jobs[j].blueprint == Some(b) && s.jobs[j].status !in {Successful, Failed, Cancelled} {
      EndedIsNotLive(s.jobs[j].status);
      assert j in Blocking(s, b) || IsPendingDelete(s, j, b);
    } else {
      assert Blocking(s, b) == {};
    }
  }
}
