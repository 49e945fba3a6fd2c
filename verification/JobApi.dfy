/**
 The job endpoints as they run: rows and payloads are updated in place, one field after another.
 Each is proved to be the transaction of the job store it stands for.
 */
module JobApi {
  import opened Wrappers
  import opened PlaybookCatalog
  import opened JobStore
  import opened JobOutcomes

  datatype Outcome = Missing | Conflict | Done

  class Database {
    var jobs: map<JobId, Job>
    var deployments: map<DeploymentId, Deployment>
    var plans: set<DeploymentId>
    var blueprints: set<BlueprintId>
    var catalog: Catalog

    function Contents(): State
      reads this
    {
      State(jobs, deployments, plans, blueprints, catalog)
    }

    method SetDeployment(d: DeploymentId, status: DeploymentStatus, active: Option<JobId>)
      requires d in deployments
      modifies `deployments
      ensures deployments == old(deployments)[d := old(deployments)[d].(status := status, active := active)]
    {
      deployments := deployments[d := deployments[d].(status := status, active := active)];
    }

    /** The refusals of `new_job`, in the source's order. */
    method Admit(op: Operation, d: Option<DeploymentId>) returns (r: Outcome)
      ensures r == Done <==> Admissible(Contents(), op, d)
    {
      if d.Some? {
        if d.value !in deployments {
          return Missing;
        }
        var row := deployments[d.value];
        if row.status == ReconciliationRequired && op != TerraformPlan {
          return Conflict;
        }
        if row.active.Some? || row.status == Destroyed {
          return Conflict;
        }
        if Provisioning(op) && row.released {
          return Conflict;
        }
        if op == TerraformApply && row.planOnly {
          return Conflict;
        }
      }
      return Done;
    }

    /** The job is inserted as queued and made active; a gated job is then put on hold. */
    method Insert(id: JobId, job: Job, gated: bool)
      requires job.deployment.Some? ==> job.deployment.value in deployments
      modifies `jobs, `deployments
      ensures Contents() == Launch(old(Contents()), id, job.(status := if gated then WaitingApproval else Queued),
                                   if gated then WaitingApprovalD else QueuedD)
    {
      jobs := jobs[id := job.(status := Queued)];
      if job.deployment.Some? {
        SetDeployment(job.deployment.value, QueuedD, Some(id));
      }
      if gated {
        jobs := jobs[id := job.(status := WaitingApproval)];
        if job.deployment.Some? {
          SetDeployment(job.deployment.value, WaitingApprovalD, Some(id));
        }
      }
    }

    /** A refused job leaves every row as it was. */
    method NewJob(id: JobId, base: Job, gated: bool) returns (r: Outcome)
      requires id !in jobs
      modifies this
      ensures r == Done <==> CanCreate(old(Contents()), id, base)
      ensures Contents() == if r == Done then JobStore.NewJob(old(Contents()), id, base, gated) else old(Contents())
    {
      r := Admit(base.operation, base.deployment);
      if r != Done {
        return;
      }
      var snapshots := SnapshotPayload(catalog, base.snapshots, base.playbooks);
      if snapshots.None? {
        return Conflict;
      }
      var previous := None;
      if base.deployment.Some? {
        previous := Some(deployments[base.deployment.value].status);
      }
      var job := base.(cancelRequested := false, previousStatus := previous, stoppedAt := None, snapshots := snapshots.value);
      Insert(id, job, gated);
    }

    /** `valid` says that the request has neither expired nor lost its plan; `complete` that no further stage is left. */
    method ApproveJob(id: JobId, valid: bool, complete: bool) returns (r: Outcome)
      modifies this
      ensures r == Done <==> valid && ApiEnabled(old(Contents()), Approve(id, complete))
      ensures Contents() == if r == Done then ApiNext(old(Contents()), Approve(id, complete)) else old(Contents())
    {
      if id !in jobs {
        return Missing;
      }
      if jobs[id].status != WaitingApproval {
        return Conflict;
      }
      if !valid {
        return Conflict;
      }
      if complete {
        var d := jobs[id].deployment;
        jobs := jobs[id := jobs[id].(status := Queued)];
        if d.Some? && d.value in deployments && deployments[d.value].active == Some(id) {
          SetDeployment(d.value, QueuedD, Some(id));
        }
      }
      return Done;
    }

    method CancelJob(id: JobId) returns (r: Outcome)
      modifies this
      ensures r == Done <==> id in old(jobs) && Live(old(jobs)[id].status)
      ensures Contents() == if r == Done then JobStore.CancelJob(old(Contents()), id) else old(Contents())
    {
      if id !in jobs {
        return Missing;
      }
      EndedIsNotLive(jobs[id].status);
      if jobs[id].status in {Successful, Failed, Cancelled} {
        return Conflict;
      }
      if jobs[id].cancelRequested && jobs[id].status == Cancelling {
        return Done;
      }
      if jobs[id].status in {Queued, WaitingApproval} {
        CancelBeforeStart(id);
      } else {
        RequestStop(id);
      }
      return Done;
    }

    predicate Owned(id: JobId)
      requires id in jobs
      reads this
    {
      var d := jobs[id].deployment;
      d.Some? && d.value in deployments && deployments[d.value].active == Some(id)
    }

    method CancelBeforeStart(id: JobId)
      requires id in jobs && jobs[id].status in {Queued, WaitingApproval}
      modifies `jobs, `deployments, `plans
      ensures Contents() == JobStore.CancelJob(old(Contents()), id)
    {
      var job := jobs[id];
      var owned := Owned(id);
      jobs := jobs[id := job.(status := Cancelled, cancelRequested := true)];
      if owned {
        CancelDeployment(id, job, job.deployment.value);
      }
    }

    method RequestStop(id: JobId)
      requires id in jobs && jobs[id].status in {Running, Cancelling}
      requires !(jobs[id].cancelRequested && jobs[id].status == Cancelling)
      modifies `jobs, `deployments
      ensures Contents() == JobStore.CancelJob(old(Contents()), id)
    {
      var job := jobs[id];
      var owned := Owned(id);
      jobs := jobs[id := job.(status := Cancelling, cancelRequested := true)];
      if owned {
        SetDeployment(job.deployment.value, CancellingD, Some(id));
      }
    }

    /** The deployment of a job cancelled before it ran: freed, put back, plan and allocations dropped. */
    method CancelDeployment(id: JobId, job: Job, d: DeploymentId)
      requires d in deployments
      modifies `deployments, `plans
      ensures deployments == old(deployments)[d := old(deployments)[d].(
                active := None,
                status := if job.operation == TerraformPlan then job.previousStatus.GetOr(old(deployments)[d].status) else CancelledD,
                hasAllocations := old(deployments)[d].hasAllocations && job.operation == TerraformPlan,
                released := old(deployments)[d].released || (job.operation != TerraformPlan && old(deployments)[d].hasAllocations))]
      ensures plans == if job.status == WaitingApproval then old(plans) - {d} else old(plans)
    {
      var row := deployments[d];
      row := row.(active := None);
      if job.operation == TerraformPlan {
        row := row.(status := job.previousStatus.GetOr(row.status));
      } else {
        row := row.(status := CancelledD);
      }
      if job.status == WaitingApproval {
        plans := plans - {d};
      }
      if job.operation != TerraformPlan && row.hasAllocations {
        row := row.(hasAllocations := false, released := true);
      }
      deployments := deployments[d := row];
    }

    /** Whether the provider was already changed decides what the retry keeps. */
    method RetriedPayload(id: JobId, job: Job) returns (payload: Job, resumable: bool)
      ensures payload == RetryPayload(id, job) && resumable == SafeResume(job)
    {
      payload := job.(retryOf := Some(id), attempt := job.attempt + 1);
      resumable := job.operation in {TerraformApply, ProxmoxProvision}
                   && (job.runtime.providerApplied || (job.operation == ProxmoxProvision && job.proxmoxStarted));
      if resumable {
        payload := payload.(resumesAfterApply := true);
      } else {
        payload := payload.(resumesAfterApply := false, runtime := NO_RUNTIME);
        if job.operation == ProxmoxProvision {
          payload := payload.(proxmoxStarted := false);
        }
      }
    }

    method RetryJob(id: JobId, newId: JobId, gated: bool) returns (r: Outcome)
      requires newId !in jobs
      modifies this
      ensures id !in old(jobs) || old(jobs)[id].status !in {Failed, Cancelled} ==> r != Done && Contents() == old(Contents())
      ensures id in old(jobs) && old(jobs)[id].status in {Failed, Cancelled} ==>
                Contents() == JobStore.RetryJob(old(Contents()), id, newId, gated)
      ensures r == Done <==> newId in jobs
      ensures r == Done ==> NextAttempt(old(Contents()), id, jobs[newId], gated) && StartsOver(old(jobs)[id], jobs[newId])
    {
      if id !in jobs {
        return Missing;
      }
      var job := jobs[id];
      if job.status !in {Failed, Cancelled} {
        return Conflict;
      }
      var payload, resumable := RetriedPayload(id, job);
      if job.deployment.Some? {
        if job.deployment.value !in deployments {
          return Missing;
        }
        if !resumable {
          plans := plans - {job.deployment.value};
        }
      }
      r := NewJob(newId, payload, gated);
      if r == Done {
        RetryStartsOver(old(Contents()), id, newId, gated);
      }
    }

    /** `stepKnown` says that the blueprint snapshot still has the step the job stopped at. */
    method AcceptAwx(id: JobId, newId: JobId, stepKnown: bool, vmActive: bool, gated: bool) returns (r: Outcome)
      requires newId !in jobs
      modifies this
      ensures r == Done <==> stepKnown && ApiEnabled(old(Contents()), JobStore.AcceptAwx(id, newId, vmActive, gated))
      ensures Contents() == if r == Done then ApiNext(old(Contents()), JobStore.AcceptAwx(id, newId, vmActive, gated)) else old(Contents())
    {
      if id !in jobs {
        return Missing;
      }
      var job := jobs[id];
      if job.status != Failed {
        return Conflict;
      }
      if !Provisioning(job.operation) || job.deployment.None? {
        return Conflict;
      }
      if job.deployment.value !in deployments {
        return Missing;
      }
      var row := deployments[job.deployment.value];
      if row.active.Some? || row.status in {Destroyed, ReconciliationRequired} {
        return Conflict;
      }
      if job.stoppedAt.None? || !stepKnown {
        return Conflict;
      }
      if !job.runtime.providerApplied || !job.runtime.inventorySynced || !vmActive {
        return Conflict;
      }
      var runtime := job.runtime.(completed := job.runtime.completed + {job.stoppedAt.value});
      r := NewJob(newId, job.(retryOf := Some(id), attempt := job.attempt + 1, runtime := runtime), gated);
    }
  }
}
