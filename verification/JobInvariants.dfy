/**
 What every transaction of the job store keeps: one live job per deployment, and destroyed
 deployments stay destroyed.
 */
module JobInvariants {
  import opened Wrappers
  import opened PlaybookCatalog
  import opened JobStore
  import opened JobHistory

  /** A deployment has at most one unfinished job, it is exactly its active job, and none once destroyed or to be reconciled. */
  ghost predicate OneLive(s: State) {
    && (forall j :: j in s.jobs && Live(s.jobs[j].status) && s.jobs[j].deployment.Some? ==> Owns(s, j))
    && (forall d :: d in s.deployments && s.deployments[d].active.Some? ==> ActiveIsLive(s, d))
    && (forall d :: d in s.deployments && Settled(s.deployments[d].status) ==> s.deployments[d].active.None?)
  }

  predicate Settled(status: DeploymentStatus) {
    status in {Destroyed, ReconciliationRequired}
  }

  ghost predicate ActiveIsLive(s: State, d: DeploymentId)
    requires d in s.deployments && s.deployments[d].active.Some?
  {
    var j := s.deployments[d].active.value;
    j in s.jobs && s.jobs[j].deployment == Some(d) && Live(s.jobs[j].status)
  }

  lemma SettleKeepsOneLive(s: State, id: JobId, job: Job, status: DeploymentStatus, release: bool)
    requires OneLive(s) && id in s.jobs && Live(s.jobs[id].status)
    requires job.deployment == s.jobs[id].deployment && (Live(job.status) ==> !Settled(status))
    ensures OneLive(Settle(s, id, job, status, release))
  {
    var t := Settle(s, id, job, status, release);
    forall j | j in t.jobs && Live(t.jobs[j].status) && t.jobs[j].deployment.Some? ensures Owns(t, j) {
      assert Owns(s, j);
    }
    forall d | d in t.deployments && t.deployments[d].active.Some? ensures ActiveIsLive(t, d) {
      assert s.deployments[d].active == t.deployments[d].active;
      assert ActiveIsLive(s, d);
    }
  }

  lemma LaunchKeepsOneLive(s: State, id: JobId, job: Job, status: DeploymentStatus)
    requires OneLive(s) && id !in s.jobs && Live(job.status) && !Settled(status)
    requires job.deployment.Some? ==> job.deployment.value in s.deployments && s.deployments[job.deployment.value].active.None?
    ensures OneLive(Launch(s, id, job, status))
  {
  }

  /** A live job of an owned deployment that is deferred or paused is settled like any other. */
  lemma UnconditionalIsSettle(s: State, id: JobId)
    requires OneLive(s) && id in s.jobs && Live(s.jobs[id].status) && s.jobs[id].deployment.Some?
    ensures Deferred(s, id) == Settle(s, id, s.jobs[id].(status := Queued), WaitingProvider, false)
    ensures AwaitingApproval(s, id) == Settle(s, id, s.jobs[id].(status := WaitingApproval), WaitingApprovalD, false)
  {
  }

  lemma PlainUpdateKeepsOneLive(s: State, t: State)
    requires OneLive(s) && t.deployments == s.deployments
    requires forall j :: j in s.jobs ==> j in t.jobs && t.jobs[j].deployment == s.jobs[j].deployment
    requires forall j :: j in t.jobs && t.jobs[j].deployment.Some? ==> j in s.jobs && Live(t.jobs[j].status) == Live(s.jobs[j].status)
    ensures OneLive(t)
  {
  }

  lemma NewJobKeepsOneLive(s: State, id: JobId, base: Job, gated: bool)
    requires OneLive(s) && CanEnqueue(s, id, base)
    requires base.deployment.Some? ==> s.deployments[base.deployment.value].active.None?
    ensures OneLive(NewJob(s, id, base, gated))
  {
    LaunchKeepsOneLive(s, id, Prepared(s, base, gated), if gated then WaitingApprovalD else QueuedD);
  }

  ghost predicate Consistent(s: State) {
    OneLive(s) && Linked(s)
  }

  lemma OpenKeepsOneLive(s: State, id: JobId, d: DeploymentId, row: Deployment, base: Job, gated: bool)
    requires OneLive(s) && CanOpen(s, id, d, row, base)
    ensures OneLive(Opened(s, id, d, row, base, gated))
  {
    var t := WithDeployment(s, d, row);
    forall j | j in t.jobs && Live(t.jobs[j].status) && t.jobs[j].deployment.Some? ensures Owns(t, j) {
      assert Owns(s, j);
    }
    forall x | x in t.deployments && t.deployments[x].active.Some? ensures ActiveIsLive(t, x) {
      assert ActiveIsLive(s, x);
    }
    NewJobKeepsOneLive(t, id, base, gated);
  }

  lemma CancelKeepsOneLive(s: State, id: JobId)
    requires OneLive(s) && id in s.jobs && Live(s.jobs[id].status)
    ensures OneLive(CancelJob(s, id))
  {
    var job := s.jobs[id];
    if job.status in {Queued, WaitingApproval} {
      var t := Settle(s, id, job.(status := Cancelled, cancelRequested := true), StatusAfterCancel(s, id), job.operation != TerraformPlan);
      SettleKeepsOneLive(s, id, job.(status := Cancelled, cancelRequested := true), StatusAfterCancel(s, id), job.operation != TerraformPlan);
      PlainUpdateKeepsOneLive(t, CancelJob(s, id));
    } else {
      SettleKeepsOneLive(s, id, job.(status := Cancelling, cancelRequested := true), CancellingD, false);
    }
  }

  lemma RetryKeepsOneLive(s: State, id: JobId, newId: JobId, gated: bool)
    requires OneLive(s) && id in s.jobs
    ensures OneLive(RetryJob(s, id, newId, gated))
  {
    var t := s.(plans := PlansAfterRetry(s, id));
    PlainUpdateKeepsOneLive(s, t);
    if CanCreate(t, newId, RetryPayload(id, s.jobs[id])) {
      NewJobKeepsOneLive(t, newId, RetryPayload(id, s.jobs[id]), gated);
    }
  }

  lemma PauseKeepsOneLive(s: State, id: JobId)
    requires OneLive(s) && Working(s, id) && s.jobs[id].deployment.Some?
    ensures OneLive(AwaitingApproval(s, id))
  {
    UnconditionalIsSettle(s, id);
    SettleKeepsOneLive(s, id, s.jobs[id].(status := WaitingApproval), WaitingApprovalD, false);
  }

  /** A job that has ended owns no deployment, so a late final status write touches the job row only. */
  lemma EndedOwnsNothing(s: State, id: JobId)
    requires OneLive(s) && id in s.jobs && !Live(s.jobs[id].status)
    ensures !Owns(s, id)
  {
  }

  lemma FinishKeepsOneLive(s: State, id: JobId, outcome: JobStatus, rollbackDestroyed: bool, submitted: bool)
    requires OneLive(s) && id in s.jobs && outcome in {Successful, Failed, Cancelled}
    ensures OneLive(FinishJob(s, id, outcome, rollbackDestroyed, submitted))
  {
    var status := StatusAfterFinish(s, id, outcome, rollbackDestroyed, submitted);
    if Live(s.jobs[id].status) {
      SettleKeepsOneLive(s, id, s.jobs[id].(status := outcome), status, status == Destroyed);
    } else {
      EndedOwnsNothing(s, id);
      RowUpdateKeepsOneLive(s, FinishJob(s, id, outcome, rollbackDestroyed, submitted), id, s.jobs[id].(status := outcome));
    }
  }

  lemma RecoverKeepsOneLive(s: State, id: JobId, submitted: bool, recovery: JobId)
    requires OneLive(s) && Working(s, id) && Owns(s, id) && recovery !in s.jobs
    ensures OneLive(Recovered(s, id, submitted, recovery))
  {
    FinishKeepsOneLive(s, id, Failed, false, submitted);
    LaunchKeepsOneLive(FinishJob(s, id, Failed, false, submitted), recovery, RecoveryJob(s.jobs[id]), RecoveryQueued);
  }

  lemma ResumeKeepsOneLive(s: State, id: JobId, newId: JobId)
    requires OneLive(s) && Owns(s, id) && Live(s.jobs[id].status) && newId !in s.jobs
    ensures OneLive(Resumed(s, id, newId))
  {
    var t := Settle(s, id, s.jobs[id].(status := Failed), FailedD, false);
    SettleKeepsOneLive(s, id, s.jobs[id].(status := Failed), FailedD, false);
    LaunchKeepsOneLive(t, newId, ResumedJob(id, s.jobs[id]), RecoveryQueued);
  }

  lemma ExpiryKeepsOneLive(s: State, id: JobId, hasResource: bool)
    requires OneLive(s) && id in s.jobs && s.jobs[id].status == WaitingApproval
    ensures OneLive(Expire(s, id, hasResource))
  {
    var job := s.jobs[id];
    var t := Unplanned(s, job.deployment);
    PlainUpdateKeepsOneLive(s, t);
    if hasResource && job.runtime.providerApplied {
      SettleKeepsOneLive(t, id, job.(status := Failed), FailedD, false);
    } else {
      var status := StatusAfterExpiry(job, hasResource);
      SettleKeepsOneLive(t, id, job.(status := Cancelled), status, status == CancelledD);
    }
  }

  /** A row whose active job stays and that is not settled anew while a job is active. */
  lemma RelabelKeepsOneLive(s: State, d: DeploymentId, row: Deployment)
    requires OneLive(s) && d in s.deployments && row.active == s.deployments[d].active
    requires row.active.Some? ==> !Settled(row.status)
    ensures OneLive(s.(deployments := s.deployments[d := row]))
  {
  }

  lemma WaitClearedKeepsOneLive(s: State, d: DeploymentId)
    requires OneLive(s) && d in s.deployments
    ensures OneLive(WaitCleared(s, d))
  {
    if s.deployments[d].status == WaitingProvider {
      RelabelKeepsOneLive(s, d, s.deployments[d].(status := RunningD));
    }
  }

  /** In a consistent state the resync only relabels a deployment whose job is alive. */
  lemma ResyncKeepsOneLive(s: State, d: DeploymentId)
    requires OneLive(s) && d in s.deployments && s.deployments[d].active.Some?
    ensures Resynced(s, d).active == s.deployments[d].active && !Settled(Resynced(s, d).status)
    ensures OneLive(s.(deployments := s.deployments[d := Resynced(s, d)]))
  {
  }

  lemma RowUpdateKeepsOneLive(s: State, t: State, id: JobId, job: Job)
    requires OneLive(s) && id in s.jobs && t.deployments == s.deployments && t.jobs == s.jobs[id := job]
    requires job.deployment == s.jobs[id].deployment
    requires job.deployment.None? || Live(job.status) == Live(s.jobs[id].status)
    ensures OneLive(t)
  {
  }

  lemma ApiKeepsOneLive(s: State, e: ApiStep)
    requires Consistent(s) && ApiEnabled(s, e)
    ensures OneLive(ApiNext(s, e))
  {
    match e
    case Create(id, op, d, payloadGiven, playbooks, gated) =>
      NewJobKeepsOneLive(s, id, CreateBase(s, op, d, payloadGiven, playbooks), gated);
    case Execute(id, d, b, direct, allocates, playbooks, gated) =>
      OpenKeepsOneLive(s, id, d, NewRow(Some(b), false, allocates), ExecuteJob(d, b, direct, playbooks), gated);
    case CreateDeployment(id, d, playbooks, gated) =>
      OpenKeepsOneLive(s, id, d, NewRow(None, false, false), FirstJob(TerraformApply, Some(d), None, playbooks), gated);
    case Adopt(id, d, gated) =>
      OpenKeepsOneLive(s, id, d, NewRow(None, true, false), FirstJob(TerraformImport, Some(d), None, []), gated);
    case DeleteBlueprint(b, id) => PlainUpdateKeepsOneLive(s, RequestDelete(s, b, id));
    case Approve(id, _) => SettleKeepsOneLive(s, id, s.jobs[id].(status := Queued), QueuedD, false);
    case Cancel(id) => CancelKeepsOneLive(s, id);
    case Retry(id, newId, gated) => RetryKeepsOneLive(s, id, newId, gated);
    case AcceptAwx(id, newId, _, gated) => NewJobKeepsOneLive(s, newId, AcceptedPayload(id, s.jobs[id]), gated);
    case FinaliseMissing(d) => RelabelKeepsOneLive(s, d, FinalisedRow(s.deployments[d]));
    case EditCatalog(catalog) => PlainUpdateKeepsOneLive(s, s.(catalog := catalog));
  }

  lemma WorkerKeepsOneLive(s: State, e: WorkerStep)
    requires Consistent(s) && WorkerEnabled(s, e)
    ensures OneLive(WorkerNext(s, e))
  {
    match e
    case Claim(id) => SettleKeepsOneLive(s, id, s.jobs[id].(status := Running), RunningD, false);
    case Checkpoint(id, _, _, _) => RowUpdateKeepsOneLive(s, WorkerNext(s, e), id, WorkerNext(s, e).jobs[id]);
    case DeferForProvider(id) =>
      UnconditionalIsSettle(s, id);
      SettleKeepsOneLive(s, id, s.jobs[id].(status := Queued), WaitingProvider, false);
    case AwaitApproval(id) => PauseKeepsOneLive(s, id);
    case StorePlan(_) => PlainUpdateKeepsOneLive(s, WorkerNext(s, e));
    case DropPlan(_) => PlainUpdateKeepsOneLive(s, WorkerNext(s, e));
    case ClearWait(id) => WaitClearedKeepsOneLive(s, s.jobs[id].deployment.value);
    case Finish(id, outcome, rollbackDestroyed, submitted) => FinishKeepsOneLive(s, id, outcome, rollbackDestroyed, submitted);
    case FinishAndRecover(id, submitted, recovery) => RecoverKeepsOneLive(s, id, submitted, recovery);
    case PerformDelete(id) => PlainUpdateKeepsOneLive(s, WorkerNext(s, e));
    case RequeueDelete(id) => RowUpdateKeepsOneLive(s, WorkerNext(s, e), id, s.jobs[id].(status := Queued));
  }

  lemma DispatcherKeepsOneLive(s: State, e: DispatcherStep)
    requires Consistent(s) && DispatcherEnabled(s, e)
    ensures OneLive(DispatcherNext(s, e))
  {
    match e
    case Scheduled(id, op, d, playbooks, gated) => NewJobKeepsOneLive(s, id, ScheduledJob(s, op, d, playbooks), gated);
    case ReapCancelled(id) =>
      SettleKeepsOneLive(s, id, s.jobs[id].(status := Cancelled),
                         if MutatesTerraform(s.jobs[id].operation) then ReconciliationRequired else CancelledD, false);
    case ReapStale(id) => SettleKeepsOneLive(s, id, s.jobs[id].(status := Failed), FailedD, false);
    case ReapStaleAndResume(id, newId) => ResumeKeepsOneLive(s, id, newId);
    case ExpireApproval(id, hasResource) => ExpiryKeepsOneLive(s, id, hasResource);
    case Resync(d) => ResyncKeepsOneLive(s, d);
    case ForgetReleases(d) => RelabelKeepsOneLive(s, d, s.deployments[d].(released := false));
    case Quarantine(id) => SettleKeepsOneLive(s, id, s.jobs[id].(status := Failed), ReconciliationRequired, false);
  }

  lemma StepKeepsConsistent(s: State, e: Step)
    requires Consistent(s) && Enabled(s, e)
    ensures Consistent(Next(s, e))
  {
    StepEvolves(s, e);
    match e
    case Api(a) => ApiKeepsOneLive(s, a);
    case Worker(w) => WorkerKeepsOneLive(s, w);
    case Dispatcher(x) => DispatcherKeepsOneLive(s, x);
  }

  /** Every run of the API, the worker, the dispatcher and the scheduler. */
  lemma {:induction false} RunIsConsistent(states: seq<State>, steps: seq<Step>, i: nat)
    requires IsRun(states, steps) && i < |states|
    ensures Consistent(states[i])
  {
    if i > 0 {
      RunIsConsistent(states, steps, i - 1);
      assert RunStep(states, steps, i - 1);
      StepKeepsConsistent(states[i - 1], steps[i - 1]);
    }
  }

  /** The reading of OneLive: two live jobs of a deployment are the same job, and the deployment names it. */
  lemma AtMostOneLiveJob(states: seq<State>, steps: seq<Step>, i: nat, j: JobId, k: JobId)
    requires IsRun(states, steps) && i < |states|
    requires j in states[i].jobs && k in states[i].jobs
    requires Live(states[i].jobs[j].status) && Live(states[i].jobs[k].status)
    requires states[i].jobs[j].deployment.Some? && states[i].jobs[j].deployment == states[i].jobs[k].deployment
    ensures j == k && Owns(states[i], j)
  {
    RunIsConsistent(states, steps, i);
    assert Owns(states[i], j) && Owns(states[i], k);
  }

  // ----- Destroyed deployments -----

  ghost predicate IsDestroyed(s: State, d: DeploymentId) {
    d in s.deployments && s.deployments[d].status == Destroyed
  }

  lemma ApiKeepsDestroyed(s: State, e: ApiStep, d: DeploymentId)
    requires Consistent(s) && ApiEnabled(s, e) && IsDestroyed(s, d)
    ensures IsDestroyed(ApiNext(s, e), d)
  {
  }

  lemma WorkerKeepsDestroyed(s: State, e: WorkerStep, d: DeploymentId)
    requires Consistent(s) && WorkerEnabled(s, e) && IsDestroyed(s, d)
    ensures IsDestroyed(WorkerNext(s, e), d)
  {
  }

  lemma DispatcherKeepsDestroyed(s: State, e: DispatcherStep, d: DeploymentId)
    requires Consistent(s) && DispatcherEnabled(s, e) && IsDestroyed(s, d)
    ensures IsDestroyed(DispatcherNext(s, e), d)
  {
  }

  /** Destroyed is absorbing: no later transaction of the run takes a deployment out of it. */
  lemma {:induction false} DestroyedForever(states: seq<State>, steps: seq<Step>, i: nat, k: nat, d: DeploymentId)
    requires IsRun(states, steps) && i <= k < |states| && IsDestroyed(states[i], d)
    ensures IsDestroyed(states[k], d)
    decreases k
  {
    if i < k {
      DestroyedForever(states, steps, i, k - 1, d);
      RunIsConsistent(states, steps, k - 1);
      assert RunStep(states, steps, k - 1);
      match steps[k - 1]
      case Api(a) => ApiKeepsDestroyed(states[k - 1], a, d);
      case Worker(w) => WorkerKeepsDestroyed(states[k - 1], w, d);
      case Dispatcher(x) => DispatcherKeepsDestroyed(states[k - 1], x, d);
    }
  }
}
