/**
 What every transaction keeps of every job: an ended job stays ended and keeps everything but its
 final status, which a late worker may overwrite; checkpoints only grow; and a job is born either as
 a first attempt or as the next attempt of an ended one.
 */
module JobHistory {
  import opened Wrappers
  import opened PlaybookCatalog
  import opened JobStore

  ghost predicate SnapshotsKept(a: Snapshots, b: Snapshots) {
    forall p :: p in a ==> p in b && b[p] == a[p]
  }

  /** One job before and after a transaction. */
  ghost predicate Kept(a: Job, b: Job) {
    && b.operation == a.operation
    && b.deployment == a.deployment
    && b.previousStatus == a.previousStatus
    && b.retryOf == a.retryOf
    && b.attempt == a.attempt
    && b.blueprint == a.blueprint
    && b.playbooks == a.playbooks
    && b.snapshots == a.snapshots
    && RuntimeGrows(a.runtime, b.runtime)
    && (a.proxmoxStarted ==> b.proxmoxStarted)
    && (!Live(a.status) ==> b == a.(status := b.status) && !Live(b.status))
  }

  /** `child` is the next attempt of `parent`. */
  ghost predicate Descends(parent: Job, child: Job) {
    && child.operation == parent.operation
    && child.deployment == parent.deployment
    && child.blueprint == parent.blueprint
    && child.playbooks == parent.playbooks
    && child.attempt == parent.attempt + 1
    && SnapshotsKept(parent.snapshots, child.snapshots)
    && (SafeResume(parent) ==> SafeResume(child) && parent.runtime.completed <= child.runtime.completed)
  }

  ghost predicate LinkedJob(jobs: map<JobId, Job>, job: Job) {
    && WellFiled(job.snapshots)
    && (job.operation == BlueprintDelete ==> job.deployment.None?)
    && (job.retryOf.None? ==> job.attempt == 1)
    && (job.retryOf.Some? ==>
          && job.retryOf.value in jobs
          && !Live(jobs[job.retryOf.value].status)
          && Descends(jobs[job.retryOf.value], job))
  }

  ghost predicate Linked(s: State) {
    forall j :: j in s.jobs ==> LinkedJob(s.jobs, s.jobs[j])
  }

  ghost predicate Grown(s: State, t: State) {
    forall j :: j in s.jobs ==> j in t.jobs && Kept(s.jobs[j], t.jobs[j])
  }

  /** Every job that is new in `t` is properly linked. */
  ghost predicate Births(s: State, t: State) {
    forall j :: j in t.jobs && j !in s.jobs ==> LinkedJob(t.jobs, t.jobs[j])
  }

  ghost predicate Evolves(s: State, t: State) {
    Grown(s, t) && Births(s, t)
  }

  lemma EvolvingKeepsLinked(s: State, t: State)
    requires Linked(s) && Evolves(s, t)
    ensures Linked(t)
  {
  }

  lemma SettleEvolves(s: State, id: JobId, job: Job, status: DeploymentStatus, release: bool)
    requires id in s.jobs && Kept(s.jobs[id], job)
    ensures Evolves(s, Settle(s, id, job, status, release))
  {
  }

  lemma LaunchEvolves(s: State, id: JobId, job: Job, status: DeploymentStatus)
    requires id !in s.jobs && (job.deployment.Some? ==> job.deployment.value in s.deployments)
    requires LinkedJob(s.jobs, job)
    ensures Evolves(s, Launch(s, id, job, status))
  {
  }

  lemma SettleThenLaunchEvolves(s: State, t: State, id: JobId, job: Job, status: DeploymentStatus)
    requires Grown(s, t) && t.jobs.Keys == s.jobs.Keys
    requires id !in t.jobs && (job.deployment.Some? ==> job.deployment.value in t.deployments)
    requires LinkedJob(t.jobs, job)
    ensures Evolves(s, Launch(t, id, job, status))
  {
    LaunchEvolves(t, id, job, status);
  }

  /** A new job is linked when its payload is: only snapshots can be added to it. */
  lemma PreparedIsLinked(s: State, base: Job, gated: bool)
    requires Snapshotted(s.catalog, base.snapshots, base.playbooks).Some?
    requires LinkedJob(s.jobs, base)
    ensures LinkedJob(s.jobs, Prepared(s, base, gated))
  {
    SnapshotsAreImmutable(s.catalog, base.snapshots, base.playbooks);
  }

  lemma NewJobEvolves(s: State, id: JobId, base: Job, gated: bool)
    requires CanEnqueue(s, id, base) && LinkedJob(s.jobs, base)
    ensures Evolves(s, NewJob(s, id, base, gated))
  {
    PreparedIsLinked(s, base, gated);
    LaunchEvolves(s, id, Prepared(s, base, gated), if gated then WaitingApprovalD else QueuedD);
  }

  lemma OpenEvolves(s: State, id: JobId, d: DeploymentId, row: Deployment, base: Job, gated: bool)
    requires CanOpen(s, id, d, row, base) && LinkedJob(s.jobs, base)
    ensures Evolves(s, Opened(s, id, d, row, base, gated))
  {
    NewJobEvolves(WithDeployment(s, d, row), id, base, gated);
  }

  lemma RetryIsLinked(s: State, id: JobId)
    requires Linked(s) && id in s.jobs && !Live(s.jobs[id].status)
    ensures LinkedJob(s.jobs, RetryPayload(id, s.jobs[id]))
  {
    assert LinkedJob(s.jobs, s.jobs[id]);
  }

  lemma AcceptIsLinked(s: State, id: JobId)
    requires Linked(s) && id in s.jobs && !Live(s.jobs[id].status) && s.jobs[id].stoppedAt.Some?
    ensures LinkedJob(s.jobs, AcceptedPayload(id, s.jobs[id]))
  {
  }

  lemma RetryEvolves(s: State, id: JobId, newId: JobId, gated: bool)
    requires Linked(s) && id in s.jobs && s.jobs[id].status in {Failed, Cancelled}
    ensures Evolves(s, RetryJob(s, id, newId, gated))
  {
    var t := s.(plans := PlansAfterRetry(s, id));
    if CanCreate(t, newId, RetryPayload(id, s.jobs[id])) {
      RetryIsLinked(s, id);
      NewJobEvolves(t, newId, RetryPayload(id, s.jobs[id]), gated);
    }
  }

  lemma RecoveryEvolves(s: State, id: JobId, submitted: bool, recovery: JobId)
    requires Owns(s, id) && Live(s.jobs[id].status) && recovery !in s.jobs
    ensures Evolves(s, Recovered(s, id, submitted, recovery))
  {
    var t := FinishJob(s, id, Failed, false, submitted);
    SettleThenLaunchEvolves(s, t, recovery, RecoveryJob(s.jobs[id]), RecoveryQueued);
  }

  lemma ResumeEvolves(s: State, id: JobId, newId: JobId)
    requires Linked(s) && Owns(s, id) && Live(s.jobs[id].status) && newId !in s.jobs
    ensures Evolves(s, Resumed(s, id, newId))
  {
    assert LinkedJob(s.jobs, s.jobs[id]);
    var t := Settle(s, id, s.jobs[id].(status := Failed), FailedD, false);
    var job := ResumedJob(id, s.jobs[id]);
    assert t.jobs == s.jobs[id := s.jobs[id].(status := Failed)];
    assert LinkedJob(t.jobs, job);
    SettleThenLaunchEvolves(s, t, newId, job, RecoveryQueued);
  }

  lemma ExpiryEvolves(s: State, id: JobId, hasResource: bool)
    requires id in s.jobs && Live(s.jobs[id].status)
    ensures Evolves(s, Expire(s, id, hasResource))
  {
    var job := s.jobs[id];
    var outcome := if hasResource && job.runtime.providerApplied then Failed else Cancelled;
    RowUpdateEvolves(s, Expire(s, id, hasResource), id, job.(status := outcome));
  }

  lemma RowUpdateEvolves(s: State, t: State, id: JobId, job: Job)
    requires id in s.jobs && Kept(s.jobs[id], job) && t.jobs == s.jobs[id := job]
    ensures Evolves(s, t)
  {
  }

  lemma RequestDeleteEvolves(s: State, b: BlueprintId, id: JobId)
    requires id !in s.jobs
    ensures Evolves(s, RequestDelete(s, b, id))
  {
    var job := FirstJob(BlueprintDelete, None, Some(b), []);
    if !DeletePending(s, b) && Blocking(s, b) != {} {
      LaunchEvolves(s, id, job, QueuedD);
    }
  }

  lemma CancelEvolves(s: State, id: JobId)
    requires id in s.jobs && Live(s.jobs[id].status)
    ensures Evolves(s, CancelJob(s, id))
  {
    var job := s.jobs[id];
    if !(job.cancelRequested && job.status == Cancelling) {
      var status := if job.status in {Queued, WaitingApproval} then Cancelled else Cancelling;
      RowUpdateEvolves(s, CancelJob(s, id), id, job.(status := status, cancelRequested := true));
    }
  }

  lemma ApiEvolves(s: State, e: ApiStep)
    requires Linked(s) && ApiEnabled(s, e)
    ensures Evolves(s, ApiNext(s, e))
  {
    match e
    case Create(id, op, d, payloadGiven, playbooks, gated) =>
      NewJobEvolves(s, id, CreateBase(s, op, d, payloadGiven, playbooks), gated);
    case Execute(id, d, b, direct, allocates, playbooks, gated) =>
      OpenEvolves(s, id, d, NewRow(Some(b), false, allocates), ExecuteJob(d, b, direct, playbooks), gated);
    case CreateDeployment(id, d, playbooks, gated) =>
      OpenEvolves(s, id, d, NewRow(None, false, false), FirstJob(TerraformApply, Some(d), None, playbooks), gated);
    case Adopt(id, d, gated) =>
      OpenEvolves(s, id, d, NewRow(None, true, false), FirstJob(TerraformImport, Some(d), None, []), gated);
    case DeleteBlueprint(b, id) => RequestDeleteEvolves(s, b, id);
    case Approve(id, _) => SettleEvolves(s, id, s.jobs[id].(status := Queued), QueuedD, false);
    case Cancel(id) => CancelEvolves(s, id);
    case Retry(id, newId, gated) => RetryEvolves(s, id, newId, gated);
    case AcceptAwx(id, newId, _, gated) =>
      AcceptIsLinked(s, id);
      NewJobEvolves(s, newId, AcceptedPayload(id, s.jobs[id]), gated);
    case FinaliseMissing(_) =>
    case EditCatalog(_) =>
  }

  lemma WorkerEvolves(s: State, e: WorkerStep)
    requires Linked(s) && WorkerEnabled(s, e)
    ensures Evolves(s, WorkerNext(s, e))
  {
    match e
    case Claim(id) => SettleEvolves(s, id, s.jobs[id].(status := Running), RunningD, false);
    case Checkpoint(id, _, _, _) => RowUpdateEvolves(s, WorkerNext(s, e), id, WorkerNext(s, e).jobs[id]);
    case DeferForProvider(id) => RowUpdateEvolves(s, Deferred(s, id), id, s.jobs[id].(status := Queued));
    case AwaitApproval(id) => RowUpdateEvolves(s, AwaitingApproval(s, id), id, s.jobs[id].(status := WaitingApproval));
    case StorePlan(_) =>
    case DropPlan(_) =>
    case ClearWait(_) =>
    case Finish(id, outcome, rollbackDestroyed, submitted) =>
      RowUpdateEvolves(s, WorkerNext(s, e), id, s.jobs[id].(status := outcome));
    case FinishAndRecover(id, submitted, recovery) => RecoveryEvolves(s, id, submitted, recovery);
    case PerformDelete(_) =>
    case RequeueDelete(id) => RowUpdateEvolves(s, WorkerNext(s, e), id, s.jobs[id].(status := Queued));
  }

  lemma DispatcherEvolves(s: State, e: DispatcherStep)
    requires Linked(s) && DispatcherEnabled(s, e)
    ensures Evolves(s, DispatcherNext(s, e))
  {
    match e
    case Scheduled(id, op, d, playbooks, gated) => NewJobEvolves(s, id, ScheduledJob(s, op, d, playbooks), gated);
    case ReapCancelled(id) => RowUpdateEvolves(s, DispatcherNext(s, e), id, s.jobs[id].(status := Cancelled));
    case ReapStale(id) => SettleEvolves(s, id, s.jobs[id].(status := Failed), FailedD, false);
    case ReapStaleAndResume(id, newId) => ResumeEvolves(s, id, newId);
    case ExpireApproval(id, hasResource) => ExpiryEvolves(s, id, hasResource);
    case Resync(_) =>
    case ForgetReleases(_) =>
    case Quarantine(id) => SettleEvolves(s, id, s.jobs[id].(status := Failed), ReconciliationRequired, false);
  }

  lemma StepEvolves(s: State, e: Step)
    requires Linked(s) && Enabled(s, e)
    ensures Evolves(s, Next(s, e)) && Linked(Next(s, e))
  {
    match e {
      case Api(a) => ApiEvolves(s, a);
      case Worker(w) => WorkerEvolves(s, w);
      case Dispatcher(x) => DispatcherEvolves(s, x);
    }
    EvolvingKeepsLinked(s, Next(s, e));
  }
}
