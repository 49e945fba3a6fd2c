/**
 Jobs, deployments and blueprints as rows, and the transactions that change them: the job API,
 the worker, the dispatcher and the scheduler. Rows are locked while they are changed, so each
 transaction is one atomic step.
 */
module JobStore {
  import opened Wrappers
  import opened PlaybookCatalog

  type JobId = string
  type DeploymentId = string
  type BlueprintId = int
  type StepName = string

  datatype Operation =
    | TerraformPlan | TerraformApply | TerraformDestroy | TerraformImport
    | ProxmoxProvision | ProxmoxDestroy | AnsibleExecute | CloneTemplate | BlueprintDelete

  datatype JobStatus = WaitingApproval | Queued | Running | Cancelling | Successful | Failed | Cancelled

  datatype DeploymentStatus =
    | QueuedD | WaitingApprovalD | RunningD | CancellingD | WaitingProvider | RecoveryQueued
    | SuccessfulD | FailedD | CancelledD | Imported | Destroyed | ReconciliationRequired

  /** The durable checkpoints of a workflow. */
  datatype Runtime = Runtime(providerApplied: bool, inventorySynced: bool, completed: set<StepName>)

  const NO_RUNTIME := Runtime(false, false, {})

  /**
   `proxmoxStarted` says that the direct-Proxmox checkpoint names a clone, a task or a target VM;
   `stoppedAt` is the register_awx step the job was working on when it stopped, if any.
   */
  datatype Job = Job(
    operation: Operation, deployment: Option<DeploymentId>, status: JobStatus, cancelRequested: bool,
    previousStatus: Option<DeploymentStatus>, retryOf: Option<JobId>, attempt: nat, blueprint: Option<BlueprintId>,
    runtime: Runtime, proxmoxStarted: bool, resumesAfterApply: bool, stoppedAt: Option<StepName>,
    playbooks: seq<PlaybookId>, snapshots: Snapshots)

  /** `hasAllocations` and `released` speak of the hostname and IP allocations of the deployment. */
  datatype Deployment = Deployment(
    status: DeploymentStatus, active: Option<JobId>, blueprint: Option<BlueprintId>,
    planOnly: bool, hasAllocations: bool, released: bool)

  /** `plans` holds the deployments with a stored Terraform plan. */
  datatype State = State(
    jobs: map<JobId, Job>, deployments: map<DeploymentId, Deployment>, plans: set<DeploymentId>,
    blueprints: set<BlueprintId>, catalog: Catalog)

  predicate Live(status: JobStatus) {
    status in {WaitingApproval, Queued, Running, Cancelling}
  }

  predicate Provisioning(op: Operation) {
    op in {TerraformApply, ProxmoxProvision}
  }

  predicate MutatesTerraform(op: Operation) {
    op in {TerraformApply, TerraformDestroy, TerraformImport}
  }

  // ----- Two row updates that every transaction is made of -----

  ghost predicate Owns(s: State, id: JobId) {
    && id in s.jobs
    && s.jobs[id].deployment.Some?
    && s.jobs[id].deployment.value in s.deployments
    && s.deployments[s.jobs[id].deployment.value].active == Some(id)
  }

  /** The job gets new contents; the deployment it is active on follows, and is freed when the job ends. */
  ghost function Settle(s: State, id: JobId, job: Job, status: DeploymentStatus, release: bool): State
    requires id in s.jobs
  {
    if !Owns(s, id) then s.(jobs := s.jobs[id := job])
    else
      var d := s.jobs[id].deployment.value;
      var dep := s.deployments[d];
      s.(jobs := s.jobs[id := job],
         deployments := s.deployments[d := dep.(
           status := status,
           active := if Live(job.status) then Some(id) else None,
           hasAllocations := dep.hasAllocations && !release,
           released := dep.released || (release && dep.hasAllocations))])
  }

  /** A new job becomes the active job of its deployment. */
  function Launch(s: State, id: JobId, job: Job, status: DeploymentStatus): State
    requires job.deployment.Some? ==> job.deployment.value in s.deployments
  {
    if job.deployment.None? then s.(jobs := s.jobs[id := job])
    else
      var d := job.deployment.value;
      s.(jobs := s.jobs[id := job], deployments := s.deployments[d := s.deployments[d].(status := status, active := Some(id))])
  }

  // ----- new_job -----

  /** The refusals of `new_job`, permissions and policy aside. */
  predicate Admissible(s: State, op: Operation, d: Option<DeploymentId>) {
    d.None? ||
    (d.value in s.deployments &&
     var dep := s.deployments[d.value];
     && (dep.status == ReconciliationRequired ==> op == TerraformPlan)
     && dep.active.None?
     && dep.status != Destroyed
     && (Provisioning(op) ==> !dep.released)
     && (op == TerraformApply ==> !dep.planOnly))
  }

  function StatusOf(s: State, d: Option<DeploymentId>): Option<DeploymentStatus> {
    if d.Some? && d.value in s.deployments then Some(s.deployments[d.value].status) else None
  }

  predicate CanEnqueue(s: State, id: JobId, base: Job) {
    && id !in s.jobs
    && (base.deployment.Some? ==> base.deployment.value in s.deployments)
    && Snapshotted(s.catalog, base.snapshots, base.playbooks).Some?
  }

  predicate CanCreate(s: State, id: JobId, base: Job) {
    CanEnqueue(s, id, base) && Admissible(s, base.operation, base.deployment)
  }

  /** `base` carries the payload; status, previous status and snapshots are set here. */
  function NewJob(s: State, id: JobId, base: Job, gated: bool): State
    requires CanEnqueue(s, id, base)
  {
    Launch(s, id, Prepared(s, base, gated), if gated then WaitingApprovalD else QueuedD)
  }

  function Prepared(s: State, base: Job, gated: bool): Job
    requires Snapshotted(s.catalog, base.snapshots, base.playbooks).Some?
  {
    base.(
      status := if gated then WaitingApproval else Queued,
      cancelRequested := false,
      previousStatus := StatusOf(s, base.deployment),
      stoppedAt := None,
      snapshots := Snapshotted(s.catalog, base.snapshots, base.playbooks).value)
  }

  function FirstJob(op: Operation, d: Option<DeploymentId>, blueprint: Option<BlueprintId>, playbooks: seq<PlaybookId>): Job {
    Job(op, d, Queued, false, None, None, 1, blueprint, NO_RUNTIME, false, false, None, playbooks, map[])
  }

  // ----- retry_job and accept_awx_onboarding -----

  /** The provider side has already been changed by this job. */
  predicate Checkpointed(job: Job) {
    job.runtime.providerApplied || (job.operation == ProxmoxProvision && job.proxmoxStarted)
  }

  predicate SafeResume(job: Job) {
    Provisioning(job.operation) && Checkpointed(job)
  }

  /** The payload a retry starts from: checkpoints are kept exactly on a safe resume. */
  function RetryPayload(id: JobId, job: Job): Job {
    var next := job.(retryOf := Some(id), attempt := job.attempt + 1);
    if SafeResume(job) then next.(resumesAfterApply := true)
    else next.(resumesAfterApply := false, runtime := NO_RUNTIME,
               proxmoxStarted := job.proxmoxStarted && job.operation != ProxmoxProvision)
  }

  /** The stored plan is deleted in a transaction of its own, before `new_job` can refuse. */
  function PlansAfterRetry(s: State, id: JobId): set<DeploymentId>
    requires id in s.jobs
  {
    var job := s.jobs[id];
    if job.deployment.Some? && job.deployment.value in s.deployments && !SafeResume(job)
    then s.plans - {job.deployment.value} else s.plans
  }

  predicate CanAcceptAwx(s: State, id: JobId, vmActive: bool) {
    && id in s.jobs
    && var job := s.jobs[id];
    && job.status == Failed
    && Provisioning(job.operation)
    && job.deployment.Some?
    && job.deployment.value in s.deployments
    && s.deployments[job.deployment.value].active.None?
    && s.deployments[job.deployment.value].status !in {Destroyed, ReconciliationRequired}
    && job.stoppedAt.Some?
    && job.runtime.providerApplied
    && job.runtime.inventorySynced
    && vmActive
  }

  function AcceptedPayload(id: JobId, job: Job): Job
    requires job.stoppedAt.Some?
  {
    job.(retryOf := Some(id), attempt := job.attempt + 1,
         runtime := job.runtime.(completed := job.runtime.completed + {job.stoppedAt.value}))
  }

  // ----- cancel_job -----

  /** What a deployment goes back to when its job is cancelled before it ran. */
  function StatusAfterCancel(s: State, id: JobId): DeploymentStatus
    requires id in s.jobs
  {
    var job := s.jobs[id];
    if job.operation == TerraformPlan then job.previousStatus.GetOr(StatusOf(s, job.deployment).GetOr(FailedD)) else CancelledD
  }

  ghost function CancelJob(s: State, id: JobId): State
    requires id in s.jobs && Live(s.jobs[id].status)
  {
    var job := s.jobs[id];
    if job.cancelRequested && job.status == Cancelling then s
    else if job.status in {Queued, WaitingApproval} then
      var t := Settle(s, id, job.(status := Cancelled, cancelRequested := true), StatusAfterCancel(s, id), job.operation != TerraformPlan);
      if job.status == WaitingApproval && Owns(s, id) then t.(plans := t.plans - {job.deployment.value}) else t
    else Settle(s, id, job.(status := Cancelling, cancelRequested := true), CancellingD, false)
  }

  // ----- The worker -----

  function StatusAfterFinish(s: State, id: JobId, outcome: JobStatus, rollbackDestroyed: bool, submitted: bool): DeploymentStatus
    requires id in s.jobs && outcome in {Successful, Failed, Cancelled}
  {
    var job := s.jobs[id];
    if job.operation == TerraformPlan then
      var previous := job.previousStatus.GetOr(StatusOf(s, job.deployment).GetOr(FailedD));
      if previous == ReconciliationRequired && outcome == Successful then SuccessfulD else previous
    else if job.operation == TerraformImport && outcome == Successful then Imported
    else if rollbackDestroyed then Destroyed
    else if outcome != Successful && submitted && MutatesTerraform(job.operation) && !job.runtime.providerApplied then
      ReconciliationRequired
    else if outcome == Successful && job.operation in {TerraformDestroy, ProxmoxDestroy} then Destroyed
    else match outcome { case Successful => SuccessfulD case Failed => FailedD case _ => CancelledD }
  }

  ghost function FinishJob(s: State, id: JobId, outcome: JobStatus, rollbackDestroyed: bool, submitted: bool): State
    requires id in s.jobs && outcome in {Successful, Failed, Cancelled}
  {
    var status := StatusAfterFinish(s, id, outcome, rollbackDestroyed, submitted);
    Settle(s, id, s.jobs[id].(status := outcome), status, status == Destroyed)
  }

  /** The destroy job queued when a failed blueprint asks to be destroyed on failure. */
  function RecoveryJob(job: Job): Job {
    FirstJob(if job.operation == ProxmoxProvision then ProxmoxDestroy else TerraformDestroy, job.deployment, None, [])
      .(previousStatus := Some(FailedD))
  }

  // ----- Blueprint deletion -----

  /** Live provisioning jobs whose payload names the blueprint. */
  ghost function Blocking(s: State, b: BlueprintId): set<JobId> {
    set j | j in s.jobs && Live(s.jobs[j].status) && Provisioning(s.jobs[j].operation) && s.jobs[j].blueprint == Some(b)
  }

  predicate IsPendingDelete(s: State, j: JobId, b: BlueprintId) {
    j in s.jobs && s.jobs[j].operation == BlueprintDelete && Live(s.jobs[j].status) && s.jobs[j].blueprint == Some(b)
  }

  ghost predicate DeletePending(s: State, b: BlueprintId) {
    exists j :: IsPendingDelete(s, j, b)
  }

  // ----- Transactions -----

  datatype ApiStep =
    /** POST /jobs, deployment destroy and recreate; `payloadGiven` when the request brings its own payload. */
    | Create(id: JobId, op: Operation, target: Option<DeploymentId>, payloadGiven: bool, playbooks: seq<PlaybookId>, gated: bool)
    | Execute(id: JobId, d: DeploymentId, blueprint: BlueprintId, direct: bool, allocates: bool, playbooks: seq<PlaybookId>, gated: bool)
    /** POST /deployments: a deployment without a blueprint. */
    | CreateDeployment(id: JobId, d: DeploymentId, playbooks: seq<PlaybookId>, gated: bool)
    /** Adopting an external VM: a plan-only deployment with an import job. */
    | Adopt(id: JobId, d: DeploymentId, gated: bool)
    | DeleteBlueprint(blueprint: BlueprintId, id: JobId)
    | Approve(id: JobId, complete: bool)
    | Cancel(id: JobId)
    | Retry(id: JobId, newId: JobId, gated: bool)
    | AcceptAwx(id: JobId, newId: JobId, vmActive: bool, gated: bool)
    | FinaliseMissing(d: DeploymentId)
    | EditCatalog(catalog: Catalog)

  datatype WorkerStep =
    | Claim(id: JobId)
    | Checkpoint(id: JobId, runtime: Runtime, proxmoxStarted: bool, stoppedAt: Option<StepName>)
    | DeferForProvider(id: JobId)
    | AwaitApproval(id: JobId)
    | StorePlan(id: JobId)
    | DropPlan(id: JobId)
    | ClearWait(id: JobId)
    | Finish(id: JobId, outcome: JobStatus, rollbackDestroyed: bool, submitted: bool)
    | FinishAndRecover(id: JobId, submitted: bool, recovery: JobId)
    | PerformDelete(id: JobId)
    | RequeueDelete(id: JobId)

  datatype DispatcherStep =
    | Scheduled(id: JobId, op: Operation, d: DeploymentId, playbooks: seq<PlaybookId>, gated: bool)
    | ReapCancelled(id: JobId)
    | ReapStale(id: JobId)
    | ReapStaleAndResume(id: JobId, newId: JobId)
    | ExpireApproval(id: JobId, hasResource: bool)
    | Resync(d: DeploymentId)
    /** An instance restore ends every unfinished job. */
    | Quarantine(id: JobId)
    /** Retention deletes the old released allocations of a deployment. */
    | ForgetReleases(d: DeploymentId)

  datatype Step = Api(api: ApiStep) | Worker(worker: WorkerStep) | Dispatcher(dispatcher: DispatcherStep)

  /** Checkpoints are only ever added. */
  predicate RuntimeGrows(a: Runtime, b: Runtime) {
    (a.providerApplied ==> b.providerApplied) && (a.inventorySynced ==> b.inventorySynced) && a.completed <= b.completed
  }

  predicate Working(s: State, id: JobId) {
    id in s.jobs && s.jobs[id].status in {Running, Cancelling}
  }

  function CreateBase(s: State, op: Operation, d: Option<DeploymentId>, payloadGiven: bool, playbooks: seq<PlaybookId>): Job {
    var fromWorkflow := !payloadGiven && Provisioning(op) && d.Some? && d.value in s.deployments;
    FirstJob(op, d, if fromWorkflow then s.deployments[d.value].blueprint else None, playbooks)
  }

  function ExecuteOperation(direct: bool): Operation {
    if direct then ProxmoxProvision else TerraformApply
  }

  function WithDeployment(s: State, d: DeploymentId, row: Deployment): State {
    s.(deployments := s.deployments[d := row])
  }

  /** A deployment row as it is inserted, just before its first job. */
  function NewRow(blueprint: Option<BlueprintId>, planOnly: bool, allocates: bool): Deployment {
    Deployment(QueuedD, None, blueprint, planOnly, allocates, false)
  }

  function StatusAfterExpiry(job: Job, hasResource: bool): DeploymentStatus {
    if hasResource && job.previousStatus.Some?
       && job.previousStatus.value !in {QueuedD, RunningD, WaitingApprovalD, CancellingD}
    then job.previousStatus.value else CancelledD
  }

  function Unplanned(s: State, d: Option<DeploymentId>): State {
    if d.Some? && d.value in s.deployments then s.(plans := s.plans - {d.value}) else s
  }

  ghost function Expire(s: State, id: JobId, hasResource: bool): State
    requires id in s.jobs
  {
    var job := s.jobs[id];
    var t := Unplanned(s, job.deployment);
    if hasResource && job.runtime.providerApplied then Settle(t, id, job.(status := Failed), FailedD, false)
    else
      var status := StatusAfterExpiry(job, hasResource);
      Settle(t, id, job.(status := Cancelled), status, status == CancelledD)
  }

  ghost function RequestDelete(s: State, b: BlueprintId, id: JobId): State {
    if DeletePending(s, b) then s
    else if Blocking(s, b) != {} then s.(jobs := s.jobs[id := FirstJob(BlueprintDelete, None, Some(b), [])])
    else s.(blueprints := s.blueprints - {b})
  }

  /** The worker removes the blueprint unless it is gone or still blocked; the job ends or is requeued later. */
  ghost function PerformDeletion(s: State, b: BlueprintId): State {
    if Blocking(s, b) != {} then s else s.(blueprints := s.blueprints - {b})
  }

  /** `defer_for_provider` makes the job the active one without asking who is. */
  function Deferred(s: State, id: JobId): State
    requires id in s.jobs && s.jobs[id].deployment.Some?
  {
    var d := s.jobs[id].deployment.value;
    var jobs := s.jobs[id := s.jobs[id].(status := Queued)];
    if d in s.deployments
    then s.(jobs := jobs, deployments := s.deployments[d := s.deployments[d].(status := WaitingProvider, active := Some(id))])
    else s.(jobs := jobs)
  }

  /** The workflow stops at an approval step; who is active is not asked. */
  function AwaitingApproval(s: State, id: JobId): State
    requires id in s.jobs && s.jobs[id].deployment.Some?
  {
    var d := s.jobs[id].deployment.value;
    var jobs := s.jobs[id := s.jobs[id].(status := WaitingApproval)];
    if d in s.deployments
    then s.(jobs := jobs, deployments := s.deployments[d := s.deployments[d].(status := WaitingApprovalD, active := Some(id))])
    else s.(jobs := jobs)
  }

  /** The provider answers again; whose job waited is not asked. */
  function WaitCleared(s: State, d: DeploymentId): State
    requires d in s.deployments
  {
    if s.deployments[d].status == WaitingProvider then s.(deployments := s.deployments[d := s.deployments[d].(status := RunningD)])
    else s
  }

  ghost function RetryJob(s: State, id: JobId, newId: JobId, gated: bool): State
    requires id in s.jobs
  {
    var t := s.(plans := PlansAfterRetry(s, id));
    if CanCreate(t, newId, RetryPayload(id, s.jobs[id])) then NewJob(t, newId, RetryPayload(id, s.jobs[id]), gated) else t
  }

  /** The deployment of a VM confirmed missing; its allocations are released. */
  function FinalisedRow(row: Deployment): Deployment {
    row.(status := Destroyed, hasAllocations := false, released := row.released || row.hasAllocations)
  }

  function ScheduledJob(s: State, op: Operation, d: DeploymentId, playbooks: seq<PlaybookId>): Job
    requires d in s.deployments
  {
    FirstJob(op, Some(d), if op == TerraformApply then s.deployments[d].blueprint else None, playbooks)
  }

  /** A new deployment and its first job, in one transaction. */
  predicate CanOpen(s: State, id: JobId, d: DeploymentId, row: Deployment, base: Job) {
    d !in s.deployments && base.deployment == Some(d) && row.active.None? && CanCreate(WithDeployment(s, d, row), id, base)
  }

  function Opened(s: State, id: JobId, d: DeploymentId, row: Deployment, base: Job, gated: bool): State
    requires CanOpen(s, id, d, row, base)
  {
    NewJob(WithDeployment(s, d, row), id, base, gated)
  }

  function ExecuteJob(d: DeploymentId, b: BlueprintId, direct: bool, playbooks: seq<PlaybookId>): Job {
    FirstJob(ExecuteOperation(direct), Some(d), Some(b), playbooks)
  }

  ghost function Recovered(s: State, id: JobId, submitted: bool, recovery: JobId): State
    requires Owns(s, id)
  {
    Launch(FinishJob(s, id, Failed, false, submitted), recovery, RecoveryJob(s.jobs[id]), RecoveryQueued)
  }

  function ResumedJob(id: JobId, job: Job): Job {
    job.(status := Queued, retryOf := Some(id), attempt := job.attempt + 1)
  }

  ghost function Resumed(s: State, id: JobId, newId: JobId): State
    requires Owns(s, id)
  {
    Launch(Settle(s, id, s.jobs[id].(status := Failed), FailedD, false), newId, ResumedJob(id, s.jobs[id]), RecoveryQueued)
  }

  /** The deployment row is brought in line with the job it names as active. */
  function Resynced(s: State, d: DeploymentId): Deployment
    requires d in s.deployments && s.deployments[d].active.Some?
  {
    var row, id := s.deployments[d], s.deployments[d].active.value;
    if id !in s.jobs then row.(active := None, status := FailedD)
    else
      var job := s.jobs[id];
      if job.status == Cancelling || job.cancelRequested then row.(status := CancellingD)
      else if job.status in {Running, Queued} then
        if row.status in {WaitingProvider, RecoveryQueued} then row
        else row.(status := if job.status == Running then RunningD else QueuedD)
      else if job.status !in {Successful, Failed, Cancelled} then row
      else row.(active := None, status := StatusAfterFinish(s, id, job.status, false, false))
  }

  // ----- The API -----

  ghost predicate ApiEnabled(s: State, e: ApiStep) {
    match e
    case Create(id, op, d, payloadGiven, playbooks, _) =>
      op != BlueprintDelete && CanCreate(s, id, CreateBase(s, op, d, payloadGiven, playbooks))
    case Execute(id, d, b, direct, allocates, playbooks, _) =>
      && b in s.blueprints
      && !DeletePending(s, b)
      && CanOpen(s, id, d, NewRow(Some(b), false, allocates), ExecuteJob(d, b, direct, playbooks))
    case CreateDeployment(id, d, playbooks, _) =>
      CanOpen(s, id, d, NewRow(None, false, false), FirstJob(TerraformApply, Some(d), None, playbooks))
    case Adopt(id, d, _) => CanOpen(s, id, d, NewRow(None, true, false), FirstJob(TerraformImport, Some(d), None, []))
    case DeleteBlueprint(b, id) => b in s.blueprints && id !in s.jobs
    case Approve(id, _) => id in s.jobs && s.jobs[id].status == WaitingApproval
    case Cancel(id) => id in s.jobs && Live(s.jobs[id].status)
    case Retry(id, newId, _) => id in s.jobs && s.jobs[id].status in {Failed, Cancelled}
    case AcceptAwx(id, newId, vmActive, _) =>
      CanAcceptAwx(s, id, vmActive) && CanCreate(s, newId, AcceptedPayload(id, s.jobs[id]))
    case FinaliseMissing(d) => d in s.deployments && s.deployments[d].active.None?
    case EditCatalog(_) => true
  }

  ghost function ApiNext(s: State, e: ApiStep): State
    requires ApiEnabled(s, e)
  {
    match e
    case Create(id, op, d, payloadGiven, playbooks, gated) => NewJob(s, id, CreateBase(s, op, d, payloadGiven, playbooks), gated)
    case Execute(id, d, b, direct, allocates, playbooks, gated) =>
      Opened(s, id, d, NewRow(Some(b), false, allocates), ExecuteJob(d, b, direct, playbooks), gated)
    case CreateDeployment(id, d, playbooks, gated) =>
      Opened(s, id, d, NewRow(None, false, false), FirstJob(TerraformApply, Some(d), None, playbooks), gated)
    case Adopt(id, d, gated) => Opened(s, id, d, NewRow(None, true, false), FirstJob(TerraformImport, Some(d), None, []), gated)
    case DeleteBlueprint(b, id) => RequestDelete(s, b, id)
    case Approve(id, complete) => if complete then Settle(s, id, s.jobs[id].(status := Queued), QueuedD, false) else s
    case Cancel(id) => CancelJob(s, id)
    case Retry(id, newId, gated) => RetryJob(s, id, newId, gated)
    case AcceptAwx(id, newId, _, gated) => NewJob(s, newId, AcceptedPayload(id, s.jobs[id]), gated)
    case FinaliseMissing(d) => s.(deployments := s.deployments[d := FinalisedRow(s.deployments[d])])
    case EditCatalog(catalog) => s.(catalog := catalog)
  }

  // ----- The worker -----

  ghost predicate WorkerEnabled(s: State, e: WorkerStep) {
    match e
    case Claim(id) => id in s.jobs && s.jobs[id].status == Queued && !s.jobs[id].cancelRequested
    case Checkpoint(id, runtime, proxmoxStarted, _) =>
      Working(s, id) && RuntimeGrows(s.jobs[id].runtime, runtime) && (s.jobs[id].proxmoxStarted ==> proxmoxStarted)
    case DeferForProvider(id) => Working(s, id) && !s.jobs[id].cancelRequested && s.jobs[id].deployment.Some?
    case AwaitApproval(id) => Working(s, id) && s.jobs[id].deployment.Some?
    case StorePlan(id) => id in s.jobs && s.jobs[id].deployment.Some?
    case DropPlan(id) => id in s.jobs && s.jobs[id].deployment.Some?
    case ClearWait(id) => id in s.jobs && s.jobs[id].deployment.Some? && s.jobs[id].deployment.value in s.deployments
    case Finish(id, outcome, _, _) =>
      id in s.jobs && s.jobs[id].status !in {Queued, WaitingApproval} && outcome in {Successful, Failed, Cancelled}
    case FinishAndRecover(id, _, recovery) =>
      Working(s, id) && Provisioning(s.jobs[id].operation) && Owns(s, id) && recovery !in s.jobs
    case PerformDelete(id) => Working(s, id) && s.jobs[id].operation == BlueprintDelete && s.jobs[id].blueprint.Some?
    case RequeueDelete(id) => Working(s, id) && s.jobs[id].operation == BlueprintDelete
  }

  ghost function WorkerNext(s: State, e: WorkerStep): State
    requires WorkerEnabled(s, e)
  {
    match e
    case Claim(id) => Settle(s, id, s.jobs[id].(status := Running), RunningD, false)
    case Checkpoint(id, runtime, proxmoxStarted, stoppedAt) =>
      s.(jobs := s.jobs[id := s.jobs[id].(runtime := runtime, proxmoxStarted := proxmoxStarted, stoppedAt := stoppedAt)])
    case DeferForProvider(id) => Deferred(s, id)
    case AwaitApproval(id) => AwaitingApproval(s, id)
    case StorePlan(id) => s.(plans := s.plans + {s.jobs[id].deployment.value})
    case DropPlan(id) => s.(plans := s.plans - {s.jobs[id].deployment.value})
    case ClearWait(id) => WaitCleared(s, s.jobs[id].deployment.value)
    case Finish(id, outcome, rollbackDestroyed, submitted) => FinishJob(s, id, outcome, rollbackDestroyed, submitted)
    case FinishAndRecover(id, submitted, recovery) => Recovered(s, id, submitted, recovery)
    case PerformDelete(id) => PerformDeletion(s, s.jobs[id].blueprint.value)
    case RequeueDelete(id) => s.(jobs := s.jobs[id := s.jobs[id].(status := Queued)])
  }

  // ----- Dispatcher and scheduler -----

  ghost predicate DispatcherEnabled(s: State, e: DispatcherStep) {
    match e
    case Scheduled(id, op, d, playbooks, _) =>
      && op in {TerraformPlan, TerraformApply, TerraformDestroy}
      && d in s.deployments
      && s.deployments[d].status != Destroyed
      && s.deployments[d].active.None?
      && (op == TerraformApply ==> !s.deployments[d].released && !s.deployments[d].planOnly)
      && CanEnqueue(s, id, ScheduledJob(s, op, d, playbooks))
    case ReapCancelled(id) => Working(s, id) && s.jobs[id].cancelRequested
    case ReapStale(id) => id in s.jobs && s.jobs[id].status == Running && !s.jobs[id].cancelRequested
    case ReapStaleAndResume(id, newId) =>
      && Owns(s, id)
      && s.jobs[id].status == Running
      && !s.jobs[id].cancelRequested
      && Provisioning(s.jobs[id].operation)
      && newId !in s.jobs
    case ExpireApproval(id, _) => id in s.jobs && s.jobs[id].status == WaitingApproval && !s.jobs[id].cancelRequested
    case Resync(d) => d in s.deployments && s.deployments[d].active.Some?
    case Quarantine(id) => id in s.jobs && Live(s.jobs[id].status)
    case ForgetReleases(d) => d in s.deployments
  }

  ghost function DispatcherNext(s: State, e: DispatcherStep): State
    requires DispatcherEnabled(s, e)
  {
    match e
    case Scheduled(id, op, d, playbooks, gated) => NewJob(s, id, ScheduledJob(s, op, d, playbooks), gated)
    case ReapCancelled(id) =>
      Settle(s, id, s.jobs[id].(status := Cancelled),
             if MutatesTerraform(s.jobs[id].operation) then ReconciliationRequired else CancelledD, false)
    case ReapStale(id) => Settle(s, id, s.jobs[id].(status := Failed), FailedD, false)
    case ReapStaleAndResume(id, newId) => Resumed(s, id, newId)
    case ExpireApproval(id, hasResource) => Expire(s, id, hasResource)
    case Resync(d) => s.(deployments := s.deployments[d := Resynced(s, d)])
    case Quarantine(id) => Settle(s, id, s.jobs[id].(status := Failed), ReconciliationRequired, false)
    case ForgetReleases(d) => s.(deployments := s.deployments[d := s.deployments[d].(released := false)])
  }

  ghost predicate Enabled(s: State, e: Step) {
    match e
    case Api(a) => ApiEnabled(s, a)
    case Worker(w) => WorkerEnabled(s, w)
    case Dispatcher(x) => DispatcherEnabled(s, x)
  }

  ghost function Next(s: State, e: Step): State
    requires Enabled(s, e)
  {
    match e
    case Api(a) => ApiNext(s, a)
    case Worker(w) => WorkerNext(s, w)
    case Dispatcher(x) => DispatcherNext(s, x)
  }

  // ----- Runs -----

  ghost predicate Initial(s: State) {
    s.jobs == map[] && s.deployments == map[] && s.plans == {}
  }

  ghost predicate IsRun(states: seq<State>, steps: seq<Step>) {
    && |states| == |steps| + 1
    && Initial(states[0])
    && forall i :: 0 <= i < |steps| ==> RunStep(states, steps, i)
  }

  ghost predicate RunStep(states: seq<State>, steps: seq<Step>, i: nat)
    requires i < |steps| && |states| == |steps| + 1
  {
    Enabled(states[i], steps[i]) && states[i + 1] == Next(states[i], steps[i])
  }
}
