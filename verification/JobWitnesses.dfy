/**
 Runs from an empty store in which a property fails. Each is given state by state; every step is
 checked on its own.
 */
module JobWitnesses {
  import opened Wrappers
  import opened PlaybookCatalog
  import opened JobStore
  import opened JobHistory
  import opened JobInvariants
  import opened Reconciliation
  import opened BlueprintDeletion
  import opened LateWrites

  // ----- One deployment "d" of blueprint 1 and its jobs -----

  function Row(status: DeploymentStatus, active: Option<JobId>): Deployment {
    Deployment(status, active, Some(1), false, false, false)
  }

  function Work(op: Operation, status: JobStatus, previous: DeploymentStatus): Job {
    FirstJob(op, Some("d"), if Provisioning(op) then Some(1) else None, []).(status := status, previousStatus := Some(previous))
  }

  function Store(jobs: map<JobId, Job>, row: Deployment, plans: set<DeploymentId>): State {
    State(jobs, map["d" := row], plans, {1}, Catalog({}, map[], {}))
  }

  const EMPTY := State(map[], map[], {}, {1}, Catalog({}, map[], {}))

  /** The run goes from one state to the next by this step. */
  ghost predicate Leads(s: State, e: Step, t: State) {
    Enabled(s, e) && t == Next(s, e)
  }

  const EXECUTE := Api(Execute("first", "d", 1, false, false, [], false))

  function Executed(): State {
    Store(map["first" := Work(TerraformApply, Queued, QueuedD)], Row(QueuedD, Some("first")), {})
  }

  lemma ExecuteLeads()
    ensures Leads(EMPTY, EXECUTE, Executed())
  {
    var base := ExecuteJob("d", 1, false, []);
    assert Snapshotted(EMPTY.catalog, base.snapshots, base.playbooks) == Some(map[]);
    assert CanOpen(EMPTY, "first", "d", NewRow(Some(1), false, false), base);
  }

  function Claimed(): State {
    Store(map["first" := Work(TerraformApply, Running, QueuedD)], Row(RunningD, Some("first")), {})
  }

  lemma ClaimLeads()
    ensures Leads(Executed(), Worker(Claim("first")), Claimed())
  {
  }

  /** A new job on a free deployment, beside the ended first one. */
  lemma CreateLeads(first: Job, row: Deployment, id: JobId, op: Operation)
    requires !Live(first.status) && row.active.None? && row.blueprint == Some(1) && !row.planOnly && !row.released
    requires row.status != Destroyed && (row.status == ReconciliationRequired ==> op == TerraformPlan)
    requires id != "first" && op != BlueprintDelete
    ensures Leads(Store(map["first" := first], row, {}), Api(Create(id, op, Some("d"), false, [], false)),
                  Store(map["first" := first, id := Work(op, Queued, row.status)], row.(status := QueuedD, active := Some(id)), {}))
  {
    var s := Store(map["first" := first], row, {});
    var base := CreateBase(s, op, Some("d"), false, []);
    assert Snapshotted(s.catalog, base.snapshots, base.playbooks) == Some(map[]);
    assert base == FirstJob(op, Some("d"), if Provisioning(op) then Some(1) else None, []);
    assert CanCreate(s, id, base);
    assert Prepared(s, base, false) == Work(op, Queued, row.status);
  }

  // ----- A refused retry drops the plan another job waits for -----

  function Cancelled1(): Job {
    Work(TerraformApply, Cancelled, QueuedD).(cancelRequested := true)
  }

  lemma CancelLeads()
    ensures Leads(Executed(), Api(Cancel("first")), Store(map["first" := Cancelled1()], Row(CancelledD, None), {}))
  {
  }

  function Second(status: JobStatus, row: DeploymentStatus, plans: set<DeploymentId>): State {
    Store(map["first" := Cancelled1(), "second" := Work(TerraformApply, status, CancelledD)], Row(row, Some("second")), plans)
  }

  lemma SecondLeads()
    ensures Leads(Second(Queued, QueuedD, {}), Worker(Claim("second")), Second(Running, RunningD, {}))
    ensures Leads(Second(Running, RunningD, {}), Worker(StorePlan("second")), Second(Running, RunningD, {"d"}))
    ensures Leads(Second(Running, RunningD, {"d"}), Worker(AwaitApproval("second")), Second(WaitingApproval, WaitingApprovalD, {"d"}))
  {
  }

  lemma RefusalLeads()
    ensures Leads(Second(WaitingApproval, WaitingApprovalD, {"d"}), Api(Retry("first", "third", false)),
                  Second(WaitingApproval, WaitingApprovalD, {}))
  {
    var s := Second(WaitingApproval, WaitingApprovalD, {"d"});
    assert PlansAfterRetry(s, "first") == {};
    assert !Admissible(s.(plans := {}), TerraformApply, Some("d"));
  }

  /** The retry creates nothing, yet the plan the active job waits to apply is gone. */
  lemma RefusedRetryCanDropPlan() returns (states: seq<State>, steps: seq<Step>)
    ensures IsRun(states, steps) && |steps| == 7 && steps[6] == Api(Retry("first", "third", false))
    ensures Owns(states[6], "second") && states[6].jobs["second"].status == WaitingApproval
    ensures states[7].jobs == states[6].jobs && states[7].deployments == states[6].deployments
    ensures "d" in states[6].plans && "d" !in states[7].plans
  {
    ExecuteLeads();
    CancelLeads();
    CreateLeads(Cancelled1(), Row(CancelledD, None), "second", TerraformApply);
    SecondLeads();
    RefusalLeads();
    states := [EMPTY, Executed(), Store(map["first" := Cancelled1()], Row(CancelledD, None), {}), Second(Queued, QueuedD, {}),
               Second(Running, RunningD, {}), Second(Running, RunningD, {"d"}),
               Second(WaitingApproval, WaitingApprovalD, {"d"}), Second(WaitingApproval, WaitingApprovalD, {})];
    steps := [EXECUTE, Api(Cancel("first")), Api(Create("second", TerraformApply, Some("d"), false, [], false)),
              Worker(Claim("second")), Worker(StorePlan("second")), Worker(AwaitApproval("second")), Api(Retry("first", "third", false))];
    RunOfSteps(states, steps);
  }

  lemma RunOfSteps(states: seq<State>, steps: seq<Step>)
    requires |states| == |steps| + 1 && states[0] == EMPTY
    requires forall i :: 0 <= i < |steps| ==> Leads(states[i], steps[i], states[i + 1])
    ensures IsRun(states, steps)
  {
    forall i | 0 <= i < |steps| ensures RunStep(states, steps, i) {
      assert Leads(states[i], steps[i], states[i + 1]);
    }
  }

  // ----- Reconciliation left without a successful plan -----

  function Failed1(): Job {
    Work(TerraformApply, Failed, QueuedD)
  }

  /** The provider was asked to change something and the outcome is unknown. */
  lemma FailureLeads()
    ensures Leads(Claimed(), Worker(Finish("first", Failed, false, true)), Indebted())
  {
  }

  function Planned(status: JobStatus, row: DeploymentStatus, active: Option<JobId>): State {
    Store(map["first" := Failed1(), "plan" := Work(TerraformPlan, status, ReconciliationRequired)], Row(row, active), {})
  }

  lemma PlanIsCreated()
    ensures Leads(Indebted(), Api(Create("plan", TerraformPlan, Some("d"), false, [], false)), Planned(Queued, QueuedD, Some("plan")))
  {
    CreateLeads(Failed1(), Row(ReconciliationRequired, None), "plan", TerraformPlan);
  }

  lemma PlanLeads()
    ensures Leads(Planned(Queued, QueuedD, Some("plan")), Worker(Claim("plan")), Planned(Running, RunningD, Some("plan")))
  {
  }

  lemma StalePlanLeads()
    ensures Leads(Planned(Running, RunningD, Some("plan")), Dispatcher(ReapStale("plan")), Planned(Failed, FailedD, None))
  {
  }

  /** No job has ever succeeded. */
  ghost predicate NoSuccess(s: State) {
    forall j :: j in s.jobs ==> s.jobs[j].status != Successful
  }

  function Indebted(): State {
    Store(map["first" := Failed1()], Row(ReconciliationRequired, None), {})
  }

  lemma DebtOfPlan()
    ensures Owed(Indebted(), "d") && Owed(Planned(Running, RunningD, Some("plan")), "d")
    ensures !Owed(Planned(Failed, FailedD, None), "d")
    ensures Admissible(Planned(Failed, FailedD, None), TerraformDestroy, Some("d")) && NoSuccess(Planned(Failed, FailedD, None))
  {
    assert PlansFor(Planned(Running, RunningD, Some("plan")), "plan", "d");
  }

  function StalePlanStates(): seq<State> {
    [EMPTY, Executed(), Claimed(), Indebted(), Planned(Queued, QueuedD, Some("plan")),
     Planned(Running, RunningD, Some("plan")), Planned(Failed, FailedD, None)]
  }

  function StalePlanSteps(): seq<Step> {
    [EXECUTE, Worker(Claim("first")), Worker(Finish("first", Failed, false, true)),
     Api(Create("plan", TerraformPlan, Some("d"), false, [], false)), Worker(Claim("plan")), Dispatcher(ReapStale("plan"))]
  }

  lemma StalePlanRun()
    ensures IsRun(StalePlanStates(), StalePlanSteps())
  {
    ExecuteLeads();
    ClaimLeads();
    FailureLeads();
    PlanIsCreated();
    PlanLeads();
    StalePlanLeads();
    RunOfSteps(StalePlanStates(), StalePlanSteps());
  }

  /** A plan job that went stale: the debt is gone, nothing has ever succeeded, and a destroy is admitted. */
  lemma StalePlanDischarges() returns (states: seq<State>, steps: seq<Step>)
    ensures IsRun(states, steps) && |steps| == 6 && steps[5] == Dispatcher(ReapStale("plan"))
    ensures Owed(states[3], "d") && Owed(states[5], "d") && !Owed(states[6], "d")
    ensures NoSuccess(states[6]) && Admissible(states[6], TerraformDestroy, Some("d"))
  {
    StalePlanRun();
    DebtOfPlan();
    states, steps := StalePlanStates(), StalePlanSteps();
  }

  // ----- A worker that outlives its job -----

  lemma StaleLeads()
    ensures Leads(Claimed(), Dispatcher(ReapStale("first")), Store(map["first" := Failed1()], Row(FailedD, None), {}))
  {
  }

  function Replaced(): State {
    Store(map["first" := Failed1(), "second" := Work(TerraformApply, Queued, FailedD)], Row(QueuedD, Some("second")), {})
  }

  /** The first worker defers or pauses its reaped job after another one was queued: two live jobs. */
  lemma LateRevivalDoublesJobs() returns (states: seq<State>, steps: seq<Step>)
    ensures IsRun(states, steps) && |steps| == 4 && steps[2] == Dispatcher(ReapStale("first"))
    ensures Owns(states[4], "second")
    ensures Ended(states[4], "first") && states[4].jobs["first"].deployment == Some("d") && !states[4].jobs["first"].cancelRequested
    ensures !OneLive(Deferred(states[4], "first")) && !OneLive(AwaitingApproval(states[4], "first"))
  {
    ExecuteLeads();
    ClaimLeads();
    StaleLeads();
    CreateLeads(Failed1(), Row(FailedD, None), "second", TerraformApply);
    states := [EMPTY, Executed(), Claimed(), Store(map["first" := Failed1()], Row(FailedD, None), {}), Replaced()];
    steps := [EXECUTE, Worker(Claim("first")), Dispatcher(ReapStale("first")),
              Api(Create("second", TerraformApply, Some("d"), false, [], false))];
    RunOfSteps(states, steps);
    RunIsConsistent(states, steps, 4);
    RevivalKeepsOneLive(states[4], Deferred(states[4], "first"), "first");
    RevivalKeepsOneLive(states[4], AwaitingApproval(states[4], "first"), "first");
  }

  /** Or after the deployment was finalised as missing: it is no longer destroyed. */
  lemma LateRevivalUndoesDestroyed() returns (states: seq<State>, steps: seq<Step>)
    ensures IsRun(states, steps) && |steps| == 4 && IsDestroyed(states[4], "d")
    ensures Ended(states[4], "first") && states[4].jobs["first"].deployment == Some("d") && !states[4].jobs["first"].cancelRequested
    ensures !IsDestroyed(Deferred(states[4], "first"), "d") && !IsDestroyed(AwaitingApproval(states[4], "first"), "d")
  {
    ExecuteLeads();
    ClaimLeads();
    StaleLeads();
    var s, t := Store(map["first" := Failed1()], Row(FailedD, None), {}), Store(map["first" := Failed1()], Row(Destroyed, None), {});
    assert Leads(s, Api(FinaliseMissing("d")), t);
    states := [EMPTY, Executed(), Claimed(), s, t];
    steps := [EXECUTE, Worker(Claim("first")), Dispatcher(ReapStale("first")), Api(FinaliseMissing("d"))];
    RunOfSteps(states, steps);
    RevivalKeepsDestroyed(t, Deferred(t, "first"), "first", "d");
    RevivalKeepsDestroyed(t, AwaitingApproval(t, "first"), "first", "d");
  }

  function Stopping(): State {
    Store(map["first" := Work(TerraformApply, Cancelling, QueuedD).(cancelRequested := true)], Row(CancellingD, Some("first")), {})
  }

  function Abandoned(): State {
    Store(map["first" := Cancelled1()], Row(ReconciliationRequired, None), {})
  }

  lemma AbandonLeads()
    ensures Leads(Claimed(), Api(Cancel("first")), Stopping())
    ensures Leads(Stopping(), Dispatcher(ReapCancelled("first")), Abandoned())
  {
  }

  /** The cancelled job was given up and left a debt; its worker pauses for approval and the debt is gone. */
  lemma LatePauseEndsDebt() returns (states: seq<State>, steps: seq<Step>)
    ensures IsRun(states, steps) && |steps| == 4 && steps[3] == Dispatcher(ReapCancelled("first"))
    ensures Ended(states[4], "first") && states[4].jobs["first"].deployment == Some("d") && DeploymentIsFree(states[4], "first")
    ensures Owed(states[4], "d") && !Owed(AwaitingApproval(states[4], "first"), "d")
  {
    ExecuteLeads();
    ClaimLeads();
    AbandonLeads();
    states := [EMPTY, Executed(), Claimed(), Stopping(), Abandoned()];
    steps := [EXECUTE, Worker(Claim("first")), Api(Cancel("first")), Dispatcher(ReapCancelled("first"))];
    RunOfSteps(states, steps);
    RunIsConsistent(states, steps, 4);
    RevivalKeepsDebt(states[4], AwaitingApproval(states[4], "first"), "first", "d");
  }

  function Removed(): State {
    Store(map["first" := Failed1()], Row(FailedD, None), {}).(blueprints := {})
  }

  lemma RemoveLeads()
    ensures Leads(Store(map["first" := Failed1()], Row(FailedD, None), {}), Api(DeleteBlueprint(1, "delete")), Removed())
  {
    var s := Store(map["first" := Failed1()], Row(FailedD, None), {});
    assert !DeletePending(s, 1) && Blocking(s, 1) == {};
  }

  /** The blueprint was removed after its job went stale; the worker defers and a job of it is live again. */
  lemma LateDeferralRevivesRemoved() returns (states: seq<State>, steps: seq<Step>)
    ensures IsRun(states, steps) && |steps| == 4 && steps[3] == Api(DeleteBlueprint(1, "delete"))
    ensures Disciplined(states, steps, 1)
    ensures 1 !in states[4].blueprints && Blocking(states[4], 1) == {}
    ensures Ended(states[4], "first") && states[4].jobs["first"].deployment == Some("d") && !states[4].jobs["first"].cancelRequested
    ensures "first" in Blocking(Deferred(states[4], "first"), 1)
  {
    ExecuteLeads();
    ClaimLeads();
    StaleLeads();
    RemoveLeads();
    states := [EMPTY, Executed(), Claimed(), Store(map["first" := Failed1()], Row(FailedD, None), {}), Removed()];
    steps := [EXECUTE, Worker(Claim("first")), Dispatcher(ReapStale("first")), Api(DeleteBlueprint(1, "delete"))];
    RunOfSteps(states, steps);
    NothingBlocksStale();
    forall n | 0 <= n < |steps| ensures DisciplinedAt(states, steps, 1, n) {
      assert Leads(states[n], steps[n], states[n + 1]);
    }
  }

  lemma NothingBlocksStale()
    ensures Blocking(Store(map["first" := Failed1()], Row(FailedD, None), {}), 1) == {} && Blocking(Removed(), 1) == {}
    ensures "first" in Blocking(Deferred(Removed(), "first"), 1)
  {
  }

  // ----- Deletes of blueprint 1 -----

  function DeleteJob(status: JobStatus): Job {
    FirstJob(BlueprintDelete, None, Some(1), []).(status := status, cancelRequested := status == Cancelled)
  }

  lemma DeleteLeads(jobs: map<JobId, Job>, id: JobId)
    requires "first" in jobs && jobs["first"] == Work(TerraformApply, Queued, QueuedD) && id !in jobs
    requires !DeletePending(Store(jobs, Row(QueuedD, Some("first")), {}), 1)
    ensures Leads(Store(jobs, Row(QueuedD, Some("first")), {}), Api(DeleteBlueprint(1, id)),
                  Store(jobs[id := DeleteJob(Queued)], Row(QueuedD, Some("first")), {}))
  {
    assert "first" in Blocking(Store(jobs, Row(QueuedD, Some("first")), {}), 1);
  }

  function Deleting(): State {
    Store(map["first" := Work(TerraformApply, Queued, QueuedD), "delete" := DeleteJob(Queued)], Row(QueuedD, Some("first")), {})
  }

  function Unblocked(): State {
    Store(map["first" := Cancelled1(), "delete" := DeleteJob(Queued)], Row(CancelledD, None), {})
  }

  lemma UnblockLeads()
    ensures Leads(Deleting(), Api(Cancel("first")), Unblocked())
  {
  }

  function Again(): Job {
    Work(TerraformApply, Queued, CancelledD).(retryOf := Some("first"), attempt := 2)
  }

  function Bypassed(): State {
    Store(map["first" := Cancelled1(), "delete" := DeleteJob(Queued), "again" := Again()], Row(QueuedD, Some("again")), {})
  }

  lemma BypassLeads()
    ensures Leads(Unblocked(), Api(Retry("first", "again", false)), Bypassed())
  {
    var s := Unblocked();
    var base := RetryPayload("first", Cancelled1());
    assert s.(plans := PlansAfterRetry(s, "first")) == s;
    assert Snapshotted(s.catalog, base.snapshots, base.playbooks) == Some(map[]);
    assert CanCreate(s, "again", base);
    assert Prepared(s, base, false) == Again();
  }

  /** Nothing blocks the pending delete any more; a retry, which takes no blueprint lock, blocks it again. */
  lemma RetryBypassesDelete() returns (states: seq<State>, steps: seq<Step>)
    ensures IsRun(states, steps) && |steps| == 4 && steps[3] == Api(Retry("first", "again", false))
    ensures IsPendingDelete(states[3], "delete", 1) && Blocking(states[3], 1) == {}
    ensures IsPendingDelete(states[4], "delete", 1) && Blocking(states[4], 1) == {"again"}
  {
    ExecuteLeads();
    assert !DeletePending(Executed(), 1);
    DeleteLeads(Executed().jobs, "delete");
    UnblockLeads();
    BypassLeads();
    states := [EMPTY, Executed(), Deleting(), Unblocked(), Bypassed()];
    steps := [EXECUTE, Api(DeleteBlueprint(1, "delete")), Api(Cancel("first")), Api(Retry("first", "again", false))];
    RunOfSteps(states, steps);
  }

  function Withdrawn(): State {
    Store(map["first" := Work(TerraformApply, Queued, QueuedD), "delete" := DeleteJob(Cancelled)], Row(QueuedD, Some("first")), {})
  }

  lemma WithdrawLeads()
    ensures Leads(Deleting(), Api(Cancel("delete")), Withdrawn())
  {
  }

  function Renewed(): State {
    Store(Withdrawn().jobs["later" := DeleteJob(Queued)], Row(QueuedD, Some("first")), {})
  }

  function Doubled(): State {
    Store(Renewed().jobs["again" := DeleteJob(Queued).(retryOf := Some("delete"), attempt := 2)], Row(QueuedD, Some("first")), {})
  }

  lemma DoubleLeads()
    ensures Leads(Renewed(), Api(Retry("delete", "again", false)), Doubled())
  {
    var s := Renewed();
    var base := RetryPayload("delete", DeleteJob(Cancelled));
    assert s.jobs["delete"] == DeleteJob(Cancelled) && s.(plans := PlansAfterRetry(s, "delete")) == s;
    assert Snapshotted(s.catalog, base.snapshots, base.playbooks) == Some(map[]);
    assert CanCreate(s, "again", base);
    assert Prepared(s, base, false) == DeleteJob(Queued).(retryOf := Some("delete"), attempt := 2);
  }

  /** A withdrawn delete, asked for again and then also retried: two delete jobs are pending. */
  lemma RetryDoublesDelete() returns (states: seq<State>, steps: seq<Step>)
    ensures IsRun(states, steps) && |steps| == 5 && steps[4] == Api(Retry("delete", "again", false))
    ensures SingleDelete(states[4], 1) && !SingleDelete(states[5], 1)
  {
    ExecuteLeads();
    assert !DeletePending(Executed(), 1);
    DeleteLeads(Executed().jobs, "delete");
    WithdrawLeads();
    assert !DeletePending(Withdrawn(), 1);
    DeleteLeads(Withdrawn().jobs, "later");
    DoubleLeads();
    states := [EMPTY, Executed(), Deleting(), Withdrawn(), Renewed(), Doubled()];
    steps := [EXECUTE, Api(DeleteBlueprint(1, "delete")), Api(Cancel("delete")), Api(DeleteBlueprint(1, "later")),
              Api(Retry("delete", "again", false))];
    RunOfSteps(states, steps);
    assert IsPendingDelete(Doubled(), "later", 1) && IsPendingDelete(Doubled(), "again", 1);
  }
}
