/**
 Deleting a blueprint while it is being provisioned: the delete waits in a job, new executions are
 refused meanwhile, and the blueprint goes only when no provisioning job of it is left.
 */
module BlueprintDeletion {
  import opened Wrappers
  import opened PlaybookCatalog
  import opened JobStore
  import opened JobHistory
  import opened JobInvariants

  ghost predicate SingleDelete(s: State, b: BlueprintId) {
    forall j, k :: IsPendingDelete(s, j, b) && IsPendingDelete(s, k, b) ==> j == k
  }

  /** Jobs that were there before can leave the blocking set but not join it. */
  lemma OldJobsDoNotJoin(s: State, t: State, b: BlueprintId, j: JobId)
    requires Grown(s, t) && j in s.jobs
    ensures j in Blocking(t, b) ==> j in Blocking(s, b)
    ensures IsPendingDelete(t, j, b) ==> IsPendingDelete(s, j, b)
  {
  }

  lemma NothingAdded(s: State, t: State, b: BlueprintId)
    requires Grown(s, t) && t.jobs.Keys == s.jobs.Keys
    ensures Blocking(t, b) <= Blocking(s, b)
    ensures forall j :: IsPendingDelete(t, j, b) ==> IsPendingDelete(s, j, b)
  {
  }

  /** What a transaction adds: nothing, or one live job that is described here once for all. */
  ghost function Added(s: State, e: Step): Option<(JobId, Operation, Option<BlueprintId>)>
    requires Enabled(s, e)
  {
    match e
    case Api(Create(id, op, d, payloadGiven, _, _)) =>
      var inherits := op in {TerraformApply, ProxmoxProvision} && !payloadGiven && d.Some? && d.value in s.deployments;
      Some((id, op, if inherits then s.deployments[d.value].blueprint else None))
    case Api(Execute(id, _, b, direct, _, _, _)) => Some((id, if direct then ProxmoxProvision else TerraformApply, Some(b)))
    case Api(CreateDeployment(id, _, _, _)) => Some((id, TerraformApply, None))
    case Api(Adopt(id, _, _)) => Some((id, TerraformImport, None))
    case Api(DeleteBlueprint(b, id)) =>
      if DeletePending(s, b) || Blocking(s, b) == {} then None else Some((id, BlueprintDelete, Some(b)))
    case Api(Retry(id, newId, _)) =>
      if CanCreate(s.(plans := PlansAfterRetry(s, id)), newId, RetryPayload(id, s.jobs[id]))
      then Some((newId, s.jobs[id].operation, s.jobs[id].blueprint)) else None
    case Api(AcceptAwx(id, newId, _, _)) => Some((newId, s.jobs[id].operation, s.jobs[id].blueprint))
    case Worker(FinishAndRecover(id, _, recovery)) =>
      Some((recovery, if s.jobs[id].operation == ProxmoxProvision then ProxmoxDestroy else TerraformDestroy, None))
    case Dispatcher(Scheduled(id, op, d, _, _)) => Some((id, op, if op == TerraformApply then s.deployments[d].blueprint else None))
    case Dispatcher(ReapStaleAndResume(id, newId)) => Some((newId, s.jobs[id].operation, s.jobs[id].blueprint))
    case _ => None
  }

  ghost predicate Describes(s: State, t: State, added: Option<(JobId, Operation, Option<BlueprintId>)>) {
    match added
    case None => t.jobs.Keys == s.jobs.Keys
    case Some((id, op, blueprint)) =>
      id !in s.jobs && t.jobs.Keys == s.jobs.Keys + {id}
      && t.jobs[id].operation == op && t.jobs[id].blueprint == blueprint && Live(t.jobs[id].status)
  }

  lemma ApiAdds(s: State, e: ApiStep)
    requires ApiEnabled(s, e)
    ensures Describes(s, ApiNext(s, e), Added(s, Api(e)))
  {
  }

  lemma WorkerAdds(s: State, e: WorkerStep)
    requires WorkerEnabled(s, e)
    ensures Describes(s, WorkerNext(s, e), Added(s, Worker(e)))
  {
  }

  lemma DispatcherAdds(s: State, e: DispatcherStep)
    requires DispatcherEnabled(s, e)
    ensures Describes(s, DispatcherNext(s, e), Added(s, Dispatcher(e)))
  {
  }

  lemma StepAdds(s: State, e: Step)
    requires Enabled(s, e)
    ensures Describes(s, Next(s, e), Added(s, e))
  {
    match e
    case Api(a) => ApiAdds(s, a);
    case Worker(w) => WorkerAdds(s, w);
    case Dispatcher(x) => DispatcherAdds(s, x);
  }

  // ----- The blocking set -----

  /** The transaction starts a provisioning job of the blueprint. */
  ghost predicate Admits(s: State, e: Step, b: BlueprintId)
    requires Enabled(s, e)
  {
    Added(s, e).Some? && Provisioning(Added(s, e).value.1) && Added(s, e).value.2 == Some(b)
  }

  lemma AddedJobDecides(s: State, t: State, id: JobId, b: BlueprintId)
    requires Grown(s, t) && id !in s.jobs && t.jobs.Keys == s.jobs.Keys + {id} && Live(t.jobs[id].status)
    ensures Blocking(t, b) <= Blocking(s, b) <==> !(Provisioning(t.jobs[id].operation) && t.jobs[id].blueprint == Some(b))
  {
    forall j | j in Blocking(t, b) && j != id ensures j in Blocking(s, b) {
      OldJobsDoNotJoin(s, t, b, j);
    }
    assert id !in Blocking(s, b);
    assert id in Blocking(t, b) <==> Provisioning(t.jobs[id].operation) && t.jobs[id].blueprint == Some(b);
  }

  /** The blocking set shrinks in every transaction except the ones that start a provisioning job. */
  lemma BlockingShrinks(s: State, e: Step, b: BlueprintId)
    requires Linked(s) && Enabled(s, e)
    ensures Blocking(Next(s, e), b) <= Blocking(s, b) <==> !Admits(s, e, b)
  {
    StepEvolves(s, e);
    StepAdds(s, e);
    var t := Next(s, e);
    if Added(s, e).None? {
      NothingAdded(s, t, b);
    } else {
      AddedJobDecides(s, t, Added(s, e).value.0, b);
    }
  }

  // ----- One delete job -----

  ghost predicate RetriesDelete(s: State, e: Step, b: BlueprintId)
    requires Enabled(s, e)
  {
    e.Api? && e.api.Retry? && Added(s, e).Some? && Added(s, e).value.1 == BlueprintDelete && Added(s, e).value.2 == Some(b)
  }

  lemma RetryLeavesOthers(s: State, id: JobId, newId: JobId, gated: bool, j: JobId)
    requires id in s.jobs && j in s.jobs && j != newId
    ensures j in RetryJob(s, id, newId, gated).jobs && RetryJob(s, id, newId, gated).jobs[j] == s.jobs[j]
  {
  }

  lemma NoDeleteAdded(s: State, t: State, b: BlueprintId)
    requires Grown(s, t) && SingleDelete(s, b)
    requires forall j :: IsPendingDelete(t, j, b) ==> j in s.jobs
    ensures SingleDelete(t, b)
  {
    forall j | IsPendingDelete(t, j, b) ensures IsPendingDelete(s, j, b) {
      OldJobsDoNotJoin(s, t, b, j);
    }
  }

  lemma FirstDeleteAdded(s: State, t: State, b: BlueprintId, id: JobId)
    requires Grown(s, t) && !DeletePending(s, b)
    requires forall j :: IsPendingDelete(t, j, b) ==> j in s.jobs || j == id
    ensures SingleDelete(t, b)
  {
    forall j | IsPendingDelete(t, j, b) ensures j == id {
      if j in s.jobs {
        OldJobsDoNotJoin(s, t, b, j);
      }
    }
  }

  lemma SecondDeleteIsRetried(s: State, e: Step, b: BlueprintId)
    requires Enabled(s, e) && DeletePending(s, b) && Describes(s, Next(s, e), Added(s, e))
    requires Added(s, e).Some? && Added(s, e).value.1 == BlueprintDelete && Added(s, e).value.2 == Some(b)
    ensures RetriesDelete(s, e, b) && !SingleDelete(Next(s, e), b)
  {
    var other :| IsPendingDelete(s, other, b);
    RetryLeavesOthers(s, e.api.id, e.api.newId, e.api.gated, other);
    assert IsPendingDelete(Next(s, e), other, b) && IsPendingDelete(Next(s, e), Added(s, e).value.0, b);
  }

  /** A second pending delete of a blueprint appears exactly when a delete job is retried beside a pending one. */
  lemma SingleDeleteKept(s: State, e: Step, b: BlueprintId)
    requires Linked(s) && Enabled(s, e) && SingleDelete(s, b)
    ensures SingleDelete(Next(s, e), b) <==> !(RetriesDelete(s, e, b) && DeletePending(s, b))
  {
    StepEvolves(s, e);
    StepAdds(s, e);
    var t := Next(s, e);
    var added := Added(s, e);
    if added.None? || !(added.value.1 == BlueprintDelete && added.value.2 == Some(b)) {
      NoDeleteAdded(s, t, b);
    } else if !DeletePending(s, b) {
      FirstDeleteAdded(s, t, b, added.value.0);
    } else {
      SecondDeleteIsRetried(s, e, b);
    }
  }

  // ----- Removal -----

  lemma ApiRemoval(s: State, e: ApiStep, b: BlueprintId)
    requires ApiEnabled(s, e) && b in s.blueprints && b !in ApiNext(s, e).blueprints
    ensures e.DeleteBlueprint? && e.blueprint == b && !DeletePending(s, b)
    ensures Blocking(s, b) == {} && ApiNext(s, e).jobs == s.jobs
  {
  }

  lemma WorkerRemoval(s: State, e: WorkerStep, b: BlueprintId)
    requires WorkerEnabled(s, e) && b in s.blueprints && b !in WorkerNext(s, e).blueprints
    ensures e.PerformDelete? && IsPendingDelete(s, e.id, b)
    ensures Blocking(s, b) == {} && WorkerNext(s, e).jobs == s.jobs
  {
  }

  /** A blueprint is removed only in a step that saw none of its provisioning jobs alive. */
  lemma RemovalSawNoWork(s: State, e: Step, b: BlueprintId)
    requires Enabled(s, e) && b in s.blueprints && b !in Next(s, e).blueprints
    ensures Blocking(s, b) == {} && Blocking(Next(s, e), b) == {}
    ensures || (e.Api? && e.api.DeleteBlueprint? && e.api.blueprint == b && !DeletePending(s, b))
            || (e.Worker? && e.worker.PerformDelete? && IsPendingDelete(s, e.worker.id, b))
  {
    match e
    case Api(a) => ApiRemoval(s, a, b);
    case Worker(w) => WorkerRemoval(s, w, b);
    case Dispatcher(_) =>
  }

  // ----- Runs -----

  /** No transaction of the run starts a provisioning or a delete job of `b` without locking its row. */
  ghost predicate Disciplined(states: seq<State>, steps: seq<Step>, b: BlueprintId)
    requires IsRun(states, steps)
  {
    forall n :: 0 <= n < |steps| ==> DisciplinedAt(states, steps, b, n)
  }

  ghost predicate DisciplinedAt(states: seq<State>, steps: seq<Step>, b: BlueprintId, n: nat)
    requires IsRun(states, steps) && n < |steps|
  {
    assert RunStep(states, steps, n);
    DisciplinedStep(states[n], steps[n], b)
  }

  ghost predicate DisciplinedStep(s: State, e: Step, b: BlueprintId)
    requires Enabled(s, e)
  {
    (Admits(s, e, b) ==> e.Api? && e.api.Execute?) && !RetriesDelete(s, e, b)
  }

  /** A removed blueprint has no provisioning job left, and at most one delete job is ever pending. */
  lemma {:induction false} DeletionIsSafe(states: seq<State>, steps: seq<Step>, b: BlueprintId, i: nat)
    requires IsRun(states, steps) && Disciplined(states, steps, b) && i < |states|
    ensures SingleDelete(states[i], b)
    ensures b !in states[i].blueprints ==> Blocking(states[i], b) == {}
  {
    if i > 0 {
      var s, e := states[i - 1], steps[i - 1];
      DeletionIsSafe(states, steps, b, i - 1);
      RunIsConsistent(states, steps, i - 1);
      assert DisciplinedAt(states, steps, b, i - 1) && RunStep(states, steps, i - 1);
      SingleDeleteKept(s, e, b);
      if b !in states[i].blueprints {
        RemovedStaysIdle(s, e, b);
      }
    }
  }

  lemma RemovedStaysIdle(s: State, e: Step, b: BlueprintId)
    requires Linked(s) && Enabled(s, e) && DisciplinedStep(s, e, b)
    requires b !in s.blueprints ==> Blocking(s, b) == {}
    requires b !in Next(s, e).blueprints
    ensures Blocking(Next(s, e), b) == {}
  {
    if b in s.blueprints {
      RemovalSawNoWork(s, e, b);
    } else {
      BlockingShrinks(s, e, b);
    }
  }

  lemma PendingStep(s: State, e: Step, b: BlueprintId)
    requires Linked(s) && Enabled(s, e) && DisciplinedStep(s, e, b) && DeletePending(s, b)
    ensures Blocking(Next(s, e), b) <= Blocking(s, b)
  {
    BlockingShrinks(s, e, b);
  }

  lemma PendingRunStep(states: seq<State>, steps: seq<Step>, b: BlueprintId, n: nat)
    requires IsRun(states, steps) && Disciplined(states, steps, b) && n < |steps| && DeletePending(states[n], b)
    ensures Blocking(states[n + 1], b) <= Blocking(states[n], b)
  {
    RunIsConsistent(states, steps, n);
    assert DisciplinedAt(states, steps, b, n) && RunStep(states, steps, n);
    PendingStep(states[n], steps[n], b);
  }

  /** While a delete is pending no execution starts, so what it waits for only shrinks. */
  lemma {:induction false} PendingDeleteMakesProgress(states: seq<State>, steps: seq<Step>, b: BlueprintId, i: nat, k: nat)
    requires IsRun(states, steps) && Disciplined(states, steps, b) && i <= k < |states|
    requires forall n :: i <= n < k ==> DeletePending(states[n], b)
    ensures Blocking(states[k], b) <= Blocking(states[i], b)
    decreases k
  {
    if i < k {
      PendingDeleteMakesProgress(states, steps, b, i, k - 1);
      PendingRunStep(states, steps, b, k - 1);
    }
  }

  /** Retry takes no blueprint lock: it puts a provisioning job back while the delete is waiting. */
  lemma RetryGrowsBlocking(s: State, id: JobId, newId: JobId, gated: bool, b: BlueprintId)
    requires Linked(s) && ApiEnabled(s, Retry(id, newId, gated)) && Provisioning(s.jobs[id].operation)
    requires s.jobs[id].blueprint == Some(b)
    requires CanCreate(s.(plans := PlansAfterRetry(s, id)), newId, RetryPayload(id, s.jobs[id]))
    ensures newId in Blocking(RetryJob(s, id, newId, gated), b) - Blocking(s, b)
  {
    ApiAdds(s, Retry(id, newId, gated));
  }
}
