/**
 A worker that outlives its job: the dispatcher has ended the job, the worker does not know. Its
 final status write is part of every run. Four other writes ask nothing about the job's status
 either; for each the exact condition is given under which what all runs keep survives it.
 */
module LateWrites {
  import opened Wrappers
  import opened PlaybookCatalog
  import opened JobStore
  import opened JobHistory
  import opened JobInvariants
  import opened Reconciliation
  import opened BlueprintDeletion

  ghost predicate Ended(s: State, id: JobId) {
    id in s.jobs && !Live(s.jobs[id].status)
  }

  /** The deployment of the job is known and no job is active on it. */
  ghost predicate DeploymentIsFree(s: State, id: JobId)
    requires id in s.jobs && s.jobs[id].deployment.Some?
  {
    var d := s.jobs[id].deployment.value;
    d in s.deployments && s.deployments[d].active.None?
  }

  /** The two writes that make an ended job live and active again. */
  ghost predicate Revives(s: State, t: State, id: JobId)
    requires id in s.jobs && s.jobs[id].deployment.Some?
  {
    t == Deferred(s, id) || t == AwaitingApproval(s, id)
  }

  /** The deployment keeps one live job exactly when no other job has become active meanwhile. */
  lemma RevivalKeepsOneLive(s: State, t: State, id: JobId)
    requires OneLive(s) && Ended(s, id) && s.jobs[id].deployment.Some? && Revives(s, t, id)
    ensures OneLive(t) <==> DeploymentIsFree(s, id)
  {
    var d := s.jobs[id].deployment.value;
    if d !in s.deployments {
      assert !Owns(t, id);
    } else if s.deployments[d].active.Some? {
      var other := s.deployments[d].active.value;
      assert ActiveIsLive(s, d);
      assert !Owns(t, other);
    } else {
      FreeRevivalKeepsOneLive(s, t, id, d);
    }
  }

  lemma FreeRevivalKeepsOneLive(s: State, t: State, id: JobId, d: DeploymentId)
    requires OneLive(s) && Ended(s, id) && s.jobs[id].deployment == Some(d) && Revives(s, t, id)
    requires d in s.deployments && s.deployments[d].active.None?
    ensures OneLive(t)
  {
    forall j | j in t.jobs && Live(t.jobs[j].status) && t.jobs[j].deployment.Some? ensures Owns(t, j) {
      if j != id {
        assert Owns(s, j);
      }
    }
    forall x | x in t.deployments && t.deployments[x].active.Some? ensures ActiveIsLive(t, x) {
      if x != d {
        assert ActiveIsLive(s, x);
      }
    }
  }

  /** A destroyed deployment stays destroyed exactly when the revived job is not its own. */
  lemma RevivalKeepsDestroyed(s: State, t: State, id: JobId, x: DeploymentId)
    requires Ended(s, id) && s.jobs[id].deployment.Some? && Revives(s, t, id) && IsDestroyed(s, x)
    ensures IsDestroyed(t, x) <==> s.jobs[id].deployment != Some(x)
  {
  }

  /** An ended job made live again stays properly linked exactly when it has not been retried. */
  lemma RestartKeepsLinked(s: State, t: State, id: JobId)
    requires Linked(s) && Ended(s, id) && id in t.jobs && Live(t.jobs[id].status)
    requires t.jobs == s.jobs[id := s.jobs[id].(status := t.jobs[id].status)]
    ensures Linked(t) <==> forall j :: j in s.jobs ==> s.jobs[j].retryOf != Some(id)
  {
    if j :| j in s.jobs && s.jobs[j].retryOf == Some(id) {
      RetriedIsAnother(s, j, id);
      assert !LinkedJob(t.jobs, t.jobs[j]);
    } else {
      forall j | j in t.jobs ensures LinkedJob(t.jobs, t.jobs[j]) {
        assert LinkedJob(s.jobs, s.jobs[j]);
      }
    }
  }

  /** Retry chains stay linked exactly when the revived job has not been retried. */
  lemma RevivalKeepsLinked(s: State, t: State, id: JobId)
    requires Linked(s) && Ended(s, id) && s.jobs[id].deployment.Some? && Revives(s, t, id)
    ensures Linked(t) <==> forall j :: j in s.jobs ==> s.jobs[j].retryOf != Some(id)
  {
    RestartKeepsLinked(s, t, id);
  }

  lemma RetriedIsAnother(s: State, j: JobId, id: JobId)
    requires Linked(s) && j in s.jobs && s.jobs[j].retryOf == Some(id)
    ensures j != id
  {
    assert LinkedJob(s.jobs, s.jobs[j]);
  }

  /** A deployment keeps owing a plan exactly when the revived job is not its own or is that plan. */
  lemma RevivalKeepsDebt(s: State, t: State, id: JobId, d: DeploymentId)
    requires OneLive(s) && Ended(s, id) && s.jobs[id].deployment.Some? && Revives(s, t, id) && Owed(s, d)
    ensures Owed(t, d) <==> (s.jobs[id].deployment == Some(d) ==> IsReconcilingPlan(s.jobs[id]))
  {
    if s.jobs[id].deployment == Some(d) {
      assert Owns(t, id);
    } else if s.deployments[d].active.Some? {
      assert PlansFor(t, s.deployments[d].active.value, d);
    }
  }

  predicate IsReconcilingPlan(job: Job) {
    job.operation == TerraformPlan && job.previousStatus == Some(ReconciliationRequired)
  }

  /** The jobs that block a delete become more exactly when the revived job provisions that blueprint. */
  lemma RevivalKeepsBlocking(s: State, t: State, id: JobId, b: BlueprintId)
    requires Ended(s, id) && s.jobs[id].deployment.Some? && Revives(s, t, id)
    ensures Blocking(t, b) <= Blocking(s, b) <==> !(Provisioning(s.jobs[id].operation) && s.jobs[id].blueprint == Some(b))
  {
    assert id !in Blocking(s, b);
    assert id in Blocking(t, b) <==> Provisioning(s.jobs[id].operation) && s.jobs[id].blueprint == Some(b);
    forall j | j in Blocking(t, b) && j != id ensures j in Blocking(s, b) {}
  }

  /** Everything the transactions of a run keep, plus the two guarantees they keep step by step. */
  ghost predicate Harmless(s: State, t: State) {
    && Consistent(t)
    && (forall x :: IsDestroyed(s, x) ==> IsDestroyed(t, x))
    && (forall x :: Owed(s, x) ==> Owed(t, x))
    && (forall b :: Blocking(t, b) <= Blocking(s, b))
  }

  /** What has to be looked at before a job may be put back. */
  ghost predicate MayRevive(s: State, id: JobId)
    requires id in s.jobs && s.jobs[id].deployment.Some?
  {
    var job := s.jobs[id];
    && DeploymentIsFree(s, id)
    && !IsDestroyed(s, job.deployment.value)
    && (Owed(s, job.deployment.value) ==> IsReconcilingPlan(job))
    && !(Provisioning(job.operation) && job.blueprint.Some?)
    && forall j :: j in s.jobs ==> s.jobs[j].retryOf != Some(id)
  }

  /** A late deferral or pause does no harm exactly when all of that holds. */
  lemma RevivalIsHarmless(s: State, t: State, id: JobId)
    requires Consistent(s) && Ended(s, id) && s.jobs[id].deployment.Some? && Revives(s, t, id)
    ensures Harmless(s, t) <==> MayRevive(s, id)
  {
    var d := s.jobs[id].deployment.value;
    RevivalKeepsOneLive(s, t, id);
    RevivalKeepsLinked(s, t, id);
    forall x | IsDestroyed(s, x) ensures IsDestroyed(t, x) <==> x != d {
      RevivalKeepsDestroyed(s, t, id, x);
    }
    forall x | Owed(s, x) ensures Owed(t, x) <==> (x == d ==> IsReconcilingPlan(s.jobs[id])) {
      RevivalKeepsDebt(s, t, id, x);
    }
    forall b ensures Blocking(t, b) <= Blocking(s, b) <==> !(Provisioning(s.jobs[id].operation) && s.jobs[id].blueprint == Some(b)) {
      RevivalKeepsBlocking(s, t, id, b);
    }
    if s.jobs[id].blueprint.Some? {
      assert Blocking(t, s.jobs[id].blueprint.value) <= Blocking(s, s.jobs[id].blueprint.value) <==>
             !Provisioning(s.jobs[id].operation);
    }
  }

  // ----- The final status -----

  /** Written late it changes the job row only, keeps every invariant, and replaces the status the job ended with. */
  lemma LateFinish(s: State, id: JobId, outcome: JobStatus, rollbackDestroyed: bool, submitted: bool)
    requires Consistent(s) && Ended(s, id) && outcome in {Successful, Failed, Cancelled}
    ensures FinishJob(s, id, outcome, rollbackDestroyed, submitted) == s.(jobs := s.jobs[id := s.jobs[id].(status := outcome)])
    ensures Consistent(FinishJob(s, id, outcome, rollbackDestroyed, submitted))
    ensures FinishJob(s, id, outcome, rollbackDestroyed, submitted) == s <==> s.jobs[id].status == outcome
  {
    EndedOwnsNothing(s, id);
    StatusOverwritten(s, s.(jobs := s.jobs[id := s.jobs[id].(status := outcome)]), id, outcome);
  }

  lemma StatusOverwritten(s: State, t: State, id: JobId, outcome: JobStatus)
    requires Consistent(s) && Ended(s, id) && !Live(outcome) && t == s.(jobs := s.jobs[id := s.jobs[id].(status := outcome)])
    ensures Consistent(t) && (t == s <==> s.jobs[id].status == outcome)
  {
    RowUpdateKeepsOneLive(s, t, id, t.jobs[id]);
    RowUpdateEvolves(s, t, id, t.jobs[id]);
    EvolvingKeepsLinked(s, t);
  }

  // ----- The delete job put back in the queue -----

  ghost function Requeued(s: State, id: JobId): State
    requires id in s.jobs
  {
    s.(jobs := s.jobs[id := s.jobs[id].(status := Queued)])
  }

  /** An ended delete job put back is a second one exactly when another is pending. */
  lemma LateRequeue(s: State, id: JobId, b: BlueprintId)
    requires Consistent(s) && Ended(s, id) && s.jobs[id].operation == BlueprintDelete && s.jobs[id].blueprint == Some(b)
    requires SingleDelete(s, b)
    ensures OneLive(Requeued(s, id))
    ensures SingleDelete(Requeued(s, id), b) <==> !DeletePending(s, b)
    ensures Linked(Requeued(s, id)) <==> forall j :: j in s.jobs ==> s.jobs[j].retryOf != Some(id)
    ensures Blocking(Requeued(s, id), b) == Blocking(s, b)
    ensures Requeued(s, id).deployments == s.deployments
  {
    var t := Requeued(s, id);
    assert LinkedJob(s.jobs, s.jobs[id]);
    RowUpdateKeepsOneLive(s, t, id, t.jobs[id]);
    RestartKeepsLinked(s, t, id);
    assert IsPendingDelete(t, id, b);
    forall j ensures IsPendingDelete(t, j, b) <==> j == id || IsPendingDelete(s, j, b) {}
  }

  // ----- Checkpoints -----

  function WithCheckpoint(job: Job, runtime: Runtime, proxmoxStarted: bool): Job {
    job.(runtime := runtime, proxmoxStarted := proxmoxStarted)
  }

  ghost function Recorded(s: State, id: JobId, runtime: Runtime, proxmoxStarted: bool): State
    requires id in s.jobs
  {
    s.(jobs := s.jobs[id := WithCheckpoint(s.jobs[id], runtime, proxmoxStarted)])
  }

  /** The retry has all that the checkpoint records. */
  predicate HasCheckpoint(retry: Job, runtime: Runtime) {
    SafeResume(retry) && runtime.completed <= retry.runtime.completed
  }

  /** Checkpoints of an ended job, of the workflow or of the direct provisioning, reach its retries only if they had them already. */
  lemma LateCheckpoint(s: State, id: JobId, runtime: Runtime, proxmoxStarted: bool)
    requires Linked(s) && Ended(s, id) && RuntimeGrows(s.jobs[id].runtime, runtime) && (s.jobs[id].proxmoxStarted ==> proxmoxStarted)
    ensures Linked(Recorded(s, id, runtime, proxmoxStarted)) <==>
            (SafeResume(WithCheckpoint(s.jobs[id], runtime, proxmoxStarted)) ==>
               forall j :: j in s.jobs && s.jobs[j].retryOf == Some(id) ==> HasCheckpoint(s.jobs[j], runtime))
  {
    var t := Recorded(s, id, runtime, proxmoxStarted);
    forall j | j in s.jobs
      ensures LinkedJob(t.jobs, t.jobs[j]) <==>
              (s.jobs[j].retryOf == Some(id) && SafeResume(t.jobs[id]) ==> HasCheckpoint(s.jobs[j], runtime))
    {
      LateCheckpointAt(s, id, runtime, proxmoxStarted, j);
    }
  }

  lemma LateCheckpointAt(s: State, id: JobId, runtime: Runtime, proxmoxStarted: bool, j: JobId)
    requires Linked(s) && Ended(s, id) && RuntimeGrows(s.jobs[id].runtime, runtime) && (s.jobs[id].proxmoxStarted ==> proxmoxStarted)
    requires j in s.jobs
    ensures var t := Recorded(s, id, runtime, proxmoxStarted);
            LinkedJob(t.jobs, t.jobs[j]) <==>
            (s.jobs[j].retryOf == Some(id) && SafeResume(t.jobs[id]) ==> HasCheckpoint(s.jobs[j], runtime))
  {
    assert LinkedJob(s.jobs, s.jobs[j]);
    if s.jobs[j].retryOf == Some(id) {
      RetriedIsAnother(s, j, id);
    }
    if j == id && s.jobs[j].retryOf.Some? {
      RetriedIsAnother(s, j, s.jobs[j].retryOf.value);
    }
  }
}
