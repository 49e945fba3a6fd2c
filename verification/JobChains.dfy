/**
 Chains of attempts: the operation is constant, the attempt number is the depth, a job is never its
 own ancestor, and what a provider checkpoint recorded is kept by every later attempt.
 */
module JobChains {
  import opened Wrappers
  import opened PlaybookCatalog
  import opened JobStore
  import opened JobHistory
  import opened JobInvariants

  /** `chain` lists jobs from the first attempt on, each retrying the one before. */
  ghost predicate IsChain(s: State, chain: seq<JobId>) {
    && chain != []
    && (forall i :: 0 <= i < |chain| ==> chain[i] in s.jobs)
    && s.jobs[chain[0]].retryOf.None?
    && forall i, j :: 0 <= i && j == i + 1 && j < |chain| ==> s.jobs[chain[j]].retryOf == Some(chain[i])
  }

  /** The attempts that led to a job. */
  ghost function ChainOf(s: State, id: JobId): (chain: seq<JobId>)
    requires Linked(s) && id in s.jobs
    ensures IsChain(s, chain) && chain[|chain| - 1] == id
    ensures |chain| == s.jobs[id].attempt
    decreases s.jobs[id].attempt
  {
    var job := s.jobs[id];
    assert LinkedJob(s.jobs, job);
    if job.retryOf.None? then [id] else ChainOf(s, job.retryOf.value) + [id]
  }

  /** Position and attempt number agree, whatever way the chain is presented. */
  lemma {:induction false} AttemptIsDepth(s: State, chain: seq<JobId>, i: nat)
    requires Linked(s) && IsChain(s, chain) && i < |chain|
    ensures s.jobs[chain[i]].attempt == i + 1
  {
    assert LinkedJob(s.jobs, s.jobs[chain[i]]);
    if i > 0 {
      AttemptIsDepth(s, chain, i - 1);
      assert s.jobs[chain[i]].retryOf == Some(chain[i - 1]);
    }
  }

  /** So a chain visits no job twice, and every job has exactly one chain. */
  lemma ChainIsAcyclic(s: State, chain: seq<JobId>, i: nat, k: nat)
    requires Linked(s) && IsChain(s, chain) && i < k < |chain|
    ensures chain[i] != chain[k]
  {
    AttemptIsDepth(s, chain, i);
    AttemptIsDepth(s, chain, k);
  }

  lemma {:induction false} ChainIsUnique(s: State, a: seq<JobId>, b: seq<JobId>)
    requires Linked(s) && IsChain(s, a) && IsChain(s, b) && a[|a| - 1] == b[|b| - 1]
    ensures a == b
    decreases |a|
  {
    AttemptIsDepth(s, a, |a| - 1);
    AttemptIsDepth(s, b, |b| - 1);
    if |a| > 1 {
      var i := |a| - 2;
      assert s.jobs[a[i + 1]].retryOf == Some(a[i]) && s.jobs[b[i + 1]].retryOf == Some(b[i]);
      ChainIsUnique(s, a[..|a| - 1], b[..|b| - 1]);
      assert a == a[..|a| - 1] + [a[|a| - 1]] && b == b[..|b| - 1] + [b[|b| - 1]];
    }
  }

  /** What an earlier attempt passes on to a later one. */
  ghost predicate Inherits(earlier: Job, later: Job) {
    && later.operation == earlier.operation
    && later.deployment == earlier.deployment
    && later.blueprint == earlier.blueprint
    && SnapshotsKept(earlier.snapshots, later.snapshots)
    && (SafeResume(earlier) ==> SafeResume(later) && earlier.runtime.completed <= later.runtime.completed)
  }

  lemma {:induction false} ChainInherits(s: State, chain: seq<JobId>, i: nat, k: nat)
    requires Linked(s) && IsChain(s, chain) && i <= k < |chain|
    ensures Inherits(s.jobs[chain[i]], s.jobs[chain[k]])
    decreases k
  {
    if i < k {
      ChainInherits(s, chain, i, k - 1);
      assert LinkedJob(s.jobs, s.jobs[chain[k]]);
      assert s.jobs[chain[k]].retryOf == Some(chain[k - 1]);
    }
  }

  /** Ended jobs are frozen, so what they recorded is still there at any later point of the run. */
  lemma {:induction false} RunEvolves(states: seq<State>, steps: seq<Step>, i: nat, k: nat, id: JobId)
    requires IsRun(states, steps) && i <= k < |states| && id in states[i].jobs
    ensures id in states[k].jobs && Kept(states[i].jobs[id], states[k].jobs[id])
    decreases k
  {
    if i < k {
      RunEvolves(states, steps, i, k - 1, id);
      RunIsConsistent(states, steps, k - 1);
      assert RunStep(states, steps, k - 1);
      StepEvolves(states[k - 1], steps[k - 1]);
    }
  }

  /**
   Over any run, with any edits to the catalog: once an attempt, running or ended, has a provider
   checkpoint, every later attempt of its chain has one too, keeps its completed steps and snapshots.
   */
  lemma CheckpointsSurvive(states: seq<State>, steps: seq<Step>, i: nat, k: nat, id: JobId, chain: seq<JobId>, p: nat, q: nat)
    requires IsRun(states, steps) && i <= k < |states|
    requires id in states[i].jobs
    requires IsChain(states[k], chain) && p <= q < |chain| && chain[p] == id
    ensures Inherits(states[i].jobs[id], states[k].jobs[chain[q]])
    ensures states[k].jobs[chain[q]].attempt == states[i].jobs[id].attempt + (q - p)
  {
    RunIsConsistent(states, steps, k);
    RunEvolves(states, steps, i, k, id);
    ChainInherits(states[k], chain, p, q);
    AttemptIsDepth(states[k], chain, p);
    AttemptIsDepth(states[k], chain, q);
  }

  // ----- The stored plan -----

  /** A retry, refused or not, drops the deployment's plan exactly when the job is not safe to resume. */
  lemma RetryKeepsPlan(s: State, id: JobId, newId: JobId, gated: bool, d: DeploymentId)
    requires id in s.jobs && s.jobs[id].deployment == Some(d) && d in s.deployments && d in s.plans
    ensures d in RetryJob(s, id, newId, gated).plans <==> SafeResume(s.jobs[id])
    ensures RetryJob(s, id, newId, gated).plans - {d} == s.plans - {d}
  {
  }

  /** Hence no retry further down a checkpointed chain drops the plan. */
  lemma CheckpointedChainKeepsPlan(s: State, chain: seq<JobId>, i: nat, k: nat, newId: JobId, gated: bool)
    requires Linked(s) && IsChain(s, chain) && i <= k < |chain| && SafeResume(s.jobs[chain[i]])
    ensures RetryJob(s, chain[k], newId, gated).plans == s.plans
  {
    ChainInherits(s, chain, i, k);
  }
}
