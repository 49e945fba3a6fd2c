# Cloudportal backend: a verified model

This project models six parts of the Cloudportal infrastructure backend in Dafny and proves what
they promise over every input, every run or every reachable state.

- **Workflow graphs.** A blueprint's steps form a dependency graph. The validator checks it for
  cycles and type order (`CycleCheck`, `CloudInit`, `BlueprintDag`); executing without AWX splices
  the `register_awx` steps out of it (`AwxSplice`, `Contraction`, `SpliceMeaning`); the worker sorts
  what is left (`WorkflowOrder`, `ExecutionOrder`). `StepOrder` says what acceptance means for each
  step type. `Graph` and `Workflow` hold the shared notions.
- **Instance fence.** Any number of normal operations against draining exclusive operations, with
  two locks, two lock variants and failures everywhere (`InstanceFence`).
- **Inventory.** Synchronising VM and resource rows from Terraform state, the repair pass over all
  deployments, and the removal of VMs confirmed missing (`InventorySync`, `InventoryRepair`,
  `InventoryRuns`).
- **Jobs.** Jobs, deployments and blueprints as rows changed by API, worker, dispatcher and scheduler
  transactions (`JobStore`), the rows each of them leaves (`JobOutcomes`), the API handlers as they
  update rows in place (`JobApi`), and what all runs keep: history and retry chains (`JobHistory`,
  `JobChains`), one live job per deployment (`JobInvariants`), adopted deployments (`Adoption`),
  reconciliation (`Reconciliation`), blueprint deletion (`BlueprintDeletion`), playbook snapshots
  (`PlaybookCatalog`) and idempotency keys (`Idempotency`). `LateWrites` treats workers that outlive
  their job, and `JobWitnesses` holds runs from an empty store in which a property fails.
- **Updater.** The key=value file editor (`KeyValueFile`), all-or-nothing TLS activation
  (`TlsActivation`), the thread lock (`UpdateLock`), worker scaling (`WorkerCapacity`) and the retry
  quarantine (`UpdateCooldown`).
- **Address pools and avatars.** CIDR arithmetic after section 3.1 of RFC 4632 (`Cidr`, `Ipam`), pool
  creation as concurrent transactions (`PoolRace`), Base
  64 after section 4 of RFC 4648 and the ICO avatar normaliser (`Base64`, `AvatarIcon`, `AvatarStore`).

Code that updates rows, files or lists in place is modelled by classes and loops; each method is
proved equal to a specification function, and the properties are lemmas about those functions.
Protocols are transition systems over unbounded sets of processes. Clocks, the network, providers,
subprocesses and hashing enter as parameters: an outcome, a failure point, an injective fingerprint.

`dafny verify dfyconfig.toml` checks the whole project.

## Where the code does less than it seems to promise

Each of these has a lemma with the exact condition under which the property holds.

- A `terraform_destroy` step accepted as rollback-only can lose its last referrer when AWX is
  declined: `SpliceMeaning.DestroyStaysRollbackOnly`, `ExecutionOrder.DecliningCanExposeDestroy`.
- The repair pass reports a deployment as skipped although its rows were written, when the quota
  step fails after the synchronisation, and no later pass of any run repeats that step:
  `InventoryRuns.SkippedLeavesRows`, `InventoryRuns.QuotaFailureIsNotAtomic`,
  `InventoryRuns.QuotaFailureIsForgotten`.
- A retry that is refused has already deleted the deployment's stored plan, in a transaction of its
  own: `JobChains.RetryKeepsPlan`, `JobWitnesses.RefusedRetryCanDropPlan`.
- `reconciliation_required` can be left without a successful plan through the dispatcher (a stale or
  abandoned plan job, an expired approval), through a scheduled apply or destroy, and through a worker
  that pauses or defers a job after it was given up: `Reconciliation.StepOwed`,
  `LateWrites.RevivalKeepsDebt`, `JobWitnesses.StalePlanDischarges`, `JobWitnesses.LatePauseEndsDebt`.
- A worker that outlives its job writes without asking. A late deferral or pause revives the job: the
  deployment can get two live jobs, a destroyed deployment comes back, a debt of reconciliation is
  dropped, a removed blueprint has a live job again, and a retried job becomes live under its retry.
  `LateWrites.RevivalIsHarmless` gives the exact condition under which none of this happens;
  `JobWitnesses.LateRevivalDoublesJobs`, `JobWitnesses.LateRevivalUndoesDestroyed`,
  `JobWitnesses.LatePauseEndsDebt` and `JobWitnesses.LateDeferralRevivesRemoved` are runs that lead
  there. A late final status only replaces the status the job ended with (`LateWrites.LateFinish`), a
  late requeue can make a second delete job (`LateWrites.LateRequeue`), and late checkpoints may be
  missing from a retry (`LateWrites.LateCheckpoint`).
- Retention deletes idempotency records after some days, and then the same key is carried out again:
  `Idempotency.AtMostOnce`, `Idempotency.DeletedKeyRunsAgain`.
- Retries and other job launches do not lock the blueprint row, so the jobs a pending delete waits
  for can become more, and a second delete job can appear: `BlueprintDeletion.BlockingShrinks`,
  `BlueprintDeletion.SingleDeleteKept`, `JobWitnesses.RetryBypassesDelete`,
  `JobWitnesses.RetryDoublesDelete`.
- The overlap query of a new pool locks nothing, so pools created at the same time can overlap:
  `PoolRace.DisjointKept`, `PoolRace.OverlapNeedsRace`, `PoolRace.RaceCanOverlap`.
- The TLS endpoints look for a running update before they take the lock: `UpdateLock.OverlapArises`,
  `UpdateLock.TlsCanOverlapUpdate`. A failing status report after a completed activation raises
  without undoing it: the outcome `StatusFailed` of `TlsActivation.Host.Activate`.
- The rollback of a worker scaling ignores failing stop and disable commands, and a failing restore
  write skips it: `WorkerCapacity.Pool.EnsureWorkerCapacity` states exactly when the units are as before.
- The key=value editor reads back what it wrote exactly for entries that fit on one line:
  `KeyValueFile.SetThenParse`.

## Model

| member | source | states |
|---|---|---|
| `CycleCheck.Visitor.Visit` | app/api/schemas.py:937-946 | one depth-first visit: marks the step and all it reaches, restores the visiting set, and reports a cycle or a missing step only when there is one; terminates on every graph |
| `CycleCheck.RevisitIsCycle` | app/api/schemas.py:938-939 | a step met again while being visited depends on itself |
| `CycleCheck.CheckGraph` | app/automation/cloud_init.py:41-57 | accepts exactly the graphs whose dependencies are all known and that have a topological rank, in whatever order the steps are visited |
| `CycleCheck.Ancestors` | app/api/schemas.py:951-960 | the work list returns exactly the transitive dependencies, duplicates in the list included |
| `CloudInit.EveryStepFollows` | app/automation/cloud_init.py:59-80 | true exactly when every step of the given types depends on the anchor step |
| `CloudInit.Validate` | app/automation/cloud_init.py:27-81 | selected exactly when the first-boot contract holds, not selected exactly when there is no cloud_init step, refused otherwise |
| `BlueprintDag.CheckGraphRules` | app/api/schemas.py:878-949 | true exactly for distinct nonempty ids, known dependencies and no cycle |
| `BlueprintDag.CheckRollbackRules` | app/api/schemas.py:962-977 | true exactly when rollback targets exist, differ from their step, have a safe type, stand apart from the graph, and terraform_destroy is only a target |
| `BlueprintDag.CheckApprovalRules` | app/api/schemas.py:981-994 | true exactly when the approval and plan step rules hold |
| `BlueprintDag.CheckDirectOrder` | app/api/schemas.py:1011-1023 | true exactly when the direct-Proxmox steps depend on clone and start on cloud_init; `StepOrder.DirectRulesMean` names the step types |
| `BlueprintDag.CheckTerraformOrder` | app/api/schemas.py:1038-1053 | true exactly when plan, approval, apply and runtime steps depend on each other in that order; `StepOrder.TerraformRulesMean` names the step types |
| `BlueprintDag.CheckExecutorRules` | app/api/schemas.py:996-1053 | true exactly when the rules of the chosen executor hold |
| `BlueprintDag.Validate` | app/api/schemas.py:878-1072 | accepts exactly the blueprints that meet every rule; the `StepOrder` lemmas say what each rule asks of which step types |
| `BlueprintDag.AcceptedIsWellOrdered` | app/api/schemas.py:996-1053 | acceptance makes every later-type step depend on every earlier-type step |
| `BlueprintDag.AcceptedGraph` | app/api/schemas.py:878-977 | an accepted workflow is a closed acyclic graph with rollback targets apart from it and terraform_destroy only as a target |
| `AwxSplice.Expand` | app/api/automation.py:1082-1093 | the recursive expansion, terminating on cyclic removed steps too |
| `AwxSplice.ExpansionExact` | app/api/automation.py:1082-1093 | the expansion holds exactly the kept steps reachable through removed steps |
| `AwxSplice.SpliceDependencies` | app/api/automation.py:1099-1103 | the inner loops compute the spliced dependency list |
| `AwxSplice.ExecutionWorkflowSteps` | app/api/automation.py:1066-1105 | returns the spliced steps exactly when AWX is offered and declined, the steps unchanged otherwise |
| `SpliceMeaning.SplicedDependenciesExact` | app/api/automation.py:1099-1103 | a spliced list has no duplicates and holds exactly the expansions of the original one |
| `SpliceMeaning.UntouchedListStays` | app/api/automation.py:1099-1103 | a list without removed steps and duplicates stays as it is, in its order |
| `SpliceMeaning.DeclinedIsContraction` | app/api/automation.py:1066-1105 | declining AWX contracts the dependency graph by the register_awx steps |
| `SpliceMeaning.SplicedKeepsSteps` | app/api/automation.py:1095-1105 | the other steps stay in order and change nothing but their dependency lists |
| `SpliceMeaning.DecliningKeepsDependencies` | app/api/automation.py:1066-1105 | for two kept steps, transitive dependency is the same before and after |
| `SpliceMeaning.DecliningKeepsGraph` | app/api/automation.py:1066-1105 | unique ids, known dependencies and acyclicity survive; no dependency names a removed step; rewritten lists have no duplicates |
| `SpliceMeaning.DecliningKeepsOrder` | app/api/automation.py:1066-1105 | every type order accepted at save time holds in the snapshot |
| `SpliceMeaning.DestroyStaysRollbackOnly` | app/api/schemas.py:976-977 | terraform_destroy stays rollback-only exactly when a kept step names each such step |
| `Contraction.ContractionKeepsDependencies` | app/api/automation.py:1082-1105 | contraction of any graph by any set of nodes preserves reachability between the other nodes |
| `Contraction.ContractionKeepsRank` | app/api/automation.py:1082-1105 | contraction preserves acyclicity |
| `WorkflowOrder.OrderedWorkflowSteps` | app/automation/workflow.py:12-43 | sorts exactly the lists with distinct, known, acyclic steps; the result is a permutation in which every step follows its dependencies |
| `WorkflowOrder.PlaceLayer` | app/automation/workflow.py:32-42 | one layer places every ready row and keeps the sorting invariant |
| `WorkflowOrder.StuckMeansCycle` | app/automation/workflow.py:37-38 | an empty layer with steps pending means there is no topological rank |
| `WorkflowOrder.DependenciesComeEarlier` | app/automation/workflow.py:28-43 | in every respecting order all transitive dependencies come earlier |
| `ExecutionOrder.AcceptedRunsInOrder` | app/api/schemas.py:996-1053 | in every order respecting depends_on an accepted workflow runs cloud_init, plan, approval, apply or clone, and runtime steps in that order |
| `ExecutionOrder.DeclinedRunsInOrder` | app/api/automation.py:1066-1105 | the same for the steps left after AWX is declined |
| `ExecutionOrder.PlanExecution` | app/automation/workflow.py:12-43 | every accepted blueprint has an execution order, with or without AWX, and it keeps the type order |
| `ExecutionOrder.DecliningCanExposeDestroy` | app/api/automation.py:1066-1105 | an accepted blueprint whose terraform_destroy is nobody's rollback target after AWX is declined |
| `StepOrder.TerraformRulesMean` | app/api/schemas.py:1024-1053 | the Terraform rules hold exactly when there is one terraform_apply, no clone_vm, configure_vm or start_vm, cloud_init is plain, plan precedes approval and both precede apply, and the eight named step types that need the VM depend on apply |
| `StepOrder.DirectRulesMean` | app/api/schemas.py:999-1023 | the direct rules hold exactly for the proxmox-vm template with one clone_vm, no Terraform or approval step, the eleven named step types after the clone, and start_vm after cloud_init |
| `StepOrder.FirstBootMeans` | app/automation/cloud_init.py:27-81 | the first-boot rule holds exactly with at most one cloud_init, which is plain, and start_vm, terraform_plan and terraform_apply after it |
| `StepOrder.ApprovalRulesMean` | app/api/schemas.py:981-994 | the approval rules hold exactly with at most one approval and one plan, the approval plain and required by the blueprint |
| `StepOrder.OnboardingRulesMean` | app/api/schemas.py:1055-1072 | the onboarding rules hold exactly when the Ansible and AWX steps are there once if configured and never otherwise, and a prompt needs AWX |
| `StepOrder.RollbackRulesMean` | app/api/schemas.py:962-977 | the rollback rules hold exactly when rollbacks name other steps, those are of the three harmless types and outside the graph, and every terraform_destroy is one of them |
| `StepOrder.GraphRulesMean` | app/api/schemas.py:874-949 | the graph rules hold exactly for named, distinct steps with known dependencies and no cycle, and no use of the five reserved variables |
| `StepOrder.TerraformOrder` | app/api/schemas.py:1024-1053 | in an accepted Terraform or OpenTofu blueprint each of the eight named step types depends on apply, and apply on plan and approval |
| `StepOrder.DirectOrder` | app/api/schemas.py:999-1023 | in an accepted direct blueprint each of the eleven named step types depends on the clone |
| `StepOrder.FirstBootOrder` | app/automation/cloud_init.py:69-81 | in an accepted blueprint start_vm, terraform_plan and terraform_apply depend on cloud_init |
| `StepOrder.TerraformRunOrder` | app/api/schemas.py:1038-1053 | in every order respecting depends_on, with AWX declined or not, none of the eight step types runs before apply, nor apply before plan, approval and cloud_init |
| `StepOrder.DirectRunOrder` | app/api/schemas.py:1011-1023 | in every such order none of the eleven step types runs before the clone, nor start_vm before cloud_init |
| `StepOrder.BeforeApply` | app/api/schemas.py:1038-1053 | a step type can stand before terraform_apply in some accepted blueprint exactly when it is cloud_init, terraform_plan, approval, condition, delay or notification |
| `StepOrder.BeforeClone` | app/api/schemas.py:1011-1023 | a step type can stand before clone_vm in some accepted blueprint exactly when it is condition, delay or notification |
| `InstanceFence.StepKeepsInv` | app/instance_operation.py:88-172 | every step, failures included, keeps flags matching phases and the lock table equal to what the processes hold |
| `InstanceFence.RunIsSafe` | app/instance_operation.py:88-172 | in every interleaving of any number of operations, for both variants, an exclusive body is alone, ended operations hold nothing, and the lock table is exact |
| `InstanceFence.WorkersHold` | app/instance_operation.py:88-172 | in every interleaving a normal body runs under the activity lock alone and an exclusive body under both locks |
| `InstanceFence.GateDrains` | app/instance_operation.py:112-130 | while an exclusive operation holds the gate the set of active normal operations only shrinks |
| `InstanceFence.PastGateIsAdmitted` | app/instance_operation.py:89-109 | a normal operation past the gate gets the activity lock without waiting or refusal |
| `InstanceFence.NormalEntry` | app/instance_operation.py:89-109 | a normal operation can take the gate exactly when no exclusive operation has it, and a try is refused only while one has it or asks for it |
| `InstanceFence.ExclusiveEntry` | app/instance_operation.py:112-130 | an exclusive operation can take each lock exactly when no operation holds it |
| `InstanceFence.NoDeadlock` | app/instance_operation.py:88-172 | while an operation is unfinished some operation can advance |
| `InstanceFence.FenceTerminates` | app/instance_operation.py:88-172 | without new arrivals every interleaving ends within the remaining work |
| `InstanceFence.QuietMeansFree` | app/instance_operation.py:88-172 | where nothing can advance, all operations have ended and both locks are free |
| `InventorySync.SyncKeepsTablesValid` | app/inventory_sync.py:58-152 | a successful synchronisation keeps (provider, VM id), deployment and resource keys unique |
| `InventorySync.SyncLeavesOneActiveVm` | app/inventory_sync.py:66-152 | exactly one VM row belongs to the deployment, active and with the identity of the state |
| `InventorySync.SyncRebindsVm` | app/inventory_sync.py:92-152 | a VM row that comes to belong to the deployment has its tenant and project; a new or relinked one also its creator, one without a deployment keeps its own |
| `InventorySync.SyncKeepsBinding` | app/inventory_sync.py:101-152 | a VM row of the deployment keeps tenant, project and creator |
| `InventorySync.SyncLeavesOneResource` | app/inventory_sync.py:103-129 | exactly one resource row belongs to the deployment, active, with its provider, name and address and the external id of the state; only a new row takes its creator |
| `InventorySync.ConflictsExactly` | app/inventory_sync.py:66-90 | no conflict exactly when the row of the identity is free or the deployment's own in the same project, or left behind by a destroyed VM and deployment, and the deployment has no other row |
| `InventorySync.SyncTouchesOneVm` | app/inventory_sync.py:74-152 | other VM rows stay; a row of another deployment is relinked only when its VM is destroyed and its deployment destroyed or gone |
| `InventorySync.SyncTouchesOneResource` | app/inventory_sync.py:103-129 | resource rows of other deployments stay |
| `InventoryRepair.Inventory.Sync` | app/inventory_sync.py:16-160 | in place: errors exactly as specified and before any write, otherwise the specified rows; `InventorySync.SyncRebindsVm` and `InventorySync.SyncLeavesOneResource` say what they hold |
| `InventoryRepair.Inventory.SyncVm` | app/inventory_sync.py:66-152 | the VM row update with its three conflicts; `InventorySync.SyncRebindsVm` says whose the row is afterwards |
| `InventoryRepair.Inventory.SyncResource` | app/inventory_sync.py:103-129 | the resource row is created or rewritten |
| `InventoryRepair.Inventory.RepairOne` | app/inventory_sync.py:174-206 | one deployment of the pass: left alone, repaired or skipped, with its rows |
| `InventoryRepair.VerdictIsExact` | app/inventory_sync.py:174-206 | left alone exactly with all its rows or without a stored state; repaired exactly when the state is readable and not refused and the quota step works |
| `InventoryRepair.Inventory.RepairFromStates` | app/inventory_sync.py:163-208 | the whole pass: rows, repaired and skipped lists |
| `InventoryRepair.Inventory.RemoveConfirmedMissing` | app/api/inventory.py:698-770 | refused for other providers, while the VM is present or its deployment busy; otherwise rows are marked or deleted and the deployment is destroyed |
| `InventoryRuns.SkippedLeavesRows` | app/inventory_sync.py:186-206 | a skipped deployment leaves the rows untouched exactly when its state was not synchronised |
| `InventoryRuns.QuotaFailureIsNotAtomic` | app/inventory_sync.py:191-206 | a table, a deployment and a state for which a failing quota step leaves the row of a repair behind a report of skipped |
| `InventoryRuns.WrittenStaysAnchored` | app/inventory_sync.py:163-208 | whatever was reported, a deployment whose rows were written keeps them to the end of the pass |
| `InventoryRuns.RepairedStaysAnchored` | app/inventory_sync.py:163-208 | a repaired deployment still has its active rows at the end of the pass |
| `InventoryRuns.NextPassLeavesAlone` | app/inventory_sync.py:174-185 | the next pass leaves a repaired deployment alone, whatever the states are by then |
| `InventoryRuns.QuotaFailureIsForgotten` | app/inventory_sync.py:174-206 | in every run of passes, removals and synchronisations a deployment skipped for its quota step is left alone by every later pass, so no pass repeats the step |
| `InventoryRuns.RemovalFinalises` | app/api/inventory.py:729-770 | removing a confirmed-missing VM finalises its deployment |
| `InventoryRuns.RemovalTouchesOwn` | app/api/inventory.py:716-770 | a removal deletes or marks the VM row and the resource rows of its deployment, and leaves every other row |
| `InventoryRuns.EventKeepsValid` | app/api/inventory.py:713-770 | every repair pass, removal and synchronisation keeps the tables valid, so any run can go on |
| `InventoryRuns.FinalisedForever` | app/inventory_sync.py:166-172 | a finalised deployment is never rebuilt by any later sequence of passes, removals and synchronisations of other deployments |
| `InventoryRuns.SettledForever` | app/inventory_sync.py:174-185 | through any passes, removals and synchronisations a deployment with its rows keeps them or is finalised |
| `PlaybookCatalog.SnapshotPayload` | app/catalog.py:280-314 | the loop computes the specified snapshots or the refusal |
| `PlaybookCatalog.SnapshotsAreImmutable` | app/catalog.py:297-306 | snapshots already in a payload survive every later catalog unchanged |
| `PlaybookCatalog.RunsAreCovered` | app/catalog.py:292-306 | every configured run has a snapshot unless its playbook is built in |
| `PlaybookCatalog.NewSnapshotsQuoteCatalog` | app/catalog.py:292-306 | a new snapshot is of a configured, enabled, custom playbook and holds its definition in the catalog |
| `PlaybookCatalog.RefusedExactly` | app/catalog.py:292-306 | a request is refused exactly when one of its runs is disabled, or neither snapshotted nor in the catalog |
| `PlaybookCatalog.CoveredRunsIgnoreCatalog` | app/catalog.py:297-303 | a covered payload comes back as it is from any catalog that admits it |
| `JobApi.Database.NewJob` | app/api/infrastructure.py:678-733 | creates exactly the admissible jobs with snapshots and previous status; a refusal changes nothing |
| `JobApi.Database.ApproveJob` | app/api/infrastructure.py:884-989 | refused unless the job waits and the request is neither expired nor without its plan; a complete approval queues the job and its deployment |
| `JobApi.Database.CancelJob` | app/api/infrastructure.py:1243-1281 | refuses ended jobs; ends pending jobs and puts the deployment back; asks running jobs to stop |
| `JobApi.Database.RetryJob` | app/api/infrastructure.py:1129-1215 | plan deletion, payload and creation of a retry, or the refusal; done exactly when the retry exists, and then it starts from the beginning unless the provider was changed already |
| `JobApi.Database.AcceptAwx` | app/api/infrastructure.py:993-1125 | accepted exactly under the listed conditions, the step still being in the snapshot among them, and then the resumed job |
| `JobOutcomes.RetryStartsOver` | app/api/infrastructure.py:1136-1196 | an accepted retry is the next attempt of the same work; it has no checkpoints unless an apply or provision had changed the provider, and then all of them |
| `JobOutcomes.RetryIsCreated` | app/api/infrastructure.py:678-698 | a retry is created exactly when its deployment is free, not destroyed, owes no plan, and open for the operation, and no playbook is barred |
| `JobOutcomes.AcceptedOnlyAfterProvisioning` | app/api/infrastructure.py:993-1052 | an onboarding is accepted only after a failed apply or provision with an active VM, on a deployment nobody holds |
| `JobOutcomes.AcceptedStepIsCompleted` | app/api/infrastructure.py:1053-1081 | the accepted step and nothing else is added to the completed steps |
| `JobOutcomes.FollowUpJobs` | app/jobs/worker.py:2729-2761 | an automatic resume carries on with all checkpoints; a recovery destroys with the executor that built |
| `JobOutcomes.ReleasedIsNotProvisioned` | app/api/infrastructure.py:678-698 | no transaction but an automatic resume gives an apply or provision to a deployment whose addresses were released |
| `JobOutcomes.NoExecutionWhileDeleting` | app/api/automation.py:1109-1121 | a blueprint is executed only while it exists and no delete of it is unfinished |
| `JobOutcomes.FinishOutcome` | app/jobs/worker.py:2665-2706 | the status a finished job leaves: imported, destroyed, reconciliation required, successful, failed and cancelled each exactly when; addresses go exactly with a destroyed deployment |
| `JobOutcomes.PlanOutcome` | app/jobs/worker.py:2677-2706 | a finished plan puts the deployment back, and a successful one settles reconciliation |
| `JobOutcomes.CancelOutcome` | app/api/infrastructure.py:1243-1281 | a pending job ends and frees its deployment, with its addresses unless it is a plan; a running one is asked to stop; only a waiting one drops the plan |
| `JobOutcomes.ExpiryOutcome` | app/jobs/queue.py:203-286 | an expired approval drops the plan; the job fails after a provider change, else the deployment goes back to a settled status if a resource stands, else everything is given up |
| `JobOutcomes.ReapOutcome` | app/jobs/queue.py:75-136 | a cancelled Terraform change whose worker is gone requires reconciliation; other reaped jobs leave their deployment cancelled or failed; an instance restore requires reconciliation |
| `JobOutcomes.HolderIsShown` | app/api/infrastructure.py:884-989 | claiming, deferring, pausing and approving move the job and its deployment together |
| `JobOutcomes.RemovalOutcome` | app/api/automation.py:1013-1063 | a delete removes the blueprint exactly when no unfinished apply, provision or delete names it, and no other blueprint |
| `JobHistory.StepEvolves` | app/api/infrastructure.py:698-733 | every transaction, late final status writes included, leaves ended jobs ended with all they recorded, only adds checkpoints, and gives birth only to first attempts or next attempts of ended jobs |
| `JobHistory.RetryIsLinked` | app/api/infrastructure.py:1136-1174 | a retry payload inherits operation, deployment, snapshots and, on a safe resume, all checkpoints |
| `JobHistory.AcceptIsLinked` | app/api/infrastructure.py:1053-1081 | an accepted onboarding inherits the same; what it adds is `JobOutcomes.AcceptedStepIsCompleted` |
| `JobHistory.ResumeEvolves` | app/jobs/queue.py:289-323 | an automatic resume ends the stale job and continues its chain |
| `JobInvariants.StepKeepsConsistent` | app/api/infrastructure.py:678-733 | every transaction of the model keeps one live job per deployment, named by the deployment, and the retry links |
| `JobInvariants.OpenKeepsOneLive` | app/api/infrastructure.py:777-813 | opening a deployment with its first job, from a blueprint, directly or by adoption, keeps the invariant |
| `JobInvariants.CancelKeepsOneLive` | app/api/infrastructure.py:1243-1281 | cancelling keeps the invariant |
| `JobInvariants.FinishKeepsOneLive` | app/jobs/worker.py:2665-2706 | finishing a job keeps the invariant |
| `JobInvariants.ExpiryKeepsOneLive` | app/jobs/queue.py:203-286 | expiring an approval keeps the invariant |
| `JobInvariants.ResyncKeepsOneLive` | app/jobs/queue.py:156-200 | the status resync only relabels a deployment whose job is alive |
| `JobInvariants.AtMostOneLiveJob` | app/api/infrastructure.py:683-684 | in every run two live jobs of a deployment are the same job, and it is active_job_id |
| `JobInvariants.DestroyedForever` | app/api/infrastructure.py:683-684 | in every run a destroyed deployment stays destroyed |
| `Adoption.AdoptedIsNeverApplied` | app/api/infrastructure.py:687-688 | in every run no apply job, first or retried, exists on an adopted deployment |
| `LateWrites.RevivalKeepsOneLive` | app/jobs/worker.py:641-675 | a late deferral or pause keeps one live job exactly when no job is active on the deployment |
| `LateWrites.RevivalKeepsDestroyed` | app/jobs/worker.py:1950-1958 | it keeps a destroyed deployment destroyed exactly when the job is not its own |
| `LateWrites.RevivalKeepsLinked` | app/jobs/worker.py:1950-1958 | it keeps the retry links exactly when the job has not been retried |
| `LateWrites.RevivalKeepsDebt` | app/jobs/worker.py:1950-1958 | it keeps a deployment owing a plan exactly when the job is not its own or is that plan |
| `LateWrites.RevivalKeepsBlocking` | app/jobs/worker.py:667-675 | it adds to the jobs that block a delete exactly when the job provisions that blueprint |
| `LateWrites.RevivalIsHarmless` | app/jobs/worker.py:641-675 | the exact condition under which a late deferral or pause keeps the invariants, destroyed deployments, every debt and every blocking set |
| `LateWrites.LateFinish` | app/jobs/worker.py:2649-2706 | a late final status changes nothing but the status the job ended with and keeps every invariant |
| `LateWrites.LateRequeue` | app/jobs/worker.py:2614-2633 | an ended delete job put back in the queue is a second one exactly when another is pending, and stays linked exactly when it was not retried |
| `LateWrites.LateCheckpoint` | app/jobs/worker.py:725-759 | late checkpoints, of the workflow or of direct provisioning, keep the retry chains exactly when every retry already has them |
| `JobWitnesses.LateRevivalDoublesJobs` | app/jobs/worker.py:641-675 | a run after which a late deferral or pause leaves two live jobs on a deployment |
| `JobWitnesses.LateRevivalUndoesDestroyed` | app/jobs/worker.py:641-675 | a run after which it takes a deployment out of destroyed |
| `JobWitnesses.LatePauseEndsDebt` | app/jobs/worker.py:1911-1958 | a run after which a late pause takes a deployment out of reconciliation_required |
| `JobWitnesses.LateDeferralRevivesRemoved` | app/jobs/worker.py:641-675 | a run after which a late deferral gives a removed blueprint a live provisioning job, although every launch locked its row |
| `JobChains.ChainOf` | app/api/infrastructure.py:1187-1196 | every job has a chain of attempts as long as its attempt number |
| `JobChains.AttemptIsDepth` | app/api/infrastructure.py:1187-1196 | position in the chain and attempt number agree |
| `JobChains.ChainIsAcyclic` | app/api/infrastructure.py:1187-1196 | no job is its own ancestor |
| `JobChains.ChainIsUnique` | app/api/infrastructure.py:1187-1196 | a job has exactly one chain |
| `JobChains.ChainInherits` | app/api/infrastructure.py:1136-1174 | operation, deployment and snapshots are constant along a chain, checkpoints are kept once the provider was changed |
| `JobChains.CheckpointsSurvive` | app/api/infrastructure.py:1164-1174 | over any run with any catalog edits, what an attempt recorded, running or ended, is inherited by every later attempt, at the right depth |
| `JobChains.RetryKeepsPlan` | app/api/infrastructure.py:1179-1196 | a retry, refused or not, drops the stored plan exactly when the job is not safe to resume, and no other plan |
| `JobChains.CheckpointedChainKeepsPlan` | app/api/infrastructure.py:1179-1196 | below a checkpointed attempt no retry drops the plan |
| `JobWitnesses.RefusedRetryCanDropPlan` | app/api/infrastructure.py:1179-1196 | a run in which a refused retry drops the plan that another, active job waits to apply |
| `Reconciliation.CancelRestores` | app/api/infrastructure.py:1256-1271 | over any run, cancelling a plan that has not run gives the deployment the status it had when the plan was created, and frees it |
| `Reconciliation.PlanRemembersStatus` | app/api/infrastructure.py:718-719 | a plan job is born with the status of its deployment at that moment |
| `Reconciliation.StepOwed` | app/api/infrastructure.py:678-682 | a transaction ends the need for reconciliation exactly when it is one of the listed discharges |
| `Reconciliation.ExpiryOwed` | app/jobs/queue.py:246-283 | an expired plan approval ends it exactly without an active resource or after a provider change |
| `Reconciliation.FinishOwed` | app/jobs/worker.py:2677-2706 | a finished job ends it exactly when it is a successful plan for the deployment |
| `Reconciliation.DebtNeedsDischarge` | app/api/infrastructure.py:1243-1281 | over any run of transactions it lasts until a discharge; cancelling is none (late revivals: `LateWrites.RevivalKeepsDebt`) |
| `JobWitnesses.StalePlanDischarges` | app/jobs/queue.py:289-323 | a run in which a stale plan ends the need for reconciliation, nothing has ever succeeded, and a destroy is admitted |
| `BlueprintDeletion.BlockingShrinks` | app/automation/deletion.py:35-46 | the blocking set shrinks in a transaction exactly when it starts no provisioning job of the blueprint |
| `BlueprintDeletion.SingleDeleteKept` | app/automation/deletion.py:49-91 | a second pending delete appears exactly when a delete job is retried beside a pending one |
| `BlueprintDeletion.RemovalSawNoWork` | app/automation/deletion.py:116-147 | a blueprint is removed only by a delete step that sees none of its provisioning jobs alive |
| `BlueprintDeletion.DeletionIsSafe` | app/api/automation.py:1019-1063 | in every run whose launches lock the row: at most one pending delete, and a removed blueprint has no live provisioning job (late revivals: `LateWrites.RevivalKeepsBlocking`) |
| `BlueprintDeletion.PendingDeleteMakesProgress` | app/api/automation.py:1113-1121 | in such runs the blocking set only shrinks while a delete is pending (late revivals: `LateWrites.RevivalKeepsBlocking`) |
| `BlueprintDeletion.RetryGrowsBlocking` | app/api/infrastructure.py:1129-1196 | every accepted retry of a provisioning job joins the blocking set |
| `JobWitnesses.RetryBypassesDelete` | app/api/infrastructure.py:1129-1196 | a run in which a retry blocks a pending delete that nothing blocked any more |
| `JobWitnesses.RetryDoublesDelete` | app/api/infrastructure.py:1129-1196 | a run in which a retried delete job becomes a second pending one |
| `Idempotency.Session.Idempotent` | app/api/common.py:38-71 | insert, callback and response in place, with rollback, equal to serving the request on its own; `Idempotency.CallbackRuns` and `Idempotency.FingerprintsAgree` say when the callback runs and which requests are equal |
| `Idempotency.FingerprintsAgree` | app/api/common.py:48-52 | two requests have the same fingerprint exactly when payload and scope agree, no scope being the default one |
| `Idempotency.CallbackRuns` | app/api/common.py:38-71 | the callback runs exactly for a request without a key that needs none, or with a key not recorded for its user and path; its effect and no other is added |
| `Idempotency.ServeKeepsExact` | app/api/common.py:38-71 | the records are exactly the keyed effects not deleted since, with the response less its secrets |
| `Idempotency.PurgeKeepsExact` | app/operations/service.py:564-566 | deleting a record keeps that |
| `Idempotency.RepeatIsReplayed` | app/api/common.py:58-70 | in every interleaving a request with the user, path, key, payload and scope of a recorded one gets the response of that one less token, reset_token and secret, or is hidden by its scope, and changes nothing |
| `Idempotency.OtherPayloadIsRefused` | app/api/common.py:60-61 | in every interleaving another payload or scope under a recorded key is refused and changes nothing |
| `Idempotency.RecordedKeyConflicts` | app/api/common.py:54-58 | while the record is there the key starts nothing |
| `Idempotency.StepLinearises` | app/database.py:23-30 | interleaved requests: an action that answers a request equals the whole request served alone at that moment; otherwise only retention changes the database |
| `Idempotency.AtMostOnce` | app/api/common.py:38-71 | in every interleaving two effects of a user, path and key are the same exactly when no record of the key was deleted between them |
| `Idempotency.DeletionHadEffect` | app/operations/service.py:564-566 | every deletion ended an effect of its own |
| `Idempotency.DeletedKeyRunsAgain` | app/operations/service.py:564-566 | a run in which an equal request is carried out twice |
| `Idempotency.RepliesAreFirst` | app/api/common.py:58-67 | a replay quotes an effect of a request with the same key, payload and scope whose record was not deleted; "still in progress" is never answered |
| `Idempotency.FailureFreesKey` | app/database.py:23-30 | a failed request leaves its key free for the same request |
| `Idempotency.WaitingEnds` | app/api/common.py:54-57 | the request waited for can end, and whichever way it ends the waiting one can begin |
| `KeyValueFile.ParseKv` | scripts/update-service.py:1392-1401 | the loop computes the specified settings |
| `KeyValueFile.LineMeaning` | scripts/update-service.py:1392-1401 | comments and lines without an equals sign say nothing; of the others the last one for a key counts |
| `KeyValueFile.SplitsAtBoundary` | scripts/update-service.py:1395-1395 | a line runs up to the next of the ten line boundaries of Python |
| `KeyValueFile.SplitsAtCrLf` | scripts/update-service.py:1395-1395 | carriage return and line feed are one boundary |
| `KeyValueFile.SplitsLast` | scripts/update-service.py:1395-1395 | what is left at the end is a line unless it is empty |
| `KeyValueFile.SetKvValue` | scripts/update-service.py:1658-1673 | the loop computes the specified text |
| `KeyValueFile.EditReplacesFirst` | scripts/update-service.py:1658-1673 | the entry takes the place of the first line for the key, later ones go, every other line stays where it is |
| `KeyValueFile.EditAppends` | scripts/update-service.py:1658-1673 | without such a line the entry is added at the end |
| `KeyValueFile.SplitJoin` | scripts/update-service.py:1663-1673 | lines written are the lines read back |
| `KeyValueFile.SetThenParse` | scripts/update-service.py:1658-1673 | for every text the edit reads back as that one setting changed, exactly for entries that fit on one line |
| `KeyValueFile.SetTwice` | scripts/update-service.py:1658-1673 | a second edit of a key leaves nothing of the first |
| `TlsActivation.Host.SnapshotPaths` | scripts/update-service.py:1640-1647 | contents and modes of all paths, with missing files recorded |
| `TlsActivation.Host.RestorePaths` | scripts/update-service.py:1650-1655 | succeeds exactly when no saved path is broken, and then every path is as saved; otherwise each is as saved or untouched |
| `TlsActivation.Host.SetPublicHostname` | scripts/update-service.py:1676-1704 | edits the configuration files, fails exactly on missing files or failing writes |
| `TlsActivation.Host.Forward` | scripts/update-service.py:1885-1903 | succeeds exactly when nothing fails, then with certificate, key, marker, host, metadata and hook files and the configuration named one by one; never touches an unsaved path |
| `TlsActivation.Host.Activate` | scripts/update-service.py:1839-1917 | all or nothing: refused or failed leaves every byte and mode, success has certificate, key, marker, host, metadata and hook files with their contents and modes and the hostname in the configuration, and only a broken restore write leaves anything in between |
| `TlsActivation.ActivatedFiles` | scripts/update-service.py:1885-1901 | the certificate, key, marker, host and metadata files with mode 0600, the hook with 0700 or absent, and the hostname set in the configuration files, whose modes stay |
| `TlsActivation.OnlyHostChanges` | scripts/update-service.py:1676-1704 | after activation every setting but the host is as before |
| `TlsActivation.EndpointReadsBack` | scripts/update-service.py:1438-1449 | the endpoint reads back as the new hostname with the old port |
| `UpdateLock.StepKeepsInv` | scripts/update-service.py:2577-2592 | every thread step keeps the update thread current and scaling and TLS writers under the lock |
| `UpdateLock.SingleFlight` | scripts/update-service.py:2585-2592 | over any number of threads at most one update runs, and no worker scaling beside it |
| `UpdateLock.DeathUnblocks` | scripts/update-service.py:2577-2582 | an update thread that died does not block the next update |
| `UpdateLock.OverlapArises` | scripts/update-service.py:1848-1868 | TLS files are written beside an update exactly when the lock is taken after an update started |
| `UpdateLock.TlsCanOverlapUpdate` | scripts/update-service.py:1848-1868 | a run in which that happens |
| `UpdateCooldown.Updater.RunUpdate` | scripts/update-service.py:2422-2575 | the durable state fields after a run, a failure after the recorded success included |
| `UpdateCooldown.QuarantineStep` | scripts/update-service.py:2395-2410 | a run lifts a quarantine exactly by a recorded success or by an automatic failure on another commit |
| `UpdateCooldown.PutOffExactly` | scripts/update-service.py:2395-2410 | when there is an update a run is put off exactly when it is automatic, on the failed commit and before the deadline; a manual run never |
| `UpdateCooldown.Bookkeeping` | scripts/update-service.py:2395-2420 | a success clears the bookkeeping, an automatic failure sets commit, deadline and counter, a manual failure changes nothing |
| `UpdateCooldown.CooldownEnds` | scripts/update-service.py:2395-2420 | right after an automatic failure the next automatic run on the commit proceeds exactly from 180 minutes on |
| `UpdateCooldown.CooldownHolds` | scripts/update-service.py:2395-2420 | after an automatic failure no automatic run on the commit proceeds within 180 minutes unless the quarantine is lifted |
| `WorkerCapacity.DecimalRoundTrip` | scripts/update-service.py:2163-2164 | a written count reads back |
| `WorkerCapacity.CountReadsBack` | scripts/update-service.py:2130-2177 | the configured count after an edit is the new count, other settings unchanged |
| `WorkerCapacity.CountIsExact` | scripts/update-service.py:2130-2141 | one worker without CP_WORKER_COUNT, else the number it is set to from 1 to 64, else refused |
| `WorkerCapacity.Pool.RollBack` | scripts/update-service.py:2295-2314 | each unit after its stop and disable, failing and raising commands included |
| `WorkerCapacity.RollBackIsExact` | scripts/update-service.py:2295-2314 | the units are as before exactly when every needed stop and disable succeeds |
| `WorkerCapacity.Pool.EnsureWorkerCapacity` | scripts/update-service.py:2228-2325 | the count never falls and is at least the minimum; a failure, while looking or while starting, restores the text unless that write fails, and the units exactly when every needed stop and disable succeeds; on success the units run |
| `Cidr.OverlapIsNesting` | app/api/ipam.py:120-126 | canonical blocks overlap exactly when nested and exactly when they share an address |
| `Cidr.RingCovers` | app/ipam/service.py:101-103 | going once round from any start reaches every offset |
| `Ipam.FindFree` | app/ipam/service.py:92-109 | the loop finds the first free address in ring order |
| `Ipam.ExhaustedIsExact` | app/ipam/service.py:100-109 | the pool is exhausted exactly when every usable address is in use |
| `Ipam.FoundIsFirst` | app/ipam/service.py:100-109 | the address found is the first free one met going round |
| `Ipam.TriesGoRound` | app/ipam/service.py:101-103 | the tries are hosts, one address further each time and from the last host back to the first |
| `Ipam.Registry.EnsureNoOverlap` | app/api/ipam.py:120-126 | true exactly when no other pool overlaps |
| `Ipam.Registry.EnsureActiveAllocationsFit` | app/api/ipam.py:129-142 | true exactly when every active allocation stays usable |
| `Ipam.Registry.CreatePool` | app/api/ipam.py:157-167 | creates exactly the coherent pools that overlap nothing |
| `Ipam.Registry.UpdatePool` | app/api/ipam.py:170-187 | updates exactly when the block may change and every active allocation still fits |
| `Ipam.Registry.DeletePool` | app/api/ipam.py:190-198 | deletes exactly pools without allocation history |
| `Ipam.Registry.AllocateAddress` | app/ipam/service.py:73-121 | hands out exactly the preferred or first free usable address and moves the ring on |
| `Ipam.Registry.AssignAddress` | app/api/ipam.py:234-247 | assigns exactly reserved addresses |
| `Ipam.Registry.ReleaseAddress` | app/api/ipam.py:250-261 | releases exactly addresses not yet released |
| `Ipam.Registry.ForgetReleased` | app/operations/service.py:567-573 | deletes exactly released allocations |
| `Ipam.RequestKeepsSound` | app/api/ipam.py:157-261 | every request keeps pools coherent and disjoint, allocations in their pool, and active addresses single |
| `Ipam.SequenceIsSound` | app/api/ipam.py:157-261 | so does every sequence of requests |
| `Ipam.NoAddressTwice` | app/ipam/service.py:61-121 | after any requests no two active allocations share an address, in whatever pools |
| `Ipam.HandedOutIsHost` | app/ipam/service.py:55-70 | after any requests an address in use is inside its network, not its network or broadcast address, not the gateway and in no excluded block |
| `Ipam.WantedIsGiven` | app/ipam/service.py:83-91 | a preferred address is given exactly when it is such a host of an active pool and no active allocation of the pool has it |
| `Ipam.SearchGoesOn` | app/ipam/service.py:92-107 | without a preference the next search starts behind the address given last |
| `Ipam.PoolsAreWellFormed` | app/api/ipam.py:28-94 | after any requests pools hold 4 to 65536 addresses from a multiple of their size, gateway and exclusions inside |
| `Ipam.HistoryPinsPool` | app/api/ipam.py:170-198 | while an allocation is on record its pool is neither deleted nor moved |
| `PoolRace.DisjointKept` | app/api/ipam.py:120-167 | concurrent transactions: pools stop being disjoint exactly when one commits what its query would no longer pass |
| `PoolRace.OverlapNeedsRace` | app/api/ipam.py:120-167 | in every interleaving two committed pools overlap only if the transactions that wrote them ran at the same time |
| `PoolRace.RaceCanOverlap` | app/api/ipam.py:157-167 | a run in which they do |
| `Base64.RoundTrip` | app/blueprint_avatars.py:53-84 | decoding undoes encoding for every byte string |
| `Base64.EncodedLength` | app/blueprint_avatars.py:83-84 | the length of the encoding |
| `Base64.LetterIsStandard` | app/blueprint_avatars.py:83-84 | the digits are the alphabet of RFC 4648, table 1 |
| `Base64.QuadIsNumber` | app/blueprint_avatars.py:83-84 | a full group is the 24-bit number of its three bytes in four digits to base 64 |
| `Base64.TailIsPadded` | app/blueprint_avatars.py:83-84 | the last group is padded with zero bits and equals signs |
| `AvatarIcon.CheckIco` | app/blueprint_avatars.py:58-81 | the checks in order; none fails exactly for well-formed ICO files |
| `AvatarIcon.IcoLayout` | app/blueprint_avatars.py:58-81 | well-formed exactly with the ICO signature, at most 131072 bytes, 1 to 256 images, and every image, read byte by byte from its entry, between directory and end |
| `AvatarIcon.Normalise` | app/blueprint_avatars.py:44-84 | the normal form or the first problem |
| `AvatarIcon.EverySpellingIsUnderstood` | app/blueprint_avatars.py:17-20 | each of the five prefixes, in any case, in front of a well-formed image leads to the canonical spelling of that image |
| `AvatarIcon.AcceptedIsSpelling` | app/blueprint_avatars.py:44-84 | an accepted value is one of the five prefixes and the base 64 text of a well-formed image |
| `AvatarIcon.NormalisingIsIdempotent` | app/blueprint_avatars.py:44-84 | a second pass changes nothing and the image is kept |
| `AvatarIcon.NormalFormIsUnique` | app/blueprint_avatars.py:44-84 | two accepted values have the same normal form exactly when they hold the same image |
| `AvatarIcon.NormalisedFitsInput` | app/api/schemas.py:20-23 | every normal form fits the bounds of the input field |
| `AvatarStore.SeedDefaults` | app/blueprint_avatars.py:87-97 | the loop adds exactly the missing defaults |
| `AvatarStore.Setting.Lock` | app/blueprint_avatars.py:113-131 | seeds once and returns the items |
| `AvatarStore.Setting.Save` | app/blueprint_avatars.py:161-195 | creates or replaces exactly the accepted avatars; a refusal rolls everything back |
| `AvatarStore.Setting.DeleteAvatar` | app/blueprint_avatars.py:198-220 | deletes exactly existing avatars that no blueprint uses |
| `AvatarStore.SequenceIsSound` | app/blueprint_avatars.py:113-220 | from an empty store: unique ids, at most a hundred avatars, saved pictures in normal form |
| `AvatarStore.FirstRequestSeeds` | app/blueprint_avatars.py:87-131 | the first request finds exactly the three named defaults |
| `AvatarStore.CreateAdds` | app/blueprint_avatars.py:161-195 | a create goes through exactly for a new slug, a free place, a name and an icon, and adds that entry, name stripped and picture normal, at the end |
| `AvatarStore.UpdateReplaces` | app/blueprint_avatars.py:161-195 | an update replaces the entry with its id and leaves all others in place |
| `AvatarStore.DeleteRemovesOne` | app/blueprint_avatars.py:198-220 | a delete goes through exactly for an unreferenced entry and takes out that one |
| `AvatarStore.GoneStep` | app/blueprint_avatars.py:113-220 | an absent id comes back exactly by an accepted create |
| `AvatarStore.DeletedDefaultStaysDeleted` | app/blueprint_avatars.py:113-131 | a deleted default is never seeded again |

## Left out

- Validation of single fields, condition values, message texts, permissions, policy decisions, audit rows and logs: one-branch facts.
- The metadata column of inventory rows: copied values only.
- Marking VM rows missing or active from a provider listing, importing and unmanaging external VMs: they are not events of the inventory runs.
- Tenant and project scoping of queries: every model sees one scope, except the scope columns of the inventory rows and the scope in an idempotency fingerprint.
- Isolation below row locks: each API transaction is one step, except idempotent requests (`Idempotency`) and pool creation (`PoolRace`).
- Quotas, reservations, approval policy stages and webhooks of jobs: they add fields that nothing here depends on.
- Creating and editing blueprints: the set of blueprints only shrinks in the job model.
- Late writes other than the final status are not steps of a run: they break the invariants, and `LateWrites` gives the exact condition for each.
- Day-2 actions, which belong to no deployment, and scheduled jobs that a quota rejects at once.
- Releasing a lock is assumed to succeed in the fence.
- The regular expression that replaces `server_name` in the nginx site file: the replaced text is a parameter.
- TlsActivation.ValidHostname: takes the hostname after whitespace and trailing dots have been stripped.
- WorkerCapacity.ConfiguredCount: reads plain decimal digits; the signs, underscores and other digits that Python's int() also accepts are refused.
- WorkerCapacity.Pool.EnsureWorkerCapacity: models the systemd units; scaling through Docker Compose is a single command whose outcome only decides the rollback of the text.
- Base64.Decode: refuses surplus padding after a complete group, which recent Python decoders tolerate.
- AvatarIcon.StartsWithAnyCase: folds ASCII letters only.
- Idempotency.Serve: a replay is returned as stored; tenant and project fields that the scope check fills in for old records are not modelled.
- AvatarStore.Locked: the pictures of the default avatars are opaque, so their normal form is not claimed.
- Temporary files, file ownership and crash consistency of renames.
- Network and provider clients, subprocesses, key derivation and hashing: outcomes and injective values.
