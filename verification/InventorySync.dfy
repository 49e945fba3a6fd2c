/**
 The inventory tables and their synchronisation from a deployment's Terraform outputs
 (`sync_deployment_inventory`).
 */
module InventorySync {
  import opened Wrappers

  type RowId = nat
  type DeploymentId = string

  datatype Lifecycle = Active | Missing | Destroyed

  datatype Scope = Scope(tenant: string, project: string)

  datatype ManagedVm = ManagedVm(
    scope: Scope, providerId: int, deploymentId: Option<DeploymentId>, node: string, vmId: int, name: string,
    managedByTerraform: bool, lifecycle: Lifecycle, createdBy: int, destroyedAt: Option<int>)

  datatype ManagedResource = ManagedResource(
    deploymentId: DeploymentId, providerId: int, provider: string, externalId: string, name: string,
    primaryIp: Option<string>, lifecycle: Lifecycle, createdBy: int, destroyedAt: Option<int>)

  /** `node` is the node named in the deployment variables, empty when there is none. */
  datatype Deployment = Deployment(
    scope: Scope, name: string, providerId: int, provider: string, node: string, createdBy: int,
    destroyed: bool, busy: bool)
  {
    predicate OnProxmox() {
      provider == "proxmox"
    }
  }

  type Deployments = map<DeploymentId, Deployment>

  /** A VM id as it stands in the state: its text, and the integer it converts to if it does. */
  datatype RawVmId = RawVmId(text: string, number: Option<int>)

  datatype Outputs = Outputs(resourceId: Option<string>, vmId: Option<RawVmId>, primaryIp: Option<string>)

  /** Row ids below `nextId` have been handed out. */
  datatype Tables = Tables(vms: map<RowId, ManagedVm>, resources: map<RowId, ManagedResource>, nextId: RowId)

  datatype SyncError =
    | IdentityMissing | VmIdMissing | NodeMissing | VmIdInvalid
    | OtherProject | OtherDeployment | DifferentIdentity

  // ----- The unique constraints of the two tables -----

  ghost predicate UniqueIdentity(vms: map<RowId, ManagedVm>) {
    forall a, b :: a in vms && b in vms && vms[a].providerId == vms[b].providerId && vms[a].vmId == vms[b].vmId ==> a == b
  }

  ghost predicate UniqueOwner(vms: map<RowId, ManagedVm>) {
    forall a, b :: a in vms && b in vms && vms[a].deploymentId.Some? && vms[a].deploymentId == vms[b].deploymentId ==> a == b
  }

  ghost predicate UniqueResource(resources: map<RowId, ManagedResource>) {
    forall a, b :: a in resources && b in resources && resources[a].deploymentId == resources[b].deploymentId ==> a == b
  }

  ghost predicate Valid(t: Tables) {
    && UniqueIdentity(t.vms)
    && UniqueOwner(t.vms)
    && UniqueResource(t.resources)
    && (forall r :: r in t.vms ==> r < t.nextId)
    && (forall r :: r in t.resources ==> r < t.nextId)
  }

  function ByIdentity(vms: map<RowId, ManagedVm>, providerId: int, vmId: int): (r: Option<RowId>)
    requires UniqueIdentity(vms)
    ensures r.Some? ==> r.value in vms && vms[r.value].providerId == providerId && vms[r.value].vmId == vmId
    ensures r.None? ==> forall k :: k in vms ==> vms[k].providerId != providerId || vms[k].vmId != vmId
  {
    if k :| k in vms && vms[k].providerId == providerId && vms[k].vmId == vmId then Some(k) else None
  }

  function ByOwner(vms: map<RowId, ManagedVm>, d: DeploymentId): (r: Option<RowId>)
    requires UniqueOwner(vms)
    ensures r.Some? ==> r.value in vms && vms[r.value].deploymentId == Some(d)
    ensures r.None? ==> forall k :: k in vms ==> vms[k].deploymentId != Some(d)
  {
    if k :| k in vms && vms[k].deploymentId == Some(d) then Some(k) else None
  }

  function ResourceOf(resources: map<RowId, ManagedResource>, d: DeploymentId): (r: Option<RowId>)
    requires UniqueResource(resources)
    ensures r.Some? ==> r.value in resources && resources[r.value].deploymentId == d
    ensures r.None? ==> forall k :: k in resources ==> resources[k].deploymentId != d
  {
    if k :| k in resources && resources[k].deploymentId == d then Some(k) else None
  }

  // ----- One synchronisation -----

  predicate Foreign(vm: ManagedVm, d: DeploymentId) {
    vm.deploymentId.Some? && vm.deploymentId.value != d
  }

  /** VM ids come free again once the old VM is destroyed and its deployment is destroyed or gone. */
  predicate Reusable(vm: ManagedVm, deployments: Deployments, d: DeploymentId) {
    && Foreign(vm, d)
    && vm.lifecycle.Destroyed?
    && (vm.deploymentId.value !in deployments || deployments[vm.deploymentId.value].destroyed)
  }

  /** Why the VM row of the state's identity cannot be bound to deployment `d`. */
  function Conflict(vms: map<RowId, ManagedVm>, deployments: Deployments, d: DeploymentId, vmId: int): Option<SyncError>
    requires UniqueIdentity(vms) && UniqueOwner(vms) && d in deployments
  {
    match ByIdentity(vms, deployments[d].providerId, vmId)
    case None => None
    case Some(row) =>
      var vm := vms[row];
      var reusable := Reusable(vm, deployments, d);
      if !reusable && vm.scope != deployments[d].scope then Some(OtherProject)
      else if Foreign(vm, d) && !reusable then Some(OtherDeployment)
      else
        var owned := ByOwner(vms, d);
        if owned.Some? && owned.value != row then Some(DifferentIdentity) else None
  }

  /** The row that will carry the deployment's VM: the identity's row, else the deployment's row, else a new one. */
  function TargetRow(vms: map<RowId, ManagedVm>, dep: Deployment, d: DeploymentId, vmId: int, newId: RowId): RowId
    requires UniqueIdentity(vms) && UniqueOwner(vms)
  {
    var byIdentity := ByIdentity(vms, dep.providerId, vmId);
    if byIdentity.Some? then byIdentity.value
    else
      var owned := ByOwner(vms, d);
      if owned.Some? then owned.value else newId
  }

  function NewVm(dep: Deployment, d: DeploymentId, vmId: int): ManagedVm {
    ManagedVm(dep.scope, dep.providerId, Some(d), dep.node, vmId, dep.name, true, Active, dep.createdBy, None)
  }

  function UpdatedVm(vm: ManagedVm, deployments: Deployments, d: DeploymentId, vmId: int): ManagedVm
    requires d in deployments
  {
    var dep := deployments[d];
    var rebound := if Reusable(vm, deployments, d) then vm.(scope := dep.scope, createdBy := dep.createdBy) else vm;
    rebound.(providerId := dep.providerId, deploymentId := Some(d), node := dep.node, vmId := vmId, name := dep.name,
             managedByTerraform := true, lifecycle := Active, destroyedAt := None)
  }

  function SyncedVms(vms: map<RowId, ManagedVm>, deployments: Deployments, d: DeploymentId, vmId: int, newId: RowId)
    : map<RowId, ManagedVm>
    requires UniqueIdentity(vms) && UniqueOwner(vms) && d in deployments
  {
    var row := TargetRow(vms, deployments[d], d, vmId, newId);
    vms[row := if row in vms then UpdatedVm(vms[row], deployments, d, vmId) else NewVm(deployments[d], d, vmId)]
  }

  function SyncedResource(dep: Deployment, d: DeploymentId, externalId: string, primaryIp: Option<string>, createdBy: int)
    : ManagedResource
  {
    ManagedResource(d, dep.providerId, dep.provider, externalId, dep.name, primaryIp, Active, createdBy, None)
  }

  function SyncedResources(resources: map<RowId, ManagedResource>, dep: Deployment, d: DeploymentId,
                           externalId: string, primaryIp: Option<string>, newId: RowId): map<RowId, ManagedResource>
    requires UniqueResource(resources)
  {
    match ResourceOf(resources, d)
    case None => resources[newId := SyncedResource(dep, d, externalId, primaryIp, dep.createdBy)]
    case Some(row) => resources[row := SyncedResource(dep, d, externalId, primaryIp, resources[row].createdBy)]
  }

  function ExternalId(o: Outputs): Option<string> {
    if o.resourceId.Some? then o.resourceId else if o.vmId.Some? then Some(o.vmId.value.text) else None
  }

  /** The checks made before anything is written. */
  function Refusal(t: Tables, deployments: Deployments, d: DeploymentId, o: Outputs): Option<SyncError>
    requires Valid(t) && d in deployments
  {
    if ExternalId(o).None? then Some(IdentityMissing)
    else if !deployments[d].OnProxmox() then None
    else if o.vmId.None? then Some(VmIdMissing)
    else if deployments[d].node == "" then Some(NodeMissing)
    else if o.vmId.value.number.None? then Some(VmIdInvalid)
    else Conflict(t.vms, deployments, d, o.vmId.value.number.value)
  }

  function Synced(t: Tables, deployments: Deployments, d: DeploymentId, o: Outputs): Tables
    requires Valid(t) && d in deployments && Refusal(t, deployments, d, o).None?
  {
    var dep := deployments[d];
    var resources := SyncedResources(t.resources, dep, d, ExternalId(o).value, o.primaryIp, t.nextId);
    var vms := if dep.OnProxmox() then SyncedVms(t.vms, deployments, d, o.vmId.value.number.value, t.nextId + 1) else t.vms;
    Tables(vms, resources, t.nextId + 2)
  }

  // ----- What a successful synchronisation guarantees -----

  lemma VmsStayUnique(vms: map<RowId, ManagedVm>, deployments: Deployments, d: DeploymentId, vmId: int, newId: RowId)
    requires UniqueIdentity(vms) && UniqueOwner(vms) && d in deployments && newId !in vms
    requires Conflict(vms, deployments, d, vmId).None?
    ensures UniqueIdentity(SyncedVms(vms, deployments, d, vmId, newId))
    ensures UniqueOwner(SyncedVms(vms, deployments, d, vmId, newId))
  {
  }

  lemma ResourcesStayUnique(resources: map<RowId, ManagedResource>, dep: Deployment, d: DeploymentId,
                            externalId: string, primaryIp: Option<string>, newId: RowId)
    requires UniqueResource(resources) && newId !in resources
    ensures UniqueResource(SyncedResources(resources, dep, d, externalId, primaryIp, newId))
  {
  }

  /** Both unique constraints survive, so the database never rejects the write. */
  lemma SyncKeepsTablesValid(t: Tables, deployments: Deployments, d: DeploymentId, o: Outputs)
    requires Valid(t) && d in deployments && Refusal(t, deployments, d, o).None?
    ensures Valid(Synced(t, deployments, d, o))
  {
    assert t.nextId !in t.resources && t.nextId + 1 !in t.vms;
    ResourcesStayUnique(t.resources, deployments[d], d, ExternalId(o).value, o.primaryIp, t.nextId);
    if deployments[d].OnProxmox() {
      VmsStayUnique(t.vms, deployments, d, o.vmId.value.number.value, t.nextId + 1);
      SyncedRowsBounded(t, deployments, d, o);
    }
  }

  lemma SyncedRowsBounded(t: Tables, deployments: Deployments, d: DeploymentId, o: Outputs)
    requires Valid(t) && d in deployments && Refusal(t, deployments, d, o).None? && deployments[d].OnProxmox()
    ensures forall r :: r in Synced(t, deployments, d, o).vms ==> r < t.nextId + 2
  {
  }

  /** The deployment's rows exist and are active: a resource row, and on Proxmox its one VM row. */
  ghost predicate Anchored(t: Tables, deployments: Deployments, d: DeploymentId) {
    && (exists r :: r in t.resources && t.resources[r].deploymentId == d && t.resources[r].lifecycle == Active)
    && (d in deployments && deployments[d].OnProxmox() ==> HasActiveVm(t.vms, d))
  }

  ghost predicate HasActiveVm(vms: map<RowId, ManagedVm>, d: DeploymentId) {
    exists r :: r in vms && vms[r].deploymentId == Some(d) && vms[r].lifecycle == Active
  }

  /** Exactly one VM row belongs to the deployment; it is active and carries the state's identity. */
  lemma SyncLeavesOneActiveVm(t: Tables, deployments: Deployments, d: DeploymentId, o: Outputs)
    requires Valid(t) && d in deployments && Refusal(t, deployments, d, o).None? && deployments[d].OnProxmox()
    ensures exists row :: row in Synced(t, deployments, d, o).vms && IsTheVm(Synced(t, deployments, d, o).vms, row, deployments, d, o)
  {
    SyncKeepsTablesValid(t, deployments, d, o);
    var row := TargetRow(t.vms, deployments[d], d, o.vmId.value.number.value, t.nextId + 1);
    assert IsTheVm(Synced(t, deployments, d, o).vms, row, deployments, d, o);
  }

  ghost predicate IsTheVm(vms: map<RowId, ManagedVm>, row: RowId, deployments: Deployments, d: DeploymentId, o: Outputs)
    requires row in vms && d in deployments && o.vmId.Some? && o.vmId.value.number.Some?
  {
    && vms[row].deploymentId == Some(d)
    && vms[row].lifecycle == Active
    && vms[row].destroyedAt == None
    && vms[row].managedByTerraform
    && vms[row].providerId == deployments[d].providerId
    && vms[row].vmId == o.vmId.value.number.value
    && vms[row].node == deployments[d].node
    && vms[row].name == deployments[d].name
    && forall k :: k in vms && vms[k].deploymentId == Some(d) ==> k == row
  }

  /**
   A VM row that comes to belong to the deployment carries its tenant and project. A new row and one taken
   over from another deployment also carry its creator; a row that had no deployment keeps its own.
   */
  lemma SyncRebindsVm(t: Tables, deployments: Deployments, d: DeploymentId, o: Outputs, row: RowId)
    requires Valid(t) && d in deployments && Refusal(t, deployments, d, o).None?
    requires row in Synced(t, deployments, d, o).vms && Synced(t, deployments, d, o).vms[row].deploymentId == Some(d)
    requires row in t.vms ==> t.vms[row].deploymentId != Some(d)
    ensures Synced(t, deployments, d, o).vms[row].scope == deployments[d].scope
    ensures Synced(t, deployments, d, o).vms[row].createdBy ==
              if row in t.vms && t.vms[row].deploymentId == None then t.vms[row].createdBy else deployments[d].createdBy
  {
  }

  /** A VM row that belonged to the deployment before keeps its tenant, project and creator. */
  lemma SyncKeepsBinding(t: Tables, deployments: Deployments, d: DeploymentId, o: Outputs, row: RowId)
    requires Valid(t) && d in deployments && Refusal(t, deployments, d, o).None?
    requires row in t.vms && t.vms[row].deploymentId == Some(d)
    ensures row in Synced(t, deployments, d, o).vms
    ensures Synced(t, deployments, d, o).vms[row].scope == t.vms[row].scope
    ensures Synced(t, deployments, d, o).vms[row].createdBy == t.vms[row].createdBy
  {
  }

  ghost predicate IsTheResource(resources: map<RowId, ManagedResource>, row: RowId, dep: Deployment, d: DeploymentId, o: Outputs)
    requires row in resources
  {
    && resources[row].deploymentId == d
    && resources[row].providerId == dep.providerId
    && resources[row].provider == dep.provider
    && Some(resources[row].externalId) == (if o.resourceId.Some? then o.resourceId else if o.vmId.Some? then Some(o.vmId.value.text) else None)
    && resources[row].name == dep.name
    && resources[row].primaryIp == o.primaryIp
    && resources[row].lifecycle == Active
    && resources[row].destroyedAt == None
    && forall k :: k in resources && resources[k].deploymentId == d ==> k == row
  }

  /** Exactly one resource row belongs to the deployment and mirrors it; only a new one takes its creator. */
  lemma SyncLeavesOneResource(t: Tables, deployments: Deployments, d: DeploymentId, o: Outputs) returns (row: RowId)
    requires Valid(t) && d in deployments && Refusal(t, deployments, d, o).None?
    ensures row in Synced(t, deployments, d, o).resources
    ensures IsTheResource(Synced(t, deployments, d, o).resources, row, deployments[d], d, o)
    ensures Synced(t, deployments, d, o).resources[row].createdBy ==
              if row in t.resources then t.resources[row].createdBy else deployments[d].createdBy
    ensures row in t.resources ==> t.resources[row].deploymentId == d
  {
    SyncKeepsTablesValid(t, deployments, d, o);
    row := ResourceOf(t.resources, d).GetOr(t.nextId);
  }

  /** The VM of this row is gone and so is the deployment it belonged to. */
  predicate LeftBehind(vm: ManagedVm, deployments: Deployments) {
    && vm.lifecycle == Destroyed
    && vm.deploymentId.Some?
    && (vm.deploymentId.value in deployments ==> deployments[vm.deploymentId.value].destroyed)
  }

  /** The row of the state's identity may be bound to the deployment. */
  predicate Bindable(vm: ManagedVm, deployments: Deployments, d: DeploymentId)
    requires d in deployments
  {
    if vm.deploymentId in {None, Some(d)} then vm.scope == deployments[d].scope else LeftBehind(vm, deployments)
  }

  /** The VM identity conflicts with nothing exactly when its row may be bound and the deployment has no other row. */
  lemma ConflictsExactly(vms: map<RowId, ManagedVm>, deployments: Deployments, d: DeploymentId, vmId: int)
    requires UniqueIdentity(vms) && UniqueOwner(vms) && d in deployments
    ensures Conflict(vms, deployments, d, vmId).None? <==>
              forall r :: r in vms && vms[r].providerId == deployments[d].providerId && vms[r].vmId == vmId ==>
                && Bindable(vms[r], deployments, d)
                && forall k :: k in vms && vms[k].deploymentId == Some(d) ==> k == r
  {
    var row := ByIdentity(vms, deployments[d].providerId, vmId);
    if row.Some? {
      assert forall r :: r in vms && vms[r].providerId == deployments[d].providerId && vms[r].vmId == vmId ==> r == row.value;
      assert ByOwner(vms, d).Some? ==> forall k :: k in vms && vms[k].deploymentId == Some(d) ==> k == ByOwner(vms, d).value;
    }
  }

  /** At most one existing VM row changes, and it changes owner only when its VM and deployment are gone. */
  lemma SyncTouchesOneVm(t: Tables, deployments: Deployments, d: DeploymentId, o: Outputs, row: RowId)
    requires Valid(t) && d in deployments && Refusal(t, deployments, d, o).None? && row in t.vms
    ensures row in Synced(t, deployments, d, o).vms
    ensures Synced(t, deployments, d, o).vms[row] != t.vms[row] ==>
              Synced(t, deployments, d, o).vms[row].deploymentId == Some(d)
    ensures Synced(t, deployments, d, o).vms[row] != t.vms[row] && Foreign(t.vms[row], d) ==>
              Reusable(t.vms[row], deployments, d)
    ensures Synced(t, deployments, d, o).vms[row].scope != t.vms[row].scope ==> Reusable(t.vms[row], deployments, d)
  {
  }

  /** Resource rows of other deployments stay as they are. */
  lemma SyncTouchesOneResource(t: Tables, deployments: Deployments, d: DeploymentId, o: Outputs, row: RowId)
    requires Valid(t) && d in deployments && Refusal(t, deployments, d, o).None?
    requires row in t.resources && t.resources[row].deploymentId != d
    ensures row in Synced(t, deployments, d, o).resources
    ensures Synced(t, deployments, d, o).resources[row] == t.resources[row]
  {
  }
}
