/**
 The inventory as the application updates it row by row: synchronisation, the repair pass over
 stored Terraform states, and the removal of VMs confirmed missing on the provider.
 */
module InventoryRepair {
  import opened Wrappers
  import opened InventorySync

  /** What the state store returns for a deployment that has a row there. */
  datatype StoredState = Unreadable | Readable(outputs: Outputs)

  type StateStore = map<DeploymentId, StoredState>

  datatype Verdict = LeftAlone | Repaired | Skipped

  /** The rows that make the repair pass leave a deployment alone. */
  ghost predicate Complete(t: Tables, deployments: Deployments, d: DeploymentId)
    requires Valid(t) && d in deployments
  {
    ResourceOf(t.resources, d).Some? && (deployments[d].OnProxmox() ==> ByOwner(t.vms, d).Some?)
  }

  ghost function Repair(t: Tables, deployments: Deployments, d: DeploymentId, store: StateStore, quotaFails: set<DeploymentId>)
    : (Tables, Verdict)
    requires Valid(t) && d in deployments
  {
    if Complete(t, deployments, d) || d !in store then (t, LeftAlone)
    else if store[d].Unreadable? || Refusal(t, deployments, d, store[d].outputs).Some? then (t, Skipped)
    else (Synced(t, deployments, d, store[d].outputs), if d in quotaFails then Skipped else Repaired)
  }

  /**
   A deployment is left alone exactly when it has its rows or no stored state; otherwise it is skipped
   exactly when its state cannot be read or is refused, or the quota accounting fails.
   */
  lemma VerdictIsExact(t: Tables, deployments: Deployments, d: DeploymentId, store: StateStore, quotaFails: set<DeploymentId>)
    requires Valid(t) && d in deployments
    ensures var hasRows := (exists r :: r in t.resources && t.resources[r].deploymentId == d)
                           && (deployments[d].provider == "proxmox" ==> exists r :: r in t.vms && t.vms[r].deploymentId == Some(d));
            var (after, verdict) := Repair(t, deployments, d, store, quotaFails);
            && (verdict == LeftAlone <==> hasRows || d !in store)
            && (verdict != LeftAlone ==>
                  (verdict == Repaired <==>
                     store[d].Readable? && Refusal(t, deployments, d, store[d].outputs).None? && d !in quotaFails))
  {
  }

  lemma RepairKeepsValid(t: Tables, deployments: Deployments, d: DeploymentId, store: StateStore, quotaFails: set<DeploymentId>)
    requires Valid(t) && d in deployments
    ensures Valid(Repair(t, deployments, d, store, quotaFails).0)
  {
    if d in store && store[d].Readable? && Refusal(t, deployments, d, store[d].outputs).None? {
      SyncKeepsTablesValid(t, deployments, d, store[d].outputs);
    }
  }

  ghost predicate AllKnown(deployments: Deployments, order: seq<DeploymentId>) {
    forall d :: d in order ==> d in deployments
  }

  /** A whole pass over the selected deployments, with the verdict for each. */
  ghost function Pass(t: Tables, deployments: Deployments, order: seq<DeploymentId>, store: StateStore, quotaFails: set<DeploymentId>)
    : (r: (Tables, seq<Verdict>))
    requires Valid(t) && AllKnown(deployments, order)
    ensures Valid(r.0) && |r.1| == |order|
  {
    if order == [] then (t, [])
    else
      var before := Pass(t, deployments, order[..|order| - 1], store, quotaFails);
      var step := Repair(before.0, deployments, order[|order| - 1], store, quotaFails);
      RepairKeepsValid(before.0, deployments, order[|order| - 1], store, quotaFails);
      (step.0, before.1 + [step.1])
  }

  /** The deployments with a given verdict, in the order of the pass. */
  ghost function With(order: seq<DeploymentId>, verdicts: seq<Verdict>, v: Verdict): seq<DeploymentId>
    requires |order| == |verdicts|
  {
    if order == [] then []
    else
      With(order[..|order| - 1], verdicts[..|order| - 1], v) +
      if verdicts[|order| - 1] == v then [order[|order| - 1]] else []
  }

  // ----- Confirmed-missing removal -----

  datatype World = World(rows: Tables, deployments: Deployments)

  /** A job is active on the deployment that owns the row. */
  predicate OwnerBusy(w: World, row: RowId)
    requires row in w.rows.vms
  {
    var owner := w.rows.vms[row].deploymentId;
    owner.Some? && owner.value in w.deployments && w.deployments[owner.value].busy
  }

  function MarkResources(resources: map<RowId, ManagedResource>, owner: Option<DeploymentId>, when: int)
    : map<RowId, ManagedResource>
  {
    map r | r in resources ::
      if Some(resources[r].deploymentId) == owner then resources[r].(lifecycle := Destroyed, destroyedAt := Some(when))
      else resources[r]
  }

  function DropResources(resources: map<RowId, ManagedResource>, owner: Option<DeploymentId>): map<RowId, ManagedResource> {
    map r | r in resources && Some(resources[r].deploymentId) != owner :: resources[r]
  }

  /** The VM is gone on the provider: its deployment is finalised and its rows are destroyed or deleted. */
  function RemoveMissing(w: World, row: RowId, purge: bool, when: int): World
    requires row in w.rows.vms && !OwnerBusy(w, row)
  {
    var vm := w.rows.vms[row];
    var owner := vm.deploymentId;
    var deployments :=
      if owner.Some? && owner.value in w.deployments
      then w.deployments[owner.value := w.deployments[owner.value].(destroyed := true, busy := false)]
      else w.deployments;
    var rows :=
      if purge then w.rows.(vms := w.rows.vms - {row}, resources := DropResources(w.rows.resources, owner))
      else w.rows.(vms := w.rows.vms[row := vm.(lifecycle := Destroyed, destroyedAt := Some(when))],
                   resources := MarkResources(w.rows.resources, owner, when));
    World(rows, deployments)
  }

  class Inventory {
    var vms: map<RowId, ManagedVm>
    var resources: map<RowId, ManagedResource>
    var nextId: RowId
    var deployments: Deployments

    ghost function Rows(): Tables
      reads this
    {
      Tables(vms, resources, nextId)
    }

    method SyncResource(d: DeploymentId, externalId: string, primaryIp: Option<string>)
      requires d in deployments && UniqueResource(resources)
      modifies this`resources
      ensures resources == SyncedResources(old(resources), deployments[d], d, externalId, primaryIp, nextId)
    {
      var dep := deployments[d];
      var found := ResourceOf(resources, d);
      if found.None? {
        resources := resources[nextId :=
          ManagedResource(d, dep.providerId, dep.provider, externalId, dep.name, primaryIp, Active, dep.createdBy, None)];
      } else {
        var row := resources[found.value];
        row := row.(providerId := dep.providerId, provider := dep.provider, externalId := externalId);
        row := row.(name := dep.name, primaryIp := primaryIp, lifecycle := Active, destroyedAt := None);
        resources := resources[found.value := row];
      }
    }

    method SyncVm(d: DeploymentId, vmId: int) returns (r: Option<SyncError>)
      requires d in deployments && UniqueIdentity(vms) && UniqueOwner(vms) && nextId + 1 !in vms
      modifies this`vms
      ensures r == Conflict(old(vms), deployments, d, vmId)
      ensures vms == if r.None? then SyncedVms(old(vms), deployments, d, vmId, nextId + 1) else old(vms)
    {
      var dep := deployments[d];
      var byIdentity := ByIdentity(vms, dep.providerId, vmId);
      var owned := ByOwner(vms, d);
      var reusable := false;
      if byIdentity.Some? {
        var vm := vms[byIdentity.value];
        reusable := Foreign(vm, d) && vm.lifecycle == Destroyed
                    && (vm.deploymentId.value !in deployments || deployments[vm.deploymentId.value].destroyed);
        if !reusable && vm.scope != dep.scope {
          return Some(OtherProject);
        }
        if Foreign(vm, d) && !reusable {
          return Some(OtherDeployment);
        }
        if owned.Some? && byIdentity.value != owned.value {
          return Some(DifferentIdentity);
        }
      }
      var target := if byIdentity.Some? then byIdentity else owned;
      if target.None? {
        vms := vms[nextId + 1 := NewVm(dep, d, vmId)];
      } else {
        var vm := vms[target.value];
        if reusable {
          vm := vm.(scope := dep.scope, createdBy := dep.createdBy, deploymentId := Some(d));
        }
        vm := vm.(providerId := dep.providerId, deploymentId := Some(d), node := dep.node, vmId := vmId);
        vm := vm.(name := dep.name, managedByTerraform := true, lifecycle := Active, destroyedAt := None);
        vms := vms[target.value := vm];
      }
      return None;
    }

    /** Errors are raised before anything is written; success writes one resource row and one VM row. */
    method Sync(d: DeploymentId, o: Outputs) returns (r: Option<SyncError>)
      requires Valid(Rows()) && d in deployments
      modifies this`vms, this`resources, this`nextId
      ensures r == old(Refusal(Rows(), deployments, d, o))
      ensures Rows() == if r.None? then old(Synced(Rows(), deployments, d, o)) else old(Rows())
    {
      var externalId := ExternalId(o);
      if externalId.None? {
        return Some(IdentityMissing);
      }
      if deployments[d].OnProxmox() {
        if o.vmId.None? {
          return Some(VmIdMissing);
        }
        if deployments[d].node == "" {
          return Some(NodeMissing);
        }
        if o.vmId.value.number.None? {
          return Some(VmIdInvalid);
        }
        r := SyncVm(d, o.vmId.value.number.value);
        if r.Some? {
          return;
        }
      }
      SyncResource(d, externalId.value, o.primaryIp);
      nextId := nextId + 2;
      return None;
    }

    /** One deployment of the repair pass: errors of the three caught types end in `skipped`. */
    method RepairOne(d: DeploymentId, store: StateStore, quotaFails: set<DeploymentId>) returns (v: Verdict)
      requires Valid(Rows()) && d in deployments
      modifies this`vms, this`resources, this`nextId
      ensures (Rows(), v) == old(Repair(Rows(), deployments, d, store, quotaFails))
    {
      var existingResource := ResourceOf(resources, d);
      var existingVm := if deployments[d].OnProxmox() then ByOwner(vms, d) else None;
      if existingResource.Some? && (!deployments[d].OnProxmox() || existingVm.Some?) {
        return LeftAlone;
      }
      if d !in store {
        return LeftAlone;
      }
      if store[d].Unreadable? {
        return Skipped;
      }
      var error := Sync(d, store[d].outputs);
      if error.Some? || d in quotaFails {
        return Skipped;
      }
      return Repaired;
    }

    method RepairFromStates(order: seq<DeploymentId>, store: StateStore, quotaFails: set<DeploymentId>)
      returns (repaired: seq<DeploymentId>, skipped: seq<DeploymentId>)
      requires Valid(Rows()) && AllKnown(deployments, order)
      modifies this`vms, this`resources, this`nextId
      ensures var pass := old(Pass(Rows(), deployments, order, store, quotaFails));
              Rows() == pass.0 && repaired == With(order, pass.1, Repaired) && skipped == With(order, pass.1, Skipped)
    {
      repaired, skipped := [], [];
      ghost var start := Rows();
      for i := 0 to |order|
        invariant Rows() == Pass(start, deployments, order[..i], store, quotaFails).0
        invariant repaired == With(order[..i], Pass(start, deployments, order[..i], store, quotaFails).1, Repaired)
        invariant skipped == With(order[..i], Pass(start, deployments, order[..i], store, quotaFails).1, Skipped)
      {
        PassExtends(start, deployments, order, i, store, quotaFails);
        var v := RepairOne(order[i], store, quotaFails);
        if v.Repaired? {
          repaired := repaired + [order[i]];
        } else if v.Skipped? {
          skipped := skipped + [order[i]];
        }
      }
      assert order[..|order|] == order;
    }

    /** Refused for other providers, and while the provider still reports the VM or a job is active on its deployment. */
    method RemoveConfirmedMissing(row: RowId, proxmox: bool, present: bool, purge: bool, when: int) returns (removed: bool)
      requires Valid(Rows()) && row in vms
      modifies this`vms, this`resources, this`deployments
      ensures removed <==> proxmox && !present && !old(OwnerBusy(World(Rows(), deployments), row))
      ensures World(Rows(), deployments) ==
              if removed then old(RemoveMissing(World(Rows(), deployments), row, purge, when))
              else old(World(Rows(), deployments))
    {
      if !proxmox || present {
        return false;
      }
      var vm := vms[row];
      var owner := vm.deploymentId;
      if owner.Some? && owner.value in deployments && deployments[owner.value].busy {
        return false;
      }
      if owner.Some? && owner.value in deployments {
        deployments := deployments[owner.value := deployments[owner.value].(destroyed := true, busy := false)];
      }
      if purge {
        resources := DropResources(resources, owner);
        vms := vms - {row};
      } else {
        vms := vms[row := vm.(lifecycle := Destroyed, destroyedAt := Some(when))];
        resources := MarkResources(resources, owner, when);
      }
      return true;
    }
  }

  lemma PassExtends(t: Tables, deployments: Deployments, order: seq<DeploymentId>, i: nat, store: StateStore,
                    quotaFails: set<DeploymentId>)
    requires Valid(t) && AllKnown(deployments, order) && i < |order|
    ensures var before := Pass(t, deployments, order[..i], store, quotaFails);
            var after := Pass(t, deployments, order[..i + 1], store, quotaFails);
            var step := Repair(before.0, deployments, order[i], store, quotaFails);
            && after == (step.0, before.1 + [step.1])
            && forall v :: With(order[..i + 1], after.1, v) ==
                           With(order[..i], before.1, v) + if step.1 == v then [order[i]] else []
  {
    assert order[..i + 1][..i] == order[..i];
    var before := Pass(t, deployments, order[..i], store, quotaFails);
    var after := Pass(t, deployments, order[..i + 1], store, quotaFails);
    assert after.1[..i] == before.1;
  }
}
