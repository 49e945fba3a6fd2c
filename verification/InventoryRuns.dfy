/**
 Guarantees of the repair pass and of confirmed-missing removal over whole passes and runs.
 */
module InventoryRuns {
  import opened Wrappers
  import opened InventorySync
  import opened InventoryRepair

  // ----- One deployment of a pass -----

  /** The state could be read and synchronised, so only the quota step can have failed. */
  ghost predicate Synchronised(t: Tables, deployments: Deployments, d: DeploymentId, store: StateStore)
    requires Valid(t) && d in deployments
  {
    d in store && store[d].Readable? && Refusal(t, deployments, d, store[d].outputs).None?
  }

  /**
   A skipped deployment leaves the rows untouched exactly when the error came from reading or
   synchronising its state; an error of the quota step comes after the rows were written.
   */
  lemma SkippedLeavesRows(t: Tables, deployments: Deployments, d: DeploymentId, store: StateStore, quotaFails: set<DeploymentId>)
    requires Valid(t) && d in deployments && Repair(t, deployments, d, store, quotaFails).1 == Skipped
    ensures var after := Repair(t, deployments, d, store, quotaFails).0;
            (after.vms == t.vms && after.resources == t.resources) <==> !Synchronised(t, deployments, d, store)
  {
    if Synchronised(t, deployments, d, store) {
      SyncAnchors(t, deployments, d, store[d].outputs);
      SyncKeepsTablesValid(t, deployments, d, store[d].outputs);
    }
  }

  /** A first pass over one deployment whose quota step fails: a row is written, the report says skipped. */
  lemma QuotaFailureIsNotAtomic()
    returns (t: Tables, deployments: Deployments, store: StateStore, after: Tables)
    ensures Valid(t) && "d" in deployments && t.resources == map[]
    ensures Repair(t, deployments, "d", store, {"d"}) == (after, Skipped) && |after.resources| == 1
    ensures Repair(t, deployments, "d", store, {}) == (after, Repaired)
  {
    t := Tables(map[], map[], 0);
    deployments := map["d" := Deployment(Scope("tenant", "project"), "vm", 1, "aws", "", 1, false, false)];
    store := map["d" := Readable(Outputs(Some("i-1"), None, None))];
    assert !Complete(t, deployments, "d") && Refusal(t, deployments, "d", store["d"].outputs).None?;
    after := Synced(t, deployments, "d", store["d"].outputs);
    assert after.resources == map[0 := SyncedResource(deployments["d"], "d", "i-1", None, 1)];
  }

  lemma SyncAnchors(t: Tables, deployments: Deployments, d: DeploymentId, o: Outputs)
    requires Valid(t) && d in deployments && Refusal(t, deployments, d, o).None?
    ensures Anchored(Synced(t, deployments, d, o), deployments, d)
  {
    var after := Synced(t, deployments, d, o);
    var found := ResourceOf(t.resources, d);
    var row := if found.Some? then found.value else t.nextId;
    assert row in after.resources && after.resources[row].deploymentId == d && after.resources[row].lifecycle == Active;
    if deployments[d].OnProxmox() {
      SyncLeavesOneActiveVm(t, deployments, d, o);
    }
  }

  /** Synchronising one deployment never takes the active rows of another. */
  lemma SyncKeepsOthersAnchored(t: Tables, deployments: Deployments, other: DeploymentId, o: Outputs, d: DeploymentId)
    requires Valid(t) && other in deployments && Refusal(t, deployments, other, o).None?
    requires d != other && Anchored(t, deployments, d)
    ensures Anchored(Synced(t, deployments, other, o), deployments, d)
  {
    var r :| r in t.resources && t.resources[r].deploymentId == d && t.resources[r].lifecycle == Active;
    SyncTouchesOneResource(t, deployments, other, o, r);
    if d in deployments && deployments[d].OnProxmox() {
      var v :| v in t.vms && t.vms[v].deploymentId == Some(d) && t.vms[v].lifecycle == Active;
      SyncTouchesOneVm(t, deployments, other, o, v);
    }
  }

  lemma RepairKeepsAnchored(t: Tables, deployments: Deployments, other: DeploymentId, store: StateStore,
                            quotaFails: set<DeploymentId>, d: DeploymentId)
    requires Valid(t) && other in deployments && Anchored(t, deployments, d)
    ensures Anchored(Repair(t, deployments, other, store, quotaFails).0, deployments, d)
  {
    if Synchronised(t, deployments, other, store) {
      if other == d {
        SyncAnchors(t, deployments, d, store[d].outputs);
      } else {
        SyncKeepsOthersAnchored(t, deployments, other, store[other].outputs, d);
      }
    }
  }

  // ----- Whole passes -----

  lemma {:induction false} PassKeepsAnchored(t: Tables, deployments: Deployments, order: seq<DeploymentId>,
                                             store: StateStore, quotaFails: set<DeploymentId>, d: DeploymentId)
    requires Valid(t) && AllKnown(deployments, order) && Anchored(t, deployments, d)
    ensures Anchored(Pass(t, deployments, order, store, quotaFails).0, deployments, d)
  {
    if order != [] {
      var init := order[..|order| - 1];
      PassKeepsAnchored(t, deployments, init, store, quotaFails, d);
      var before := Pass(t, deployments, init, store, quotaFails);
      RepairKeepsAnchored(before.0, deployments, order[|order| - 1], store, quotaFails, d);
    }
  }

  /** The pass wrote rows for this deployment, whatever it reported. */
  ghost predicate Written(t: Tables, deployments: Deployments, order: seq<DeploymentId>, store: StateStore,
                          quotaFails: set<DeploymentId>, i: nat)
    requires Valid(t) && AllKnown(deployments, order) && i < |order|
  {
    && Pass(t, deployments, order, store, quotaFails).1[i] != LeftAlone
    && Synchronised(Pass(t, deployments, order[..i], store, quotaFails).0, deployments, order[i], store)
  }

  /** It still has its active rows at the end of the pass. */
  lemma {:induction false} WrittenStaysAnchored(t: Tables, deployments: Deployments, order: seq<DeploymentId>,
                                                store: StateStore, quotaFails: set<DeploymentId>, i: nat)
    requires Valid(t) && AllKnown(deployments, order) && i < |order| && Written(t, deployments, order, store, quotaFails, i)
    ensures Anchored(Pass(t, deployments, order, store, quotaFails).0, deployments, order[i])
  {
    var init, last := order[..|order| - 1], order[|order| - 1];
    var before := Pass(t, deployments, init, store, quotaFails);
    if i == |order| - 1 {
      SyncAnchors(before.0, deployments, last, store[last].outputs);
    } else {
      assert init[..i] == order[..i];
      WrittenStaysAnchored(t, deployments, init, store, quotaFails, i);
      RepairKeepsAnchored(before.0, deployments, last, store, quotaFails, order[i]);
    }
  }

  lemma {:induction false} RepairedIsWritten(t: Tables, deployments: Deployments, order: seq<DeploymentId>,
                                             store: StateStore, quotaFails: set<DeploymentId>, i: nat)
    requires Valid(t) && AllKnown(deployments, order) && i < |order|
    requires Pass(t, deployments, order, store, quotaFails).1[i] == Repaired
    ensures Written(t, deployments, order, store, quotaFails, i)
  {
    if i < |order| - 1 {
      assert order[..|order| - 1][..i] == order[..i];
      RepairedIsWritten(t, deployments, order[..|order| - 1], store, quotaFails, i);
    }
  }

  /** A repaired deployment still has its active rows at the end of the pass. */
  lemma RepairedStaysAnchored(t: Tables, deployments: Deployments, order: seq<DeploymentId>, store: StateStore,
                              quotaFails: set<DeploymentId>, i: nat)
    requires Valid(t) && AllKnown(deployments, order) && i < |order|
    requires Pass(t, deployments, order, store, quotaFails).1[i] == Repaired
    ensures Anchored(Pass(t, deployments, order, store, quotaFails).0, deployments, order[i])
  {
    RepairedIsWritten(t, deployments, order, store, quotaFails, i);
    WrittenStaysAnchored(t, deployments, order, store, quotaFails, i);
  }

  lemma {:induction false} AnchoredIsLeftAlone(t: Tables, deployments: Deployments, order: seq<DeploymentId>,
                                               store: StateStore, quotaFails: set<DeploymentId>, i: nat)
    requires Valid(t) && AllKnown(deployments, order) && i < |order| && Anchored(t, deployments, order[i])
    ensures Pass(t, deployments, order, store, quotaFails).1[i] == LeftAlone
  {
    var init := order[..|order| - 1];
    if i == |order| - 1 {
      PassKeepsAnchored(t, deployments, init, store, quotaFails, order[i]);
    } else {
      AnchoredIsLeftAlone(t, deployments, init, store, quotaFails, i);
    }
  }

  /** What one pass repaired the next pass leaves alone, whatever the state store holds by then. */
  lemma NextPassLeavesAlone(t: Tables, deployments: Deployments,
                            order: seq<DeploymentId>, store: StateStore, quotaFails: set<DeploymentId>, i: nat,
                            order': seq<DeploymentId>, store': StateStore, quotaFails': set<DeploymentId>, j: nat)
    requires Valid(t) && AllKnown(deployments, order) && AllKnown(deployments, order')
    requires i < |order| && j < |order'| && order[i] == order'[j]
    requires Pass(t, deployments, order, store, quotaFails).1[i] == Repaired
    ensures var between := Pass(t, deployments, order, store, quotaFails).0;
            Pass(between, deployments, order', store', quotaFails').1[j] == LeftAlone
  {
    RepairedStaysAnchored(t, deployments, order, store, quotaFails, i);
    AnchoredIsLeftAlone(Pass(t, deployments, order, store, quotaFails).0, deployments, order', store', quotaFails', j);
  }

  // ----- Confirmed-missing removal -----

  /** The deployment is destroyed and no row presents it as alive. */
  ghost predicate Finalised(w: World, d: DeploymentId) {
    && d in w.deployments
    && w.deployments[d].destroyed
    && (forall r :: r in w.rows.vms && w.rows.vms[r].deploymentId == Some(d) ==> w.rows.vms[r].lifecycle == Destroyed)
    && (forall r :: r in w.rows.resources && w.rows.resources[r].deploymentId == d ==> w.rows.resources[r].lifecycle == Destroyed)
  }

  lemma RemovalKeepsValid(w: World, row: RowId, purge: bool, when: int)
    requires Valid(w.rows) && row in w.rows.vms && !OwnerBusy(w, row)
    ensures Valid(RemoveMissing(w, row, purge, when).rows)
  {
  }

  lemma RemovalFinalises(w: World, row: RowId, purge: bool, when: int)
    requires Valid(w.rows) && row in w.rows.vms && !OwnerBusy(w, row)
    requires w.rows.vms[row].deploymentId.Some? && w.rows.vms[row].deploymentId.value in w.deployments
    ensures Finalised(RemoveMissing(w, row, purge, when), w.rows.vms[row].deploymentId.value)
  {
  }

  /** A removal deletes or marks the VM row and the resource rows of its deployment, and leaves every other row. */
  lemma RemovalTouchesOwn(w: World, row: RowId, purge: bool, when: int, k: RowId)
    requires Valid(w.rows) && row in w.rows.vms && !OwnerBusy(w, row)
    ensures var t, own := RemoveMissing(w, row, purge, when).rows, w.rows.vms[row].deploymentId;
            && (k in w.rows.vms && k != row ==> k in t.vms && t.vms[k] == w.rows.vms[k])
            && (if purge then row !in t.vms
                else row in t.vms && t.vms[row] == w.rows.vms[row].(lifecycle := Lifecycle.Destroyed, destroyedAt := Some(when)))
            && (k in w.rows.resources && own != Some(w.rows.resources[k].deploymentId) ==>
                  k in t.resources && t.resources[k] == w.rows.resources[k])
            && (k in w.rows.resources && own == Some(w.rows.resources[k].deploymentId) ==>
                  if purge then k !in t.resources
                  else k in t.resources
                       && t.resources[k] == w.rows.resources[k].(lifecycle := Lifecycle.Destroyed, destroyedAt := Some(when)))
  {
  }

  datatype Event =
    | RepairPass(order: seq<DeploymentId>, store: StateStore, quotaFails: set<DeploymentId>)
    | Removal(row: RowId, purge: bool, when: int)
    /** A job synchronises the deployment it has just provisioned. */
    | Provisioned(d: DeploymentId, outputs: Outputs)

  /** A pass selects only deployments that are not destroyed. */
  ghost predicate Possible(w: World, e: Event) {
    match e
    case RepairPass(order, _, _) => forall d :: d in order ==> d in w.deployments && !w.deployments[d].destroyed
    case Removal(row, _, _) => row in w.rows.vms && !OwnerBusy(w, row)
    case Provisioned(d, o) =>
      d in w.deployments && !w.deployments[d].destroyed && Valid(w.rows) && Refusal(w.rows, w.deployments, d, o).None?
  }

  ghost function After(w: World, e: Event): World
    requires Valid(w.rows) && Possible(w, e)
  {
    match e
    case RepairPass(order, store, quotaFails) => w.(rows := Pass(w.rows, w.deployments, order, store, quotaFails).0)
    case Removal(row, purge, when) => RemoveMissing(w, row, purge, when)
    case Provisioned(d, o) => w.(rows := Synced(w.rows, w.deployments, d, o))
  }

  lemma {:induction false} PassKeepsFinalised(w: World, order: seq<DeploymentId>, store: StateStore,
                                              quotaFails: set<DeploymentId>, d: DeploymentId)
    requires Valid(w.rows) && AllKnown(w.deployments, order) && d !in order && Finalised(w, d)
    ensures Finalised(w.(rows := Pass(w.rows, w.deployments, order, store, quotaFails).0), d)
  {
    if order != [] {
      var init, last := order[..|order| - 1], order[|order| - 1];
      PassKeepsFinalised(w, init, store, quotaFails, d);
      var before := Pass(w.rows, w.deployments, init, store, quotaFails).0;
      if Synchronised(before, w.deployments, last, store) {
        SyncKeepsFinalised(w.(rows := before), last, store[last].outputs, d);
      }
    }
  }

  lemma SyncKeepsFinalised(w: World, other: DeploymentId, o: Outputs, d: DeploymentId)
    requires Valid(w.rows) && other in w.deployments && Refusal(w.rows, w.deployments, other, o).None?
    requires other != d && Finalised(w, d)
    ensures Finalised(w.(rows := Synced(w.rows, w.deployments, other, o)), d)
  {
  }

  lemma EventKeepsFinalised(w: World, e: Event, d: DeploymentId)
    requires Valid(w.rows) && Possible(w, e) && Finalised(w, d)
    ensures Finalised(After(w, e), d)
  {
    match e
    case RepairPass(order, store, quotaFails) => PassKeepsFinalised(w, order, store, quotaFails, d);
    case Removal(_, _, _) =>
    case Provisioned(other, o) => SyncKeepsFinalised(w, other, o, d);
  }

  /** Every possible event leaves valid tables, so a run can always go on. */
  lemma EventKeepsValid(w: World, e: Event)
    requires Valid(w.rows) && Possible(w, e)
    ensures Valid(After(w, e).rows)
  {
    match e
    case RepairPass(_, _, _) =>
    case Removal(row, purge, when) => RemovalKeepsValid(w, row, purge, when);
    case Provisioned(d, o) => SyncKeepsTablesValid(w.rows, w.deployments, d, o);
  }

  ghost predicate IsRun(worlds: seq<World>, events: seq<Event>) {
    && |worlds| == |events| + 1
    && Valid(worlds[0].rows)
    && forall i :: 0 <= i < |events| ==> RunStep(worlds, events, i)
  }

  ghost predicate RunStep(worlds: seq<World>, events: seq<Event>, i: nat)
    requires i < |events| && |worlds| == |events| + 1
  {
    Valid(worlds[i].rows) && Possible(worlds[i], events[i]) && worlds[i + 1] == After(worlds[i], events[i])
  }

  /** A finalised deployment is never rebuilt, by no later pass and after any other removals. */
  lemma {:induction false} FinalisedForever(worlds: seq<World>, events: seq<Event>, i: nat, j: nat, d: DeploymentId)
    requires IsRun(worlds, events) && i <= j < |worlds| && Finalised(worlds[i], d)
    ensures Finalised(worlds[j], d)
  {
    if i < j {
      FinalisedForever(worlds, events, i, j - 1, d);
      assert RunStep(worlds, events, j - 1);
      EventKeepsFinalised(worlds[j - 1], events[j - 1], d);
    }
  }

  // ----- A quota step that failed -----

  /** Passes leave the deployment alone: its rows are there, or it is finalised and no longer selected. */
  ghost predicate Settled(w: World, d: DeploymentId) {
    Anchored(w.rows, w.deployments, d) || Finalised(w, d)
  }

  lemma RemovalKeepsSettled(w: World, row: RowId, purge: bool, when: int, d: DeploymentId)
    requires Valid(w.rows) && row in w.rows.vms && !OwnerBusy(w, row) && d in w.deployments && Anchored(w.rows, w.deployments, d)
    ensures Settled(RemoveMissing(w, row, purge, when), d)
  {
    var t := RemoveMissing(w, row, purge, when);
    if w.rows.vms[row].deploymentId == Some(d) {
      RemovalFinalises(w, row, purge, when);
    } else {
      var r :| r in w.rows.resources && w.rows.resources[r].deploymentId == d && w.rows.resources[r].lifecycle == Active;
      assert r in t.rows.resources && t.rows.resources[r] == w.rows.resources[r];
      if w.deployments[d].OnProxmox() {
        var v :| v in w.rows.vms && w.rows.vms[v].deploymentId == Some(d) && w.rows.vms[v].lifecycle == Active;
        assert v in t.rows.vms && t.rows.vms[v] == w.rows.vms[v];
      }
    }
  }

  lemma ProvisioningKeepsAnchored(w: World, other: DeploymentId, o: Outputs, d: DeploymentId)
    requires Valid(w.rows) && other in w.deployments && Refusal(w.rows, w.deployments, other, o).None?
    requires Anchored(w.rows, w.deployments, d)
    ensures Anchored(Synced(w.rows, w.deployments, other, o), w.deployments, d)
  {
    if other == d {
      SyncAnchors(w.rows, w.deployments, d, o);
    } else {
      SyncKeepsOthersAnchored(w.rows, w.deployments, other, o, d);
    }
  }

  lemma EventKeepsSettled(w: World, e: Event, d: DeploymentId)
    requires Valid(w.rows) && Possible(w, e) && d in w.deployments && Settled(w, d)
    ensures d in After(w, e).deployments && Settled(After(w, e), d)
  {
    if Finalised(w, d) {
      EventKeepsFinalised(w, e, d);
    } else {
      match e
      case RepairPass(order, store, quotaFails) => PassKeepsAnchored(w.rows, w.deployments, order, store, quotaFails, d);
      case Removal(row, purge, when) => RemovalKeepsSettled(w, row, purge, when, d);
      case Provisioned(other, o) => ProvisioningKeepsAnchored(w, other, o, d);
    }
  }

  lemma {:induction false} SettledForever(worlds: seq<World>, events: seq<Event>, i: nat, j: nat, d: DeploymentId)
    requires IsRun(worlds, events) && i <= j < |worlds| && d in worlds[i].deployments && Settled(worlds[i], d)
    ensures d in worlds[j].deployments && Settled(worlds[j], d)
  {
    if i < j {
      SettledForever(worlds, events, i, j - 1, d);
      assert RunStep(worlds, events, j - 1);
      EventKeepsSettled(worlds[j - 1], events[j - 1], d);
    }
  }

  /** The i-th event is a pass that wrote the rows of its p-th deployment and reported it as skipped. */
  ghost predicate SkippedForQuota(worlds: seq<World>, events: seq<Event>, i: nat, p: nat)
    requires IsRun(worlds, events) && i < |events|
  {
    assert RunStep(worlds, events, i);
    var w, e := worlds[i], events[i];
    && e.RepairPass?
    && p < |e.order|
    && Pass(w.rows, w.deployments, e.order, e.store, e.quotaFails).1[p] == Skipped
    && Written(w.rows, w.deployments, e.order, e.store, e.quotaFails, p)
  }

  /**
   A deployment skipped for its quota step is left alone by every later pass of the run, whatever
   passes, removals and synchronisations come in between: no pass repeats the quota step.
   */
  lemma QuotaFailureIsForgotten(worlds: seq<World>, events: seq<Event>, i: nat, p: nat, j: nat, q: nat)
    requires IsRun(worlds, events) && i < j < |events| && SkippedForQuota(worlds, events, i, p)
    requires events[j].RepairPass? && q < |events[j].order| && events[j].order[q] == events[i].order[p]
    ensures AllKnown(worlds[j].deployments, events[j].order) && Valid(worlds[j].rows)
    ensures Pass(worlds[j].rows, worlds[j].deployments, events[j].order, events[j].store, events[j].quotaFails).1[q] == LeftAlone
  {
    assert RunStep(worlds, events, i) && RunStep(worlds, events, j);
    var w, e, d := worlds[i], events[i], events[i].order[p];
    WrittenStaysAnchored(w.rows, w.deployments, e.order, e.store, e.quotaFails, p);
    SettledForever(worlds, events, i + 1, j, d);
    AnchoredIsLeftAlone(worlds[j].rows, worlds[j].deployments, events[j].order, events[j].store, events[j].quotaFails, q);
  }
}
