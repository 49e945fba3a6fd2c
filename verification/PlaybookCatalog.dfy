/**
 Custom Ansible playbooks and the snapshots of them that job payloads carry
 (`snapshot_ansible_payload`).
 */
module PlaybookCatalog {
  import opened Wrappers

  type PlaybookId = string

  datatype Definition = Definition(version: nat, content: string)

  /** Built-in playbooks hide custom ones of the same name and are never snapshotted. */
  datatype Catalog = Catalog(builtin: set<PlaybookId>, custom: map<PlaybookId, Definition>, disabled: set<PlaybookId>)

  datatype Snapshot = Snapshot(id: PlaybookId, definition: Definition)

  type Snapshots = map<PlaybookId, Snapshot>

  /** Every snapshot is filed under its own playbook id. */
  predicate WellFiled(snapshots: Snapshots) {
    forall p :: p in snapshots ==> snapshots[p].id == p
  }

  /** One configured run; None when the playbook is disabled or unknown and the request is refused. */
  function Extended(c: Catalog, snapshots: Snapshots, p: PlaybookId): Option<Snapshots> {
    if p in c.disabled then None
    else if p in snapshots && snapshots[p].id == p then Some(snapshots)
    else if p in c.builtin then Some(snapshots)
    else if p in c.custom then Some(snapshots[p := Snapshot(p, c.custom[p])])
    else None
  }

  function Snapshotted(c: Catalog, snapshots: Snapshots, runs: seq<PlaybookId>): Option<Snapshots> {
    if runs == [] then Some(snapshots)
    else
      match Snapshotted(c, snapshots, runs[..|runs| - 1])
      case None => None
      case Some(before) => Extended(c, before, runs[|runs| - 1])
  }

  method SnapshotPayload(c: Catalog, snapshots: Snapshots, runs: seq<PlaybookId>) returns (r: Option<Snapshots>)
    ensures r == Snapshotted(c, snapshots, runs)
  {
    var result := snapshots;
    for i := 0 to |runs|
      invariant Snapshotted(c, snapshots, runs[..i]) == Some(result)
    {
      assert runs[..i + 1][..i] == runs[..i];
      if runs[i] in c.disabled {
        RefusalSticks(c, snapshots, runs, i + 1);
        return None;
      }
      if runs[i] in result && result[runs[i]].id == runs[i] {
        continue;
      }
      if runs[i] !in c.builtin {
        if runs[i] !in c.custom {
          RefusalSticks(c, snapshots, runs, i + 1);
          return None;
        }
        result := result[runs[i] := Snapshot(runs[i], c.custom[runs[i]])];
      }
    }
    assert runs[..|runs|] == runs;
    return Some(result);
  }

  lemma {:induction false} RefusalSticks(c: Catalog, snapshots: Snapshots, runs: seq<PlaybookId>, i: nat)
    requires i <= |runs| && Snapshotted(c, snapshots, runs[..i]).None?
    ensures Snapshotted(c, snapshots, runs).None?
    decreases |runs|
  {
    if i == |runs| {
      assert runs[..i] == runs;
    } else {
      assert runs[..|runs| - 1][..i] == runs[..i];
      RefusalSticks(c, snapshots, runs[..|runs| - 1], i);
    }
  }

  /** Snapshots already in the payload survive unchanged, whatever the catalog says now. */
  lemma {:induction false} SnapshotsAreImmutable(c: Catalog, snapshots: Snapshots, runs: seq<PlaybookId>)
    requires WellFiled(snapshots) && Snapshotted(c, snapshots, runs).Some?
    ensures WellFiled(Snapshotted(c, snapshots, runs).value)
    ensures forall p :: p in snapshots ==>
              p in Snapshotted(c, snapshots, runs).value && Snapshotted(c, snapshots, runs).value[p] == snapshots[p]
    decreases |runs|
  {
    if runs != [] {
      SnapshotsAreImmutable(c, snapshots, runs[..|runs| - 1]);
    }
  }

  /** A snapshot that was not in the payload before is of a configured run and holds the definition of the catalog. */
  lemma {:induction false} NewSnapshotsQuoteCatalog(c: Catalog, snapshots: Snapshots, runs: seq<PlaybookId>, p: PlaybookId)
    requires WellFiled(snapshots) && Snapshotted(c, snapshots, runs).Some?
    requires p in Snapshotted(c, snapshots, runs).value && p !in snapshots
    ensures p in runs && p in c.custom && p !in c.builtin && p !in c.disabled
    ensures Snapshotted(c, snapshots, runs).value[p] == Snapshot(p, c.custom[p])
    decreases |runs|
  {
    var init := runs[..|runs| - 1];
    if p in Snapshotted(c, snapshots, init).value {
      SnapshotsAreImmutable(c, snapshots, init);
      NewSnapshotsQuoteCatalog(c, snapshots, init, p);
    }
  }

  /** The run is disabled, or it is neither in the payload nor in the catalog. */
  predicate Barred(c: Catalog, snapshots: Snapshots, p: PlaybookId) {
    p in c.disabled || (p !in snapshots && p !in c.builtin && p !in c.custom)
  }

  /** A request is refused exactly when one of its runs is barred. */
  lemma {:induction false} RefusedExactly(c: Catalog, snapshots: Snapshots, runs: seq<PlaybookId>)
    requires WellFiled(snapshots)
    ensures Snapshotted(c, snapshots, runs).None? <==> exists i :: 0 <= i < |runs| && Barred(c, snapshots, runs[i])
    decreases |runs|
  {
    if runs != [] {
      var init, last := runs[..|runs| - 1], runs[|runs| - 1];
      RefusedExactly(c, snapshots, init);
      assert forall i :: 0 <= i < |init| ==> runs[i] == init[i];
      if Snapshotted(c, snapshots, init).Some? {
        SnapshotsAreImmutable(c, snapshots, init);
        var before := Snapshotted(c, snapshots, init).value;
        if last in before && last !in snapshots {
          NewSnapshotsQuoteCatalog(c, snapshots, init, last);
        }
        assert Extended(c, before, last).None? <==> Barred(c, snapshots, last);
      }
    }
  }

  /** Every configured run is covered by a snapshot unless the playbook is built in. */
  lemma {:induction false} RunsAreCovered(c: Catalog, snapshots: Snapshots, runs: seq<PlaybookId>, i: nat)
    requires WellFiled(snapshots) && Snapshotted(c, snapshots, runs).Some? && i < |runs|
    ensures runs[i] in Snapshotted(c, snapshots, runs).value || runs[i] in c.builtin
    decreases |runs|
  {
    var init := runs[..|runs| - 1];
    SnapshotsAreImmutable(c, snapshots, init);
    if i < |runs| - 1 {
      RunsAreCovered(c, snapshots, init, i);
    }
  }

  /** A payload whose runs are covered needs no catalog: any later catalog that admits it returns it as it is. */
  lemma {:induction false} CoveredRunsIgnoreCatalog(c: Catalog, snapshots: Snapshots, runs: seq<PlaybookId>)
    requires WellFiled(snapshots) && Snapshotted(c, snapshots, runs).Some?
    requires forall i :: 0 <= i < |runs| ==> runs[i] in snapshots
    ensures Snapshotted(c, snapshots, runs).value == snapshots
    decreases |runs|
  {
    if runs != [] {
      CoveredRunsIgnoreCatalog(c, snapshots, runs[..|runs| - 1]);
    }
  }
}
