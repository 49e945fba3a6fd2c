/**
 The canonical execution order of workflow steps (`ordered_workflow_steps`), used by the
 worker and by progress reporting.
 */
module WorkflowOrder {
  import opened DependencyGraph
  import opened Workflow

  datatype Ordering = Ordered(steps: seq<Step>) | GraphError

  /** Every step comes after all the steps it names. */
  ghost predicate Respects(order: seq<Step>) {
    forall i, d :: 0 <= i < |order| && d in order[i].dependsOn ==> ComesBefore(order, d, i)
  }

  ghost predicate ComesBefore(order: seq<Step>, d: StepId, i: int) {
    exists k :: 0 <= k < i && k < |order| && order[k].id == d
  }

  ghost predicate Permutation(a: seq<Step>, b: seq<Step>) {
    multiset(a) == multiset(b)
  }

  /** The position of each step in an order. */
  function Positions(order: seq<Step>): map<StepId, nat> {
    if order == [] then map[]
    else Positions(order[..|order| - 1])[order[|order| - 1].id := |order| - 1]
  }

  lemma {:induction false} PositionsLookup(order: seq<Step>, i: nat)
    requires UniqueIds(order) && i < |order|
    ensures order[i].id in Positions(order) && Positions(order)[order[i].id] == i
  {
    if i < |order| - 1 {
      PositionsLookup(order[..|order| - 1], i);
    }
  }

  lemma PermutationMembers(a: seq<Step>, b: seq<Step>)
    requires Permutation(a, b)
    ensures forall s :: s in a <==> s in b
  {
    forall s ensures s in a <==> s in b {
      assert s in a <==> multiset(a)[s] > 0;
      assert s in b <==> multiset(b)[s] > 0;
    }
  }

  /** An order that respects the dependencies ranks their graph. */
  lemma OrderIsRank(steps: seq<Step>, order: seq<Step>)
    requires UniqueIds(steps) && UniqueIds(order) && Permutation(steps, order) && Respects(order)
    ensures IsRank(GraphOf(steps), Positions(order))
  {
    PermutationMembers(steps, order);
    forall a, b | Edge(GraphOf(steps), a, b)
      ensures a in Positions(order) && b in Positions(order) && Positions(order)[b] < Positions(order)[a]
    {
      GraphEdge(steps, a, b);
      var s :| 0 <= s < |steps| && steps[s].id == a && b in steps[s].dependsOn;
      assert steps[s] in steps;
      var i :| 0 <= i < |order| && order[i] == steps[s];
      assert ComesBefore(order, b, i);
      var k :| 0 <= k < i && k < |order| && order[k].id == b;
      PositionsLookup(order, i);
      PositionsLookup(order, k);
    }
  }

  /** In every respecting order, what a step depends on, directly or not, comes earlier. */
  lemma DependenciesComeEarlier(steps: seq<Step>, order: seq<Step>, i: nat, j: nat)
    requires UniqueIds(steps) && UniqueIds(order) && Permutation(steps, order) && Respects(order)
    requires i < |order| && j < |order| && DependsOn(GraphOf(steps), order[i].id, order[j].id)
    ensures j < i
  {
    OrderIsRank(steps, order);
    RankFalls(GraphOf(steps), Positions(order), order[i].id, order[j].id);
    PositionsLookup(order, i);
    PositionsLookup(order, j);
  }

  function RemoveFirst(rows: seq<Step>, row: Step): (r: seq<Step>)
    requires row in rows
    ensures multiset(r) == multiset(rows) - multiset{row} && |r| == |rows| - 1
  {
    assert rows == [rows[0]] + rows[1..];
    if rows[0] == row then rows[1..] else [rows[0]] + RemoveFirst(rows[1..], row)
  }

  predicate IsReady(row: Step, completed: set<StepId>) {
    forall d :: d in row.dependsOn ==> d in completed
  }

  /** The pending rows whose dependencies are all completed, in list order. */
  function Ready(pending: seq<Step>, completed: set<StepId>): (r: seq<Step>)
    ensures forall s :: s in r <==> s in pending && IsReady(s, completed)
    ensures multiset(r) <= multiset(pending)
  {
    if pending == [] then []
    else
      assert pending == [pending[0]] + pending[1..];
      var rest := Ready(pending[1..], completed);
      if IsReady(pending[0], completed) then [pending[0]] + rest else rest
  }

  /** The invariant of the layered sort: what is ordered respects the dependencies and is what is completed. */
  ghost predicate Sorting(rows: seq<Step>, pending: seq<Step>, completed: set<StepId>, ordered: seq<Step>) {
    && multiset(ordered) + multiset(pending) == multiset(rows)
    && Respects(ordered)
    && (forall x :: x in completed <==> x in Ids(ordered))
  }

  lemma PlaceKeeps(rows: seq<Step>, pending: seq<Step>, completed: set<StepId>, ordered: seq<Step>, row: Step)
    requires Sorting(rows, pending, completed, ordered) && row in pending && IsReady(row, completed)
    ensures Sorting(rows, RemoveFirst(pending, row), completed + {row.id}, ordered + [row])
  {
    var next := ordered + [row];
    assert Ids(next) == Ids(ordered) + [row.id];
    forall i, d | 0 <= i < |next| && d in next[i].dependsOn ensures ComesBefore(next, d, i) {
      if i < |ordered| {
        assert ComesBefore(ordered, d, i);
        var k :| 0 <= k < i && k < |ordered| && ordered[k].id == d;
        assert next[k].id == d;
      } else {
        assert d in Ids(ordered);
        var k :| 0 <= k < |ordered| && Ids(ordered)[k] == d;
        assert next[k].id == d;
      }
    }
  }

  lemma {:induction false} LowestRanked(pending: seq<Step>, rank: map<StepId, nat>) returns (row: Step)
    requires pending != [] && forall s :: s in pending ==> s.id in rank
    ensures row in pending && forall s :: s in pending ==> rank[row.id] <= rank[s.id]
  {
    row := pending[0];
    if |pending| > 1 {
      assert pending == [pending[0]] + pending[1..];
      var best := LowestRanked(pending[1..], rank);
      row := if rank[best.id] < rank[row.id] then best else row;
    }
  }

  /** In a ranked graph some pending step is always ready, so an empty layer means a cycle. */
  lemma StuckMeansCycle(rows: seq<Step>, pending: seq<Step>, completed: set<StepId>, ordered: seq<Step>)
    requires UniqueIds(rows) && Closed(GraphOf(rows)) && Sorting(rows, pending, completed, ordered)
    requires pending != [] && Ready(pending, completed) == []
    ensures !HasRank(GraphOf(rows))
  {
    var g := GraphOf(rows);
    forall rank | IsRank(g, rank) ensures false {
      var full := map x | x in g.Keys + rank.Keys :: if x in rank then rank[x] else 0;
      forall s | s in pending ensures s.id in full {
        PendingIsRow(rows, pending, ordered, s);
        StepInGraph(rows, s);
      }
      var row := LowestRanked(pending, full);
      assert !IsReady(row, completed) by {
        assert row !in Ready(pending, completed);
      }
      var d :| d in row.dependsOn && d !in completed;
      PendingIsRow(rows, pending, ordered, row);
      StepInGraph(rows, row);
      assert Edge(g, row.id, d);
      var t := PendingStep(rows, pending, completed, ordered, d);
    }
  }

  lemma PendingIsRow(rows: seq<Step>, pending: seq<Step>, ordered: seq<Step>, s: Step)
    requires multiset(ordered) + multiset(pending) == multiset(rows) && s in pending
    ensures s in rows
  {
    assert multiset(pending)[s] > 0;
    assert multiset(rows)[s] > 0;
  }

  lemma StepInGraph(rows: seq<Step>, s: Step)
    requires UniqueIds(rows) && s in rows
    ensures s.id in GraphOf(rows) && GraphOf(rows)[s.id] == s.dependsOn
  {
  }

  /** A step that is not completed is still pending. */
  lemma PendingStep(rows: seq<Step>, pending: seq<Step>, completed: set<StepId>, ordered: seq<Step>, d: StepId)
    returns (t: Step)
    requires Sorting(rows, pending, completed, ordered) && d in GraphOf(rows) && d !in completed
    ensures t in pending && t.id == d
  {
    GraphKeys(rows);
    var i :| 0 <= i < |rows| && Ids(rows)[i] == d;
    t := rows[i];
    forall k | 0 <= k < |ordered| ensures ordered[k] != t {
      assert Ids(ordered)[k] == ordered[k].id;
    }
    assert multiset(rows)[t] > 0;
    assert multiset(ordered)[t] == 0;
    assert multiset(pending)[t] > 0;
  }

  /** The checks made before sorting. */
  ghost predicate Orderable(steps: seq<Step>) {
    && UniqueIds(steps)
    && "" !in Ids(steps)
    && (forall s :: s in steps ==> s.id !in s.dependsOn)
    && (forall s, d :: s in steps && d in s.dependsOn ==> d in Ids(steps))
    && HasRank(GraphOf(steps))
  }

  /** One layer: place every ready row, in order. */
  method PlaceLayer(rows: seq<Step>, pending: seq<Step>, completed: set<StepId>, ordered: seq<Step>)
    returns (pending': seq<Step>, completed': set<StepId>, ordered': seq<Step>)
    requires Sorting(rows, pending, completed, ordered) && Ready(pending, completed) != []
    ensures Sorting(rows, pending', completed', ordered') && |pending'| < |pending|
  {
    var ready := Ready(pending, completed);
    pending', completed', ordered' := pending, completed, ordered;
    for k := 0 to |ready|
      invariant Sorting(rows, pending', completed', ordered')
      invariant completed <= completed' && |pending'| == |pending| - k
      invariant multiset(ready[k..]) <= multiset(pending')
    {
      assert ready[k..] == [ready[k]] + ready[k + 1..];
      assert multiset(ready[k..])[ready[k]] > 0;
      assert ready[k] in ready;
      PlaceKeeps(rows, pending', completed', ordered', ready[k]);
      ordered' := ordered' + [ready[k]];
      completed' := completed' + {ready[k].id};
      pending' := RemoveFirst(pending', ready[k]);
    }
  }

  /**
   Sorting succeeds exactly on lists with distinct, known, acyclic steps, and then returns all
   of them in an order that respects the dependencies.
   */
  method OrderedWorkflowSteps(steps: seq<Step>) returns (r: Ordering)
    ensures r.Ordered? <==> Orderable(steps)
    ensures r.Ordered? ==> Permutation(steps, r.steps) && UniqueIds(r.steps) && Respects(r.steps)
  {
    var ids := Ids(steps);
    GraphSize(steps);
    if "" in ids || |GraphOf(steps)| != |steps| {
      return GraphError;
    }
    if exists s :: s in steps && (s.id in s.dependsOn || exists d :: d in s.dependsOn && d !in ids) {
      return GraphError;
    }
    DependenciesClose(steps);
    var pending, completed, ordered := steps, {}, [];
    while pending != []
      invariant Sorting(steps, pending, completed, ordered)
      decreases |pending|
    {
      if Ready(pending, completed) == [] {
        StuckMeansCycle(steps, pending, completed, ordered);
        return GraphError;
      }
      pending, completed, ordered := PlaceLayer(steps, pending, completed, ordered);
    }
    PermutationUnique(steps, ordered);
    OrderIsRank(steps, ordered);
    return Ordered(ordered);
  }

  lemma PermutationUnique(a: seq<Step>, b: seq<Step>)
    requires UniqueIds(a) && Permutation(a, b)
    ensures UniqueIds(b)
  {
    PermutationMembers(a, b);
    forall i, j | 0 <= i < j < |b| ensures b[i].id != b[j].id {
      assert b[i] in a && b[j] in a;
      if b[i] == b[j] {
        TwiceInMultiset(b, i, j);
        OnceInUnique(a, b[i]);
        assert false;
      }
    }
  }

  lemma TwiceInMultiset(b: seq<Step>, i: nat, j: nat)
    requires i < j < |b| && b[i] == b[j]
    ensures multiset(b)[b[i]] >= 2
  {
    assert b == b[..j] + [b[j]] + b[j + 1..];
    assert b[..j][i] == b[i];
  }

  lemma {:induction false} OnceInUnique(a: seq<Step>, s: Step)
    requires UniqueIds(a)
    ensures multiset(a)[s] <= 1
  {
    if a != [] {
      assert a == [a[0]] + a[1..];
      assert UniqueIds(a[1..]);
      OnceInUnique(a[1..], s);
      if a[0] == s {
        assert s !in a[1..];
      }
    }
  }
}
