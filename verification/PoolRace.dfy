/**
 Pool creation and renumbering as concurrent transactions: each asks for overlaps among the
 committed pools and commits later, with nothing locked in between but its own row.
 */
module PoolRace {
  import opened Wrappers
  import opened Cidr

  type PoolId = string
  type Tx = nat

  /** What a transaction is about to write, its overlap query passed. */
  datatype Change = Change(pool: PoolId, block: Block)

  datatype State = State(pools: map<PoolId, Block>, open: map<Tx, Change>)

  datatype Action = Check(change: Change) | Commit | Abort | Delete(pool: PoolId)

  ghost predicate Clear(s: State, c: Change) {
    forall q :: q in s.pools && q != c.pool ==> !Overlaps(c.block, s.pools[q])
  }

  ghost predicate Enabled(s: State, x: Tx, a: Action) {
    match a
    case Check(c) => x !in s.open && Clear(s, c) && forall y :: y in s.open ==> s.open[y].pool != c.pool
    case Commit => x in s.open
    case Abort => x in s.open
    case Delete(p) => forall y :: y in s.open ==> s.open[y].pool != p
  }

  ghost function Step(s: State, x: Tx, a: Action): State
    requires Enabled(s, x, a)
  {
    match a
    case Check(c) => s.(open := s.open[x := c])
    case Commit => State(s.pools[s.open[x].pool := s.open[x].block], s.open - {x})
    case Abort => s.(open := s.open - {x})
    case Delete(p) => s.(pools := s.pools - {p})
  }

  ghost predicate Disjoint(s: State) {
    forall p, q :: p in s.pools && q in s.pools && p != q ==> !Overlaps(s.pools[p], s.pools[q])
  }

  /** Pools stop being disjoint exactly when a transaction commits what its query would no longer pass. */
  lemma DisjointKept(s: State, x: Tx, a: Action)
    requires Disjoint(s) && Enabled(s, x, a)
    ensures Disjoint(Step(s, x, a)) <==> (a == Commit ==> Clear(s, s.open[x]))
  {
    if a == Commit && !Clear(s, s.open[x]) {
      var q :| q in s.pools && q != s.open[x].pool && Overlaps(s.open[x].block, s.pools[q]);
      assert Overlaps(Step(s, x, a).pools[s.open[x].pool], Step(s, x, a).pools[q]);
    }
  }

  // ----- Runs -----

  ghost predicate IsRun(states: seq<State>, who: seq<Tx>, acts: seq<Action>) {
    && |states| == |acts| + 1 == |who| + 1
    && states[0] == State(map[], map[])
    && forall i :: 0 <= i < |acts| ==> RunStep(states, who, acts, i)
  }

  ghost predicate RunStep(states: seq<State>, who: seq<Tx>, acts: seq<Action>, i: nat)
    requires i < |acts| && |states| == |acts| + 1 == |who| + 1
  {
    Enabled(states[i], who[i], acts[i]) && states[i + 1] == Step(states[i], who[i], acts[i])
  }

  ghost predicate InProgress(s: State, x: Tx, c: Change) {
    x in s.open && s.open[x] == c
  }

  /** At some moment both changes were in progress. */
  ghost predicate Concurrent(states: seq<State>, i: nat, c: Change, d: Change)
    requires i < |states|
  {
    exists n, x: Tx, y: Tx :: 0 <= n <= i && InProgress(states[n], x, c) && InProgress(states[n], y, d)
  }

  lemma ConcurrentLater(states: seq<State>, i: nat, k: nat, c: Change, d: Change)
    requires i <= k < |states| && Concurrent(states, i, c, d)
    ensures Concurrent(states, k, c, d) && Concurrent(states, k, d, c)
  {
    var n, x: Tx, y: Tx :| 0 <= n <= i && InProgress(states[n], x, c) && InProgress(states[n], y, d);
    assert InProgress(states[n], y, d) && InProgress(states[n], x, c);
  }

  /** What overlaps a change in progress was itself in progress beside it. */
  lemma {:induction false} OverlappedWasConcurrent(states: seq<State>, who: seq<Tx>, acts: seq<Action>, i: nat, x: Tx, q: PoolId)
    requires IsRun(states, who, acts) && i < |states|
    requires x in states[i].open && q in states[i].pools && q != states[i].open[x].pool
    requires Overlaps(states[i].open[x].block, states[i].pools[q])
    ensures Concurrent(states, i, states[i].open[x], Change(q, states[i].pools[q]))
  {
    if i > 0 {
      assert RunStep(states, who, acts, i - 1);
      var s, y, a := states[i - 1], who[i - 1], acts[i - 1];
      if a == Commit && s.open[y].pool == q {
        assert InProgress(s, x, states[i].open[x]) && InProgress(s, y, Change(q, states[i].pools[q]));
      } else {
        OverlappedWasConcurrent(states, who, acts, i - 1, x, q);
        ConcurrentLater(states, i - 1, i, states[i].open[x], Change(q, states[i].pools[q]));
      }
    }
  }

  /** So two committed pools overlap only if the two transactions that wrote them ran at the same time. */
  lemma {:induction false} OverlapNeedsRace(states: seq<State>, who: seq<Tx>, acts: seq<Action>, i: nat, p: PoolId, q: PoolId)
    requires IsRun(states, who, acts) && i < |states|
    requires p in states[i].pools && q in states[i].pools && p != q && Overlaps(states[i].pools[p], states[i].pools[q])
    ensures Concurrent(states, i, Change(p, states[i].pools[p]), Change(q, states[i].pools[q]))
  {
    if i > 0 {
      assert RunStep(states, who, acts, i - 1);
      var s, y, a := states[i - 1], who[i - 1], acts[i - 1];
      var c, d := Change(p, states[i].pools[p]), Change(q, states[i].pools[q]);
      if a == Commit && s.open[y].pool == p {
        OverlappedWasConcurrent(states, who, acts, i - 1, y, q);
        ConcurrentLater(states, i - 1, i, c, d);
      } else if a == Commit && s.open[y].pool == q {
        OverlappedWasConcurrent(states, who, acts, i - 1, y, p);
        ConcurrentLater(states, i - 1, i, d, c);
      } else {
        OverlapNeedsRace(states, who, acts, i - 1, p, q);
        ConcurrentLater(states, i - 1, i, c, d);
      }
    }
  }

  /** One pool created twice at the same time under two names. */
  lemma RaceCanOverlap() returns (states: seq<State>, who: seq<Tx>, acts: seq<Action>)
    ensures IsRun(states, who, acts) && !Disjoint(states[|acts|])
  {
    var block := Block(0, 8);
    var c, d := Change("p", block), Change("q", block);
    states := [State(map[], map[]), State(map[], map[1 := c]), State(map[], map[1 := c, 2 := d]),
               State(map["p" := block], map[2 := d]), State(map["p" := block, "q" := block], map[])];
    who, acts := [1, 2, 1, 2], [Check(c), Check(d), Commit, Commit];
    assert RunStep(states, who, acts, 0) && RunStep(states, who, acts, 1);
    assert RunStep(states, who, acts, 2) && RunStep(states, who, acts, 3);
    assert Overlaps(states[4].pools["p"], states[4].pools["q"]);
  }
}
