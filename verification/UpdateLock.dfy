/**
 The updater's threads and the lock they share: one update at a time, worker scaling never beside
 it, and what that lock does not give to TLS changes.
 */
module UpdateLock {
  import opened Wrappers

  type Tid = nat

  datatype Work =
    | Updating              // run_update; takes the lock only to write state
    | Scaling               // ensure_worker_capacity; holds the lock throughout
    | TlsChecked            // saw no update, has not taken the lock yet
    | TlsWriting            // holds the lock
    | Ended

  /** `current` is the global that names the update thread. */
  datatype State = State(holder: Option<Tid>, current: Option<Tid>, work: map<Tid, Work>)

  datatype Action = StartUpdate | EndUpdate | Die | BeginScale | EndScale | CheckTls | BeginTls | EndTls

  predicate Doing(s: State, t: Tid, w: Work) {
    t in s.work && s.work[t] == w
  }

  /** `update_operation_active`: a thread that is no longer alive does not count. */
  predicate Active(s: State) {
    s.current.Some? && Doing(s, s.current.value, Updating)
  }

  predicate Enabled(s: State, t: Tid, a: Action) {
    match a
    case StartUpdate => t !in s.work && s.holder.None? && !Active(s)
    case EndUpdate => Doing(s, t, Updating) && s.holder.None?
    case Die => Doing(s, t, Updating)
    case BeginScale => t !in s.work && s.holder.None? && !Active(s)
    case EndScale => Doing(s, t, Scaling)
    case CheckTls => t !in s.work && s.holder.None? && !Active(s)
    case BeginTls => Doing(s, t, TlsChecked) && s.holder.None?
    case EndTls => Doing(s, t, TlsWriting)
  }

  function Step(s: State, t: Tid, a: Action): State
    requires Enabled(s, t, a)
  {
    match a
    case StartUpdate => s.(current := Some(t), work := s.work[t := Updating])
    case EndUpdate => s.(current := None, work := s.work[t := Ended])
    case Die => s.(work := s.work[t := Ended])
    case BeginScale => s.(holder := Some(t), work := s.work[t := Scaling])
    case EndScale => s.(holder := None, work := s.work[t := Ended])
    case CheckTls => s.(work := s.work[t := TlsChecked])
    case BeginTls => s.(holder := Some(t), work := s.work[t := TlsWriting])
    case EndTls => s.(holder := None, work := s.work[t := Ended])
  }

  /** The update thread is the current one; scaling and TLS writers hold the lock; scaling excludes updates. */
  ghost predicate Inv(s: State) {
    && (forall t: Tid :: Doing(s, t, Updating) ==> s.current == Some(t))
    && (forall t: Tid :: Doing(s, t, Scaling) || Doing(s, t, TlsWriting) ==> s.holder == Some(t))
    && (forall t: Tid :: Doing(s, t, Scaling) ==> !Active(s))
  }

  lemma StepKeepsInv(s: State, t: Tid, a: Action)
    requires Inv(s) && Enabled(s, t, a)
    ensures Inv(Step(s, t, a))
  {
  }

  ghost predicate IsRun(states: seq<State>, who: seq<Tid>, acts: seq<Action>) {
    && |states| == |acts| + 1 == |who| + 1
    && states[0] == State(None, None, map[])
    && forall i :: 0 <= i < |acts| ==> RunStep(states, who, acts, i)
  }

  ghost predicate RunStep(states: seq<State>, who: seq<Tid>, acts: seq<Action>, i: nat)
    requires i < |acts| && |states| == |acts| + 1 == |who| + 1
  {
    Enabled(states[i], who[i], acts[i]) && states[i + 1] == Step(states[i], who[i], acts[i])
  }

  lemma {:induction false} RunKeepsInv(states: seq<State>, who: seq<Tid>, acts: seq<Action>, i: nat)
    requires IsRun(states, who, acts) && i < |states|
    ensures Inv(states[i])
  {
    if i > 0 {
      RunKeepsInv(states, who, acts, i - 1);
      assert RunStep(states, who, acts, i - 1);
      StepKeepsInv(states[i - 1], who[i - 1], acts[i - 1]);
    }
  }

  /** Over any number of threads: one update at most, and no worker scaling beside it. */
  lemma SingleFlight(states: seq<State>, who: seq<Tid>, acts: seq<Action>, i: nat, t: Tid, u: Tid)
    requires IsRun(states, who, acts) && i < |states| && Doing(states[i], t, Updating)
    ensures Doing(states[i], u, Updating) ==> t == u
    ensures !Doing(states[i], u, Scaling)
  {
    RunKeepsInv(states, who, acts, i);
    assert states[i].current == Some(t);
  }

  /** A dead update thread does not block the next one. */
  lemma DeathUnblocks(s: State, t: Tid, next: Tid)
    requires Inv(s) && Doing(s, t, Updating) && s.holder.None? && next !in s.work
    ensures Enabled(Step(s, t, Die), next, StartUpdate)
  {
  }

  // ----- TLS changes -----

  ghost predicate Overlap(s: State) {
    exists t: Tid, u: Tid :: Doing(s, t, TlsWriting) && Doing(s, u, Updating)
  }

  /** TLS files are written beside an update exactly when the lock is taken after an update has started. */
  lemma OverlapArises(s: State, t: Tid, a: Action)
    requires Inv(s) && Enabled(s, t, a) && !Overlap(s)
    ensures Overlap(Step(s, t, a)) <==> a == BeginTls && Active(s)
  {
    var n := Step(s, t, a);
    if a == BeginTls && Active(s) {
      assert Doing(n, t, TlsWriting) && Doing(n, s.current.value, Updating);
    }
    forall w: Tid, u: Tid ensures Doing(n, w, TlsWriting) && Doing(n, u, Updating) ==> a == BeginTls && Active(s) {
      assert w != t && Doing(n, w, TlsWriting) ==> Doing(s, w, TlsWriting);
      assert u != t && Doing(n, u, Updating) ==> Doing(s, u, Updating);
    }
  }

  /** And that can happen: the check is made before the lock is taken. */
  lemma TlsCanOverlapUpdate(tls: Tid, update: Tid)
    requires tls != update
    ensures exists states, who, acts :: IsRun(states, who, acts) && Overlap(states[|acts|])
  {
    var s0 := State(None, None, map[]);
    var s1 := Step(s0, tls, CheckTls);
    var s2 := Step(s1, update, StartUpdate);
    var s3 := Step(s2, tls, BeginTls);
    var states, who, acts := [s0, s1, s2, s3], [tls, update, tls], [CheckTls, StartUpdate, BeginTls];
    assert RunStep(states, who, acts, 0) && RunStep(states, who, acts, 1) && RunStep(states, who, acts, 2);
    assert Doing(s3, tls, TlsWriting) && Doing(s3, update, Updating);
    assert IsRun(states, who, acts) && Overlap(states[|acts|]);
  }
}
