/**
 The two-lock fence around instance operations. Normal operations pass a shared gate and then
 hold a shared activity lock; an exclusive operation takes the gate and then the activity lock
 for itself, so that new operations stop at the gate while the active ones drain.

 An operation is an index into `ops`; any number of operations may begin. Each action is one
 atomic step of one operation, and every acquisition may fail.
 */
module InstanceFence {

  type Pid = nat

  datatype Backend = Postgres | LockFiles

  datatype Kind = Normal(blocking: bool) | Exclusive

  /**
   Opening: opening the connection or the gate file.   AtGate: asking for the gate.
   PastGate: gate held, activity file not yet open.    AtActivity: asking for the activity lock.
   Admitted: normal operation holding both locks.      Working: inside the body.
   Leaving: in the `finally` block.                    Ended: returned or raised.
   */
  datatype Phase = Opening | AtGate | PastGate | AtActivity | Admitted | Working | Leaving | Ended

  /** The flags (or open handles) an operation keeps about its own locks. */
  datatype Operation = Operation(kind: Kind, phase: Phase, gate: bool, activity: bool)

  datatype Lock = Lock(shared: set<Pid>, exclusive: set<Pid>)

  datatype State = State(ops: seq<Operation>, gate: Lock, activity: Lock)

  datatype Action =
    | Begin(kind: Kind)
    | Open | OpenFails
    | TakeGate | GateRefused | GateFails
    | OpenActivity | OpenActivityFails
    | TakeActivity | ActivityRefused | ActivityFails
    | PassGate
    | FinishBody
    | DropActivity | DropGate | Close

  const INITIAL := State([], Lock({}, {}), Lock({}, {}))

  predicate Grantable(lock: Lock, kind: Kind) {
    lock.exclusive == {} && (kind.Exclusive? ==> lock.shared == {})
  }

  /** A try-lock is refused when the lock is held exclusively or an exclusive request is queued for it. */
  ghost predicate Contended(s: State, lock: Lock, at: Phase) {
    lock.exclusive != {} || exists q :: 0 <= q < |s.ops| && s.ops[q].kind.Exclusive? && s.ops[q].phase == at
  }

  ghost predicate Enabled(backend: Backend, s: State, p: Pid, a: Action) {
    if a.Begin? then p == |s.ops|
    else if p >= |s.ops| then false
    else
      var op := s.ops[p];
      match a
      case Open => op.phase == Opening
      case OpenFails => op.phase == Opening
      case TakeGate => op.phase == AtGate && Grantable(s.gate, op.kind)
      case GateRefused => op.phase == AtGate && op.kind == Normal(false) && Contended(s, s.gate, AtGate)
      case GateFails => op.phase == AtGate
      case OpenActivity => op.phase == PastGate
      case OpenActivityFails => op.phase == PastGate && backend == LockFiles
      case TakeActivity => op.phase == AtActivity && Grantable(s.activity, op.kind)
      case ActivityRefused => op.phase == AtActivity && op.kind == Normal(false) && Contended(s, s.activity, AtActivity)
      case ActivityFails => op.phase == AtActivity
      case PassGate => op.phase == Admitted
      case FinishBody => op.phase == Working
      case DropActivity => op.phase == Leaving && op.activity
      case DropGate => op.phase == Leaving && !op.activity && op.gate
      case Close => op.phase == Leaving && !op.activity && !op.gate
  }

  function Taken(lock: Lock, p: Pid, kind: Kind): Lock {
    if kind.Exclusive? then lock.(exclusive := lock.exclusive + {p}) else lock.(shared := lock.shared + {p})
  }

  function Dropped(lock: Lock, p: Pid, kind: Kind): Lock {
    if kind.Exclusive? then lock.(exclusive := lock.exclusive - {p}) else lock.(shared := lock.shared - {p})
  }

  function Moved(s: State, p: Pid, op: Operation): State
    requires p < |s.ops|
  {
    s.(ops := s.ops[p := op])
  }

  ghost function Apply(backend: Backend, s: State, p: Pid, a: Action): State
    requires Enabled(backend, s, p, a)
  {
    if a.Begin? then s.(ops := s.ops + [Operation(a.kind, Opening, false, false)])
    else
      var op := s.ops[p];
      match a
      case Open => Moved(s, p, op.(phase := AtGate))
      case OpenFails => Moved(s, p, op.(phase := Ended))
      case TakeGate => Moved(s, p, op.(phase := PastGate, gate := true)).(gate := Taken(s.gate, p, op.kind))
      case GateRefused => Moved(s, p, op.(phase := Leaving))
      case GateFails => Moved(s, p, op.(phase := Leaving))
      case OpenActivity => Moved(s, p, op.(phase := AtActivity))
      case OpenActivityFails => Moved(s, p, op.(phase := Leaving))
      case TakeActivity =>
        Moved(s, p, op.(phase := if op.kind.Exclusive? then Working else Admitted, activity := true))
          .(activity := Taken(s.activity, p, op.kind))
      case ActivityRefused => Moved(s, p, op.(phase := Leaving))
      case ActivityFails => Moved(s, p, op.(phase := Leaving))
      case PassGate => Moved(s, p, op.(phase := Working, gate := false)).(gate := Dropped(s.gate, p, op.kind))
      case FinishBody => Moved(s, p, op.(phase := Leaving))
      case DropActivity => Moved(s, p, op.(activity := false)).(activity := Dropped(s.activity, p, op.kind))
      case DropGate => Moved(s, p, op.(gate := false)).(gate := Dropped(s.gate, p, op.kind))
      case Close => Moved(s, p, op.(phase := Ended))
  }

  // ----- What every step keeps -----

  /** The flags match the point the operation has reached. */
  predicate FlagsFit(op: Operation) {
    match op.phase
    case Opening => !op.gate && !op.activity
    case AtGate => !op.gate && !op.activity
    case PastGate => op.gate && !op.activity
    case AtActivity => op.gate && !op.activity
    case Admitted => op.gate && op.activity && op.kind.Normal?
    case Working => op.activity && (op.gate <==> op.kind.Exclusive?)
    case Leaving => if op.kind.Exclusive? then op.activity ==> op.gate else !(op.gate && op.activity)
    case Ended => !op.gate && !op.activity
  }

  /** The lock table holds exactly what the operations believe they hold. */
  ghost predicate TableFits(s: State) {
    && (forall p: Pid :: p in s.gate.shared <==> p < |s.ops| && s.ops[p].gate && s.ops[p].kind.Normal?)
    && (forall p: Pid :: p in s.gate.exclusive <==> p < |s.ops| && s.ops[p].gate && s.ops[p].kind.Exclusive?)
    && (forall p: Pid :: p in s.activity.shared <==> p < |s.ops| && s.ops[p].activity && s.ops[p].kind.Normal?)
    && (forall p: Pid :: p in s.activity.exclusive <==> p < |s.ops| && s.ops[p].activity && s.ops[p].kind.Exclusive?)
  }

  /** An exclusive holder is alone. */
  ghost predicate Sound(lock: Lock) {
    forall p: Pid :: p in lock.exclusive ==> lock.exclusive == {p} && lock.shared == {}
  }

  ghost predicate Inv(s: State) {
    && (forall p :: 0 <= p < |s.ops| ==> FlagsFit(s.ops[p]))
    && TableFits(s)
    && Sound(s.gate)
    && Sound(s.activity)
  }

  lemma StepKeepsFlags(backend: Backend, s: State, p: Pid, a: Action)
    requires Inv(s) && Enabled(backend, s, p, a)
    ensures forall q :: 0 <= q < |Apply(backend, s, p, a).ops| ==> FlagsFit(Apply(backend, s, p, a).ops[q])
  {
  }

  lemma StepKeepsTable(backend: Backend, s: State, p: Pid, a: Action)
    requires Inv(s) && Enabled(backend, s, p, a)
    ensures TableFits(Apply(backend, s, p, a))
  {
  }

  lemma StepKeepsInv(backend: Backend, s: State, p: Pid, a: Action)
    requires Inv(s) && Enabled(backend, s, p, a)
    ensures Inv(Apply(backend, s, p, a))
  {
    StepKeepsFlags(backend, s, p, a);
    StepKeepsTable(backend, s, p, a);
  }

  ghost predicate Steps(backend: Backend, s: State, t: State) {
    exists p, a :: Enabled(backend, s, p, a) && t == Apply(backend, s, p, a)
  }

  /** A run: any interleaving of actions from the empty instance. */
  ghost predicate IsRun(backend: Backend, run: seq<State>) {
    && run != []
    && run[0] == INITIAL
    && forall i, j :: 0 <= i && j == i + 1 && j < |run| ==> Steps(backend, run[i], run[j])
  }

  lemma {:induction false} RunKeepsInv(backend: Backend, run: seq<State>, i: nat)
    requires IsRun(backend, run) && i < |run|
    ensures Inv(run[i])
  {
    if i > 0 {
      RunKeepsInv(backend, run, i - 1);
      assert Steps(backend, run[i - 1], run[i]);
      var p, a :| Enabled(backend, run[i - 1], p, a) && run[i] == Apply(backend, run[i - 1], p, a);
      StepKeepsInv(backend, run[i - 1], p, a);
    }
  }

  // ----- Safety over whole runs -----

  predicate WorksAlone(op: Operation) {
    op.phase == Working && op.kind.Exclusive?
  }

  /** While an exclusive body runs, no other body runs. */
  ghost predicate ExclusiveIsAlone(s: State) {
    forall p, q :: 0 <= p < |s.ops| && 0 <= q < |s.ops| && p != q && WorksAlone(s.ops[p])
      ==> s.ops[q].phase != Working
  }

  /** An operation that has ended appears nowhere in the lock table. */
  ghost predicate EndedHoldsNothing(s: State) {
    forall p :: 0 <= p < |s.ops| && s.ops[p].phase == Ended ==>
      p !in s.gate.shared && p !in s.gate.exclusive && p !in s.activity.shared && p !in s.activity.exclusive
  }

  lemma InvIsSafe(s: State)
    requires Inv(s)
    ensures ExclusiveIsAlone(s) && EndedHoldsNothing(s)
  {
  }

  /** In every state of every run, for both lock variants. */
  lemma RunIsSafe(backend: Backend, run: seq<State>, i: nat)
    requires IsRun(backend, run) && i < |run|
    ensures ExclusiveIsAlone(run[i]) && EndedHoldsNothing(run[i]) && TableFits(run[i])
  {
    RunKeepsInv(backend, run, i);
    InvIsSafe(run[i]);
  }

  /**
   A normal body runs under the activity lock alone, so that an exclusive operation can close the gate
   behind it; an exclusive body runs under both locks.
   */
  lemma WorkersHold(backend: Backend, run: seq<State>, i: nat, p: Pid)
    requires IsRun(backend, run) && i < |run| && p < |run[i].ops| && run[i].ops[p].phase == Working
    ensures run[i].ops[p].kind.Normal? ==> p in run[i].activity.shared && p !in run[i].gate.shared && p !in run[i].gate.exclusive
    ensures run[i].ops[p].kind.Exclusive? ==> p in run[i].activity.exclusive && p in run[i].gate.exclusive
  {
    RunKeepsInv(backend, run, i);
  }

  // ----- Draining -----

  /** The normal operations that an exclusive operation has to wait for. */
  ghost function ActiveNormals(s: State): set<Pid> {
    set p: Pid | p < |s.ops| && s.ops[p].kind.Normal? && s.ops[p].activity
  }

  ghost predicate HoldsGateAlone(s: State, x: Pid) {
    x < |s.ops| && s.ops[x].kind.Exclusive? && s.ops[x].gate
  }

  lemma StepDrains(backend: Backend, s: State, p: Pid, a: Action, x: Pid)
    requires Inv(s) && Enabled(backend, s, p, a) && HoldsGateAlone(s, x)
    ensures ActiveNormals(Apply(backend, s, p, a)) <= ActiveNormals(s)
  {
  }

  /** Once an exclusive operation holds the gate, the active normal operations only become fewer. */
  lemma {:induction false} GateDrains(backend: Backend, run: seq<State>, i: nat, j: nat, x: Pid)
    requires IsRun(backend, run) && i <= j < |run|
    requires forall k :: i <= k <= j ==> HoldsGateAlone(run[k], x)
    ensures ActiveNormals(run[j]) <= ActiveNormals(run[i])
  {
    if i < j {
      GateDrains(backend, run, i, j - 1, x);
      RunKeepsInv(backend, run, j - 1);
      assert Steps(backend, run[j - 1], run[j]);
      var p, a :| Enabled(backend, run[j - 1], p, a) && run[j] == Apply(backend, run[j - 1], p, a);
      StepDrains(backend, run[j - 1], p, a, x);
    }
  }

  /** A normal operation past the gate always gets the activity lock: no wait, no refusal. */
  lemma PastGateIsAdmitted(s: State, p: Pid)
    requires Inv(s) && p < |s.ops| && s.ops[p].kind.Normal? && s.ops[p].phase == AtActivity
    ensures Grantable(s.activity, s.ops[p].kind) && !Contended(s, s.activity, AtActivity)
  {
  }

  ghost predicate ExclusiveHasGate(s: State) {
    exists q :: 0 <= q < |s.ops| && s.ops[q].kind.Exclusive? && s.ops[q].gate
  }

  /**
   A normal operation is kept out by exclusive operations only, never by other normal ones: it can take
   the gate exactly when no exclusive operation has it, and is turned away only while one has it or asks for it.
   */
  lemma NormalEntry(backend: Backend, s: State, p: Pid)
    requires Inv(s) && p < |s.ops| && s.ops[p].kind.Normal? && s.ops[p].phase == AtGate
    ensures Enabled(backend, s, p, TakeGate) <==> !ExclusiveHasGate(s)
    ensures Enabled(backend, s, p, GateRefused) <==>
              !s.ops[p].kind.blocking
              && (ExclusiveHasGate(s) || exists q :: 0 <= q < |s.ops| && s.ops[q].kind.Exclusive? && s.ops[q].phase == AtGate)
  {
    if s.gate.exclusive != {} {
      var q :| q in s.gate.exclusive;
      assert s.ops[q].kind.Exclusive? && s.ops[q].gate;
    }
    if ExclusiveHasGate(s) {
      var q :| 0 <= q < |s.ops| && s.ops[q].kind.Exclusive? && s.ops[q].gate;
      assert q in s.gate.exclusive;
    }
  }

  /** An exclusive operation takes each lock exactly when no operation holds it. */
  lemma ExclusiveEntry(backend: Backend, s: State, p: Pid)
    requires Inv(s) && p < |s.ops| && s.ops[p].kind.Exclusive?
    ensures s.ops[p].phase == AtGate ==>
              (Enabled(backend, s, p, TakeGate) <==> forall q :: 0 <= q < |s.ops| ==> !s.ops[q].gate)
    ensures s.ops[p].phase == AtActivity ==>
              (Enabled(backend, s, p, TakeActivity) <==> forall q :: 0 <= q < |s.ops| ==> !s.ops[q].activity)
  {
    HeldBySome(s.ops, s.gate.shared + s.gate.exclusive, s.activity.shared + s.activity.exclusive);
  }

  lemma HeldBySome(ops: seq<Operation>, gate: set<Pid>, activity: set<Pid>)
    requires forall p: Pid :: p in gate <==> p < |ops| && ops[p].gate
    requires forall p: Pid :: p in activity <==> p < |ops| && ops[p].activity
    ensures gate == {} <==> forall q :: 0 <= q < |ops| ==> !ops[q].gate
    ensures activity == {} <==> forall q :: 0 <= q < |ops| ==> !ops[q].activity
  {
    forall q | 0 <= q < |ops| ensures (ops[q].gate ==> q in gate) && (ops[q].activity ==> q in activity) {
    }
  }

  // ----- Progress -----

  /** Actions that neither begin an operation nor fail. */
  predicate Advances(a: Action) {
    a in {Open, TakeGate, OpenActivity, TakeActivity, PassGate, FinishBody, DropActivity, DropGate, Close}
  }

  /** An operation that asks for no lock can advance on its own. */
  function OwnStep(op: Operation): Action
    requires op.phase !in {AtGate, AtActivity, Ended}
  {
    match op.phase
    case Opening => Open
    case PastGate => OpenActivity
    case Admitted => PassGate
    case Working => FinishBody
    case Leaving => if op.activity then DropActivity else if op.gate then DropGate else Close
  }

  ghost predicate CanAdvance(backend: Backend, s: State) {
    exists p, a :: Advances(a) && Enabled(backend, s, p, a)
  }

  /** No reachable state is a deadlock: while any operation is unfinished, some operation can advance. */
  lemma NoDeadlock(backend: Backend, s: State, p: Pid)
    requires Inv(s) && p < |s.ops| && s.ops[p].phase != Ended
    ensures CanAdvance(backend, s)
  {
    if q: Pid :| q < |s.ops| && s.ops[q].phase !in {AtGate, AtActivity, Ended} {
      assert Enabled(backend, s, q, OwnStep(s.ops[q]));
    } else if q: Pid :| q < |s.ops| && s.ops[q].phase == AtActivity {
      forall r | 0 <= r < |s.ops| ensures !s.ops[r].activity {
        assert FlagsFit(s.ops[r]);
      }
      assert s.activity.shared == {} && s.activity.exclusive == {};
      assert Enabled(backend, s, q, TakeActivity);
    } else {
      forall r | 0 <= r < |s.ops| ensures !s.ops[r].gate {
        assert FlagsFit(s.ops[r]);
      }
      assert s.gate.shared == {} && s.gate.exclusive == {};
      assert Enabled(backend, s, p, TakeGate);
    }
  }

  /** Upper bound on the actions an operation can still take. */
  function Remaining(op: Operation): nat {
    match op.phase
    case Opening => 9
    case AtGate => 8
    case PastGate => 7
    case AtActivity => 6
    case Admitted => 5
    case Working => 4
    case Leaving => 1 + (if op.activity then 1 else 0) + (if op.gate then 1 else 0)
    case Ended => 0
  }

  function Work(ops: seq<Operation>): nat {
    if ops == [] then 0 else Remaining(ops[0]) + Work(ops[1..])
  }

  lemma {:induction false} WorkOfUpdate(ops: seq<Operation>, p: Pid, op: Operation)
    requires p < |ops|
    ensures Work(ops[p := op]) == Work(ops) - Remaining(ops[p]) + Remaining(op)
  {
    if p == 0 {
      assert ops[p := op][1..] == ops[1..];
    } else {
      WorkOfUpdate(ops[1..], p - 1, op);
      assert ops[p := op][1..] == ops[1..][p - 1 := op];
    }
  }

  lemma StepDoesWork(backend: Backend, s: State, p: Pid, a: Action)
    requires Inv(s) && Enabled(backend, s, p, a) && !a.Begin?
    ensures Work(Apply(backend, s, p, a).ops) < Work(s.ops)
  {
    assert FlagsFit(s.ops[p]);
    WorkOfUpdate(s.ops, p, Apply(backend, s, p, a).ops[p]);
  }

  ghost predicate StepsWithoutArrival(backend: Backend, s: State, t: State) {
    exists p, a :: Enabled(backend, s, p, a) && !a.Begin? && t == Apply(backend, s, p, a)
  }

  /** Without new arrivals every interleaving, failures included, ends within the remaining work. */
  lemma {:induction false} FenceTerminates(backend: Backend, run: seq<State>)
    requires run != [] && Inv(run[0])
    requires forall i, j :: 0 <= i && j == i + 1 && j < |run| ==> StepsWithoutArrival(backend, run[i], run[j])
    ensures |run| - 1 <= Work(run[0].ops)
  {
    if |run| > 1 {
      assert StepsWithoutArrival(backend, run[0], run[1]);
      var p, a :| Enabled(backend, run[0], p, a) && !a.Begin? && run[1] == Apply(backend, run[0], p, a);
      StepKeepsInv(backend, run[0], p, a);
      StepDoesWork(backend, run[0], p, a);
      var rest := run[1..];
      forall i, j | 0 <= i && j == i + 1 && j < |rest| ensures StepsWithoutArrival(backend, rest[i], rest[j]) {
        assert StepsWithoutArrival(backend, run[i + 1], run[j + 1]);
      }
      FenceTerminates(backend, rest);
    }
  }

  /** Where nothing can advance any more, every operation has ended and both locks are free. */
  lemma QuietMeansFree(backend: Backend, s: State)
    requires Inv(s) && !CanAdvance(backend, s)
    ensures forall p :: 0 <= p < |s.ops| ==> s.ops[p].phase == Ended
    ensures s.gate == Lock({}, {}) && s.activity == Lock({}, {})
  {
    forall p | 0 <= p < |s.ops| ensures s.ops[p].phase == Ended && FlagsFit(s.ops[p]) {
      if s.ops[p].phase != Ended {
        NoDeadlock(backend, s, p);
      }
    }
    assert s.gate.shared == {} && s.gate.exclusive == {};
    assert s.activity.shared == {} && s.activity.exclusive == {};
  }
}
