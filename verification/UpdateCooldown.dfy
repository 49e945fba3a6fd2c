/**
 The retry quarantine of automatic updates: a commit that failed automatically is not tried
 automatically again before its deadline.
 */
module UpdateCooldown {
  import opened Wrappers

  type Sha = string
  type Minutes = int

  const COOLDOWN: Minutes := 180

  /** The durable part of the updater state. */
  datatype State = State(failed: Option<Sha>, notBefore: Option<Minutes>, failures: nat)

  /** `RaisesAfterwards`: the success is recorded, and then the closing event cannot be written. */
  datatype Outcome = Succeeds | RaisesAfterwards | Fails

  /**
   One call of `run_update`. `target` is None when the remote check raises. `gate` is when the
   cooldown is consulted, `ended` when the run is over; clocks do not run backwards inside a run.
   */
  datatype Run = Run(automatic: bool, target: Option<Sha>, available: bool, outcome: Outcome, gate: Minutes, ended: Minutes)

  predicate Deferred(s: State, sha: Sha, time: Minutes) {
    s.failed == Some(sha) && s.notBefore.Some? && time < s.notBefore.value
  }

  /** The run gets past the check and the cooldown and does its work. */
  predicate Proceeds(s: State, run: Run) {
    run.target.Some? && run.available && !(run.automatic && Deferred(s, run.target.value, run.gate))
  }

  function After(s: State, run: Run): State {
    if run.target.None? then if run.automatic then s.(failures := s.failures + 1) else s
    else if !Proceeds(s, run) then s
    else
      var saved := if run.outcome == Fails then s else State(None, None, 0);
      if run.outcome == Succeeds || !run.automatic then saved
      else State(run.target, Some(run.ended + COOLDOWN), saved.failures + 1)
  }

  class Updater {
    var failed: Option<Sha>
    var notBefore: Option<Minutes>
    var failures: nat

    function Contents(): State
      reads this
    {
      State(failed, notBefore, failures)
    }

    /** The state fields as `run_update` writes them; the bookkeeping of a failure comes last. */
    method RunUpdate(run: Run)
      modifies this
      ensures Contents() == After(old(Contents()), run)
    {
      var target := None;
      var raised := run.target.None?;
      if !raised {
        if !run.available {
          return;
        }
        target := run.target;
        if run.automatic && failed == target && notBefore.Some? && run.gate < notBefore.value {
          return;
        }
        if run.outcome != Fails {
          failures, failed, notBefore := 0, None, None;
        }
        raised := run.outcome != Succeeds;
      }
      if raised && run.automatic {
        failures := failures + 1;
        if target.Some? {
          failed := target;
          notBefore := Some(run.ended + COOLDOWN);
        }
      }
    }
  }

  function AfterAll(s: State, runs: seq<Run>): State {
    if runs == [] then s else After(AfterAll(s, runs[..|runs| - 1]), runs[|runs| - 1])
  }

  /** The commit is quarantined at least until the deadline. */
  predicate Quarantined(s: State, sha: Sha, deadline: Minutes) {
    s.failed == Some(sha) && s.notBefore.Some? && deadline <= s.notBefore.value
  }

  /**
   When there is an update, a run is put off exactly when it is automatic, its commit is the one that
   failed automatically and the deadline is still to come; a manual run is never put off.
   */
  lemma PutOffExactly(s: State, run: Run)
    requires run.target.Some? && run.available
    ensures !Proceeds(s, run) <==>
              run.automatic && s.failed == run.target && s.notBefore.Some? && run.gate < s.notBefore.value
    ensures !run.automatic ==> Proceeds(s, run)
    ensures run.target != s.failed ==> Proceeds(s, run)
  {
  }

  /** A success clears the bookkeeping; a failure is written down only for an automatic run. */
  lemma Bookkeeping(s: State, run: Run)
    ensures Proceeds(s, run) && run.outcome == Succeeds ==> After(s, run) == State(None, None, 0)
    ensures Proceeds(s, run) && run.outcome == Fails && !run.automatic ==> After(s, run) == s
    ensures Proceeds(s, run) && run.outcome == Fails && run.automatic ==>
              After(s, run) == State(run.target, Some(run.ended + 180), s.failures + 1)
    ensures !Proceeds(s, run) && run.target.Some? ==> After(s, run) == s
  {
  }

  /** Once the deadline has passed the commit is tried automatically again. */
  lemma CooldownEnds(s: State, first: Run, next: Run)
    requires Proceeds(s, first) && first.automatic && first.outcome != Succeeds
    requires next.automatic && next.target == first.target && next.available
    ensures Proceeds(After(s, first), next) <==> first.ended + 180 <= next.gate
  {
  }

  /** What ends a quarantine: a recorded success, or an automatic failure on another commit. */
  predicate Lifts(s: State, run: Run, sha: Sha) {
    Proceeds(s, run) &&
    match run.outcome
    case Succeeds => true
    case RaisesAfterwards => !run.automatic || run.target != Some(sha)
    case Fails => run.automatic && run.target != Some(sha)
  }

  lemma QuarantineStep(s: State, run: Run, sha: Sha, deadline: Minutes)
    requires Quarantined(s, sha, deadline) && run.gate <= run.ended
    ensures Quarantined(After(s, run), sha, deadline) <==> !Lifts(s, run, sha)
  {
  }

  /** An automatic failure puts the commit in quarantine for three hours. */
  lemma FailureQuarantines(s: State, run: Run)
    requires Proceeds(s, run) && run.automatic && run.outcome != Succeeds
    ensures Quarantined(After(s, run), run.target.value, run.ended + 180)
  {
  }

  ghost predicate NoneLifts(s: State, runs: seq<Run>, sha: Sha) {
    forall i :: 0 <= i < |runs| ==> runs[i].gate <= runs[i].ended && !Lifts(AfterAll(s, runs[..i]), runs[i], sha)
  }

  lemma {:induction false} QuarantineLasts(s: State, runs: seq<Run>, sha: Sha, deadline: Minutes)
    requires Quarantined(s, sha, deadline) && NoneLifts(s, runs, sha)
    ensures Quarantined(AfterAll(s, runs), sha, deadline)
    decreases |runs|
  {
    if runs != [] {
      var k := |runs| - 1;
      var init := runs[..k];
      assert forall i :: 0 <= i < k ==> init[i] == runs[i] && init[..i] == runs[..i];
      QuarantineLasts(s, init, sha, deadline);
      QuarantineStep(AfterAll(s, init), runs[k], sha, deadline);
    }
  }

  /**
   After an automatic failure, and whatever runs follow that neither succeed nor fail automatically
   on another commit, no automatic run on the commit proceeds before the deadline.
   */
  lemma CooldownHolds(s: State, first: Run, between: seq<Run>, next: Run)
    requires Proceeds(s, first) && first.automatic && first.outcome != Succeeds
    requires NoneLifts(After(s, first), between, first.target.value)
    requires next.automatic && next.target == first.target && next.gate < first.ended + 180
    ensures !Proceeds(AfterAll(After(s, first), between), next)
    ensures After(AfterAll(After(s, first), between), next) == AfterAll(After(s, first), between)
  {
    FailureQuarantines(s, first);
    QuarantineLasts(After(s, first), between, first.target.value, first.ended + 180);
  }
}
