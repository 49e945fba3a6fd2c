/**
 Scaling the worker pool (`ensure_worker_capacity`): the configured count only grows, and a failed
 change puts the configuration text and the service units back.
 */
module WorkerCapacity {
  import opened Wrappers
  import opened KeyValueFile

  const KEY := "CP_WORKER_COUNT"
  const LIMIT := 64

  // ----- Decimal numbers -----

  function Digit(n: nat): char
    requires n < 10
  {
    ('0' as int + n) as char
  }

  function Decimal(n: nat): string {
    if n < 10 then [Digit(n)] else Decimal(n / 10) + [Digit(n % 10)]
  }

  predicate AllDigits(s: string) {
    forall i :: 0 <= i < |s| ==> '0' <= s[i] <= '9'
  }

  function Value(s: string): nat
    requires AllDigits(s)
  {
    if s == "" then 0 else 10 * Value(s[..|s| - 1]) + (s[|s| - 1] as int - '0' as int)
  }

  function ParseDecimal(s: string): Option<nat> {
    if s != "" && AllDigits(s) then Some(Value(s)) else None
  }

  lemma {:induction false} DecimalRoundTrip(n: nat)
    ensures Decimal(n) != "" && AllDigits(Decimal(n)) && Value(Decimal(n)) == n
  {
    if n >= 10 {
      DecimalRoundTrip(n / 10);
      var init := Decimal(n / 10);
      assert (init + [Digit(n % 10)])[..|init|] == init;
    }
  }

  // ----- The configured count -----

  /** What the configuration says, with one worker as the default; None when it is refused. */
  function ConfiguredCount(text: string): Option<nat> {
    var settings := Parse(text);
    var raw := if KEY in settings then Strip(settings[KEY]) else "1";
    var count := ParseDecimal(raw);
    if count.Some? && 1 <= count.value <= LIMIT then count else None
  }

  lemma DigitsAreWritable(s: string)
    requires AllDigits(s)
    ensures Writable(KEY, s) && Strip(s) == s
  {
  }

  /** Writing a count and reading it back; every other setting stays. */
  lemma CountReadsBack(text: string, count: nat)
    requires 1 <= count <= LIMIT
    ensures ConfiguredCount(Edit(text, KEY, Decimal(count))) == Some(count)
    ensures Parse(Edit(text, KEY, Decimal(count))) == Parse(text)[KEY := Decimal(count)]
  {
    DecimalRoundTrip(count);
    DigitsAreWritable(Decimal(count));
    SetThenParse(text, KEY, Decimal(count));
  }

  /** The count is 1 when CP_WORKER_COUNT is not set, the number it is set to from 1 to 64, and refused otherwise. */
  lemma CountIsExact(text: string, n: nat)
    ensures "CP_WORKER_COUNT" !in Parse(text) ==> ConfiguredCount(text) == Some(1)
    ensures "CP_WORKER_COUNT" in Parse(text) ==>
              (ConfiguredCount(text) == Some(n) <==>
               var raw := Strip(Parse(text)["CP_WORKER_COUNT"]);
               1 <= n <= 64 && raw != "" && AllDigits(raw) && Value(raw) == n)
  {
    assert "1"[..0] == "";
    assert Value("1") == 1;
  }

  // ----- Scaling -----

  datatype Unit = Unit(active: bool, enabled: bool)

  const RUNNING := Unit(true, true)

  function UnitAt(units: map<nat, Unit>, i: nat): Unit {
    if i in units then units[i] else Unit(false, false)
  }

  /** Units 1 to `target` are running, the others are as they were. */
  ghost predicate Ensured(before: map<nat, Unit>, after: map<nat, Unit>, target: nat) {
    forall i: nat :: UnitAt(after, i) == if 1 <= i <= target then RUNNING else UnitAt(before, i)
  }

  ghost predicate SameUnits(a: map<nat, Unit>, b: map<nat, Unit>) {
    forall i: nat :: UnitAt(a, i) == UnitAt(b, i)
  }

  datatype Result = Invalid | Busy | BadConfiguration | NotWritten | Failed | Unrestored | Done(previous: nat, count: nat)

  function Max(a: int, b: int): int {
    if a < b then b else a
  }

  // ----- Undoing -----

  /** A systemctl call of the rollback: its return code is ignored, an exception skips the rest for the unit. */
  datatype Command = Works | Fails | Raises

  /** How the stop and the disable of each unit turn out, where they are tried. */
  datatype Undo = Undo(stops: map<nat, Command>, disables: map<nat, Command>) {
    function Stop(i: nat): Command {
      if i in stops then stops[i] else Works
    }

    function Disable(i: nat): Command {
      if i in disables then disables[i] else Works
    }
  }

  /** A unit after its turn in the rollback. */
  function RolledBack(before: Unit, now: Unit, stop: Command, disable: Command): Unit {
    var stopped := if !before.active && stop == Works then now.(active := false) else now;
    if !before.enabled && disable == Works && (before.active || stop != Raises) then stopped.(enabled := false) else stopped
  }

  /** What has to be undone can be undone. */
  predicate Undoable(before: Unit, now: Unit, stop: Command, disable: Command) {
    && (now.active && !before.active ==> stop == Works)
    && (now.enabled && !before.enabled ==> disable == Works && (before.active || stop != Raises))
  }

  predicate Raised(before: Unit, now: Unit) {
    (before.active ==> now.active) && (before.enabled ==> now.enabled)
  }

  lemma UndoneIffUndoable(before: Unit, now: Unit, stop: Command, disable: Command)
    requires Raised(before, now)
    ensures RolledBack(before, now, stop, disable) == before <==> Undoable(before, now, stop, disable)
  {
  }

  /** A unit as a failing command leaves it: it was changed only if it was to be started and was reached. */
  function LeftBehind(before: map<nat, Unit>, reached: map<nat, Unit>, target: nat, i: nat): Unit {
    if 1 <= i <= target && UnitAt(before, i) != RUNNING && i in reached then reached[i] else UnitAt(before, i)
  }

  /** Every needed stop and disable succeeds. */
  ghost predicate AllUndoable(before: map<nat, Unit>, reached: map<nat, Unit>, target: nat, undo: Undo) {
    forall i: nat :: 1 <= i <= target ==>
                       Undoable(UnitAt(before, i), LeftBehind(before, reached, target, i), undo.Stop(i), undo.Disable(i))
  }

  lemma RollBackIsExact(before: map<nat, Unit>, reached: map<nat, Unit>, target: nat, undo: Undo, after: map<nat, Unit>)
    requires forall i :: i in reached ==> Raised(UnitAt(before, i), reached[i])
    requires forall i: nat :: UnitAt(after, i) ==
               if 1 <= i <= target then RolledBack(UnitAt(before, i), LeftBehind(before, reached, target, i), undo.Stop(i), undo.Disable(i))
               else UnitAt(before, i)
    ensures SameUnits(before, after) <==> AllUndoable(before, reached, target, undo)
  {
    forall i: nat | 1 <= i <= target
      ensures UnitAt(after, i) == UnitAt(before, i) <==>
              Undoable(UnitAt(before, i), LeftBehind(before, reached, target, i), undo.Stop(i), undo.Disable(i))
    {
      UndoneIffUndoable(UnitAt(before, i), LeftBehind(before, reached, target, i), undo.Stop(i), undo.Disable(i));
    }
  }

  class Pool {
    var text: string
    var units: map<nat, Unit>

    /** Which of the units have to be enabled and started. */
    method UnitsToEnsure(target: nat) returns (missing: set<nat>)
      ensures forall i :: i in missing <==> 1 <= i <= target && UnitAt(units, i) != RUNNING
    {
      missing := {};
      for i := 1 to target + 1
        invariant forall j :: j in missing <==> 1 <= j < i && UnitAt(units, j) != RUNNING
      {
        if UnitAt(units, i) != RUNNING {
          missing := missing + {i};
        }
      }
    }

    /** One systemctl command for all of them; when it fails, only `reached` of them were changed. */
    method EnableNow(missing: set<nat>, fails: bool, reached: map<nat, Unit>) returns (ok: bool)
      modifies `units
      ensures ok == !fails
      ensures forall i: nat :: UnitAt(units, i) ==
                if i in missing && ok then RUNNING
                else if i in missing && i in reached then reached[i]
                else UnitAt(old(units), i)
    {
      ok := !fails;
      if ok {
        units := map i | i in units.Keys + missing :: if i in missing then RUNNING else units[i];
      } else {
        units := map i | i in units.Keys + (missing * reached.Keys) :: if i in missing && i in reached then reached[i] else units[i];
      }
    }

    /** Units that were not active are stopped, units that were not enabled are disabled, in reverse order. */
    method RollBack(before: map<nat, Unit>, target: nat, undo: Undo)
      modifies `units
      ensures forall i: nat :: UnitAt(units, i) ==
                if 1 <= i <= target then RolledBack(UnitAt(before, i), UnitAt(old(units), i), undo.Stop(i), undo.Disable(i))
                else UnitAt(old(units), i)
    {
      var i := target;
      while i > 0
        invariant 0 <= i <= target
        invariant forall j: nat :: UnitAt(units, j) ==
                    if i < j <= target then RolledBack(UnitAt(before, j), UnitAt(old(units), j), undo.Stop(j), undo.Disable(j))
                    else UnitAt(old(units), j)
      {
        var unit := UnitAt(units, i);
        var raised := false;
        if !UnitAt(before, i).active {
          if undo.Stop(i) == Works {
            unit := unit.(active := false);
          }
          raised := undo.Stop(i) == Raises;
        }
        if !raised && !UnitAt(before, i).enabled && undo.Disable(i) == Works {
          unit := unit.(enabled := false);
        }
        units := units[i := unit];
        i := i - 1;
      }
    }

    /**
     `updating` is the single-flight check made under the lock. `writeFails` and `restoreFails` are
     the two writes of the configuration, `readFails` the look at the units. `fails` and `reached` say
     how the command turns out; it only ever starts and enables units. `undo` says how the rollback
     commands turn out.
     */
    method EnsureWorkerCapacity(minimum: int, updating: bool, writeFails: bool, readFails: bool, fails: bool,
                                reached: map<nat, Unit>, restoreFails: bool, undo: Undo)
      returns (r: Result)
      requires forall i :: i in reached ==> Raised(UnitAt(units, i), reached[i])
      modifies this
      ensures r == Invalid <==> !(1 <= minimum <= LIMIT)
      ensures r == Busy <==> 1 <= minimum <= LIMIT && updating
      ensures r == BadConfiguration <==> 1 <= minimum <= LIMIT && !updating && ConfiguredCount(old(text)).None?
      ensures r in {Invalid, Busy, BadConfiguration, NotWritten} ==> text == old(text) && units == old(units)
      ensures r !in {Invalid, Busy, BadConfiguration} ==>
                var previous := ConfiguredCount(old(text)).value;
                var target := Max(previous, minimum);
                var written := if target == previous then old(text) else Edit(old(text), KEY, Decimal(target));
                var touched := if readFails then map[] else reached;
                && previous <= target <= 64 && minimum <= target && (target == previous || target == minimum)
                && ConfiguredCount(written) == Some(target)
                && (r == NotWritten <==> target != previous && writeFails)
                && (r.Done? ==> r == Done(previous, target) && text == written && Ensured(old(units), units, target))
                && (r in {Failed, Unrestored} ==> fails || readFails)
                && (r.Done? ==> !readFails)
                && (r == Failed ==> text == old(text) && (target == previous || !restoreFails))
                && (r == Failed ==> (SameUnits(old(units), units) <==> AllUndoable(old(units), touched, target, undo)))
                && (r == Unrestored ==> target != previous && restoreFails && text == written)
                && (r == Unrestored ==> forall i: nat :: UnitAt(units, i) == LeftBehind(old(units), touched, target, i))
      ensures r.Done? ==> !fails || forall i: nat :: 1 <= i <= r.count ==> UnitAt(old(units), i) == RUNNING
    {
      if !(1 <= minimum <= LIMIT) {
        return Invalid;
      }
      if updating {
        return Busy;
      }
      var current := ConfiguredCount(text);
      if current.None? {
        return BadConfiguration;
      }
      var target := Max(current.value, minimum);
      var original, before := text, units;
      if target != current.value {
        CountReadsBack(original, target);
        if writeFails {
          return NotWritten;
        }
        text := SetKvValue(text, KEY, Decimal(target));
      }
      var ok := !readFails;
      if ok {
        var missing := UnitsToEnsure(target);
        if missing != {} {
          ok := EnableNow(missing, fails, reached);
        }
      }
      if !ok {
        if target != current.value {
          if restoreFails {
            return Unrestored;
          }
          text := original;
        }
        RollBack(before, target, undo);
        RollBackIsExact(before, if readFails then map[] else reached, target, undo, units);
        return Failed;
      }
      return Done(current.value, target);
    }
  }
}
