/**
 The countdown refines one deadline per device. The specification keeps a single instant; the
 code keeps a remainder and the clock reading it belongs to, and rewrites both at each check.
 */
module WatchdogDeadline {
  import opened Watchdog

  function RunDevice(x: Tracked, ops: seq<Op>): Tracked
    decreases |ops|
  {
    if ops == [] then x else RunDevice(Apply(x, ops[0]), ops[1..])
  }

  // ----- the specification: one deadline

  datatype Deadline = Deadline(window: nat, at: int, failed: bool, notices: seq<Notice>)

  function Fail(a: Deadline): Deadline {
    if a.failed then a else a.(failed := true, notices := a.notices + [Failed])
  }

  /** A normal check fails the device exactly when the deadline has come. The time between its
      two clock readings is added to the deadline. A fast check leaves a hundredth. */
  function SpecStep(a: Deadline, op: Op): Deadline {
    match op
    case Pet(now) =>
      Deadline(a.window, now + a.window, false, if a.failed then a.notices + [Restored] else a.notices)
    case Check(readAt, syncAt, fast) =>
      if fast then
        var left := if readAt < a.at then (a.at - readAt) / 100 else 0;
        (if left == 0 then Fail(a) else a).(at := syncAt + left)
      else if readAt >= a.at then Fail(a)
      else a.(at := a.at + (syncAt - readAt))
    case Force => Fail(a)
    case Restore(now, secs) =>
      if secs < 0 || a.failed then a else a.(at := now + ToU32(secs * 1000))
    case Deliver(_) => a
  }

  function SpecRun(a: Deadline, ops: seq<Op>): Deadline
    decreases |ops|
  {
    if ops == [] then a else SpecRun(SpecStep(a, ops[0]), ops[1..])
  }

  /** The same with a deadline that checks never move. */
  function IdealStep(a: Deadline, op: Op): Deadline {
    if op.Check? then (if op.readAt >= a.at then Fail(a) else a) else SpecStep(a, op)
  }

  function IdealRun(a: Deadline, ops: seq<Op>): Deadline
    decreases |ops|
  {
    if ops == [] then a else IdealRun(IdealStep(a, ops[0]), ops[1..])
  }

  // ----- runs on a monotonic clock

  function TimeAfter(from: nat, op: Op): nat {
    match op
    case Pet(now) => now
    case Check(_, syncAt, _) => syncAt
    case Force => from
    case Restore(now, _) => now
    case Deliver(_) => from
  }

  predicate WellTimedOp(from: nat, op: Op) {
    match op
    case Pet(now) => from <= now < TWO_64
    case Check(readAt, syncAt, _) => from <= readAt <= syncAt < TWO_64
    case Force => true
    case Restore(now, _) => from <= now < TWO_64
    case Deliver(_) => true
  }

  predicate WellTimed(from: nat, ops: seq<Op>)
    decreases |ops|
  {
    ops == [] || (WellTimedOp(from, ops[0]) && WellTimed(TimeAfter(from, ops[0]), ops[1..]))
  }

  // ----- refinement

  /** The countdown x, last touched no later than from, stands for the deadline a. */
  predicate Represents(x: Tracked, from: nat, a: Deadline) {
    && x.device.lastSync <= from
    && x.device.inCommFail == a.failed && x.decided == a.notices && a.window == Window(x.device.timeoutSecs)
    && (x.device.lastSync + x.device.remaining == a.at || (x.device.remaining == 0 && a.at <= x.device.lastSync))
  }

  lemma StepRefines(x: Tracked, from: nat, a: Deadline, op: Op)
    requires Represents(x, from, a) && WellTimedOp(from, op)
    ensures Represents(Apply(x, op), TimeAfter(from, op), SpecStep(a, op))
  {
  }

  /** For every run of contacts, checks in either mode, forced failures and low-power restores,
      the code and the single deadline agree on the flag and on every notification decided on. */
  lemma {:induction false} RunRefines(x: Tracked, from: nat, a: Deadline, ops: seq<Op>)
    requires Represents(x, from, a) && WellTimed(from, ops)
    ensures RunDevice(x, ops).device.inCommFail == SpecRun(a, ops).failed
    ensures RunDevice(x, ops).decided == SpecRun(a, ops).notices
    decreases |ops|
  {
    if ops != [] {
      StepRefines(x, from, a, ops[0]);
      RunRefines(Apply(x, ops[0]), TimeAfter(from, ops[0]), SpecStep(a, ops[0]), ops[1..]);
    }
  }

  predicate NormalMode(ops: seq<Op>) {
    forall i :: 0 <= i < |ops| && ops[i].Check? ==> !ops[i].fast
  }

  predicate OneReading(ops: seq<Op>) {
    forall i :: 0 <= i < |ops| && ops[i].Check? ==> ops[i].readAt == ops[i].syncAt
  }

  /** With one clock reading per check the deadline is never moved by checks. */
  lemma {:induction false} OneReadingIsIdeal(a: Deadline, ops: seq<Op>)
    requires NormalMode(ops) && OneReading(ops)
    ensures SpecRun(a, ops) == IdealRun(a, ops)
    decreases |ops|
  {
    if ops != [] {
      assert ops[0].Check? ==> !ops[0].fast && ops[0].readAt == ops[0].syncAt;
      OneReadingIsIdeal(SpecStep(a, ops[0]), ops[1..]);
    }
  }

  /** With two readings the code is never in comm fail before the ideal deadline says so. */
  lemma {:induction false} NeverEarlier(a: Deadline, b: Deadline, from: nat, ops: seq<Op>)
    requires NormalMode(ops) && WellTimed(from, ops)
    requires a.window == b.window && (a.failed ==> b.failed) && (!b.failed ==> a.at >= b.at)
    ensures SpecRun(a, ops).failed ==> IdealRun(b, ops).failed
    decreases |ops|
  {
    if ops != [] {
      assert ops[0].Check? ==> !ops[0].fast;
      NeverEarlier(SpecStep(a, ops[0]), IdealStep(b, ops[0]), TimeAfter(from, ops[0]), ops[1..]);
    }
  }

  /** In normal mode the code enters comm fail no earlier than a deadline that checks never move,
      and with one clock reading per check it agrees with it on the flag and every
      notification. */
  lemma NormalModeMeetsIdeal(x: Tracked, from: nat, a: Deadline, ops: seq<Op>)
    requires Represents(x, from, a) && WellTimed(from, ops) && NormalMode(ops)
    ensures RunDevice(x, ops).device.inCommFail ==> IdealRun(a, ops).failed
    ensures OneReading(ops) ==>
              && RunDevice(x, ops).device.inCommFail == IdealRun(a, ops).failed
              && RunDevice(x, ops).decided == IdealRun(a, ops).notices
  {
    RunRefines(x, from, a, ops);
    NeverEarlier(a, a, from, ops);
    if OneReading(ops) {
      OneReadingIsIdeal(a, ops);
    }
  }

  // ----- in closed form: contact, then nothing but checks

  datatype Readings = Readings(readAt: nat, syncAt: nat)

  function Checks(rs: seq<Readings>): seq<Op> {
    seq(|rs|, i requires 0 <= i < |rs| => Check(rs[i].readAt, rs[i].syncAt, false))
  }

  /** Total time between the two readings of the checks so far. */
  function Lateness(rs: seq<Readings>): int {
    if rs == [] then 0 else rs[0].syncAt - rs[0].readAt + Lateness(rs[1..])
  }

  predicate LateAt(rs: seq<Readings>, deadline: int, i: nat) {
    i < |rs| && rs[i].readAt >= deadline + Lateness(rs[..i])
  }

  lemma {:induction false} FailedStays(a: Deadline, rs: seq<Readings>)
    requires a.failed
    ensures SpecRun(a, Checks(rs)).failed && SpecRun(a, Checks(rs)).notices == a.notices
    decreases |rs|
  {
    if rs != [] {
      assert Checks(rs)[1..] == Checks(rs[1..]);
      FailedStays(SpecStep(a, Checks(rs)[0]), rs[1..]);
    }
  }

  lemma LateShift(rs: seq<Readings>, deadline: int, i: nat)
    requires rs != [] && i < |rs| - 1
    ensures LateAt(rs, deadline, i + 1) <==> LateAt(rs[1..], deadline + (rs[0].syncAt - rs[0].readAt), i)
  {
    assert rs[..i + 1][1..] == rs[1..][..i];
  }

  lemma {:induction false} FailsAtFirstLate(a: Deadline, rs: seq<Readings>)
    requires !a.failed
    ensures SpecRun(a, Checks(rs)).failed <==> exists i: nat :: LateAt(rs, a.at, i)
    ensures SpecRun(a, Checks(rs)).notices ==
            if SpecRun(a, Checks(rs)).failed then a.notices + [Failed] else a.notices
    decreases |rs|
  {
    if rs == [] {
      assert forall i: nat :: !LateAt(rs, a.at, i);
    } else {
      var ops := Checks(rs);
      assert ops[1..] == Checks(rs[1..]);
      assert rs[..0] == [];
      if rs[0].readAt >= a.at {
        assert LateAt(rs, a.at, 0);
        FailedStays(SpecStep(a, ops[0]), rs[1..]);
      } else {
        var b := SpecStep(a, ops[0]);
        FailsAtFirstLate(b, rs[1..]);
        forall i: nat | i < |rs| - 1
          ensures LateAt(rs, a.at, i + 1) <==> LateAt(rs[1..], b.at, i)
        {
          LateShift(rs, a.at, i);
        }
        if i: nat :| LateAt(rs, a.at, i) {
          assert LateAt(rs[1..], b.at, i - 1);
        }
        if i: nat :| LateAt(rs[1..], b.at, i) {
          assert LateAt(rs, a.at, i + 1);
        }
      }
    }
  }

  /** After a contact at t0 and however many checks since, the device is in comm fail exactly
      when some check began at or after t0 plus the window plus the time that earlier checks
      spent between their two readings; one notification is then decided on. */
  lemma FailsExactlyAtDeadline(x: Tracked, t0: nat, rs: seq<Readings>)
    requires WellTimed(x.device.lastSync, [Pet(t0)] + Checks(rs))
    ensures var y := RunDevice(x, [Pet(t0)] + Checks(rs));
            var deadline := t0 + Window(x.device.timeoutSecs);
            && (y.device.inCommFail <==> exists i: nat :: LateAt(rs, deadline, i))
            && y.decided == x.decided + (if x.device.inCommFail then [Restored] else [])
                            + (if y.device.inCommFail then [Failed] else [])
  {
    var ops := [Pet(t0)] + Checks(rs);
    var w := Window(x.device.timeoutSecs);
    var c := Apply(x, Pet(t0));
    assert ops[0] == Pet(t0) && ops[1..] == Checks(rs);
    var a := Deadline(w, t0 + w, false, c.decided);
    assert RunDevice(x, ops) == RunDevice(c, Checks(rs));
    RunRefines(c, t0, a, Checks(rs));
    FailsAtFirstLate(a, rs);
  }

  /** The window is exact for timeouts up to 4294967 seconds and for no other: beyond that the
      32-bit product wraps and the device gets a shorter window. */
  lemma WindowExactIff(timeoutSecs: nat)
    ensures Window(timeoutSecs) == timeoutSecs * 1000 <==> timeoutSecs <= 4294967
  {
  }

  lemma WindowWraps()
    ensures Window(4294968) == 704
  {
  }

  // ----- fast mode

  /** At the same readings a fast check leaves no more time than a normal one, and fails a
      device whenever a normal one would. */
  lemma FastIsNeverLater(x: Tracked, readAt: nat, syncAt: nat)
    ensures var f, n := ApplyCheck(x, readAt, syncAt, true), ApplyCheck(x, readAt, syncAt, false);
            && f.device.remaining <= n.device.remaining
            && (n.device.inCommFail ==> f.device.inCommFail)
  {
  }

  /** Time left after k fast checks. */
  function FastBound(k: nat): nat {
    if k == 0 then TWO_32 - 1 else FastBound(k - 1) / 100
  }

  predicate FastChecks(checks: seq<Op>) {
    forall i :: 0 <= i < |checks| ==>
      checks[i].Check? && checks[i].fast && checks[i].readAt < TWO_64 && checks[i].syncAt < TWO_64
  }

  lemma {:induction false} FastShrinks(x: Tracked, checks: seq<Op>)
    requires Fits(x.device) && FastChecks(checks)
    ensures var y := RunDevice(x, checks);
            && Fits(y.device) && y.device.remaining <= FastBound(|checks|)
            && (checks != [] && FastBound(|checks|) == 0 ==> y.device.inCommFail)
    decreases |checks|
  {
    if checks != [] {
      var n := |checks| - 1;
      FastShrinks(x, checks[..n]);
      RunAppend(x, checks[..n], checks[n]);
      assert checks == checks[..n] + [checks[n]];
      var y := RunDevice(x, checks[..n]);
      var left := MillisUntilCommFail(y.device, checks[n].readAt);
      assert left <= FastBound(n);
    }
  }

  lemma {:induction false} RunAppend(x: Tracked, ops: seq<Op>, op: Op)
    ensures RunDevice(x, ops + [op]) == Apply(RunDevice(x, ops), op)
    decreases |ops|
  {
    if ops == [] {
      assert [op][1..] == [] && ([] + [op]) == [op];
    } else {
      assert (ops + [op])[1..] == ops[1..] + [op];
      RunAppend(Apply(x, ops[0]), ops[1..], op);
    }
  }

  /** Whatever its window, a silent device is in comm fail after five fast checks. */
  lemma FiveFastChecksFail(x: Tracked, checks: seq<Op>)
    requires Fits(x.device) && |checks| == 5 && FastChecks(checks)
    ensures RunDevice(x, checks).device.inCommFail
  {
    assert FastBound(2) == 429496;
    assert FastBound(4) == 42;
    assert FastBound(5) == 0;
    FastShrinks(x, checks);
  }

  // ----- low-power mode

  /** Seconds of extra delay asked for. */
  function ExtraSecs(d: Device, delaySecs: nat): nat {
    if delaySecs > d.timeoutSecs then delaySecs - d.timeoutSecs else 0
  }

  /** The saved seconds are exact if and only if the int32_t reading of the delay difference
      and of the sum stay in range. */
  lemma SavedSecondsExactIff(d: Device, now: nat, delaySecs: nat)
    requires Fits(d) && !d.inCommFail && now < TWO_64 && delaySecs < TWO_32
    ensures var secs := MillisUntilCommFail(d, now) / 1000;
            SavedSeconds(d, now, delaySecs) == secs + ExtraSecs(d, delaySecs) <==>
            d.timeoutSecs - TWO_31 <= delaySecs && secs + ExtraSecs(d, delaySecs) < TWO_31
  {
  }

  /** Saving and restoring at the same instant moves the deadline by exactly the extra delay,
      1000 * max(0, delay - timeout), less the part of a second that saving drops. */
  lemma SaveRestoreMovesDeadline(x: Tracked, now: nat, delaySecs: nat)
    requires Fits(x.device) && !x.device.inCommFail && now < TWO_64 && delaySecs < TWO_32
    requires x.device.timeoutSecs - TWO_31 <= delaySecs
    requires (MillisUntilCommFail(x.device, now) / 1000 + ExtraSecs(x.device, delaySecs)) * 1000 < TWO_31
    ensures var left := MillisUntilCommFail(x.device, now);
            var y := Apply(x, Restore(now, SavedSeconds(x.device, now, delaySecs)));
            && y.device.lastSync + y.device.remaining
               == now + left + 1000 * ExtraSecs(x.device, delaySecs) - left % 1000
            && y.decided == x.decided && !y.device.inCommFail
  {
    SavedSecondsExactIff(x.device, now, delaySecs);
  }

  /** Within the range of int32_t a saved value is negative exactly for a device in comm fail; and
      restoring a negative value changes nothing, so such a device stays in comm fail. */
  lemma FailedStaysFailed(x: Tracked, now: nat, later: nat, delaySecs: nat)
    requires Fits(x.device) && now < TWO_64 && delaySecs < TWO_32
    requires x.device.timeoutSecs - TWO_31 <= delaySecs
    requires MillisUntilCommFail(x.device, now) / 1000 + ExtraSecs(x.device, delaySecs) < TWO_31
    ensures SavedSeconds(x.device, now, delaySecs) < 0 <==> x.device.inCommFail
    ensures x.device.inCommFail ==>
              && SavedSeconds(x.device, now, delaySecs) == -1
              && Apply(x, Restore(later, SavedSeconds(x.device, now, delaySecs))) == x
    ensures forall secs :: secs < 0 || x.device.inCommFail ==> Apply(x, Restore(later, secs)) == x
  {
    if !x.device.inCommFail {
      SavedSecondsExactIff(x.device, now, delaySecs);
    }
  }

  /** A delay shorter than the timeout by more than 2^31 seconds reads as a large extension. */
  lemma ShortDelayReadAsExtension()
    ensures SavedSeconds(Device(TWO_32 - 1, 0, 0, false), 0, 0) == 1
  {
  }
}
