/**
 Drivers without a stop callback: when a monitor calls a missing one, and when starts and
 stops stay in balance for them too.
 */
module DiscoveryStops {
  import opened Basics
  import opened Discovery
  import opened DiscoveryProofs

  predicate Registered(reg: Registry, c: DeviceClass, d: Driver) {
    c in reg && d in reg[c]
  }

  /** The driver has the callback that a start of this kind uses. */
  predicate Askable(d: Driver, recovery: bool) {
    if recovery then d.canRecover else d.canDiscover
  }

  /** Every registered driver that can be started can be stopped. */
  ghost predicate AllStoppable(reg: Registry) {
    forall c, d :: Registered(reg, c, d) && (d.canDiscover || d.canRecover) ==> d.canStop
  }

  // ----- answers from outside

  const ALL_YES: Answers := Answers(c => true, c => true, (c, d) => true, (c, d) => true)

  /** Everything is ready and every driver starts, but one. */
  function AllBut(c: DeviceClass, d: Driver): Answers {
    Answers(x => true, x => true, (x, y) => true, (x, y) => x != c || y != d)
  }

  predicate Ready(ans: Answers, c: DeviceClass) {
    ans.serviceReady(c) && ans.listReady(c)
  }

  lemma CanStartReady(reg: Registry, c: DeviceClass, d: Driver, recovery: bool, ans: Answers)
    requires Registered(reg, c, d) && Askable(d, recovery) && Ready(ans, c)
    ensures CanStart(reg, c, recovery, ans)
  {
    var ds := DriversOf(reg, c);
    var i :| 0 <= i < |ds| && ds[i] == d;
    assert AnyUsable(ds, true);
    assert recovery ==> AnyRecovers(ds, true);
  }

  // ----- calling a missing stop callback

  lemma ChooseOne(reg: Registry, c: DeviceClass, recovery: bool, ans: Answers)
    requires CanStart(reg, c, recovery, ans)
    ensures Choose(reg, map[], [c], recovery, ans) == Chosen([c])
  {
    assert [c][..0] == [];
    assert Choose(reg, map[], [], recovery, ans) == Chosen([]);
  }

  lemma StartOne(reg: Registry, c: DeviceClass, d: Driver, recovery: bool)
    requires Registered(reg, c, d) && Askable(d, recovery)
    ensures DoStart(Initial(), reg, [c], recovery, ALL_YES).0 ==
            AddMonitor(Initial(), c, Started(reg, c, recovery, ALL_YES))
    ensures d in Started(reg, c, recovery, ALL_YES)
  {
    CanStartReady(reg, c, d, recovery, ALL_YES);
    ChooseOne(reg, c, recovery, ALL_YES);
    StartedShape(DriversOf(reg, c), c, recovery, ALL_YES);
    assert !StartFails(reg, [c], recovery, ALL_YES);
    assert [c][..0] == [];
    assert WithMonitors(Initial(), reg, [], recovery, ALL_YES) == Initial();
  }

  /** One driver that can be started and not stopped is enough. */
  lemma NullStopReached(reg: Registry, c: DeviceClass, d: Driver, recovery: bool) returns (run: seq<Action>)
    requires Registered(reg, c, d) && Askable(d, recovery) && !d.canStop
    ensures Run(Initial(), reg, run).nullStop
  {
    var a, b := Start([c], recovery, ALL_YES), MonitorStop(c);
    run := [a, b];
    StartOne(reg, c, d, recovery);
    var s := Next(Initial(), reg, a);
    assert CanMonitorStop(s, c);
    StoppableShape(s.lists[s.active[c].list].drivers);
    var t := Next(s, reg, b);
    assert t.nullStop;
    assert run[1..] == [b] && [b][1..] == [];
    assert Run(t, reg, []) == t;
    assert Run(s, reg, [b]) == t;
  }

  /** No live list holds a driver that cannot be stopped, and none was called. */
  ghost predicate Stoppables(s: State) {
    && !s.nullStop
    && (forall l, d :: l in s.lists && d in s.lists[l].drivers ==> d.canStop)
  }

  lemma StartedStoppable(reg: Registry, c: DeviceClass, recovery: bool, ans: Answers)
    requires AllStoppable(reg)
    ensures forall d :: d in Started(reg, c, recovery, ans) ==> d.canStop
  {
    StartedShape(DriversOf(reg, c), c, recovery, ans);
    forall d | d in Started(reg, c, recovery, ans)
      ensures d.canStop
    {
      assert Registered(reg, c, d);
    }
  }

  lemma {:induction false} WithMonitorsStoppable(s: State, reg: Registry, cs: seq<DeviceClass>, recovery: bool,
                                                 ans: Answers)
    requires AllStoppable(reg) && Stoppables(s)
    ensures Stoppables(WithMonitors(s, reg, cs, recovery, ans))
  {
    if cs != [] {
      var n := |cs| - 1;
      WithMonitorsStoppable(s, reg, cs[..n], recovery, ans);
      StartedStoppable(reg, cs[n], recovery, ans);
    }
  }

  lemma NextStoppable(s: State, reg: Registry, a: Action)
    requires AllStoppable(reg) && Stoppables(s)
    ensures Stoppables(Next(s, reg, a))
  {
    if Enabled(s, a) {
      match a
      case Start(classes, recovery, ans) =>
        var cs := StartOutcomes(s, reg, classes, recovery, ans);
        WithMonitorsStoppable(s, reg, cs, recovery, ans);
      case MonitorStop(c) => StoppableShape(s.lists[s.active[c].list].drivers);
      case MonitorDelete(_) =>
      case MonitorUnref(_) =>
    }
  }

  lemma {:induction false} RunStoppable(s: State, reg: Registry, run: seq<Action>)
    requires AllStoppable(reg) && Stoppables(s)
    ensures Stoppables(Run(s, reg, run))
    decreases |run|
  {
    if run != [] {
      NextStoppable(s, reg, run[0]);
      RunStoppable(Next(s, reg, run[0]), reg, run[1..]);
    }
  }

  /** No run calls a missing stop callback if and only if every registered driver that can be
      started has one. */
  lemma NullStopNeverIff(reg: Registry)
    ensures (forall run :: !Run(Initial(), reg, run).nullStop) <==> AllStoppable(reg)
  {
    if AllStoppable(reg) {
      forall run
        ensures !Run(Initial(), reg, run).nullStop
      {
        RunStoppable(Initial(), reg, run);
      }
    } else {
      var c, d :| Registered(reg, c, d) && (d.canDiscover || d.canRecover) && !d.canStop;
      var run := NullStopReached(reg, c, d, !d.canDiscover);
    }
  }

  // ----- starts that add up

  /** Two uses that one start can ask for, the first of a driver that cannot be stopped. */
  predicate Pair(reg: Registry, recovery: bool, u: Use, v: Use) {
    && u != v && !u.driver.canStop
    && Registered(reg, u.cls, u.driver) && Askable(u.driver, recovery)
    && Registered(reg, v.cls, v.driver) && Askable(v.driver, recovery)
  }

  ghost predicate Lopsided(reg: Registry) {
    exists recovery, u, v :: Pair(reg, recovery, u, v)
  }

  function ClassesOf(u: Use, v: Use): seq<DeviceClass> {
    if u.cls == v.cls then [u.cls] else [u.cls, v.cls]
  }

  /** A start in which v fails to start. */
  function FailedStart(recovery: bool, u: Use, v: Use): Action {
    Start(ClassesOf(u, v), recovery, AllBut(v.cls, v.driver))
  }

  lemma ChooseAll(reg: Registry, classes: seq<DeviceClass>, recovery: bool, ans: Answers)
    requires forall c :: c in classes ==> CanStart(reg, c, recovery, ans)
    ensures Choose(reg, map[], classes, recovery, ans) == Chosen(classes)
  {
    if classes != [] {
      var n := |classes| - 1;
      ChooseAll(reg, classes[..n], recovery, ans);
      assert classes == classes[..n] + [classes[n]];
    }
  }

  lemma FailedStartFails(reg: Registry, recovery: bool, u: Use, v: Use)
    requires Pair(reg, recovery, u, v)
    ensures var cs, ans := ClassesOf(u, v), AllBut(v.cls, v.driver);
            && Choose(reg, map[], cs, recovery, ans) == Chosen(cs) && StartFails(reg, cs, recovery, ans)
            && u.cls in cs && u.driver in Started(reg, u.cls, recovery, ans)
  {
    var cs, ans := ClassesOf(u, v), AllBut(v.cls, v.driver);
    CanStartReady(reg, u.cls, u.driver, recovery, ans);
    CanStartReady(reg, v.cls, v.driver, recovery, ans);
    ChooseAll(reg, cs, recovery, ans);
    var ds := DriversOf(reg, v.cls);
    var i :| 0 <= i < |ds| && ds[i] == v.driver;
    assert AnyFailed(ds, v.cls, recovery, ans);
    assert cs[|cs| - 1] == v.cls;
    StartedShape(DriversOf(reg, u.cls), u.cls, recovery, ans);
  }

  lemma FailedStartAddsOne(s: State, reg: Registry, recovery: bool, u: Use, v: Use)
    requires WellFormed(reg) && Pair(reg, recovery, u, v) && s.active == map[]
    ensures var t := Next(s, reg, FailedStart(recovery, u, v));
            && t.active == map[] && t.nullStop == s.nullStop
            && t.starts[u] == s.starts[u] + 1 && t.stops[u] == s.stops[u]
  {
    var cs, ans := ClassesOf(u, v), AllBut(v.cls, v.driver);
    FailedStartFails(reg, recovery, u, v);
    assert Distinct(cs);
    StartUsesCount(reg, cs, recovery, ans, u);
    RollbackCount(reg, cs, recovery, ans, u);
    assert Next(s, reg, FailedStart(recovery, u, v)) == RolledBack(s, reg, cs, recovery, ans);
  }

  function Repeat(a: Action, k: nat): seq<Action> {
    if k == 0 then [] else [a] + Repeat(a, k - 1)
  }

  lemma {:induction false} FailedStartsAddUp(s: State, reg: Registry, recovery: bool, u: Use, v: Use, k: nat)
    requires WellFormed(reg) && Pair(reg, recovery, u, v) && s.active == map[]
    ensures var t := Run(s, reg, Repeat(FailedStart(recovery, u, v), k));
            t.nullStop == s.nullStop && t.starts[u] == s.starts[u] + k && t.stops[u] == s.stops[u]
    decreases k
  {
    if k > 0 {
      var a := FailedStart(recovery, u, v);
      var run := Repeat(a, k);
      assert run[0] == a && run[1..] == Repeat(a, k - 1);
      FailedStartAddsOne(s, reg, recovery, u, v);
      FailedStartsAddUp(Next(s, reg, a), reg, recovery, u, v, k - 1);
    }
  }

  /** Beside another driver that fails to start, one that cannot be stopped is started once more
      by every failed attempt and never stopped: the difference passes every bound. */
  lemma GrowsWithoutBound(reg: Registry, recovery: bool, u: Use, v: Use, k: nat) returns (run: seq<Action>)
    requires WellFormed(reg) && Pair(reg, recovery, u, v)
    ensures var s := Run(Initial(), reg, run); !s.nullStop && s.starts[u] == s.stops[u] + k
  {
    run := Repeat(FailedStart(recovery, u, v), k);
    FailedStartsAddUp(Initial(), reg, recovery, u, v, k);
  }

  // ----- and when they do not

  /** Where no pair exists, a start that fails has not started a driver it cannot stop. */
  lemma NotStartedBeside(reg: Registry, cs: seq<DeviceClass>, recovery: bool, ans: Answers, u: Use)
    requires !Lopsided(reg) && StartFails(reg, cs, recovery, ans) && !u.driver.canStop
    ensures u.driver !in Started(reg, u.cls, recovery, ans)
  {
    StartedShape(DriversOf(reg, u.cls), u.cls, recovery, ans);
    var i :| 0 <= i < |cs| && AnyFailed(DriversOf(reg, cs[i]), cs[i], recovery, ans);
    var ds := DriversOf(reg, cs[i]);
    var j :| 0 <= j < |ds| && Asked(ds[j], cs[i], recovery, ans) && !ans.starts(cs[i], ds[j]);
    assert !Pair(reg, recovery, u, Use(ds[j], cs[i]));
  }

  lemma RollbackBalanced(s: State, reg: Registry, cs: seq<DeviceClass>, recovery: bool, ans: Answers, u: Use)
    requires WellFormed(reg) && !Lopsided(reg) && Distinct(cs) && StartFails(reg, cs, recovery, ans)
             && BalancedFor(s, u)
    ensures BalancedFor(RolledBack(s, reg, cs, recovery, ans), u)
  {
    RollbackCount(reg, cs, recovery, ans, u);
    if !u.driver.canStop {
      NotStartedBeside(reg, cs, recovery, ans, u);
      StartUsesCount(reg, cs, recovery, ans, u);
    }
  }

  lemma {:induction false} WithMonitorsBalanced(s: State, reg: Registry, cs: seq<DeviceClass>, recovery: bool,
                                                ans: Answers, u: Use)
    requires WellFormed(reg) && Distinct(cs) && Inv(s) && BalancedFor(s, u)
    requires forall c :: c in cs ==> c !in s.active
    ensures BalancedFor(WithMonitors(s, reg, cs, recovery, ans), u)
  {
    if cs != [] {
      var n := |cs| - 1;
      assert forall e :: e in cs[..n] ==> e in cs;
      WithMonitorsBalanced(s, reg, cs[..n], recovery, ans, u);
      WithMonitorsKeeps(s, reg, cs[..n], recovery, ans);
      WithMonitorsFrame(s, reg, cs[..n], recovery, ans);
      StartedShape(DriversOf(reg, cs[n]), cs[n], recovery, ans);
      AddMonitorBalanced(WithMonitors(s, reg, cs[..n], recovery, ans), cs[n], Started(reg, cs[n], recovery, ans), u);
    }
  }

  lemma StartBalanced(s: State, reg: Registry, classes: seq<DeviceClass>, recovery: bool, ans: Answers, u: Use)
    requires WellFormed(reg) && !Lopsided(reg) && Distinct(classes) && Inv(s) && BalancedFor(s, u)
    ensures BalancedFor(DoStart(s, reg, classes, recovery, ans).0, u)
  {
    var choice := Choose(reg, s.active, classes, recovery, ans);
    if choice.Chosen? && choice.classes != [] {
      ChooseShape(reg, s.active, classes, recovery, ans);
      if StartFails(reg, choice.classes, recovery, ans) {
        RollbackBalanced(s, reg, choice.classes, recovery, ans, u);
      } else {
        WithMonitorsBalanced(s, reg, choice.classes, recovery, ans, u);
      }
    }
  }

  lemma MonitorStopBalanced(s: State, c: DeviceClass, u: Use)
    requires Inv(s) && CanMonitorStop(s, c) && BalancedFor(s, u) && !DoMonitorStop(s, c).nullStop
    ensures BalancedFor(DoMonitorStop(s, c), u)
  {
    var ds := s.lists[s.active[c].list].drivers;
    StoppableShape(ds);
    StoppableCount(c, ds, u);
    UsesCount(c, ds, u);
  }

  lemma NextBalanced(s: State, reg: Registry, a: Action, u: Use)
    requires WellFormed(reg) && !Lopsided(reg) && Inv(s) && BalancedFor(s, u) && !Next(s, reg, a).nullStop
    ensures BalancedFor(Next(s, reg, a), u)
  {
    if Enabled(s, a) {
      match a
      case Start(classes, recovery, ans) => StartBalanced(s, reg, classes, recovery, ans, u);
      case MonitorStop(c) => MonitorStopBalanced(s, c, u);
      case MonitorDelete(_) =>
      case MonitorUnref(_) =>
    }
  }

  lemma NextNullStop(s: State, reg: Registry, a: Action)
    ensures s.nullStop ==> Next(s, reg, a).nullStop
  {
    if Enabled(s, a) && a.Start? {
      var cs := StartOutcomes(s, reg, a.classes, a.recovery, a.ans);
      WithMonitorsNullStop(s, reg, cs, a.recovery, a.ans);
    }
  }

  lemma {:induction false} WithMonitorsNullStop(s: State, reg: Registry, cs: seq<DeviceClass>, recovery: bool,
                                                ans: Answers)
    ensures WithMonitors(s, reg, cs, recovery, ans).nullStop == s.nullStop
  {
    if cs != [] {
      WithMonitorsNullStop(s, reg, cs[..|cs| - 1], recovery, ans);
    }
  }

  lemma {:induction false} RunNullStop(s: State, reg: Registry, run: seq<Action>)
    requires s.nullStop
    ensures Run(s, reg, run).nullStop
    decreases |run|
  {
    if run != [] {
      NextNullStop(s, reg, run[0]);
      RunNullStop(Next(s, reg, run[0]), reg, run[1..]);
    }
  }

  lemma {:induction false} RunBalanced(s: State, reg: Registry, run: seq<Action>, u: Use)
    requires WellFormed(reg) && !Lopsided(reg) && Inv(s) && BalancedFor(s, u) && !Run(s, reg, run).nullStop
    ensures BalancedFor(Run(s, reg, run), u)
    decreases |run|
  {
    if run != [] {
      var t := Next(s, reg, run[0]);
      if t.nullStop {
        RunNullStop(t, reg, run[1..]);
      }
      NextKeeps(s, reg, run[0]);
      NextBalanced(s, reg, run[0], u);
      RunBalanced(t, reg, run[1..], u);
    }
  }

  ghost predicate StartsBalanced(s: State) {
    forall u: Use :: s.stops[u] <= s.starts[u] <= s.stops[u] + 1
  }

  /** For all drivers, with or without a stop callback, and as long as no monitor has called a
      missing one: starts minus stops stays 0 or 1 over every run, if and only if no driver that
      cannot be stopped shares a kind of start with another use that may fail. */
  lemma BalancedIff(reg: Registry)
    requires WellFormed(reg)
    ensures (forall run :: !Run(Initial(), reg, run).nullStop ==> StartsBalanced(Run(Initial(), reg, run))) <==>
            !Lopsided(reg)
  {
    if Lopsided(reg) {
      var recovery, u, v :| Pair(reg, recovery, u, v);
      var run := GrowsWithoutBound(reg, recovery, u, v, 2);
    } else {
      forall run | !Run(Initial(), reg, run).nullStop
        ensures StartsBalanced(Run(Initial(), reg, run))
      {
        var s := Run(Initial(), reg, run);
        forall u: Use
          ensures s.stops[u] <= s.starts[u] <= s.stops[u] + 1
        {
          RunBalanced(Initial(), reg, run, u);
        }
      }
    }
  }
}
