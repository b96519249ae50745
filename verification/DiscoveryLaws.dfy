/**
 When a discovery start succeeds and which drivers it starts, in terms of the registry and of
 the answers from outside alone (core/src/deviceService.c:451-634, 713-829).
 */
module DiscoveryLaws {
  import opened Basics
  import opened Discovery
  import opened DiscoveryProofs

  predicate IsDriverOf(reg: Registry, c: DeviceClass, d: Driver) {
    c in reg && d in reg[c]
  }

  /** A driver that may run before the service is ready and without a descriptor list. */
  ghost predicate HasAlwaysDriver(reg: Registry, c: DeviceClass) {
    exists d :: IsDriverOf(reg, c, d) && d.neverReject
  }

  ghost predicate HasDriver(reg: Registry, c: DeviceClass) {
    exists d: Driver :: IsDriverOf(reg, c, d)
  }

  ghost predicate HasRecovery(reg: Registry, c: DeviceClass, serviceReady: bool) {
    exists d :: IsDriverOf(reg, c, d) && d.canRecover && (serviceReady || d.neverReject)
  }

  /** Nothing stands in the way of the class. */
  ghost predicate Admitted(reg: Registry, c: DeviceClass, recovery: bool, ans: Answers) {
    && HasDriver(reg, c)
    && (!ans.serviceReady(c) ==> HasAlwaysDriver(reg, c))
    && (!ans.listReady(c) ==> HasAlwaysDriver(reg, c))
    && (recovery ==> HasRecovery(reg, c, ans.serviceReady(c)))
  }

  /** The driver has the callback for this kind of start, and the list, unless it needs none. */
  predicate Called(d: Driver, c: DeviceClass, recovery: bool, ans: Answers) {
    && (if recovery then d.canRecover else d.canDiscover)
    && (d.neverReject || ans.listReadyFor(c, d))
  }

  ghost predicate NoneFails(reg: Registry, c: DeviceClass, recovery: bool, ans: Answers) {
    forall d :: IsDriverOf(reg, c, d) && Called(d, c, recovery, ans) ==> ans.starts(c, d)
  }

  predicate IsNew(active: map<DeviceClass, Monitor>, classes: seq<DeviceClass>, c: DeviceClass) {
    c in classes && c !in active
  }

  lemma DriverAt(reg: Registry, c: DeviceClass, d: Driver) returns (i: nat)
    requires IsDriverOf(reg, c, d)
    ensures i < |DriversOf(reg, c)| && DriversOf(reg, c)[i] == d
  {
    i :| 0 <= i < |reg[c]| && reg[c][i] == d;
  }

  lemma UsableIff(reg: Registry, c: DeviceClass, ready: bool)
    ensures AnyUsable(DriversOf(reg, c), ready) <==> if ready then HasDriver(reg, c) else HasAlwaysDriver(reg, c)
  {
    var ds := DriversOf(reg, c);
    if AnyUsable(ds, ready) {
      var i :| 0 <= i < |ds| && (ready || ds[i].neverReject);
      assert IsDriverOf(reg, c, ds[i]);
    }
    if ready && HasDriver(reg, c) {
      var d :| IsDriverOf(reg, c, d);
      var i := DriverAt(reg, c, d);
      assert ds[i] == d;
    }
    if !ready && HasAlwaysDriver(reg, c) {
      var d :| IsDriverOf(reg, c, d) && d.neverReject;
      var i := DriverAt(reg, c, d);
      assert ds[i].neverReject;
    }
  }

  lemma RecoversIff(reg: Registry, c: DeviceClass, ready: bool)
    ensures AnyRecovers(DriversOf(reg, c), ready) <==> HasRecovery(reg, c, ready)
  {
    var ds := DriversOf(reg, c);
    if AnyRecovers(ds, ready) {
      var i :| 0 <= i < |ds| && (ready || ds[i].neverReject) && ds[i].canRecover;
      assert IsDriverOf(reg, c, ds[i]);
    }
    if HasRecovery(reg, c, ready) {
      var d :| IsDriverOf(reg, c, d) && d.canRecover && (ready || d.neverReject);
      var i := DriverAt(reg, c, d);
      assert ds[i].canRecover;
    }
  }

  lemma AdmittedIff(reg: Registry, c: DeviceClass, recovery: bool, ans: Answers)
    ensures CanStart(reg, c, recovery, ans) <==> Admitted(reg, c, recovery, ans)
  {
    UsableIff(reg, c, ans.serviceReady(c));
    UsableIff(reg, c, false);
    RecoversIff(reg, c, ans.serviceReady(c));
    assert HasAlwaysDriver(reg, c) ==> HasDriver(reg, c);
  }

  lemma NoneFailsIff(reg: Registry, c: DeviceClass, recovery: bool, ans: Answers)
    ensures !AnyFailed(DriversOf(reg, c), c, recovery, ans) <==> NoneFails(reg, c, recovery, ans)
  {
    var ds := DriversOf(reg, c);
    if i :| 0 <= i < |ds| && Asked(ds[i], c, recovery, ans) && !ans.starts(c, ds[i]) {
      assert IsDriverOf(reg, c, ds[i]);
    }
    if d :| IsDriverOf(reg, c, d) && Called(d, c, recovery, ans) && !ans.starts(c, d) {
      var i := DriverAt(reg, c, d);
      assert Asked(ds[i], c, recovery, ans);
    }
  }

  /** A start succeeds if and only if some class asked for is new, and every new class has the
      drivers that the service and the descriptor list allow, one that can recover for a
      recovery, and no driver that is called fails. */
  lemma StartsIff(s: State, reg: Registry, classes: seq<DeviceClass>, recovery: bool, ans: Answers)
    ensures DoStart(s, reg, classes, recovery, ans).1 <==>
            && (exists c :: IsNew(s.active, classes, c))
            && (forall c :: IsNew(s.active, classes, c) ==>
                  Admitted(reg, c, recovery, ans) && NoneFails(reg, c, recovery, ans))
  {
    StartSucceedsIff(s, reg, classes, recovery, ans);
    forall c
      ensures Startable(reg, c, recovery, ans) <==> Admitted(reg, c, recovery, ans) && NoneFails(reg, c, recovery, ans)
    {
      AdmittedIff(reg, c, recovery, ans);
      NoneFailsIff(reg, c, recovery, ans);
    }
    if exists c :: c in classes && c !in s.active {
      var c :| c in classes && c !in s.active;
      assert IsNew(s.active, classes, c);
    }
    AllNew(s, reg, classes, recovery, ans);
  }

  lemma AllNew(s: State, reg: Registry, classes: seq<DeviceClass>, recovery: bool, ans: Answers)
    ensures AllStartable(s.active, reg, classes, recovery, ans) <==>
            forall c :: IsNew(s.active, classes, c) ==> Startable(reg, c, recovery, ans)
  {
    if AllStartable(s.active, reg, classes, recovery, ans) {
      forall c | IsNew(s.active, classes, c)
        ensures Startable(reg, c, recovery, ans)
      {
        var i :| 0 <= i < |classes| && classes[i] == c;
      }
    } else {
      var i :| 0 <= i < |classes| && classes[i] !in s.active && !Startable(reg, classes[i], recovery, ans);
      assert IsNew(s.active, classes, classes[i]);
    }
  }

  /** No start gets past a class that is not admitted: nothing at all changes. */
  lemma RefusedChangesNothing(s: State, reg: Registry, classes: seq<DeviceClass>, recovery: bool, ans: Answers,
                              c: DeviceClass)
    requires IsNew(s.active, classes, c) && !Admitted(reg, c, recovery, ans)
    ensures DoStart(s, reg, classes, recovery, ans) == (s, false)
  {
    AdmittedIff(reg, c, recovery, ans);
    ChooseRefuses(reg, s.active, classes, recovery, ans);
    var i :| 0 <= i < |classes| && classes[i] == c;
    assert Unusable(reg, s.active, classes[i], recovery, ans);
  }

  /** The driver is called and starts. */
  predicate Gains(reg: Registry, u: Use, recovery: bool, ans: Answers) {
    IsDriverOf(reg, u.cls, u.driver) && Called(u.driver, u.cls, recovery, ans) && ans.starts(u.cls, u.driver)
  }

  lemma StartedIff(reg: Registry, u: Use, recovery: bool, ans: Answers)
    ensures u.driver in Started(reg, u.cls, recovery, ans) <==> Gains(reg, u, recovery, ans)
  {
    StartedShape(DriversOf(reg, u.cls), u.cls, recovery, ans);
  }

  ghost predicate AllAdmitted(active: map<DeviceClass, Monitor>, reg: Registry, classes: seq<DeviceClass>,
                              recovery: bool, ans: Answers) {
    forall c :: IsNew(active, classes, c) ==> Admitted(reg, c, recovery, ans)
  }

  lemma ChosenIff(active: map<DeviceClass, Monitor>, reg: Registry, classes: seq<DeviceClass>, recovery: bool,
                  ans: Answers)
    ensures Choose(reg, active, classes, recovery, ans).Chosen? <==> AllAdmitted(active, reg, classes, recovery, ans)
  {
    ChooseRefuses(reg, active, classes, recovery, ans);
    if i :| 0 <= i < |classes| && Unusable(reg, active, classes[i], recovery, ans) {
      AdmittedIff(reg, classes[i], recovery, ans);
      assert IsNew(active, classes, classes[i]);
    } else {
      forall c | IsNew(active, classes, c)
        ensures Admitted(reg, c, recovery, ans)
      {
        AdmittedIff(reg, c, recovery, ans);
        var i :| 0 <= i < |classes| && classes[i] == c;
        assert !Unusable(reg, active, classes[i], recovery, ans);
      }
    }
  }

  lemma StartsAdded(s: State, reg: Registry, classes: seq<DeviceClass>, recovery: bool, ans: Answers, u: Use)
    requires Choose(reg, s.active, classes, recovery, ans).Chosen?
    ensures var cs := Choose(reg, s.active, classes, recovery, ans).classes;
            DoStart(s, reg, classes, recovery, ans).0.starts[u] ==
            s.starts[u] + StartUses(reg, cs, recovery, ans)[u]
  {
    var cs := Choose(reg, s.active, classes, recovery, ans).classes;
    ChooseShape(reg, s.active, classes, recovery, ans);
    WithMonitorsFrame(s, reg, cs, recovery, ans);
  }

  /** Exactly the drivers of the new classes that are called and start gain a start, one each,
      whether the start as a whole succeeds or is rolled back; if it is refused, none does. */
  lemma WhoIsStarted(s: State, reg: Registry, classes: seq<DeviceClass>, recovery: bool, ans: Answers, u: Use)
    requires WellFormed(reg) && Distinct(classes)
    ensures DoStart(s, reg, classes, recovery, ans).0.starts[u] ==
            s.starts[u] + Bit(&& AllAdmitted(s.active, reg, classes, recovery, ans)
                              && IsNew(s.active, classes, u.cls) && Gains(reg, u, recovery, ans))
  {
    var choice := Choose(reg, s.active, classes, recovery, ans);
    ChosenIff(s.active, reg, classes, recovery, ans);
    if choice.Chosen? {
      StartsAdded(s, reg, classes, recovery, ans, u);
      ChooseShape(reg, s.active, classes, recovery, ans);
      StartedIff(reg, u, recovery, ans);
      StartUsesCount(reg, choice.classes, recovery, ans, u);
    }
  }

  // ----- a monitor's exit

  /** The monitor of a class from the stop of its drivers to the release of its list. */
  function Exit(s: State, c: DeviceClass): State
    requires c in s.active && s.active[c].list in s.lists
  {
    var l := s.active[c].list;
    var stopped := if CanMonitorStop(s, c) then DoMonitorStop(s, c) else s;
    DoMonitorUnref(DoMonitorDelete(stopped, c), l)
  }

  lemma ExitFrame(s: State, c: DeviceClass)
    requires c in s.active && s.active[c].list in s.lists && s.lists[s.active[c].list].refs == 1
    requires s.active[c].list !in s.leaving
    ensures var t, l := Exit(s, c), s.active[c].list;
            && t.active == s.active - {c} && t.lists == s.lists - {l} && t.leaving == s.leaving && t.starts == s.starts
  {
    var l := s.active[c].list;
    var stopped := if CanMonitorStop(s, c) then DoMonitorStop(s, c) else s;
    assert stopped.active - {c} == s.active - {c} && stopped.active[c].list == l;
    assert s.leaving + {l} - {l} == s.leaving;
  }

  /** The driver is in the class's list, has a stop callback and has not been told yet. */
  predicate ToStop(s: State, c: DeviceClass, u: Use)
    requires c in s.active && s.active[c].list in s.lists
  {
    u.cls == c && !s.active[c].stopped && u.driver in s.lists[s.active[c].list].drivers && u.driver.canStop
  }

  lemma ExitStops(s: State, c: DeviceClass, u: Use)
    requires c in s.active && s.active[c].list in s.lists && Distinct(s.lists[s.active[c].list].drivers)
    ensures Exit(s, c).stops[u] == s.stops[u] + Bit(ToStop(s, c, u))
  {
    var ds := s.lists[s.active[c].list].drivers;
    StoppableCount(c, ds, u);
    UsesCount(c, ds, u);
  }

  /** When a monitor has gone, its class is no longer active and its list is gone, every other
      class and list is as it was, and each of its drivers with a stop callback that was still
      running was stopped once. */
  lemma MonitorExits(s: State, c: DeviceClass, u: Use)
    requires Inv(s) && c in s.active
    ensures var t, l := Exit(s, c), s.active[c].list;
            && t.active == s.active - {c} && t.lists == s.lists - {l} && t.leaving == s.leaving && t.starts == s.starts
            && t.stops[u] == s.stops[u] + Bit(ToStop(s, c, u))
  {
    ExitFrame(s, c);
    ExitStops(s, c, u);
  }

  /** A class whose only driver needs the descriptor list is refused while the list is not
      ready. */
  lemma RefusedWithoutList(name: string, driver: string)
    ensures var c, d := DeviceClass(name), Driver(driver, false, true, false, true);
            var ans := Answers(x => true, x => false, (x, y) => false, (x, y) => true);
            var s := State(map[], {}, map[], 0, multiset{}, multiset{}, false);
            DoStart(s, map[c := [d]], [c], false, ans) == (s, false)
  {
    var c, d := DeviceClass(name), Driver(driver, false, true, false, true);
    var reg := map[c := [d]];
    var ans := Answers(x => true, x => false, (x, y) => false, (x, y) => true);
    var s := State(map[], {}, map[], 0, multiset{}, multiset{}, false);
    assert IsNew(s.active, [c], c);
    assert !HasAlwaysDriver(reg, c);
    RefusedChangesNothing(s, reg, [c], false, ans, c);
  }
}
