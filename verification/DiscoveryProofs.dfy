/**
 Discovery start is all or nothing, and over every run of starts and monitor exits each
 driver is started at most once more than it is stopped and each list has one holder.
 */
module DiscoveryProofs {
  import opened Basics
  import opened Discovery

  ghost predicate WellFormed(reg: Registry) {
    forall c :: c in reg ==> Distinct(reg[c])
  }

  // ----- choosing and starting

  lemma {:induction false} ChooseShape(reg: Registry, active: map<DeviceClass, Monitor>, classes: seq<DeviceClass>,
                                       recovery: bool, ans: Answers)
    requires Choose(reg, active, classes, recovery, ans).Chosen?
    ensures var cs := Choose(reg, active, classes, recovery, ans).classes;
            && (forall c :: c in cs <==> c in classes && c !in active)
            && (Distinct(classes) ==> Distinct(cs))
  {
    if classes != [] {
      var n := |classes| - 1;
      ChooseShape(reg, active, classes[..n], recovery, ans);
      assert classes == classes[..n] + [classes[n]];
    }
  }

  predicate Unusable(reg: Registry, active: map<DeviceClass, Monitor>, c: DeviceClass, recovery: bool, ans: Answers) {
    c !in active && !CanStart(reg, c, recovery, ans)
  }

  /** A start is refused exactly when a class that is not running cannot be started. */
  lemma {:induction false} ChooseRefuses(reg: Registry, active: map<DeviceClass, Monitor>, classes: seq<DeviceClass>,
                                         recovery: bool, ans: Answers)
    ensures Choose(reg, active, classes, recovery, ans).Refused? <==>
            exists i :: 0 <= i < |classes| && Unusable(reg, active, classes[i], recovery, ans)
  {
    if classes != [] {
      var n := |classes| - 1;
      var head := classes[..n];
      ChooseRefuses(reg, active, head, recovery, ans);
      assert forall i :: 0 <= i < n ==> head[i] == classes[i];
      if i :| 0 <= i < |head| && Unusable(reg, active, head[i], recovery, ans) {
        assert Unusable(reg, active, classes[i], recovery, ans);
      } else if Unusable(reg, active, classes[n], recovery, ans) {
      } else {
        assert forall i :: 0 <= i < n ==> !Unusable(reg, active, head[i], recovery, ans);
      }
    }
  }

  lemma {:induction false} StartedShape(ds: seq<Driver>, c: DeviceClass, recovery: bool, ans: Answers)
    ensures var st := StartedOf(ds, c, recovery, ans);
            && (forall d :: d in st <==> d in ds && Asked(d, c, recovery, ans) && ans.starts(c, d))
            && (Distinct(ds) ==> Distinct(st))
  {
    if ds != [] {
      var n := |ds| - 1;
      StartedShape(ds[..n], c, recovery, ans);
      assert ds == ds[..n] + [ds[n]];
    }
  }

  lemma {:induction false} StoppableShape(ds: seq<Driver>)
    ensures forall d :: d in Stoppable(ds) <==> d in ds && d.canStop
    ensures Stoppable(ds) == ds <==> forall d :: d in ds ==> d.canStop
    ensures |Stoppable(ds)| <= |ds|
  {
    if ds != [] {
      var n := |ds| - 1;
      StoppableShape(ds[..n]);
      assert ds == ds[..n] + [ds[n]];
      if ds[n].canStop && Stoppable(ds) == ds {
        assert Stoppable(ds)[..n] == ds[..n];
      }
    }
  }

  // ----- counting starts and stops

  lemma {:induction false} UsesCount(c: DeviceClass, ds: seq<Driver>, u: Use)
    ensures u.cls != c || u.driver !in ds ==> Uses(c, ds)[u] == 0
    ensures Distinct(ds) && u.cls == c && u.driver in ds ==> Uses(c, ds)[u] == 1
  {
    if ds != [] {
      var n := |ds| - 1;
      UsesCount(c, ds[..n], u);
      assert ds == ds[..n] + [ds[n]];
    }
  }

  lemma {:induction false} StoppableCount(c: DeviceClass, ds: seq<Driver>, u: Use)
    ensures Uses(c, Stoppable(ds))[u] == if u.driver.canStop then Uses(c, ds)[u] else 0
  {
    if ds != [] {
      var n := |ds| - 1;
      StoppableCount(c, ds[..n], u);
      var rest := Stoppable(ds[..n]);
      assert ds[n].canStop ==> (rest + [ds[n]])[..|rest|] == rest;
    }
  }

  lemma {:induction false} StartUsesCount(reg: Registry, cs: seq<DeviceClass>, recovery: bool, ans: Answers, u: Use)
    requires WellFormed(reg) && Distinct(cs)
    ensures StartUses(reg, cs, recovery, ans)[u] ==
            if u.cls in cs && u.driver in Started(reg, u.cls, recovery, ans) then 1 else 0
  {
    if cs != [] {
      var n := |cs| - 1;
      var c := cs[n];
      StartUsesCount(reg, cs[..n], recovery, ans, u);
      assert cs == cs[..n] + [c] && c !in cs[..n];
      StartedShape(DriversOf(reg, c), c, recovery, ans);
      UsesCount(c, Started(reg, c, recovery, ans), u);
    }
  }

  /** The rollback stops each started driver that has a stop callback as often as it started. */
  lemma {:induction false} RollbackCount(reg: Registry, cs: seq<DeviceClass>, recovery: bool, ans: Answers, u: Use)
    ensures RollbackUses(reg, cs, recovery, ans)[u] ==
            if u.driver.canStop then StartUses(reg, cs, recovery, ans)[u] else 0
  {
    if cs != [] {
      var n := |cs| - 1;
      RollbackCount(reg, cs[..n], recovery, ans, u);
      StoppableCount(cs[n], Started(reg, cs[n], recovery, ans), u);
    }
  }

  // ----- ownership of lists, balance of starts and stops

  /** Threads that hold a reference on a list: its monitor while in the map or leaving. */
  ghost function Holders(s: State, l: ListId): nat {
    |set c | c in s.active && s.active[c].list == l| + if l in s.leaving then 1 else 0
  }

  ghost predicate HasMonitor(s: State, l: ListId) {
    exists c :: c in s.active && s.active[c].list == l
  }

  ghost predicate Owned(s: State) {
    && (forall c :: c in s.active ==> s.active[c].list in s.lists && s.active[c].list !in s.leaving)
    && (forall c, e :: c in s.active && e in s.active && c != e ==> s.active[c].list != s.active[e].list)
    && s.leaving <= s.lists.Keys
    && (forall l :: l in s.lists ==> l < s.nextList && s.lists[l].refs == 1 && Distinct(s.lists[l].drivers))
    && (forall l :: l in s.lists ==> l in s.leaving || HasMonitor(s, l))
  }

  /** The driver is discovering for the class: its monitor is active and has not stopped it. */
  ghost predicate Live(s: State, u: Use) {
    && u.cls in s.active && !s.active[u.cls].stopped && s.active[u.cls].list in s.lists
    && u.driver in s.lists[s.active[u.cls].list].drivers
  }

  ghost predicate BalancedFor(s: State, u: Use) {
    s.starts[u] == s.stops[u] + if Live(s, u) then 1 else 0
  }

  ghost predicate Inv(s: State) {
    Owned(s) && forall u: Use :: u.driver.canStop ==> BalancedFor(s, u)
  }

  lemma AddMonitorOwned(s: State, c: DeviceClass, ds: seq<Driver>)
    requires Owned(s) && c !in s.active && Distinct(ds)
    ensures Owned(AddMonitor(s, c, ds))
  {
    var t := AddMonitor(s, c, ds);
    forall l | l in t.lists
      ensures l in t.leaving || HasMonitor(t, l)
    {
      if l == s.nextList {
        assert t.active[c].list == l;
      } else if l !in s.leaving {
        var e :| e in s.active && s.active[e].list == l;
        assert t.active[e].list == l;
      }
    }
  }

  lemma AddMonitorBalanced(s: State, c: DeviceClass, ds: seq<Driver>, u: Use)
    requires Owned(s) && c !in s.active && Distinct(ds) && BalancedFor(s, u)
    ensures BalancedFor(AddMonitor(s, c, ds), u)
  {
    UsesCount(c, ds, u);
  }

  lemma AddMonitorKeeps(s: State, c: DeviceClass, ds: seq<Driver>)
    requires Inv(s) && c !in s.active && Distinct(ds)
    ensures Inv(AddMonitor(s, c, ds))
  {
    var t := AddMonitor(s, c, ds);
    AddMonitorOwned(s, c, ds);
    forall u: Use | u.driver.canStop
      ensures BalancedFor(t, u)
    {
      AddMonitorBalanced(s, c, ds, u);
    }
  }

  lemma {:induction false} WithMonitorsFrame(s: State, reg: Registry, cs: seq<DeviceClass>, recovery: bool,
                                             ans: Answers)
    requires forall c :: c in cs ==> c !in s.active
    ensures var t := WithMonitors(s, reg, cs, recovery, ans);
            && (forall c :: c in t.active <==> c in s.active || c in cs)
            && (forall c :: c in s.active ==> t.active[c] == s.active[c])
            && t.starts == s.starts + StartUses(reg, cs, recovery, ans)
            && t.stops == s.stops && t.leaving == s.leaving && t.nullStop == s.nullStop
  {
    if cs != [] {
      var n := |cs| - 1;
      assert cs == cs[..n] + [cs[n]];
      WithMonitorsFrame(s, reg, cs[..n], recovery, ans);
    }
  }

  lemma {:induction false} WithMonitorsKeeps(s: State, reg: Registry, cs: seq<DeviceClass>, recovery: bool,
                                             ans: Answers)
    requires WellFormed(reg) && Distinct(cs) && Inv(s)
    requires forall c :: c in cs ==> c !in s.active
    ensures Inv(WithMonitors(s, reg, cs, recovery, ans))
  {
    if cs != [] {
      var n := |cs| - 1;
      var c := cs[n];
      assert forall e :: e in cs[..n] ==> e in cs;
      WithMonitorsKeeps(s, reg, cs[..n], recovery, ans);
      WithMonitorsFrame(s, reg, cs[..n], recovery, ans);
      StartedShape(DriversOf(reg, c), c, recovery, ans);
      AddMonitorKeeps(WithMonitors(s, reg, cs[..n], recovery, ans), c, Started(reg, c, recovery, ans));
    }
  }

  lemma RollbackKeeps(s: State, reg: Registry, cs: seq<DeviceClass>, recovery: bool, ans: Answers)
    requires Inv(s)
    ensures Inv(RolledBack(s, reg, cs, recovery, ans))
  {
    var t := RolledBack(s, reg, cs, recovery, ans);
    assert forall l :: HasMonitor(s, l) ==> HasMonitor(t, l);
    forall u: Use | u.driver.canStop
      ensures BalancedFor(t, u)
    {
      assert BalancedFor(s, u);
      RollbackCount(reg, cs, recovery, ans, u);
    }
  }

  lemma StartOutcomes(s: State, reg: Registry, classes: seq<DeviceClass>, recovery: bool, ans: Answers)
    returns (cs: seq<DeviceClass>)
    requires Distinct(classes)
    ensures Distinct(cs) && forall c :: c in cs ==> c !in s.active
    ensures var t := DoStart(s, reg, classes, recovery, ans).0;
            t == s || t == RolledBack(s, reg, cs, recovery, ans) || t == WithMonitors(s, reg, cs, recovery, ans)
  {
    cs := [];
    var choice := Choose(reg, s.active, classes, recovery, ans);
    if choice.Chosen? {
      ChooseShape(reg, s.active, classes, recovery, ans);
      cs := choice.classes;
    }
  }

  lemma StartKeeps(s: State, reg: Registry, classes: seq<DeviceClass>, recovery: bool, ans: Answers)
    requires WellFormed(reg) && Distinct(classes) && Inv(s)
    ensures Inv(DoStart(s, reg, classes, recovery, ans).0)
  {
    var cs := StartOutcomes(s, reg, classes, recovery, ans);
    WithMonitorsKeeps(s, reg, cs, recovery, ans);
    RollbackKeeps(s, reg, cs, recovery, ans);
  }

  // ----- all or nothing

  /** What a successful start did: exactly the new classes are added, and every driver that was
      asked to start did, once. */
  ghost predicate Added(s: State, t: State, reg: Registry, classes: seq<DeviceClass>, recovery: bool, ans: Answers) {
    && (forall c :: c in t.active <==> c in s.active || c in classes)
    && (forall c :: c in s.active ==> t.active[c] == s.active[c])
    && (forall u: Use :: t.starts[u] == s.starts[u] +
          if && u.cls in classes && u.cls !in s.active
             && u.driver in DriversOf(reg, u.cls) && Asked(u.driver, u.cls, recovery, ans)
          then 1 else 0)
    && t.stops == s.stops
  }

  /** What a failed start left: the same active classes and lists; every driver started for a
      class, if it has a stop callback, was stopped for it once. */
  ghost predicate Undone(s: State, t: State) {
    && t.active == s.active && t.lists == s.lists
    && (forall u: Use :: s.starts[u] <= t.starts[u] <= s.starts[u] + 1)
    && (forall u: Use :: t.stops[u] == s.stops[u] + if u.driver.canStop then t.starts[u] - s.starts[u] else 0)
  }

  /** Class c asks for something new that can be started and whose drivers all start. */
  predicate Startable(reg: Registry, c: DeviceClass, recovery: bool, ans: Answers) {
    CanStart(reg, c, recovery, ans) && !AnyFailed(DriversOf(reg, c), c, recovery, ans)
  }

  ghost predicate AllStartable(active: map<DeviceClass, Monitor>, reg: Registry, classes: seq<DeviceClass>,
                               recovery: bool, ans: Answers) {
    forall i :: 0 <= i < |classes| && classes[i] !in active ==> Startable(reg, classes[i], recovery, ans)
  }

  /** No class asked for is refused and none of the chosen fails: all new ones are startable. */
  lemma AllStartableIff(active: map<DeviceClass, Monitor>, reg: Registry, classes: seq<DeviceClass>, recovery: bool,
                        ans: Answers, cs: seq<DeviceClass>)
    requires forall c :: c in cs <==> c in classes && c !in active
    requires forall i :: 0 <= i < |classes| ==> !Unusable(reg, active, classes[i], recovery, ans)
    ensures !StartFails(reg, cs, recovery, ans) <==> AllStartable(active, reg, classes, recovery, ans)
  {
    if i :| 0 <= i < |cs| && AnyFailed(DriversOf(reg, cs[i]), cs[i], recovery, ans) {
      assert cs[i] in classes && !Startable(reg, cs[i], recovery, ans);
    } else {
      forall i | 0 <= i < |classes| && classes[i] !in active
        ensures Startable(reg, classes[i], recovery, ans)
      {
        var c := classes[i];
        assert !Unusable(reg, active, c, recovery, ans);
        assert c in cs;
        var j :| 0 <= j < |cs| && cs[j] == c;
        assert !AnyFailed(DriversOf(reg, cs[j]), cs[j], recovery, ans);
      }
    }
  }

  lemma StartSucceedsIff(s: State, reg: Registry, classes: seq<DeviceClass>, recovery: bool, ans: Answers)
    ensures DoStart(s, reg, classes, recovery, ans).1 <==>
            (exists c :: c in classes && c !in s.active) && AllStartable(s.active, reg, classes, recovery, ans)
  {
    ChooseRefuses(reg, s.active, classes, recovery, ans);
    var choice := Choose(reg, s.active, classes, recovery, ans);
    if choice.Refused? {
      var i :| 0 <= i < |classes| && Unusable(reg, s.active, classes[i], recovery, ans);
      assert !Startable(reg, classes[i], recovery, ans);
    } else {
      ChooseShape(reg, s.active, classes, recovery, ans);
      AllStartableIff(s.active, reg, classes, recovery, ans, choice.classes);
      assert choice.classes != [] ==> choice.classes[0] in choice.classes;
    }
  }

  /** A start over any list of distinct classes is all or nothing; and it succeeds exactly when
      some class is new, every new class can be started and no driver asked to start fails. */
  lemma StartAllOrNothing(s: State, reg: Registry, classes: seq<DeviceClass>, recovery: bool, ans: Answers)
    requires WellFormed(reg) && Distinct(classes)
    ensures var (t, ok) := DoStart(s, reg, classes, recovery, ans);
            && (if ok then Added(s, t, reg, classes, recovery, ans) else Undone(s, t))
            && t.leaving == s.leaving && t.nullStop == s.nullStop
            && (ok <==>
                && (exists c :: c in classes && c !in s.active)
                && AllStartable(s.active, reg, classes, recovery, ans))
  {
    StartSucceedsIff(s, reg, classes, recovery, ans);
    var choice := Choose(reg, s.active, classes, recovery, ans);
    if choice.Chosen? && choice.classes != [] {
      ChooseShape(reg, s.active, classes, recovery, ans);
      StartCounts(s, reg, choice.classes, recovery, ans);
      var t := WithMonitors(s, reg, choice.classes, recovery, ans);
      if Added(s, t, reg, choice.classes, recovery, ans) {
        AddedWider(s, t, reg, choice.classes, classes, recovery, ans);
      }
    }
  }

  lemma AddedWider(s: State, t: State, reg: Registry, cs: seq<DeviceClass>, classes: seq<DeviceClass>,
                   recovery: bool, ans: Answers)
    requires Added(s, t, reg, cs, recovery, ans)
    requires forall c :: c in cs <==> c in classes && c !in s.active
    ensures Added(s, t, reg, classes, recovery, ans)
  {
  }

  lemma StartCounts(s: State, reg: Registry, cs: seq<DeviceClass>, recovery: bool, ans: Answers)
    requires WellFormed(reg) && Distinct(cs)
    requires forall c :: c in cs ==> c !in s.active
    ensures Undone(s, RolledBack(s, reg, cs, recovery, ans))
    ensures !StartFails(reg, cs, recovery, ans) ==>
            Added(s, WithMonitors(s, reg, cs, recovery, ans), reg, cs, recovery, ans)
    ensures var t := WithMonitors(s, reg, cs, recovery, ans); t.leaving == s.leaving && t.nullStop == s.nullStop
  {
    WithMonitorsFrame(s, reg, cs, recovery, ans);
    forall u: Use
      ensures StartUses(reg, cs, recovery, ans)[u] <= 1
      ensures RollbackUses(reg, cs, recovery, ans)[u] ==
              if u.driver.canStop then StartUses(reg, cs, recovery, ans)[u] else 0
    {
      StartUsesCount(reg, cs, recovery, ans, u);
      RollbackCount(reg, cs, recovery, ans, u);
    }
    if !StartFails(reg, cs, recovery, ans) {
      forall u: Use
        ensures StartUses(reg, cs, recovery, ans)[u] ==
                if u.cls in cs && u.driver in DriversOf(reg, u.cls) && Asked(u.driver, u.cls, recovery, ans)
                then 1 else 0
      {
        StartUsesCount(reg, cs, recovery, ans, u);
        StartedShape(DriversOf(reg, u.cls), u.cls, recovery, ans);
        if u.cls in cs {
          var i :| 0 <= i < |cs| && cs[i] == u.cls;
          assert !AnyFailed(DriversOf(reg, cs[i]), cs[i], recovery, ans);
        }
      }
    }
  }

  // ----- every run

  lemma MonitorStopKeeps(s: State, c: DeviceClass)
    requires Inv(s) && CanMonitorStop(s, c)
    ensures Inv(DoMonitorStop(s, c))
  {
    var t := DoMonitorStop(s, c);
    var ds := s.lists[s.active[c].list].drivers;
    forall l | HasMonitor(s, l)
      ensures HasMonitor(t, l)
    {
      var e :| e in s.active && s.active[e].list == l;
      assert t.active[e].list == l;
    }
    forall u: Use | u.driver.canStop
      ensures BalancedFor(t, u)
    {
      assert BalancedFor(s, u);
      StoppableCount(c, ds, u);
      UsesCount(c, ds, u);
    }
  }

  lemma MonitorDeleteKeeps(s: State, c: DeviceClass)
    requires Inv(s) && CanMonitorDelete(s, c)
    ensures Inv(DoMonitorDelete(s, c))
  {
    var t := DoMonitorDelete(s, c);
    forall l | HasMonitor(s, l) && l != s.active[c].list
      ensures HasMonitor(t, l)
    {
      var e :| e in s.active && s.active[e].list == l;
      assert t.active[e].list == l;
    }
    forall u: Use | u.driver.canStop
      ensures BalancedFor(t, u)
    {
      assert BalancedFor(s, u);
    }
  }

  lemma MonitorUnrefKeeps(s: State, l: ListId)
    requires Inv(s) && l in s.leaving
    ensures Inv(DoMonitorUnref(s, l))
    ensures l !in DoMonitorUnref(s, l).lists
  {
    var t := DoMonitorUnref(s, l);
    assert forall k :: HasMonitor(s, k) ==> HasMonitor(t, k);
    forall u: Use | u.driver.canStop
      ensures BalancedFor(t, u)
    {
      assert BalancedFor(s, u);
    }
  }

  datatype Action =
    | Start(classes: seq<DeviceClass>, recovery: bool, ans: Answers)
    | MonitorStop(cls: DeviceClass)
    | MonitorDelete(cls: DeviceClass)
    | MonitorUnref(list: ListId)

  ghost predicate Enabled(s: State, a: Action) {
    match a
    case Start(classes, _, _) => Distinct(classes)
    case MonitorStop(c) => CanMonitorStop(s, c)
    case MonitorDelete(c) => CanMonitorDelete(s, c)
    case MonitorUnref(l) => l in s.leaving
  }

  ghost function Next(s: State, reg: Registry, a: Action): State {
    if !Enabled(s, a) then s
    else match a
      case Start(classes, recovery, ans) => DoStart(s, reg, classes, recovery, ans).0
      case MonitorStop(c) => DoMonitorStop(s, c)
      case MonitorDelete(c) => DoMonitorDelete(s, c)
      case MonitorUnref(l) => DoMonitorUnref(s, l)
  }

  ghost function Run(s: State, reg: Registry, run: seq<Action>): State
    decreases |run|
  {
    if run == [] then s else Run(Next(s, reg, run[0]), reg, run[1..])
  }

  lemma NextKeeps(s: State, reg: Registry, a: Action)
    requires WellFormed(reg) && Inv(s)
    ensures Inv(Next(s, reg, a))
  {
    if Enabled(s, a) {
      match a
      case Start(classes, recovery, ans) => StartKeeps(s, reg, classes, recovery, ans);
      case MonitorStop(c) => MonitorStopKeeps(s, c);
      case MonitorDelete(c) => MonitorDeleteKeeps(s, c);
      case MonitorUnref(l) => MonitorUnrefKeeps(s, l);
    }
  }

  lemma {:induction false} RunKeeps(s: State, reg: Registry, run: seq<Action>)
    requires WellFormed(reg) && Inv(s)
    ensures Inv(Run(s, reg, run))
    decreases |run|
  {
    if run != [] {
      NextKeeps(s, reg, run[0]);
      RunKeeps(Next(s, reg, run[0]), reg, run[1..]);
    }
  }

  function Initial(): State {
    State(map[], {}, map[], 0, multiset{}, multiset{}, false)
  }

  lemma OneHolder(s: State, l: ListId)
    requires Owned(s) && l in s.lists
    ensures Holders(s, l) == 1
  {
    var hs := set c | c in s.active && s.active[c].list == l;
    if l in s.leaving {
      assert hs == {};
    } else {
      var c :| c in s.active && s.active[c].list == l;
      assert hs == {c};
    }
  }

  /** Over all runs of starts and monitor exits: a driver with a stop callback is started at
      most once more than it is stopped, per class, and once more exactly while discovering;
      and the count of every live list is the number of threads that hold it. */
  lemma EveryRunIsBalanced(reg: Registry, run: seq<Action>)
    requires WellFormed(reg)
    ensures var s := Run(Initial(), reg, run);
            && (forall u: Use :: u.driver.canStop ==> s.starts[u] == s.stops[u] + if Live(s, u) then 1 else 0)
            && (forall l :: l in s.lists ==> s.lists[l].refs == Holders(s, l))
            && (forall l :: Holders(s, l) > 0 ==> l in s.lists)
  {
    RunKeeps(Initial(), reg, run);
    var s := Run(Initial(), reg, run);
    assert forall u: Use :: u.driver.canStop ==> BalancedFor(s, u);
    forall l | l in s.lists
      ensures s.lists[l].refs == Holders(s, l)
    {
      OneHolder(s, l);
    }
    forall l | Holders(s, l) > 0
      ensures l in s.lists
    {
      var hs := set c | c in s.active && s.active[c].list == l;
      if l !in s.leaving {
        assert hs != {};
        var c :| c in hs;
      }
    }
  }
}
