/**
 The discovery start, its helpers and the monitor's critical sections as they run, each
 against its function in Discovery.
 */
module DiscoveryService {
  import opened Discovery

  lemma Assoc(a: multiset<Use>, b: multiset<Use>, c: multiset<Use>)
    ensures a + b + c == a + (b + c)
  {
  }

  lemma UsesOneMore(all: multiset<Use>, c: DeviceClass, ds: seq<Driver>, d: Driver)
    ensures all + Uses(c, ds) + multiset{Use(d, c)} == all + Uses(c, ds + [d])
  {
    assert (ds + [d])[..|ds|] == ds;
  }

  lemma RollbackOneMore(all: multiset<Use>, reg: Registry, cs: seq<DeviceClass>, i: nat, recovery: bool, ans: Answers)
    requires i < |cs|
    ensures all + RollbackUses(reg, cs[..i], recovery, ans) + Uses(cs[i], Stoppable(Started(reg, cs[i], recovery, ans)))
            == all + RollbackUses(reg, cs[..i + 1], recovery, ans)
  {
    assert cs[..i + 1][..i] == cs[..i];
  }

  lemma StartsOneMore(all: multiset<Use>, reg: Registry, cs: seq<DeviceClass>, i: nat, recovery: bool, ans: Answers)
    requires i < |cs|
    ensures all + StartUses(reg, cs[..i], recovery, ans) + Uses(cs[i], Started(reg, cs[i], recovery, ans))
            == all + StartUses(reg, cs[..i + 1], recovery, ans)
  {
    assert cs[..i + 1][..i] == cs[..i];
  }

  lemma AnyFailedOneMore(ds: seq<Driver>, i: nat, c: DeviceClass, recovery: bool, ans: Answers)
    requires i < |ds|
    ensures AnyFailed(ds[..i + 1], c, recovery, ans) <==>
            AnyFailed(ds[..i], c, recovery, ans) || (Asked(ds[i], c, recovery, ans) && !ans.starts(c, ds[i]))
  {
    var a, b := ds[..i], ds[..i + 1];
    assert b[i] == ds[i] && forall k :: 0 <= k < i ==> b[k] == a[k];
  }

  lemma StartedOneMore(ds: seq<Driver>, i: nat, c: DeviceClass, recovery: bool, ans: Answers)
    requires i < |ds|
    ensures StartedOf(ds[..i + 1], c, recovery, ans) ==
            StartedOf(ds[..i], c, recovery, ans)
            + if Asked(ds[i], c, recovery, ans) && ans.starts(c, ds[i]) then [ds[i]] else []
  {
    assert ds[..i + 1][..i] == ds[..i];
  }

  lemma StartFailsOneMore(reg: Registry, cs: seq<DeviceClass>, i: nat, recovery: bool, ans: Answers)
    requires i < |cs|
    ensures StartFails(reg, cs[..i + 1], recovery, ans) <==>
            StartFails(reg, cs[..i], recovery, ans) || AnyFailed(DriversOf(reg, cs[i]), cs[i], recovery, ans)
  {
    var a, b := cs[..i], cs[..i + 1];
    assert b[i] == cs[i] && forall k :: 0 <= k < i ==> b[k] == a[k];
  }

  /** The lists numbered from lo up to hi each lose a reference. */
  function UnrefRange(lists: map<ListId, DriverList>, lo: nat, hi: nat): map<ListId, DriverList> {
    if hi <= lo then lists else Unref(UnrefRange(lists, lo, hi - 1), hi - 1)
  }

  /** The lists of started drivers, one per class. */
  function AllStarted(reg: Registry, cs: seq<DeviceClass>, recovery: bool, ans: Answers): (r: seq<seq<Driver>>)
    ensures |r| == |cs|
  {
    if cs == [] then []
    else AllStarted(reg, cs[..|cs| - 1], recovery, ans) + [Started(reg, cs[|cs| - 1], recovery, ans)]
  }

  lemma {:induction false} AllStartedAt(reg: Registry, cs: seq<DeviceClass>, recovery: bool, ans: Answers, i: nat)
    requires i < |cs|
    ensures AllStarted(reg, cs, recovery, ans)[i] == Started(reg, cs[i], recovery, ans)
  {
    if i < |cs| - 1 {
      AllStartedAt(reg, cs[..|cs| - 1], recovery, ans, i);
    }
  }

  /** Monitors added while the local map still holds the lists too. */
  function HeldTwice(s: State, reg: Registry, cs: seq<DeviceClass>, recovery: bool, ans: Answers): State {
    if cs == [] then s
    else
      var c := cs[|cs| - 1];
      var t := HeldTwice(s, reg, cs[..|cs| - 1], recovery, ans);
      t.(active := t.active[c := Monitor(t.nextList, false)],
         lists := t.lists[t.nextList := DriverList(Started(reg, c, recovery, ans), 2)],
         nextList := t.nextList + 1)
  }

  lemma HeldTwiceOneMore(s: State, reg: Registry, cs: seq<DeviceClass>, i: nat, recovery: bool, ans: Answers)
    requires i < |cs|
    ensures var t, u := HeldTwice(s, reg, cs[..i], recovery, ans), HeldTwice(s, reg, cs[..i + 1], recovery, ans);
            && u.active == t.active[cs[i] := Monitor(t.nextList, false)]
            && u.lists == t.lists[t.nextList := DriverList(Started(reg, cs[i], recovery, ans), 2)]
            && u.nextList == t.nextList + 1
  {
    assert cs[..i + 1][..i] == cs[..i];
  }

  lemma {:induction false} UnrefAside(lists: map<ListId, DriverList>, lo: nat, hi: nat, k: nat, v: DriverList)
    requires k >= hi
    ensures UnrefRange(lists[k := v], lo, hi) == UnrefRange(lists, lo, hi)[k := v]
    decreases hi
  {
    if hi > lo {
      UnrefAside(lists, lo, hi - 1, k, v);
    }
  }

  lemma {:induction false} HeldTwiceActive(s: State, reg: Registry, cs: seq<DeviceClass>, recovery: bool, ans: Answers)
    ensures var h, t := HeldTwice(s, reg, cs, recovery, ans), WithMonitors(s, reg, cs, recovery, ans);
            h.nextList == t.nextList == s.nextList + |cs| && h.active == t.active
  {
    if cs != [] {
      HeldTwiceActive(s, reg, cs[..|cs| - 1], recovery, ans);
    }
  }

  lemma UnrefLast(lists: map<ListId, DriverList>, lo: nat, hi: nat, ds: seq<Driver>)
    requires lo <= hi
    ensures UnrefRange(lists[hi := DriverList(ds, 2)], lo, hi + 1) == UnrefRange(lists, lo, hi)[hi := DriverList(ds, 1)]
  {
    UnrefAside(lists, lo, hi, hi, DriverList(ds, 2));
  }

  /** Once the local map gives up its holds, what is left is what WithMonitors describes. */
  lemma {:induction false} HeldOnceAfter(s: State, reg: Registry, cs: seq<DeviceClass>, recovery: bool, ans: Answers)
    ensures UnrefRange(HeldTwice(s, reg, cs, recovery, ans).lists, s.nextList, s.nextList + |cs|)
            == WithMonitors(s, reg, cs, recovery, ans).lists
  {
    if cs != [] {
      var n := |cs| - 1;
      HeldOnceAfter(s, reg, cs[..n], recovery, ans);
      HeldTwiceActive(s, reg, cs[..n], recovery, ans);
      UnrefLast(HeldTwice(s, reg, cs[..n], recovery, ans).lists, s.nextList, s.nextList + n,
                Started(reg, cs[n], recovery, ans));
    }
  }

  lemma ReleasedLists(s: State, reg: Registry, cs: seq<DeviceClass>, recovery: bool, ans: Answers)
    ensures var h, t := HeldTwice(s, reg, cs, recovery, ans), WithMonitors(s, reg, cs, recovery, ans);
            && h.active == t.active && h.nextList == t.nextList
            && UnrefRange(h.lists, s.nextList, s.nextList + |cs|) == t.lists
  {
    HeldTwiceActive(s, reg, cs, recovery, ans);
    HeldOnceAfter(s, reg, cs, recovery, ans);
  }

  lemma {:induction false} MonitorsOnly(s: State, reg: Registry, cs: seq<DeviceClass>, recovery: bool, ans: Answers)
    ensures var t := WithMonitors(s, reg, cs, recovery, ans);
            && t.starts == s.starts + StartUses(reg, cs, recovery, ans)
            && t.stops == s.stops && t.leaving == s.leaving && t.nullStop == s.nullStop
  {
    if cs != [] {
      var n := |cs| - 1;
      MonitorsOnly(s, reg, cs[..n], recovery, ans);
      Assoc(s.starts, StartUses(reg, cs[..n], recovery, ans), Uses(cs[n], Started(reg, cs[n], recovery, ans)));
    }
  }

  lemma MonitorsField(t: State, s: State, reg: Registry, cs: seq<DeviceClass>, recovery: bool, ans: Answers)
    requires var w := WithMonitors(s, reg, cs, recovery, ans);
             t.active == w.active && t.lists == w.lists && t.nextList == w.nextList
    requires t.starts == s.starts + StartUses(reg, cs, recovery, ans)
    requires t.stops == s.stops && t.leaving == s.leaving && t.nullStop == s.nullStop
    ensures t == WithMonitors(s, reg, cs, recovery, ans)
  {
    MonitorsOnly(s, reg, cs, recovery, ans);
  }

  class DiscoveryService {
    const reg: Registry
    var active: map<DeviceClass, Monitor>
    var leaving: set<ListId>
    var lists: map<ListId, DriverList>
    var nextList: ListId
    ghost var starts: multiset<Use>
    ghost var stops: multiset<Use>
    ghost var nullStop: bool

    ghost function View(): State
      reads this
    {
      State(active, leaving, lists, nextList, starts, stops, nullStop)
    }

    constructor (reg: Registry)
      ensures this.reg == reg && View() == State(map[], {}, map[], 0, multiset{}, multiset{}, false)
    {
      this.reg := reg;
      active, leaving, lists, nextList := map[], {}, map[], 0;
      starts, stops, nullStop := multiset{}, multiset{}, false;
    }

    method ListRef(l: ListId)
      requires l in lists
      modifies this`lists
      ensures lists == old(lists)[l := old(lists)[l].(refs := old(lists)[l].refs + 1)]
    {
      lists := lists[l := lists[l].(refs := lists[l].refs + 1)];
    }

    /** Drops a reference; the last one frees the list. */
    method ListUnref(l: ListId)
      modifies this`lists
      ensures lists == Unref(old(lists), l)
    {
      if l !in lists {
      } else if lists[l].refs <= 1 {
        lists := lists - {l};
      } else {
        lists := lists[l := lists[l].(refs := lists[l].refs - 1)];
      }
    }

    method ChooseClasses(classes: seq<DeviceClass>, recovery: bool, ans: Answers) returns (choice: Choice)
      ensures choice == Choose(reg, active, classes, recovery, ans)
    {
      choice := Chosen([]);
      assert classes[..0] == [];
      for i := 0 to |classes|
        invariant choice == Choose(reg, active, classes[..i], recovery, ans)
      {
        var c := classes[i];
        assert classes[..i + 1][..i] == classes[..i];
        if choice.Chosen? && c !in active {
          if CanStart(reg, c, recovery, ans) {
            choice := Chosen(choice.classes + [c]);
          } else {
            choice := Refused;
          }
        }
      }
      assert classes[..|classes|] == classes;
    }

    /** Starts the drivers of one class and returns those that started. */
    method StartDrivers(c: DeviceClass, recovery: bool, ans: Answers) returns (started: seq<Driver>, anyFailed: bool)
      modifies this`starts
      ensures started == Started(reg, c, recovery, ans)
      ensures starts == old(starts) + Uses(c, started)
      ensures anyFailed <==> AnyFailed(DriversOf(reg, c), c, recovery, ans)
    {
      var drivers := DriversOf(reg, c);
      started, anyFailed := [], false;
      assert drivers[..0] == [];
      for i := 0 to |drivers|
        invariant started == StartedOf(drivers[..i], c, recovery, ans)
        invariant starts == old(starts) + Uses(c, started)
        invariant anyFailed <==> AnyFailed(drivers[..i], c, recovery, ans)
      {
        var d := drivers[i];
        AnyFailedOneMore(drivers, i, c, recovery, ans);
        StartedOneMore(drivers, i, c, recovery, ans);
        if Asked(d, c, recovery, ans) {
          if ans.starts(c, d) {
            UsesOneMore(old(starts), c, started, d);
            started := started + [d];
            starts := starts + multiset{Use(d, c)};
          } else {
            anyFailed := true;
          }
        }
      }
      assert drivers[..|drivers|] == drivers;
    }

    method StopAll(c: DeviceClass, drivers: seq<Driver>)
      modifies this`stops
      ensures stops == old(stops) + Uses(c, Stoppable(drivers))
    {
      assert drivers[..0] == [];
      for i := 0 to |drivers|
        invariant stops == old(stops) + Uses(c, Stoppable(drivers[..i]))
      {
        assert drivers[..i + 1][..i] == drivers[..i];
        if drivers[i].canStop {
          UsesOneMore(old(stops), c, Stoppable(drivers[..i]), drivers[i]);
          stops := stops + multiset{Use(drivers[i], c)};
        }
      }
      assert drivers[..|drivers|] == drivers;
    }

    /** Starts the drivers of all classes; the lists are held by the local map only. */
    method StartAllDrivers(cs: seq<DeviceClass>, recovery: bool, ans: Answers)
      returns (started: seq<seq<Driver>>, anyFailed: bool)
      modifies this`starts
      ensures started == AllStarted(reg, cs, recovery, ans)
      ensures starts == old(starts) + StartUses(reg, cs, recovery, ans)
      ensures anyFailed <==> StartFails(reg, cs, recovery, ans)
    {
      started, anyFailed := [], false;
      assert cs[..0] == [];
      for i := 0 to |cs|
        invariant started == AllStarted(reg, cs[..i], recovery, ans)
        invariant starts == old(starts) + StartUses(reg, cs[..i], recovery, ans)
        invariant anyFailed <==> StartFails(reg, cs[..i], recovery, ans)
      {
        assert cs[..i + 1][..i] == cs[..i];
        StartFailsOneMore(reg, cs, i, recovery, ans);
        var drivers, failed := StartDrivers(cs[i], recovery, ans);
        StartsOneMore(old(starts), reg, cs, i, recovery, ans);
        started := started + [drivers];
        anyFailed := anyFailed || failed;
      }
      assert cs[..|cs|] == cs;
    }

    /** Stops every started driver that can be stopped. */
    method Rollback(cs: seq<DeviceClass>, started: seq<seq<Driver>>, recovery: bool, ans: Answers)
      requires started == AllStarted(reg, cs, recovery, ans)
      modifies this`stops
      ensures stops == old(stops) + RollbackUses(reg, cs, recovery, ans)
    {
      assert cs[..0] == [];
      for i := 0 to |cs|
        invariant stops == old(stops) + RollbackUses(reg, cs[..i], recovery, ans)
      {
        AllStartedAt(reg, cs, recovery, ans, i);
        StopAll(cs[i], started[i]);
        RollbackOneMore(old(stops), reg, cs, i, recovery, ans);
      }
      assert cs[..|cs|] == cs;
    }

    method InstallMonitor(c: DeviceClass, drivers: seq<Driver>)
      modifies this`lists, this`active, this`nextList
      ensures active == old(active)[c := Monitor(old(nextList), false)]
      ensures lists == old(lists)[old(nextList) := DriverList(drivers, 2)]
      ensures nextList == old(nextList) + 1
    {
      lists := lists[nextList := DriverList(drivers, 1)];
      ListRef(nextList);
      active := active[c := Monitor(nextList, false)];
      nextList := nextList + 1;
    }

    /** Gives each class a monitor that holds its list, beside the local map's hold. */
    method InstallAll(cs: seq<DeviceClass>, started: seq<seq<Driver>>, recovery: bool, ans: Answers,
                      ghost before: State)
      requires started == AllStarted(reg, cs, recovery, ans)
      requires active == before.active && lists == before.lists && nextList == before.nextList
      modifies this`lists, this`active, this`nextList
      ensures var h := HeldTwice(before, reg, cs, recovery, ans);
              active == h.active && lists == h.lists && nextList == h.nextList
    {
      assert cs[..0] == [];
      for i := 0 to |cs|
        invariant var h := HeldTwice(before, reg, cs[..i], recovery, ans);
                  active == h.active && lists == h.lists && nextList == h.nextList
      {
        HeldTwiceOneMore(before, reg, cs, i, recovery, ans);
        AllStartedAt(reg, cs, recovery, ans, i);
        InstallMonitor(cs[i], started[i]);
      }
      assert cs[..|cs|] == cs;
    }

    /** Gives each class its monitor, then gives up the local holds. */
    method StartMonitors(cs: seq<DeviceClass>, started: seq<seq<Driver>>, recovery: bool, ans: Answers,
                         ghost before: State)
      requires started == AllStarted(reg, cs, recovery, ans)
      requires View() == before.(starts := before.starts + StartUses(reg, cs, recovery, ans))
      modifies this`lists, this`active, this`nextList
      ensures View() == WithMonitors(before, reg, cs, recovery, ans)
    {
      var base := nextList;
      InstallAll(cs, started, recovery, ans, before);
      ReleaseRange(base, |cs|);
      ReleasedLists(before, reg, cs, recovery, ans);
      MonitorsField(View(), before, reg, cs, recovery, ans);
    }

    method ReleaseRange(base: nat, n: nat)
      modifies this`lists
      ensures lists == UnrefRange(old(lists), base, base + n)
    {
      for i := 0 to n
        invariant lists == UnrefRange(old(lists), base, base + i)
      {
        ListUnref(base + i);
      }
    }

    method DiscoverStart(classes: seq<DeviceClass>, recovery: bool, ans: Answers) returns (result: bool)
      modifies this
      ensures (View(), result) == DoStart(old(View()), reg, classes, recovery, ans)
    {
      var choice := ChooseClasses(classes, recovery, ans);
      result := choice.Chosen? && choice.classes != [];
      if result {
        result := StartChosen(choice.classes, recovery, ans);
      }
    }

    method StartChosen(cs: seq<DeviceClass>, recovery: bool, ans: Answers) returns (result: bool)
      modifies this
      ensures result <==> !StartFails(reg, cs, recovery, ans)
      ensures result ==> View() == WithMonitors(old(View()), reg, cs, recovery, ans)
      ensures !result ==> View() == RolledBack(old(View()), reg, cs, recovery, ans)
    {
      ghost var before := View();
      var started, anyFailed := StartAllDrivers(cs, recovery, ans);
      result := !anyFailed;
      if anyFailed {
        Rollback(cs, started, recovery, ans);
      } else {
        StartMonitors(cs, started, recovery, ans, before);
      }
    }

    /** The monitor thread stops its drivers, calling every stop callback unchecked. */
    method MonitorStop(c: DeviceClass)
      requires CanMonitorStop(View(), c)
      modifies this
      ensures View() == DoMonitorStop(old(View()), c)
    {
      var drivers := lists[active[c].list].drivers;
      StopAll(c, drivers);
      nullStop := nullStop || Stoppable(drivers) != drivers;
      active := active[c := active[c].(stopped := true)];
    }

    method MonitorDelete(c: DeviceClass)
      requires CanMonitorDelete(View(), c)
      modifies this
      ensures View() == DoMonitorDelete(old(View()), c)
    {
      leaving := leaving + {active[c].list};
      active := active - {c};
    }

    method MonitorUnref(l: ListId)
      requires l in leaving && l in lists
      modifies this
      ensures View() == DoMonitorUnref(old(View()), l)
    {
      ListUnref(l);
      leaving := leaving - {l};
    }
  }
}
