/**
 Multi-class discovery start with rollback, reference-counted driver lists and monitor
 threads (core/src/deviceService.c:171-204, 451-829, 3422-3524).
 */
module Discovery {

  datatype DeviceClass = DeviceClass(name: string)
  /** Which callbacks a driver has, and whether it may run without a device descriptor list. */
  datatype Driver = Driver(name: string, neverReject: bool, canDiscover: bool, canRecover: bool, canStop: bool)
  type Registry = map<DeviceClass, seq<Driver>>

  /** Answers from outside during one start: is the service ready, is the descriptor list ready
      (asked once per class and once per driver), does the driver start. */
  datatype Answers = Answers(
    serviceReady: DeviceClass -> bool,
    listReady: DeviceClass -> bool,
    listReadyFor: (DeviceClass, Driver) -> bool,
    starts: (DeviceClass, Driver) -> bool)

  type ListId = nat
  datatype DriverList = DriverList(drivers: seq<Driver>, refs: nat)
  /** A monitor context in the active map; stopped once it has told its drivers to stop. */
  datatype Monitor = Monitor(list: ListId, stopped: bool)
  datatype Use = Use(driver: Driver, cls: DeviceClass)

  datatype State = State(
    active: map<DeviceClass, Monitor>,
    leaving: set<ListId>,              // contexts out of the map whose thread still holds its list
    lists: map<ListId, DriverList>,    // live lists
    nextList: ListId,
    starts: multiset<Use>,             // successful start callbacks so far
    stops: multiset<Use>,              // stop callbacks so far
    nullStop: bool)                    // a monitor called a missing stop callback

  // ----- which classes and drivers take part

  function DriversOf(reg: Registry, c: DeviceClass): seq<Driver> {
    if c in reg then reg[c] else []
  }

  predicate AnyUsable(ds: seq<Driver>, serviceReady: bool) {
    exists i :: 0 <= i < |ds| && (serviceReady || ds[i].neverReject)
  }

  predicate AnyRecovers(ds: seq<Driver>, serviceReady: bool) {
    exists i :: 0 <= i < |ds| && (serviceReady || ds[i].neverReject) && ds[i].canRecover
  }

  /** Enough drivers for the class in the present state of the service. */
  predicate CanStart(reg: Registry, c: DeviceClass, recovery: bool, ans: Answers) {
    var ds := DriversOf(reg, c);
    && AnyUsable(ds, ans.serviceReady(c))
    && (recovery ==> AnyRecovers(ds, ans.serviceReady(c)))
    && (ans.listReady(c) || AnyUsable(ds, false))
  }

  datatype Choice = Refused | Chosen(classes: seq<DeviceClass>)

  /** The classes to start: those asked for and not running; one unusable class refuses all. */
  function Choose(reg: Registry, active: map<DeviceClass, Monitor>, classes: seq<DeviceClass>, recovery: bool,
                  ans: Answers): Choice
  {
    if classes == [] then Chosen([])
    else
      var c := classes[|classes| - 1];
      match Choose(reg, active, classes[..|classes| - 1], recovery, ans)
      case Refused => Refused
      case Chosen(cs) =>
        if c in active then Chosen(cs)
        else if CanStart(reg, c, recovery, ans) then Chosen(cs + [c]) else Refused
  }

  predicate Asked(d: Driver, c: DeviceClass, recovery: bool, ans: Answers) {
    (d.neverReject || ans.listReadyFor(c, d)) && if recovery then d.canRecover else d.canDiscover
  }

  /** Drivers of the list that are asked to start and do. */
  function StartedOf(ds: seq<Driver>, c: DeviceClass, recovery: bool, ans: Answers): seq<Driver> {
    if ds == [] then []
    else
      var d := ds[|ds| - 1];
      var rest := StartedOf(ds[..|ds| - 1], c, recovery, ans);
      if Asked(d, c, recovery, ans) && ans.starts(c, d) then rest + [d] else rest
  }

  predicate AnyFailed(ds: seq<Driver>, c: DeviceClass, recovery: bool, ans: Answers) {
    exists i :: 0 <= i < |ds| && Asked(ds[i], c, recovery, ans) && !ans.starts(c, ds[i])
  }

  function Started(reg: Registry, c: DeviceClass, recovery: bool, ans: Answers): seq<Driver> {
    StartedOf(DriversOf(reg, c), c, recovery, ans)
  }

  /** Some driver of some class was asked to start and failed. */
  predicate StartFails(reg: Registry, cs: seq<DeviceClass>, recovery: bool, ans: Answers) {
    exists i :: 0 <= i < |cs| && AnyFailed(DriversOf(reg, cs[i]), cs[i], recovery, ans)
  }

  function Uses(c: DeviceClass, ds: seq<Driver>): multiset<Use> {
    if ds == [] then multiset{} else Uses(c, ds[..|ds| - 1]) + multiset{Use(ds[|ds| - 1], c)}
  }

  /** Only drivers with a stop callback. */
  function Stoppable(ds: seq<Driver>): seq<Driver> {
    if ds == [] then []
    else
      var d := ds[|ds| - 1];
      if d.canStop then Stoppable(ds[..|ds| - 1]) + [d] else Stoppable(ds[..|ds| - 1])
  }

  function StartUses(reg: Registry, cs: seq<DeviceClass>, recovery: bool, ans: Answers): multiset<Use> {
    if cs == [] then multiset{}
    else StartUses(reg, cs[..|cs| - 1], recovery, ans)
         + Uses(cs[|cs| - 1], Started(reg, cs[|cs| - 1], recovery, ans))
  }

  function RollbackUses(reg: Registry, cs: seq<DeviceClass>, recovery: bool, ans: Answers): multiset<Use> {
    if cs == [] then multiset{}
    else RollbackUses(reg, cs[..|cs| - 1], recovery, ans)
         + Uses(cs[|cs| - 1], Stoppable(Started(reg, cs[|cs| - 1], recovery, ans)))
  }

  // ----- steps

  /** A class whose drivers ds have started gets a list of its own, held by its monitor. */
  function AddMonitor(s: State, c: DeviceClass, ds: seq<Driver>): State {
    s.(active := s.active[c := Monitor(s.nextList, false)],
       lists := s.lists[s.nextList := DriverList(ds, 1)],
       nextList := s.nextList + 1,
       starts := s.starts + Uses(c, ds))
  }

  function WithMonitors(s: State, reg: Registry, cs: seq<DeviceClass>, recovery: bool, ans: Answers): State
  {
    if cs == [] then s
    else
      var c := cs[|cs| - 1];
      AddMonitor(WithMonitors(s, reg, cs[..|cs| - 1], recovery, ans), c, Started(reg, c, recovery, ans))
  }

  /** Drivers started and stopped again; their lists are gone. */
  function RolledBack(s: State, reg: Registry, cs: seq<DeviceClass>, recovery: bool, ans: Answers): State {
    s.(starts := s.starts + StartUses(reg, cs, recovery, ans),
       stops := s.stops + RollbackUses(reg, cs, recovery, ans))
  }

  function DoStart(s: State, reg: Registry, classes: seq<DeviceClass>, recovery: bool, ans: Answers): (State, bool) {
    match Choose(reg, s.active, classes, recovery, ans)
    case Refused => (s, false)
    case Chosen(cs) =>
      if cs == [] then (s, false)
      else if StartFails(reg, cs, recovery, ans) then
        (RolledBack(s, reg, cs, recovery, ans), false)
      else (WithMonitors(s, reg, cs, recovery, ans), true)
  }

  predicate CanMonitorStop(s: State, c: DeviceClass) {
    && c in s.active && !s.active[c].stopped
    && s.active[c].list in s.lists && s.lists[s.active[c].list].drivers != []
  }

  /** The monitor thread tells every driver of its list to stop; it does not test for a
      missing callback. */
  function DoMonitorStop(s: State, c: DeviceClass): State
    requires CanMonitorStop(s, c)
  {
    var ds := s.lists[s.active[c].list].drivers;
    s.(active := s.active[c := s.active[c].(stopped := true)],
       stops := s.stops + Uses(c, Stoppable(ds)),
       nullStop := s.nullStop || Stoppable(ds) != ds)
  }

  predicate CanMonitorDelete(s: State, c: DeviceClass) {
    && c in s.active
    && s.active[c].list in s.lists && (s.active[c].stopped || s.lists[s.active[c].list].drivers == [])
  }

  function DoMonitorDelete(s: State, c: DeviceClass): State
    requires c in s.active
  {
    s.(active := s.active - {c}, leaving := s.leaving + {s.active[c].list})
  }

  function Unref(lists: map<ListId, DriverList>, l: ListId): map<ListId, DriverList> {
    if l !in lists then lists
    else if lists[l].refs <= 1 then lists - {l}
    else lists[l := lists[l].(refs := lists[l].refs - 1)]
  }

  function DoMonitorUnref(s: State, l: ListId): State {
    s.(leaving := s.leaving - {l}, lists := Unref(s.lists, l))
  }
}
