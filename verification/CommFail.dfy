/**
 The layer that decides which devices the watchdog monitors and for how long
 (core/src/deviceServiceCommFail.c).
 */
module CommFail {
  import opened Basics
  import opened Decimal
  import opened Watchdog

  datatype DriverName = DriverName(text: string)
  datatype Driver = Driver(name: DriverName, customCommFail: bool)

  /** The parts of a stored device this layer reads: its driver, the override metadata and
      whether its comm-fail resource says "true". */
  datatype Record = Record(driver: DriverName, overrideSecs: Option<string>, commFail: bool)

  /** The override metadata when it is a decimal number of 32 bits, else the default. */
  function EffectiveTimeout(record: Record, defaultSecs: nat): (secs: nat)
    requires defaultSecs < TWO_32
    ensures secs < TWO_32
    ensures match record.overrideSecs
            case None => secs == defaultSecs
            case Some(text) =>
              if text != [] && AllDigits(text) && Value(text) < TWO_32 then secs == Value(text) else secs == defaultSecs
  {
    match record.overrideSecs
    case None => defaultSecs
    case Some(text) =>
      match Parse(text, TWO_32 - 1)
      case Some(value) => value
      case None => defaultSecs
  }

  /** A printed override is always taken, whatever the default. */
  lemma OverrideWins(record: Record, value: nat, defaultSecs: nat)
    requires value < TWO_32 && defaultSecs < TWO_32
    requires record.overrideSecs == Some(Print(value))
    ensures EffectiveTimeout(record, defaultSecs) == value
  {
    ParsePrint(value, TWO_32 - 1);
  }

  /** Device with uuid u is of a registered driver that leaves comm fail to the watchdog. */
  predicate Managed(drivers: map<DriverName, Driver>, db: map<Uuid, Record>, u: Uuid) {
    u in db && db[u].driver in drivers && !drivers[db[u].driver].customCommFail
  }

  class CommFailService {
    const watchdog: CommunicationWatchdog
    /** Registered drivers by name, and the order in which they are listed. */
    const drivers: map<DriverName, Driver>
    const order: seq<DriverName>
    var defaultTimeoutSecs: nat

    ghost predicate Valid()
      reads this, watchdog
    {
      && watchdog.Valid() && watchdog.running && defaultTimeoutSecs < TWO_32
      && (forall n :: n in order <==> n in drivers)
      && (forall n :: n in drivers ==> drivers[n].name == n)
    }

    constructor (watchdog: CommunicationWatchdog, drivers: map<DriverName, Driver>, order: seq<DriverName>)
      requires watchdog.Valid() && watchdog.running
      requires forall n :: n in order <==> n in drivers
      requires forall n :: n in drivers ==> drivers[n].name == n
      ensures Valid() && this.watchdog == watchdog && this.drivers == drivers && this.order == order
      ensures defaultTimeoutSecs == 0
    {
      this.watchdog, this.drivers, this.order := watchdog, drivers, order;
      defaultTimeoutSecs := 0;
    }

    /** What monitoring of u looks like once its timeout is set: nothing, or a fresh countdown. */
    ghost predicate Settled(db: map<Uuid, Record>, u: Uuid, secs: nat, now: nat)
      requires u in db && secs < TWO_32
      reads watchdog
    {
      var timeout := EffectiveTimeout(db[u], secs);
      && (u in watchdog.devices <==> timeout != 0)
      && (u in watchdog.devices ==> watchdog.devices[u] == Device(timeout, Window(timeout), now, db[u].commFail))
    }

    method SetDeviceTimeoutSecs(db: map<Uuid, Record>, u: Uuid, secs: nat, now: nat)
      requires Valid() && u in db && secs < TWO_32 && now < TWO_64
      modifies watchdog
      ensures Valid() && defaultTimeoutSecs == old(defaultTimeoutSecs)
      ensures Managed(drivers, db, u) ==>
                var timeout := EffectiveTimeout(db[u], secs);
                watchdog.devices ==
                if timeout == 0 then old(watchdog.devices) - {u}
                else old(watchdog.devices)[u := Device(timeout, Window(timeout), now, db[u].commFail)]
      ensures !Managed(drivers, db, u) ==> watchdog.devices == old(watchdog.devices)
    {
      if db[u].driver !in drivers {
        return;
      }
      var timeout := EffectiveTimeout(db[u], secs);
      if drivers[db[u].driver].customCommFail {
        return;
      }
      var monitored := watchdog.IsDeviceMonitored(u);
      if monitored {
        watchdog.StopMonitoringDevice(u);
      }
      if timeout != 0 {
        watchdog.MonitorDevice(u, timeout, db[u].commFail, now);
      }
    }

    /** The devices of one driver, in any order. */
    method SetDriverTimeoutSecs(db: map<Uuid, Record>, driver: DriverName, secs: nat, clock: map<Uuid, nat>)
      requires Valid() && driver in drivers && secs < TWO_32 && db.Keys <= clock.Keys
      requires forall u :: u in clock ==> clock[u] < TWO_64
      modifies watchdog
      ensures Valid() && defaultTimeoutSecs == old(defaultTimeoutSecs)
      ensures forall u :: u in db && db[u].driver == driver && Managed(drivers, db, u) ==>
              Settled(db, u, secs, clock[u])
      ensures forall u :: !(u in db && db[u].driver == driver && Managed(drivers, db, u)) ==>
                SameEntry(old(watchdog.devices), watchdog.devices, u)
    {
      var todo := set u | u in db && db[u].driver == driver;
      while todo != {}
        invariant Valid() && defaultTimeoutSecs == old(defaultTimeoutSecs)
        invariant forall u :: u in todo ==> u in db && db[u].driver == driver
        invariant forall u :: u in db && db[u].driver == driver && u !in todo && Managed(drivers, db, u) ==>
                    Settled(db, u, secs, clock[u])
        invariant forall u :: !(u in db && db[u].driver == driver && u !in todo && Managed(drivers, db, u)) ==>
                    SameEntry(old(watchdog.devices), watchdog.devices, u)
        decreases todo
      {
        var u :| u in todo;
        SetDeviceTimeoutSecs(db, u, secs, clock[u]);
        todo := todo - {u};
      }
    }

    /** Sets the global timeout. Afterwards a device of a registered driver without custom
        handling is monitored exactly when its effective timeout is not zero, and with that
        timeout; the monitoring of every other device is untouched. */
    method SetTimeoutSecs(db: map<Uuid, Record>, secs: nat, clock: map<Uuid, nat>)
      requires Valid() && secs < TWO_32 && db.Keys <= clock.Keys
      requires forall u :: u in clock ==> clock[u] < TWO_64
      modifies this, watchdog
      ensures Valid() && defaultTimeoutSecs == secs
      ensures forall u :: Managed(drivers, db, u) ==> Settled(db, u, secs, clock[u])
      ensures forall u :: !Managed(drivers, db, u) ==> SameEntry(old(watchdog.devices), watchdog.devices, u)
      ensures forall u :: u in db && db[u].driver in drivers && !drivers[db[u].driver].customCommFail ==>
                (if EffectiveTimeout(db[u], secs) == 0 then u !in watchdog.devices
                 else u in watchdog.devices && watchdog.devices[u].timeoutSecs == EffectiveTimeout(db[u], secs))
      ensures forall u :: u in db && db[u].driver in drivers && drivers[db[u].driver].customCommFail ==>
                SameEntry(old(watchdog.devices), watchdog.devices, u)
    {
      defaultTimeoutSecs := secs;
      for i := 0 to |order|
        invariant Valid() && defaultTimeoutSecs == secs
        invariant forall u :: Managed(drivers, db, u) && db[u].driver in order[..i] ==> Settled(db, u, secs, clock[u])
        invariant forall u :: !Managed(drivers, db, u) ==> SameEntry(old(watchdog.devices), watchdog.devices, u)
      {
        assert order[..i + 1] == order[..i] + [order[i]];
        SetDriverTimeoutSecs(db, order[i], secs, clock);
      }
    }
  }

  predicate SameEntry(a: map<Uuid, Device>, b: map<Uuid, Device>, u: Uuid) {
    (u in a <==> u in b) && (u in a && u in b ==> a[u] == b[u])
  }
}
