/**
 The communication watchdog (core/src/deviceCommunicationWatchdog.c): a table of countdowns in
 32-bit milliseconds, reset by contact, shortened by a periodic check, saved and restored
 around low-power mode. Arithmetic is that of the C types: uint32_t products and differences
 wrap, and int32_t values are the two's-complement reading of 32 bits.
 */
module Watchdog {
  import opened Basics

  const TWO_31: int := 0x8000_0000
  const TWO_32: int := 0x1_0000_0000
  const TWO_64: int := 0x1_0000_0000_0000_0000
  const MIN_UPDATE_INTERVAL_MILLIS: nat := 5000

  function ToU32(x: int): (r: nat)
    ensures r < TWO_32
  {
    x % TWO_32
  }

  function ToS32(x: int): (r: int)
    ensures -TWO_31 <= r < TWO_31
  {
    var m := x % TWO_32;
    if m < TWO_31 then m else m - TWO_32
  }

  /** MonitoredDeviceInfo: window in seconds, time left when last synchronised, the clock then. */
  datatype Device = Device(timeoutSecs: nat, remaining: nat, lastSync: nat, inCommFail: bool)

  predicate Fits(d: Device) {
    d.timeoutSecs < TWO_32 && d.remaining < TWO_32 && d.lastSync < TWO_64
  }

  datatype Notice = Failed | Restored

  /** A monitored device with its notifications: those decided on under the lock, in order; of
      these the ones whose callback is still to be called, each by the thread that decided; and
      the ones delivered, in the order of the calls. */
  datatype Tracked = Tracked(device: Device, decided: seq<Notice>, inFlight: multiset<Notice>, delivered: seq<Notice>)

  datatype Op =
    | Pet(now: nat)
    | Check(readAt: nat, syncAt: nat, fast: bool)
    | Force
    | Restore(now: nat, secs: int)
    | Deliver(notice: Notice)

  /** The flag changes under the lock; its notification is then on its way. */
  function Decide(x: Tracked, device: Device, notice: Notice): Tracked {
    x.(device := device, decided := x.decided + [notice], inFlight := x.inFlight + multiset{notice})
  }

  function Window(timeoutSecs: nat): nat {
    ToU32(timeoutSecs * 1000)
  }

  /** uint64_t difference of two clock readings. */
  function Elapsed(from: nat, now: nat): int {
    if now >= from then now - from else now - from + TWO_64
  }

  /** Never wraps: the difference is taken only when it is positive and below remaining. */
  function MillisUntilCommFail(d: Device, now: nat): nat {
    var since := Elapsed(d.lastSync, now);
    if d.remaining > since then d.remaining - since else 0
  }

  function SetMillis(d: Device, now: nat, millis: nat): Device {
    d.(lastSync := now, remaining := millis)
  }

  /** What the check leaves on the countdown; in fast mode a hundredth. */
  function CheckedMillis(d: Device, readAt: nat, fast: bool): nat {
    var left := MillisUntilCommFail(d, readAt);
    if fast then left / 100 else left
  }

  function ApplyCheck(x: Tracked, readAt: nat, syncAt: nat, fast: bool): Tracked {
    var left := CheckedMillis(x.device, readAt, fast);
    var d := SetMillis(x.device, syncAt, left);
    if left == 0 && !x.device.inCommFail then Decide(x, d.(inCommFail := true), Failed) else x.(device := d)
  }

  /** A callback is called after the lock has been released, so others may come in between. */
  function ApplyDeliver(x: Tracked, n: Notice): Tracked {
    if n in x.inFlight then x.(inFlight := x.inFlight - multiset{n}, delivered := x.delivered + [n]) else x
  }

  function Apply(x: Tracked, op: Op): Tracked {
    var d := x.device;
    match op
    case Pet(now) =>
      var reset := SetMillis(d, now, Window(d.timeoutSecs)).(inCommFail := false);
      if d.inCommFail then Decide(x, reset, Restored) else x.(device := reset)
    case Check(readAt, syncAt, fast) => ApplyCheck(x, readAt, syncAt, fast)
    case Force => if d.inCommFail then x else Decide(x, d.(inCommFail := true), Failed)
    case Restore(now, secs) =>
      if secs < 0 || d.inCommFail then x
      else x.(device := SetMillis(d, now, ToU32(secs * 1000)))
    case Deliver(n) => ApplyDeliver(x, n)
  }

  /** What one pass does to one device. */
  predicate Checked(was: Tracked, now: Tracked, readings: (nat, nat), fast: bool, collected: bool) {
    now == ApplyCheck(was, readings.0, readings.1, fast) && (collected <==> NewlyFailed(was.device, now.device))
  }

  /** Seconds to hand to low-power mode; -1 when already in comm fail. The difference of two
      uint32_t values is read as an int32_t. */
  function SavedSeconds(d: Device, now: nat, delaySecs: nat): int {
    if d.inCommFail then -1
    else
      var secs := MillisUntilCommFail(d, now) / 1000;
      var diff := ToS32(delaySecs - d.timeoutSecs);
      if diff >= 0 then ToS32(secs + diff) else secs
  }

  /** The notifications about a device, monitored or not. */
  datatype Post = Post(decided: seq<Notice>, inFlight: multiset<Notice>, delivered: seq<Notice>)

  const NO_POST: Post := Post([], multiset{}, [])

  function Called(p: Post, n: Notice): Post {
    Post(p.decided, p.inFlight - multiset{n}, p.delivered + [n])
  }

  predicate NewlyFailed(was: Device, now: Device) {
    !was.inCommFail && now.inCommFail
  }

  class CommunicationWatchdog {
    var running: bool
    var devices: map<Uuid, Device>
    ghost var posts: map<Uuid, Post>

    ghost predicate Valid()
      reads this
    {
      devices.Keys <= posts.Keys && forall u :: u in devices ==> Fits(devices[u])
    }

    ghost function View(u: Uuid): Tracked
      requires Valid() && u in devices
      reads this
    {
      Tracked(devices[u], posts[u].decided, posts[u].inFlight, posts[u].delivered)
    }

    constructor ()
      ensures Valid() && running && devices == map[] && posts == map[]
    {
      running, devices, posts := true, map[], map[];
    }

    /** A device is registered once; a zero timeout or a stopped watchdog registers nothing. */
    method MonitorDevice(uuid: Uuid, timeoutSecs: nat, inCommFail: bool, now: nat)
      requires Valid() && timeoutSecs < TWO_32 && now < TWO_64
      requires uuid !in devices
      modifies this
      ensures Valid() && running == old(running)
      ensures timeoutSecs != 0 && running ==>
                && devices == old(devices)[uuid := Device(timeoutSecs, Window(timeoutSecs), now, inCommFail)]
                && posts == old(posts)[uuid := if uuid in old(posts) then old(posts)[uuid] else NO_POST]
      ensures timeoutSecs == 0 || !running ==> devices == old(devices) && posts == old(posts)
    {
      if timeoutSecs == 0 {
        return;
      }
      if running {
        devices := devices[uuid := Device(timeoutSecs, Window(timeoutSecs), now, inCommFail)];
        posts := posts[uuid := if uuid in posts then posts[uuid] else NO_POST];
      }
    }

    /** What is in flight for the device stays in flight. */
    method StopMonitoringDevice(uuid: Uuid)
      requires Valid()
      modifies this
      ensures Valid() && running == old(running)
      ensures devices == old(devices) - {uuid} && posts == old(posts)
    {
      devices := devices - {uuid};
    }

    method IsDeviceMonitored(uuid: Uuid) returns (monitored: bool)
      ensures monitored <==> uuid in devices
    {
      monitored := uuid in devices;
    }

    ghost method Announce(uuid: Uuid, n: Notice)
      requires uuid in posts
      modifies this`posts
      ensures posts == old(posts)[uuid := Post(old(posts)[uuid].decided + [n],
                                               old(posts)[uuid].inFlight + multiset{n}, old(posts)[uuid].delivered)]
    {
      var p := posts[uuid];
      posts := posts[uuid := Post(p.decided + [n], p.inFlight + multiset{n}, p.delivered)];
    }

    /** The part of a contact under the lock: only the device contacted changes. It tells whether
        the restored callback is now to be called, and whether the contact date is refreshed. */
    method PetLocked(uuid: Uuid, now: nat) returns (doNotify: bool, dateRefreshed: bool)
      requires Valid() && now < TWO_64
      modifies this
      ensures Valid() && devices.Keys == old(devices).Keys && running == old(running)
      ensures forall u :: u in devices && u != uuid ==> View(u) == old(View(u))
      ensures uuid in devices ==> View(uuid) == Apply(old(View(uuid)), Pet(now))
      ensures doNotify <==> uuid in devices && old(devices)[uuid].inCommFail
      ensures dateRefreshed <==>
              (uuid in devices && Elapsed(old(devices)[uuid].lastSync, now) >= MIN_UPDATE_INTERVAL_MILLIS)
    {
      doNotify, dateRefreshed := false, false;
      if uuid in devices {
        var info := devices[uuid];
        dateRefreshed := Elapsed(info.lastSync, now) >= MIN_UPDATE_INTERVAL_MILLIS;
        if info.inCommFail {
          doNotify := true;
          Announce(uuid, Restored);
        }
        devices := devices[uuid := SetMillis(info, now, Window(info.timeoutSecs)).(inCommFail := false)];
      }
    }

    method ForceLocked(uuid: Uuid) returns (doNotify: bool)
      requires Valid()
      modifies this
      ensures Valid() && devices.Keys == old(devices).Keys && running == old(running)
      ensures forall u :: u in devices && u != uuid ==> View(u) == old(View(u))
      ensures uuid in devices ==> View(uuid) == Apply(old(View(uuid)), Force)
      ensures doNotify <==> uuid in devices && !old(devices)[uuid].inCommFail
    {
      doNotify := uuid in devices && !devices[uuid].inCommFail;
      if doNotify {
        devices := devices[uuid := devices[uuid].(inCommFail := true)];
        Announce(uuid, Failed);
      }
    }

    /** Calls a callback that was decided on, after the lock was released. */
    method Call(uuid: Uuid, n: Notice)
      requires Valid() && uuid in posts && n in posts[uuid].inFlight
      modifies this`posts
      ensures Valid() && posts == old(posts)[uuid := Called(old(posts)[uuid], n)]
      ensures uuid in devices ==> View(uuid) == Apply(old(View(uuid)), Deliver(n))
    {
      posts := posts[uuid := Called(posts[uuid], n)];
    }

    /** A contact that no other thread comes in on: the callback follows at once. */
    method PetDevice(uuid: Uuid, now: nat) returns (dateRefreshed: bool)
      requires Valid() && now < TWO_64
      modifies this
      ensures Valid() && devices.Keys == old(devices).Keys && running == old(running)
      ensures forall u :: u in devices && u != uuid ==> View(u) == old(View(u))
      ensures uuid in devices ==>
                var x := Apply(old(View(uuid)), Pet(now));
                View(uuid) == if old(devices)[uuid].inCommFail then Apply(x, Deliver(Restored)) else x
      ensures dateRefreshed <==>
              (uuid in devices && Elapsed(old(devices)[uuid].lastSync, now) >= MIN_UPDATE_INTERVAL_MILLIS)
    {
      var doNotify;
      doNotify, dateRefreshed := PetLocked(uuid, now);
      if doNotify {
        Call(uuid, Restored);
      }
    }

    method ForceDeviceInCommFail(uuid: Uuid)
      requires Valid()
      modifies this
      ensures Valid() && devices.Keys == old(devices).Keys && running == old(running)
      ensures forall u :: u in devices && u != uuid ==> View(u) == old(View(u))
      ensures uuid in devices ==>
                var x := Apply(old(View(uuid)), Force);
                View(uuid) == if old(devices)[uuid].inCommFail then x else Apply(x, Deliver(Failed))
    {
      var doNotify := ForceLocked(uuid);
      if doNotify {
        Call(uuid, Failed);
      }
    }

    method GetRemainingForLPM(uuid: Uuid, delaySecs: nat, now: nat) returns (secs: int)
      requires Valid() && delaySecs < TWO_32
      ensures secs == if uuid in devices then SavedSeconds(devices[uuid], now, delaySecs) else -1
    {
      secs := -1;
      if uuid in devices {
        var info := devices[uuid];
        if !info.inCommFail {
          secs := MillisUntilCommFail(info, now) / 1000;
          var diff := ToS32(delaySecs - info.timeoutSecs);
          if diff >= 0 {
            secs := ToS32(secs + diff);
          }
        }
      }
    }

    method SetRemainingFromLPM(uuid: Uuid, secs: int, now: nat)
      requires Valid() && now < TWO_64
      modifies this
      ensures Valid() && devices.Keys == old(devices).Keys && running == old(running)
      ensures forall u :: u in devices && u != uuid ==> View(u) == old(View(u))
      ensures uuid in devices ==> View(uuid) == Apply(old(View(uuid)), Restore(now, secs))
    {
      if secs >= 0 && uuid in devices && !devices[uuid].inCommFail {
        devices := devices[uuid := SetMillis(devices[uuid], now, ToU32(secs * 1000))];
      }
    }

    /** The check of one device under the lock; it tells whether the failed callback is to be
        called once the pass is over. */
    method CheckDevice(uuid: Uuid, readAt: nat, syncAt: nat, fast: bool) returns (fails: bool)
      requires Valid() && uuid in devices && readAt < TWO_64 && syncAt < TWO_64
      modifies this
      ensures Valid() && devices.Keys == old(devices).Keys && running == old(running)
      ensures forall u :: u in devices && u != uuid ==> View(u) == old(View(u))
      ensures View(uuid) == ApplyCheck(old(View(uuid)), readAt, syncAt, fast)
      ensures fails <==> NewlyFailed(old(devices)[uuid], devices[uuid])
    {
      var info := devices[uuid];
      var millis := MillisUntilCommFail(info, readAt);
      if fast {
        millis := millis / 100;
      }
      fails := millis == 0 && !info.inCommFail;
      if fails {
        info := info.(inCommFail := true);
        Announce(uuid, Failed);
      }
      devices := devices[uuid := SetMillis(info, syncAt, millis)];
    }

    /** Checks one device and collects it if it failed. */
    method CheckAndCollect(uuid: Uuid, reading: (nat, nat), fast: bool, failed: set<Uuid>) returns (more: set<Uuid>)
      requires Valid() && uuid in devices && reading.0 < TWO_64 && reading.1 < TWO_64 && uuid !in failed
      modifies this
      ensures Valid() && devices.Keys == old(devices).Keys && running == old(running)
      ensures forall u :: u in devices && u != uuid ==> View(u) == old(View(u))
      ensures Checked(old(View(uuid)), View(uuid), reading, fast, uuid in more)
      ensures failed <= more <= failed + {uuid}
    {
      var fails := CheckDevice(uuid, reading.0, reading.1, fast);
      more := if fails then failed + {uuid} else failed;
    }

    /** One pass of the monitor thread, under the lock. The clock is read twice per device;
        readings[u] holds the two values seen for u. The devices that failed are collected. */
    method CheckDevices(fast: bool, readings: map<Uuid, (nat, nat)>) returns (failed: set<Uuid>)
      requires Valid() && devices.Keys <= readings.Keys
      requires forall u :: u in devices ==> readings[u].0 < TWO_64 && readings[u].1 < TWO_64
      modifies this
      ensures Valid() && devices.Keys == old(devices).Keys && running == old(running)
      ensures failed <= devices.Keys
      ensures forall u :: u in devices ==> Checked(old(View(u)), View(u), readings[u], fast, u in failed)
    {
      failed := {};
      var todo := devices.Keys;
      while todo != {}
        invariant Valid() && devices.Keys == old(devices).Keys && todo <= devices.Keys && running == old(running)
        invariant failed !! todo && failed <= devices.Keys
        invariant forall u :: u in todo ==> View(u) == old(View(u))
        invariant forall u :: u in devices && u !in todo ==>
                    Checked(old(View(u)), View(u), readings[u], fast, u in failed)
        decreases todo
      {
        var uuid :| uuid in todo;
        failed := CheckAndCollect(uuid, readings[uuid], fast, failed);
        todo := todo - {uuid};
      }
    }

    /** After the pass, outside the lock: calls back for each device that failed. */
    method NotifyFailed(failed: set<Uuid>)
      requires Valid() && forall u :: u in failed ==> u in posts && Failed in posts[u].inFlight
      modifies this`posts
      ensures Valid() && posts.Keys == old(posts).Keys
      ensures forall u :: u in failed ==>
                posts[u] == Called(old(posts)[u], Failed)
      ensures forall u :: u in posts && u !in failed ==> posts[u] == old(posts)[u]
    {
      var todo := failed;
      while todo != {}
        invariant Valid() && posts.Keys == old(posts).Keys && todo <= failed
        invariant forall u :: u in failed && u !in todo ==>
                    posts[u] == Called(old(posts)[u], Failed)
        invariant forall u :: u in posts && (u !in failed || u in todo) ==> posts[u] == old(posts)[u]
        decreases todo
      {
        var uuid :| uuid in todo;
        Call(uuid, Failed);
        todo := todo - {uuid};
      }
    }
  }
}
