/**
 Endpoint removal, device removal and scrubbing (core/src/deviceService.c:307-339, 1016-1072,
 1489-1558). The database is a map of devices, events are an appended log.
 */
module Removal {
  import opened Basics

  datatype EndpointId = EndpointId(text: string)
  datatype Endpoint = Endpoint(id: EndpointId, enabled: bool)
  type Device = seq<Endpoint>
  type Database = map<Uuid, Device>
  datatype Key = Key(device: Uuid, endpoint: EndpointId)
  datatype Event = EndpointRemoved(key: Key, lastOfDevice: bool) | DeviceRemoved(device: Uuid)

  datatype State = State(db: Database, log: seq<Event>, marked: set<Uuid>)

  predicate HasEnabled(d: Device) {
    exists i :: 0 <= i < |d| && d[i].enabled
  }

  predicate OtherEnabled(d: Device, id: EndpointId) {
    exists i :: 0 <= i < |d| && d[i].enabled && d[i].id != id
  }

  /** The place of an endpoint, or the length when there is none. */
  function Place(d: Device, id: EndpointId): (i: nat)
    ensures i <= |d|
    ensures i < |d| ==> d[i].id == id
    ensures forall k :: 0 <= k < i ==> d[k].id != id
  {
    if d == [] then 0 else if d[0].id == id then 0 else Place(d[1..], id) + 1
  }

  function RemovedEvents(u: Uuid, d: Device): seq<Event> {
    if d == [] then []
    else
      var e := d[|d| - 1];
      RemovedEvents(u, d[..|d| - 1]) + if e.enabled then [EndpointRemoved(Key(u, e.id), true)] else []
  }

  function DoRemoveDevice(s: State, u: Uuid): State {
    if u in s.db then s.(db := s.db - {u}, log := s.log + RemovedEvents(u, s.db[u]) + [DeviceRemoved(u)])
    else s.(marked := s.marked + {u})
  }

  predicate Has(d: Device, id: EndpointId) {
    exists i :: 0 <= i < |d| && d[i] == Endpoint(id, true)
  }

  predicate IsEnabled(db: Database, k: Key) {
    k.device in db && Has(db[k.device], k.endpoint)
  }

  /** Switches the endpoint off and tells about it; the device goes when it was the last one. */
  function DoDisable(s: State, u: Uuid, i: nat): State
    requires u in s.db && i < |s.db[u]|
  {
    var d := s.db[u];
    var key, more := Key(u, d[i].id), OtherEnabled(d, d[i].id);
    var off := s.(db := s.db[u := d[i := d[i].(enabled := false)]], log := s.log + [EndpointRemoved(key, !more)]);
    if more then off else DoRemoveDevice(off, u)
  }

  function DoRemoveEndpoint(s: State, u: Uuid, id: EndpointId, cascade: bool): State {
    if u !in s.db then s
    else
      var d := s.db[u];
      var i := Place(d, id);
      if i == |d| || !d[i].enabled then s
      else if cascade then DoRemoveDevice(s, u)
      else DoDisable(s, u, i)
  }

  /** Devices without an enabled endpoint go, without a word. */
  function DoScrub(s: State): State {
    s.(db := map u | u in s.db && HasEnabled(s.db[u]) :: s.db[u])
  }

  // ----- the service

  class DeviceService {
    var db: Database
    var log: seq<Event>
    var marked: set<Uuid>

    function View(): State
      reads this
    {
      State(db, log, marked)
    }

    constructor (db: Database)
      ensures View() == State(db, [], {})
    {
      this.db, log, marked := db, [], {};
    }

    method SendEndpointsRemoved(u: Uuid, d: Device)
      modifies this`log
      ensures log == old(log) + RemovedEvents(u, d)
    {
      for i := 0 to |d|
        invariant log == old(log) + RemovedEvents(u, d[..i])
      {
        assert d[..i + 1][..i] == d[..i];
        if d[i].enabled {
          log := log + [EndpointRemoved(Key(u, d[i].id), true)];
        }
      }
      assert d[..|d|] == d;
    }

    method RemoveDevice(u: Uuid) returns (result: bool)
      modifies this
      ensures View() == DoRemoveDevice(old(View()), u) && result
    {
      if u in db {
        var d := db[u];
        db := db - {u};
        SendEndpointsRemoved(u, d);
        log := log + [DeviceRemoved(u)];
      } else {
        marked := marked + {u};
      }
      result := true;
    }

    method AnotherEnabled(d: Device, id: EndpointId) returns (r: bool)
      ensures r <==> OtherEnabled(d, id)
    {
      for i := 0 to |d|
        invariant forall k :: 0 <= k < i ==> !(d[k].enabled && d[k].id != id)
      {
        if d[i].enabled && d[i].id != id {
          return true;
        }
      }
      r := false;
    }

    method RemoveEndpointById(u: Uuid, id: EndpointId, cascade: bool) returns (result: bool)
      modifies this
      ensures View() == DoRemoveEndpoint(old(View()), u, id, cascade)
      ensures result <==>
              (u in old(db) && Place(old(db)[u], id) < |old(db)[u]| && old(db)[u][Place(old(db)[u], id)].enabled)
    {
      if u !in db {
        return false;
      }
      var d := db[u];
      var i := Place(d, id);
      if i == |d| || !d[i].enabled {
        return false;
      }
      if cascade {
        var _ := RemoveDevice(u);
      } else {
        db := db[u := d[i := d[i].(enabled := false)]];
        var more := AnotherEnabled(d, id);
        log := log + [EndpointRemoved(Key(u, id), !more)];
        if !more {
          var _ := RemoveDevice(u);
        }
      }
      result := true;
    }

    method AnyEnabled(d: Device) returns (r: bool)
      ensures r <==> HasEnabled(d)
    {
      for i := 0 to |d|
        invariant forall k :: 0 <= k < i ==> !d[k].enabled
      {
        if d[i].enabled {
          return true;
        }
      }
      r := false;
    }

    method ScrubDevices()
      modifies this`db
      ensures View() == DoScrub(old(View()))
    {
      var snapshot := db;
      var left := db.Keys;
      while left != {}
        invariant left <= snapshot.Keys
        invariant forall u :: u in db <==> u in snapshot && (u in left || HasEnabled(snapshot[u]))
        invariant forall u :: u in db ==> db[u] == snapshot[u]
        decreases |left|
      {
        var u :| u in left;
        var keep := AnyEnabled(snapshot[u]);
        if !keep {
          db := db - {u};
        }
        left := left - {u};
      }
    }
  }

  // ----- counting events

  function Times(log: seq<Event>, k: Key): nat {
    if log == [] then 0
    else
      var e := log[|log| - 1];
      Times(log[..|log| - 1], k) + if e.EndpointRemoved? && e.key == k then 1 else 0
  }

  function TimesGone(log: seq<Event>, u: Uuid): nat {
    if log == [] then 0
    else TimesGone(log[..|log| - 1], u) + if log[|log| - 1] == DeviceRemoved(u) then 1 else 0
  }

  lemma TimesOneMore(log: seq<Event>, e: Event, k: Key)
    ensures Times(log + [e], k) == Times(log, k) + if e.EndpointRemoved? && e.key == k then 1 else 0
  {
    assert (log + [e])[..|log|] == log;
  }

  lemma GoneOneMore(log: seq<Event>, e: Event, u: Uuid)
    ensures TimesGone(log + [e], u) == TimesGone(log, u) + if e == DeviceRemoved(u) then 1 else 0
  {
    assert (log + [e])[..|log|] == log;
  }

  predicate DistinctIds(d: Device) {
    forall i, j :: 0 <= i < j < |d| ==> d[i].id != d[j].id
  }

  ghost predicate WellFormed(db: Database) {
    forall u :: u in db ==> DistinctIds(db[u])
  }

  /** The events for a whole device name each of its enabled endpoints once. */
  lemma {:induction false} RemovedEventsCount(log: seq<Event>, u: Uuid, d: Device, k: Key)
    requires DistinctIds(d)
    ensures Times(log + RemovedEvents(u, d), k) == Times(log, k) + if k.device == u && Has(d, k.endpoint) then 1 else 0
  {
    if d == [] {
      assert log + RemovedEvents(u, d) == log;
    } else {
      var n := |d| - 1;
      var e, head, events := d[n], d[..n], RemovedEvents(u, d[..n]);
      RemovedEventsCount(log, u, head, k);
      HasLast(d, k.endpoint);
      if e.enabled {
        var event := EndpointRemoved(Key(u, e.id), true);
        TimesOneMore(log + events, event, k);
        assert log + RemovedEvents(u, d) == (log + events) + [event];
      } else {
        assert log + RemovedEvents(u, d) == log + events;
      }
    }
  }

  lemma HasLast(d: Device, id: EndpointId)
    requires d != [] && DistinctIds(d)
    ensures Has(d, id) <==> Has(d[..|d| - 1], id) || d[|d| - 1] == Endpoint(id, true)
    ensures d[|d| - 1].id == id ==> !Has(d[..|d| - 1], id)
  {
    var n := |d| - 1;
    assert forall i :: 0 <= i < n ==> d[..n][i] == d[i];
  }

  lemma {:induction false} RemovedEventsGone(log: seq<Event>, u: Uuid, d: Device, v: Uuid)
    ensures TimesGone(log + RemovedEvents(u, d), v) == TimesGone(log, v)
  {
    if d == [] {
      assert log + RemovedEvents(u, d) == log;
    } else {
      var n := |d| - 1;
      var e, events := d[n], RemovedEvents(u, d[..n]);
      RemovedEventsGone(log, u, d[..n], v);
      if e.enabled {
        var event := EndpointRemoved(Key(u, e.id), true);
        GoneOneMore(log + events, event, v);
        assert log + RemovedEvents(u, d) == (log + events) + [event];
      } else {
        assert log + RemovedEvents(u, d) == log + events;
      }
    }
  }

  // ----- one step

  /** An enabled endpoint now, or a removed event, but not both and not twice. */
  predicate Conserved(s: State, t: State, k: Key) {
    Bit(IsEnabled(s.db, k)) + Times(s.log, k) == Bit(IsEnabled(t.db, k)) + Times(t.log, k)
  }

  predicate GoneConserved(s: State, t: State, u: Uuid) {
    Bit(u in s.db) + TimesGone(s.log, u) == Bit(u in t.db) + TimesGone(t.log, u)
  }

  lemma RemoveDeviceConserves(s: State, u: Uuid, k: Key)
    requires WellFormed(s.db)
    ensures Conserved(s, DoRemoveDevice(s, u), k)
  {
    if u in s.db {
      RemovedEventsCount(s.log, u, s.db[u], k);
      TimesOneMore(s.log + RemovedEvents(u, s.db[u]), DeviceRemoved(u), k);
      assert k.device != u ==> (IsEnabled(s.db, k) <==> IsEnabled(s.db - {u}, k));
    }
  }

  lemma RemoveDeviceGone(s: State, u: Uuid, v: Uuid)
    ensures GoneConserved(s, DoRemoveDevice(s, u), v)
  {
    if u in s.db {
      RemovedEventsGone(s.log, u, s.db[u], v);
      GoneOneMore(s.log + RemovedEvents(u, s.db[u]), DeviceRemoved(u), v);
    }
  }

  function Off(d: Device, i: nat): Device
    requires i < |d|
  {
    d[i := d[i].(enabled := false)]
  }

  lemma OffHas(d: Device, i: nat, id: EndpointId)
    requires i < |d| && d[i].enabled && DistinctIds(d)
    ensures DistinctIds(Off(d, i))
    ensures Has(d, id) <==> Has(Off(d, i), id) || id == d[i].id
    ensures !Has(Off(d, i), d[i].id)
  {
    var off := Off(d, i);
    assert forall j :: 0 <= j < |d| && j != i ==> off[j] == d[j];
    if id == d[i].id {
      assert d[i] == Endpoint(id, true);
    } else if j :| 0 <= j < |d| && d[j] == Endpoint(id, true) {
      assert off[j] == Endpoint(id, true);
    }
  }

  /** The endpoint has been switched off and told about; its device is still there. */
  function SwitchedOff(s: State, u: Uuid, i: nat, last: bool): State
    requires u in s.db && i < |s.db[u]|
  {
    s.(db := s.db[u := Off(s.db[u], i)], log := s.log + [EndpointRemoved(Key(u, s.db[u][i].id), last)])
  }

  lemma SwitchedOffConserves(s: State, u: Uuid, i: nat, last: bool, k: Key)
    requires WellFormed(s.db) && u in s.db && i < |s.db[u]| && s.db[u][i].enabled
    ensures Conserved(s, SwitchedOff(s, u, i, last), k) && WellFormed(SwitchedOff(s, u, i, last).db)
  {
    var t := SwitchedOff(s, u, i, last);
    TimesOneMore(s.log, EndpointRemoved(Key(u, s.db[u][i].id), last), k);
    OffHas(s.db[u], i, k.endpoint);
    assert k.device == u ==> t.db[k.device] == Off(s.db[u], i);
  }

  lemma DisableConserves(s: State, u: Uuid, i: nat, k: Key)
    requires WellFormed(s.db) && u in s.db && i < |s.db[u]| && s.db[u][i].enabled
    ensures Conserved(s, DoDisable(s, u, i), k)
  {
    var last := !OtherEnabled(s.db[u], s.db[u][i].id);
    SwitchedOffConserves(s, u, i, last, k);
    RemoveDeviceConserves(SwitchedOff(s, u, i, last), u, k);
  }

  lemma DisableGone(s: State, u: Uuid, i: nat, v: Uuid)
    requires u in s.db && i < |s.db[u]|
    ensures GoneConserved(s, DoDisable(s, u, i), v)
  {
    var last := !OtherEnabled(s.db[u], s.db[u][i].id);
    GoneOneMore(s.log, EndpointRemoved(Key(u, s.db[u][i].id), last), v);
    RemoveDeviceGone(SwitchedOff(s, u, i, last), u, v);
  }

  lemma ScrubConserves(s: State, k: Key)
    ensures Conserved(s, DoScrub(s), k)
  {
    if IsEnabled(s.db, k) {
      assert HasEnabled(s.db[k.device]);
    }
  }

  // ----- every run

  datatype Action = RemoveEndpoint(of: Uuid, endpoint: EndpointId, cascade: bool) | RemoveDevice(device: Uuid) | Scrub

  function Step(s: State, a: Action): State {
    match a
    case RemoveEndpoint(u, id, cascade) => DoRemoveEndpoint(s, u, id, cascade)
    case RemoveDevice(u) => DoRemoveDevice(s, u)
    case Scrub => DoScrub(s)
  }

  function Run(s: State, run: seq<Action>): State {
    if run == [] then s else Step(Run(s, run[..|run| - 1]), run[|run| - 1])
  }

  lemma StepWellFormed(s: State, a: Action)
    requires WellFormed(s.db)
    ensures WellFormed(Step(s, a).db)
  {
    if a.RemoveEndpoint? && a.of in s.db {
      var d := s.db[a.of];
      var i := Place(d, a.endpoint);
      if i < |d| && d[i].enabled {
        OffHas(d, i, a.endpoint);
      }
    }
  }

  lemma StepConserves(s: State, a: Action, k: Key)
    requires WellFormed(s.db)
    ensures Conserved(s, Step(s, a), k)
  {
    match a
    case RemoveEndpoint(u, id, cascade) =>
      RemoveDeviceConserves(s, u, k);
      if u in s.db {
        var i := Place(s.db[u], id);
        if i < |s.db[u]| && s.db[u][i].enabled {
          DisableConserves(s, u, i, k);
        }
      }
    case RemoveDevice(u) => RemoveDeviceConserves(s, u, k);
    case Scrub => ScrubConserves(s, k);
  }

  lemma {:induction false} RunConserves(s: State, run: seq<Action>, k: Key)
    requires WellFormed(s.db)
    ensures WellFormed(Run(s, run).db) && Conserved(s, Run(s, run), k)
  {
    if run != [] {
      var n := |run| - 1;
      RunConserves(s, run[..n], k);
      StepWellFormed(Run(s, run[..n]), run[n]);
      StepConserves(Run(s, run[..n]), run[n], k);
    }
  }

  /** Over every run, an endpoint that was enabled at first has exactly one removed event if it
      is disabled or gone now and none if it is still enabled; any other endpoint has none. */
  lemma OneEventPerEndpoint(db: Database, run: seq<Action>, k: Key)
    requires WellFormed(db)
    ensures var t := Run(State(db, [], {}), run);
            && Times(t.log, k) == Bit(IsEnabled(db, k) && !IsEnabled(t.db, k))
            && (IsEnabled(t.db, k) ==> IsEnabled(db, k))
  {
    RunConserves(State(db, [], {}), run, k);
  }

  // ----- scrubbed databases

  ghost predicate Scrubbed(db: Database) {
    forall u :: u in db ==> HasEnabled(db[u])
  }

  lemma StepScrubbed(s: State, a: Action)
    requires a.Scrub? || Scrubbed(s.db)
    ensures Scrubbed(Step(s, a).db)
  {
    if a.RemoveEndpoint? && a.of in s.db {
      var d := s.db[a.of];
      var i := Place(d, a.endpoint);
      if i < |d| && d[i].enabled && OtherEnabled(d, d[i].id) {
        var j :| 0 <= j < |d| && d[j].enabled && d[j].id != d[i].id;
        assert Off(d, i)[j].enabled;
      }
    }
  }

  /** Once scrubbed, every stored device keeps at least one enabled endpoint. */
  lemma {:induction false} ScrubbedForGood(s: State, run: seq<Action>)
    requires Scrubbed(s.db) || Scrub in run
    ensures Scrubbed(Run(s, run).db)
  {
    if run != [] {
      var n := |run| - 1;
      if !run[n].Scrub? {
        assert run == run[..n] + [run[n]];
        ScrubbedForGood(s, run[..n]);
      }
      StepScrubbed(Run(s, run[..n]), run[n]);
    }
  }

  lemma StepGone(s: State, a: Action, v: Uuid)
    requires Scrubbed(s.db)
    ensures GoneConserved(s, Step(s, a), v)
  {
    match a
    case RemoveEndpoint(u, id, cascade) =>
      RemoveDeviceGone(s, u, v);
      if u in s.db {
        var i := Place(s.db[u], id);
        if i < |s.db[u]| && s.db[u][i].enabled {
          DisableGone(s, u, i, v);
        }
      }
    case RemoveDevice(u) => RemoveDeviceGone(s, u, v);
    case Scrub =>
  }

  /** From a scrubbed database on, a device that goes yields exactly one device-removed event. */
  lemma {:induction false} OneEventPerDevice(s: State, run: seq<Action>, u: Uuid)
    requires Scrubbed(s.db)
    ensures GoneConserved(s, Run(s, run), u)
  {
    if run != [] {
      var n := |run| - 1;
      OneEventPerDevice(s, run[..n], u);
      ScrubbedForGood(s, run[..n]);
      StepGone(Run(s, run[..n]), run[n], u);
    }
  }

  /** A scrub tells nobody of a device it drops: the count is kept by a scrub exactly for the
      devices that have an enabled endpoint or are not there. */
  lemma ScrubIsSilent(s: State, u: Uuid)
    ensures GoneConserved(s, DoScrub(s), u) <==> (u in s.db ==> HasEnabled(s.db[u]))
  {
  }

  /** A device whose only endpoint is disabled goes with no event at all. */
  lemma ScrubbedWithoutWord(u: Uuid, id: EndpointId)
    ensures var s := State(map[u := [Endpoint(id, false)]], [], {});
            u in s.db && u !in DoScrub(s).db && DoScrub(s).log == [] && !GoneConserved(s, DoScrub(s), u)
  {
    ScrubIsSilent(State(map[u := [Endpoint(id, false)]], [], {}), u);
  }
}
