/**
 What one removal leaves and what it tells, branch by branch
 (core/src/deviceService.c:307-339, 1016-1072, 1489-1558).
 */
module RemovalLaws {
  import opened Basics
  import opened Removal
  import opened RemovalOverlap

  /** An event about an endpoint of the device that was enabled, sent as the device goes. */
  predicate EndpointGoes(e: Event, u: Uuid, d: Device) {
    e.EndpointRemoved? && e.lastOfDevice && e.key.device == u && Has(d, e.key.endpoint)
  }

  /** One event for each enabled endpoint and for no other, and then the device's own. */
  ghost predicate WholeDeviceTold(before: seq<Event>, after: seq<Event>, u: Uuid, d: Device) {
    && |after| > |before| && before <= after && after[|after| - 1] == DeviceRemoved(u)
    && (forall i :: |before| <= i < |after| - 1 ==> EndpointGoes(after[i], u, d))
    && (forall k :: Times(after, k) == Times(before, k) + Bit(k.device == u && Has(d, k.endpoint)))
  }

  lemma {:induction false} EventsGo(u: Uuid, d: Device)
    ensures forall i :: 0 <= i < |RemovedEvents(u, d)| ==> EndpointGoes(RemovedEvents(u, d)[i], u, d)
  {
    if d != [] {
      var n := |d| - 1;
      var head := RemovedEvents(u, d[..n]);
      EventsGo(u, d[..n]);
      forall i | 0 <= i < |head|
        ensures EndpointGoes(head[i], u, d)
      {
        HasMore(d, head[i].key.endpoint);
      }
      if d[n].enabled {
        assert d[n] == Endpoint(d[n].id, true);
        assert Has(d, d[n].id);
      }
    }
  }

  lemma HasMore(d: Device, id: EndpointId)
    requires d != [] && Has(d[..|d| - 1], id)
    ensures Has(d, id)
  {
    var i :| 0 <= i < |d| - 1 && d[..|d| - 1][i] == Endpoint(id, true);
    assert d[i] == Endpoint(id, true);
  }

  /** Removing a stored device takes it and nothing else, with its events; one that is not stored
      is marked. */
  lemma RemoveDeviceLaw(s: State, u: Uuid)
    requires WellFormed(s.db)
    ensures var t := DoRemoveDevice(s, u);
            if u in s.db then t.db == s.db - {u} && t.marked == s.marked && WholeDeviceTold(s.log, t.log, u, s.db[u])
            else t == State(s.db, s.log, s.marked + {u})
  {
    if u in s.db {
      var d, t := s.db[u], DoRemoveDevice(s, u);
      EventsGo(u, d);
      forall k
        ensures Times(t.log, k) == Times(s.log, k) + Bit(k.device == u && Has(d, k.endpoint))
      {
        RemovedEventsCount(s.log, u, d, k);
        TimesOneMore(s.log + RemovedEvents(u, d), DeviceRemoved(u), k);
      }
    }
  }

  // ----- endpoints

  /** An endpoint that is not there, or disabled, is left as it is. */
  lemma NotEnabledIsLeft(s: State, u: Uuid, id: EndpointId, cascade: bool)
    requires WellFormed(s.db) && !IsEnabled(s.db, Key(u, id))
    ensures DoRemoveEndpoint(s, u, id, cascade) == s
  {
    if u in s.db {
      PlaceHas(s.db[u], id);
    }
  }

  /** With cascading, removing one enabled endpoint takes the whole device, and tells of each
      enabled endpoint. */
  lemma CascadeTakesTheDevice(s: State, u: Uuid, id: EndpointId)
    requires WellFormed(s.db) && IsEnabled(s.db, Key(u, id))
    ensures var t := DoRemoveEndpoint(s, u, id, true);
            t.db == s.db - {u} && t.marked == s.marked && WholeDeviceTold(s.log, t.log, u, s.db[u])
  {
    PlaceHas(s.db[u], id);
    RemoveDeviceLaw(s, u);
  }

  /** The same endpoints, the named one disabled. */
  predicate OnlyDisables(d: Device, e: Device, id: EndpointId) {
    && |e| == |d|
    && (forall i :: 0 <= i < |d| ==> e[i] == Endpoint(d[i].id, d[i].enabled && d[i].id != id))
  }

  /** Without cascading and with another one enabled, the named endpoint is disabled, every other
      endpoint and device stays as it was, and one event says that the device does not go. */
  lemma OneOfSeveral(s: State, u: Uuid, id: EndpointId)
    requires WellFormed(s.db) && IsEnabled(s.db, Key(u, id)) && OtherEnabled(s.db[u], id)
    ensures var t := DoRemoveEndpoint(s, u, id, false);
            && u in t.db && OnlyDisables(s.db[u], t.db[u], id) && t.db == s.db[u := t.db[u]]
            && t.log == s.log + [EndpointRemoved(Key(u, id), false)] && t.marked == s.marked
  {
    PlaceHas(s.db[u], id);
  }

  lemma {:induction false} NoneToTell(u: Uuid, d: Device)
    requires forall i :: 0 <= i < |d| ==> !d[i].enabled
    ensures RemovedEvents(u, d) == []
  {
    if d != [] {
      NoneToTell(u, d[..|d| - 1]);
    }
  }

  /** If it was the last one enabled the device goes, with just its event, which says so, and the
      device's. */
  lemma LastOne(s: State, u: Uuid, id: EndpointId)
    requires WellFormed(s.db) && IsEnabled(s.db, Key(u, id)) && !OtherEnabled(s.db[u], id)
    ensures DoRemoveEndpoint(s, u, id, false) ==
            State(s.db - {u}, s.log + [EndpointRemoved(Key(u, id), true), DeviceRemoved(u)], s.marked)
  {
    var d := s.db[u];
    var p := Place(d, id);
    PlaceHas(d, id);
    var off := Off(d, p);
    forall i | 0 <= i < |off|
      ensures !off[i].enabled
    {
      assert i != p ==> off[i] == d[i];
    }
    NoneToTell(u, off);
    var told := SwitchedOff(s, u, p, true);
    assert DoDisable(s, u, p) == DoRemoveDevice(told, u);
    assert told.log + [] + [DeviceRemoved(u)] == s.log + [EndpointRemoved(Key(u, id), true), DeviceRemoved(u)];
    assert told.db - {u} == s.db - {u};
  }

  /** An endpoint's event says that the device goes exactly when it does. */
  lemma LastIsTold(s: State, u: Uuid, id: EndpointId, cascade: bool, i: nat)
    requires WellFormed(s.db)
    requires |s.log| <= i < |DoRemoveEndpoint(s, u, id, cascade).log|
    requires DoRemoveEndpoint(s, u, id, cascade).log[i].EndpointRemoved?
    ensures DoRemoveEndpoint(s, u, id, cascade).log[i].lastOfDevice <==>
            u !in DoRemoveEndpoint(s, u, id, cascade).db
  {
    if !IsEnabled(s.db, Key(u, id)) {
      NotEnabledIsLeft(s, u, id, cascade);
    } else if cascade {
      CascadeTakesTheDevice(s, u, id);
    } else if OtherEnabled(s.db[u], id) {
      OneOfSeveral(s, u, id);
    } else {
      LastOne(s, u, id);
    }
  }

  /** Scrubbing takes exactly the devices with no enabled endpoint and changes no other. */
  lemma ScrubLaw(s: State)
    ensures var t := DoScrub(s);
            && t.log == s.log && t.marked == s.marked
            && (forall u :: u in t.db <==> u in s.db && HasEnabled(s.db[u]))
            && (forall u :: u in t.db ==> t.db[u] == s.db[u])
  {
  }
}
