/**
 Device reconfiguration (core/src/deviceService.c:3557-3858): a stored device is swapped for a
 rebuilt one and its custom data is carried across. The database is a map of devices.
 */
module Reconfigure {
  import opened Basics

  datatype Id = Id(text: string)
  type Metadata = map<Id, string>
  /** A resource value may be missing. */
  datatype Resource = Resource(id: Id, value: Option<string>)
  datatype Endpoint = Endpoint(id: Id, profile: Id, profileVersion: nat, metadata: Metadata, resources: seq<Resource>)
  datatype Device = Device(
    deviceClass: Id, classVersion: nat, driver: Id,
    metadata: Metadata, resources: seq<Resource>, endpoints: seq<Endpoint>)
  type Database = map<Uuid, Device>

  /** The versions a driver reports; it may lack the callback, the callback may fail for a class. */
  datatype Driver = Driver(hasVersion: bool, classVersions: map<Id, nat>, profileVersions: Option<map<Id, nat>>)
  /** Registered drivers by name, and which metadata texts read as true. */
  datatype Env = Env(drivers: map<Id, Driver>, truthy: string -> bool)

  /** What the driver made of the fresh device, step by step. */
  datatype Build = Build(
    configured: bool, commonFetched: bool, commonAdded: bool, valuesFetched: bool, registered: bool,
    metadata: Metadata, resources: seq<Resource>, endpoints: seq<Endpoint>)

  const FLAG := Id("reconfRequired")
  const DATE_ADDED := Id("dateAdded")
  const LABEL := Id("label")
  const REQUIRED := [Id("manufacturer"), Id("model"), Id("hardwareVersion"), Id("firmwareVersion")]

  // ----- resources

  function Find(rs: seq<Resource>, id: Id): Option<Option<string>> {
    if rs == [] then None else if rs[0].id == id then Some(rs[0].value) else Find(rs[1..], id)
  }

  /** The first resource with the id gets the value. */
  function Replace(rs: seq<Resource>, id: Id, value: Option<string>): seq<Resource> {
    if rs == [] then []
    else if rs[0].id == id then [rs[0].(value := value)] + rs[1..]
    else [rs[0]] + Replace(rs[1..], id, value)
  }

  function Carry(from: seq<Resource>, to: seq<Resource>, id: Id): seq<Resource> {
    var found := Find(from, id);
    if found.Some? then Replace(to, id, found.value) else to
  }

  // ----- endpoints

  function CarryEndpoint(o: Endpoint, n: Endpoint): Endpoint {
    if o.id == n.id then n.(metadata := o.metadata, resources := Carry(o.resources, n.resources, LABEL)) else n
  }

  function CarryOne(o: Endpoint, ns: seq<Endpoint>): seq<Endpoint> {
    if ns == [] then []
    else CarryOne(o, ns[..|ns| - 1]) + [CarryEndpoint(o, ns[|ns| - 1])]
  }

  /** After the first k old endpoints. */
  function CarryFirst(os: seq<Endpoint>, ns: seq<Endpoint>, k: nat): seq<Endpoint>
    requires k <= |os|
  {
    if k == 0 then ns else CarryOne(os[k - 1], CarryFirst(os, ns, k - 1))
  }

  function CarryAll(os: seq<Endpoint>, ns: seq<Endpoint>): seq<Endpoint> {
    CarryFirst(os, ns, |os|)
  }

  predicate Matched(o: Endpoint, ns: seq<Endpoint>) {
    exists j :: 0 <= j < |ns| && ns[j].id == o.id
  }

  predicate AllMatched(os: seq<Endpoint>, ns: seq<Endpoint>) {
    forall i :: 0 <= i < |os| ==> Matched(os[i], ns)
  }

  /** The rebuilt device with the old one's metadata, date added, endpoint metadata and labels. */
  function Yoinked(o: Device, n: Device): Device {
    n.(metadata := o.metadata, resources := Carry(o.resources, n.resources, DATE_ADDED),
       endpoints := CarryAll(o.endpoints, n.endpoints))
  }

  // ----- the task

  function SetMetadata(db: Database, u: Uuid, name: Id, value: string): Database {
    if u in db then db[u := db[u].(metadata := db[u].metadata[name := value])] else db
  }

  function RemoveMetadata(db: Database, u: Uuid, name: Id): Database {
    if u in db then db[u := db[u].(metadata := db[u].metadata - {name})] else db
  }

  predicate HasRequired(d: Device) {
    forall i :: 0 <= i < |REQUIRED| ==> Find(d.resources, REQUIRED[i]).Some?
  }

  function NewVersion(env: Env, d: Device): Option<nat> {
    if d.driver !in env.drivers || !env.drivers[d.driver].hasVersion then None
    else
      var vs := env.drivers[d.driver].classVersions;
      if d.deviceClass in vs then Some(vs[d.deviceClass]) else None
  }

  predicate Built(b: Build) {
    b.configured && b.commonFetched && b.commonAdded && b.valuesFetched && b.registered
  }

  function Fresh(d: Device, version: nat, b: Build): Device {
    Device(d.deviceClass, version, d.driver, b.metadata, b.resources, b.endpoints)
  }

  /** The task gets through: a caller can tell beforehand from the stored device, the driver and
      the outcome of its callbacks. */
  predicate Succeeds(db: Database, env: Env, u: Uuid, b: Build) {
    && u in db && HasRequired(db[u]) && NewVersion(env, db[u]).Some? && Built(b)
    && AllMatched(db[u].endpoints, b.endpoints)
  }

  function Reconfigured(db: Database, env: Env, u: Uuid, b: Build): Database {
    var flagged := SetMetadata(db, u, FLAG, "true");
    if !Succeeds(db, env, u, b) then flagged
    else
      var d := flagged[u];
      RemoveMetadata(flagged[u := Yoinked(d, Fresh(d, NewVersion(env, d).value, b))], u, FLAG)
  }

  // ----- is it needed

  predicate ProfileDiffers(profiles: map<Id, nat>, e: Endpoint) {
    e.profile in profiles && profiles[e.profile] != e.profileVersion
  }

  predicate AnyProfileDiffers(driver: Driver, es: seq<Endpoint>) {
    driver.profileVersions.Some? && exists i :: 0 <= i < |es| && ProfileDiffers(driver.profileVersions.value, es[i])
  }

  predicate VersionDiffers(env: Env, d: Device) {
    NewVersion(env, d).Some? && NewVersion(env, d).value != d.classVersion
  }

  predicate Flagged(env: Env, d: Device) {
    FLAG in d.metadata && env.truthy(d.metadata[FLAG])
  }

  predicate NeedsReconfiguring(db: Database, env: Env, u: Uuid) {
    && u in db && db[u].driver in env.drivers
    && (|| VersionDiffers(env, db[u])
        || AnyProfileDiffers(env.drivers[db[u].driver], db[u].endpoints)
        || Flagged(env, db[u]))
  }

  /** The first i resources do not have the id. */
  predicate NotBefore(rs: seq<Resource>, id: Id, i: nat)
    requires i <= |rs|
  {
    forall k :: 0 <= k < i ==> rs[k].id != id
  }

  lemma {:induction false} ReplaceAt(rs: seq<Resource>, id: Id, value: Option<string>, i: nat)
    requires i <= |rs| && NotBefore(rs, id, i)
    requires i < |rs| ==> rs[i].id == id
    ensures Replace(rs, id, value) == if i < |rs| then rs[i := rs[i].(value := value)] else rs
  {
    if i > 0 {
      var rest := rs[1..];
      assert forall k :: 0 <= k < i - 1 ==> rest[k] == rs[k + 1];
      assert i < |rs| ==> rest[i - 1] == rs[i];
      assert rs[0].id != id && rs == [rs[0]] + rest;
      ReplaceAt(rest, id, value, i - 1);
    } else if rs != [] {
      assert rs == [rs[0]] + rs[1..];
    }
  }

  lemma CarryOneMore(o: Endpoint, ns: seq<Endpoint>, j: nat)
    requires j < |ns|
    ensures CarryOne(o, ns[..j + 1]) == CarryOne(o, ns[..j]) + [CarryEndpoint(o, ns[j])]
  {
    assert ns[..j + 1][..j] == ns[..j];
  }

  lemma {:induction false} CarryOneIds(o: Endpoint, ns: seq<Endpoint>)
    ensures |CarryOne(o, ns)| == |ns|
    ensures forall j :: 0 <= j < |ns| ==> CarryOne(o, ns)[j] == CarryEndpoint(o, ns[j])
  {
    if ns != [] {
      CarryOneIds(o, ns[..|ns| - 1]);
    }
  }

  lemma {:induction false} CarryFirstIds(os: seq<Endpoint>, ns: seq<Endpoint>, k: nat)
    requires k <= |os|
    ensures |CarryFirst(os, ns, k)| == |ns|
    ensures forall j :: 0 <= j < |ns| ==> CarryFirst(os, ns, k)[j].id == ns[j].id
  {
    if k > 0 {
      CarryFirstIds(os, ns, k - 1);
      CarryOneIds(os[k - 1], CarryFirst(os, ns, k - 1));
    }
  }

  lemma SameIdsMatch(o: Endpoint, ns: seq<Endpoint>, ms: seq<Endpoint>)
    requires |ms| == |ns| && forall j :: 0 <= j < |ns| ==> ms[j].id == ns[j].id
    ensures Matched(o, ms) <==> Matched(o, ns)
  {
    if j :| 0 <= j < |ns| && ns[j].id == o.id {
      assert ms[j].id == o.id;
    }
  }

  lemma StillMatched(os: seq<Endpoint>, ns: seq<Endpoint>, k: nat, o: Endpoint)
    requires k <= |os|
    ensures Matched(o, CarryFirst(os, ns, k)) <==> Matched(o, ns)
  {
    CarryFirstIds(os, ns, k);
    SameIdsMatch(o, ns, CarryFirst(os, ns, k));
  }

  predicate MatchedUpTo(os: seq<Endpoint>, ns: seq<Endpoint>, i: nat)
    requires i <= |os|
  {
    forall k :: 0 <= k < i ==> Matched(os[k], ns)
  }

  class DeviceService {
    const env: Env
    var devices: Database

    constructor (env: Env, devices: Database)
      ensures this.env == env && this.devices == devices
    {
      this.env, this.devices := env, devices;
    }

    /** Gives the first resource with the id the value and looks no further. */
    method YoinkResource(value: Option<string>, resources: seq<Resource>, id: Id) returns (r: seq<Resource>)
      ensures r == Replace(resources, id, value)
    {
      var i := 0;
      while i < |resources| && resources[i].id != id
        invariant 0 <= i <= |resources| && NotBefore(resources, id, i)
      {
        i := i + 1;
      }
      ReplaceAt(resources, id, value, i);
      r := if i < |resources| then resources[i := resources[i].(value := value)] else resources;
    }

    /** Looks through the new endpoints for those matching one old endpoint. */
    method YoinkEndpoint(o: Endpoint, endpoints: seq<Endpoint>) returns (r: seq<Endpoint>, matched: bool)
      ensures r == CarryOne(o, endpoints)
      ensures matched <==> Matched(o, endpoints)
    {
      var oldLabel := Find(o.resources, LABEL);
      r, matched := [], false;
      for j := 0 to |endpoints|
        invariant r == CarryOne(o, endpoints[..j])
        invariant matched <==> exists k :: 0 <= k < j && endpoints[k].id == o.id
      {
        CarryOneMore(o, endpoints, j);
        var n := endpoints[j];
        if n.id == o.id {
          n := n.(metadata := o.metadata);
          if oldLabel.Some? {
            var resources := YoinkResource(oldLabel.value, n.resources, LABEL);
            n := n.(resources := resources);
          }
          matched := true;
        }
        r := r + [n];
      }
      assert endpoints[..|endpoints|] == endpoints;
    }

    /** Loops over the old endpoints until one has no match. */
    method YoinkEndpoints(os: seq<Endpoint>, ns: seq<Endpoint>) returns (r: seq<Endpoint>, ok: bool)
      ensures ok <==> AllMatched(os, ns)
      ensures ok ==> r == CarryAll(os, ns)
    {
      r, ok := ns, true;
      var i := 0;
      while i < |os| && ok
        invariant 0 <= i <= |os|
        invariant ok ==> r == CarryFirst(os, ns, i)
        invariant ok <==> MatchedUpTo(os, ns, i)
      {
        StillMatched(os, ns, i, os[i]);
        r, ok := YoinkEndpoint(os[i], r);
        i := i + 1;
      }
    }

    method YoinkCustomizedDeviceData(o: Device, n: Device) returns (r: Device, ok: bool)
      ensures ok <==> AllMatched(o.endpoints, n.endpoints)
      ensures ok ==> r == Yoinked(o, n)
    {
      r := n.(metadata := o.metadata);
      var dateAdded := Find(o.resources, DATE_ADDED);
      if dateAdded.Some? {
        var resources := YoinkResource(dateAdded.value, n.resources, DATE_ADDED);
        r := r.(resources := resources);
      }
      var endpoints;
      endpoints, ok := YoinkEndpoints(o.endpoints, n.endpoints);
      r := r.(endpoints := endpoints);
    }

    method ReconfigureDeviceTask(u: Uuid, build: Build) returns (result: bool)
      modifies this
      ensures devices == Reconfigured(old(devices), env, u, build)
      ensures result <==> Succeeds(old(devices), env, u, build)
    {
      result := false;
      devices := SetMetadata(devices, u, FLAG, "true");
      if u in devices && NewVersion(env, devices[u]).Some? && HasRequired(devices[u]) && Built(build) {
        var device := devices[u];
        var rebuilt := Fresh(device, NewVersion(env, device).value, build);
        var carried;
        carried, result := YoinkCustomizedDeviceData(device, rebuilt);
        if result {
          devices := devices - {u};
          devices := devices[u := carried];
          devices := RemoveMetadata(devices, u, FLAG);
        }
      }
    }

    method DeviceNeedsReconfiguring(u: Uuid) returns (r: bool)
      ensures r <==> NeedsReconfiguring(devices, env, u)
    {
      if u !in devices || devices[u].driver !in env.drivers {
        return false;
      }
      var device, driver := devices[u], env.drivers[devices[u].driver];
      r := VersionDiffers(env, device);
      if !r && driver.profileVersions.Some? {
        for i := 0 to |device.endpoints|
          invariant !r && forall k :: 0 <= k < i ==> !ProfileDiffers(driver.profileVersions.value, device.endpoints[k])
        {
          if ProfileDiffers(driver.profileVersions.value, device.endpoints[i]) {
            return true;
          }
        }
      }
      if !r {
        r := Flagged(env, device);
      }
    }
  }

  // ----- what the resource moves do

  lemma {:induction false} FindReplaced(rs: seq<Resource>, id: Id, value: Option<string>, k: Id)
    ensures Find(Replace(rs, id, value), k) == if k == id && Find(rs, id).Some? then Some(value) else Find(rs, k)
  {
    if rs != [] && rs[0].id != id {
      FindReplaced(rs[1..], id, value, k);
    }
  }

  /** Carrying a resource gives it the old value where both sides have it and touches no other. */
  lemma CarriedResource(from: seq<Resource>, to: seq<Resource>, id: Id, k: Id)
    ensures Find(Carry(from, to, id), k) ==
            if k == id && Find(from, id).Some? && Find(to, id).Some? then Find(from, id) else Find(to, k)
  {
    if Find(from, id).Some? {
      FindReplaced(to, id, Find(from, id).value, k);
    }
  }

  // ----- main results

  predicate DistinctIds(es: seq<Endpoint>) {
    forall i, j :: 0 <= i < j < |es| ==> es[i].id != es[j].id
  }

  lemma {:induction false} CarryOneAt(o: Endpoint, ns: seq<Endpoint>, j: nat)
    requires j < |ns|
    ensures |CarryOne(o, ns)| == |ns| && CarryOne(o, ns)[j] == CarryEndpoint(o, ns[j])
  {
    CarryOneIds(o, ns);
  }

  lemma CarryLast(os: seq<Endpoint>, ns: seq<Endpoint>, k: nat, j: nat)
    requires 0 < k <= |os| && j < |ns|
    ensures |CarryFirst(os, ns, k)| == |CarryFirst(os, ns, k - 1)| == |ns|
    ensures CarryFirst(os, ns, k - 1)[j].id == ns[j].id
    ensures CarryFirst(os, ns, k)[j] == CarryEndpoint(os[k - 1], CarryFirst(os, ns, k - 1)[j])
  {
    CarryFirstIds(os, ns, k - 1);
    CarryOneAt(os[k - 1], CarryFirst(os, ns, k - 1), j);
  }

  lemma {:induction false} NotCarried(os: seq<Endpoint>, ns: seq<Endpoint>, k: nat, j: nat)
    requires k <= |os| && j < |ns| && forall i :: 0 <= i < k ==> os[i].id != ns[j].id
    ensures |CarryFirst(os, ns, k)| == |ns| && CarryFirst(os, ns, k)[j] == ns[j]
  {
    if k > 0 {
      CarryLast(os, ns, k, j);
      NotCarried(os, ns, k - 1, j);
    }
  }

  lemma {:induction false} Carried(os: seq<Endpoint>, ns: seq<Endpoint>, k: nat, i: nat, j: nat)
    requires DistinctIds(os) && i < k <= |os| && j < |ns| && os[i].id == ns[j].id
    ensures |CarryFirst(os, ns, k)| == |ns| && CarryFirst(os, ns, k)[j] == CarryEndpoint(os[i], ns[j])
  {
    CarryLast(os, ns, k, j);
    if i < k - 1 {
      Carried(os, ns, k - 1, i, j);
    } else {
      NotCarried(os, ns, k - 1, j);
    }
  }

  /** What custom data an endpoint keeps: its metadata, its label where both have one; the rest
      is as rebuilt. */
  ghost predicate EndpointKept(o: Endpoint, n: Endpoint, r: Endpoint) {
    && r.id == o.id && r.metadata == o.metadata
    && r.profile == n.profile && r.profileVersion == n.profileVersion
    && (forall k :: Find(r.resources, k) ==
          if k == LABEL && Find(o.resources, k).Some? && Find(n.resources, k).Some?
          then Find(o.resources, k) else Find(n.resources, k))
  }

  lemma CarriedEndpoint(o: Endpoint, n: Endpoint)
    requires o.id == n.id
    ensures EndpointKept(o, n, CarryEndpoint(o, n))
  {
    forall k
      ensures Find(Carry(o.resources, n.resources, LABEL), k) ==
              if k == LABEL && Find(o.resources, k).Some? && Find(n.resources, k).Some?
              then Find(o.resources, k) else Find(n.resources, k)
    {
      CarriedResource(o.resources, n.resources, LABEL, k);
    }
  }

  /** Endpoint by endpoint: an old one's custom data is on its match, each old one has a match,
      and one that is only in the rebuilt device is as built. */
  ghost predicate EndpointsKept(os: seq<Endpoint>, ns: seq<Endpoint>, rs: seq<Endpoint>) {
    && |rs| == |ns| && AllMatched(os, rs)
    && (forall i, j :: 0 <= i < |os| && 0 <= j < |ns| && os[i].id == ns[j].id ==> EndpointKept(os[i], ns[j], rs[j]))
    && (forall j :: 0 <= j < |ns| && !Matched(ns[j], os) ==> rs[j] == ns[j])
  }

  lemma CarryAllKeeps(os: seq<Endpoint>, ns: seq<Endpoint>)
    requires DistinctIds(os) && AllMatched(os, ns)
    ensures EndpointsKept(os, ns, CarryAll(os, ns))
  {
    var rs := CarryAll(os, ns);
    CarryFirstIds(os, ns, |os|);
    forall i, j | 0 <= i < |os| && 0 <= j < |ns| && os[i].id == ns[j].id
      ensures EndpointKept(os[i], ns[j], rs[j])
    {
      Carried(os, ns, |os|, i, j);
      CarriedEndpoint(os[i], ns[j]);
    }
    forall j | 0 <= j < |ns| && !Matched(ns[j], os)
      ensures rs[j] == ns[j]
    {
      NotCarried(os, ns, |os|, j);
    }
    forall i | 0 <= i < |os|
      ensures Matched(os[i], rs)
    {
      StillMatched(os, ns, |os|, os[i]);
    }
  }

  /** Of the device's own resources only the date added is taken from the old ones. */
  ghost predicate ResourcesKept(os: seq<Resource>, ns: seq<Resource>, rs: seq<Resource>) {
    forall k :: Find(rs, k) ==
      if k == DATE_ADDED && Find(os, k).Some? && Find(ns, k).Some? then Find(os, k) else Find(ns, k)
  }

  lemma CarryDateAdded(os: seq<Resource>, ns: seq<Resource>)
    ensures ResourcesKept(os, ns, Carry(os, ns, DATE_ADDED))
  {
    forall k
      ensures Find(Carry(os, ns, DATE_ADDED), k) ==
              if k == DATE_ADDED && Find(os, k).Some? && Find(ns, k).Some? then Find(os, k) else Find(ns, k)
    {
      CarriedResource(os, ns, DATE_ADDED, k);
    }
  }

  lemma SuccessIsYoinked(db: Database, env: Env, u: Uuid, b: Build)
    requires Succeeds(db, env, u, b)
    ensures var o, t := db[u], Reconfigured(db, env, u, b);
            && NewVersion(env, o).Some?
            && t == db[u := Yoinked(o, Fresh(o, NewVersion(env, o).value, b)).(metadata := o.metadata - {FLAG})]
  {
    var m := db[u].metadata;
    assert m[FLAG := "true"] - {FLAG} == m - {FLAG};
  }

  /** On success the stored device keeps its metadata but for the flag, its date added, and each
      old endpoint's metadata and label; everything else is as rebuilt, at the new version. */
  lemma SuccessKeepsCustomData(db: Database, env: Env, u: Uuid, b: Build)
    requires Succeeds(db, env, u, b) && DistinctIds(db[u].endpoints) && DistinctIds(b.endpoints)
    ensures var o, t := db[u], Reconfigured(db, env, u, b);
            && t == db[u := t[u]]
            && t[u].metadata == o.metadata - {FLAG}
            && t[u].deviceClass == o.deviceClass && t[u].driver == o.driver
            && Some(t[u].classVersion) == NewVersion(env, o)
            && ResourcesKept(o.resources, b.resources, t[u].resources)
            && EndpointsKept(o.endpoints, b.endpoints, t[u].endpoints)
  {
    SuccessIsYoinked(db, env, u, b);
    CarryAllKeeps(db[u].endpoints, b.endpoints);
    CarryDateAdded(db[u].resources, b.resources);
  }

  /** What an old resource says is kept. */
  predicate Kept(was: seq<Resource>, now: seq<Resource>, id: Id) {
    Find(was, id).Some? ==> Find(now, id) == Find(was, id)
  }

  /** A carried resource is kept if and only if the rebuilt side has it too, or the old did not. */
  lemma CarriedKeptIff(from: seq<Resource>, to: seq<Resource>, id: Id)
    ensures Kept(from, Carry(from, to, id), id) <==> (Find(from, id).Some? ==> Find(to, id).Some?)
  {
    CarriedResource(from, to, id, id);
  }

  /** On success, date added and label are kept exactly where the rebuilt device, or the rebuilt
      endpoint, has that resource or the old one had none. */
  lemma SuccessKeepsLabelsIff(db: Database, env: Env, u: Uuid, b: Build, i: nat, j: nat)
    requires Succeeds(db, env, u, b) && DistinctIds(db[u].endpoints)
    requires i < |db[u].endpoints| && j < |b.endpoints| && db[u].endpoints[i].id == b.endpoints[j].id
    ensures var o, t := db[u], Reconfigured(db, env, u, b)[u];
            && j < |t.endpoints|
            && (Kept(o.endpoints[i].resources, t.endpoints[j].resources, LABEL) <==>
                (Find(o.endpoints[i].resources, LABEL).Some? ==> Find(b.endpoints[j].resources, LABEL).Some?))
            && (Kept(o.resources, t.resources, DATE_ADDED) <==>
                (Find(o.resources, DATE_ADDED).Some? ==> Find(b.resources, DATE_ADDED).Some?))
  {
    var o := db[u];
    SuccessIsYoinked(db, env, u, b);
    Carried(o.endpoints, b.endpoints, |o.endpoints|, i, j);
    CarriedKeptIff(o.endpoints[i].resources, b.endpoints[j].resources, LABEL);
    CarriedKeptIff(o.resources, b.resources, DATE_ADDED);
  }

  /** An endpoint rebuilt without a label loses the one it had. */
  lemma LabelLost(text: string)
    ensures var o := Endpoint(Id("1"), Id("light"), 1, map[], [Resource(LABEL, Some(text))]);
            var n := Endpoint(Id("1"), Id("light"), 2, map[], []);
            Find(o.resources, LABEL) == Some(Some(text)) && Find(CarryEndpoint(o, n).resources, LABEL).None?
  {
  }

  /** On any failure after the device is found the stored devices differ only by the flag. The
      device then reads as needing reconfiguration exactly when its driver is registered. */
  lemma FailureOnlyFlags(db: Database, env: Env, u: Uuid, b: Build)
    requires u in db && !Succeeds(db, env, u, b) && env.truthy("true")
    ensures var t := Reconfigured(db, env, u, b);
            && t == db[u := db[u].(metadata := db[u].metadata[FLAG := "true"])]
            && (NeedsReconfiguring(t, env, u) <==> db[u].driver in env.drivers)
  {
  }

  /** A failure that is not retried: the driver is gone, the flag is set, and the answer is no. */
  lemma LostDriverIsNotRetried() returns (db: Database, env: Env, u: Uuid, b: Build)
    ensures u in db && env.truthy("true") && !Succeeds(db, env, u, b)
    ensures var t := Reconfigured(db, env, u, b);
            FLAG in t[u].metadata && t[u].metadata[FLAG] == "true" && !NeedsReconfiguring(t, env, u)
  {
    u := Uuid("d");
    db := map[u := Device(Id("sensor"), 1, Id("gone"), map[], [], [])];
    env := Env(map[], s => s == "true");
    b := Build(true, true, true, true, true, map[], [], []);
    FailureOnlyFlags(db, env, u, b);
  }

  /** After success the device needs it again exactly when the driver rebuilt an endpoint at a
      profile version other than the one it expects. */
  lemma SuccessSettles(db: Database, env: Env, u: Uuid, b: Build)
    requires Succeeds(db, env, u, b)
    ensures NeedsReconfiguring(Reconfigured(db, env, u, b), env, u) <==>
            AnyProfileDiffers(env.drivers[db[u].driver], b.endpoints)
  {
    SuccessIsYoinked(db, env, u, b);
    SameProfiles(env.drivers[db[u].driver], db[u].endpoints, b.endpoints);
  }

  lemma SameProfiles(driver: Driver, os: seq<Endpoint>, ns: seq<Endpoint>)
    ensures AnyProfileDiffers(driver, CarryAll(os, ns)) <==> AnyProfileDiffers(driver, ns)
  {
    CarriedProfiles(os, ns, |os|);
    var es := CarryAll(os, ns);
    if driver.profileVersions.Some? {
      var ps := driver.profileVersions.value;
      assert forall j :: 0 <= j < |es| ==> (ProfileDiffers(ps, es[j]) <==> ProfileDiffers(ps, ns[j]));
    }
  }

  lemma {:induction false} CarriedProfiles(os: seq<Endpoint>, ns: seq<Endpoint>, k: nat)
    requires k <= |os|
    ensures |CarryFirst(os, ns, k)| == |ns|
    ensures forall j :: 0 <= j < |ns| ==> CarryFirst(os, ns, k)[j].profile == ns[j].profile
                                          && CarryFirst(os, ns, k)[j].profileVersion == ns[j].profileVersion
  {
    if k > 0 {
      CarriedProfiles(os, ns, k - 1);
      CarryOneIds(os[k - 1], CarryFirst(os, ns, k - 1));
    }
  }
}
