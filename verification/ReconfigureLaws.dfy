/**
 When a device needs reconfiguring and when the task gets through, in terms of the stored
 fields, the driver's tables and the outcome of its callbacks alone
 (core/src/deviceService.c:3649-3858).
 */
module ReconfigureLaws {
  import opened Basics
  import opened Reconfigure

  // ----- is it needed

  /** The driver reports this class version for the device. */
  predicate Reports(driver: Driver, d: Device, version: nat) {
    driver.hasVersion && d.deviceClass in driver.classVersions && driver.classVersions[d.deviceClass] == version
  }

  /** The driver expects another version of the endpoint's profile. */
  predicate ExpectsOther(driver: Driver, e: Endpoint) {
    && driver.profileVersions.Some? && e.profile in driver.profileVersions.value
    && driver.profileVersions.value[e.profile] != e.profileVersion
  }

  /** A reported class version other than the stored one, above or below, makes it needed. */
  lemma OtherVersionIsNoticed(db: Database, env: Env, u: Uuid, version: nat)
    requires u in db && db[u].driver in env.drivers
    requires Reports(env.drivers[db[u].driver], db[u], version) && version != db[u].classVersion
    ensures NeedsReconfiguring(db, env, u)
  {
  }

  /** So does one endpoint at another profile version than expected. */
  lemma OtherProfileIsNoticed(db: Database, env: Env, u: Uuid, i: nat)
    requires u in db && db[u].driver in env.drivers && i < |db[u].endpoints|
    requires ExpectsOther(env.drivers[db[u].driver], db[u].endpoints[i])
    ensures NeedsReconfiguring(db, env, u)
  {
    assert ProfileDiffers(env.drivers[db[u].driver].profileVersions.value, db[u].endpoints[i]);
  }

  /** And the flag, where it reads as true. */
  lemma FlagIsNoticed(db: Database, env: Env, u: Uuid)
    requires u in db && db[u].driver in env.drivers
    requires Id("reconfRequired") in db[u].metadata && env.truthy(db[u].metadata[Id("reconfRequired")])
    ensures NeedsReconfiguring(db, env, u)
  {
  }

  ghost predicate OtherVersion(driver: Driver, d: Device) {
    exists version :: Reports(driver, d, version) && version != d.classVersion
  }

  ghost predicate OtherProfile(driver: Driver, d: Device) {
    exists i :: 0 <= i < |d.endpoints| && ExpectsOther(driver, d.endpoints[i])
  }

  predicate FlaggedTrue(env: Env, d: Device) {
    Id("reconfRequired") in d.metadata && env.truthy(d.metadata[Id("reconfRequired")])
  }

  lemma OtherVersionIff(env: Env, d: Device)
    requires d.driver in env.drivers
    ensures VersionDiffers(env, d) <==> OtherVersion(env.drivers[d.driver], d)
  {
    var driver := env.drivers[d.driver];
    if VersionDiffers(env, d) {
      assert Reports(driver, d, driver.classVersions[d.deviceClass]);
    }
  }

  lemma OtherProfileIff(driver: Driver, d: Device)
    ensures AnyProfileDiffers(driver, d.endpoints) <==> OtherProfile(driver, d)
  {
    if driver.profileVersions.Some? {
      var ps := driver.profileVersions.value;
      assert forall i :: 0 <= i < |d.endpoints| ==>
               (ProfileDiffers(ps, d.endpoints[i]) <==> ExpectsOther(driver, d.endpoints[i]));
    }
  }

  /** Nothing else does: a device needs reconfiguring if and only if it and its driver are there
      and one of the three says so. */
  lemma NeededIff(db: Database, env: Env, u: Uuid)
    ensures NeedsReconfiguring(db, env, u) <==>
            && u in db && db[u].driver in env.drivers
            && (|| OtherVersion(env.drivers[db[u].driver], db[u])
                || OtherProfile(env.drivers[db[u].driver], db[u])
                || FlaggedTrue(env, db[u]))
  {
    if u in db && db[u].driver in env.drivers {
      OtherVersionIff(env, db[u]);
      OtherProfileIff(env.drivers[db[u].driver], db[u]);
    }
  }

  // ----- does the task get through

  predicate HasResource(d: Device, name: string) {
    exists i :: 0 <= i < |d.resources| && d.resources[i].id == Id(name)
  }

  lemma {:induction false} FoundIff(rs: seq<Resource>, id: Id)
    ensures Find(rs, id).Some? <==> exists i :: 0 <= i < |rs| && rs[i].id == id
  {
    if rs != [] {
      var rest := rs[1..];
      FoundIff(rest, id);
      if rs[0].id != id {
        if i :| 0 <= i < |rest| && rest[i].id == id {
          assert rs[i + 1].id == id;
        }
        if i :| 0 <= i < |rs| && rs[i].id == id {
          assert rest[i - 1].id == id;
        }
      }
    }
  }

  lemma RequiredIff(d: Device)
    ensures HasRequired(d) <==>
            && HasResource(d, "manufacturer") && HasResource(d, "model")
            && HasResource(d, "hardwareVersion") && HasResource(d, "firmwareVersion")
  {
    FoundIff(d.resources, Id("manufacturer"));
    FoundIff(d.resources, Id("model"));
    FoundIff(d.resources, Id("hardwareVersion"));
    FoundIff(d.resources, Id("firmwareVersion"));
    assert |REQUIRED| == 4 && REQUIRED[0] == Id("manufacturer") && REQUIRED[1] == Id("model");
    assert REQUIRED[2] == Id("hardwareVersion") && REQUIRED[3] == Id("firmwareVersion");
  }

  /** Some rebuilt endpoint has the id. */
  predicate Rebuilt(b: Build, id: Id) {
    exists j :: 0 <= j < |b.endpoints| && b.endpoints[j].id == id
  }

  /** The task gets through if and only if the device is stored with its four identifying
      resources, its driver reports a class version, all five callbacks succeed, and every old
      endpoint was rebuilt. */
  lemma TaskSucceedsIff(db: Database, env: Env, u: Uuid, b: Build)
    ensures Succeeds(db, env, u, b) <==>
            && u in db && db[u].driver in env.drivers
            && (exists version :: Reports(env.drivers[db[u].driver], db[u], version))
            && HasResource(db[u], "manufacturer") && HasResource(db[u], "model")
            && HasResource(db[u], "hardwareVersion") && HasResource(db[u], "firmwareVersion")
            && b.configured && b.commonFetched && b.commonAdded && b.valuesFetched && b.registered
            && (forall i :: 0 <= i < |db[u].endpoints| ==> Rebuilt(b, db[u].endpoints[i].id))
  {
    if u in db {
      var d := db[u];
      RequiredIff(d);
      VersionIff(env, d);
      assert forall i :: 0 <= i < |d.endpoints| ==>
               (Matched(d.endpoints[i], b.endpoints) <==> Rebuilt(b, d.endpoints[i].id));
    }
  }

  lemma VersionIff(env: Env, d: Device)
    ensures NewVersion(env, d).Some? <==>
            d.driver in env.drivers && exists version :: Reports(env.drivers[d.driver], d, version)
    ensures NewVersion(env, d).Some? ==> Reports(env.drivers[d.driver], d, NewVersion(env, d).value)
  {
    if NewVersion(env, d).Some? {
      assert Reports(env.drivers[d.driver], d, NewVersion(env, d).value);
    }
  }
}
