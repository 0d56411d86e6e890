/** The loop that turns the configured device list into the platform's
    device map (src/accessories/accessories.setup.js). */
module AccessoriesSetup {
  import opened Js
  import opened AccessoriesConfig

  /** The platform's `devices` Map, keyed by the UUID of each device name. */
  class DeviceMap {
    var entries: map<string, Device>

    constructor ()
      ensures entries == map[]
    {
      entries := map[];
    }
  }

  /** A device passes the checks when it is active and has a name and a host. */
  predicate Admissible(d: Device)
  {
    Truthy(d.active) && Truthy(d.name) && Truthy(d.host)
  }

  /** The entry `deviceConfig` would be stored under `key`, if nothing
      were stored there. */
  predicate AdmittedAs(deviceConfig: JsObject, validIP: JsValue -> JsValue, uuidOf: JsValue -> string, key: string)
  {
    var d := Config(deviceConfig, validIP);
    Admissible(d) && uuidOf(d.name) == key
  }

  /** One step of the loop: an admissible device is stored under the UUID
      of its name unless that UUID is already taken. */
  function Insert(m: map<string, Device>, d: Device, uuidOf: JsValue -> string): map<string, Device>
  {
    if Admissible(d) && uuidOf(d.name) !in m then m[uuidOf(d.name) := d] else m
  }

  /** The map after the loop has run over `devices`, in list order. */
  function SetupResult(m: map<string, Device>, devices: seq<JsObject>,
                       validIP: JsValue -> JsValue, uuidOf: JsValue -> string): map<string, Device>
    decreases |devices|
  {
    if devices == [] then m
    else SetupResult(Insert(m, Config(devices[0], validIP), uuidOf), devices[1..], validIP, uuidOf)
  }

  /** `Setup(deviceMap, devices)`: `UUIDgenerate` and `validIP` are helpers
      outside this model and are taken as parameters. */
  method Setup(deviceMap: DeviceMap, devices: seq<JsObject>,
               validIP: JsValue -> JsValue, uuidOf: JsValue -> string)
    modifies deviceMap
    ensures deviceMap.entries == SetupResult(old(deviceMap.entries), devices, validIP, uuidOf)
  {
    for i := 0 to |devices|
      invariant SetupResult(deviceMap.entries, devices[i..], validIP, uuidOf)
             == SetupResult(old(deviceMap.entries), devices, validIP, uuidOf)
    {
      var deviceConfig := devices[i];
      var error := false;
      var device := Config(deviceConfig, validIP);

      if !Truthy(device.active) {
        error := true;
      } else if !Truthy(device.name) {
        error := true;
      } else if !Truthy(device.host) {
        error := true;
      }

      if !error {
        var uuid := uuidOf(device.name);
        if uuid !in deviceMap.entries {
          deviceMap.entries := deviceMap.entries[uuid := device];
        }
      }
      assert devices[i..][1..] == devices[i + 1..];
    }
  }

  // -----------------------------------------------------------------------
  // What the loop guarantees

  /** The map only grows: no key is removed and no stored device replaced. */
  lemma {:induction false} SetupKeepsEntries(m: map<string, Device>, devices: seq<JsObject>,
                                             validIP: JsValue -> JsValue, uuidOf: JsValue -> string)
    ensures var r := SetupResult(m, devices, validIP, uuidOf);
      m.Keys <= r.Keys && forall k :: k in m ==> r[k] == m[k]
    decreases |devices|
  {
    if devices != [] {
      SetupKeepsEntries(Insert(m, Config(devices[0], validIP), uuidOf), devices[1..], validIP, uuidOf);
    }
  }

  /** A key is present afterwards exactly when it was present before or
      some admissible device of the list has a name with that UUID. */
  lemma {:induction false} SetupKeys(m: map<string, Device>, devices: seq<JsObject>,
                                     validIP: JsValue -> JsValue, uuidOf: JsValue -> string, key: string)
    ensures key in SetupResult(m, devices, validIP, uuidOf) <==>
      key in m || exists i :: 0 <= i < |devices| && AdmittedAs(devices[i], validIP, uuidOf, key)
    decreases |devices|
  {
    if devices != [] {
      var m' := Insert(m, Config(devices[0], validIP), uuidOf);
      SetupKeys(m', devices[1..], validIP, uuidOf, key);
      if exists i :: 0 <= i < |devices| && AdmittedAs(devices[i], validIP, uuidOf, key) {
        var i :| 0 <= i < |devices| && AdmittedAs(devices[i], validIP, uuidOf, key);
        if i > 0 {
          assert devices[1..][i - 1] == devices[i];
        }
      }
      if exists i :: 0 <= i < |devices| - 1 && AdmittedAs(devices[1..][i], validIP, uuidOf, key) {
        var i :| 0 <= i < |devices| - 1 && AdmittedAs(devices[1..][i], validIP, uuidOf, key);
        assert devices[1..][i] == devices[i + 1];
      }
    }
  }

  /** Every device added by the loop passed the checks, is stored under the
      UUID of its own name and is exactly `Config` of one list entry. */
  lemma {:induction false} SetupAddsOnlyAdmitted(m: map<string, Device>, devices: seq<JsObject>,
                                                 validIP: JsValue -> JsValue, uuidOf: JsValue -> string, key: string)
    requires key in SetupResult(m, devices, validIP, uuidOf) && key !in m
    ensures var d := SetupResult(m, devices, validIP, uuidOf)[key];
      Admissible(d) && uuidOf(d.name) == key &&
      exists i :: 0 <= i < |devices| && d == Config(devices[i], validIP)
    decreases |devices|
  {
    var d0 := Config(devices[0], validIP);
    var m' := Insert(m, d0, uuidOf);
    var r := SetupResult(m, devices, validIP, uuidOf);
    if key in m' {
      assert key == uuidOf(d0.name) && m'[key] == d0;
      SetupKeepsEntries(m', devices[1..], validIP, uuidOf);
    } else {
      SetupAddsOnlyAdmitted(m', devices[1..], validIP, uuidOf, key);
      var i :| 0 <= i < |devices| - 1 && r[key] == Config(devices[1..][i], validIP);
      assert devices[1..][i] == devices[i + 1];
    }
  }

  /** Of several admissible devices whose names share a UUID, the first one
      in the list is the one stored. */
  lemma {:induction false} SetupFirstWins(m: map<string, Device>, devices: seq<JsObject>,
                                          validIP: JsValue -> JsValue, uuidOf: JsValue -> string, key: string, i: nat)
    requires key !in m && i < |devices| && AdmittedAs(devices[i], validIP, uuidOf, key)
    requires forall j :: 0 <= j < i ==> !AdmittedAs(devices[j], validIP, uuidOf, key)
    ensures var r := SetupResult(m, devices, validIP, uuidOf);
      key in r && r[key] == Config(devices[i], validIP)
    decreases |devices|
  {
    var m' := Insert(m, Config(devices[0], validIP), uuidOf);
    if i == 0 {
      SetupKeepsEntries(m', devices[1..], validIP, uuidOf);
    } else {
      assert !AdmittedAs(devices[0], validIP, uuidOf, key);
      assert key !in m';
      forall j | 0 <= j < i - 1
        ensures !AdmittedAs(devices[1..][j], validIP, uuidOf, key)
      {
        assert devices[1..][j] == devices[j + 1];
      }
      assert devices[1..][i - 1] == devices[i];
      SetupFirstWins(m', devices[1..], validIP, uuidOf, key, i - 1);
    }
  }

  /** If every stored device was admissible before the loop, every stored
      device is admissible after it. */
  lemma SetupStoresOnlyAdmissible(m: map<string, Device>, devices: seq<JsObject>,
                                  validIP: JsValue -> JsValue, uuidOf: JsValue -> string)
    requires forall k :: k in m ==> Admissible(m[k])
    ensures var r := SetupResult(m, devices, validIP, uuidOf);
      forall k :: k in r ==> Admissible(r[k])
  {
    var r := SetupResult(m, devices, validIP, uuidOf);
    SetupKeepsEntries(m, devices, validIP, uuidOf);
    forall k | k in r
      ensures Admissible(r[k])
    {
      if k !in m {
        SetupAddsOnlyAdmitted(m, devices, validIP, uuidOf, k);
      }
    }
  }
}
