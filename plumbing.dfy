/**
 * Tenant-to-device placement (`PlumbingHooks` in plumbing_hooks.py).
 *
 * A tenant is placed either by the hash ring alone, or, when the database is
 * in use, by a persisted tenant binding that is sticky while its device is
 * still configured and that is (re)written from the ring otherwise.
 *
 * The placement is first defined by functions of the registry, the ring and
 * the binding table; the class `PlumbingHooks` then holds the table and
 * updates it in place, as the source does, and is proved against them.
 */
module Plumbing {
  import opened Wrappers

  type TenantId = string
  type DeviceName = string

  /** A configured appliance (the device dict of the configuration). */
  datatype Device = Device(name: DeviceName, host: string, apiVersion: string)

  /** `config.devices`: configured devices by key. */
  type Registry = map<DeviceName, Device>

  /** The persisted `A10TenantBinding` rows: at most one device name per tenant. */
  type Bindings = map<TenantId, DeviceName>

  /**
   * The consistent-hashing library `acos_client.Hash`: a ring built from a
   * set of server keys, asked for the server of a tenant. Its internals are
   * not modelled; only its contract, `PlacesOnKeys`, is relied on.
   */
  type HashLibrary = (set<DeviceName>, TenantId) -> DeviceName

  /** A ring built from a non-empty key set always answers one of those keys. */
  ghost predicate PlacesOnKeys(hash: HashLibrary) {
    forall keys, t :: keys != {} ==> hash(keys, t) in keys
  }

  /** Every device is named by its key in the registry. */
  ghost predicate NamedByKey(devices: Registry) {
    forall k :: k in devices ==> devices[k].name == k
  }

  /** The outcome of one selection: the device (None: no device configured) and the binding table afterwards. */
  datatype Resolution = Resolution(device: Option<Device>, bindings: Bindings)

  /**
   * `select_device_hash`: the registry entry of the key the ring built from
   * the configured keys gives for the tenant; None when nothing is configured.
   */
  function HashPlacement(devices: Registry, hash: HashLibrary, t: TenantId): (r: Option<Device>)
    requires PlacesOnKeys(hash)
    ensures r.None? <==> devices == map[]
    ensures r.Some? ==> r.value in devices.Values
  {
    if devices == map[] then None else Some(devices[hash(devices.Keys, t)])
  }

  /** The tenant has a stored binding whose device is still configured. */
  predicate LiveBinding(devices: Registry, bindings: Bindings, t: TenantId) {
    t in bindings && bindings[t] in devices
  }

  /**
   * `select_device_db`: a live binding wins and leaves the table alone;
   * otherwise the ring decides and a binding to the chosen device's name is
   * stored.
   */
  function DbPlacement(devices: Registry, hash: HashLibrary, bindings: Bindings, t: TenantId): Resolution
    requires PlacesOnKeys(hash)
  {
    if LiveBinding(devices, bindings, t) then
      Resolution(Some(devices[bindings[t]]), bindings)
    else
      match HashPlacement(devices, hash, t)
      case None => Resolution(None, bindings)
      case Some(d) => Resolution(Some(d), bindings[t := d.name])
  }

  /** `select_device`: the binding-based path exactly when `use_database` is set. */
  function Placement(useDatabase: bool, devices: Registry, hash: HashLibrary, bindings: Bindings, t: TenantId): Resolution
    requires PlacesOnKeys(hash)
  {
    if useDatabase then DbPlacement(devices, hash, bindings, t)
    else Resolution(HashPlacement(devices, hash, t), bindings)
  }

  /** The binding table after selecting a device for each tenant of `ts` in turn. */
  function PlaceMany(useDatabase: bool, devices: Registry, hash: HashLibrary, bindings: Bindings, ts: seq<TenantId>): Bindings
    requires PlacesOnKeys(hash)
    decreases |ts|
  {
    if ts == [] then bindings
    else PlaceMany(useDatabase, devices, hash, Placement(useDatabase, devices, hash, bindings, ts[0]).bindings, ts[1..])
  }

  /** `select_device` dispatches on `use_database`; hash-only selection never touches the table. */
  lemma SelectDeviceDispatch(useDatabase: bool, devices: Registry, hash: HashLibrary, bindings: Bindings, t: TenantId)
    requires PlacesOnKeys(hash)
    ensures useDatabase ==> Placement(useDatabase, devices, hash, bindings, t) == DbPlacement(devices, hash, bindings, t)
    ensures !useDatabase ==> Placement(useDatabase, devices, hash, bindings, t) == Resolution(HashPlacement(devices, hash, t), bindings)
  {
  }

  /**
   * A consequence of modelling the ring as a function of the key set (not of
   * the order `keys()` lists it in): two registries with the same keys place
   * a tenant on the same key.
   */
  lemma RingDependsOnKeysOnly(d1: Registry, d2: Registry, hash: HashLibrary, t: TenantId)
    requires PlacesOnKeys(hash)
    requires d1.Keys == d2.Keys && d1 != map[]
    ensures exists k :: k in d1 && k in d2 && HashPlacement(d1, hash, t) == Some(d1[k]) && HashPlacement(d2, hash, t) == Some(d2[k])
  {
    var k := hash(d1.Keys, t);
    assert k in d1 && k in d2;
  }

  /** Sticky binding: a live binding decides the device, whatever the ring says, and the table is unchanged. */
  lemma StickyBinding(devices: Registry, hash: HashLibrary, bindings: Bindings, t: TenantId)
    requires PlacesOnKeys(hash)
    requires LiveBinding(devices, bindings, t)
    ensures DbPlacement(devices, hash, bindings, t) == Resolution(Some(devices[bindings[t]]), bindings)
  {
  }

  /**
   * Fallback: with no binding, or one naming a device no longer configured,
   * the device is the hash placement, the tenant is bound to its name and
   * every other tenant's binding is kept.
   */
  lemma Fallback(devices: Registry, hash: HashLibrary, bindings: Bindings, t: TenantId)
    requires PlacesOnKeys(hash)
    requires !LiveBinding(devices, bindings, t)
    ensures var r := DbPlacement(devices, hash, bindings, t);
      && r.device == HashPlacement(devices, hash, t)
      && (r.device.Some? ==> t in r.bindings && r.bindings[t] == r.device.value.name)
      && (r.device.None? ==> r.bindings == bindings)
      && r.bindings.Keys == bindings.Keys + (if r.device.Some? then {t} else {})
      && (forall u :: u in bindings && u != t ==> r.bindings[u] == bindings[u])
  {
  }

  /** Selecting a device for one tenant never alters another tenant's binding, and keeps a live one live. */
  lemma PlacementKeepsBinding(useDatabase: bool, devices: Registry, hash: HashLibrary, bindings: Bindings, u: TenantId, t: TenantId)
    requires PlacesOnKeys(hash)
    requires LiveBinding(devices, bindings, t)
    ensures var r := Placement(useDatabase, devices, hash, bindings, u);
      t in r.bindings && r.bindings[t] == bindings[t]
  {
  }

  /** A live binding survives any sequence of further selections. */
  lemma {:induction false} PlaceManyKeepsBinding(useDatabase: bool, devices: Registry, hash: HashLibrary, bindings: Bindings, ts: seq<TenantId>, t: TenantId)
    requires PlacesOnKeys(hash)
    requires LiveBinding(devices, bindings, t)
    ensures var s := PlaceMany(useDatabase, devices, hash, bindings, ts);
      t in s && s[t] == bindings[t]
    decreases |ts|
  {
    if ts != [] {
      var next := Placement(useDatabase, devices, hash, bindings, ts[0]).bindings;
      PlacementKeepsBinding(useDatabase, devices, hash, bindings, ts[0], t);
      PlaceManyKeepsBinding(useDatabase, devices, hash, next, ts[1..], t);
    }
  }

  /**
   * Determinism: selecting for a tenant, then for any other tenants, then for
   * the same tenant again returns the same device, in both modes.
   */
  lemma {:induction false} SelectionIsDeterministic(useDatabase: bool, devices: Registry, hash: HashLibrary, bindings: Bindings, t: TenantId, others: seq<TenantId>)
    requires PlacesOnKeys(hash)
    requires useDatabase ==> NamedByKey(devices)
    ensures var first := Placement(useDatabase, devices, hash, bindings, t);
      var later := PlaceMany(useDatabase, devices, hash, first.bindings, others);
      Placement(useDatabase, devices, hash, later, t).device == first.device
  {
    var first := Placement(useDatabase, devices, hash, bindings, t);
    var later := PlaceMany(useDatabase, devices, hash, first.bindings, others);
    if useDatabase && devices != map[] {
      assert LiveBinding(devices, first.bindings, t) && devices[first.bindings[t]] == first.device.value by {
        if !LiveBinding(devices, bindings, t) {
          var k := hash(devices.Keys, t);
          assert first.device == Some(devices[k]) && first.bindings[t] == k;
        }
      }
      PlaceManyKeepsBinding(useDatabase, devices, hash, first.bindings, others, t);
    }
  }

  /**
   * Without `NamedByKey`, database-mode selection is not deterministic: when
   * the ring answers key "a" for a device named "b" and "b" is another key,
   * the first selection returns the device under "a" and binds the tenant to
   * "b"; the next selection finds that binding live and returns the device
   * under "b".
   */
  lemma NameOfOtherKeyBreaksDeterminism(hash: HashLibrary, t: TenantId)
    requires PlacesOnKeys(hash)
    requires hash({"a", "b"}, t) == "a"
    ensures var devices := map["a" := Device("b", "10.0.0.1", "2.1"), "b" := Device("b", "10.0.0.2", "2.1")];
      var first := DbPlacement(devices, hash, map[], t);
      && first.device == Some(devices["a"])
      && first.bindings == map[t := "b"]
      && DbPlacement(devices, hash, first.bindings, t).device == Some(devices["b"])
      && devices["a"] != devices["b"]
  {
    var devices := map["a" := Device("b", "10.0.0.1", "2.1"), "b" := Device("b", "10.0.0.2", "2.1")];
    assert devices.Keys == {"a", "b"};
  }

  /**
   * Without `NamedByKey`, a binding does not keep the device across a ring
   * rebuild either: on the registry of `NameOfOtherKeyBreaksDeterminism`,
   * whatever the second ring answers, the tenant moves from the device under
   * "a" to the device under "b".
   */
  lemma NameOfOtherKeyBreaksRingChange(hash1: HashLibrary, hash2: HashLibrary, t: TenantId)
    requires PlacesOnKeys(hash1) && PlacesOnKeys(hash2)
    requires hash1({"a", "b"}, t) == "a"
    ensures var devices := map["a" := Device("b", "10.0.0.1", "2.1"), "b" := Device("b", "10.0.0.2", "2.1")];
      var first := DbPlacement(devices, hash1, map[], t);
      && first.device == Some(devices["a"])
      && DbPlacement(devices, hash2, first.bindings, t).device == Some(devices["b"])
      && devices["a"] != devices["b"]
  {
    var devices := map["a" := Device("b", "10.0.0.1", "2.1"), "b" := Device("b", "10.0.0.2", "2.1")];
    assert devices.Keys == {"a", "b"};
  }

  /** A stored binding outlives a change of ring: once bound, a tenant keeps its device when the ring is rebuilt differently. */
  lemma BindingSurvivesRingChange(devices: Registry, hash1: HashLibrary, hash2: HashLibrary, bindings: Bindings, t: TenantId)
    requires PlacesOnKeys(hash1) && PlacesOnKeys(hash2)
    requires NamedByKey(devices)
    ensures var first := DbPlacement(devices, hash1, bindings, t);
      DbPlacement(devices, hash2, first.bindings, t) == first
  {
    var first := DbPlacement(devices, hash1, bindings, t);
    if devices != map[] && !LiveBinding(devices, bindings, t) {
      var k := hash1(devices.Keys, t);
      assert first.bindings[t] == k && k in devices;
    }
  }

  /**
   * The binding stores the device's `name` but is looked up among the
   * registry's keys: a device whose name is not a key is never found again,
   * so every later selection falls back to the ring and rewrites the binding.
   */
  lemma ForeignNameNeverSticks(devices: Registry, hash: HashLibrary, bindings: Bindings, t: TenantId)
    requires PlacesOnKeys(hash)
    requires !LiveBinding(devices, bindings, t) && devices != map[]
    requires devices[hash(devices.Keys, t)].name !in devices
    ensures var first := DbPlacement(devices, hash, bindings, t);
      && !LiveBinding(devices, first.bindings, t)
      && DbPlacement(devices, hash, first.bindings, t) == first
  {
  }

  /**
   * `PlumbingHooks`: the ring is built once, from the configured keys, when
   * the object is created; the binding table is the persisted store that
   * `SelectDeviceDb` adds to.
   */
  class PlumbingHooks {
    /** `driver.config.devices` */
    const devices: Registry
    /** `driver.config.use_database` */
    const useDatabase: bool
    /** The library the ring `appliance_hash` is built with. */
    const hash: HashLibrary
    /** The key set the ring was built over. */
    const ringKeys: set<DeviceName>
    /** The `A10TenantBinding` table. */
    var bindings: Bindings

    ghost predicate Valid() {
      PlacesOnKeys(hash) && ringKeys == devices.Keys
    }

    /** `__init__`: the ring is built over the configured device keys. */
    constructor (devices: Registry, useDatabase: bool, hash: HashLibrary, bindings: Bindings)
      requires PlacesOnKeys(hash)
      ensures Valid()
      ensures this.devices == devices && this.useDatabase == useDatabase && this.hash == hash
      ensures this.bindings == bindings
    {
      this.devices := devices;
      this.useDatabase := useDatabase;
      this.hash := hash;
      this.ringKeys := devices.Keys;
      this.bindings := bindings;
    }

    /** `select_device_hash`: asks the ring for a key and returns that key's device. */
    method SelectDeviceHash(t: TenantId) returns (d: Option<Device>)
      requires Valid()
      ensures d == HashPlacement(devices, hash, t)
      ensures d.None? <==> devices == map[]
    {
      if ringKeys == {} {
        d := None;
      } else {
        var key := hash(ringKeys, t);
        d := Some(devices[key]);
      }
    }

    /** `select_device_db`: returns a live binding's device, or hashes and stores a new binding. */
    method SelectDeviceDb(t: TenantId) returns (d: Option<Device>)
      requires Valid()
      modifies this`bindings
      ensures Resolution(d, bindings) == DbPlacement(devices, hash, old(bindings), t)
      ensures LiveBinding(devices, old(bindings), t) ==> d == Some(devices[old(bindings)[t]]) && bindings == old(bindings)
      ensures !LiveBinding(devices, old(bindings), t) && d.Some? ==> bindings == old(bindings)[t := d.value.name]
    {
      if t in bindings && bindings[t] in devices {
        return Some(devices[bindings[t]]);
      }
      d := SelectDeviceHash(t);
      if d.Some? {
        bindings := bindings[t := d.value.name];
      }
    }

    /** `select_device`: the binding path when `use_database` is set, the hash path otherwise. */
    method SelectDevice(t: TenantId) returns (d: Option<Device>)
      requires Valid()
      modifies this`bindings
      ensures Resolution(d, bindings) == Placement(useDatabase, devices, hash, old(bindings), t)
      ensures !useDatabase ==> bindings == old(bindings)
    {
      if useDatabase {
        d := SelectDeviceDb(t);
      } else {
        d := SelectDeviceHash(t);
      }
    }

    /** The `after_*` hooks of the base class do nothing. */
    method AfterMemberCreate()
      ensures unchanged(this)
    {
    }

    method AfterMemberUpdate()
      ensures unchanged(this)
    {
    }

    method AfterMemberDelete()
      ensures unchanged(this)
    {
    }

    method AfterVipCreate()
      ensures unchanged(this)
    {
    }

    method AfterVipUpdate()
      ensures unchanged(this)
    {
    }

    method AfterVipDelete()
      ensures unchanged(this)
    {
    }
  }
}
