/** From an allocated device back to its network, configuration and NIC (pkg/resolver/resolver.go). */
module Resolution {
  import opened Wrappers
  import opened Api
  import opened Selection
  import opened Publication

  /** The key of the index; its text form is taken to be injective. */
  datatype DeviceId = DeviceId(driver: string, pool: string, device: string)

  datatype Slice = Slice(driver: string, pool: string, devices: seq<Device>)

  datatype Resolved = Resolved(network: DeviceNetwork, configuration: DeviceConfiguration, device: Device,
      host: HostDevice)

  /** What the resolver reads besides the slices: the lister of networks, the device cache, its own kind. */
  datatype Sources = Sources(networks: map<string, DeviceNetwork>, store: Store, podNetworkKind: string)

  function KeysOf(s: Slice): set<DeviceId> {
    set k | 0 <= k < |s.devices| :: DeviceId(s.driver, s.pool, s.devices[k].name)
  }

  /** The index function. */
  method IndexKeys(s: Slice) returns (keys: seq<DeviceId>)
    ensures SetOf(keys) == KeysOf(s) && |keys| == |s.devices|
    ensures forall k :: 0 <= k < |keys| ==> keys[k] == DeviceId(s.driver, s.pool, s.devices[k].name)
  {
    keys := [];
    for i := 0 to |s.devices|
      invariant |keys| == i && forall k :: 0 <= k < i ==> keys[k] == DeviceId(s.driver, s.pool, s.devices[k].name)
    {
      keys := keys + [DeviceId(s.driver, s.pool, s.devices[i].name)];
    }
    forall id ensures id in SetOf(keys) <==> id in KeysOf(s) {
      if id in KeysOf(s) {
        var k :| 0 <= k < |s.devices| && id == DeviceId(s.driver, s.pool, s.devices[k].name);
        assert keys[k] == id;
      }
      if id in keys {
        var k :| 0 <= k < |keys| && id == keys[k];
        assert s.devices[k].name == id.device;
      }
    }
  }

  /** The first item of a name. */
  function First<T>(items: seq<T>, nameOf: T -> string, name: string): (r: Option<T>)
    ensures r.Some? ==> r.value in items && nameOf(r.value) == name
    ensures r.None? ==> forall x :: x in items ==> nameOf(x) != name
  {
    if items == [] then None
    else if nameOf(items[0]) == name then Some(items[0])
    else First(items[1..], nameOf, name)
  }

  function NameOfDevice(d: Device): string { d.name }

  function NameOfConfiguration(dc: DeviceConfiguration): string { dc.name }

  function FirstDevice(devices: seq<Device>, name: string): Option<Device> { First(devices, NameOfDevice, name) }

  function FirstConfiguration(dcs: seq<DeviceConfiguration>, name: string): Option<DeviceConfiguration> {
    First(dcs, NameOfConfiguration, name)
  }

  /** The rest of the lookup once the index has given a slice. */
  function ResolveIn(s: Slice, name: string, src: Sources): Result<Resolved, string> {
    var device := FirstDevice(s.devices, name);
    if device.None? then Err("device not found in resource slice") else
    var attributes := device.value.attributes;
    if ATTR_POD_NETWORK !in attributes then Err("no pod network attribute") else
    if ATTR_POD_NETWORK_KIND !in attributes || attributes[ATTR_POD_NETWORK_KIND] != src.podNetworkKind
        then Err("not the expected network kind") else
    if ATTR_CONFIGURATION !in attributes then Err("no device configuration attribute") else
    if ATTR_HOST_DEVICE !in attributes then Err("no host device attribute") else
    if attributes[ATTR_HOST_DEVICE] !in src.store then Err("failed to get host device") else
    if attributes[ATTR_POD_NETWORK] !in src.networks then Err("failed to get device network") else
    var network := src.networks[attributes[ATTR_POD_NETWORK]];
    var configuration := FirstConfiguration(network.deviceConfigurations, attributes[ATTR_CONFIGURATION]);
    if configuration.None? then Err("device configuration not found in device network") else
    Ok(Resolved(network, configuration.value, device.value, src.store[attributes[ATTR_HOST_DEVICE]]))
  }

  /** The slices the index gives for a key. */
  function Indexed(slices: set<Slice>, id: DeviceId): set<Slice> {
    set s | s in slices && id in KeysOf(s)
  }

  /** The scan for a name, over the devices of a slice and over the configurations of a network. */
  method Find<T>(items: seq<T>, nameOf: T -> string, name: string) returns (r: Option<T>)
    ensures r.Some? ==> exists k :: 0 <= k < |items| && r.value == items[k] && nameOf(items[k]) == name &&
                                    forall j :: 0 <= j < k ==> nameOf(items[j]) != name
    ensures r.None? ==> forall k :: 0 <= k < |items| ==> nameOf(items[k]) != name
    ensures r == First(items, nameOf, name)
  {
    r := None;
    for i := 0 to |items|
      invariant r.None? && First(items, nameOf, name) == First(items[i..], nameOf, name)
      invariant forall k :: 0 <= k < i ==> nameOf(items[k]) != name
    {
      if nameOf(items[i]) == name {
        return Some(items[i]);
      }
      assert items[i..][1..] == items[i + 1..];
    }
  }

  /** A slice of this driver and pool that has a device of this name. */
  ghost predicate HoldsKey(slices: set<Slice>, id: DeviceId, s: Slice) {
    s in slices && s.driver == id.driver && s.pool == id.pool &&
    exists k :: 0 <= k < |s.devices| && s.devices[k].name == id.device
  }

  lemma {:induction false} IndexedExactly(slices: set<Slice>, id: DeviceId, s: Slice)
    ensures s in Indexed(slices, id) <==> HoldsKey(slices, id, s)
  {
    if HoldsKey(slices, id, s) {
      var k :| 0 <= k < |s.devices| && s.devices[k].name == id.device;
      assert DeviceId(s.driver, s.pool, s.devices[k].name) in KeysOf(s);
    }
  }

  /** The item at k is the first of its name. */
  ghost predicate IsFirstOf<T>(items: seq<T>, nameOf: T -> string, name: string, k: nat) {
    k < |items| && nameOf(items[k]) == name && forall j :: 0 <= j < k ==> nameOf(items[j]) != name
  }

  /**
   What the lookup in a slice gives: the first device of the name, of the resolver's own kind of network; the
   network that its attributes name, if it is listed; the first configuration of the name they give; and the
   NIC they name, if the cache has it. All four attributes have to be there.
   */
  ghost predicate Gives(s: Slice, name: string, src: Sources, v: Resolved) {
    var a := v.device.attributes;
    (exists k: nat :: IsFirstOf(s.devices, NameOfDevice, name, k) && s.devices[k] == v.device) &&
    "multinetwork.networking.x-k8s.io/podNetworkKind" in a &&
    a["multinetwork.networking.x-k8s.io/podNetworkKind"] == src.podNetworkKind &&
    "multinetwork.networking.x-k8s.io/podNetwork" in a &&
    a["multinetwork.networking.x-k8s.io/podNetwork"] in src.networks &&
    v.network == src.networks[a["multinetwork.networking.x-k8s.io/podNetwork"]] &&
    "devicenetwork.io/deviceConfiguration" in a &&
    (exists k: nat ::
       IsFirstOf(v.network.deviceConfigurations, NameOfConfiguration, a["devicenetwork.io/deviceConfiguration"], k) &&
       v.network.deviceConfigurations[k] == v.configuration) &&
    "devicenetwork.io/hostDeviceName" in a &&
    a["devicenetwork.io/hostDeviceName"] in src.store && v.host == src.store[a["devicenetwork.io/hostDeviceName"]]
  }

  lemma {:induction false} FirstExactly<T>(items: seq<T>, nameOf: T -> string, name: string, x: T)
    ensures First(items, nameOf, name) == Some(x) <==>
              exists k: nat :: IsFirstOf(items, nameOf, name, k) && items[k] == x
  {
    if k: nat :| IsFirstOf(items, nameOf, name, k) && items[k] == x {
      FirstAt(items, nameOf, k);
    }
    if First(items, nameOf, name) == Some(x) {
      var k := FirstPosition(items, nameOf, name);
    }
  }

  lemma {:induction false} FirstPosition<T>(items: seq<T>, nameOf: T -> string, name: string) returns (k: nat)
    requires First(items, nameOf, name).Some?
    ensures IsFirstOf(items, nameOf, name, k) && items[k] == First(items, nameOf, name).value
  {
    if nameOf(items[0]) == name {
      k := 0;
    } else {
      k := FirstPosition(items[1..], nameOf, name);
      assert forall j :: 0 <= j < k ==> items[1..][j] == items[j + 1];
      k := k + 1;
    }
  }

  lemma {:induction false} GivesExactly(s: Slice, name: string, src: Sources, v: Resolved)
    ensures Gives(s, name, src, v) <==> ResolveIn(s, name, src) == Ok(v)
  {
    FirstExactly(s.devices, NameOfDevice, name, v.device);
    if ATTR_CONFIGURATION in v.device.attributes {
      FirstExactly(v.network.deviceConfigurations, NameOfConfiguration, v.device.attributes[ATTR_CONFIGURATION],
                   v.configuration);
    }
  }

  /** getDeviceNetworkForDevice: several slices may hold the key, and the index gives them in no order. */
  method GetDevice(id: DeviceId, slices: set<Slice>, src: Sources) returns (r: Result<Resolved, string>)
    ensures Indexed(slices, id) == {} ==> r.Err?
    ensures Indexed(slices, id) != {} ==> exists s :: s in Indexed(slices, id) && r == ResolveIn(s, id.device, src)
    ensures r.Ok? ==> exists s :: HoldsKey(slices, id, s) && Gives(s, id.device, src, r.value)
    ensures r.Err? ==>
              (forall s :: !HoldsKey(slices, id, s)) ||
              exists s :: HoldsKey(slices, id, s) && forall v :: !Gives(s, id.device, src, v)
  {
    forall s ensures s in Indexed(slices, id) <==> HoldsKey(slices, id, s) { IndexedExactly(slices, id, s); }
    forall s, v ensures Gives(s, id.device, src, v) <==> ResolveIn(s, id.device, src) == Ok(v) {
      GivesExactly(s, id.device, src, v);
    }
    var objs := UnsortedList(Indexed(slices, id));
    if |objs| == 0 {
      return Err("no device found for deviceID");
    }
    var s := objs[0];
    assert s in SetOf(objs);
    var device := Find(s.devices, NameOfDevice, id.device);
    if device.None? {
      return Err("device not found in resource slice");
    }
    var attributes := device.value.attributes;
    if ATTR_POD_NETWORK !in attributes {
      return Err("no pod network attribute");
    }
    if ATTR_POD_NETWORK_KIND !in attributes || attributes[ATTR_POD_NETWORK_KIND] != src.podNetworkKind {
      return Err("not the expected network kind");
    }
    if ATTR_CONFIGURATION !in attributes {
      return Err("no device configuration attribute");
    }
    if ATTR_HOST_DEVICE !in attributes {
      return Err("no host device attribute");
    }
    if attributes[ATTR_HOST_DEVICE] !in src.store {
      return Err("failed to get host device");
    }
    if attributes[ATTR_POD_NETWORK] !in src.networks {
      return Err("failed to get device network");
    }
    var network := src.networks[attributes[ATTR_POD_NETWORK]];
    var configuration := Find(network.deviceConfigurations, NameOfConfiguration, attributes[ATTR_CONFIGURATION]);
    if configuration.None? {
      return Err("device configuration not found in device network");
    }
    r := Ok(Resolved(network, configuration.value, device.value, src.store[attributes[ATTR_HOST_DEVICE]]));
  }

  // ----- device names

  /** What the name of a device is before the NIC. */
  function Prefix(network: string, configuration: string): string { network + "-" + configuration + "-" }

  /**
   Two configurations give some two NICs, with names, the same device name exactly when one prefix begins the other.
   */
  lemma NamesCollideExactly(n: string, c: string, n': string, c': string)
    ensures (exists d, d' :: d != "" && d' != "" && DeviceName(n, c, d) == DeviceName(n', c', d')) <==>
              Prefix(n, c) <= Prefix(n', c') || Prefix(n', c') <= Prefix(n, c)
  {
    var p, p' := Prefix(n, c), Prefix(n', c');
    if d, d' :| DeviceName(n, c, d) == DeviceName(n', c', d') {
      assert DeviceName(n, c, d) == p + d && DeviceName(n', c', d') == p' + d';
      SameStart(p, d, p', d');
    }
    if p <= p' { CollidesWith(n, c, n', c'); }
    if p' <= p { CollidesWith(n', c', n, c); }
  }

  lemma SameStart(p: string, d: string, p': string, d': string)
    requires p + d == p' + d'
    ensures p <= p' || p' <= p
  {
    if |p| <= |p'| { assert p == (p + d)[..|p|] == p'[..|p|]; } else { assert p' == (p' + d')[..|p'|] == p[..|p'|]; }
  }

  /** The NIC that makes up for a shorter prefix. */
  lemma CollidesWith(n: string, c: string, n': string, c': string)
    requires Prefix(n, c) <= Prefix(n', c')
    ensures DeviceName(n, c, Prefix(n', c')[|Prefix(n, c)|..] + "d") == DeviceName(n', c', "d")
  {
    var p, p' := Prefix(n, c), Prefix(n', c');
    assert p + (p'[|p|..] + "d") == p' + "d";
  }

  function PrefixAt(networks: seq<DeviceNetwork>, i: nat, j: nat): string
    requires i < |networks| && j < |networks[i].deviceConfigurations|
  {
    Prefix(networks[i].name, networks[i].deviceConfigurations[j].name)
  }

  function NameAt(networks: seq<DeviceNetwork>, o: Origin): string
    requires InRange(networks, o)
  {
    DeviceName(networks[o.network].name, networks[o.network].deviceConfigurations[o.configuration].name, o.nic)
  }

  /** No configuration's prefix begins that of another. */
  ghost predicate PrefixFree(networks: seq<DeviceNetwork>) {
    forall o, o' ::
      InRange(networks, o) && InRange(networks, o') &&
      (o.network, o.configuration) != (o'.network, o'.configuration) ==>
      !(PrefixAt(networks, o.network, o.configuration) <= PrefixAt(networks, o'.network, o'.configuration))
  }

  /** A position in the lists and a NIC that has a name. */
  predicate IsOrigin(networks: seq<DeviceNetwork>, o: Origin) { InRange(networks, o) && o.nic != "" }

  ghost predicate NamesDistinct(networks: seq<DeviceNetwork>) {
    forall o, o' :: IsOrigin(networks, o) && IsOrigin(networks, o') && o != o' ==>
        NameAt(networks, o) != NameAt(networks, o')
  }

  /** For prefix-free networks, device names tell all origins apart. */
  lemma PrefixFreeSeparates(networks: seq<DeviceNetwork>, o: Origin, o': Origin)
    requires PrefixFree(networks) && InRange(networks, o) && InRange(networks, o') && o != o'
    ensures NameAt(networks, o) != NameAt(networks, o')
  {
    var p, p' := PrefixAt(networks, o.network, o.configuration), PrefixAt(networks, o'.network, o'.configuration);
    assert NameAt(networks, o) == p + o.nic && NameAt(networks, o') == p' + o'.nic;
    if (o.network, o.configuration) == (o'.network, o'.configuration) {
      assert (p + o.nic)[|p|..] == o.nic && (p + o'.nic)[|p|..] == o'.nic;
    } else if p + o.nic == p' + o'.nic {
      SameStart(p, o.nic, p', o'.nic);
    }
  }

  /** Device names tell all origins apart, whatever names the NICs have, exactly for prefix-free networks. */
  lemma NamesDistinctExactly(networks: seq<DeviceNetwork>)
    ensures NamesDistinct(networks) <==> PrefixFree(networks)
  {
    if PrefixFree(networks) {
      forall o, o' | IsOrigin(networks, o) && IsOrigin(networks, o') && o != o'
        ensures NameAt(networks, o) != NameAt(networks, o') {
        PrefixFreeSeparates(networks, o, o');
      }
    }
    if NamesDistinct(networks) {
      forall o, o' | InRange(networks, o) && InRange(networks, o') &&
          (o.network, o.configuration) != (o'.network, o'.configuration)
        ensures !(PrefixAt(networks, o.network, o.configuration) <= PrefixAt(networks, o'.network, o'.configuration))
      {
        if PrefixAt(networks, o.network, o.configuration) <= PrefixAt(networks, o'.network, o'.configuration) {
          PrefixMixes(networks, o, o');
        }
      }
    }
  }

  lemma PrefixMixes(networks: seq<DeviceNetwork>, o: Origin, o': Origin)
    requires InRange(networks, o) && InRange(networks, o') &&
        (o.network, o.configuration) != (o'.network, o'.configuration)
    requires PrefixAt(networks, o.network, o.configuration) <= PrefixAt(networks, o'.network, o'.configuration)
    ensures !NamesDistinct(networks)
  {
    var p, p' := PrefixAt(networks, o.network, o.configuration), PrefixAt(networks, o'.network, o'.configuration);
    var a, b := o.(nic := p'[|p|..] + "d"), o'.(nic := "d");
    CollidesWith(networks[o.network].name, networks[o.network].deviceConfigurations[o.configuration].name,
                 networks[o'.network].name, networks[o'.network].deviceConfigurations[o'.configuration].name);
    assert IsOrigin(networks, a) && IsOrigin(networks, b) && NameAt(networks, a) == NameAt(networks, b);
  }

  ghost predicate NoDashes(networks: seq<DeviceNetwork>) {
    forall n :: n in networks ==> '-' !in n.name && forall dc :: dc in n.deviceConfigurations ==> '-' !in dc.name
  }

  ghost predicate UniqueNames(networks: seq<DeviceNetwork>) {
    (forall i, j :: 0 <= i < j < |networks| ==> networks[i].name != networks[j].name) &&
    (forall i, j, k :: 0 <= i < |networks| && 0 <= j < k < |networks[i].deviceConfigurations| ==>
       networks[i].deviceConfigurations[j].name != networks[i].deviceConfigurations[k].name)
  }

  lemma DashesSplit(n: string, c: string, n': string, c': string)
    requires '-' !in n && '-' !in c && '-' !in n' && '-' !in c'
    requires Prefix(n, c) <= Prefix(n', c')
    ensures n == n' && c == c'
  {
    var p, p' := Prefix(n, c), Prefix(n', c');
    assert p[|n|] == '-' == p'[|n|] && p'[|n'|] == '-';
    assert forall k :: 0 <= k < |n| ==> p[k] == n[k] == p'[k];
    assert forall k :: 0 <= k < |n'| ==> p'[k] == n'[k];
    assert |n| == |n'|;
    assert forall k :: 0 <= k < |c| ==> p[|n| + 1 + k] == c[k];
    assert forall k :: 0 <= k < |c'| ==> p'[|n| + 1 + k] == c'[k];
    assert p[|n| + 1 + |c|] == '-' == p'[|n| + 1 + |c|];
    assert |c| == |c'|;
  }

  /** Names without dashes are prefix-free as soon as they are unique. */
  lemma NoDashesArePrefixFree(networks: seq<DeviceNetwork>)
    requires NoDashes(networks) && UniqueNames(networks)
    ensures PrefixFree(networks)
  {
    forall o, o' | InRange(networks, o) && InRange(networks, o') &&
        (o.network, o.configuration) != (o'.network, o'.configuration)
      ensures !(PrefixAt(networks, o.network, o.configuration) <= PrefixAt(networks, o'.network, o'.configuration))
    {
      var n, n' := networks[o.network], networks[o'.network];
      var c, c' := n.deviceConfigurations[o.configuration], n'.deviceConfigurations[o'.configuration];
      if Prefix(n.name, c.name) <= Prefix(n'.name, c'.name) {
        assert n in networks && n' in networks && c in n.deviceConfigurations && c' in n'.deviceConfigurations;
        DashesSplit(n.name, c.name, n'.name, c'.name);
      }
    }
  }

  // ----- the round trip

  /** The slices hold the published pool and nothing else under its driver and name. */
  ghost predicate HoldsPool(slices: set<Slice>, driver: string, pool: string, devices: seq<Device>) {
    Slice(driver, pool, devices) in slices &&
    forall s :: s in slices && s.driver == driver && s.pool == pool ==> s.devices == devices || s.devices == []
  }

  ghost predicate ListsAll(networks: seq<DeviceNetwork>, src: Sources) {
    forall n :: n in networks ==> n.name in src.networks && src.networks[n.name] == n
  }

  /** What a result says of the device it was read from. */
  lemma ResultIsRead(s: Slice, name: string, src: Sources)
    requires ResolveIn(s, name, src).Ok?
    ensures var r := ResolveIn(s, name, src).value;
            r.device in s.devices && r.device.name == name &&
            Reads(r, src)
  {
  }

  /** A result that was read from the attributes of its device. */
  ghost predicate Reads(r: Resolved, src: Sources) {
    var a := r.device.attributes;
    ATTR_POD_NETWORK in a && ATTR_CONFIGURATION in a && ATTR_HOST_DEVICE in a &&
    a[ATTR_POD_NETWORK] in src.networks && r.network == src.networks[a[ATTR_POD_NETWORK]] &&
    r.configuration in r.network.deviceConfigurations && r.configuration.name == a[ATTR_CONFIGURATION] &&
    a[ATTR_HOST_DEVICE] in src.store && r.host == src.store[a[ATTR_HOST_DEVICE]]
  }

  lemma ResultOf(s: Slice, d: Device, network: DeviceNetwork, dc: DeviceConfiguration, host: HostDevice, src: Sources)
    requires FirstDevice(s.devices, d.name) == Some(d)
    requires FirstConfiguration(network.deviceConfigurations, dc.name) == Some(dc)
    requires Describes(d, network, dc, host, src.podNetworkKind)
    requires network.name in src.networks && src.networks[network.name] == network
    requires host.name in src.store && src.store[host.name] == host
    ensures ResolveIn(s, d.name, src) == Ok(Resolved(network, dc, d, host))
  {
  }

  /** The attributes name the network, the configuration and the NIC. */
  ghost predicate Describes(d: Device, network: DeviceNetwork, dc: DeviceConfiguration, host: HostDevice,
      kind: string) {
    d.attributes == map[
      ATTR_DEVICE_TYPE := GetDeviceType(dc), ATTR_POD_NETWORK := network.name, ATTR_POD_NETWORK_KIND := kind,
      ATTR_CONFIGURATION := dc.name, ATTR_HOST_DEVICE := host.name]
  }

  lemma PublishedIsDescribed(w: World, networks: seq<DeviceNetwork>, o: Origin)
    requires KeyedByName(w.store) && IsPublished(w, networks, o)
    ensures var n := networks[o.network];
            DeviceAt(w, networks, o).name == NameAt(networks, o) && w.store[o.nic].name == o.nic && n in networks &&
            Describes(DeviceAt(w, networks, o), n, n.deviceConfigurations[o.configuration], w.store[o.nic],
                w.podNetworkKind)
  {
  }

  lemma IndexGivesPool(slices: set<Slice>, driver: string, pool: string, devices: seq<Device>, k: nat)
    requires HoldsPool(slices, driver, pool, devices) && k < |devices|
    ensures Indexed(slices, DeviceId(driver, pool, devices[k].name)) == {Slice(driver, pool, devices)}
  {
    var s := Slice(driver, pool, devices);
    assert DeviceId(driver, pool, s.devices[k].name) in KeysOf(s);
  }

  ghost predicate DistinctNames(devices: seq<Device>) {
    forall i, j :: 0 <= i < j < |devices| ==> devices[i].name != devices[j].name
  }

  lemma {:induction false} FirstAt<T>(items: seq<T>, nameOf: T -> string, k: nat)
    requires k < |items| && forall j :: 0 <= j < k ==> nameOf(items[j]) != nameOf(items[k])
    ensures First(items, nameOf, nameOf(items[k])) == Some(items[k])
  {
    if k > 0 {
      assert forall j :: 0 <= j < |items| - 1 ==> items[1..][j] == items[j + 1];
      FirstAt(items[1..], nameOf, k - 1);
    }
  }

  lemma ConfigurationIsOnly(networks: seq<DeviceNetwork>, o: Origin)
    requires UniqueNames(networks) && InRange(networks, o)
    ensures var dc := networks[o.network].deviceConfigurations[o.configuration];
            FirstConfiguration(networks[o.network].deviceConfigurations, dc.name) == Some(dc)
  {
    var dcs := networks[o.network].deviceConfigurations;
    forall j | 0 <= j < |dcs| && dcs[j].name == dcs[o.configuration].name ensures j == o.configuration {
      assert j < o.configuration || o.configuration < j || j == o.configuration;
    }
    FirstAt(dcs, NameOfConfiguration, o.configuration);
  }

  /** Prefix-free networks have unique names, but for networks that have no configurations. */
  lemma PrefixFreeIsUnique(networks: seq<DeviceNetwork>, i: nat, j: nat, k: nat)
    requires PrefixFree(networks) && i < |networks| && j < |networks[i].deviceConfigurations| &&
        k < |networks[i].deviceConfigurations|
    requires networks[i].deviceConfigurations[j].name == networks[i].deviceConfigurations[k].name
    ensures j == k
  {
    assert InRange(networks, Origin(i, j, "")) && InRange(networks, Origin(i, k, ""));
    assert PrefixAt(networks, i, j) == PrefixAt(networks, i, k);
  }

  /** Resolving the name gives exactly the network, configuration, device and NIC of this origin. */
  ghost predicate ResolvesTo(w: World, networks: seq<DeviceNetwork>, pool: Slice, src: Sources, name: string, o: Origin)
    requires IsPublished(w, networks, o)
  {
    var n := networks[o.network];
    ResolveIn(pool, name, src) ==
      Ok(Resolved(n, n.deviceConfigurations[o.configuration], DeviceAt(w, networks, o), w.store[o.nic]))
  }

  ghost predicate ResolvesToItself(w: World, networks: seq<DeviceNetwork>, pool: Slice, src: Sources, o: Origin)
    requires IsPublished(w, networks, o)
  {
    ResolvesTo(w, networks, pool, src, NameAt(networks, o), o)
  }

  /** A name resolves to the origin of the first device that has it. */
  lemma FirstResolves(w: World, networks: seq<DeviceNetwork>, origins: seq<Origin>, devices: seq<Device>,
      pool: Slice, src: Sources, k: nat)
    requires KeyedByName(w.store) && DevicesOf(w, networks, origins, devices)
    requires pool.devices == devices && ListsAll(networks, src) && src.store == w.store &&
        src.podNetworkKind == w.podNetworkKind
    requires k < |origins| && OnlyConfiguration(networks, origins[k])
    requires forall j :: 0 <= j < k ==> devices[j].name != devices[k].name
    ensures ResolvesTo(w, networks, pool, src, devices[k].name, origins[k])
  {
    var o := origins[k];
    var n := networks[o.network];
    PublishedIsDescribed(w, networks, o);
    FirstAt(devices, NameOfDevice, k);
    ResultOf(pool, devices[k], n, n.deviceConfigurations[o.configuration], w.store[o.nic], src);
  }

  lemma DistinctResolves(w: World, networks: seq<DeviceNetwork>, origins: seq<Origin>, devices: seq<Device>,
      pool: Slice, src: Sources, k: nat)
    requires KeyedByName(w.store) && DevicesOf(w, networks, origins, devices) && DistinctNames(devices)
    requires pool.devices == devices && ListsAll(networks, src) && src.store == w.store &&
        src.podNetworkKind == w.podNetworkKind
    requires k < |origins| && OnlyConfiguration(networks, origins[k])
    ensures ResolvesToItself(w, networks, pool, src, origins[k])
  {
    PublishedIsDescribed(w, networks, origins[k]);
    FirstResolves(w, networks, origins, devices, pool, src, k);
  }

  /** The lookup by name finds this configuration in its network. */
  predicate OnlyConfiguration(networks: seq<DeviceNetwork>, o: Origin)
    requires InRange(networks, o)
  {
    var dcs := networks[o.network].deviceConfigurations;
    FirstConfiguration(dcs, dcs[o.configuration].name) == Some(dcs[o.configuration])
  }

  /** All published device names differ. */
  lemma PublishedNamesDiffer(w: World, networks: seq<DeviceNetwork>, origins: seq<Origin>, devices: seq<Device>)
    requires KeyedByName(w.store) && DevicesOf(w, networks, origins, devices) && PrefixFree(networks)
    ensures DistinctNames(devices)
  {
    forall i, j | 0 <= i < j < |devices| ensures devices[i].name != devices[j].name {
      PublishedIsDescribed(w, networks, origins[i]);
      PublishedIsDescribed(w, networks, origins[j]);
      PrefixFreeSeparates(networks, origins[i], origins[j]);
    }
  }

  /** Resolving any published device gives exactly the network, configuration and NIC it came from. */
  lemma RoundTrip(w: World, networks: seq<DeviceNetwork>, origins: seq<Origin>, devices: seq<Device>,
      driver: string, slices: set<Slice>, src: Sources, o: Origin)
    requires KeyedByName(w.store) && Publishes(w, networks, origins, devices) && PrefixFree(networks)
    requires HoldsPool(slices, driver, w.nodeName, devices) && ListsAll(networks, src)
    requires src.store == w.store && src.podNetworkKind == w.podNetworkKind
    requires IsPublished(w, networks, o)
    ensures var pool := Slice(driver, w.nodeName, devices);
            Indexed(slices, DeviceId(driver, w.nodeName, NameAt(networks, o))) == {pool} &&
            ResolvesToItself(w, networks, pool, src, o)
  {
    assert o in origins;
    var k :| 0 <= k < |origins| && origins[k] == o;
    PublishedIsDescribed(w, networks, o);
    PublishedNamesDiffer(w, networks, origins, devices);
    IndexGivesPool(slices, driver, w.nodeName, devices, k);
    var dcs := networks[o.network].deviceConfigurations;
    forall j | 0 <= j < |dcs| && dcs[j].name == dcs[o.configuration].name ensures j == o.configuration {
      PrefixFreeIsUnique(networks, o.network, j, o.configuration);
    }
    FirstAt(dcs, NameOfConfiguration, o.configuration);
    DistinctResolves(w, networks, origins, devices, Slice(driver, w.nodeName, devices), src, k);
  }

  /** With unique names, a device tells its origin. */
  lemma SameDeviceSameOrigin(w: World, networks: seq<DeviceNetwork>, o: Origin, o': Origin)
    requires KeyedByName(w.store) && UniqueNames(networks) && IsPublished(w, networks, o) &&
        IsPublished(w, networks, o')
    requires DeviceAt(w, networks, o) == DeviceAt(w, networks, o')
    ensures o == o'
  {
    PublishedIsDescribed(w, networks, o);
    PublishedIsDescribed(w, networks, o');
    var a := DeviceAt(w, networks, o).attributes;
    assert a[ATTR_POD_NETWORK] == networks[o.network].name == networks[o'.network].name;
    assert a[ATTR_CONFIGURATION] == networks[o.network].deviceConfigurations[o.configuration].name ==
           networks[o'.network].deviceConfigurations[o'.configuration].name;
    assert a[ATTR_HOST_DEVICE] == o.nic == o'.nic;
    assert o.network < o'.network || o'.network < o.network || o.network == o'.network;
    assert o.configuration < o'.configuration || o'.configuration < o.configuration ||
        o.configuration == o'.configuration;
  }

  /**
   The exact condition of the round trip, for unique names of networks and of the configurations in
   each: every published device resolves to its own origin if and only if published names differ.
   */
  lemma RoundTripExactly(w: World, networks: seq<DeviceNetwork>, origins: seq<Origin>, devices: seq<Device>,
      pool: Slice, src: Sources)
    requires KeyedByName(w.store) && DevicesOf(w, networks, origins, devices) && UniqueNames(networks)
    requires pool.devices == devices && ListsAll(networks, src) && src.store == w.store &&
        src.podNetworkKind == w.podNetworkKind
    ensures (forall k :: 0 <= k < |origins| ==> ResolvesToItself(w, networks, pool, src, origins[k])) <==>
        DistinctNames(devices)
  {
    if DistinctNames(devices) {
      forall k | 0 <= k < |origins| ensures ResolvesToItself(w, networks, pool, src, origins[k]) {
        ConfigurationIsOnly(networks, origins[k]);
        DistinctResolves(w, networks, origins, devices, pool, src, k);
      }
    }
    if forall k :: 0 <= k < |origins| ==> ResolvesToItself(w, networks, pool, src, origins[k]) {
      forall i, j | 0 <= i < j < |devices| ensures devices[i].name != devices[j].name {
        PublishedIsDescribed(w, networks, origins[i]);
        PublishedIsDescribed(w, networks, origins[j]);
        if devices[i].name == devices[j].name {
          assert ResolvesToItself(w, networks, pool, src, origins[i]) &&
              ResolvesToItself(w, networks, pool, src, origins[j]);
          SameDeviceSameOrigin(w, networks, origins[i], origins[j]);
        }
      }
    }
  }

  /** The result names the network, the configuration and the NIC that this origin has. */
  ghost predicate AgreesWith(r: Resolved, networks: seq<DeviceNetwork>, o: Origin) {
    InRange(networks, o) && r.network == networks[o.network] &&
    r.configuration in r.network.deviceConfigurations &&
    r.configuration.name == r.network.deviceConfigurations[o.configuration].name && r.host.name == o.nic
  }

  lemma ReadFromDescribed(r: Resolved, networks: seq<DeviceNetwork>, o: Origin, host: HostDevice, kind: string,
      src: Sources)
    requires Reads(r, src) && KeyedByName(src.store) && ListsAll(networks, src) && InRange(networks, o) &&
        host.name == o.nic
    requires Describes(r.device, networks[o.network], networks[o.network].deviceConfigurations[o.configuration], host,
        kind)
    ensures AgreesWith(r, networks, o)
  {
    assert networks[o.network] in networks;
  }

  /** Without any condition on names, a result agrees with the attributes of a device published under that name. */
  lemma ResultAgrees(w: World, networks: seq<DeviceNetwork>, origins: seq<Origin>, devices: seq<Device>,
      driver: string, slices: set<Slice>, src: Sources, name: string, s: Slice) returns (k: nat)
    requires KeyedByName(w.store) && KeyedByName(src.store) && DevicesOf(w, networks, origins, devices)
    requires HoldsPool(slices, driver, w.nodeName, devices) && ListsAll(networks, src)
    requires s in Indexed(slices, DeviceId(driver, w.nodeName, name)) && ResolveIn(s, name, src).Ok?
    ensures var r := ResolveIn(s, name, src).value;
            k < |devices| && r.device == devices[k] && devices[k].name == name && AgreesWith(r, networks, origins[k])
  {
    ResultIsRead(s, name, src);
    var r := ResolveIn(s, name, src).value;
    assert s.devices == devices;
    k :| 0 <= k < |devices| && devices[k] == r.device;
    PublishedIsDescribed(w, networks, origins[k]);
    ReadFromDescribed(r, networks, origins[k], w.store[origins[k].nic], w.podNetworkKind, src);
  }

  /** The resolved configuration has the device type that was published, given unique configuration names. */
  lemma TypeIsPublishedType(w: World, networks: seq<DeviceNetwork>, origins: seq<Origin>, devices: seq<Device>,
      driver: string, slices: set<Slice>, src: Sources, name: string, s: Slice)
    requires KeyedByName(w.store) && KeyedByName(src.store) && DevicesOf(w, networks, origins, devices) &&
        UniqueNames(networks)
    requires HoldsPool(slices, driver, w.nodeName, devices) && ListsAll(networks, src)
    requires s in Indexed(slices, DeviceId(driver, w.nodeName, name)) && ResolveIn(s, name, src).Ok?
    ensures var r := ResolveIn(s, name, src).value;
            ATTR_DEVICE_TYPE in r.device.attributes &&
                GetDeviceType(r.configuration) == r.device.attributes[ATTR_DEVICE_TYPE]
  {
    var k := ResultAgrees(w, networks, origins, devices, driver, slices, src, name, s);
    DescribedType(w, networks, origins[k]);
    SameNameSameConfiguration(networks, origins[k], ResolveIn(s, name, src).value);
  }

  lemma DescribedType(w: World, networks: seq<DeviceNetwork>, o: Origin)
    requires KeyedByName(w.store) && IsPublished(w, networks, o)
    ensures var a := DeviceAt(w, networks, o).attributes;
            ATTR_DEVICE_TYPE in a && a[ATTR_DEVICE_TYPE] ==
                GetDeviceType(networks[o.network].deviceConfigurations[o.configuration])
  {
    PublishedIsDescribed(w, networks, o);
  }

  lemma SameNameSameConfiguration(networks: seq<DeviceNetwork>, o: Origin, r: Resolved)
    requires UniqueNames(networks) && AgreesWith(r, networks, o)
    ensures r.configuration == networks[o.network].deviceConfigurations[o.configuration]
  {
    var dcs := networks[o.network].deviceConfigurations;
    var j :| 0 <= j < |dcs| && dcs[j] == r.configuration;
    assert j < o.configuration || o.configuration < j || j == o.configuration;
  }
}
