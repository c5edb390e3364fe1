/** The devices a node publishes (pkg/controllers/devicenetwork/reconciler.go and the two configurators). */
module Publication {
  import opened Wrappers
  import opened Api
  import opened Selection

  // ----- configurators

  datatype Configurator = HostDeviceConfigurator | MacvlanConfigurator

  predicate IsSupported(c: Configurator, d: HostDevice, dc: DeviceConfiguration) {
    match c
    case HostDeviceConfigurator =>
      && GetDeviceType(dc) == HOST_DEVICE
      && d.spec.linkLayerType != "loopback"
      && d.spec.deviceType !in ["bridge", "bond", "team", "tuntap"]
      && d.spec.parentIndex == 0
      && d.spec.masterIndex == 0
    case MacvlanConfigurator =>
      && GetDeviceType(dc) == MACVLAN
      && GetMacvlanMode(dc) in ["bridge", "private", "vepa", "passthru", "source"]
      && d.spec.linkLayerType == "ether"
      && d.spec.masterIndex == 0
  }

  const BLANK: Device := Device("", map[], map[], false, [])

  /** The device a configurator exposes for a NIC, on top of a given one or of a blank one. */
  function ExposedDevice(c: Configurator, d: HostDevice, device: Option<Device>): Device {
    var base := if device.Some? then device.value else BLANK;
    match c
    case HostDeviceConfigurator =>
      base.(allowMultipleAllocations := false,
            consumesCounters := base.consumesCounters + [Consumption(d.name, map[MUTUAL_EXCLUSION := COUNTER_VALUE])])
    case MacvlanConfigurator =>
      base.(allowMultipleAllocations := true,
            capacity := base.capacity[CAP_MAX_VIRTUAL_INTERFACES := Capacity(MAX_VIRTUAL_DEVICES, 1, [1])],
            consumesCounters := base.consumesCounters + [Consumption(d.name, map[MUTUAL_EXCLUSION := 1])])
  }

  function DeviceName(network: string, configuration: string, nic: string): string {
    network + "-" + configuration + "-" + nic
  }

  // ----- what is published, declaratively

  /** Everything getResources reads besides the networks. */
  datatype World = World(
    nodeName: string,
    matches: NodeSelector -> Option<bool>, // None is an error
    podNetworkKind: string,
    store: Store,
    cel: Cel,
    configurators: map<string, Configurator>)

  /** Where a published device comes from: positions in the lists, and a NIC name. */
  datatype Origin = Origin(network: nat, configuration: nat, nic: string)

  predicate AppliesToNode(w: World, s: DeviceSelector) {
    s.nodeSelector.Some? ==> w.matches(s.nodeSelector.value) == Some(true)
  }

  function Selected(w: World, s: DeviceSelector): set<HostDevice> {
    Select(w.store.Values, s.selectors, w.cel)
  }

  /** The devices per selector name that the first inner loop collects: the last applying selector of a name counts. */
  function ForSelector(w: World, selectors: seq<DeviceSelector>): map<string, set<HostDevice>> {
    if selectors == [] then map[]
    else
      var n := |selectors| - 1;
      var rest := ForSelector(w, selectors[..n]);
      if AppliesToNode(w, selectors[n]) then rest[selectors[n].name := Selected(w, selectors[n])] else rest
  }

  /** NIC d is collected for a configuration. */
  predicate Collected(groups: map<string, set<HostDevice>>, dc: DeviceConfiguration, d: HostDevice) {
    exists name :: name in dc.deviceSelectors && name in groups && d in groups[name]
  }

  predicate Exposes(w: World, dc: DeviceConfiguration, d: HostDevice) {
    GetDeviceType(dc) in w.configurators && IsSupported(w.configurators[GetDeviceType(dc)], d, dc)
  }

  predicate InRange(networks: seq<DeviceNetwork>, o: Origin) {
    o.network < |networks| && o.configuration < |networks[o.network].deviceConfigurations|
  }

  predicate IsPublished(w: World, networks: seq<DeviceNetwork>, o: Origin) {
    InRange(networks, o) && o.nic in w.store &&
    var net := networks[o.network];
    var dc := net.deviceConfigurations[o.configuration];
    Collected(ForSelector(w, net.deviceSelectors), dc, w.store[o.nic]) && Exposes(w, dc, w.store[o.nic])
  }

  /** The device published for an origin. */
  function DeviceFor(w: World, network: DeviceNetwork, dc: DeviceConfiguration, d: HostDevice): Device
    requires GetDeviceType(dc) in w.configurators
  {
    ExposedDevice(w.configurators[GetDeviceType(dc)], d, None).(
      name := DeviceName(network.name, dc.name, d.name),
      attributes := map[
        ATTR_DEVICE_TYPE := GetDeviceType(dc),
        ATTR_POD_NETWORK := network.name,
        ATTR_POD_NETWORK_KIND := w.podNetworkKind,
        ATTR_CONFIGURATION := dc.name,
        ATTR_HOST_DEVICE := d.name])
  }

  function DeviceAt(w: World, networks: seq<DeviceNetwork>, o: Origin): Device
    requires IsPublished(w, networks, o)
  {
    var net := networks[o.network];
    DeviceFor(w, net, net.deviceConfigurations[o.configuration], w.store[o.nic])
  }

  /** The devices are those of the origins, one by one. */
  ghost predicate DevicesOf(w: World, networks: seq<DeviceNetwork>, origins: seq<Origin>, devices: seq<Device>) {
    |devices| == |origins| && NoDuplicates(origins) &&
    forall k :: 0 <= k < |origins| ==>
        IsPublished(w, networks, origins[k]) && devices[k] == DeviceAt(w, networks, origins[k])
  }

  /** Exactly one device for each origin that is to be published. */
  ghost predicate Publishes(w: World, networks: seq<DeviceNetwork>, origins: seq<Origin>, devices: seq<Device>) {
    DevicesOf(w, networks, origins, devices) &&
    forall o :: IsPublished(w, networks, o) ==> o in origins
  }

  function FullCounter(nic: string): CounterSet { CounterSet(nic, map[MUTUAL_EXCLUSION := COUNTER_VALUE]) }

  /** Exactly one full counter for each NIC that a device draws on. */
  ghost predicate CountersFor(devices: seq<Device>, counters: seq<CounterSet>) {
    NoDuplicates(counters) &&
    (forall c :: c in counters ==> c == CounterSet(c.name, map["mutual-exclusion" := 65536])) &&
    (forall nic :: FullCounter(nic) in counters <==>
       exists d, k :: d in devices && 0 <= k < |d.consumesCounters| && d.consumesCounters[k].counterSet == nic)
  }

  // ----- the loops

  /** Selector k is the last of its name that has no node selector, or one that matches the node without error. */
  ghost predicate IsLastApplying(w: World, selectors: seq<DeviceSelector>, k: nat, name: string) {
    k < |selectors| && selectors[k].name == name && Applies(w, selectors[k]) &&
    forall j :: k < j < |selectors| && Applies(w, selectors[j]) ==> selectors[j].name != name
  }

  predicate Applies(w: World, s: DeviceSelector) {
    s.nodeSelector.None? || w.matches(s.nodeSelector.value) == Some(true)
  }

  lemma {:induction false} ForSelectorExactly(w: World, selectors: seq<DeviceSelector>)
    ensures forall name :: name in ForSelector(w, selectors) <==> exists k: nat :: IsLastApplying(w, selectors, k, name)
    ensures forall k: nat, name :: IsLastApplying(w, selectors, k, name) ==>
              name in ForSelector(w, selectors) &&
              ForSelector(w, selectors)[name] == Select(w.store.Values, selectors[k].selectors, w.cel)
  {
    if selectors != [] {
      var n := |selectors| - 1;
      var before := selectors[..n];
      ForSelectorExactly(w, before);
      forall k: nat, name | IsLastApplying(w, selectors, k, name) && k < n ensures IsLastApplying(w, before, k, name) {}
      forall k: nat, name | IsLastApplying(w, before, k, name) &&
          !(Applies(w, selectors[n]) && selectors[n].name == name)
        ensures IsLastApplying(w, selectors, k, name)
      {
        assert forall j :: k < j < n ==> before[j] == selectors[j];
      }
      assert Applies(w, selectors[n]) ==> IsLastApplying(w, selectors, n, selectors[n].name);
    }
  }

  method CollectForSelector(w: World, selectors: seq<DeviceSelector>) returns (groups: map<string, seq<HostDevice>>)
    ensures groups.Keys == ForSelector(w, selectors).Keys
    ensures forall name :: name in groups ==> SetOf(groups[name]) == ForSelector(w, selectors)[name]
    ensures forall name :: name in groups <==> exists k: nat :: IsLastApplying(w, selectors, k, name)
    ensures forall k: nat, name :: IsLastApplying(w, selectors, k, name) ==>
              name in groups && SetOf(groups[name]) == Select(w.store.Values, selectors[k].selectors, w.cel)
  {
    groups := map[];
    for i := 0 to |selectors|
      invariant groups.Keys == ForSelector(w, selectors[..i]).Keys
      invariant forall name :: name in groups ==> SetOf(groups[name]) == ForSelector(w, selectors[..i])[name]
    {
      assert selectors[..i + 1][..i] == selectors[..i];
      var s := selectors[i];
      if s.nodeSelector.Some? {
        var applies := w.matches(s.nodeSelector.value);
        if applies != Some(true) {
          continue;
        }
      }
      var devices := List(w.store, s.selectors, w.cel);
      groups := groups[s.name := devices];
    }
    assert selectors[..|selectors|] == selectors;
    ForSelectorExactly(w, selectors);
  }

  /** The NICs of the selectors a configuration references, each once by name. */
  method CollectForConfiguration(ghost w: World, groups: map<string, seq<HostDevice>>,
      ghost sets: map<string, set<HostDevice>>, dc: DeviceConfiguration)
    returns (byName: map<string, HostDevice>)
    requires KeyedByName(w.store)
    requires groups.Keys == sets.Keys
    requires forall name :: name in groups ==> SetOf(groups[name]) == sets[name] && sets[name] <= w.store.Values
    ensures forall nic :: nic in byName <==> nic in w.store && Collected(sets, dc, w.store[nic])
    ensures forall nic :: nic in byName ==> byName[nic] == w.store[nic]
  {
    byName := map[];
    for i := 0 to |dc.deviceSelectors|
      invariant forall nic :: nic in byName ==> nic in w.store && byName[nic] == w.store[nic]
      invariant forall nic :: nic in byName <==>
        nic in w.store &&
        exists k :: 0 <= k < i && dc.deviceSelectors[k] in sets && w.store[nic] in sets[dc.deviceSelectors[k]]
    {
      var name := dc.deviceSelectors[i];
      if name !in groups {
        continue;
      }
      var devices := groups[name];
      ghost var before := byName;
      for j := 0 to |devices|
        invariant forall nic :: nic in byName ==> nic in w.store && byName[nic] == w.store[nic]
        invariant forall nic :: nic in byName <==> nic in before || (nic in w.store && w.store[nic] in devices[..j])
      {
        assert devices[j] in SetOf(devices);
        assert devices[..j + 1] == devices[..j] + [devices[j]];
        byName := byName[devices[j].name := devices[j]];
      }
      assert devices[..|devices|] == devices;
      assert forall d :: d in devices <==> d in sets[name];
    }
    assert forall nic :: nic in w.store ==>
      (Collected(sets, dc, w.store[nic]) <==>
       exists k :: 0 <= k < |dc.deviceSelectors| && dc.deviceSelectors[k] in sets &&
           w.store[nic] in sets[dc.deviceSelectors[k]]);
  }

  /** Origins of the configurations before configuration j of network i. */
  predicate Before(o: Origin, i: nat, j: nat) { o.network < i || (o.network == i && o.configuration < j) }

  /** The devices published so far, and the NICs they draw on. */
  ghost predicate PublishedSo(w: World, networks: seq<DeviceNetwork>, origins: seq<Origin>, devices: seq<Device>,
      drawn: set<string>) {
    DevicesOf(w, networks, origins, devices) && forall nic :: nic in drawn <==> exists o :: o in origins && o.nic == nic
  }

  lemma {:induction false} PublishOneMore(w: World, networks: seq<DeviceNetwork>, origins: seq<Origin>,
      devices: seq<Device>, drawn: set<string>, o: Origin)
    requires PublishedSo(w, networks, origins, devices, drawn) && o !in origins && IsPublished(w, networks, o)
    ensures PublishedSo(w, networks, origins + [o], devices + [DeviceAt(w, networks, o)], drawn + {o.nic})
  {
    DrawnOneMore(origins, drawn, o);
    DevicesOneMore(w, networks, origins, devices, o);
  }

  lemma {:induction false} DevicesOneMore(w: World, networks: seq<DeviceNetwork>, origins: seq<Origin>,
      devices: seq<Device>, o: Origin)
    requires DevicesOf(w, networks, origins, devices) && o !in origins && IsPublished(w, networks, o)
    ensures DevicesOf(w, networks, origins + [o], devices + [DeviceAt(w, networks, o)])
  {
    var origins', devices' := origins + [o], devices + [DeviceAt(w, networks, o)];
    forall k | 0 <= k < |origins'|
      ensures IsPublished(w, networks, origins'[k]) && devices'[k] == DeviceAt(w, networks, origins'[k])
    {
      if k < |origins| { assert IsPublished(w, networks, origins[k]); }
    }
    forall i, j | 0 <= i < j < |origins'| ensures origins'[i] != origins'[j] {
      if j == |origins| { assert origins[i] in origins; }
    }
  }

  lemma DrawnOneMore(origins: seq<Origin>, drawn: set<string>, o: Origin)
    requires forall nic :: nic in drawn <==> exists p :: p in origins && p.nic == nic
    ensures forall nic :: nic in drawn + {o.nic} <==> exists p :: p in origins + [o] && p.nic == nic
  {
    forall nic ensures nic in drawn + {o.nic} <==> exists p :: p in origins + [o] && p.nic == nic {
      if nic == o.nic {
        assert o in origins + [o];
      } else if nic in drawn {
        var p :| p in origins && p.nic == nic;
        assert p in origins + [o];
      }
    }
  }

  /** The exposed device with its name and its five attributes set. */
  method BuildDevice(w: World, network: DeviceNetwork, dc: DeviceConfiguration, d: HostDevice) returns (device: Device)
    requires GetDeviceType(dc) in w.configurators
    ensures device == DeviceFor(w, network, dc, d)
  {
    device := ExposedDevice(w.configurators[GetDeviceType(dc)], d, None);
    device := device.(name := DeviceName(network.name, dc.name, d.name));
    device := device.(attributes := device.attributes[ATTR_DEVICE_TYPE := GetDeviceType(dc)]);
    device := device.(attributes := device.attributes[ATTR_POD_NETWORK := network.name]);
    device := device.(attributes := device.attributes[ATTR_POD_NETWORK_KIND := w.podNetworkKind]);
    device := device.(attributes := device.attributes[ATTR_CONFIGURATION := dc.name]);
    device := device.(attributes := device.attributes[ATTR_HOST_DEVICE := d.name]);
  }

  /** Origins published when the NICs of rest are still to come for configuration j of network i. */
  predicate SoFar(w: World, networks: seq<DeviceNetwork>, o: Origin, i: nat, j: nat, rest: set<string>) {
    IsPublished(w, networks, o) && (Before(o, i, j) || (o.network == i && o.configuration == j && o.nic !in rest))
  }

  lemma OneMoreSoFar(w: World, networks: seq<DeviceNetwork>, i: nat, j: nat, rest: set<string>, nic: string)
    requires nic in rest
    ensures var o := Origin(i, j, nic);
            forall p :: SoFar(w, networks, p, i, j, rest - {nic}) <==>
                SoFar(w, networks, p, i, j, rest) || (p == o && IsPublished(w, networks, o))
  {
  }

  /** The innermost loop: the supported NICs of one configuration, in map order. */
  method ExposeConfiguration(w: World, networks: seq<DeviceNetwork>, i: nat, j: nat, byName: map<string, HostDevice>,
      soFar: seq<Device>, drawnSoFar: set<string>, ghost before: seq<Origin>)
    returns (devices: seq<Device>, drawn: set<string>, ghost origins: seq<Origin>)
    requires KeyedByName(w.store)
    requires i < |networks| && j < |networks[i].deviceConfigurations|
    requires GetDeviceType(networks[i].deviceConfigurations[j]) in w.configurators
    requires forall nic :: nic in byName <==>
      nic in w.store && Collected(ForSelector(w, networks[i].deviceSelectors), networks[i].deviceConfigurations[j],
          w.store[nic])
    requires forall nic :: nic in byName ==> byName[nic] == w.store[nic]
    requires PublishedSo(w, networks, before, soFar, drawnSoFar)
    requires forall o :: o in before <==> IsPublished(w, networks, o) && Before(o, i, j)
    ensures PublishedSo(w, networks, origins, devices, drawn)
    ensures forall o :: o in origins <==> IsPublished(w, networks, o) && Before(o, i, j + 1)
  {
    var network, dc := networks[i], networks[i].deviceConfigurations[j];
    var configurator := w.configurators[GetDeviceType(dc)];
    devices, drawn, origins := soFar, drawnSoFar, before;
    var rest := byName.Keys;
    while rest != {}
      invariant rest <= byName.Keys
      invariant PublishedSo(w, networks, origins, devices, drawn)
      invariant forall o :: o in origins <==> SoFar(w, networks, o, i, j, rest)
      decreases |rest|
    {
      var nic :| nic in rest;
      var d := byName[nic];
      ghost var o := Origin(i, j, nic);
      OneMoreSoFar(w, networks, i, j, rest, nic);
      if IsSupported(configurator, d, dc) {
        PublishOneMore(w, networks, origins, devices, drawn, o);
        var device := BuildDevice(w, network, dc, d);
        devices := devices + [device];
        drawn := drawn + {d.name};
        origins := origins + [o];
      }
      rest := rest - {nic};
    }
  }

  lemma NextNetwork(w: World, networks: seq<DeviceNetwork>, i: nat)
    requires i < |networks|
    ensures forall o :: IsPublished(w, networks, o) ==>
              (Before(o, i + 1, 0) <==> Before(o, i, |networks[i].deviceConfigurations|))
  {
  }

  /** The full counters of the NICs drawn on, in set order. */
  method SharedCounters(drawn: set<string>) returns (counters: seq<CounterSet>)
    ensures NoDuplicates(counters)
    ensures forall c :: c in counters <==> c == FullCounter(c.name) && c.name in drawn
  {
    var names := UnsortedList(drawn);
    counters := [];
    for i := 0 to |names|
      invariant |counters| == i && forall k :: 0 <= k < i ==> counters[k] == FullCounter(names[k])
    {
      counters := counters + [FullCounter(names[i])];
    }
    forall c ensures c in counters <==> c == FullCounter(c.name) && c.name in drawn {
      if c == FullCounter(c.name) && c.name in drawn {
        assert c.name in SetOf(names);
        var k :| 0 <= k < |names| && names[k] == c.name;
        assert counters[k] == c;
      }
      if c in counters {
        var k :| 0 <= k < |counters| && counters[k] == c;
        assert names[k] in SetOf(names);
      }
    }
    ListOfSet(names, drawn);
  }

  /** A list as long as its set has no duplicates. */
  lemma {:induction false} ListOfSet<T>(s: seq<T>, all: set<T>)
    requires SetOf(s) == all && |s| == |all|
    ensures NoDuplicates(s)
  {
    if s != [] {
      var n := |s| - 1;
      var rest := s[..n];
      SetOfIsSmaller(rest);
      assert SetOf(s) == SetOf(rest) + {s[n]} by { assert s == rest + [s[n]]; }
      assert s[n] in SetOf(rest) ==> SetOf(s) == SetOf(rest);
      ListOfSet(rest, SetOf(rest));
      forall i, j | 0 <= i < j < |s| ensures s[i] != s[j] {
        if j == n { assert s[i] == rest[i] && rest[i] in SetOf(rest); } else { assert rest[i] != rest[j]; }
      }
    }
  }

  lemma {:induction false} SetOfIsSmaller<T>(s: seq<T>)
    ensures |SetOf(s)| <= |s|
  {
    if s != [] {
      var n := |s| - 1;
      SetOfIsSmaller(s[..n]);
      assert SetOf(s) == SetOf(s[..n]) + {s[n]} by { assert s == s[..n] + [s[n]]; }
    }
  }

  lemma DrawnCounters(w: World, networks: seq<DeviceNetwork>, origins: seq<Origin>, devices: seq<Device>,
      drawn: set<string>, counters: seq<CounterSet>)
    requires KeyedByName(w.store) && PublishedSo(w, networks, origins, devices, drawn) && NoDuplicates(counters)
    requires forall c :: c in counters <==> c == FullCounter(c.name) && c.name in drawn
    ensures CountersFor(devices, counters)
  {
    forall k | 0 <= k < |devices|
      ensures |devices[k].consumesCounters| == 1 && devices[k].consumesCounters[0].counterSet == origins[k].nic
    {
      assert IsPublished(w, networks, origins[k]);
    }
    forall nic
      ensures FullCounter(nic) in counters <==>
        exists d, k :: d in devices && 0 <= k < |d.consumesCounters| && d.consumesCounters[k].counterSet == nic
    {
      if nic in drawn {
        var o :| o in origins && o.nic == nic;
        var k :| 0 <= k < |origins| && origins[k] == o;
        assert devices[k] in devices && devices[k].consumesCounters[0].counterSet == nic;
      }
    }
  }

  /** getResources: the pool of the node, as its slice of devices and its slice of shared counters. */
  method GetResources(w: World, networks: seq<DeviceNetwork>) returns (devices: seq<Device>, counters: seq<CounterSet>)
    requires KeyedByName(w.store)
    ensures exists origins :: Publishes(w, networks, origins, devices)
    ensures CountersFor(devices, counters)
  {
    devices := [];
    var drawn: set<string> := {};
    ghost var origins: seq<Origin> := [];
    for i := 0 to |networks|
      invariant PublishedSo(w, networks, origins, devices, drawn)
      invariant forall o :: o in origins <==> IsPublished(w, networks, o) && Before(o, i, 0)
    {
      var groups := CollectForSelector(w, networks[i].deviceSelectors);
      var configurations := networks[i].deviceConfigurations;
      for j := 0 to |configurations|
        invariant PublishedSo(w, networks, origins, devices, drawn)
        invariant forall o :: o in origins <==> IsPublished(w, networks, o) && Before(o, i, j)
      {
        if GetDeviceType(configurations[j]) !in w.configurators {
          continue;
        }
        SelectedInStore(w, networks[i].deviceSelectors);
        var byName := CollectForConfiguration(w, groups, ForSelector(w, networks[i].deviceSelectors),
            configurations[j]);
        devices, drawn, origins := ExposeConfiguration(w, networks, i, j, byName, devices, drawn, origins);
      }
      NextNetwork(w, networks, i);
    }
    counters := SharedCounters(drawn);
    DrawnCounters(w, networks, origins, devices, drawn, counters);
    assert Publishes(w, networks, origins, devices);
  }

  lemma {:induction false} SelectedInStore(w: World, selectors: seq<DeviceSelector>)
    ensures forall name :: name in ForSelector(w, selectors) ==> ForSelector(w, selectors)[name] <= w.store.Values
  {
    if selectors != [] { SelectedInStore(w, selectors[..|selectors| - 1]); }
  }

  // ----- the declarative form

  ghost predicate UniqueSelectorNames(selectors: seq<DeviceSelector>) {
    forall i, j :: 0 <= i < j < |selectors| ==> selectors[i].name != selectors[j].name
  }

  /** Some selector the configuration references applies to the node and lists the NIC. */
  ghost predicate Lists(w: World, net: DeviceNetwork, dc: DeviceConfiguration, d: HostDevice) {
    exists s :: s in net.deviceSelectors && s.name in dc.deviceSelectors && AppliesToNode(w, s) && d in Selected(w, s)
  }

  lemma {:induction false} ForSelectorOfUnique(w: World, selectors: seq<DeviceSelector>, name: string)
    requires UniqueSelectorNames(selectors)
    ensures name in ForSelector(w, selectors) <==> exists s :: s in selectors && s.name == name && AppliesToNode(w, s)
    ensures name in ForSelector(w, selectors) ==>
              forall s :: s in selectors && s.name == name ==> ForSelector(w, selectors)[name] == Selected(w, s)
  {
    if selectors != [] {
      var n := |selectors| - 1;
      assert selectors == selectors[..n] + [selectors[n]];
      ForSelectorOfUnique(w, selectors[..n], name);
    }
  }

  /** One device per network, configuration and NIC that the network's selectors list and its configurator supports. */
  lemma PublishedDeclaratively(w: World, networks: seq<DeviceNetwork>, o: Origin)
    requires InRange(networks, o) && UniqueSelectorNames(networks[o.network].deviceSelectors)
    ensures var net := networks[o.network];
            var dc := net.deviceConfigurations[o.configuration];
            IsPublished(w, networks, o) <==>
              o.nic in w.store && Lists(w, net, dc, w.store[o.nic]) && Exposes(w, dc, w.store[o.nic])
  {
    var net := networks[o.network];
    var dc := net.deviceConfigurations[o.configuration];
    var groups := ForSelector(w, net.deviceSelectors);
    if o.nic in w.store {
      var d := w.store[o.nic];
      if Collected(groups, dc, d) {
        var name :| name in dc.deviceSelectors && name in groups && d in groups[name];
        ForSelectorOfUnique(w, net.deviceSelectors, name);
        assert Lists(w, net, dc, d);
      }
      if Lists(w, net, dc, d) {
        var s :| s in net.deviceSelectors && s.name in dc.deviceSelectors && AppliesToNode(w, s) && d in Selected(w, s);
        ForSelectorOfUnique(w, net.deviceSelectors, s.name);
      }
    }
  }

  /** The configurators that the agent starts with. */
  ghost predicate HasBothConfigurators(w: World) {
    w.configurators == map["HostDevice" := HostDeviceConfigurator, "Macvlan" := MacvlanConfigurator]
  }

  /** Some selector that the configuration references applies to the node and leaves this NIC of the store. */
  ghost predicate IsListed(w: World, net: DeviceNetwork, dc: DeviceConfiguration, d: HostDevice) {
    exists k :: 0 <= k < |net.deviceSelectors| &&
      var s := net.deviceSelectors[k];
      s.name in dc.deviceSelectors && (s.nodeSelector.None? || w.matches(s.nodeSelector.value) == Some(true)) &&
      d in Select(w.store.Values, s.selectors, w.cel)
  }

  /**
   A NIC that can be moved into a pod and back: not loopback, of no kind that the kernel keeps where it is,
   not on top of a parent and not enslaved.
   */
  predicate CanMove(d: DeviceSpec) {
    d.linkLayerType != "loopback" && d.deviceType != "bridge" && d.deviceType != "bond" && d.deviceType != "team" &&
    d.deviceType != "tuntap" && d.parentIndex == 0 && d.masterIndex == 0
  }

  /** A NIC that can have a macvlan of this configuration on top: Ethernet, not enslaved, of a known mode. */
  predicate CanHaveMacvlan(d: DeviceSpec, dc: DeviceConfiguration) {
    d.linkLayerType == "ether" && d.masterIndex == 0 &&
    (dc.macvlan.Some? && dc.macvlan.value.mode.Some? ==>
       var mode := dc.macvlan.value.mode.value;
       mode == "bridge" || mode == "private" || mode == "vepa" || mode == "passthru" || mode == "source")
  }

  /**
   With the two configurators, exactly this is published: a listed NIC that can be moved, for a
   configuration of type HostDevice or of no type; a listed NIC that can have a macvlan, for one of type
   Macvlan; and nothing for any other type.
   */
  lemma PublishedExactly(w: World, networks: seq<DeviceNetwork>, o: Origin)
    requires HasBothConfigurators(w) && InRange(networks, o)
    requires UniqueSelectorNames(networks[o.network].deviceSelectors)
    ensures var net := networks[o.network];
            var dc := net.deviceConfigurations[o.configuration];
            IsPublished(w, networks, o) <==>
              o.nic in w.store && IsListed(w, net, dc, w.store[o.nic]) &&
              if dc.deviceType.None? || dc.deviceType.value == "HostDevice" then CanMove(w.store[o.nic].spec)
              else dc.deviceType.value == "Macvlan" && CanHaveMacvlan(w.store[o.nic].spec, dc)
  {
    PublishedDeclaratively(w, networks, o);
    var net := networks[o.network];
    var dc := net.deviceConfigurations[o.configuration];
    if o.nic in w.store {
      ListsIsListed(w, net, dc, w.store[o.nic]);
      ExposesExactly(w, dc, w.store[o.nic]);
    }
  }

  lemma {:induction false} ListsIsListed(w: World, net: DeviceNetwork, dc: DeviceConfiguration, d: HostDevice)
    ensures Lists(w, net, dc, d) <==> IsListed(w, net, dc, d)
  {
    if Lists(w, net, dc, d) {
      var s :| s in net.deviceSelectors && s.name in dc.deviceSelectors && AppliesToNode(w, s) && d in Selected(w, s);
      var k :| 0 <= k < |net.deviceSelectors| && net.deviceSelectors[k] == s;
    }
  }

  lemma {:induction false} ExposesExactly(w: World, dc: DeviceConfiguration, d: HostDevice)
    requires HasBothConfigurators(w)
    ensures Exposes(w, dc, d) <==>
              if dc.deviceType.None? || dc.deviceType.value == "HostDevice" then CanMove(d.spec)
              else dc.deviceType.value == "Macvlan" && CanHaveMacvlan(d.spec, dc)
  {
  }

  /** The whole device that is published, to the last field. */
  lemma DeviceExactly(w: World, networks: seq<DeviceNetwork>, o: Origin)
    requires HasBothConfigurators(w) && KeyedByName(w.store) && IsPublished(w, networks, o)
    ensures var net := networks[o.network];
            var dc := net.deviceConfigurations[o.configuration];
            var isMacvlan := dc.deviceType == Some("Macvlan");
            DeviceAt(w, networks, o) == Device(
              net.name + "-" + dc.name + "-" + o.nic,
              map[
                "devicenetwork.io/deviceType" := if isMacvlan then "Macvlan" else "HostDevice",
                "multinetwork.networking.x-k8s.io/podNetwork" := net.name,
                "multinetwork.networking.x-k8s.io/podNetworkKind" := w.podNetworkKind,
                "devicenetwork.io/deviceConfiguration" := dc.name,
                "devicenetwork.io/hostDeviceName" := o.nic],
              if isMacvlan then map["devicenetwork.io/maxVirtualInterfaces" := Capacity(65535, 1, [1])] else map[],
              isMacvlan,
              [Consumption(o.nic, map["mutual-exclusion" := if isMacvlan then 1 else 65536])])
  {
  }

  /** Two runs over the same inputs publish the same devices, whatever order the maps were walked in. */
  lemma OrderDoesNotMatter(w: World, networks: seq<DeviceNetwork>,
      origins: seq<Origin>, devices: seq<Device>, origins': seq<Origin>, devices': seq<Device>)
    requires Publishes(w, networks, origins, devices) && Publishes(w, networks, origins', devices')
    ensures multiset(devices) == multiset(devices')
  {
    SameSetSameCount(origins, origins');
    PermutedImage(origins, devices, origins', devices');
  }

  lemma {:induction false} NoDuplicatesCounts<T>(s: seq<T>)
    requires NoDuplicates(s)
    ensures forall x :: multiset(s)[x] == if x in s then 1 else 0
  {
    if s != [] {
      var n := |s| - 1;
      NoDuplicatesCounts(s[..n]);
      assert s == s[..n] + [s[n]];
    }
  }

  lemma SameSetSameCount<T>(s: seq<T>, t: seq<T>)
    requires NoDuplicates(s) && NoDuplicates(t) && forall x :: x in s <==> x in t
    ensures multiset(s) == multiset(t)
  {
    NoDuplicatesCounts(s);
    NoDuplicatesCounts(t);
  }

  /** Equal entries of a and a' stand over equal entries of b and b'. */
  ghost predicate SameImage<A, B>(a: seq<A>, b: seq<B>, a': seq<A>, b': seq<B>) {
    |a| == |b| && |a'| == |b'| &&
    forall i, j :: 0 <= i < |a| && 0 <= j < |a'| && a[i] == a'[j] ==> b[i] == b'[j]
  }

  function Without<T>(s: seq<T>, k: nat): seq<T>
    requires k < |s|
  {
    s[..k] + s[k + 1..]
  }

  lemma WithoutOne<T>(s: seq<T>, k: nat)
    requires k < |s|
    ensures multiset(s) == multiset(Without(s, k)) + multiset{s[k]}
  {
    assert s == s[..k] + [s[k]] + s[k + 1..];
  }

  lemma {:induction false} ImageWithout<A, B>(a: seq<A>, b: seq<B>, a': seq<A>, b': seq<B>, k: nat, k': nat)
    requires SameImage(a, b, a', b') && k < |a| && k' < |a'|
    ensures SameImage(Without(a, k), Without(b, k), Without(a', k'), Without(b', k'))
  {
  }

  lemma {:induction false} PermutedImage<A, B>(a: seq<A>, b: seq<B>, a': seq<A>, b': seq<B>)
    requires multiset(a) == multiset(a') && SameImage(a, b, a', b')
    ensures multiset(b) == multiset(b')
  {
    assert |a| == |multiset(a)| == |a'|;
    if a != [] {
      assert a[0] in multiset(a');
      var k :| 0 <= k < |a'| && a'[k] == a[0];
      WithoutOne(a, 0);
      WithoutOne(b, 0);
      WithoutOne(a', k);
      WithoutOne(b', k);
      assert multiset(Without(a, 0)) == multiset(a) - multiset{a[0]} == multiset(Without(a', k));
      ImageWithout(a, b, a', b', 0, k);
      PermutedImage(Without(a, 0), Without(b, 0), Without(a', k), Without(b', k));
    }
  }

  // ----- what a published device draws

  ghost predicate DrawsOnly(d: Device, nic: string, units: nat) {
    d.consumesCounters == [Consumption(nic, map[MUTUAL_EXCLUSION := units])]
  }

  /**
   A HostDevice draws the whole counter of its NIC and is not shared; a Macvlan draws one unit per share, of at most
   65535.
   */
  lemma DrawsByType(w: World, networks: seq<DeviceNetwork>, o: Origin)
    requires KeyedByName(w.store) && IsPublished(w, networks, o)
    ensures var d := DeviceAt(w, networks, o);
            (|| (d.attributes[ATTR_DEVICE_TYPE] == HOST_DEVICE && DrawsOnly(d, o.nic, COUNTER_VALUE) &&
                !d.allowMultipleAllocations)
             || (d.attributes[ATTR_DEVICE_TYPE] == MACVLAN && DrawsOnly(d, o.nic, 1) && d.allowMultipleAllocations &&
                 CAP_MAX_VIRTUAL_INTERFACES in d.capacity &&
                     d.capacity[CAP_MAX_VIRTUAL_INTERFACES] == Capacity(MAX_VIRTUAL_DEVICES, 1, [1])))
  {
  }
}
