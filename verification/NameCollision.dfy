/** The name collision that the reconciler's own comment speaks of, as two published devices. */
module NameCollision {
  import opened Wrappers
  import opened Api
  import opened Selection
  import opened Publication
  import opened Resolution

  const NIC: HostDevice := HostDevice("d", DeviceSpec("d", 2, false, 0, 0, "ether", "device"))

  /** A network with one selector, which takes every NIC, and one configuration that uses it. */
  function NetworkOf(name: string, configuration: string): DeviceNetwork {
    DeviceNetwork(name, [DeviceSelector("all", [], None)],
        [DeviceConfiguration(configuration, ["all"], None, None, false)], [])
  }

  const NETWORKS: seq<DeviceNetwork> := [NetworkOf("a-b", "c"), NetworkOf("a", "b-c")]

  /** A node with that NIC alone, and the HostDevice configurator. */
  predicate IsNode(w: World) {
    w.store == map["d" := NIC] && w.configurators == map[HOST_DEVICE := HostDeviceConfigurator]
  }

  lemma PublishesNic(w: World, i: nat)
    requires IsNode(w) && i < 2
    ensures IsPublished(w, NETWORKS, Origin(i, 0, "d"))
  {
    var selectors := [DeviceSelector("all", [], None)];
    assert NETWORKS[i].deviceSelectors == selectors && selectors[..0] == [];
    assert w.store["d"] in w.store.Values;
    assert NIC in Selected(w, selectors[0]) && selectors[0].name == "all";
    var groups, dc := ForSelector(w, selectors), NETWORKS[i].deviceConfigurations[0];
    assert dc.deviceSelectors[0] == "all" && "all" in groups && NIC in groups["all"];
    assert Collected(groups, dc, NIC);
  }

  lemma SameName(w: World)
    requires IsNode(w)
    ensures NameAt(NETWORKS, Origin(0, 0, "d")) == NameAt(NETWORKS, Origin(1, 0, "d"))
  {
    assert DeviceName("a-b", "c", "d") == "a-b-c-d" == DeviceName("a", "b-c", "d");
  }

  lemma NamesAreUnique()
    ensures UniqueNames(NETWORKS)
  {
  }

  lemma NamesAreNotPrefixFree()
    ensures !PrefixFree(NETWORKS)
  {
    var o, o' := Origin(1, 0, "d"), Origin(0, 0, "d");
    assert InRange(NETWORKS, o) && InRange(NETWORKS, o');
    assert PrefixAt(NETWORKS, 1, 0) == "a-b-c-" == PrefixAt(NETWORKS, 0, 0);
  }

  /** The first device that has the name of device k. */
  lemma {:induction false} FirstOfName(devices: seq<Device>, k: nat) returns (first: nat)
    requires k < |devices|
    ensures first <= k && devices[first].name == devices[k].name
    ensures forall m :: 0 <= m < first ==> devices[m].name != devices[k].name
    decreases k
  {
    first := k;
    if m: nat :| m < k && devices[m].name == devices[k].name {
      first := FirstOfName(devices, m);
    }
  }

  lemma ConfigurationIsFound(o: Origin)
    requires InRange(NETWORKS, o)
    ensures OnlyConfiguration(NETWORKS, o)
  {
    NamesAreUnique();
    ConfigurationIsOnly(NETWORKS, o);
  }

  /**
   Networks "a-b" and "a", with configurations "c" and "b-c" and otherwise unobjectionable, publish the
   NIC "d" twice under one name, and the name of both devices resolves to what one of them was published
   for: asked for the other one's device, the resolver gives a network and a configuration it is not of.
   */
  lemma TwoDevicesOneName(w: World, origins: seq<Origin>, devices: seq<Device>, pool: Slice, src: Sources)
      returns (given: Origin, asked: Origin)
    requires IsNode(w) && Publishes(w, NETWORKS, origins, devices)
    requires pool.devices == devices && ListsAll(NETWORKS, src) && src.store == w.store &&
        src.podNetworkKind == w.podNetworkKind
    ensures UniqueNames(NETWORKS) && !PrefixFree(NETWORKS) && !DistinctNames(devices)
    ensures given != asked && IsPublished(w, NETWORKS, given) && IsPublished(w, NETWORKS, asked)
    ensures ResolvesTo(w, NETWORKS, pool, src, NameAt(NETWORKS, asked), given)
  {
    var o, o' := Origin(0, 0, "d"), Origin(1, 0, "d");
    PublishesNic(w, 0);
    PublishesNic(w, 1);
    SameName(w);
    NamesAreUnique();
    NamesAreNotPrefixFree();
    var first, later := TwoOfName(w, NETWORKS, origins, devices, o, o');
    given, asked := origins[first], origins[later];
    ConfigurationIsFound(given);
    FirstResolves(w, NETWORKS, origins, devices, pool, src, first);
  }

  /** Two published origins of one name give the first device of it and another one. */
  lemma TwoOfName(w: World, networks: seq<DeviceNetwork>, origins: seq<Origin>, devices: seq<Device>, o: Origin,
      o': Origin)
      returns (first: nat, later: nat)
    requires KeyedByName(w.store) && Publishes(w, networks, origins, devices)
    requires IsPublished(w, networks, o) && IsPublished(w, networks, o') && o != o' &&
        NameAt(networks, o) == NameAt(networks, o')
    ensures first < |devices| && later < |devices| && first != later && origins[first] != origins[later]
    ensures devices[first].name == devices[later].name == NameAt(networks, origins[later])
    ensures forall m :: 0 <= m < first ==> devices[m].name != devices[first].name
    ensures !DistinctNames(devices)
  {
    var j := PositionOf(w, networks, origins, devices, o);
    var k := PositionOf(w, networks, origins, devices, o');
    first := FirstOfName(devices, j);
    later := if j == first then k else j;
    assert first < later || later < first;
    PublishedIsDescribed(w, networks, origins[later]);
  }

  lemma PositionOf(w: World, networks: seq<DeviceNetwork>, origins: seq<Origin>, devices: seq<Device>, o: Origin)
      returns (k: nat)
    requires KeyedByName(w.store) && Publishes(w, networks, origins, devices) && IsPublished(w, networks, o)
    ensures k < |origins| && origins[k] == o && devices[k].name == NameAt(networks, o)
  {
    assert o in origins;
    k :| 0 <= k < |origins| && origins[k] == o;
    PublishedIsDescribed(w, networks, o);
  }
}
