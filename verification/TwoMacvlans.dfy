/** Networks that let one NIC have more Macvlan shares than documented. */
module TwoMacvlans {
  import opened Wrappers
  import opened Api
  import opened Selection
  import opened Publication
  import opened Resolution
  import opened Allocation
  import opened MacvlanBound

  const NIC: HostDevice := HostDevice("d", DeviceSpec("d", 2, false, 0, 0, "ether", "device"))

  function MacvlanOf(name: string): DeviceConfiguration {
    DeviceConfiguration(name, ["all"], Some(MACVLAN), None, false)
  }

  /** One network whose two Macvlan configurations, of the default mode, use one selector that takes every NIC. */
  const NETWORKS: seq<DeviceNetwork> :=
    [DeviceNetwork("net", [DeviceSelector("all", [], None)], [MacvlanOf("m1"), MacvlanOf("m2")], [])]

  /** A node with that NIC alone, and the Macvlan configurator. */
  predicate IsNode(w: World) {
    w.store == map["d" := NIC] && w.configurators == map[MACVLAN := MacvlanConfigurator]
  }

  lemma PublishesNic(w: World, j: nat)
    requires IsNode(w) && j < 2
    ensures IsPublished(w, NETWORKS, Origin(0, j, "d"))
  {
    var selectors := [DeviceSelector("all", [], None)];
    assert NETWORKS[0].deviceSelectors == selectors && selectors[..0] == [];
    assert w.store["d"] in w.store.Values;
    assert NIC in Selected(w, selectors[0]) && selectors[0].name == "all";
    var groups, dc := ForSelector(w, selectors), NETWORKS[0].deviceConfigurations[j];
    assert dc.deviceSelectors[0] == "all" && "all" in groups && NIC in groups["all"];
    assert Collected(groups, dc, NIC);
  }

  lemma IsPublishedMacvlan(w: World, j: nat)
    requires IsNode(w) && j < 2
    ensures PublishesMacvlan(w, NETWORKS, Origin(0, j, "d"))
  {
    PublishesNic(w, j);
    DrawsByType(w, NETWORKS, Origin(0, j, "d"));
    PublishedIsDescribed(w, NETWORKS, Origin(0, j, "d"));
  }

  lemma NamesAreUnique()
    ensures UniqueNames(NETWORKS)
  {
  }

  /** What getResources publishes for them does not keep the documented bound: a run gets to 65536 shares of the NIC. */
  lemma NetworksReach65536(w: World, origins: seq<Origin>, pool: Pool) returns (run: seq<Ledger>, actions: seq<Action>)
    requires IsNode(w) && Publishes(w, NETWORKS, origins, pool.devices) && CountersFor(pool.devices, pool.counters)
    ensures UniqueNames(NETWORKS) && !BoundHolds(pool, "d")
    ensures IsRunOf(run, actions, pool) && MacvlanShares(run[|run| - 1].live, "d") == COUNTER_VALUE
  {
    var o, o' := Origin(0, 0, "d"), Origin(0, 1, "d");
    IsPublishedMacvlan(w, 0);
    IsPublishedMacvlan(w, 1);
    NamesAreUnique();
    GetResourcesIsWellPublished(w, NETWORKS, origins, pool);
    IsAmong(w, NETWORKS, origins, pool.devices, o);
    IsAmong(w, NETWORKS, origins, pool.devices, o');
    if DeviceAt(w, NETWORKS, o) == DeviceAt(w, NETWORKS, o') { SameDeviceSameOrigin(w, NETWORKS, o, o'); }
    run, actions := TwoDevicesReach65536(pool, DeviceAt(w, NETWORKS, o), DeviceAt(w, NETWORKS, o'), "d");
    BoundHoldsExactly(pool, "d");
  }
}
