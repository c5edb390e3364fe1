/**
 How many Macvlan shares a NIC can have (docs/demo.md): one Macvlan device has at most 65535, and a NIC
 stays within that exactly when at most one Macvlan device is published on it.
 */
module MacvlanBound {
  import opened Wrappers
  import opened Api
  import opened Publication
  import opened Resolution
  import opened Allocation

  ghost predicate AtMostOneMacvlan(pool: Pool, nic: string) {
    forall d, e :: d in pool.devices && e in pool.devices && IsMacvlan(d, nic) && IsMacvlan(e, nic) ==> d == e
  }

  /** Runs in which the publication stays the same. */
  ghost predicate IsRunOf(run: seq<Ledger>, actions: seq<Action>, pool: Pool) {
    IsRun(run, actions) && forall t :: 0 <= t < |run| ==> run[t].pool == pool
  }

  /** The documented bound: never more than 65535 Macvlan shares on the NIC. */
  ghost predicate BoundHolds(pool: Pool, nic: string) {
    forall run: seq<Ledger>, actions: seq<Action>, t: nat :: IsRunOf(run, actions, pool) && t < |run| ==>
      MacvlanShares(run[t].live, nic) <= MAX_VIRTUAL_DEVICES
  }

  // ----- at most one device

  /** If they are all of one device, the Macvlan shares on a NIC are the shares of that device. */
  lemma {:induction false} SharesOfOne(live: seq<Device>, nic: string, d: Device)
    requires IsMacvlan(d, nic) && forall e :: e in live && IsMacvlan(e, nic) ==> e == d
    ensures MacvlanShares(live, nic) == Shares(live, d)
  {
    if live != [] {
      var n := |live| - 1;
      assert live == live[..n] + [live[n]] && live[n] in live;
      SharesOfOne(live[..n], nic, d);
    }
  }

  lemma {:induction false} NoShares(live: seq<Device>, nic: string)
    requires forall e :: e in live ==> !IsMacvlan(e, nic)
    ensures MacvlanShares(live, nic) == 0
  {
    if live != [] { NoShares(live[..|live| - 1], nic); }
  }

  /**
   Over any run, with republications as well: a NIC on which one Macvlan device is published now has at most 65535
   shares.
   */
  lemma OneDeviceBounds(run: seq<Ledger>, actions: seq<Action>, t: nat, nic: string)
    requires IsRun(run, actions) && t < |run| && AtMostOneMacvlan(run[t].pool, nic)
    ensures MacvlanShares(run[t].live, nic) <= MAX_VIRTUAL_DEVICES
  {
    var l := run[t];
    RunKeepsInv(run, actions, t);
    if d :| d in l.live && IsMacvlan(d, nic) {
      SharesOfOne(l.live, nic, d);
    } else {
      NoShares(l.live, nic);
    }
  }

  // ----- two devices

  function Copies(d: Device, m: nat): seq<Device> { seq(m, _ => d) }

  /** Nothing but Macvlan shares on the NIC, with room for m more of d. */
  ghost predicate HasRoom(l: Ledger, d: Device, nic: string, m: nat) {
    d in l.pool.devices && IsMacvlan(d, nic) && (forall e :: e in l.live ==> !IsHostDevice(e, nic)) &&
    MacvlanShares(l.live, nic) + m <= COUNTER_VALUE && Shares(l.live, d) + m <= MAX_VIRTUAL_DEVICES
  }

  lemma OneMoreShare(l: Ledger, d: Device, nic: string, m: nat)
    requires Inv(l) && HasRoom(l, d, nic, m) && m > 0
    ensures CanAllocate(l, d) && Inv(Allocate(l, d)) && HasRoom(Allocate(l, d), d, nic, m - 1)
  {
    assert NicOf(d) == nic;
    MacvlanNeedsNoHostDevice(l, d);
    AllocateKeeps(l, d);
    assert (l.live + [d])[..|l.live|] == l.live;
    assert multiset(l.live + [d]) == multiset(l.live) + multiset{d};
  }

  lemma RunOn(run: seq<Ledger>, actions: seq<Action>, pool: Pool, d: Device)
      returns (run': seq<Ledger>, actions': seq<Action>)
    requires IsRunOf(run, actions, pool) && CanAllocate(run[|run| - 1], d)
    ensures IsRunOf(run', actions', pool) && run'[|run'| - 1] == Allocate(run[|run| - 1], d)
  {
    run', actions' := run + [Allocate(run[|run| - 1], d)], actions + [AllocateIt(d)];
    forall i | 0 <= i < |actions'| ensures NextAt(run', actions', i) {
      if i < |actions| { assert NextAt(run, actions, i); }
    }
  }

  lemma {:induction false} RunOnWithOne(run: seq<Ledger>, actions: seq<Action>, pool: Pool, d: Device, nic: string,
      m: nat)
      returns (run': seq<Ledger>, actions': seq<Action>)
    requires IsRunOf(run, actions, pool) && HasRoom(run[|run| - 1], d, nic, m) && m > 0
    ensures IsRunOf(run', actions', pool) && HasRoom(run'[|run'| - 1], d, nic, m - 1)
    ensures run'[|run'| - 1].live == run[|run| - 1].live + [d]
  {
    RunKeepsInv(run, actions, |run| - 1);
    OneMoreShare(run[|run| - 1], d, nic, m);
    run', actions' := RunOn(run, actions, pool, d);
  }

  /** A run can go on with m more shares of d. */
  lemma {:induction false} RunOnWith(run: seq<Ledger>, actions: seq<Action>, pool: Pool, d: Device, nic: string, m: nat)
      returns (run': seq<Ledger>, actions': seq<Action>)
    requires IsRunOf(run, actions, pool) && HasRoom(run[|run| - 1], d, nic, m)
    ensures IsRunOf(run', actions', pool) && run'[|run'| - 1].live == run[|run| - 1].live + Copies(d, m)
    decreases m
  {
    run', actions' := run, actions;
    if m > 0 {
      run', actions' := RunOnWithOne(run, actions, pool, d, nic, m);
      run', actions' := RunOnWith(run', actions', pool, d, nic, m - 1);
      assert [d] + Copies(d, m - 1) == Copies(d, m);
    }
  }

  lemma {:induction false} SharesOfCopies(d: Device, m: nat, nic: string, e: Device)
    requires IsMacvlan(d, nic)
    ensures MacvlanShares(Copies(d, m), nic) == m && Shares(Copies(d, m), e) == if e == d then m else 0
  {
    if m > 0 {
      assert Copies(d, m)[..m - 1] == Copies(d, m - 1);
      assert Copies(d, m) == Copies(d, m - 1) + [d];
      SharesOfCopies(d, m - 1, nic, e);
    }
  }

  /** Two Macvlan devices on one NIC: 65535 shares of the one and one of the other can be live together. */
  lemma TwoDevicesReach65536(pool: Pool, d: Device, e: Device, nic: string)
      returns (run: seq<Ledger>, actions: seq<Action>)
    requires WellPublished(pool) && d in pool.devices && e in pool.devices && d != e && IsMacvlan(d, nic) &&
        IsMacvlan(e, nic)
    ensures IsRunOf(run, actions, pool) && MacvlanShares(run[|run| - 1].live, nic) == COUNTER_VALUE
  {
    run, actions := [Start(pool)], [];
    run, actions := RunOnWith(run, actions, pool, d, nic, MAX_VIRTUAL_DEVICES);
    var full := Copies(d, MAX_VIRTUAL_DEVICES);
    assert run[|run| - 1].live == full;
    SharesOfCopies(d, MAX_VIRTUAL_DEVICES, nic, e);
    run, actions := RunOnWith(run, actions, pool, e, nic, 1);
    var live := run[|run| - 1].live;
    assert live == full + [e] && live[..|full|] == full;
  }

  /** The documented bound holds for a NIC if and only if at most one Macvlan device is published on it. */
  lemma BoundHoldsExactly(pool: Pool, nic: string)
    requires WellPublished(pool)
    ensures BoundHolds(pool, nic) <==> AtMostOneMacvlan(pool, nic)
  {
    if AtMostOneMacvlan(pool, nic) {
      forall run: seq<Ledger>, actions: seq<Action>, t: nat | IsRunOf(run, actions, pool) && t < |run|
        ensures MacvlanShares(run[t].live, nic) <= MAX_VIRTUAL_DEVICES {
        OneDeviceBounds(run, actions, t, nic);
      }
    } else {
      var d, e :| d in pool.devices && e in pool.devices && IsMacvlan(d, nic) && IsMacvlan(e, nic) && d != e;
      var run, actions := TwoDevicesReach65536(pool, d, e, nic);
      assert MacvlanShares(run[|run| - 1].live, nic) > MAX_VIRTUAL_DEVICES;
    }
  }

  // ----- in terms of the networks

  ghost predicate PublishesMacvlan(w: World, networks: seq<DeviceNetwork>, o: Origin) {
    IsPublished(w, networks, o) && IsMacvlan(DeviceAt(w, networks, o), o.nic)
  }

  ghost predicate OneMacvlanConfiguration(w: World, networks: seq<DeviceNetwork>, nic: string) {
    forall o, o' :: PublishesMacvlan(w, networks, o) && PublishesMacvlan(w, networks, o') && o.nic == nic == o'.nic ==>
        o == o'
  }

  /**
   With unique names, the bound holds for what getResources publishes if and only if one configuration at most
   publishes the NIC as Macvlan.
   */
  lemma BoundHoldsForNetworks(w: World, networks: seq<DeviceNetwork>, origins: seq<Origin>, pool: Pool, nic: string)
    requires KeyedByName(w.store) && UniqueNames(networks)
    requires Publishes(w, networks, origins, pool.devices) && CountersFor(pool.devices, pool.counters)
    ensures BoundHolds(pool, nic) <==> OneMacvlanConfiguration(w, networks, nic)
  {
    GetResourcesIsWellPublished(w, networks, origins, pool);
    BoundHoldsExactly(pool, nic);
    if OneMacvlanConfiguration(w, networks, nic) { OneConfigurationOneDevice(w, networks, origins, pool, nic); }
    if AtMostOneMacvlan(pool, nic) { OneDeviceOneConfiguration(w, networks, origins, pool, nic); }
  }

  lemma {:induction false} OneConfigurationOneDevice(w: World, networks: seq<DeviceNetwork>, origins: seq<Origin>,
      pool: Pool, nic: string)
    requires KeyedByName(w.store) && Publishes(w, networks, origins, pool.devices) &&
        OneMacvlanConfiguration(w, networks, nic)
    ensures AtMostOneMacvlan(pool, nic)
  {
    forall d, e | d in pool.devices && e in pool.devices && IsMacvlan(d, nic) && IsMacvlan(e, nic) ensures d == e {
      var j :| 0 <= j < |pool.devices| && pool.devices[j] == d;
      var k :| 0 <= k < |pool.devices| && pool.devices[k] == e;
      NicOfOrigin(w, networks, origins[j]);
      NicOfOrigin(w, networks, origins[k]);
      assert PublishesMacvlan(w, networks, origins[j]) && PublishesMacvlan(w, networks, origins[k]);
    }
  }

  lemma {:induction false} OneDeviceOneConfiguration(w: World, networks: seq<DeviceNetwork>, origins: seq<Origin>,
      pool: Pool, nic: string)
    requires KeyedByName(w.store) && UniqueNames(networks)
    requires Publishes(w, networks, origins, pool.devices) && AtMostOneMacvlan(pool, nic)
    ensures OneMacvlanConfiguration(w, networks, nic)
  {
    forall o, o' | PublishesMacvlan(w, networks, o) && PublishesMacvlan(w, networks, o') && o.nic == nic == o'.nic
      ensures o == o' {
      IsAmong(w, networks, origins, pool.devices, o);
      IsAmong(w, networks, origins, pool.devices, o');
      SameDeviceSameOrigin(w, networks, o, o');
    }
  }

  lemma NicOfOrigin(w: World, networks: seq<DeviceNetwork>, o: Origin)
    requires KeyedByName(w.store) && IsPublished(w, networks, o)
    ensures NicOf(DeviceAt(w, networks, o)) == o.nic
  {
    DrawsByType(w, networks, o);
  }

  lemma IsAmong(w: World, networks: seq<DeviceNetwork>, origins: seq<Origin>, devices: seq<Device>, o: Origin)
    requires Publishes(w, networks, origins, devices) && IsPublished(w, networks, o)
    ensures DeviceAt(w, networks, o) in devices
  {
    assert o in origins;
    var k :| 0 <= k < |origins| && origins[k] == o;
    assert devices[k] in devices;
  }
}
