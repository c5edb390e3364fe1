/** From a published device to the configurator that sets it up in a pod. */
module EndToEnd {
  import opened Wrappers
  import opened Api
  import opened Publication
  import opened Resolution
  import opened Sequences
  import P = Preparation
  import C = ConfigurationProcess
  import V = Validation
  import M = ProcessMachine

  /** The driver's resolver answers an allocation result by what the index and the lister give for it. */
  ghost predicate ResolvesFrom(env: P.Env, slices: set<Slice>, src: Sources, n: nat, a: P.AllocationResult) {
    match env.answers.resolve(n, a)
    case Err(_) => true
    case Ok(None) => false
    case Ok(Some(r)) =>
      exists s ::
        s in Indexed(slices, DeviceId(a.driver, a.pool, a.device)) && ResolveIn(s, a.device, src).Ok? &&
        var v := ResolveIn(s, a.device, src).value;
        r == P.ResolvedDevice(Some(a), Some(v.device), Some(v.configuration), Some(v.network), v.host)
  }

  /** The slot calls the configurator of the device type published under the name. */
  ghost predicate CallsPublished(devices: seq<Device>, name: string, slot: M.Slot) {
    exists d :: d in devices && d.name == name && ATTR_DEVICE_TYPE in d.attributes &&
        slot == M.Call(d.attributes[ATTR_DEVICE_TYPE])
  }

  /**
   Type consistency: while the networks are unchanged and configuration names are unique within a
   network, the configurator that is called for a prepared device is the one of the device type
   published under its name.
   */
  lemma ConfiguredAsPublished(w: World, networks: seq<DeviceNetwork>, origins: seq<Origin>, devices: seq<Device>,
      slices: set<Slice>, src: Sources, env: P.Env, n: nat, a: P.AllocationResult)
    requires KeyedByName(w.store) && KeyedByName(src.store) && DevicesOf(w, networks, origins, devices) &&
        UniqueNames(networks)
    requires HoldsPool(slices, env.driverName, w.nodeName, devices) && ListsAll(networks, src)
    requires a.driver == env.driverName && a.pool == w.nodeName && ResolvesFrom(env, slices, src, n, a)
    requires P.PrepareResult(env, n, a).Ok?
    ensures CallsPublished(devices, a.device,
        C.SlotOf(env.driverName, env.configurators, P.PrepareResult(env, n, a).value.status))
  {
    var r := env.answers.resolve(n, a).value.value;
    var s :| s in Indexed(slices, DeviceId(a.driver, a.pool, a.device)) && ResolveIn(s, a.device, src).Ok? &&
      var v := ResolveIn(s, a.device, src).value;
      r == P.ResolvedDevice(Some(a), Some(v.device), Some(v.configuration), Some(v.network), v.host);
    TypeIsPublishedType(w, networks, origins, devices, env.driverName, slices, src, a.device, s);
    ResultIsRead(s, a.device, src);
    var d := ResolveIn(s, a.device, src).value.device;
    assert s.devices == devices;
    assert d in devices && d.name == a.device;
    SlotOfPrepared(env, n, a);
  }

  /** A prepared status makes configureResourceClaim call the configurator of the resolved configuration's type. */
  lemma SlotOfPrepared(env: P.Env, n: nat, a: P.AllocationResult)
    requires P.PrepareResult(env, n, a).Ok? &&
        env.answers.resolve(n, a).value.value.result.value.driver == env.driverName
    ensures C.SlotOf(env.driverName, env.configurators, P.PrepareResult(env, n, a).value.status) ==
            M.Call(GetDeviceType(env.answers.resolve(n, a).value.value.configuration.value))
  {
  }

  /** The slots at which configureResourceClaim does something. */
  function Active(claim: M.Claim): M.Claim { Filtered(claim, (slot: M.Slot) => !slot.Skip?) }

  lemma {:induction false} ActiveAppend(a: M.Claim, b: M.Claim)
    ensures Active(a + b) == Active(a) + Active(b)
  {
    FilteredAppend(a, b, (slot: M.Slot) => !slot.Skip?);
  }

  lemma {:induction false} AllSkip(claim: M.Claim)
    requires forall k :: 0 <= k < |claim| ==> claim[k].Skip?
    ensures Active(claim) == []
  {
    if claim != [] { AllSkip(claim[..|claim| - 1]); }
  }

  lemma {:induction false} NoneSkips(claim: M.Claim)
    requires forall k :: 0 <= k < |claim| ==> !claim[k].Skip?
    ensures Active(claim) == claim
  {
    if claim != [] { NoneSkips(claim[..|claim| - 1]); }
  }

  lemma {:induction false} OthersAreOthers(statuses: seq<P.DeviceStatus>, driver: string)
    ensures forall s :: s in P.Others(statuses, driver) ==> s.driver != driver
  {
    FilteredMembers(statuses, P.IsNotOf(driver));
  }

  lemma {:induction false} OwnAreOwn(results: seq<P.AllocationResult>, driver: string)
    ensures forall a :: a in P.Own(results, driver) ==> a.driver == driver
  {
    FilteredMembers(results, P.IsOf(driver));
  }

  /** In a stored claim, only the statuses of the preparation are not skipped. */
  lemma {:induction false} ActiveOfStored(env: P.Env, current: seq<P.DeviceStatus>, updates: seq<P.DeviceStatus>)
    requires forall k :: 0 <= k < |updates| ==> updates[k].driver == env.driverName
    ensures Active(C.SlotsOf(env.driverName, env.configurators, P.Applied(current, env.driverName, updates))) ==
            C.SlotsOf(env.driverName, env.configurators, updates)
  {
    var others := P.Others(current, env.driverName);
    var before, after := C.SlotsOf(env.driverName, env.configurators, others),
        C.SlotsOf(env.driverName, env.configurators, updates);
    OthersAreOthers(current, env.driverName);
    forall k | 0 <= k < |before| ensures before[k].Skip? { assert others[k] in others; }
    AllSkip(before);
    NoneSkips(after);
    ActiveAppend(before, after);
    SlotsAppend(env, others, updates);
  }

  lemma {:induction false} SlotsAppend(env: P.Env, a: seq<P.DeviceStatus>, b: seq<P.DeviceStatus>)
    ensures C.SlotsOf(env.driverName, env.configurators, a + b) ==
            C.SlotsOf(env.driverName, env.configurators, a) + C.SlotsOf(env.driverName, env.configurators, b)
  {
  }

  /** Each of these results is of the node's pool and is resolved from the slices. */
  ghost predicate ResolvesAll(env: P.Env, slices: set<Slice>, src: Sources, nodeName: string,
      own: seq<P.AllocationResult>) {
    forall i :: 0 <= i < |own| ==> own[i].pool == nodeName && ResolvesFrom(env, slices, src, i, own[i])
  }

  /** The status of result i calls the configurator of the type published under its name. */
  lemma {:induction false} UpdateCallsPublished(w: World, networks: seq<DeviceNetwork>, origins: seq<Origin>,
      devices: seq<Device>, slices: set<Slice>, src: Sources, env: P.Env, results: seq<P.AllocationResult>,
      prepared: seq<P.Prepared>, i: nat)
    requires KeyedByName(w.store) && KeyedByName(src.store) && DevicesOf(w, networks, origins, devices) &&
        UniqueNames(networks)
    requires HoldsPool(slices, env.driverName, w.nodeName, devices) && ListsAll(networks, src)
    requires P.PreparesAll(env, results, prepared) && i < |prepared|
    requires ResolvesAll(env, slices, src, w.nodeName, P.Own(results, env.driverName))
    ensures prepared[i].status.driver == env.driverName
    ensures CallsPublished(devices, P.Own(results, env.driverName)[i].device,
                           C.SlotOf(env.driverName, env.configurators, prepared[i].status))
  {
    var own := P.Own(results, env.driverName);
    OwnAreOwn(results, env.driverName);
    assert own[i] in own && P.PrepareResult(env, i, own[i]) == Ok(prepared[i]);
    DriverOfPrepared(w, slices, src, env, i, own[i]);
    ConfiguredAsPublished(w, networks, origins, devices, slices, src, env, i, own[i]);
  }

  /**
   Type consistency of the stored claim: what configureResourceClaim does with a claim stored by a
   preparation is, in order, one call for each of the driver's results, of the configurator of the
   device type published under that result's device name.
   */
  lemma {:induction false} StoredCallsPublished(w: World, networks: seq<DeviceNetwork>, origins: seq<Origin>,
      devices: seq<Device>, slices: set<Slice>, src: Sources, env: P.Env, statuses: map<string, seq<P.DeviceStatus>>,
      claim: P.Claim, stored: P.Claim)
    requires KeyedByName(w.store) && KeyedByName(src.store) && DevicesOf(w, networks, origins, devices) &&
        UniqueNames(networks)
    requires HoldsPool(slices, env.driverName, w.nodeName, devices) && ListsAll(networks, src)
    requires P.IsPrepared(env, statuses, claim, stored)
    requires ResolvesAll(env, slices, src, w.nodeName, P.Own(claim.allocation.value, env.driverName))
    ensures var own := P.Own(claim.allocation.value, env.driverName);
            var calls := Active(C.SlotsOf(env.driverName, env.configurators, stored.devices));
            |calls| == |own| && forall i :: 0 <= i < |own| ==> CallsPublished(devices, own[i].device, calls[i])
  {
    var results := claim.allocation.value;
    var prepared: seq<P.Prepared> :| P.PreparesAll(env, results, prepared) &&
        stored == P.Updated(env, statuses, claim, prepared);
    forall i | 0 <= i < |prepared|
      ensures prepared[i].status.driver == env.driverName
      ensures CallsPublished(devices, P.Own(results, env.driverName)[i].device,
                             C.SlotOf(env.driverName, env.configurators, prepared[i].status))
    {
      UpdateCallsPublished(w, networks, origins, devices, slices, src, env, results, prepared, i);
    }
    ActiveOfStored(env, if claim.uid in statuses then statuses[claim.uid] else claim.devices, P.Statuses(prepared));
  }

  lemma DriverOfPrepared(w: World, slices: set<Slice>, src: Sources, env: P.Env, n: nat, a: P.AllocationResult)
    requires ResolvesFrom(env, slices, src, n, a) && P.PrepareResult(env, n, a).Ok?
    ensures P.PrepareResult(env, n, a).value.status.driver == a.driver
  {
  }

  /** Networks that validate, under distinct names. */
  ghost predicate Valid(nodeCheck: V.NodeCheck, networks: seq<DeviceNetwork>) {
    (forall n :: n in networks ==> V.SelectorsErrors(nodeCheck, n) + V.ConfigurationsErrors(n) == []) &&
    forall i, j :: 0 <= i < j < |networks| ==> networks[i].name != networks[j].name
  }

  /** Validation gives what publication and resolution ask of the networks. */
  lemma ValidNetworksHaveUniqueNames(nodeCheck: V.NodeCheck, networks: seq<DeviceNetwork>)
    requires Valid(nodeCheck, networks)
    ensures UniqueNames(networks)
    ensures forall n :: n in networks ==> UniqueSelectorNames(n.deviceSelectors)
  {
    forall n | n in networks ensures V.WellFormed(nodeCheck, n) { V.SoundAndComplete(nodeCheck, n); }
    forall i, j, k | 0 <= i < |networks| && 0 <= j < k < |networks[i].deviceConfigurations|
      ensures networks[i].deviceConfigurations[j].name != networks[i].deviceConfigurations[k].name
    {
      assert networks[i] in networks;
    }
  }

  /**
   The publish and resolve round trip for networks that validate: when no network or configuration
   name contains a dash, published names differ and each resolves to exactly what it was published for.
   */
  lemma ValidNetworksRoundTrip(nodeCheck: V.NodeCheck, w: World, networks: seq<DeviceNetwork>, origins: seq<Origin>,
      devices: seq<Device>, driver: string, slices: set<Slice>, src: Sources, o: Origin)
    requires Valid(nodeCheck, networks) && NoDashes(networks)
    requires KeyedByName(w.store) && Publishes(w, networks, origins, devices)
    requires HoldsPool(slices, driver, w.nodeName, devices) && ListsAll(networks, src)
    requires src.store == w.store && src.podNetworkKind == w.podNetworkKind
    requires IsPublished(w, networks, o)
    ensures DistinctNames(devices)
    ensures var pool := Slice(driver, w.nodeName, devices);
            Indexed(slices, DeviceId(driver, w.nodeName, NameAt(networks, o))) == {pool} &&
            ResolvesToItself(w, networks, pool, src, o)
  {
    ValidNetworksHaveUniqueNames(nodeCheck, networks);
    NoDashesArePrefixFree(networks);
    RoundTrip(w, networks, origins, devices, driver, slices, src, o);
    PublishedNamesDiffer(w, networks, origins, devices);
  }
}
