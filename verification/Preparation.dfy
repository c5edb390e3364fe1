/** From the allocation of a claim to its status and to the store (pkg/driver/driver.go, pkg/store/memory.go). */
module Preparation {
  import opened Wrappers
  import opened Api
  import opened Sequences

  // ----- claims

  datatype AllocationResult = AllocationResult(driver: string, pool: string, device: string, request: string,
      shareId: Option<string>)

  datatype NetworkData = NetworkData(interfaceName: string, ips: seq<string>)

  /** The status payload; its JSON form is taken to be faithful. */
  datatype Payload = Payload(podNetworkKind: string, podNetworkName: string, host: HostDevice,
      configuration: Option<DeviceConfiguration>)

  datatype DeviceStatus = DeviceStatus(
    driver: string, pool: string, device: string, shareId: Option<string>,
    data: Option<Payload>, networkData: NetworkData)

  datatype Claim = Claim(uid: string, reservedFor: seq<string>, allocation: Option<seq<AllocationResult>>,
      devices: seq<DeviceStatus>)

  datatype KubeletDevice = KubeletDevice(
    request: string, pool: string, device: string, attributes: map<string, string>,
    networkData: NetworkData, shareId: Option<string>)

  /** A resolved device as the driver gets it: any part but the NIC may be missing. */
  datatype ResolvedDevice = ResolvedDevice(
    result: Option<AllocationResult>,
    exposed: Option<Device>,
    configuration: Option<DeviceConfiguration>,
    network: Option<DeviceNetwork>,
    host: HostDevice)

  /**
   What the resolver answers, and what network data the Allocate of a device type chooses, during the
   preparation of one claim: both may differ from one of its results (the number) to the next, and from
   one claim to the next. The two configurators change nothing else in a status.
   */
  datatype Answers = Answers(
    resolve: (nat, AllocationResult) -> Result<Option<ResolvedDevice>, string>,
    allocate: (nat, string, ResolvedDevice) -> Result<NetworkData, string>)

  /** All that the preparation of one claim depends on. */
  datatype Env = Env(driverName: string, podNetworkKind: string, configurators: set<string>, answers: Answers)

  datatype Prepared = Prepared(device: KubeletDevice, status: DeviceStatus)

  /** allocateDevice. */
  function AllocateDevice(env: Env, n: nat, resolved: Option<ResolvedDevice>): Result<Prepared, string> {
    if resolved.None? then Err("resolved device is nil") else
    var r := resolved.value;
    if r.result.None? then Err("device request allocation result is nil for resolved device") else
    if r.exposed.None? then Err("exposed device is nil for resolved device") else
    if r.configuration.None? then Err("device configuration is nil for resolved device") else
    if r.network.None? then Err("device network is nil for resolved device") else
    var a := r.result.value;
    var deviceType := GetDeviceType(r.configuration.value);
    if deviceType !in env.configurators then Err("no configurator found for device type") else
    match env.answers.allocate(n, deviceType, r)
    case Err(e) => Err("failed to allocate device")
    case Ok(networkData) =>
      Ok(Prepared(
        KubeletDevice(a.request, a.pool, a.device, r.exposed.value.attributes, networkData, a.shareId),
        DeviceStatus(a.driver, a.pool, a.device, a.shareId,
                     Some(Payload(env.podNetworkKind, r.network.value.name, r.host, r.configuration)), networkData)))
  }

  /** Resolve, then allocate, one allocation result. */
  function PrepareResult(env: Env, n: nat, a: AllocationResult): Result<Prepared, string> {
    match env.answers.resolve(n, a)
    case Err(e) => Err("failed to get devices for claim during allocation")
    case Ok(r) => AllocateDevice(env, n, r)
  }

  /** The allocation results of this driver, in order. */
  function Own(results: seq<AllocationResult>, driver: string): seq<AllocationResult> {
    Filtered(results, IsOf(driver))
  }

  function IsOf(driver: string): AllocationResult -> bool { (a: AllocationResult) => a.driver == driver }

  /** Each of the driver's results prepared, in order; none if one of them fails. */
  ghost predicate PreparesAll(env: Env, results: seq<AllocationResult>, prepared: seq<Prepared>) {
    var own := Own(results, env.driverName);
    |prepared| == |own| && forall i :: 0 <= i < |own| ==> PrepareResult(env, i, own[i]) == Ok(prepared[i])
  }

  /**
   The n-th result can be prepared: it resolves to a device of which no part is missing, the type of its
   configuration, HostDevice if none is given, has a configurator, and that one's Allocate succeeds.
   */
  predicate IsPreparable(env: Env, n: nat, a: AllocationResult) {
    match env.answers.resolve(n, a)
    case Ok(Some(r)) =>
      r.result.Some? && r.exposed.Some? && r.configuration.Some? && r.network.Some? &&
      var deviceType :=
        if r.configuration.value.deviceType.None? then "HostDevice" else r.configuration.value.deviceType.value;
      deviceType in env.configurators && env.answers.allocate(n, deviceType, r).Ok?
    case _ => false
  }

  lemma {:induction false} PreparableExactly(env: Env, n: nat, a: AllocationResult)
    ensures PrepareResult(env, n, a).Ok? <==> IsPreparable(env, n, a)
  {
  }

  /** The claim has one reservation and an allocation, and all of the driver's results in it can be prepared. */
  ghost predicate CanPrepare(env: Env, claim: Claim) {
    |claim.reservedFor| == 1 && claim.allocation.Some? &&
    var own := Own(claim.allocation.value, env.driverName);
    forall i :: 0 <= i < |own| ==> IsPreparable(env, i, own[i])
  }

  function Devices(prepared: seq<Prepared>): seq<KubeletDevice> {
    seq(|prepared|, i requires 0 <= i < |prepared| => prepared[i].device)
  }

  function Statuses(prepared: seq<Prepared>): seq<DeviceStatus> {
    seq(|prepared|, i requires 0 <= i < |prepared| => prepared[i].status)
  }

  // ----- the API server and the store

  /** The statuses of other drivers, in order. */
  function Others(statuses: seq<DeviceStatus>, driver: string): seq<DeviceStatus> {
    Filtered(statuses, IsNotOf(driver))
  }

  function IsNotOf(driver: string): DeviceStatus -> bool { (s: DeviceStatus) => s.driver != driver }

  /** A forced apply replaces what this driver owns in the status and leaves the rest. */
  function Applied(statuses: seq<DeviceStatus>, driver: string, updates: seq<DeviceStatus>): seq<DeviceStatus> {
    Others(statuses, driver) + updates
  }

  /** The claim with the statuses of a preparation applied. */
  function Updated(env: Env, statuses: map<string, seq<DeviceStatus>>, claim: Claim, prepared: seq<Prepared>): Claim {
    var current := if claim.uid in statuses then statuses[claim.uid] else claim.devices;
    claim.(devices := Applied(current, env.driverName, Statuses(prepared)))
  }

  class ApiServer {
    var statuses: map<string, seq<DeviceStatus>>

    /** ApplyStatus of a claim; ok is whether the server accepts it. */
    method ApplyStatus(claim: Claim, driver: string, updates: seq<DeviceStatus>, ok: bool) returns (r: Option<Claim>)
      modifies this
      ensures r.Some? <==> ok
      ensures !ok ==> statuses == old(statuses)
      ensures ok ==>
        var current := if claim.uid in old(statuses) then old(statuses)[claim.uid] else claim.devices;
        var devices := Applied(current, driver, updates);
        statuses == old(statuses)[claim.uid := devices] && r == Some(claim.(devices := devices))
    {
      if !ok {
        return None;
      }
      var devices := Applied(if claim.uid in statuses then statuses[claim.uid] else claim.devices, driver, updates);
      statuses := statuses[claim.uid := devices];
      r := Some(claim.(devices := devices));
    }
  }

  type Pods = map<string, seq<Claim>>

  function ClaimsOf(pods: Pods, pod: string): seq<Claim> { if pod in pods then pods[pod] else [] }

  predicate HasUid(claims: seq<Claim>, uid: string) { exists k :: 0 <= k < |claims| && claims[k].uid == uid }

  /** A claim already stored for the pod is not stored again. */
  function Added(pods: Pods, pod: string, claim: Claim): Pods {
    if HasUid(ClaimsOf(pods, pod), claim.uid) then pods else pods[pod := ClaimsOf(pods, pod) + [claim]]
  }

  /** What is done to the store: a claim is added for a pod, or a pod is deleted. */
  datatype Op = Stored(pod: string, claim: Claim) | Forgotten(pod: string)

  class Memory {
    var podResources: Pods
    ghost var history: seq<Op>

    constructor ()
      ensures Valid() && history == []
    {
      podResources, history := map[], [];
    }

    ghost predicate Valid()
      reads this
    {
      podResources == StoredAfter(map[], history)
    }

    method Add(pod: string, claim: Claim)
      requires Valid()
      modifies this
      ensures Valid() && history == old(history) + [Stored(pod, claim)]
      ensures podResources == Added(old(podResources), pod, claim)
    {
      assert (history + [Stored(pod, claim)])[..|history|] == history;
      history := history + [Stored(pod, claim)];
      if pod in podResources {
        var stored := podResources[pod];
        for i := 0 to |stored|
          invariant forall k :: 0 <= k < i ==> stored[k].uid != claim.uid
        {
          if claim.uid == stored[i].uid {
            return;
          }
        }
      }
      podResources := podResources[pod := ClaimsOf(podResources, pod) + [claim]];
    }

    /** What a pod gets: the first version of each claim added for it since it was last deleted, in arrival order. */
    method Get(pod: string) returns (claims: seq<Claim>)
      requires Valid()
      ensures claims == FirstVersions(history, |history|, pod)
    {
      StoreKeepsFirstVersions(history, pod);
      claims := if pod in podResources then podResources[pod] else [];
    }

    method Delete(pod: string)
      requires Valid()
      modifies this
      ensures Valid() && history == old(history) + [Forgotten(pod)]
      ensures FirstVersions(history, |history|, pod) == []
      ensures forall other :: other != pod ==> ClaimsOf(podResources, other) == ClaimsOf(old(podResources), other)
    {
      assert (history + [Forgotten(pod)])[..|history|] == history;
      history := history + [Forgotten(pod)];
      podResources := podResources - {pod};
    }
  }

  // ----- the driver

  class Driver {
    const driverName: string
    const podNetworkKind: string
    const configurators: set<string>
    const store: Memory
    const api: ApiServer

    constructor (driverName: string, podNetworkKind: string, configurators: set<string>, store: Memory, api: ApiServer)
      ensures this.driverName == driverName && this.podNetworkKind == podNetworkKind &&
          this.configurators == configurators
      ensures this.store == store && this.api == api
    {
      this.driverName, this.podNetworkKind, this.configurators := driverName, podNetworkKind, configurators;
      this.store, this.api := store, api;
    }

    function EnvOf(answers: Answers): Env { Env(driverName, podNetworkKind, configurators, answers) }

    /** The environment of each claim of a batch. */
    ghost function EnvsOf(answers: nat -> Answers): nat -> Env { (i: nat) => EnvOf(answers(i)) }

    /** The allocation loop of nodePrepareResource. */
    method AllocateAll(env: Env, results: seq<AllocationResult>) returns (prepared: Option<seq<Prepared>>)
      ensures prepared.Some? ==> PreparesAll(env, results, prepared.value)
      ensures prepared.None? ==>
        var own := Own(results, env.driverName);
        exists i :: 0 <= i < |own| && !IsPreparable(env, i, own[i])
    {
      var devices: seq<Prepared> := [];
      ghost var own := Own(results, env.driverName);
      for i := 0 to |results|
        invariant PreparesAll(env, results[..i], devices)
      {
        OwnUpTo(results, i, env.driverName);
        if results[i].driver != env.driverName {
          continue;
        }
        var n := |devices|;
        PreparableExactly(env, n, results[i]);
        var resolved := env.answers.resolve(n, results[i]);
        if resolved.Err? {
          assert !IsPreparable(env, n, own[n]);
          return None;
        }
        var one := AllocateDevice(env, n, resolved.value);
        if one.Err? {
          assert !IsPreparable(env, n, own[n]);
          return None;
        }
        devices := devices + [one.value];
      }
      assert results[..|results|] == results;
      prepared := Some(devices);
    }

    /** nodePrepareResource: on success one device and one status per result; on any failure no change at all. */
    method NodePrepareResource(claim: Claim, answers: Answers, applies: bool)
        returns (r: Result<seq<KubeletDevice>, string>)
      requires store.Valid()
      modifies store, api
      ensures store.Valid()
      ensures r.Ok? <==> CanPrepare(EnvOf(answers), claim) && applies
      ensures r.Err? ==>
        api.statuses == old(api.statuses) && store.podResources == old(store.podResources) &&
            store.history == old(store.history)
      ensures r.Ok? ==> exists prepared ::
        PreparesAll(EnvOf(answers), claim.allocation.value, prepared) && r.value == Devices(prepared) &&
        var updated := Updated(EnvOf(answers), old(api.statuses), claim, prepared);
        api.statuses == old(api.statuses)[claim.uid := updated.devices] &&
        store.podResources == Added(old(store.podResources), claim.reservedFor[0], updated) &&
        store.history == old(store.history) + [Stored(claim.reservedFor[0], updated)]
    {
      if |claim.reservedFor| != 1 {
        return Err("expected exactly one reservation for claim");
      }
      if claim.allocation.None? {
        return Err("claim status allocation is nil");
      }
      var prepared := AllocateAll(EnvOf(answers), claim.allocation.value);
      if prepared.None? {
        return Err("failed to allocate device");
      }
      var updated := api.ApplyStatus(claim, driverName, Statuses(prepared.value), applies);
      if updated.None? {
        return Err("failed to update resource claim status");
      }
      store.Add(updated.value.reservedFor[0], updated.value);
      r := Ok(Devices(prepared.value));
    }

    /** One claim of PrepareResourceClaims, with the entry the store gets from it. */
    method PrepareOne(claim: Claim, answers: Answers, applies: bool)
      returns (one: Result<seq<KubeletDevice>, string>, ghost entries: seq<Op>)
      requires store.Valid()
      modifies store, api
      ensures store.Valid() && store.history == old(store.history) + entries
      ensures IsResult(EnvOf(answers), claim, applies, one)
      ensures Records(old(api.statuses), entries, if one.Ok? then [Success(EnvOf(answers), claim)] else [])
      ensures api.statuses == StatusesAfter(old(api.statuses), entries)
    {
      ghost var statuses, env := api.statuses, EnvOf(answers);
      one := NodePrepareResource(claim, answers, applies);
      entries := [];
      if one.Ok? {
        ghost var prepared :| PreparesAll(env, claim.allocation.value, prepared) && one.value == Devices(prepared) &&
          api.statuses == statuses[claim.uid := Updated(env, statuses, claim, prepared).devices] &&
          store.history == old(store.history) + [Stored(claim.reservedFor[0], Updated(env, statuses, claim, prepared))];
        entries := [Stored(claim.reservedFor[0], Updated(env, statuses, claim, prepared))];
        OneRecord(env, statuses, claim, prepared);
      }
    }

    /**
     PrepareResourceClaims, where claim i meets answers(i): the result of a UID is that of its last claim,
     every success is stored, in order, and the statuses in the API server are those of the successes on top
     of what was there.
     */
    method PrepareResourceClaims(claims: seq<Claim>, answers: nat -> Answers, applies: nat -> bool)
      returns (result: map<string, Result<seq<KubeletDevice>, string>>, ghost entries: seq<Op>)
      requires store.Valid()
      modifies store, api
      ensures store.Valid() && store.history == old(store.history) + entries
      ensures LastResults(EnvsOf(answers), claims, applies, result)
      ensures Records(old(api.statuses), entries, Succeeding(EnvsOf(answers), claims, applies))
      ensures api.statuses == StatusesAfter(old(api.statuses), entries)
    {
      result, entries := map[], [];
      ghost var statuses, history, envs := api.statuses, store.history, EnvsOf(answers);
      for i := 0 to |claims|
        invariant store.Valid() && store.history == history + entries
        invariant LastResults(envs, claims[..i], applies, result)
        invariant Records(statuses, entries, Succeeding(envs, claims[..i], applies))
        invariant api.statuses == StatusesAfter(statuses, entries)
      {
        assert claims[..i + 1] == claims[..i] + [claims[i]];
        var one, more := PrepareOne(claims[i], answers(i), applies(i));
        RecordsOneMore(envs, statuses, entries, claims[..i], claims[i], applies, more);
        LastOneMore(envs, claims[..i], claims[i], applies, result, one);
        entries := entries + more;
        result := result[claims[i].uid := one];
      }
      assert claims[..|claims|] == claims;
    }
  }

  /** What preparing a claim gives: on success its devices, one for each of the driver's results. */
  ghost predicate IsResult(env: Env, claim: Claim, applies: bool, r: Result<seq<KubeletDevice>, string>) {
    (r.Ok? <==> CanPrepare(env, claim) && applies) &&
    (r.Ok? ==> exists prepared :: PreparesAll(env, claim.allocation.value, prepared) && r.value == Devices(prepared))
  }

  /** Each UID has the result of its last claim, and no other UID has one. */
  ghost predicate LastResults(envs: nat -> Env, claims: seq<Claim>, applies: nat -> bool,
      result: map<string, Result<seq<KubeletDevice>, string>>) {
    (forall uid :: uid in result <==> HasUid(claims, uid)) &&
    (forall i: nat, uid :: IsLast(claims, i, uid) ==>
        uid in result && IsResult(envs(i), claims[i], applies(i), result[uid]))
  }

  lemma {:induction false} LastOneMore(envs: nat -> Env, claims: seq<Claim>, claim: Claim, applies: nat -> bool,
      result: map<string, Result<seq<KubeletDevice>, string>>, one: Result<seq<KubeletDevice>, string>)
    requires LastResults(envs, claims, applies, result) && IsResult(envs(|claims|), claim, applies(|claims|), one)
    ensures LastResults(envs, claims + [claim], applies, result[claim.uid := one])
  {
    var n, claims', result' := |claims|, claims + [claim], result[claim.uid := one];
    forall i: nat, uid | IsLast(claims', i, uid)
      ensures uid in result' && IsResult(envs(i), claims'[i], applies(i), result'[uid]) {
      if i < n {
        assert claims'[n].uid != uid && forall j :: i < j < n ==> claims'[j] == claims[j];
        assert IsLast(claims, i, uid);
      }
    }
    forall uid ensures uid in result' <==> HasUid(claims', uid) {
      if uid == claim.uid {
        assert claims'[n].uid == uid;
      } else if HasUid(claims, uid) {
        var k :| 0 <= k < n && claims[k].uid == uid;
        assert claims'[k].uid == uid;
      }
    }
  }

  lemma OneRecord(env: Env, statuses: map<string, seq<DeviceStatus>>, claim: Claim, prepared: seq<Prepared>)
    requires CanPrepare(env, claim) && PreparesAll(env, claim.allocation.value, prepared)
    ensures var updated := Updated(env, statuses, claim, prepared);
            var entries := [Stored(claim.reservedFor[0], updated)];
            Records(statuses, entries, [Success(env, claim)]) &&
            StatusesAfter(statuses, entries) == statuses[claim.uid := updated.devices]
  {
    var entries, successes := [Stored(claim.reservedFor[0], Updated(env, statuses, claim, prepared))],
        [Success(env, claim)];
    assert entries[..0] == [] && successes[0] == Success(env, claim);
    assert IsPrepared(env, statuses, claim, entries[0].claim);
    assert IsRecord(statuses, entries, successes, 0);
  }

  lemma {:induction false} RecordsOneMore(envs: nat -> Env, statuses: map<string, seq<DeviceStatus>>, entries: seq<Op>,
      claims: seq<Claim>, claim: Claim, applies: nat -> bool, more: seq<Op>)
    requires Records(statuses, entries, Succeeding(envs, claims, applies))
    requires Records(StatusesAfter(statuses, entries), more, SuccessOf(envs(|claims|), claim, applies(|claims|)))
    ensures Records(statuses, entries + more, Succeeding(envs, claims + [claim], applies))
    ensures StatusesAfter(statuses, entries + more) == StatusesAfter(StatusesAfter(statuses, entries), more)
  {
    assert (claims + [claim])[..|claims|] == claims;
    var one := SuccessOf(envs(|claims|), claim, applies(|claims|));
    StatusesInTwo(statuses, entries, more);
    RecordsInTwo(statuses, entries, Succeeding(envs, claims, applies), more, one);
  }

  lemma {:induction false} StatusesInTwo(statuses: map<string, seq<DeviceStatus>>, first: seq<Op>, second: seq<Op>)
    ensures StatusesAfter(statuses, first + second) == StatusesAfter(StatusesAfter(statuses, first), second)
  {
    if second == [] {
      assert first + second == first;
    } else {
      var n := |second| - 1;
      assert (first + second)[..|first| + n] == first + second[..n];
      StatusesInTwo(statuses, first, second[..n]);
    }
  }

  lemma {:induction false} RecordsInTwo(statuses: map<string, seq<DeviceStatus>>, entries: seq<Op>,
      successes: seq<Success>, more: seq<Op>, others: seq<Success>)
    requires Records(statuses, entries, successes) && Records(StatusesAfter(statuses, entries), more, others)
    ensures Records(statuses, entries + more, successes + others)
  {
    forall k | 0 <= k < |entries + more| ensures IsRecord(statuses, entries + more, successes + others, k) {
      if k < |entries| {
        FirstRecord(statuses, entries, successes, more, others, k);
      } else {
        SecondRecord(statuses, entries, successes, more, others, k - |entries|);
      }
    }
  }

  lemma {:induction false} FirstRecord(statuses: map<string, seq<DeviceStatus>>, entries: seq<Op>,
      successes: seq<Success>, more: seq<Op>, others: seq<Success>, k: nat)
    requires |entries| == |successes| && k < |entries| && IsRecord(statuses, entries, successes, k)
    ensures |entries + more| > k && IsRecord(statuses, entries + more, successes + others, k)
  {
    assert (entries + more)[..k] == entries[..k];
  }

  lemma {:induction false} SecondRecord(statuses: map<string, seq<DeviceStatus>>, entries: seq<Op>,
      successes: seq<Success>, more: seq<Op>, others: seq<Success>, k: nat)
    requires |entries| == |successes| && |more| == |others| && k < |more|
    requires IsRecord(StatusesAfter(statuses, entries), more, others, k)
    ensures IsRecord(statuses, entries + more, successes + others, |entries| + k)
  {
    assert (entries + more)[..|entries| + k] == entries + more[..k];
    StatusesInTwo(statuses, entries, more[..k]);
  }

  /** Claim i is the last of its UID. */
  ghost predicate IsLast(claims: seq<Claim>, i: nat, uid: string) {
    i < |claims| && claims[i].uid == uid && forall j :: i < j < |claims| ==> claims[j].uid != uid
  }

  // ----- the store over whole histories

  /** A claim that is prepared, and what it met. */
  datatype Success = Success(env: Env, claim: Claim)

  ghost function SuccessOf(env: Env, claim: Claim, applies: bool): seq<Success> {
    if CanPrepare(env, claim) && applies then [Success(env, claim)] else []
  }

  /** The claims that are prepared successfully, in order. */
  ghost function Succeeding(envs: nat -> Env, claims: seq<Claim>, applies: nat -> bool): seq<Success> {
    if claims == [] then []
    else
      var n := |claims| - 1;
      Succeeding(envs, claims[..n], applies) + SuccessOf(envs(n), claims[n], applies(n))
  }

  /** stored is the claim with the statuses of its preparation applied to the ones the server had. */
  ghost predicate IsPrepared(env: Env, statuses: map<string, seq<DeviceStatus>>, claim: Claim, stored: Claim) {
    claim.allocation.Some? &&
    exists prepared ::
      PreparesAll(env, claim.allocation.value, prepared) && stored == Updated(env, statuses, claim, prepared)
  }

  /** What the API server has after these preparations. */
  function StatusesAfter(statuses: map<string, seq<DeviceStatus>>, entries: seq<Op>): map<string, seq<DeviceStatus>> {
    if entries == [] then statuses
    else
      var n := |entries| - 1;
      var before := StatusesAfter(statuses, entries[..n]);
      if entries[n].Stored? then before[entries[n].claim.uid := entries[n].claim.devices] else before
  }

  /** Entry k is the claim of success k as prepared, for the pod it is reserved for. */
  ghost predicate IsRecord(statuses: map<string, seq<DeviceStatus>>, entries: seq<Op>, successes: seq<Success>, k: int)
    requires 0 <= k < |entries| && k < |successes|
  {
    var claim := successes[k].claim;
    |claim.reservedFor| == 1 && entries[k].Stored? && entries[k].pod == claim.reservedFor[0] &&
    IsPrepared(successes[k].env, StatusesAfter(statuses, entries[..k]), claim, entries[k].claim)
  }

  ghost predicate Records(statuses: map<string, seq<DeviceStatus>>, entries: seq<Op>, successes: seq<Success>) {
    |entries| == |successes| && forall k :: 0 <= k < |successes| ==> IsRecord(statuses, entries, successes, k)
  }

  function StoredAfter(pods: Pods, history: seq<Op>): Pods {
    if history == [] then pods
    else
      var n := |history| - 1;
      var before := StoredAfter(pods, history[..n]);
      match history[n]
      case Stored(pod, claim) => Added(before, pod, claim)
      case Forgotten(pod) => before - {pod}
  }

  /** Operation j stores a claim of this UID for the pod, and the pod is not forgotten before n. */
  predicate StoresLive(history: seq<Op>, j: nat, n: nat, pod: string, uid: string)
    requires j < n <= |history|
  {
    history[j].Stored? && history[j].pod == pod && history[j].claim.uid == uid &&
    forall d :: j < d < n ==> history[d] != Forgotten(pod)
  }

  ghost predicate HasLive(history: seq<Op>, n: nat, pod: string, uid: string)
    requires n <= |history|
  {
    exists j: nat :: j < n && StoresLive(history, j, n, pod, uid)
  }

  /**
   The first versions of the claims of a pod among the first n operations, since it was last forgotten, in arrival
   order.
   */
  ghost function FirstVersions(history: seq<Op>, n: nat, pod: string): seq<Claim>
    requires n <= |history|
  {
    if n == 0 then []
    else
      var before := FirstVersions(history, n - 1, pod);
      match history[n - 1]
      case Forgotten(p) => if p == pod then [] else before
      case Stored(p, claim) => if p == pod && !HasLive(history, n - 1, pod, claim.uid) then before + [claim] else before
  }

  /** A UID is among the first versions exactly when some operation of the pod, since it was last forgotten, has it. */
  lemma {:induction false} FirstVersionsHaveAll(history: seq<Op>, n: nat, pod: string, uid: string)
    requires n <= |history|
    ensures HasUid(FirstVersions(history, n, pod), uid) <==> HasLive(history, n, pod, uid)
  {
    if n > 0 {
      var before, now := FirstVersions(history, n - 1, pod), FirstVersions(history, n, pod);
      FirstVersionsHaveAll(history, n - 1, pod, uid);
      LiveOneMore(history, n - 1, pod, uid);
      if history[n - 1].Stored? && now != before {
        assert now[|before|].uid == history[n - 1].claim.uid;
        if HasUid(before, uid) {
          var k :| 0 <= k < |before| && before[k].uid == uid;
          assert now[k].uid == uid;
        }
      }
    }
  }

  lemma {:induction false} LiveOneMore(history: seq<Op>, n: nat, pod: string, uid: string)
    requires n < |history|
    ensures HasLive(history, n + 1, pod, uid) <==>
              match history[n]
              case Forgotten(p) => p != pod && HasLive(history, n, pod, uid)
              case Stored(p, claim) => (p == pod && claim.uid == uid) || HasLive(history, n, pod, uid)
  {
    if j: nat :| j < n && StoresLive(history, j, n, pod, uid) && history[n] != Forgotten(pod) {
      assert StoresLive(history, j, n + 1, pod, uid);
    }
    if HasLive(history, n + 1, pod, uid) {
      var m := n + 1;
      var j: nat :| j < m && StoresLive(history, j, m, pod, uid);
      if j < n { assert StoresLive(history, j, n, pod, uid); }
    }
    if history[n].Stored? && history[n].pod == pod && history[n].claim.uid == uid {
      assert StoresLive(history, n, n + 1, pod, uid);
    }
  }

  /**
   Over any sequence of operations, a pod's list is the first version of each of its claims since it was last
   forgotten, in arrival order.
   */
  lemma {:induction false} StoreKeepsFirstVersions(history: seq<Op>, pod: string)
    ensures ClaimsOf(StoredAfter(map[], history), pod) == FirstVersions(history, |history|, pod)
  {
    if history != [] {
      var n := |history| - 1;
      StoreKeepsFirstVersions(history[..n], pod);
      FirstVersionsAgree(history[..n], history, n, n, pod);
      if history[n].Stored? { FirstVersionsHaveAll(history, n, pod, history[n].claim.uid); }
    }
  }

  lemma {:induction false} FirstVersionsAgree(a: seq<Op>, b: seq<Op>, m: nat, n: nat, pod: string)
    requires m <= n <= |a| && n <= |b| && a[..n] == b[..n]
    ensures FirstVersions(a, m, pod) == FirstVersions(b, m, pod)
  {
    if m > 0 {
      FirstVersionsAgree(a, b, m - 1, n, pod);
      assert forall j :: 0 <= j < m ==> a[j] == a[..n][j] == b[j];
      if a[m - 1].Stored? { LiveAgree(a, b, m - 1, pod, a[m - 1].claim.uid); }
    }
  }

  lemma {:induction false} LiveAgree(a: seq<Op>, b: seq<Op>, n: nat, pod: string, uid: string)
    requires n <= |a| && n <= |b| && forall j :: 0 <= j < n ==> a[j] == b[j]
    ensures HasLive(a, n, pod, uid) <==> HasLive(b, n, pod, uid)
  {
    if j: nat :| j < n && StoresLive(a, j, n, pod, uid) { assert StoresLive(b, j, n, pod, uid); }
    if j: nat :| j < n && StoresLive(b, j, n, pod, uid) { assert StoresLive(a, j, n, pod, uid); }
  }

  /**
   Operation k adds a claim of the pod that is kept: no earlier addition of its UID for the pod counts, and the
   pod is not forgotten before n. An earlier one counts if the pod was not forgotten in between.
   */
  ghost predicate IsKept(history: seq<Op>, k: nat, n: nat, pod: string)
    requires n <= |history|
  {
    k < n && history[k].Stored? && history[k].pod == pod &&
    (forall d :: k < d < n ==> history[d] != Forgotten(pod)) &&
    forall j :: 0 <= j < k && history[j].Stored? && history[j].pod == pod &&
                history[j].claim.uid == history[k].claim.uid ==>
      exists d :: j < d < k && history[d] == Forgotten(pod)
  }

  /** A pod's list is made of exactly the kept additions, in their order. */
  lemma {:induction false} FirstVersionsExactly(history: seq<Op>, n: nat, pod: string) returns (at: seq<nat>)
    requires n <= |history|
    ensures Increasing(at) && (forall k: nat :: k in at <==> IsKept(history, k, n, pod))
    ensures |at| == |FirstVersions(history, n, pod)|
    ensures forall i :: 0 <= i < |at| ==>
              at[i] < n && history[at[i]].Stored? && FirstVersions(history, n, pod)[i] == history[at[i]].claim
  {
    at := [];
    if n > 0 {
      var before := FirstVersionsExactly(history, n - 1, pod);
      var op := history[n - 1];
      if op.Stored? && op.pod == pod {
        NotLiveExactly(history, n - 1, pod, op.claim.uid);
      }
      if op == Forgotten(pod) {
        at := [];
      } else if op.Stored? && op.pod == pod && !HasLive(history, n - 1, pod, op.claim.uid) {
        at := before + [n - 1];
      } else {
        at := before;
      }
      forall k: nat ensures k in at <==> IsKept(history, k, n, pod) {
        assert k in before <==> IsKept(history, k, n - 1, pod);
        if k < n - 1 && op != Forgotten(pod) { KeptOneMore(history, k, n - 1, pod); }
      }
    }
  }

  lemma {:induction false} KeptOneMore(history: seq<Op>, k: nat, n: nat, pod: string)
    requires k < n < |history| && history[n] != Forgotten(pod)
    ensures IsKept(history, k, n + 1, pod) <==> IsKept(history, k, n, pod)
  {
  }

  lemma {:induction false} NotLiveExactly(history: seq<Op>, n: nat, pod: string, uid: string)
    requires n <= |history|
    ensures !HasLive(history, n, pod, uid) <==>
              forall j :: 0 <= j < n && history[j].Stored? && history[j].pod == pod && history[j].claim.uid == uid ==>
                exists d :: j < d < n && history[d] == Forgotten(pod)
  {
    forall j: nat | j < n && history[j].Stored? && history[j].pod == pod && history[j].claim.uid == uid
      ensures StoresLive(history, j, n, pod, uid) <==> !(exists d :: j < d < n && history[d] == Forgotten(pod))
    {
    }
  }

  /** A claim prepared a second time for a pod changes its status in the API, but not the version that is stored. */
  lemma SecondVersionIsNotStored(pods: Pods, pod: string, first: Claim, second: Claim)
    requires first.uid == second.uid && !HasUid(ClaimsOf(pods, pod), first.uid)
    ensures ClaimsOf(StoredAfter(pods, [Stored(pod, first), Stored(pod, second)]), pod) == ClaimsOf(pods, pod) + [first]
  {
    var history := [Stored(pod, first), Stored(pod, second)];
    assert history[..1] == [Stored(pod, first)] && history[..1][..0] == [];
    var once := StoredAfter(pods, history[..1]);
    assert StoredAfter(pods, history[..1][..0]) == pods;
    assert once == Added(pods, pod, first) == pods[pod := ClaimsOf(pods, pod) + [first]];
    assert ClaimsOf(once, pod)[|ClaimsOf(pods, pod)|].uid == second.uid;
  }

  // ----- what a preparation yields

  /**
   The kubelet device and the status of the n-th result: the identity that was resolved for it, the exposed
   attributes, the network, NIC and configuration in the payload, and in both of them the network data that
   the configurator of the device type chose.
   */
  ghost predicate Prepares(env: Env, n: nat, a: AllocationResult, d: KubeletDevice, s: DeviceStatus) {
    match env.answers.resolve(n, a)
    case Ok(Some(r)) =>
      r.result.Some? && r.exposed.Some? && r.configuration.Some? && r.network.Some? &&
      var res, dc := r.result.value, r.configuration.value;
      env.answers.allocate(n, if dc.deviceType.None? then "HostDevice" else dc.deviceType.value, r) ==
          Ok(d.networkData) &&
      s.networkData == d.networkData &&
      (d.request, d.pool, d.device, d.shareId) == (res.request, res.pool, res.device, res.shareId) &&
      (s.driver, s.pool, s.device, s.shareId) == (res.driver, res.pool, res.device, res.shareId) &&
      d.attributes == r.exposed.value.attributes &&
      s.data == Some(Payload(env.podNetworkKind, r.network.value.name, r.host, Some(dc)))
    case _ => false
  }

  /** Devices and statuses stand one to one, in order, for the driver's allocation results. */
  lemma PreparedInOrder(env: Env, results: seq<AllocationResult>, prepared: seq<Prepared>)
    requires PreparesAll(env, results, prepared)
    ensures var own := Own(results, env.driverName);
            |Devices(prepared)| == |Statuses(prepared)| == |own| &&
            forall i :: 0 <= i < |own| ==> Prepares(env, i, own[i], Devices(prepared)[i], Statuses(prepared)[i])
  {
    var own := Own(results, env.driverName);
    forall i | 0 <= i < |own| ensures Prepares(env, i, own[i], Devices(prepared)[i], Statuses(prepared)[i]) {
      OneIsPrepared(env, i, own[i]);
    }
  }

  lemma {:induction false} OneIsPrepared(env: Env, n: nat, a: AllocationResult)
    requires PrepareResult(env, n, a).Ok?
    ensures Prepares(env, n, a, PrepareResult(env, n, a).value.device, PrepareResult(env, n, a).value.status)
  {
  }

  /** The driver's results are exactly those with its name, in the order of the allocation: result i is at at[i]. */
  lemma OwnExactly(results: seq<AllocationResult>, driver: string) returns (at: seq<nat>)
    ensures Increasing(at) && (forall k: nat :: k in at <==> k < |results| && results[k].driver == driver)
    ensures |at| == |Own(results, driver)|
    ensures forall i :: 0 <= i < |at| ==> at[i] < |results| && Own(results, driver)[i] == results[at[i]]
  {
    at := FilteredExactly(results, IsOf(driver));
  }

  /**
   What a forced apply leaves: the statuses of every other driver, in the order they had, and then this
   driver's updates.
   */
  lemma AppliedExactly(statuses: seq<DeviceStatus>, driver: string, updates: seq<DeviceStatus>) returns (at: seq<nat>)
    ensures Increasing(at) && (forall k: nat :: k in at <==> k < |statuses| && statuses[k].driver != driver)
    ensures |Applied(statuses, driver, updates)| == |at| + |updates|
    ensures forall i :: 0 <= i < |at| ==> at[i] < |statuses| && Applied(statuses, driver, updates)[i] == statuses[at[i]]
    ensures Applied(statuses, driver, updates)[|at|..] == updates
  {
    at := FilteredExactly(statuses, IsNotOf(driver));
  }

  /** A prepared claim is the claim with its statuses applied to what the server had, and nothing else changed. */
  lemma UpdatedExactly(env: Env, statuses: map<string, seq<DeviceStatus>>, claim: Claim, prepared: seq<Prepared>)
      returns (at: seq<nat>)
    ensures var updated := Updated(env, statuses, claim, prepared);
            var current := if claim.uid in statuses then statuses[claim.uid] else claim.devices;
            (updated.uid, updated.reservedFor, updated.allocation) ==
                (claim.uid, claim.reservedFor, claim.allocation) &&
            Increasing(at) && (forall k: nat :: k in at <==> k < |current| && current[k].driver != env.driverName) &&
            |updated.devices| == |at| + |prepared| &&
            (forall i :: 0 <= i < |at| ==> at[i] < |current| && updated.devices[i] == current[at[i]]) &&
            forall i :: 0 <= i < |prepared| ==> updated.devices[|at| + i] == prepared[i].status
  {
    var current := if claim.uid in statuses then statuses[claim.uid] else claim.devices;
    var updates := Statuses(prepared);
    at := AppliedExactly(current, env.driverName, updates);
    var updated := Updated(env, statuses, claim, prepared);
    forall i | 0 <= i < |prepared| ensures updated.devices[|at| + i] == prepared[i].status {
      assert updated.devices[|at|..][i] == updates[i];
    }
  }

  lemma {:induction false} OwnUpTo(results: seq<AllocationResult>, i: nat, driver: string)
    requires i < |results|
    ensures Own(results[..i + 1], driver) ==
            Own(results[..i], driver) + (if results[i].driver == driver then [results[i]] else [])
    ensures Own(results[..i + 1], driver) <= Own(results, driver)
  {
    assert results[..i + 1] == results[..i] + [results[i]];
    FilteredOneMore(results[..i], results[i], IsOf(driver));
    assert results == results[..i + 1] + results[i + 1..];
    FilteredAppend(results[..i + 1], results[i + 1..], IsOf(driver));
  }
}
