/**
 The shared mutual-exclusion counter over whole runs of the scheduler. The scheduler is outside
 the repository: it allocates a published device only within the counters of its NIC (docs/demo.md).
 */
module Allocation {
  import opened Wrappers
  import opened Api
  import opened Publication

  datatype Pool = Pool(devices: seq<Device>, counters: seq<CounterSet>)

  /** What is published, what the ledger has left per NIC, and every allocation that has not been released. */
  datatype Ledger = Ledger(pool: Pool, free: map<string, nat>, live: seq<Device>)

  // ----- units

  function UnitsIn(consumes: seq<Consumption>, nic: string): nat {
    if consumes == [] then 0
    else
      var c := consumes[0];
      (if c.counterSet == nic && MUTUAL_EXCLUSION in c.counters then c.counters[MUTUAL_EXCLUSION] else 0) +
          UnitsIn(consumes[1..], nic)
  }

  /** What one allocation of a device draws on a NIC. */
  function Units(d: Device, nic: string): nat { UnitsIn(d.consumesCounters, nic) }

  function Drawn(live: seq<Device>, nic: string): nat {
    if live == [] then 0 else Drawn(live[..|live| - 1], nic) + Units(live[|live| - 1], nic)
  }

  function Shares(live: seq<Device>, d: Device): nat { multiset(live)[d] }

  // ----- the scheduler's rules

  predicate WithinCounters(l: Ledger, d: Device) {
    forall k :: 0 <= k < |d.consumesCounters| ==>
      var nic := d.consumesCounters[k].counterSet;
      nic in l.free && Units(d, nic) <= l.free[nic]
  }

  predicate WithinCapacity(l: Ledger, d: Device) {
    if d.allowMultipleAllocations then
      CAP_MAX_VIRTUAL_INTERFACES in d.capacity && Shares(l.live, d) + 1 <= d.capacity[CAP_MAX_VIRTUAL_INTERFACES].value
    else
      Shares(l.live, d) == 0
  }

  predicate CanAllocate(l: Ledger, d: Device) {
    d in l.pool.devices && WithinCounters(l, d) && WithinCapacity(l, d)
  }

  function Allocate(l: Ledger, d: Device): Ledger
    requires CanAllocate(l, d)
  {
    l.(free := map nic | nic in l.free :: if Units(d, nic) <= l.free[nic] then l.free[nic] - Units(d, nic) else 0,
       live := l.live + [d])
  }

  function Release(l: Ledger, k: nat): Ledger
    requires k < |l.live|
  {
    l.(free := map nic | nic in l.free :: l.free[nic] + Units(l.live[k], nic),
       live := Without(l.live, k))
  }

  /** A republication keeps every allocated device; a NIC that was not published before starts full. */
  predicate CanRepublish(l: Ledger, pool: Pool) {
    forall d :: d in l.live ==> d in pool.devices
  }

  function NicsOf(counters: seq<CounterSet>): set<string> { set k | 0 <= k < |counters| :: counters[k].name }

  /** The value published for the counter of a NIC. */
  function CounterOf(counters: seq<CounterSet>, nic: string): nat {
    if counters == [] then 0
    else if counters[0].name == nic && MUTUAL_EXCLUSION in counters[0].counters then
      counters[0].counters[MUTUAL_EXCLUSION]
    else CounterOf(counters[1..], nic)
  }

  function Republish(l: Ledger, pool: Pool): Ledger {
    Ledger(
      pool,
      map nic | nic in NicsOf(pool.counters) :: if nic in l.free then l.free[nic] else CounterOf(pool.counters, nic),
      l.live)
  }

  // ----- what getResources guarantees of a pool

  predicate IsHostDevice(d: Device, nic: string) {
    d.consumesCounters == [Consumption(nic, map[MUTUAL_EXCLUSION := COUNTER_VALUE])] && !d.allowMultipleAllocations
  }

  predicate IsMacvlan(d: Device, nic: string) {
    d.consumesCounters == [Consumption(nic, map[MUTUAL_EXCLUSION := 1])] && d.allowMultipleAllocations &&
    CAP_MAX_VIRTUAL_INTERFACES in d.capacity && d.capacity[CAP_MAX_VIRTUAL_INTERFACES].value == MAX_VIRTUAL_DEVICES
  }

  /** The NIC a device is on. */
  function NicOf(d: Device): string { if d.consumesCounters == [] then "" else d.consumesCounters[0].counterSet }

  predicate OnNic(d: Device, nic: string) { IsHostDevice(d, nic) || IsMacvlan(d, nic) }

  /** Every device is on one NIC that has a counter, and every counter is full. */
  ghost predicate WellPublished(pool: Pool) {
    (forall k :: 0 <= k < |pool.counters| ==> pool.counters[k] == FullCounter(pool.counters[k].name)) &&
    forall d :: d in pool.devices ==> OnNic(d, NicOf(d)) && NicOf(d) in NicsOf(pool.counters)
  }

  lemma GetResourcesIsWellPublished(w: World, networks: seq<DeviceNetwork>, origins: seq<Origin>, pool: Pool)
    requires KeyedByName(w.store) && Publishes(w, networks, origins, pool.devices) &&
        CountersFor(pool.devices, pool.counters)
    ensures WellPublished(pool)
  {
    forall d | d in pool.devices ensures OnNic(d, NicOf(d)) && NicOf(d) in NicsOf(pool.counters) {
      var k :| 0 <= k < |pool.devices| && pool.devices[k] == d;
      DrawsByType(w, networks, origins[k]);
      DrawsOnCounter(pool, d);
    }
  }

  /** The NIC that a device draws on has a counter. */
  lemma {:induction false} DrawsOnCounter(pool: Pool, d: Device)
    requires CountersFor(pool.devices, pool.counters) && d in pool.devices && d.consumesCounters != []
    ensures NicOf(d) in NicsOf(pool.counters)
  {
    assert d.consumesCounters[0].counterSet == NicOf(d);
    assert FullCounter(NicOf(d)) in pool.counters;
    var j :| 0 <= j < |pool.counters| && pool.counters[j] == FullCounter(NicOf(d));
    assert pool.counters[j].name == NicOf(d);
  }

  // ----- runs

  datatype Action = AllocateIt(d: Device) | ReleaseIt(k: nat) | RepublishIt(pool: Pool)

  ghost predicate Next(l: Ledger, a: Action, l': Ledger) {
    match a
    case AllocateIt(d) => CanAllocate(l, d) && l' == Allocate(l, d)
    case ReleaseIt(k) => k < |l.live| && l' == Release(l, k)
    case RepublishIt(pool) => WellPublished(pool) && CanRepublish(l, pool) && l' == Republish(l, pool)
  }

  function Start(pool: Pool): Ledger { Republish(Ledger(pool, map[], []), pool) }

  ghost predicate NextAt(run: seq<Ledger>, actions: seq<Action>, i: int)
    requires |run| == |actions| + 1 && 0 <= i < |actions|
  {
    Next(run[i], actions[i], run[i + 1])
  }

  /** A run of the scheduler and of the publisher, from a first publication. */
  ghost predicate IsRun(run: seq<Ledger>, actions: seq<Action>) {
    |run| == |actions| + 1 && WellPublished(run[0].pool) && run[0] == Start(run[0].pool) &&
    forall i :: 0 <= i < |actions| ==> NextAt(run, actions, i)
  }

  // ----- the invariant

  /** Nothing is lost or made: what is free and what live allocations draw is the whole counter. */
  ghost predicate Conserved(l: Ledger) {
    forall nic :: nic in l.free ==> l.free[nic] + Drawn(l.live, nic) == COUNTER_VALUE
  }

  ghost predicate Published(l: Ledger) {
    WellPublished(l.pool) && l.free.Keys == NicsOf(l.pool.counters) && forall d :: d in l.live ==> d in l.pool.devices
  }

  ghost predicate WithinShares(l: Ledger) {
    forall d :: d in l.live && d.allowMultipleAllocations ==> Shares(l.live, d) <= MAX_VIRTUAL_DEVICES
  }

  ghost predicate Inv(l: Ledger) { Published(l) && Conserved(l) && WithinShares(l) }

  lemma UnitsOnNic(d: Device, nic: string)
    requires OnNic(d, NicOf(d))
    ensures Units(d, nic) == if nic != NicOf(d) then 0 else if IsHostDevice(d, nic) then COUNTER_VALUE else 1
  {
    var c := d.consumesCounters[0];
    assert d.consumesCounters == [c] && d.consumesCounters[1..] == [];
    assert UnitsIn([], nic) == 0;
  }

  lemma {:induction false} DrawnWithout(live: seq<Device>, k: nat, nic: string)
    requires k < |live|
    ensures Drawn(live, nic) == Drawn(Without(live, k), nic) + Units(live[k], nic)
  {
    var n := |live| - 1;
    if k < n {
      DrawnWithout(live[..n], k, nic);
      assert Without(live, k)[..n - 1] == Without(live[..n], k);
      assert Without(live, k)[n - 1] == live[n];
    } else {
      assert Without(live, k) == live[..n];
    }
  }

  lemma {:induction false} DrawnNothing(live: seq<Device>, nic: string)
    requires forall d :: d in live ==> Units(d, nic) == 0
    ensures Drawn(live, nic) == 0
  {
    if live != [] { DrawnNothing(live[..|live| - 1], nic); }
  }

  lemma {:induction false} CountersAreFull(counters: seq<CounterSet>, nic: string)
    requires forall k :: 0 <= k < |counters| ==> counters[k] == FullCounter(counters[k].name)
    requires nic in NicsOf(counters)
    ensures CounterOf(counters, nic) == COUNTER_VALUE
  {
    if counters[0].name != nic {
      var k :| 0 <= k < |counters| && counters[k].name == nic;
      assert counters[1..][k - 1].name == nic;
      CountersAreFull(counters[1..], nic);
    }
  }

  lemma AllocateKeeps(l: Ledger, d: Device)
    requires Inv(l) && CanAllocate(l, d)
    ensures Inv(Allocate(l, d))
  {
    var l' := Allocate(l, d);
    assert l'.live[..|l.live|] == l.live;
    forall nic | nic in l'.free ensures l'.free[nic] + Drawn(l'.live, nic) == COUNTER_VALUE {
      UnitsOnNic(d, nic);
      assert d.consumesCounters[0].counterSet == NicOf(d);
    }
    assert multiset(l'.live) == multiset(l.live) + multiset{d};
  }

  lemma ReleaseKeeps(l: Ledger, k: nat)
    requires Inv(l) && k < |l.live|
    ensures Inv(Release(l, k))
  {
    forall nic | nic in l.free ensures Drawn(l.live, nic) == Drawn(Without(l.live, k), nic) + Units(l.live[k], nic) {
      DrawnWithout(l.live, k, nic);
    }
    WithoutOne(l.live, k);
  }

  lemma RepublishKeeps(l: Ledger, pool: Pool)
    requires Inv(l) && WellPublished(pool) && CanRepublish(l, pool)
    ensures Inv(Republish(l, pool))
  {
    var l' := Republish(l, pool);
    forall nic | nic in l'.free ensures l'.free[nic] + Drawn(l'.live, nic) == COUNTER_VALUE {
      if nic !in l.free {
        forall d | d in l.live ensures Units(d, nic) == 0 { UnitsOnNic(d, nic); }
        DrawnNothing(l.live, nic);
        CountersAreFull(pool.counters, nic);
      }
    }
  }

  lemma StartHasInv(pool: Pool)
    requires WellPublished(pool)
    ensures Inv(Start(pool))
  {
    RepublishKeeps(Ledger(Pool([], []), map[], []), pool);
  }

  lemma {:induction false} RunKeepsInv(run: seq<Ledger>, actions: seq<Action>, i: nat)
    requires IsRun(run, actions) && i < |run|
    ensures Inv(run[i])
  {
    if i == 0 {
      StartHasInv(run[0].pool);
    } else {
      RunKeepsInv(run, actions, i - 1);
      assert NextAt(run, actions, i - 1);
      match actions[i - 1]
      case AllocateIt(d) => AllocateKeeps(run[i - 1], d);
      case ReleaseIt(k) => ReleaseKeeps(run[i - 1], k);
      case RepublishIt(pool) => RepublishKeeps(run[i - 1], pool);
    }
  }

  /** A release takes back all that its allocation did. */
  lemma ReleaseUndoesAllocate(l: Ledger, d: Device)
    requires Inv(l) && CanAllocate(l, d)
    ensures Next(l, AllocateIt(d), Allocate(l, d)) && Next(Allocate(l, d), ReleaseIt(|l.live|), l)
  {
    var l' := Allocate(l, d);
    assert Without(l'.live, |l.live|) == l.live;
    forall nic | nic in l.free ensures Units(d, nic) <= l.free[nic] {
      UnitsOnNic(d, nic);
      assert d.consumesCounters[0].counterSet == NicOf(d);
    }
    assert Release(l', |l.live|).free == l.free;
  }

  /** Exactly the released allocation goes, and only the NIC that it was on gets units back. */
  lemma ReleaseExactly(l: Ledger, k: nat)
    requires Inv(l) && k < |l.live|
    ensures Next(l, ReleaseIt(k), Release(l, k))
    ensures multiset(l.live) == multiset(Release(l, k).live) + multiset{l.live[k]} && Release(l, k).pool == l.pool
    ensures Release(l, k).free.Keys == l.free.Keys
    ensures forall nic :: nic in l.free ==>
              Release(l, k).free[nic] ==
              l.free[nic] + if nic != NicOf(l.live[k]) then 0 else if l.live[k].allowMultipleAllocations then 1
                  else 65536
  {
    WithoutOne(l.live, k);
    LiveHasCounter(l, k);
    forall nic | nic in l.free
      ensures Units(l.live[k], nic) ==
              if nic != NicOf(l.live[k]) then 0 else if l.live[k].allowMultipleAllocations then 1 else 65536
    {
      UnitsOnNic(l.live[k], nic);
    }
  }

  /** A republication leaves every allocation and what is left of every known NIC; a new NIC is full. */
  lemma RepublishExactly(l: Ledger, pool: Pool)
    requires Inv(l) && WellPublished(pool) && forall d :: d in l.live ==> d in pool.devices
    ensures Next(l, RepublishIt(pool), Republish(l, pool))
    ensures Republish(l, pool).live == l.live && Republish(l, pool).pool == pool
    ensures forall nic :: nic in Republish(l, pool).free <==>
        exists k :: 0 <= k < |pool.counters| && pool.counters[k].name == nic
    ensures forall nic :: nic in Republish(l, pool).free ==>
              Republish(l, pool).free[nic] == if nic in l.free then l.free[nic] else 65536
  {
    forall nic | nic in NicsOf(pool.counters) ensures CounterOf(pool.counters, nic) == 65536 {
      CountersAreFull(pool.counters, nic);
    }
  }

  // ----- what the published numbers enforce

  /** Two allocations on one NIC draw on it together. */
  lemma DrawnTogether(live: seq<Device>, i: nat, j: nat, nic: string)
    requires i < j < |live|
    ensures Drawn(live, nic) >= Units(live[i], nic) + Units(live[j], nic)
  {
    DrawnWithout(live, j, nic);
    assert Without(live, j)[i] == live[i];
    DrawnWithout(Without(live, j), i, nic);
  }

  lemma LiveHasCounter(l: Ledger, i: nat)
    requires Inv(l) && i < |l.live|
    ensures OnNic(l.live[i], NicOf(l.live[i])) && NicOf(l.live[i]) in l.free
  {
    assert l.live[i] in l.live;
  }

  /**
   Over any run, a HostDevice allocation is alone on its NIC, whatever networks and configurations published the
   devices.
   */
  lemma ExclusiveOwnership(run: seq<Ledger>, actions: seq<Action>, t: nat, i: nat, j: nat)
    requires IsRun(run, actions) && t < |run| && i < |run[t].live| && j < |run[t].live| && i != j
    requires IsHostDevice(run[t].live[i], NicOf(run[t].live[i]))
    ensures NicOf(run[t].live[j]) != NicOf(run[t].live[i])
  {
    var l := run[t];
    var nic := NicOf(l.live[i]);
    RunKeepsInv(run, actions, t);
    LiveHasCounter(l, i);
    LiveHasCounter(l, j);
    UnitsOnNic(l.live[i], nic);
    UnitsOnNic(l.live[j], nic);
    if i < j { DrawnTogether(l.live, i, j, nic); } else { DrawnTogether(l.live, j, i, nic); }
  }

  /** Allocations that are Macvlan shares on a NIC. */
  function MacvlanShares(live: seq<Device>, nic: string): nat {
    if live == [] then 0
    else MacvlanShares(live[..|live| - 1], nic) + (if IsMacvlan(live[|live| - 1], nic) then 1 else 0)
  }

  lemma {:induction false} SharesAreDrawn(live: seq<Device>, nic: string)
    ensures MacvlanShares(live, nic) <= Drawn(live, nic)
  {
    if live != [] {
      SharesAreDrawn(live[..|live| - 1], nic);
      var d := live[|live| - 1];
      if IsMacvlan(d, nic) { assert NicOf(d) == nic; UnitsOnNic(d, nic); }
    }
  }

  /** Over any run, free units and live draws make up each counter, and the Macvlan shares stay within their bounds. */
  lemma ConservationAndBounds(run: seq<Ledger>, actions: seq<Action>, t: nat)
    requires IsRun(run, actions) && t < |run|
    ensures forall nic :: nic in run[t].free ==>
              run[t].free[nic] + Drawn(run[t].live, nic) == COUNTER_VALUE &&
                  MacvlanShares(run[t].live, nic) <= COUNTER_VALUE
    ensures forall d :: d in run[t].live && d.allowMultipleAllocations ==> Shares(run[t].live, d) <= MAX_VIRTUAL_DEVICES
  {
    RunKeepsInv(run, actions, t);
    forall nic | nic in run[t].free ensures MacvlanShares(run[t].live, nic) <= COUNTER_VALUE {
      SharesAreDrawn(run[t].live, nic);
    }
  }

  /** A HostDevice can be allocated exactly when nothing else holds its NIC. */
  lemma HostDeviceNeedsIdleNic(l: Ledger, d: Device)
    requires Inv(l) && d in l.pool.devices && IsHostDevice(d, NicOf(d))
    ensures CanAllocate(l, d) <==> forall e :: e in l.live ==> NicOf(e) != NicOf(d)
  {
    var nic := NicOf(d);
    UnitsOnNic(d, nic);
    if e :| e in l.live && NicOf(e) == nic {
      var i :| 0 <= i < |l.live| && l.live[i] == e;
      DrawnWithout(l.live, i, nic);
      UnitsOnNic(e, nic);
      assert d.consumesCounters[0].counterSet == nic;
    } else {
      forall e | e in l.live ensures Units(e, nic) == 0 { UnitsOnNic(e, nic); }
      DrawnNothing(l.live, nic);
    }
  }

  /** A Macvlan share can be allocated exactly when no HostDevice holds the NIC and neither limit is reached. */
  lemma MacvlanNeedsNoHostDevice(l: Ledger, d: Device)
    requires Inv(l) && d in l.pool.devices && IsMacvlan(d, NicOf(d))
    ensures CanAllocate(l, d) <==>
              (forall e :: e in l.live ==> !IsHostDevice(e, NicOf(d))) &&
              MacvlanShares(l.live, NicOf(d)) < COUNTER_VALUE && Shares(l.live, d) < MAX_VIRTUAL_DEVICES
  {
    var nic := NicOf(d);
    UnitsOnNic(d, nic);
    assert d.consumesCounters[0].counterSet == nic;
    if e :| e in l.live && IsHostDevice(e, nic) {
      var i :| 0 <= i < |l.live| && l.live[i] == e;
      DrawnWithout(l.live, i, nic);
      UnitsOnNic(e, nic);
    } else {
      OnlyShares(l.live, nic);
    }
  }

  /** Without a HostDevice on it, a NIC is drawn on by Macvlan shares only. */
  lemma {:induction false} OnlyShares(live: seq<Device>, nic: string)
    requires forall e :: e in live ==> OnNic(e, NicOf(e)) && !IsHostDevice(e, nic)
    ensures Drawn(live, nic) == MacvlanShares(live, nic)
  {
    if live != [] {
      var d := live[|live| - 1];
      assert d in live;
      OnlyShares(live[..|live| - 1], nic);
      UnitsOnNic(d, nic);
    }
  }
}
