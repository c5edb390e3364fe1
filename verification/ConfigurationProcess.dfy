/**
 The configuration process as an object (pkg/nri/process.go): the loop over the device statuses of a
 claim, and a whole run with nobody interfering. ProcessMachine has the interleavings.
 */
module ConfigurationProcess {
  import opened Wrappers
  import opened Api
  import opened Sequences
  import P = Preparation
  import M = ProcessMachine

  // ----- one claim

  /** What configureResourceClaim does with a device status. */
  function SlotOf(driverName: string, configurators: set<string>, s: P.DeviceStatus): M.Slot {
    if s.driver != driverName then M.Skip
    else if s.data.None? then M.Abort
    else if s.data.value.configuration.None? then M.Abort
    else
      var deviceType := GetDeviceType(s.data.value.configuration.value);
      if deviceType in configurators then M.Call(deviceType) else M.Abort
  }

  function SlotsOf(driverName: string, configurators: set<string>, statuses: seq<P.DeviceStatus>): M.Claim {
    seq(|statuses|, i requires 0 <= i < |statuses| => SlotOf(driverName, configurators, statuses[i]))
  }

  /** Device j ends the claim: a malformed status, or a Configure that fails. */
  predicate Stops(claim: M.Claim, succeeds: nat -> bool, j: nat)
    requires j < |claim|
  {
    claim[j].Abort? || (claim[j].Call? && !succeeds(j))
  }

  /** Device j is configured: it has a configurator and nothing before it ends the claim. */
  ghost predicate Reached(claim: M.Claim, succeeds: nat -> bool, j: nat) {
    j < |claim| && claim[j].Call? && forall k: nat :: k < j ==> !Stops(claim, succeeds, k)
  }

  /** A status whose payload names a configuration of a type, HostDevice if none is given, that has a configurator. */
  predicate HasConfigurator(configurators: set<string>, s: P.DeviceStatus) {
    s.data.Some? && s.data.value.configuration.Some? &&
    var dc := s.data.value.configuration.value;
    (if dc.deviceType.None? then "HostDevice" else dc.deviceType.value) in configurators
  }

  /** None of the driver's first n statuses is malformed, without a configurator, or failed to be configured. */
  ghost predicate GoesTo(driverName: string, configurators: set<string>, statuses: seq<P.DeviceStatus>,
      succeeds: nat -> bool, n: nat) {
    forall k: nat :: k < n && k < |statuses| && statuses[k].driver == driverName ==>
      HasConfigurator(configurators, statuses[k]) && succeeds(k)
  }

  /** Status j is one of the driver's, has a configurator, and nothing before it ended the claim. */
  ghost predicate IsDue(driverName: string, configurators: set<string>, statuses: seq<P.DeviceStatus>,
      succeeds: nat -> bool, j: nat) {
    j < |statuses| && statuses[j].driver == driverName && HasConfigurator(configurators, statuses[j]) &&
    GoesTo(driverName, configurators, statuses, succeeds, j)
  }

  lemma {:induction false} StopsExactly(driverName: string, configurators: set<string>, statuses: seq<P.DeviceStatus>,
      succeeds: nat -> bool, n: nat)
    requires n <= |statuses|
    ensures GoesTo(driverName, configurators, statuses, succeeds, n) <==>
              forall k: nat :: k < n ==> !Stops(SlotsOf(driverName, configurators, statuses), succeeds, k)
  {
    var claim := SlotsOf(driverName, configurators, statuses);
    forall k: nat | k < n
      ensures Stops(claim, succeeds, k) <==>
              statuses[k].driver == driverName && !(HasConfigurator(configurators, statuses[k]) && succeeds(k))
    {
      assert claim[k] == SlotOf(driverName, configurators, statuses[k]);
    }
  }

  lemma {:induction false} DueExactly(driverName: string, configurators: set<string>, statuses: seq<P.DeviceStatus>,
      succeeds: nat -> bool, j: nat)
    ensures IsDue(driverName, configurators, statuses, succeeds, j) <==>
              Reached(SlotsOf(driverName, configurators, statuses), succeeds, j)
  {
    if j < |statuses| {
      StopsExactly(driverName, configurators, statuses, succeeds, j);
      assert SlotsOf(driverName, configurators, statuses)[j] == SlotOf(driverName, configurators, statuses[j]);
    }
  }

  /** configureResourceClaim: Configure is called for exactly the reached devices, in order. */
  method ConfigureResourceClaim(driverName: string, configurators: set<string>, statuses: seq<P.DeviceStatus>,
      succeeds: nat -> bool)
    returns (calls: seq<nat>, ok: bool)
    ensures var claim := SlotsOf(driverName, configurators, statuses);
            Increasing(calls) &&
            (forall j: nat :: j in calls <==> Reached(claim, succeeds, j)) &&
            (ok <==> forall k: nat :: k < |claim| ==> !Stops(claim, succeeds, k))
    ensures forall j: nat :: j in calls <==> IsDue(driverName, configurators, statuses, succeeds, j)
    ensures ok <==> GoesTo(driverName, configurators, statuses, succeeds, |statuses|)
  {
    StopsExactly(driverName, configurators, statuses, succeeds, |statuses|);
    forall j: nat
      ensures IsDue(driverName, configurators, statuses, succeeds, j) <==>
              Reached(SlotsOf(driverName, configurators, statuses), succeeds, j)
    {
      DueExactly(driverName, configurators, statuses, succeeds, j);
    }
    ghost var claim := SlotsOf(driverName, configurators, statuses);
    calls := [];
    for i := 0 to |statuses|
      invariant Increasing(calls) && (forall k :: 0 <= k < |calls| ==> calls[k] < i)
      invariant forall k: nat :: k < i ==> !Stops(claim, succeeds, k)
      invariant forall j: nat :: j in calls <==> j < i && Reached(claim, succeeds, j)
    {
      var s := statuses[i];
      assert claim[i] == SlotOf(driverName, configurators, s);
      if s.driver != driverName {
        continue;
      }
      if s.data.None? || s.data.value.configuration.None? {
        assert Stops(claim, succeeds, i);
        return calls, false;
      }
      var deviceType := GetDeviceType(s.data.value.configuration.value);
      if deviceType !in configurators {
        assert Stops(claim, succeeds, i);
        return calls, false;
      }
      assert Reached(claim, succeeds, i);
      calls := calls + [i];
      if !succeeds(i) {
        assert Stops(claim, succeeds, i);
        return calls, false;
      }
    }
    ok := true;
  }

  // ----- the process, when nobody else calls it

  class Channel {
    var closed: bool

    constructor ()
      ensures !closed
    {
      closed := false;
    }
  }

  class Context {
    var cancelled: bool

    constructor ()
      ensures !cancelled
    {
      cancelled := false;
    }
  }

  /** A call of Configure: which claim, which device status of it. */
  datatype ConfigureCall = ConfigureCall(claim: nat, device: nat)

  predicate Before(a: ConfigureCall, b: ConfigureCall) {
    a.claim < b.claim || (a.claim == b.claim && a.device < b.device)
  }

  ghost predicate InOrder(calls: seq<ConfigureCall>) {
    forall i, j :: 0 <= i < j < |calls| ==> Before(calls[i], calls[j])
  }

  class Process {
    const driverName: string
    const configurators: set<string>
    const claims: seq<seq<P.DeviceStatus>>
    var done: Channel?
    var cancel: Context?

    constructor (driverName: string, configurators: set<string>, claims: seq<seq<P.DeviceStatus>>)
      ensures Idle() && done == null
      ensures this.driverName == driverName && this.configurators == configurators && this.claims == claims
    {
      this.driverName, this.configurators, this.claims := driverName, configurators, claims;
      done, cancel := null, null;
    }

    /** No run is at work: there is nothing to wait for and nothing to cancel. */
    ghost predicate Idle()
      reads this, done
    {
      (done != null ==> done.closed) && cancel == null
    }

    method IsDone() returns (answer: bool)
      ensures answer <==> done == null || done.closed
    {
      answer := done == null || done.closed;
    }

    /** terminate, where it does not have to wait. */
    method Terminate()
      requires done != null ==> done.closed
      modifies this`cancel, cancel
      ensures Idle() && done == old(done)
      ensures old(cancel) != null ==> old(cancel).cancelled
    {
      var taken := cancel;
      cancel := null;
      if taken != null {
        taken.cancelled := true;
      }
    }

    /** The devices that a run configures when Configure succeeds like this. */
    ghost predicate Configures(succeeds: nat -> nat -> bool, c: ConfigureCall) {
      c.claim < |claims| && IsDue(driverName, configurators, claims[c.claim], succeeds(c.claim), c.device)
    }

    /**
     A whole run: Configure is called for exactly the reached devices of every claim, in order, whether
     or not a claim before failed; its channel is new and closed, its context cancelled, and the
     process idle again, so that isDone answers true.
     */
    method Run(succeeds: nat -> nat -> bool) returns (calls: seq<ConfigureCall>, context: Context)
      requires Idle()
      modifies this
      ensures Idle() && done != null && fresh(done) && fresh(context) && context.cancelled
      ensures InOrder(calls) && forall c :: c in calls <==> Configures(succeeds, c)
    {
      Terminate();
      context := new Context();
      done := new Channel();
      cancel := context;
      calls := [];
      for i := 0 to |claims|
        invariant done != null && fresh(done) && fresh(context) && cancel == context
        invariant InOrder(calls) && forall c :: c in calls <==> c.claim < i && Configures(succeeds, c)
      {
        var devices, ok := ConfigureResourceClaim(driverName, configurators, claims[i], succeeds(i));
        calls := calls + CallsOf(i, devices);
        CallsOfClaim(i, devices);
      }
      done.closed := true;
      Terminate();
    }
  }

  function CallsOf(claim: nat, devices: seq<nat>): seq<ConfigureCall> {
    seq(|devices|, k requires 0 <= k < |devices| => ConfigureCall(claim, devices[k]))
  }

  lemma CallsOfClaim(claim: nat, devices: seq<nat>)
    ensures forall c: ConfigureCall :: c in CallsOf(claim, devices) <==> c.claim == claim && c.device in devices
  {
    forall c: ConfigureCall | c.claim == claim && c.device in devices ensures c in CallsOf(claim, devices) {
      var k :| 0 <= k < |devices| && devices[k] == c.device;
      assert CallsOf(claim, devices)[k] == c;
    }
  }
}
