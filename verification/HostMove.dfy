/** HostDevice.Configure: a NIC moves into a pod with the RDMA devices behind it (pkg/configurators/hostdevice.go). */
module HostMove {
  import opened Wrappers
  import opened Api
  import P = Preparation

  const HOST_NETNS: string := ""

  /** Where each device is, by namespace. */
  type Places = map<string, string>

  function MoveAll(places: Places, devices: seq<string>, netns: string): Places {
    if devices == [] then places else MoveAll(places, devices[..|devices| - 1], netns)[devices[|devices| - 1] := netns]
  }

  /** The kernel's view: where links and RDMA devices are, and which RDMA devices share the PCI device of a NIC. */
  class Kernel {
    var links: Places
    var rdma: Places
    const backing: map<string, seq<string>>

    constructor (links: Places, rdma: Places, backing: map<string, seq<string>>)
      ensures this.links == links && this.rdma == rdma && this.backing == backing
    {
      this.links, this.rdma, this.backing := links, rdma, backing;
    }

    /** Discovery reads sysfs, where a NIC is found only while it is in the host namespace. */
    function RdmaDevicesFor(nic: string): seq<string>
      reads this`links
    {
      if nic in links && links[nic] == HOST_NETNS && nic in backing then backing[nic] else []
    }

    /**
     netns is the pod's namespace, if its path opens; discovers is whether reading the directory of the RDMA
     devices behind the NIC gives no error (that it is not there is none); moves(i) is whether the kernel moves the i-th
     RDMA device, and movesLink whether it moves the NIC. The NIC moves last: it is in the pod only with
     everything that was behind it, and a failure leaves it where it was, with the RDMA devices before
     the first one that does not move already moved.
     */
    method Configure(status: P.DeviceStatus, netns: Option<string>, discovers: bool, moves: nat -> bool,
        movesLink: bool)
      returns (ok: bool)
      modifies this
      ensures !(IsReady(status, netns) && discovers) ==> !ok && links == old(links) && rdma == old(rdma)
      ensures IsReady(status, netns) && discovers ==>
        var nic := status.data.value.host.spec.interfaceName;
        var devices := old(RdmaDevicesFor(nic));
        var n := FirstStuck(old(rdma), devices, moves, 0);
        (ok <==> n == |devices| && nic in old(links) && movesLink) &&
        links == (if ok then old(links)[nic := netns.value] else old(links)) &&
        rdma == MoveAll(old(rdma), devices[..n], netns.value)
      ensures ok <==>
        status.data.Some? && status.data.value.configuration.Some? &&
        (status.data.value.configuration.value.deviceType.Some? ==>
           status.data.value.configuration.value.deviceType.value == "HostDevice") &&
        netns.Some? && discovers && movesLink &&
        var nic := status.data.value.host.spec.interfaceName;
        nic in old(links) &&
        (old(links)[nic] == "" && nic in backing ==>
           forall k: nat :: k < |backing[nic]| ==> backing[nic][k] in old(rdma) && moves(k))
    {
      if status.data.None? {
        return false;
      }
      var data := status.data.value;
      var nic := data.host.spec.interfaceName;
      if data.configuration.None? || GetDeviceType(data.configuration.value) != HOST_DEVICE || netns.None? {
        return false;
      }
      if !discovers {
        return false;
      }
      var found := RdmaDevicesFor(nic);
      for i := 0 to |found|
        invariant links == old(links) && rdma == MoveAll(old(rdma), found[..i], netns.value) &&
            rdma.Keys == old(rdma).Keys
        invariant FirstStuck(old(rdma), found, moves, 0) == FirstStuck(old(rdma), found, moves, i)
      {
        if found[i] !in rdma || !moves(i) {
          return false;
        }
        assert found[..i + 1][..i] == found[..i];
        rdma := rdma[found[i] := netns.value];
      }
      assert found[..|found|] == found;
      if nic !in links || !movesLink {
        return false;
      }
      links := links[nic := netns.value];
      ok := true;
    }
  }

  /** A status of a HostDevice, and a pod whose namespace opens. */
  predicate IsReady(status: P.DeviceStatus, netns: Option<string>) {
    status.data.Some? && status.data.value.configuration.Some? &&
    GetDeviceType(status.data.value.configuration.value) == HOST_DEVICE && netns.Some?
  }

  /** The first device from i on that has no RDMA link or does not move; all of them move if it is the end. */
  function FirstStuck(rdma: Places, devices: seq<string>, moves: nat -> bool, i: nat): (n: nat)
    requires i <= |devices|
    ensures i <= n <= |devices|
    ensures forall k :: i <= k < n ==> devices[k] in rdma && moves(k)
    ensures n < |devices| ==> devices[n] !in rdma || !moves(n)
    decreases |devices| - i
  {
    if i == |devices| || devices[i] !in rdma || !moves(i) then i else FirstStuck(rdma, devices, moves, i + 1)
  }

  /** After the move, every device of the list is in the pod and every other one is where it was. */
  lemma {:induction false} MoveAllMoves(places: Places, devices: seq<string>, netns: string, d: string)
    ensures d in devices ==> d in MoveAll(places, devices, netns) && MoveAll(places, devices, netns)[d] == netns
    ensures d !in devices ==> (d in MoveAll(places, devices, netns) <==> d in places) &&
                              (d in places ==> MoveAll(places, devices, netns)[d] == places[d])
  {
    if devices != [] {
      var n := |devices| - 1;
      assert devices == devices[..n] + [devices[n]];
      MoveAllMoves(places, devices[..n], netns, d);
    }
  }
}
