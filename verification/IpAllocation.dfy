/** CommonConfigurator.Allocate: the addresses of a network interface (pkg/configurators/common.go). */
module IpAllocation {
  import opened Wrappers
  import opened Api
  import opened RandomIp
  import opened Publication
  import opened Sequences

  const RANDOM: string := "Random"

  /** An address with its prefix length. */
  datatype Address = Address(ip: Bytes, ones: nat)

  /** A subnet as net.ParseCIDR gives it: the network address and a canonical mask. */
  datatype Subnet = Subnet(net: Bytes, mask: Bytes)

  ghost predicate ParsesCidr(parse: string -> Option<Subnet>) {
    forall s :: parse(s).Some? ==>
        IsCanonical(parse(s).value.mask) && IsNetwork(parse(s).value.net, parse(s).value.mask)
  }

  /**
   An entry that gives no error: another provider, or a Random one with a CIDR that is not empty, parses, and
   leaves at least two host bits.
   */
  predicate IsGood(parse: string -> Option<Subnet>, ipam: Ipam) {
    ipam.provider == RANDOM ==>
      ipam.randomCidr.Some? && ipam.randomCidr.value != "" &&
      var subnet := parse(ipam.randomCidr.value);
      subnet.Some? && HostLength(subnet.value.mask) >= 2
  }

  /** A usable host address of the subnet of this entry, with the prefix length of the subnet. */
  ghost predicate IsAddressFor(address: Address, parse: string -> Option<Subnet>, ipam: Ipam) {
    ipam.randomCidr.Some? &&
    match parse(ipam.randomCidr.value)
    case None => false
    case Some(Subnet(net, mask)) =>
      address.ones <= 8 * |mask| && mask == PrefixMask(address.ones, |mask|) && UsableHost(address.ip, net, mask)
  }

  /** One address for each Random entry among the first n, in the order of the entries: address i is for entry at[i]. */
  ghost predicate OneForEach(at: seq<nat>, addresses: seq<Address>, parse: string -> Option<Subnet>, ipam: seq<Ipam>,
      n: nat) {
    n <= |ipam| && Increasing(at) && (forall k: nat :: k in at <==> k < n && ipam[k].provider == "Random") &&
    |addresses| == |at| &&
    forall i :: 0 <= i < |at| ==> at[i] < n && IsAddressFor(addresses[i], parse, ipam[at[i]])
  }

  /** The random source of each entry has a draw the loop would accept. */
  ghost predicate HasUsableDraws(parse: string -> Option<Subnet>, ipam: seq<Ipam>, draws: nat -> nat -> nat -> bv8,
      usable: nat -> nat) {
    forall k :: 0 <= k < |ipam| && ipam[k].provider == RANDOM && ipam[k].randomCidr.Some? ==>
      var subnet := parse(ipam[k].randomCidr.value);
      subnet.Some? && HostLength(subnet.value.mask) >= 2 ==> Usable(draws(k)(usable(k)), subnet.value.mask)
  }

  /** Each Random entry has a CIDR, not empty, that parses to a subnet with two host bits or more. */
  ghost predicate EveryCidrIsUsable(parse: string -> Option<Subnet>, ipam: seq<Ipam>) {
    forall k :: 0 <= k < |ipam| && ipam[k].provider == "Random" ==>
      ipam[k].randomCidr.Some? && ipam[k].randomCidr.value != "" && parse(ipam[k].randomCidr.value).Some? &&
      HostLength(parse(ipam[k].randomCidr.value).value.mask) >= 2
  }

  lemma {:induction false} UsableIsGood(parse: string -> Option<Subnet>, ipam: seq<Ipam>)
    ensures EveryCidrIsUsable(parse, ipam) <==> forall k :: 0 <= k < |ipam| ==> IsGood(parse, ipam[k])
  {
    if EveryCidrIsUsable(parse, ipam) {
      forall k | 0 <= k < |ipam| ensures IsGood(parse, ipam[k]) {}
    }
    if forall k :: 0 <= k < |ipam| ==> IsGood(parse, ipam[k]) {
      forall k | 0 <= k < |ipam| && ipam[k].provider == "Random"
        ensures ipam[k].randomCidr.Some? && ipam[k].randomCidr.value != "" && parse(ipam[k].randomCidr.value).Some?
        ensures HostLength(parse(ipam[k].randomCidr.value).value.mask) >= 2
      {
        assert IsGood(parse, ipam[k]);
      }
    }
  }

  /** The address of one Random entry. */
  method RandomAddress(ipam: Ipam, parse: string -> Option<Subnet>, draws: nat -> nat -> bv8, ghost usable: nat)
    returns (r: Result<Address, string>)
    requires ParsesCidr(parse) && ipam.provider == RANDOM
    requires IsGood(parse, ipam) ==> Usable(draws(usable), parse(ipam.randomCidr.value).value.mask)
    ensures r.Ok? <==> IsGood(parse, ipam)
    ensures r.Ok? ==> IsAddressFor(r.value, parse, ipam)
  {
    if ipam.randomCidr.None? {
      return Err("random IPAM configuration is nil");
    }
    if ipam.randomCidr.value == "" {
      return Err("random IPAM CIDR is empty");
    }
    var subnet := parse(ipam.randomCidr.value);
    if subnet.None? {
      return Err("invalid random IPAM CIDR");
    }
    var ip := GenerateRandomIP(subnet.value.net, subnet.value.mask, draws, usable);
    if ip.Err? {
      return Err("failed to generate random IP");
    }
    r := Ok(Address(ip.value[..], Size(subnet.value.mask).0));
  }

  /**
   Addresses that are there already are kept; otherwise each Random entry gives one, and a bad entry fails the call.
   */
  method Allocate(ips: seq<Address>, configuration: Option<seq<Ipam>>, parse: string -> Option<Subnet>,
      draws: nat -> nat -> nat -> bv8, ghost usable: nat -> nat)
    returns (r: Result<seq<Address>, string>)
    requires ParsesCidr(parse)
    requires configuration.Some? ==> HasUsableDraws(parse, configuration.value, draws, usable)
    ensures r.Ok? <==> configuration.Some? && (ips == [] ==> EveryCidrIsUsable(parse, configuration.value))
    ensures r.Ok? && ips != [] ==> r.value == ips
    ensures r.Ok? && ips == [] ==>
        exists at: seq<nat> :: OneForEach(at, r.value, parse, configuration.value, |configuration.value|)
  {
    if configuration.None? {
      return Err("networkInterfaceConfiguration is nil");
    }
    if |ips| > 0 {
      return Ok(ips);
    }
    UsableIsGood(parse, configuration.value);
    r := AddressesFor(configuration.value, parse, draws, usable);
  }

  /** What a configurator puts into a status: the name of the interface in the pod, and its addresses. */
  datatype InterfaceData = InterfaceData(interfaceName: string, ips: seq<Address>)

  /**
   Allocate of the two configurators: whatever the status had before, a HostDevice keeps the name of the NIC
   and a Macvlan gets a random one, and every Random entry gives an address.
   */
  method AllocateInterface(c: Configurator, host: HostDevice, randomName: string, configuration: Option<seq<Ipam>>,
      parse: string -> Option<Subnet>, draws: nat -> nat -> nat -> bv8, ghost usable: nat -> nat)
    returns (r: Result<InterfaceData, string>)
    requires ParsesCidr(parse)
    requires configuration.Some? ==> HasUsableDraws(parse, configuration.value, draws, usable)
    ensures r.Ok? <==> configuration.Some? && EveryCidrIsUsable(parse, configuration.value)
    ensures r.Ok? ==> r.value.interfaceName == match c
              case HostDeviceConfigurator => host.spec.interfaceName
              case MacvlanConfigurator => randomName
    ensures r.Ok? ==>
      exists at: seq<nat> :: OneForEach(at, r.value.ips, parse, configuration.value, |configuration.value|)
  {
    var name := if c.HostDeviceConfigurator? then host.spec.interfaceName else randomName;
    var ips := Allocate([], configuration, parse, draws, usable);
    if ips.Err? {
      return Err("failed to allocate common network data");
    }
    r := Ok(InterfaceData(name, ips.value));
  }

  /** The loop over the entries. */
  method AddressesFor(entries: seq<Ipam>, parse: string -> Option<Subnet>, draws: nat -> nat -> nat -> bv8,
      ghost usable: nat -> nat)
    returns (r: Result<seq<Address>, string>)
    requires ParsesCidr(parse) && HasUsableDraws(parse, entries, draws, usable)
    ensures r.Ok? <==> forall k :: 0 <= k < |entries| ==> IsGood(parse, entries[k])
    ensures r.Ok? ==> exists at: seq<nat> :: OneForEach(at, r.value, parse, entries, |entries|)
  {
    var out: seq<Address> := [];
    ghost var at: seq<nat> := [];
    for i := 0 to |entries|
      invariant forall k :: 0 <= k < i ==> IsGood(parse, entries[k])
      invariant OneForEach(at, out, parse, entries, i)
    {
      if entries[i].provider == RANDOM {
        HasUsableDraw(parse, entries, draws, usable, i);
        var address := RandomAddress(entries[i], parse, draws(i), usable(i));
        if address.Err? {
          return Err(address.error);
        }
        OneMoreAddress(at, out, parse, entries, i, address.value);
        out := out + [address.value];
        at := at + [i];
      } else {
        OtherProvider(at, out, parse, entries, i);
      }
    }
    r := Ok(out);
  }

  lemma {:induction false} OneMoreAddress(at: seq<nat>, addresses: seq<Address>, parse: string -> Option<Subnet>,
      ipam: seq<Ipam>, i: nat, address: Address)
    requires i < |ipam| && OneForEach(at, addresses, parse, ipam, i) && IsAddressFor(address, parse, ipam[i])
    requires ipam[i].provider == "Random"
    ensures OneForEach(at + [i], addresses + [address], parse, ipam, i + 1)
  {
  }

  lemma {:induction false} OtherProvider(at: seq<nat>, addresses: seq<Address>, parse: string -> Option<Subnet>,
      ipam: seq<Ipam>, i: nat)
    requires i < |ipam| && OneForEach(at, addresses, parse, ipam, i) && ipam[i].provider != "Random"
    ensures OneForEach(at, addresses, parse, ipam, i + 1)
  {
  }

  lemma {:induction false} HasUsableDraw(parse: string -> Option<Subnet>, ipam: seq<Ipam>,
      draws: nat -> nat -> nat -> bv8, usable: nat -> nat, k: nat)
    requires HasUsableDraws(parse, ipam, draws, usable) && k < |ipam| && ipam[k].provider == RANDOM
    ensures IsGood(parse, ipam[k]) ==> Usable(draws(k)(usable(k)), parse(ipam[k].randomCidr.value).value.mask)
  {
  }
}
