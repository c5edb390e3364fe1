/** The resources the agent works on, reduced to the fields its decisions read. */
module Api {
  import opened Wrappers

  // ----- host NICs

  datatype DeviceSpec = DeviceSpec(
    interfaceName: string,
    interfaceIndex: int,
    rdmaCapable: bool,
    parentIndex: int,
    masterIndex: int,
    linkLayerType: string,
    deviceType: string)

  datatype HostDevice = HostDevice(name: string, spec: DeviceSpec)

  /** The store of the device informer: devices under their own name. */
  type Store = map<string, HostDevice>

  ghost predicate KeyedByName(store: Store) { forall k :: k in store ==> store[k].name == k }

  // ----- DeviceNetwork

  /** Node selector syntax is kept abstract: only whether it is valid, and whether it matches, is used. */
  datatype NodeSelector = NodeSelector(terms: seq<string>)

  datatype Selector = Selector(cel: Option<string>)

  datatype DeviceSelector = DeviceSelector(name: string, selectors: seq<Selector>, nodeSelector: Option<NodeSelector>)

  datatype MacvlanConfig = MacvlanConfig(mode: Option<string>)

  datatype DeviceConfiguration = DeviceConfiguration(
    name: string,
    deviceSelectors: seq<string>,
    deviceType: Option<string>,
    macvlan: Option<MacvlanConfig>,
    hasHostDevice: bool)

  datatype Ipam = Ipam(provider: string, randomCidr: Option<string>)

  datatype DeviceNetwork = DeviceNetwork(
    name: string,
    deviceSelectors: seq<DeviceSelector>,
    deviceConfigurations: seq<DeviceConfiguration>,
    ipam: seq<Ipam>)

  const HOST_DEVICE: string := "HostDevice"
  const MACVLAN: string := "Macvlan"

  /** The device type of a configuration, HostDevice when none is given. */
  function GetDeviceType(dc: DeviceConfiguration): string {
    if dc.deviceType.None? then HOST_DEVICE else dc.deviceType.value
  }

  /** The mode of a Macvlan configuration, bridge when none is given. */
  function GetMacvlanMode(dc: DeviceConfiguration): string {
    if dc.macvlan.Some? && dc.macvlan.value.mode.Some? then dc.macvlan.value.mode.value else "bridge"
  }

  // ----- published devices

  const MUTUAL_EXCLUSION: string := "mutual-exclusion"
  const COUNTER_VALUE: nat := 65536
  const MAX_VIRTUAL_DEVICES: nat := 65535

  const ATTR_DEVICE_TYPE: string := "devicenetwork.io/deviceType"
  const ATTR_POD_NETWORK: string := "multinetwork.networking.x-k8s.io/podNetwork"
  const ATTR_POD_NETWORK_KIND: string := "multinetwork.networking.x-k8s.io/podNetworkKind"
  const ATTR_CONFIGURATION: string := "devicenetwork.io/deviceConfiguration"
  const ATTR_HOST_DEVICE: string := "devicenetwork.io/hostDeviceName"
  const CAP_MAX_VIRTUAL_INTERFACES: string := "devicenetwork.io/maxVirtualInterfaces"

  /** A capacity whose requests default to one and may only be one of the valid values. */
  datatype Capacity = Capacity(value: nat, default: nat, validValues: seq<nat>)

  datatype Consumption = Consumption(counterSet: string, counters: map<string, nat>)

  datatype Device = Device(
    name: string,
    attributes: map<string, string>,
    capacity: map<string, Capacity>,
    allowMultipleAllocations: bool,
    consumesCounters: seq<Consumption>)

  datatype CounterSet = CounterSet(name: string, counters: map<string, nat>)
}
