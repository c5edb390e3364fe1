# DeviceNetwork: a verified model

DeviceNetwork is a Kubernetes node agent. It watches the NICs of a host, publishes them as DRA
devices that share a mutual-exclusion counter per NIC, resolves an allocated device back to the
configuration it was published for, assigns addresses, and configures pod namespaces in background
goroutines. This project models the parts of it that hold state, concurrency or arithmetic, and
proves what they are for.

| file | what it models |
|---|---|
| `ProcessMachine.dfy` | `run`, `terminate`, `isDone` and the three NRI hooks as an interleaved step system: any number of calls with program counters, the plugin mutex, one mutex per process, channels that are closed, cancel functions, and a log |
| `ProcessProgress.dfy` | no deadlock, a measure that falls on every step, every call finishes |
| `ProcessFinish.dfy` | every interleaving can be carried on to a finished one, and what then has happened to a pod |
| `ProcessGuarantees.dfy` | what a "done" answer, a refusal and a return of `terminate` imply |
| `ProcessOrder.dfy` | which devices a run configures, and in which order |
| `ProcessPods.dfy`, `ProcessHandOut.dfy` | the process map: whose process a hook finds, that none is lost or handed out twice, what a removal leaves behind |
| `ProcessHooks.dfy`, `ProcessProtocol.dfy` | what RunPodSandbox builds and what the other hooks find; what each call has gone through, in order, when it is back |
| `ProcessSerial.dfy`, `ProcessCancels.dfy` | several runs on one process one after the other; that no run's context is leaked |
| `ProcessWitnesses.dfy`, `SupersededWitness.dfy` | an interleaving in which a container starts before anything is configured, and the pod is configured after it was removed; another one, for a pod that was sandboxed twice |
| `ConfigurationProcess.dfy` | the loop of `configureResourceClaim`, and the process as an object with a whole run that nobody interferes with |
| `Wrappers.dfy`, `Sequences.dfy` | options and results; what a filter keeps of a list |
| `Api.dfy`, `Selection.dfy`, `Publication.dfy` | the resources, `List` and `EvalDevices`, and `getResources` with the two configurators |
| `Allocation.dfy`, `MacvlanBound.dfy`, `TwoMacvlans.dfy` | the shared counter over whole runs of allocations, releases and republications; when the documented bound on Macvlans holds, and networks for which it does not |
| `Resolution.dfy`, `NameCollision.dfy` | the device ID index and `getDeviceNetworkForDevice`; when device names collide, with the collision the code itself names; the round trip and its exact condition |
| `RandomIp.dfy`, `IpAllocation.dfy` | `generateRandomIP` on bytes and as an integer range; `Allocate` of the common and of the two configurators |
| `DeviceCache.dfy`, `InformerStore.dfy` | `syncDevice`: snapshot, store, and the events that are replayed into the store; exactly when store and snapshot agree; the cache as an object |
| `Preparation.dfy` | claim preparation, the status in the API server, the store of claims per pod |
| `HostMove.dfy` | the order in which a NIC and its RDMA devices move into a pod |
| `Validation.dfy` | the validators and what an empty error list means |
| `ReconcileQueue.dfy` | the single-key reconcile queue |
| `EndToEnd.dfy` | from validated networks to the configurator that is called in the pod |

## How to read it

Concurrent code is a state machine whose steps are single lock, unlock, critical-section, channel
and loop-iteration steps of one call; the theorems are about every behavior. In-place code is a
class or an array with methods, each proved against a specification function, and the
lemmas are about that function. Everything else is datatypes, functions and lemmas.

Where the code and its documentation, or its apparent intent, part ways, the model follows the code:

- `isDone` answers true while no run has installed its channel (pkg/nri/process.go:76-78), so
  StartContainer can let a container start before anything is configured, and a `terminate` in that
  window waits for nothing. `ProcessWitnesses.StartsBeforeConfigured` is such an interleaving.
  `ProcessGuarantees.StartupWindow` shows that this is the only gap: a call has read a channel exactly
  when a run had installed one before the read.
- A process that passed in that window is out of the map, so a later RemovePodSandbox of the pod finds
  nothing and does not terminate its run, which goes on to configure the pod:
  `ProcessWitnesses.ConfiguresAfterRemoval`. `ProcessHandOut.RemovalGate` says when a process can still
  work after a removal: only if it was handed out in that window, by a StartContainer or by the removal
  itself, or if its pod had been sandboxed again (`SupersededWitness.ConfiguresSuperseded`). And such a
  process is always run through in the end: `ProcessFinish.EarlyHandOutLeadsToWork`.
- Device names of different configurations can coincide (pkg/controllers/devicenetwork/reconciler.go:202).
  `Resolution.NamesDistinctExactly` gives the exact condition, prefix-freedom; names without dashes meet it.
  `NameCollision.TwoDevicesOneName` has the code's own example as two published devices, one of which
  resolves to the network and configuration that the other was published for.
- docs/demo.md:72-76 speaks of up to 65535 Macvlans on an interface. One Macvlan device has at most 65535
  shares, but two Macvlan devices on one NIC (from two configurations) share a counter of 65536, and
  `MacvlanBound.TwoDevicesReach65536` is a run that allocates all of them. The documented bound holds if
  and only if at most one configuration publishes the NIC as Macvlan: `MacvlanBound.BoundHoldsForNetworks`.
  `TwoMacvlans.NetworksReach65536` has networks that publish such a NIC.
- Preparing a claim again updates its status in the API server, but the stored claim stays the first
  version (pkg/store/memory.go:47-53); see `Preparation.SecondVersionIsNotStored`.
- A delivered old event can put an old device back into the informer's store until the newer event is
  delivered as well; see `DeviceCache.StaleUntilDelivered`. `InformerStore.AgreesExactly` and
  `InformerStore.AgreesThroughoutExactly` say, by what is pending and what was delivered last, exactly when
  the store says what the snapshot says, now and through every further delivery.
- No code outside its own test calls the validator, so validity of the networks is a hypothesis of
  the lemmas of `EndToEnd.dfy` that need it, not a fact about the agent.

## Model

| member | source | states |
|---|---|---|
| ProcessMachine.StepKeepsInv | pkg/nri/process.go:71-130 | every step of every call keeps mutual exclusion of both kinds of mutex, and that every channel a process holds or a call has read was installed by a run on that process |
| ProcessMachine.BehaviorKeepsInv | pkg/nri/plugin.go:91-179 | that invariant holds in every reachable state, for any number of hooks, runs, terminates and isDones |
| ProcessProgress.MutexHolderRuns | pkg/nri/process.go:71-116 | whoever holds a process mutex never waits for anything |
| ProcessProgress.ChannelOwnerRuns | pkg/nri/process.go:113-130 | an installed channel that is still open belongs to a run that can step; it needs no mutex and waits on no channel |
| ProcessProgress.BlockerRuns | pkg/nri/plugin.go:161-179 | a started call is stopped by at most one other call, and that one can step, also for a hook that waits under the plugin mutex |
| ProcessProgress.DeadlockFree | pkg/nri/plugin.go:161-179 | as long as some call is unfinished, some call can step |
| ProcessProgress.StoppedByAnother | pkg/nri/process.go:71-130 | an unfinished call that cannot step waits for a process mutex that another call holds, for the installed and open channel of another run, or for the plugin mutex that another hook holds, and for nothing else |
| ProcessProgress.MeasureFalls | pkg/nri/process.go:134-174 | a measure over program points, remaining claims, remaining devices and runs still to be started falls on every step, whether a Configure succeeds or fails |
| ProcessProgress.BehaviorsAreBounded | pkg/nri/process.go:89-130 | no interleaving has more steps than the measure of its first state |
| ProcessProgress.StoppedMeansFinished | pkg/nri/process.go:106-130 | an interleaving that cannot go on has finished every call and closed the channel of every run |
| ProcessFinish.Finishes | pkg/nri/process.go:89-130 | every interleaving can be carried on, with its log and its calls, to one in which every call has returned |
| ProcessFinish.BuiltIsRunThrough | pkg/nri/plugin.go:110-122 | in a finished interleaving every process that RunPodSandbox built has had a run that went through all of its claims |
| ProcessFinish.SandboxIsRunThrough | pkg/nri/plugin.go:91-122 | in a finished interleaving a RunPodSandbox of a pod with claims and a network namespace has had a run through all of its claims, and any other has built nothing |
| ProcessFinish.EarlyHandOutIsWorkedLater | pkg/nri/process.go:71-86 | in a finished interleaving, a process handed out on a read that found no channel has been run through, and all work on it lies after that read |
| ProcessFinish.EarlyHandOutLeadsToWork | pkg/nri/process.go:71-86 | every interleaving with such a hand-out can be carried on to one that shows this |
| ProcessGuarantees.CompletionGate | pkg/nri/plugin.go:127-149 | with one run per process, a StartContainer that passes and a terminate that returns from an installed channel come after configureResourceClaim has returned for every claim, and no device of the process is configured afterwards |
| ProcessGuarantees.StartupWindow | pkg/nri/process.go:71-86 | such a call read a channel exactly when some run had installed one before the read; if none had, no claim of the process had been touched at the read |
| ProcessGuarantees.CloseOnceCancelOnce | pkg/nri/process.go:89-121 | each channel is closed at most once (a second close would panic) and each cancel function is taken by at most one terminate |
| ProcessGuarantees.RefusesOnlyOpen | pkg/nri/process.go:80-85 | StartContainer refuses only for a channel that a run had installed on the process and that is still open |
| ProcessGuarantees.ClosedRunRests | pkg/nri/process.go:118-121 | once a run has closed its channel it configures nothing and returns from no claim |
| ProcessOrder.ConfiguresExactly | pkg/nri/process.go:123-174 | a run that has closed its channel has configured, of every claim, exactly the devices with a configurator that stand behind no malformed status and no failed Configure, however it was interleaved |
| ProcessOrder.ConfiguresInOrder | pkg/nri/process.go:123-174 | in every interleaving a run configures in the order of claims and devices, so no device twice |
| ProcessGuarantees.BehaviorKeepsSole | pkg/nri/plugin.go:110-122 | RunPodSandbox starts at most one run on a process it builds, so one run per process is kept whatever interleaves |
| ProcessGuarantees.BehaviorKeepsLogInv | pkg/nri/process.go:71-130 | the history of every reachable state justifies each of its events |
| ProcessPods.PodGate | pkg/nri/plugin.go:91-179 | when a hook of a pod passes with a channel installed, its process was built before, once, by a RunPodSandbox of this very pod, and all claims that this call brought have been gone through; the process does nothing afterwards |
| ProcessPods.BehaviorKeepsBuilt | pkg/nri/plugin.go:110-119 | every process was built once, by a logged RunPodSandbox of one pod with the claims of that call, and the process under a pod in the map, or at work in a hook, was built for that pod |
| ProcessHooks.SandboxBuildsExactly | pkg/nri/plugin.go:98-119 | a RunPodSandbox that has returned or released the plugin mutex has built a process with exactly its claims if and only if there are claims and a network namespace |
| ProcessHooks.LookUpFindsExactly | pkg/nri/plugin.go:134-137 | a hook finds exactly the process of its pod that was neither handed out nor superseded, and nothing if there is none |
| ProcessProtocol.RunGoesThrough | pkg/nri/process.go:106-130 | a run that has returned has, in this order and nothing else, taken and waited for what it found, installed its channel, closed it, and taken and waited for what there was then |
| ProcessProtocol.CallGoesThrough | pkg/nri/process.go:71-102 | a terminate that has returned took what there was and returned from that channel; an isDone answered for what it had read |
| ProcessProtocol.HookGoesThrough | pkg/nri/plugin.go:127-179 | a StartContainer or RemovePodSandbox that is back looked up its pod, did nothing more if it found nothing, and otherwise went through isDone, or terminate, of the process it found |
| ProcessHandOut.HandedOutOnce | pkg/nri/plugin.go:134-148 | every process is handed out at most once: after a StartContainer has passed, no StartContainer finds the process again and no RemovePodSandbox terminates it |
| ProcessHandOut.NoProcessIsLost | pkg/nri/plugin.go:110-179 | every process that RunPodSandbox built is in the map under its own pod, or has been handed out, or the same pod was sandboxed again later |
| ProcessHandOut.MapExactly | pkg/nri/plugin.go:110-179 | while no hook holds the plugin mutex, the map has exactly the processes that were neither handed out nor superseded |
| ProcessHandOut.RemovalGate | pkg/nri/plugin.go:161-179 | after a RemovePodSandbox that found nothing or is back from terminate, a process built for the pod before still works only if it was handed out on a read that found no channel, or the pod had been sandboxed again |
| ProcessHandOut.BehaviorKeepsMapInv | pkg/nri/plugin.go:110-179 | in every reachable state the map is injective, has the newest process of each pod, and a hook at work has its process still in it |
| ProcessCancels.NoContextLeaks | pkg/nri/process.go:106-121 | with any number of runs per process, each entering after the one before has installed, once every call has returned the context of every run has been cancelled |
| ProcessSerial.RunsAreSerial | pkg/nri/process.go:106-130 | if each run enters after the one before has installed its channel, no two runs of a process are ever in the claim loop together, whatever other terminates interleave |
| ProcessSerial.SoleIsSerial | pkg/nri/plugin.go:110-122 | with one run per process, as the plugin starts them, every interleaving keeps to that order |
| ProcessWitnesses.StartsBeforeConfigured | pkg/nri/process.go:76-78 | a reachable state in which StartContainer has passed while the only run of the pod has not begun |
| ProcessWitnesses.ConfiguresAfterRemoval | pkg/nri/plugin.go:170-173 | a reachable state in which RemovePodSandbox has found nothing and returned, and the run has configured a device afterwards |
| SupersededWitness.ConfiguresSuperseded | pkg/nri/plugin.go:117-119 | a reachable state in which a process whose pod was sandboxed again has configured a device after RemovePodSandbox had returned, although no hook ever had it |
| ConfigurationProcess.ConfigureResourceClaim | pkg/nri/process.go:134-174 | Configure is called, in order, for exactly the driver's statuses that have a payload with a configuration of a type with a configurator and stand behind none of the driver's that has not, or has failed; it reports success if there is none such |
| ConfigurationProcess.Process.Run | pkg/nri/process.go:106-130 | an undisturbed run calls Configure for exactly the reached devices of every claim, in order, whether or not a claim before failed, and leaves its channel closed, its context cancelled and isDone true |
| Selection.List | pkg/host/cache.go:209-241 | the listed devices, each once, are those at the end of a chain of stages, one per selector: unchanged by a selector that has no expression, does not compile or fails on some device, narrowed to the devices of which it is true otherwise |
| Selection.EvalDevices | pkg/host/filter.go:27-45 | the matching devices in their order and multiplicity, or an error exactly if the expression does not compile or some evaluation fails |
| Selection.SelectIsConjunction | pkg/host/cache.go:216-238 | selectors that cannot fail select their conjunction, in whatever order |
| Publication.GetResources | pkg/controllers/devicenetwork/reconciler.go:104-199 | exactly one device per network, configuration and NIC that is to be published, in some order, and exactly one full counter for each NIC drawn on |
| Publication.CollectForSelector | pkg/controllers/devicenetwork/reconciler.go:111-127 | for each name, the devices that the last selector of that name leaves which has no node selector, or one that matches without error; no others |
| Publication.CollectForConfiguration | pkg/controllers/devicenetwork/reconciler.go:135-144 | the NICs of all referenced selectors, each once by name |
| Publication.ExposeConfiguration | pkg/controllers/devicenetwork/reconciler.go:146-174 | adds one device for each supported NIC of the configuration and marks its counter as drawn, in any map order |
| Publication.BuildDevice | pkg/controllers/devicenetwork/reconciler.go:156-170 | the exposed device under its published name with the five attributes that name its origin |
| Publication.SharedCounters | pkg/controllers/devicenetwork/reconciler.go:178-186 | one full counter set per NIC drawn on, without duplicates |
| Publication.PublishedDeclaratively | pkg/controllers/devicenetwork/reconciler.go:110-174 | with unique selector names, a NIC is published for a configuration if and only if some referenced selector applies to the node and lists it and the configurator exists and supports it |
| Publication.PublishedExactly | pkg/configurators/hostdevice.go:77-104 | with the two configurators, a listed NIC is published for a configuration of type HostDevice, or none, if and only if it is not loopback, bridge, bond, team or tuntap and has no parent and no master; for type Macvlan if and only if it is Ethernet without a master and the mode is one of the five or not given; for any other type never |
| Publication.DeviceExactly | pkg/controllers/devicenetwork/reconciler.go:156-174 | the whole published device, to its name, attributes, capacity, sharing and draw |
| Publication.OrderDoesNotMatter | pkg/controllers/devicenetwork/reconciler.go:146-176 | two reconciles over the same inputs publish the same devices up to order |
| Publication.DrawsByType | pkg/configurators/hostdevice.go:109-150 | a HostDevice draws the whole counter of its NIC and is not shared; a Macvlan draws one unit per share and has a capacity of 65535 |
| Allocation.GetResourcesIsWellPublished | pkg/configurators/macvlan.go:90-140 | every pool that getResources publishes has the shape the counter argument needs: each device on one NIC that has a full counter |
| Allocation.RunKeepsInv | pkg/controllers/devicenetwork/reconciler.go:178-186 | published shape, conservation and share limits hold after any run of allocations, releases and republications |
| Allocation.ReleaseUndoesAllocate | docs/demo.md:72-76 | a release takes back all that its allocation did |
| Allocation.ReleaseExactly | docs/demo.md:72-76 | exactly the released allocation goes, and only its NIC gets units back, one for a Macvlan share and 65536 for a HostDevice |
| Allocation.RepublishExactly | pkg/controllers/devicenetwork/reconciler.go:178-186 | a republication keeps every allocation and what is left of every known NIC, and a new NIC starts full |
| Allocation.ExclusiveOwnership | docs/demo.md:72-76 | over every run, a NIC with a HostDevice allocation has no other allocation, across all networks and configurations |
| Allocation.ConservationAndBounds | docs/demo.md:72-76 | free units and live draws of each NIC always make up 65536; a Macvlan device has at most 65535 shares, all of them on one NIC at most 65536 |
| Allocation.HostDeviceNeedsIdleNic | pkg/configurators/hostdevice.go:138-147 | a HostDevice can be allocated if and only if nothing else holds its NIC |
| Allocation.MacvlanNeedsNoHostDevice | pkg/configurators/macvlan.go:119-136 | a Macvlan share can be allocated if and only if no HostDevice holds the NIC and neither the counter nor the device's capacity is used up |
| MacvlanBound.TwoDevicesReach65536 | docs/demo.md:72-76 | from any publication with two Macvlan devices on one NIC, a run in which 65536 shares are live on it together |
| MacvlanBound.BoundHoldsExactly | docs/demo.md:72-76 | the shares on a NIC stay within 65535 over every run if and only if at most one Macvlan device is published on it |
| MacvlanBound.BoundHoldsForNetworks | pkg/controllers/devicenetwork/reconciler.go:146-186 | for what getResources publishes, if and only if at most one configuration of one network publishes the NIC as Macvlan |
| MacvlanBound.OneDeviceBounds | pkg/configurators/macvlan.go:119-136 | over any run, with republications, a NIC with one published Macvlan device has at most 65535 shares |
| TwoMacvlans.NetworksReach65536 | docs/demo.md:72-76 | for a network with two Macvlan configurations on one selector, a run on whatever getResources publishes has 65536 shares live on the NIC |
| Resolution.IndexKeys | pkg/resolver/resolver.go:77-93 | the index function gives one key per device of a slice |
| Resolution.IndexedExactly | pkg/resolver/resolver.go:77-93 | the index gives for a key exactly the slices of its driver and pool that have a device of its name |
| Resolution.GivesExactly | pkg/resolver/resolver.go:149-198 | the lookup in a slice succeeds if and only if the first device of the name has all four attributes, the resolver's kind, a listed network with a configuration of the name and a NIC that the cache has, and gives just these |
| Resolution.GetDevice | pkg/resolver/resolver.go:132-198 | a result is what the lookup in some slice that holds the key gives; an error means that no slice holds the key, or that the lookup in one that does gives nothing |
| Resolution.Find | pkg/resolver/resolver.go:149-195 | the scans of the slice and of the network give the first item of the name, or none if there is none |
| Resolution.NamesCollideExactly | pkg/controllers/devicenetwork/reconciler.go:201-204 | two configurations give some two NICs, neither with an empty name, one device name if and only if one name prefix begins the other |
| Resolution.NamesDistinctExactly | pkg/controllers/devicenetwork/reconciler.go:201-204 | device names tell all origins apart, whatever the NICs are called, if and only if no configuration's prefix begins another's |
| Resolution.NoDashesArePrefixFree | pkg/controllers/devicenetwork/reconciler.go:201-204 | unique names without dashes meet that condition |
| Resolution.PublishedNamesDiffer | pkg/controllers/devicenetwork/reconciler.go:161-173 | under it, all published device names differ |
| Resolution.RoundTrip | pkg/resolver/resolver.go:115-198 | under it, resolving any published device gives exactly the network, configuration, device and NIC it was published for |
| Resolution.RoundTripExactly | pkg/resolver/resolver.go:115-198 | for unique network and configuration names, every published device resolves to its own origin if and only if the published names differ |
| Resolution.FirstResolves | pkg/resolver/resolver.go:149-195 | a name resolves to the origin of the first published device that has it |
| NameCollision.TwoDevicesOneName | pkg/controllers/devicenetwork/reconciler.go:201-204 | networks "a-b" and "a" with configurations "c" and "b-c" publish NIC "d" twice under one name, and the name of the one device resolves to the network and configuration of the other |
| Resolution.ResultAgrees | pkg/resolver/resolver.go:132-198 | without any condition on names, a result agrees with the attributes of some device published under that name |
| Resolution.TypeIsPublishedType | pkg/resolver/resolver.go:186-195 | with unique configuration names, the resolved configuration has the device type that was published |
| RandomIp.GenerateRandomIP | pkg/configurators/common.go:134-164 | fails exactly below two host bits; otherwise stops at the first usable pass, no later than a given one, and returns a usable host address with the prefix untouched |
| RandomIp.DrawPass | pkg/configurators/common.go:141-158 | one pass or-s the drawn host bits into the address, and the two flags say whether these are all zero or all one |
| RandomIp.RejectionIsExact | pkg/configurators/common.go:151-160 | a pass is rejected exactly for the host numbers 0 and 2^h - 1 (section 3.2.1.3 of RFC 1122), for any byte length |
| RandomIp.UsablePassIsUsableHost | pkg/configurators/common.go:147-161 | an accepted pass, read as a big-endian number, lies strictly between the network address and the broadcast address |
| RandomIp.EveryUsableHostIsDrawn | pkg/configurators/common.go:147-161 | every usable host number is what some draw returns |
| RandomIp.PrefixLengthIsUnique | pkg/configurators/common.go:135-138 | the mask of a prefix length (section 3.1 of RFC 4632) has that length and no other |
| RandomIp.HostLengthExactly | pkg/configurators/common.go:135-138 | at least two host bits are left exactly by the canonical masks of a prefix that is two bits shorter or more; a mask that is not canonical leaves none |
| RandomIp.HostMaskValue | pkg/configurators/common.go:148-156 | the inverted mask of h host bits is the number 2^h - 1 |
| IpAllocation.Allocate | pkg/configurators/common.go:81-132 | keeps addresses that are there; otherwise gives one usable host address, with the prefix length of its subnet, for each entry with provider Random, in the order of the entries; fails exactly for a missing configuration or a Random entry without a CIDR that parses and leaves two host bits |
| IpAllocation.AllocateInterface | pkg/configurators/macvlan.go:146-169 | whatever the status had before, a HostDevice keeps the name of the NIC and a Macvlan gets a random one, with an address for every Random entry; fails exactly as the addresses do |
| DeviceCache.CacheAgreement | pkg/host/cache.go:243-300 | in every reachable state, for a key with no sync past its snapshot, replaying the undelivered events into the store gives the snapshot, and so does the store itself when no event of the key is pending |
| DeviceCache.EventStream | pkg/host/cache.go:250-299 | the broadcasts of a key come in rounds of Added, Modified, Deleted, and folding all of them from nothing gives the snapshot |
| DeviceCache.SyncProceeds | pkg/host/cache.go:118-134 | links change and events are delivered at any time, a key without a sync can begin one, and a sync in progress always has a next step, of at most three |
| DeviceCache.SnapshotTellsLinks | pkg/host/cache.go:243-273 | after the section under the mutex the snapshot has the key exactly as the links had it when the sync looked it up, and not at all if there was no such link; other keys keep what they had |
| DeviceCache.OnlySnapChanges | pkg/host/cache.go:250-273 | nothing else changes what the snapshot says of a key |
| DeviceCache.FoldIsKnown | pkg/host/cache.go:79-108 | folding a stream gives for each key what its own events say |
| DeviceCache.StaleUntilDelivered | pkg/host/cache.go:281-284 | a reachable state without any sync in progress in which the store has an older spec than the snapshot |
| InformerStore.AgreesExactly | pkg/host/cache.go:243-300 | for a key with no sync past its snapshot, store and snapshot agree if and only if no event of the key is pending, or none was delivered since its last direct write, or two or more are pending and the last of them says what the last delivered one said |
| InformerStore.AgreesThroughoutExactly | pkg/host/cache.go:243-300 | they agree now and through every further delivery if and only if no event of the key is pending, or one is and none was delivered since its last direct write |
| InformerStore.BehaviorKeepsStoreInv | pkg/host/cache.go:243-300 | in every reachable state the store has what the last write of each key says, the last direct write says what the snapshot says, and what was delivered and what is pending make up what was broadcast |
| InformerStore.Cache.SyncDevice | pkg/host/cache.go:243-300 | keeps the invariant of the interleavings; a vanished link is taken out of snapshot and store and Deleted is sent if it was known; a found one is in the snapshot with its spec, stored and sent as Added if it was new, as Modified exactly if its spec differs; other keys keep what they had; a failed lookup changes nothing |
| InformerStore.Cache.DeliverNext | pkg/host/cache.go:79-108 | the informer applies the oldest undelivered event to the store, and the invariant is kept |
| InformerStore.Cache.GetByName | pkg/host/cache.go:189-206 | gives the store's entry, which is the snapshot's exactly in the cases of AgreesExactly |
| Preparation.Driver.NodePrepareResource | pkg/driver/driver.go:183-237 | succeeds if and only if the claim has one reservation and an allocation, each of the driver's results resolves to a device without a missing part whose type has a configurator that allocates it, and the status is accepted; on success status and store get the prepared claim; on any failure neither changes |
| Preparation.Driver.AllocateAll | pkg/driver/driver.go:195-220 | each of the driver's results prepared in order, or none because one of them fails |
| Preparation.Driver.PrepareResourceClaims | pkg/driver/driver.go:142-158 | whatever resolver and configurators answer for each claim of the batch: the result of each claim UID is that of its last claim, no other UID has one, exactly the successes are stored, in order, as prepared, and the API server has the statuses of the successes on top of what was there |
| Preparation.PreparedInOrder | pkg/driver/driver.go:239-364 | devices and statuses stand one to one, in order, for the driver's results: the resolved identity, the exposed attributes, the resolved network, NIC and configuration in the payload, and in both the network data that the configurator of the type chose |
| Preparation.OwnExactly | pkg/driver/driver.go:195-198 | the results that are prepared are exactly those with the driver's name, in the order of the allocation |
| Preparation.AppliedExactly | pkg/driver/driver.go:222-227 | a forced apply leaves the statuses of every other driver in their order and puts the driver's own behind them |
| Preparation.UpdatedExactly | pkg/driver/driver.go:222-233 | the claim that is stored is the claim with these statuses and nothing else changed |
| Preparation.Memory.Add | pkg/store/memory.go:43-58 | appends a claim unless its UID is stored for the pod |
| Preparation.Memory.Get | pkg/store/memory.go:61-66 | the first version of each claim added for the pod since it was last deleted, in arrival order |
| Preparation.Memory.Delete | pkg/store/memory.go:68-72 | the pod has no claims afterwards and every other pod has what it had |
| Preparation.StoreKeepsFirstVersions | pkg/store/memory.go:43-72 | over any sequence of additions and deletions a pod's list is the first version of each claim UID since the pod was last deleted, in arrival order |
| Preparation.FirstVersionsHaveAll | pkg/store/memory.go:43-72 | a UID is in that list exactly when some addition for the pod since then had it |
| Preparation.FirstVersionsExactly | pkg/store/memory.go:43-72 | the list is made of exactly the additions for the pod, in their order, after which it was not deleted and before which no addition of the UID still counted |
| Preparation.SecondVersionIsNotStored | pkg/store/memory.go:47-53 | the version stored after a second preparation is still the first |
| HostMove.Kernel.Configure | pkg/configurators/hostdevice.go:187-265 | succeeds if and only if the status is one of a HostDevice, the namespace opens, the RDMA devices can be discovered, every one of them moves and the NIC is there and moves; the NIC moves last, and a failure leaves it where it was with exactly the RDMA devices before the first stuck one moved |
| HostMove.MoveAllMoves | pkg/configurators/hostdevice.go:244-253 | the move puts exactly the listed devices into the pod's namespace |
| Validation.ValidateDeviceNetwork | apis/v1alpha1/validation/validation.go:26-65 | the error list is empty if and only if the spec is well-formed |
| Validation.SoundAndComplete | apis/v1alpha1/validation/validation.go:32-152 | no errors if and only if the sizes, unique names, references in both directions, expression rule, node selectors and device-type rule hold |
| Validation.ListSelectorNames | apis/v1alpha1/validation/validation.go:154-160 | the set of selector names |
| Validation.ListUsedSelectorNames | apis/v1alpha1/validation/validation.go:162-170 | the set of selector names some configuration references |
| Validation.ValidateItems | pkg/validation/helpers.go:38-51 | the errors of the items, in order |
| Validation.ValidateSet | pkg/validation/helpers.go:53-84 | only TooMany above a limit that is not negative; otherwise the item errors and then one Duplicate per repeated key |
| Validation.ValidateSlice | pkg/validation/helpers.go:89-102 | only TooMany above a limit that is not negative; otherwise the item errors |
| Validation.SizeComesFirst | pkg/validation/helpers.go:53-102 | above the limit TooMany is the only error; otherwise there are the item errors, and for sets behind them one per repeated key |
| Validation.ItemErrorsInOrder | pkg/validation/helpers.go:38-51 | all errors of every item are in the list, between those of the items before and after it |
| Validation.SelectorViolations | apis/v1alpha1/validation/validation.go:67-116 | everything wrong with a selector is reported by its kind of error, whatever else is wrong |
| Validation.ConfigurationViolations | apis/v1alpha1/validation/validation.go:118-152 | everything wrong with a configuration is reported by its kind of error, whatever else is wrong |
| Validation.ListViolations | apis/v1alpha1/validation/validation.go:32-65 | missing, too long and repeating lists are reported |
| Validation.DuplicatesAreCounted | pkg/validation/helpers.go:68-81 | the number of Duplicate errors is the length less the number of distinct keys |
| Validation.NoDuplicateErrors | pkg/validation/helpers.go:68-81 | there is none exactly when all keys differ |
| ReconcileQueue.NoLostReconcile | pkg/controllers/devicenetwork/devicenetwork.go:135-161 | for any interleaving of events, workers, failures and retries, as long as an event has come since the start of the last successful Reconcile the key is queued, awaiting a retry, being reconciled or about to be queued again |
| ReconcileQueue.NothingToComeMeansSeen | pkg/controllers/devicenetwork/devicenetwork.go:140-157 | when nothing is to come, the last Reconcile succeeded and started after every event |
| ReconcileQueue.Controller.ProcessNextWorkItem | pkg/controllers/devicenetwork/devicenetwork.go:140-157 | keeps the invariant; after a success no event is unseen and, without earlier failures to retry, nothing is to come; after a failure one more retry is, and the key is cared for |
| ReconcileQueue.Controller.OnEvent | pkg/controllers/devicenetwork/devicenetwork.go:159-161 | keeps the invariant, and the key is cared for whatever the worker is at |
| ReconcileQueue.Controller.Retry | pkg/controllers/devicenetwork/devicenetwork.go:154 | the delayed add of a failed item keeps the invariant and leaves the key cared for |
| ReconcileQueue.Controller.IsSettled | pkg/controllers/devicenetwork/devicenetwork.go:135-161 | nothing queued, retried or at work means that every event has been seen |
| EndToEnd.ConfiguredAsPublished | pkg/driver/driver.go:273-303 | while networks are unchanged and configuration names are unique, the configurator called for a prepared device is the one of the type published under its name |
| EndToEnd.StoredCallsPublished | pkg/nri/process.go:134-174 | what configureResourceClaim does with a stored claim is, in order, one call per result of the driver, of the configurator of the type published under its device name |
| EndToEnd.ValidNetworksHaveUniqueNames | apis/v1alpha1/validation/validation.go:32-65 | validation gives the uniqueness that publication and resolution need |
| EndToEnd.ValidNetworksRoundTrip | pkg/resolver/resolver.go:115-198 | valid networks under distinct names without dashes publish distinct device names and each resolves to what it was published for |

## Left out

- Generated clients, informers and deep copies, command-line wiring, manifests, scripts and end-to-end tests: nothing there decides anything.
- Netlink, network namespaces, sysfs, the API server and the NRI stub are parameters or steps that succeed or fail.
- Compilation and evaluation of CEL expressions (pkg/host/filter.go:47-86): an expression is a function of the interface name and RDMA capability, where no result stands for an error.
- Node selector syntax and matching: an abstract validity check and an abstract match.
- The client-go work queue, informer and index: taken to give a key to one worker at a time, to deliver events in order, and to look keys up exactly; dropped events (the broadcaster drops on a full channel), relisting and shutdown are not modelled.
- JSON of the status payload is taken to be faithful; its error path is not modelled.
- The text form of a device ID is taken to be injective.
- Log lines, error texts, field paths, status conditions, timestamps and hardware addresses are not kept.
- Uniqueness of addresses across pods, and of random interface names: the code does not establish either.
- Release and nodeUnprepareResource have no behaviour to model.
- Macvlan.Configure creates a link through netlink; only the choice of the configurator that is called is modelled.
- pollDevices enqueues only NICs that exist, so removal of a vanished NIC is shown only for a key that is synced.
- The store of NICs does not change during one getResources.
- A critical section of a process is one step between its lock and unlock, and so is one Configure; the effect that cancelling a context has inside Configure is left to the choice of its outcome.
- ProcessProgress.StoppedMeansFinished: takes each Configure to return, as a step of its own.
- ProcessGuarantees.CompletionGate: speaks of calls that read an installed channel; in the start-up window the property is false, as ProcessWitnesses.StartsBeforeConfigured shows.
- ProcessSerial.RunsAreSerial: needs the entry discipline in its hypothesis; the plugin itself starts one run per process.
- Preparation.Driver.NodePrepareResource: the API server is keyed by claim UID, and the claim it returns has the reservation of the claim that was sent.
- Resolution.GetDevice: when several slices hold a key, which one is looked at is not determined, as in the code.
- ConfigurationProcess.Process.Run: is the run with nobody interfering; ProcessOrder.ConfiguresExactly has every interleaving.
- InformerStore.Cache.SyncDevice: is one sync without interruption; the interleavings are those of DeviceCache.
