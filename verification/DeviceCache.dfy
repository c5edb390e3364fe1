/**
 The device cache (pkg/host/cache.go): a snapshot, the informer's store, which syncDevice writes
 directly, and the broadcast events that the same informer later replays into that store.
 Broadcasts are taken to arrive in order and none to be dropped, and store operations to succeed.
 */
module DeviceCache {
  import opened Wrappers
  import opened Api

  datatype Event = Added(device: HostDevice) | Modified(device: HostDevice) | Deleted(device: HostDevice)

  function KeyOf(e: Event): string { e.device.name }

  /** What an event does to a store. */
  function Apply(store: Store, e: Event): Store {
    if e.Deleted? then store - {KeyOf(e)} else store[KeyOf(e) := e.device]
  }

  /** The events in order. */
  function Replay(store: Store, events: seq<Event>): Store
    decreases |events|
  {
    if events == [] then store else Replay(Apply(store, events[0]), events[1..])
  }

  function Get(m: Store, key: string): Option<HostDevice> { if key in m then Some(m[key]) else None }

  // ----- syncDevice, in its atomic steps

  /** The device built from the link of a name; none when the link does not exist. */
  function Built(links: map<string, DeviceSpec>, key: string): Option<HostDevice> {
    if key in links then Some(HostDevice(key, links[key])) else None
  }

  /** The snapshot after the section under the mutex. */
  function Snapped(snapshot: Store, key: string, entry: Option<HostDevice>): Store {
    if entry.Some? then snapshot[key := entry.value] else snapshot - {key}
  }

  /** What is then to be stored and broadcast, if anything. */
  function Change(snapshot: Store, key: string, entry: Option<HostDevice>): Option<Event> {
    match entry
    case None => if key in snapshot then Some(Deleted(snapshot[key])) else None
    case Some(d) =>
      if key !in snapshot then Some(Added(d))
      else if snapshot[key].spec == d.spec then None
      else Some(Modified(d))
  }

  /** Where the sync of one key is: the link is looked up, the snapshot is written, the store is written. */
  datatype Sync = LookedUp(entry: Option<HostDevice>) | InSnapshot(e: Event) | InStore(e: Event)

  /** A write to the store: by syncDevice itself, or by the informer that takes an event. */
  datatype Write = Direct(e: Event) | Delivery(e: Event)

  datatype State = State(
    links: map<string, DeviceSpec>,
    snapshot: Store,
    store: Store,
    pending: seq<Event>,
    log: seq<Event>,
    writes: seq<Write>,
    syncs: map<string, Sync>)

  datatype Step =
    | LinkChanges(name: string, spec: Option<DeviceSpec>)
    | Begin(key: string)
    | Snap(key: string)
    | StoreIt(key: string)
    | Broadcast(key: string)
    | Deliver

  /** The work queue gives a key to one worker at a time. */
  predicate Enabled(s: State, step: Step) {
    match step
    case LinkChanges(_, _) => true
    case Begin(key) => key !in s.syncs
    case Snap(key) => key in s.syncs && s.syncs[key].LookedUp?
    case StoreIt(key) => key in s.syncs && s.syncs[key].InSnapshot?
    case Broadcast(key) => key in s.syncs && s.syncs[key].InStore?
    case Deliver => s.pending != []
  }

  function Take(s: State, step: Step): State
    requires Enabled(s, step)
  {
    match step
    case LinkChanges(name, spec) => s.(links := if spec.Some? then s.links[name := spec.value] else s.links - {name})
    case Begin(key) => s.(syncs := s.syncs[key := LookedUp(Built(s.links, key))])
    case Snap(key) =>
      var entry := s.syncs[key].entry;
      var change := Change(s.snapshot, key, entry);
      s.(snapshot := Snapped(s.snapshot, key, entry),
         syncs := if change.Some? then s.syncs[key := InSnapshot(change.value)] else s.syncs - {key})
    case StoreIt(key) =>
      var e := s.syncs[key].e;
      s.(store := Apply(s.store, e), writes := s.writes + [Direct(e)], syncs := s.syncs[key := InStore(e)])
    case Broadcast(key) =>
      var e := s.syncs[key].e;
      s.(pending := s.pending + [e], log := s.log + [e], syncs := s.syncs - {key})
    case Deliver =>
      s.(store := Apply(s.store, s.pending[0]), writes := s.writes + [Delivery(s.pending[0])],
          pending := s.pending[1..])
  }

  ghost predicate Init(s: State) {
    s.snapshot == map[] && s.store == map[] && s.pending == [] && s.log == [] && s.writes == [] && s.syncs == map[]
  }

  ghost predicate NextAt(b: seq<State>, steps: seq<Step>, i: int)
    requires |b| == |steps| + 1 && 0 <= i < |steps|
  {
    Enabled(b[i], steps[i]) && b[i + 1] == Take(b[i], steps[i])
  }

  ghost predicate Behavior(b: seq<State>, steps: seq<Step>) {
    |b| == |steps| + 1 && Init(b[0]) && forall i :: 0 <= i < |steps| ==> NextAt(b, steps, i)
  }

  // ----- one key's events

  function EventsOf(log: seq<Event>, key: string): seq<Event> {
    if log == [] then []
    else EventsOf(log[..|log| - 1], key) + (if KeyOf(log[|log| - 1]) == key then [log[|log| - 1]] else [])
  }

  /** What a listener that starts with nothing knows of a device after these events of it. */
  function Known(events: seq<Event>): Option<HostDevice> {
    if events == [] then None else Said(events[|events| - 1])
  }

  function Said(e: Event): Option<HostDevice> { if e.Deleted? then None else Some(e.device) }

  /** An Added for an unknown device, a Modified that changes the spec of a known one, a Deleted of a known one. */
  predicate Fits(known: Option<HostDevice>, e: Event) {
    match e
    case Added(_) => known.None?
    case Modified(d) => known.Some? && known.value.spec != d.spec
    case Deleted(d) => known == Some(d)
  }

  /** Rounds of one Added, any number of Modified and one Deleted, the last of which may be unfinished. */
  ghost predicate InRounds(events: seq<Event>) {
    forall i :: 0 <= i < |events| ==> Fits(Known(events[..i]), events[i])
  }

  // ----- the invariant

  /** Between the snapshot and the broadcast of its key. */
  predicate Busy(s: State, key: string) { key in s.syncs && !s.syncs[key].LookedUp? }

  ghost predicate Keyed(s: State) {
    KeyedByName(s.snapshot) &&
    forall key :: key in s.syncs ==>
      match s.syncs[key]
      case LookedUp(entry) => entry.Some? ==> entry.value.name == key
      case InSnapshot(e) => KeyOf(e) == key
      case InStore(e) => KeyOf(e) == key
  }

  /** Replaying what is pending into the store gives the snapshot. */
  ghost predicate ReplayAgrees(s: State, key: string) {
    !Busy(s, key) ==> Get(Replay(s.store, s.pending), key) == Get(s.snapshot, key)
  }

  /** The broadcasts of a key are in rounds and, but for the one still to come, tell what the snapshot says. */
  ghost predicate StreamAgrees(s: State, key: string) {
    Tells(EventsOf(s.log, key), if Busy(s, key) then Some(s.syncs[key].e) else None, Get(s.snapshot, key))
  }

  /** These events, and then the one to come, are in rounds and end in what is known. */
  ghost predicate Tells(events: seq<Event>, coming: Option<Event>, known: Option<HostDevice>) {
    InRounds(events) &&
    match coming
    case None => Known(events) == known
    case Some(e) => Fits(Known(events), e) && Known(events + [e]) == known
  }

  ghost predicate Inv(s: State) {
    Keyed(s) && forall key :: ReplayAgrees(s, key) && StreamAgrees(s, key)
  }

  // ----- replay works key by key

  lemma {:induction false} ReplayIsPerKey(a: Store, b: Store, events: seq<Event>, key: string)
    requires Get(a, key) == Get(b, key)
    ensures Get(Replay(a, events), key) == Get(Replay(b, events), key)
    decreases |events|
  {
    if events != [] { ReplayIsPerKey(Apply(a, events[0]), Apply(b, events[0]), events[1..], key); }
  }

  lemma {:induction false} ReplaySkipsOthers(store: Store, events: seq<Event>, key: string)
    requires forall e :: e in events ==> KeyOf(e) != key
    ensures Get(Replay(store, events), key) == Get(store, key)
    decreases |events|
  {
    if events != [] { ReplaySkipsOthers(Apply(store, events[0]), events[1..], key); }
  }

  lemma {:induction false} ReplayOneMore(store: Store, events: seq<Event>, e: Event)
    ensures Replay(store, events + [e]) == Apply(Replay(store, events), e)
    decreases |events|
  {
    if events == [] {
      assert [e][1..] == [];
    } else {
      assert (events + [e])[1..] == events[1..] + [e];
      ReplayOneMore(Apply(store, events[0]), events[1..], e);
    }
  }

  lemma EventsOneMore(log: seq<Event>, e: Event, key: string)
    ensures EventsOf(log + [e], key) == if KeyOf(e) == key then EventsOf(log, key) + [e] else EventsOf(log, key)
  {
    assert (log + [e])[..|log|] == log;
  }

  lemma RoundsOneMore(events: seq<Event>, e: Event)
    requires InRounds(events) && Fits(Known(events), e)
    ensures InRounds(events + [e])
  {
    forall i | 0 <= i <= |events| ensures Fits(Known((events + [e])[..i]), (events + [e])[i]) {
      if i < |events| { assert (events + [e])[..i] == events[..i]; } else { assert (events + [e])[..i] == events; }
    }
  }

  // ----- every step keeps the invariant

  lemma SnapKeeps(s: State, key: string)
    requires Inv(s) && Enabled(s, Snap(key))
    ensures Inv(Take(s, Snap(key)))
  {
    var s' := Take(s, Snap(key));
    forall k ensures ReplayAgrees(s', k) && StreamAgrees(s', k) {
      assert ReplayAgrees(s, k) && StreamAgrees(s, k);
    }
  }

  lemma StoreKeeps(s: State, key: string)
    requires Inv(s) && Enabled(s, StoreIt(key))
    ensures Inv(Take(s, StoreIt(key)))
  {
    var s' := Take(s, StoreIt(key));
    forall k ensures ReplayAgrees(s', k) && StreamAgrees(s', k) {
      assert ReplayAgrees(s, k) && StreamAgrees(s, k);
      if k != key { ReplayIsPerKey(s.store, s'.store, s.pending, k); }
    }
  }

  lemma BroadcastKeepsReplay(s: State, key: string, k: string)
    requires Enabled(s, Broadcast(key)) && ReplayAgrees(s, k) && StreamAgrees(s, k) && KeyOf(s.syncs[key].e) == key
    ensures ReplayAgrees(Take(s, Broadcast(key)), k)
  {
    ReplayOneMore(s.store, s.pending, s.syncs[key].e);
  }

  lemma BroadcastKeepsOwnStream(s: State, key: string)
    requires Enabled(s, Broadcast(key)) && StreamAgrees(s, key) && KeyOf(s.syncs[key].e) == key
    ensures StreamAgrees(Take(s, Broadcast(key)), key)
  {
    EventsOneMore(s.log, s.syncs[key].e, key);
    RoundsOneMore(EventsOf(s.log, key), s.syncs[key].e);
  }

  lemma BroadcastKeepsOtherStream(s: State, key: string, k: string)
    requires Enabled(s, Broadcast(key)) && StreamAgrees(s, k) && KeyOf(s.syncs[key].e) == key && k != key
    ensures StreamAgrees(Take(s, Broadcast(key)), k)
  {
    EventsOneMore(s.log, s.syncs[key].e, k);
  }

  lemma BroadcastKeeps(s: State, key: string)
    requires Inv(s) && Enabled(s, Broadcast(key))
    ensures Inv(Take(s, Broadcast(key)))
  {
    var s' := Take(s, Broadcast(key));
    forall k ensures ReplayAgrees(s', k) && StreamAgrees(s', k) {
      assert ReplayAgrees(s, k) && StreamAgrees(s, k);
      BroadcastKeepsReplay(s, key, k);
      if k == key { BroadcastKeepsOwnStream(s, key); } else { BroadcastKeepsOtherStream(s, key, k); }
    }
  }

  lemma StepKeepsInv(s: State, step: Step)
    requires Inv(s) && Enabled(s, step)
    ensures Inv(Take(s, step))
  {
    match step
    case Snap(key) => SnapKeeps(s, key);
    case StoreIt(key) => StoreKeeps(s, key);
    case Broadcast(key) => BroadcastKeeps(s, key);
    case _ =>
      forall k ensures ReplayAgrees(Take(s, step), k) && StreamAgrees(Take(s, step), k) {
        assert ReplayAgrees(s, k) && StreamAgrees(s, k);
      }
  }

  lemma {:induction false} BehaviorKeepsInv(b: seq<State>, steps: seq<Step>, i: nat)
    requires Behavior(b, steps) && i < |b|
    ensures Inv(b[i])
  {
    if i > 0 {
      BehaviorKeepsInv(b, steps, i - 1);
      assert NextAt(b, steps, i - 1);
      StepKeepsInv(b[i - 1], steps[i - 1]);
    }
  }

  // ----- the guarantees

  /** How many steps the sync of a key still takes. */
  function StepsLeft(s: State, key: string): nat {
    if key !in s.syncs then 0
    else match s.syncs[key]
      case LookedUp(_) => 3
      case InSnapshot(_) => 2
      case InStore(_) => 1
  }

  /**
   Nothing waits for anything but its own key: links change at any time, what is pending can be delivered, a
   key without a sync can begin one, and a sync in progress has a next step, after which fewer are left.
   */
  lemma SyncProceeds(s: State, key: string, name: string, spec: Option<DeviceSpec>) returns (step: Step)
    ensures Enabled(s, LinkChanges(name, spec)) && (s.pending != [] ==> Enabled(s, Deliver))
    ensures key !in s.syncs ==> step == Begin(key)
    ensures key in s.syncs ==> step in {Snap(key), StoreIt(key), Broadcast(key)}
    ensures Enabled(s, step) && (key in s.syncs ==> StepsLeft(Take(s, step), key) < StepsLeft(s, key) <= 3)
  {
    step := Begin(key);
    if key in s.syncs {
      match s.syncs[key]
      case LookedUp(_) => step := Snap(key);
      case InSnapshot(_) => step := StoreIt(key);
      case InStore(_) => step := Broadcast(key);
    }
  }

  /** Until its Snap, the sync of a key holds what the links said at its Begin. */
  lemma {:induction false} LookUpIsHeld(b: seq<State>, steps: seq<Step>, i: nat, m: nat, key: string)
    requires Behavior(b, steps) && i < m <= |steps| && steps[i] == Begin(key)
    requires forall j :: i < j < m ==> steps[j] != Snap(key)
    ensures key in b[m].syncs
    ensures b[m].syncs[key] ==
            LookedUp(if key in b[i].links then Some(HostDevice(key, b[i].links[key])) else None)
  {
    assert NextAt(b, steps, m - 1);
    if i + 1 < m { LookUpIsHeld(b, steps, i, m - 1, key); }
  }

  /**
   What a sync leaves: after the section under the mutex, the snapshot has the key exactly as the links had
   it when the sync looked it up, and not at all if there was no such link; other keys have what they had.
   */
  lemma SnapshotTellsLinks(b: seq<State>, steps: seq<Step>, i: nat, j: nat, key: string)
    requires Behavior(b, steps) && i < j < |steps| && steps[i] == Begin(key) && steps[j] == Snap(key)
    requires forall m :: i < m < j ==> steps[m] != Snap(key)
    ensures key in b[j + 1].snapshot <==> key in b[i].links
    ensures key in b[i].links ==> b[j + 1].snapshot[key] == HostDevice(key, b[i].links[key])
    ensures forall other :: other != key ==> Get(b[j + 1].snapshot, other) == Get(b[j].snapshot, other)
  {
    LookUpIsHeld(b, steps, i, j, key);
    assert NextAt(b, steps, j);
  }

  /** Only a Snap of a key changes what the snapshot says of it. */
  lemma OnlySnapChanges(b: seq<State>, steps: seq<Step>, i: nat, key: string)
    requires Behavior(b, steps) && i < |steps| && steps[i] != Snap(key)
    ensures Get(b[i + 1].snapshot, key) == Get(b[i].snapshot, key)
  {
    assert NextAt(b, steps, i);
  }

  /**
   Whatever workers, link changes and deliveries interleave: for a key with no sync past its
   snapshot, delivering what is pending makes the store say what the snapshot says, and if no event
   of the key is pending it says so already.
   */
  lemma CacheAgreement(b: seq<State>, steps: seq<Step>, i: nat, key: string)
    requires Behavior(b, steps) && i < |b| && !Busy(b[i], key)
    ensures Get(Replay(b[i].store, b[i].pending), key) == Get(b[i].snapshot, key)
    ensures (forall e :: e in b[i].pending ==> KeyOf(e) != key) ==> Get(b[i].store, key) == Get(b[i].snapshot, key)
  {
    BehaviorKeepsInv(b, steps, i);
    assert ReplayAgrees(b[i], key);
    if forall e :: e in b[i].pending ==> KeyOf(e) != key {
      ReplaySkipsOthers(b[i].store, b[i].pending, key);
    }
  }

  /** The broadcasts of every key come in rounds, and a listener to all of them knows what the snapshot says. */
  lemma EventStream(b: seq<State>, steps: seq<Step>, i: nat, key: string)
    requires Behavior(b, steps) && i < |b|
    ensures InRounds(EventsOf(b[i].log, key))
    ensures !Busy(b[i], key) ==> Get(Replay(map[], b[i].log), key) == Get(b[i].snapshot, key)
  {
    BehaviorKeepsInv(b, steps, i);
    assert StreamAgrees(b[i], key);
    FoldIsKnown(b[i].log, key);
  }

  lemma {:induction false} FoldIsKnown(log: seq<Event>, key: string)
    ensures Get(Replay(map[], log), key) == Known(EventsOf(log, key))
    decreases |log|
  {
    if log != [] {
      var n := |log| - 1;
      assert log == log[..n] + [log[n]];
      FoldIsKnown(log[..n], key);
      ReplayOneMore(map[], log[..n], log[n]);
      EventsOneMore(log[..n], log[n], key);
    }
  }

  /** Within a round: what can come before an event of a key. */
  lemma RoundsReadOut(events: seq<Event>, i: nat)
    requires InRounds(events) && i < |events|
    ensures events[i].Added? <==> i == 0 || events[i - 1].Deleted?
    ensures events[i].Modified? ==> events[i - 1].device.spec != events[i].device.spec
    ensures events[i].Deleted? ==> events[i - 1].device == events[i].device
  {
    assert Fits(Known(events[..i]), events[i]);
    assert i > 0 ==> events[..i][i - 1] == events[i - 1];
  }

  // ----- why pending events matter

  ghost predicate Reachable(s: State) {
    exists b, steps :: Behavior(b, steps) && b[|b| - 1] == s
  }

  lemma ReachOn(s: State, step: Step)
    requires Reachable(s) && Enabled(s, step)
    ensures Reachable(Take(s, step))
  {
    var b, steps :| Behavior(b, steps) && b[|b| - 1] == s;
    var b', steps' := b + [Take(s, step)], steps + [step];
    forall i | 0 <= i < |steps'| ensures NextAt(b', steps', i) {
      if i < |steps| { assert NextAt(b, steps, i); }
    }
    assert Behavior(b', steps');
  }

  /** The link of d appears or changes, and its sync goes through uninterrupted. */
  lemma SyncOne(s: State, d: HostDevice, e: Event, s': State)
    requires Reachable(s) && s.syncs == map[] && Change(s.snapshot, d.name, Some(d)) == Some(e) && KeyOf(e) == d.name
    requires s' == s.(links := s.links[d.name := d.spec], snapshot := s.snapshot[d.name := d],
        store := Apply(s.store, e),
                      pending := s.pending + [e], log := s.log + [e], writes := s.writes + [Direct(e)])
    ensures Reachable(s')
  {
    var s1 := Take(s, LinkChanges(d.name, Some(d.spec)));
    var s2 := Take(s1, Begin(d.name));
    var s3 := Take(s2, Snap(d.name));
    var s4 := Take(s3, StoreIt(d.name));
    ReachOn(s, LinkChanges(d.name, Some(d.spec)));
    ReachOn(s1, Begin(d.name));
    ReachOn(s2, Snap(d.name));
    ReachOn(s3, StoreIt(d.name));
    ReachOn(s4, Broadcast(d.name));
    assert Take(s4, Broadcast(d.name)).syncs == map[];
  }

  const OLD: HostDevice := HostDevice("eth0", DeviceSpec("eth0", 2, false, 0, 0, "ether", "device"))
  const NEW: HostDevice := OLD.(spec := OLD.spec.(masterIndex := 7))

  /**
   The delivery of an old event puts an old device back into a store that had the new one, though no sync is in
   progress.
   */
  lemma StaleUntilDelivered() returns (s: State)
    ensures Reachable(s) && s.syncs == map[]
    ensures Get(s.snapshot, "eth0") == Some(NEW) && Get(s.store, "eth0") == Some(OLD) && s.pending == [Modified(NEW)]
  {
    var s0 := State(map[], map[], map[], [], [], [], map[]);
    assert Behavior([s0], []);
    var s1 := State(map["eth0" := OLD.spec], map["eth0" := OLD], map["eth0" := OLD], [Added(OLD)], [Added(OLD)],
        [Direct(Added(OLD))], map[]);
    SyncOne(s0, OLD, Added(OLD), s1);
    var both := [Added(OLD), Modified(NEW)];
    var s2 := State(map["eth0" := NEW.spec], map["eth0" := NEW], map["eth0" := NEW], both, both,
        [Direct(Added(OLD)), Direct(Modified(NEW))], map[]);
    SyncOne(s1, NEW, Modified(NEW), s2);
    ReachOn(s2, Deliver);
    s := Take(s2, Deliver);
  }
}
