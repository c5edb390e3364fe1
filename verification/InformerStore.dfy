/**
 When the informer's store says what the snapshot says, exactly, and the device cache as an object
 (pkg/host/cache.go) that keeps what this needs.
 */
module InformerStore {
  import opened Wrappers
  import opened Api
  import opened DeviceCache

  // ----- the writes of a key

  function LastWrite(writes: seq<Write>, key: string): Option<Write> {
    if writes == [] then None
    else if KeyOf(writes[|writes| - 1].e) == key then Some(writes[|writes| - 1])
    else LastWrite(writes[..|writes| - 1], key)
  }

  function LastDirect(writes: seq<Write>, key: string): Option<Event> {
    if writes == [] then None
    else
      var w := writes[|writes| - 1];
      if w.Direct? && KeyOf(w.e) == key then Some(w.e) else LastDirect(writes[..|writes| - 1], key)
  }

  function SaidBy(e: Option<Event>): Option<HostDevice> { if e.Some? then Said(e.value) else None }

  /** The store is what the last write of a key made it, and the last direct one says what the snapshot says. */
  ghost predicate WritesTell(s: State, key: string) {
    Get(s.store, key) == (match LastWrite(s.writes, key) case None => None case Some(w) => Said(w.e)) &&
    (!(key in s.syncs && s.syncs[key].InSnapshot?) ==> SaidBy(LastDirect(s.writes, key)) == Get(s.snapshot, key))
  }

  /** The events that were delivered, in order. */
  function Deliveries(writes: seq<Write>): seq<Event> {
    if writes == [] then []
    else
      var w := writes[|writes| - 1];
      Deliveries(writes[..|writes| - 1]) + (if w.Delivery? then [w.e] else [])
  }

  /** What was broadcast is what was delivered, and then what is pending. */
  ghost predicate DeliversInOrder(s: State) { s.log == Deliveries(s.writes) + s.pending }

  ghost predicate AllWritesTell(s: State) { forall key :: WritesTell(s, key) }

  ghost predicate StoreInv(s: State) { Inv(s) && DeliversInOrder(s) && AllWritesTell(s) }

  lemma OneWriteMore(writes: seq<Write>, w: Write, key: string)
    ensures LastWrite(writes + [w], key) == if KeyOf(w.e) == key then Some(w) else LastWrite(writes, key)
    ensures LastDirect(writes + [w], key) ==
            if w.Direct? && KeyOf(w.e) == key then Some(w.e) else LastDirect(writes, key)
  {
    assert (writes + [w])[..|writes|] == writes;
  }

  lemma {:induction false} OneDeliveryMore(writes: seq<Write>, w: Write)
    ensures Deliveries(writes + [w]) == if w.Delivery? then Deliveries(writes) + [w.e] else Deliveries(writes)
  {
    assert (writes + [w])[..|writes|] == writes;
  }

  lemma {:induction false} StoreItTells(s: State, k: string, key: string)
    requires Enabled(s, StoreIt(k)) && KeyOf(s.syncs[k].e) == k && StreamAgrees(s, key) && WritesTell(s, key)
    ensures WritesTell(Take(s, StoreIt(k)), key)
  {
    OneWriteMore(s.writes, Direct(s.syncs[k].e), key);
  }

  lemma {:induction false} DeliverTells(s: State, key: string)
    requires Enabled(s, Deliver) && WritesTell(s, key)
    ensures WritesTell(Take(s, Deliver), key)
  {
    OneWriteMore(s.writes, Delivery(s.pending[0]), key);
  }

  lemma {:induction false} SnapTells(s: State, k: string, key: string)
    requires Keyed(s) && Enabled(s, Snap(k)) && WritesTell(s, key)
    ensures WritesTell(Take(s, Snap(k)), key)
  {
  }

  lemma {:induction false} WritesKept(s: State, step: Step, key: string)
    requires Inv(s) && Enabled(s, step) && WritesTell(s, key)
    ensures WritesTell(Take(s, step), key)
  {
    match step
    case StoreIt(k) =>
      assert StreamAgrees(s, key);
      StoreItTells(s, k, key);
    case Deliver => DeliverTells(s, key);
    case Snap(k) => SnapTells(s, k, key);
    case _ =>
  }

  lemma {:induction false} DeliveryKept(s: State, step: Step)
    requires Enabled(s, step) && DeliversInOrder(s)
    ensures DeliversInOrder(Take(s, step))
  {
    match step
    case StoreIt(k) => OneDeliveryMore(s.writes, Direct(s.syncs[k].e));
    case Deliver =>
      OneDeliveryMore(s.writes, Delivery(s.pending[0]));
      assert s.pending == [s.pending[0]] + s.pending[1..];
    case _ =>
  }

  lemma {:induction false} StepKeepsStoreInv(s: State, step: Step)
    requires StoreInv(s) && Enabled(s, step)
    ensures StoreInv(Take(s, step))
  {
    StepKeepsInv(s, step);
    DeliveryKept(s, step);
    forall key ensures WritesTell(Take(s, step), key) { WritesKept(s, step, key); }
  }

  lemma {:induction false} NextKeepsStoreInv(b: seq<State>, steps: seq<Step>, i: nat)
    requires |b| == |steps| + 1 && i < |steps| && NextAt(b, steps, i) && StoreInv(b[i])
    ensures StoreInv(b[i + 1])
  {
    StepKeepsStoreInv(b[i], steps[i]);
  }

  lemma {:induction false} InitHasStoreInv(s: State)
    requires Init(s)
    ensures StoreInv(s)
  {
  }

  lemma {:induction false} BehaviorKeepsStoreInv(b: seq<State>, steps: seq<Step>, i: nat)
    requires Behavior(b, steps) && i < |b|
    ensures StoreInv(b[i])
  {
    if i == 0 {
      InitHasStoreInv(b[0]);
    } else {
      BehaviorKeepsStoreInv(b, steps, i - 1);
      assert NextAt(b, steps, i - 1);
      NextKeepsStoreInv(b, steps, i - 1);
    }
  }

  // ----- agreement now

  ghost predicate Agrees(s: State, key: string) { Get(s.store, key) == Get(s.snapshot, key) }

  /** The events of the key that are still to be delivered. */
  function PendingOf(s: State, key: string): seq<Event> { EventsOf(s.pending, key) }

  /** No event of the key was delivered since its last direct write. */
  predicate NoneSinceDirect(s: State, key: string) {
    LastWrite(s.writes, key).None? || LastWrite(s.writes, key).value.Direct?
  }

  /** What the last write of the key said is what its last pending event is going to say. */
  predicate SaysLastPending(s: State, key: string)
    requires PendingOf(s, key) != []
  {
    LastWrite(s.writes, key).Some? && Said(LastWrite(s.writes, key).value.e) == Known(PendingOf(s, key))
  }

  /**
   The cases in which store and snapshot agree: nothing of the key is pending, or nothing was delivered
   since its last direct write, or at least two of its events are pending and the last of them will say
   again what the last delivered one said.
   */
  predicate Settled(s: State, key: string) {
    var pending := PendingOf(s, key);
    pending == [] || NoneSinceDirect(s, key) || (|pending| >= 2 && SaysLastPending(s, key))
  }

  lemma {:induction false} LastDirectIsLast(writes: seq<Write>, key: string)
    requires LastWrite(writes, key).None? || LastWrite(writes, key).value.Direct?
    ensures LastDirect(writes, key) == match LastWrite(writes, key) case None => None case Some(w) => Some(w.e)
  {
    if writes != [] && KeyOf(writes[|writes| - 1].e) != key { LastDirectIsLast(writes[..|writes| - 1], key); }
  }

  /** A delivery that is the last write of its key is the last delivery of it. */
  lemma {:induction false} LastWriteIsLastDelivery(writes: seq<Write>, key: string)
    requires LastWrite(writes, key).Some? && LastWrite(writes, key).value.Delivery?
    ensures var events := EventsOf(Deliveries(writes), key);
            events != [] && events[|events| - 1] == LastWrite(writes, key).value.e
  {
    var n := |writes| - 1;
    var w := writes[n];
    assert writes == writes[..n] + [w];
    OneDeliveryMore(writes[..n], w);
    if KeyOf(w.e) != key { LastWriteIsLastDelivery(writes[..n], key); }
    EventsOneMore(Deliveries(writes[..n]), w.e, key);
  }

  /** With events of the key pending, the snapshot says what the last of them says. */
  lemma {:induction false} SnapshotIsLastPending(s: State, key: string)
    requires StoreInv(s) && !Busy(s, key) && PendingOf(s, key) != []
    ensures Get(s.snapshot, key) == Known(PendingOf(s, key))
  {
    assert ReplayAgrees(s, key);
    ReplaySays(s.store, s.pending, key);
  }

  /** With one event of the key pending after a delivery of another, store and snapshot differ. */
  lemma {:induction false} OnePendingDiffers(s: State, key: string)
    requires StoreInv(s) && !Busy(s, key) && |PendingOf(s, key)| == 1 && !NoneSinceDirect(s, key)
    ensures !Agrees(s, key)
  {
    var delivered := EventsOf(Deliveries(s.writes), key);
    var all := EventsOf(s.log, key);
    LastWriteIsLastDelivery(s.writes, key);
    EventsAppend(Deliveries(s.writes), s.pending, key);
    assert all == delivered + PendingOf(s, key) && all[..|delivered|] == delivered;
    assert StreamAgrees(s, key) && WritesTell(s, key);
    RoundsChange(all, |delivered|);
  }

  lemma {:induction false} AgreesExactlyIn(s: State, key: string)
    requires StoreInv(s) && !Busy(s, key)
    ensures Agrees(s, key) <==> Settled(s, key)
  {
    assert WritesTell(s, key) && ReplayAgrees(s, key);
    if PendingOf(s, key) == [] {
      ReplaySays(s.store, s.pending, key);
    } else if NoneSinceDirect(s, key) {
      LastDirectIsLast(s.writes, key);
    } else if |PendingOf(s, key)| == 1 {
      OnePendingDiffers(s, key);
    } else {
      SnapshotIsLastPending(s, key);
    }
  }

  /**
   With no sync of the key past its snapshot, the store says what the snapshot says if and only if no
   event of the key is pending, or none was delivered since the key's last direct write, or two or more
   are pending and the last of them says what the last delivered one said.
   */
  lemma AgreesExactly(b: seq<State>, steps: seq<Step>, i: nat, key: string)
    requires Behavior(b, steps) && i < |b| && !Busy(b[i], key)
    ensures Agrees(b[i], key) <==> Settled(b[i], key)
  {
    BehaviorKeepsStoreInv(b, steps, i);
    AgreesExactlyIn(b[i], key);
  }

  // ----- agreement through deliveries

  /** The store after the first n pending deliveries. */
  function Delivered(s: State, n: nat): Store
    requires n <= |s.pending|
  {
    Replay(s.store, s.pending[..n])
  }

  ghost predicate AgreesThroughout(s: State, key: string) {
    forall n: nat :: n <= |s.pending| ==> Get(Delivered(s, n), key) == Get(s.snapshot, key)
  }

  lemma {:induction false} EventsAppend(a: seq<Event>, b: seq<Event>, key: string)
    ensures EventsOf(a + b, key) == EventsOf(a, key) + EventsOf(b, key)
  {
    if b == [] {
      assert a + b == a;
    } else {
      var n := |b| - 1;
      assert (a + b)[..|a| + n] == a + b[..n];
      EventsAppend(a, b[..n], key);
    }
  }

  /** Replaying leaves a key as its last event says, or as it was. */
  lemma {:induction false} ReplaySays(store: Store, events: seq<Event>, key: string)
    ensures Get(Replay(store, events), key) ==
              if EventsOf(events, key) == [] then Get(store, key) else Known(EventsOf(events, key))
  {
    if events != [] {
      var n := |events| - 1;
      assert events == events[..n] + [events[n]];
      ReplaySays(store, events[..n], key);
      ReplayOneMore(store, events[..n], events[n]);
      EventsOneMore(events[..n], events[n], key);
    }
  }

  /** Some number of deliveries brings exactly the first m events of the key. */
  lemma {:induction false} DeliverSome(events: seq<Event>, key: string, m: nat) returns (n: nat)
    requires m <= |EventsOf(events, key)|
    ensures n <= |events| && EventsOf(events[..n], key) == EventsOf(events, key)[..m]
  {
    n := |events|;
    assert events[..n] == events;
    if m < |EventsOf(events, key)| {
      var k := |events| - 1;
      n := DeliverSome(events[..k], key, m);
      assert events[..k][..n] == events[..n];
    }
  }

  /** Every event of rounds changes what is known. */
  lemma RoundsChange(events: seq<Event>, m: nat)
    requires InRounds(events) && 0 < m == |events| - 1
    ensures Known(events[..m]) != Known(events)
  {
    assert Fits(Known(events[..m]), events[m]);
  }

  /** All but the last event of the key delivered: the store does not say what the snapshot says. */
  lemma {:induction false} DisagreesBeforeLast(s: State, key: string) returns (n: nat)
    requires StoreInv(s) && !Busy(s, key) && |PendingOf(s, key)| > 1
    ensures n <= |s.pending| && Get(Delivered(s, n), key) != Get(s.snapshot, key)
  {
    var before, pending := EventsOf(Deliveries(s.writes), key), PendingOf(s, key);
    EventsAppend(Deliveries(s.writes), s.pending, key);
    var all, m := EventsOf(s.log, key), |pending| - 1;
    assert all == before + pending;
    assert StreamAgrees(s, key);
    RoundsChange(all, |all| - 1);
    KnownOfLater(before, pending[..m]);
    assert all[..|all| - 1] == before + pending[..m];
    n := DeliverSome(s.pending, key, m);
    ReplaySays(s.store, s.pending[..n], key);
  }

  lemma {:induction false} KnownOfLater(before: seq<Event>, events: seq<Event>)
    requires events != []
    ensures Known(before + events) == Known(events)
  {
  }

  lemma {:induction false} AgreesWithOne(s: State, key: string, n: nat)
    requires StoreInv(s) && !Busy(s, key) && Agrees(s, key) && |PendingOf(s, key)| <= 1 && n <= |s.pending|
    ensures Get(Delivered(s, n), key) == Get(s.snapshot, key)
  {
    assert s.pending == s.pending[..n] + s.pending[n..];
    EventsAppend(s.pending[..n], s.pending[n..], key);
    ReplaySays(s.store, s.pending[..n], key);
    ReplaySays(s.store, s.pending, key);
    assert ReplayAgrees(s, key);
    if EventsOf(s.pending[..n], key) != [] { assert EventsOf(s.pending[n..], key) == []; }
  }

  /** Nothing of the key is pending, or one event is and none was delivered since its last direct write. */
  predicate SettledForGood(s: State, key: string) {
    var pending := PendingOf(s, key);
    pending == [] || (|pending| == 1 && NoneSinceDirect(s, key))
  }

  /**
   With no sync of the key past its snapshot, the store agrees with the snapshot now and through every
   further delivery if and only if no event of the key is pending, or one is and none was delivered
   since the key's last direct write.
   */
  lemma AgreesThroughoutExactly(b: seq<State>, steps: seq<Step>, i: nat, key: string)
    requires Behavior(b, steps) && i < |b| && !Busy(b[i], key)
    ensures AgreesThroughout(b[i], key) <==> SettledForGood(b[i], key)
  {
    var s := b[i];
    BehaviorKeepsStoreInv(b, steps, i);
    AgreesExactlyIn(s, key);
    assert s.pending[..0] == [];
    if AgreesThroughout(s, key) {
      assert Get(Delivered(s, 0), key) == Get(s.snapshot, key);
      if |PendingOf(s, key)| > 1 {
        var n := DisagreesBeforeLast(s, key);
      }
    }
    if SettledForGood(s, key) {
      forall n: nat | n <= |s.pending| ensures Get(Delivered(s, n), key) == Get(s.snapshot, key) {
        AgreesWithOne(s, key, n);
      }
    }
  }

  // ----- the cache as an object

  /** Every other key has what it had. */
  ghost predicate OthersKept(key: string, before: Store, after: Store) {
    forall k :: k != key ==> Get(after, k) == Get(before, k)
  }

  datatype Lookup = Failed | NotFound | Found(spec: DeviceSpec)

  /** The device cache, between two syncs. */
  class Cache {
    var snapshot: Store
    var store: Store
    var pending: seq<Event>
    ghost var log: seq<Event>
    ghost var writes: seq<Write>

    constructor ()
      ensures Valid() && View(map[]) == State(map[], map[], map[], [], [], [], map[])
    {
      snapshot, store, pending, log, writes := map[], map[], [], [], [];
    }

    ghost function View(links: map<string, DeviceSpec>): State
      reads this
    {
      State(links, snapshot, store, pending, log, writes, map[])
    }

    /** What every interleaving keeps. */
    ghost predicate Valid()
      reads this
    {
      StoreInv(View(map[]))
    }

    /** syncDevice without interruption: what its steps do one after the other, and nothing when the lookup fails. */
    method SyncDevice(key: string, link: Lookup, ghost links: map<string, DeviceSpec>) returns (ok: bool)
      requires Valid()
      requires link.Found? ==> key in links && links[key] == link.spec
      requires link.NotFound? ==> key !in links
      modifies this
      ensures Valid()
      ensures ok <==> !link.Failed?
      ensures !ok ==> View(links) == old(View(links))
      ensures ok ==> View(links) == Synced(old(View(links)), key)
      ensures ok && pending != old(pending) ==> Agrees(View(links), key)
      ensures ok ==> OthersKept(key, old(snapshot), snapshot) && OthersKept(key, old(store), store)
      ensures link.NotFound? ==>
        key !in snapshot &&
        if key in old(snapshot) then key !in store && pending == old(pending) + [Deleted(old(snapshot)[key])]
        else store == old(store) && pending == old(pending)
      ensures link.Found? ==>
        var d := HostDevice(key, link.spec);
        key in snapshot && snapshot[key] == d &&
        if key in old(snapshot) && old(snapshot)[key].spec == link.spec
        then store == old(store) && pending == old(pending)
        else key in store && store[key] == d &&
             pending == old(pending) + [if key in old(snapshot) then Modified(d) else Added(d)]
    {
      ghost var was := View(links);
      if link.Failed? {
        return false;
      }
      SyncLink(key, link, links);
      ok := true;
      SyncedKeepsInv(was, key);
      LinksDoNotMatter(View(links), map[]);
    }

    /** The rest, once the link is looked up. */
    method SyncLink(key: string, link: Lookup, ghost links: map<string, DeviceSpec>)
      requires KeyedByName(snapshot) && !link.Failed?
      requires link.Found? ==> key in links && links[key] == link.spec
      requires link.NotFound? ==> key !in links
      modifies this
      ensures View(links) == Synced(old(View(links)), key)
      ensures pending != old(pending) ==> Agrees(View(links), key)
      ensures OthersKept(key, old(snapshot), snapshot) && OthersKept(key, old(store), store)
      ensures link.NotFound? ==>
        key !in snapshot &&
        if key in old(snapshot) then key !in store && pending == old(pending) + [Deleted(old(snapshot)[key])]
        else store == old(store) && pending == old(pending)
      ensures link.Found? ==>
        var d := HostDevice(key, link.spec);
        key in snapshot && snapshot[key] == d &&
        if key in old(snapshot) && old(snapshot)[key].spec == link.spec
        then store == old(store) && pending == old(pending)
        else key in store && store[key] == d &&
             pending == old(pending) + [if key in old(snapshot) then Modified(d) else Added(d)]
    {
      if link.NotFound? {
        if key in snapshot {
          var existing := snapshot[key];
          snapshot := snapshot - {key};
          store := store - {existing.name};
          Send(Deleted(existing));
        }
        assert old(snapshot) - {key} == snapshot;
        return;
      }
      var entry := HostDevice(key, link.spec);
      var found := key in snapshot;
      if found && snapshot[key].spec == entry.spec {
        snapshot := snapshot[key := entry];
        return;
      }
      snapshot := snapshot[key := entry];
      store := store[entry.name := entry];
      Send(if found then Modified(entry) else Added(entry));
    }

    method Send(e: Event)
      modifies this`pending, this`log, this`writes
      ensures pending == old(pending) + [e] && log == old(log) + [e] && writes == old(writes) + [Direct(e)]
    {
      pending := pending + [e];
      log := log + [e];
      writes := writes + [Direct(e)];
    }

    /** The informer takes the next event. */
    method DeliverNext()
      requires Valid() && pending != []
      modifies this
      ensures Valid() && View(map[]) == Take(old(View(map[])), Deliver)
    {
      StepKeepsStoreInv(View(map[]), Deliver);
      var e := pending[0];
      if e.Deleted? {
        store := store - {e.device.name};
      } else {
        store := store[e.device.name := e.device];
      }
      writes := writes + [Delivery(e)];
      pending := pending[1..];
    }

    /** Get gives the store's entry, which is the snapshot's exactly in the settled cases. */
    method GetByName(key: string) returns (r: Option<HostDevice>)
      requires Valid()
      ensures r == Get(store, key)
      ensures r == Get(snapshot, key) <==> Settled(View(map[]), key)
    {
      r := if key in store then Some(store[key]) else None;
      AgreesExactlyIn(View(map[]), key);
    }
  }

  /** Begin, Snap, StoreIt and Broadcast of one key in a row. */
  function Synced(s: State, key: string): State {
    var entry := Built(s.links, key);
    var change := Change(s.snapshot, key, entry);
    var snapped := s.(snapshot := Snapped(s.snapshot, key, entry));
    if change.None? then snapped
    else
      var e := change.value;
      snapped.(store := Apply(s.store, e), writes := s.writes + [Direct(e)], pending := s.pending + [e],
          log := s.log + [e])
  }

  lemma SyncedIsSteps(s: State, key: string)
    requires key !in s.syncs
    ensures var s2 := Take(Take(s, Begin(key)), Snap(key));
            Synced(s, key) == if key in s2.syncs then Take(Take(s2, StoreIt(key)), Broadcast(key)) else s2
  {
    var s1 := Take(s, Begin(key));
    var s2 := Take(s1, Snap(key));
    if key in s2.syncs {
      assert Take(Take(s2, StoreIt(key)), Broadcast(key)).syncs == s.syncs;
    } else {
      assert s2.syncs == s.syncs;
    }
  }

  lemma SyncedKeepsInv(s: State, key: string)
    requires StoreInv(s.(links := map[])) && key !in s.syncs
    ensures StoreInv(Synced(s, key))
  {
    var s1 := Take(s, Begin(key));
    var s2 := Take(s1, Snap(key));
    SyncedIsSteps(s, key);
    LinksDoNotMatter(s.(links := map[]), s.links);
    StepKeepsStoreInv(s, Begin(key));
    StepKeepsStoreInv(s1, Snap(key));
    if key in s2.syncs {
      StepKeepsStoreInv(s2, StoreIt(key));
      StepKeepsStoreInv(Take(s2, StoreIt(key)), Broadcast(key));
    }
  }

  /** The invariant does not speak of the links. */
  lemma LinksDoNotMatter(s: State, links: map<string, DeviceSpec>)
    requires StoreInv(s)
    ensures StoreInv(s.(links := links))
  {
    var s' := s.(links := links);
    forall key ensures ReplayAgrees(s', key) && StreamAgrees(s', key) && WritesTell(s', key) {
      assert ReplayAgrees(s, key) && StreamAgrees(s, key) && WritesTell(s, key);
    }
  }
}
