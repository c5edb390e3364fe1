/**
 DeviceCache.List: the devices of the store that a list of selectors leaves (pkg/host/cache.go, pkg/host/filter.go).
 */
module Selection {
  import opened Wrappers
  import opened Api
  import opened Sequences

  /**
   CEL: whether an expression compiles, and its value on the two variables it may use, the interface
   name and whether the NIC is RDMA-capable. None stands for an evaluation error.
   */
  datatype Cel = Cel(compiles: string -> bool, value: (string, string, bool) -> Option<bool>)

  function Eval(cel: Cel, expression: string, d: HostDevice): Option<bool> {
    cel.value(expression, d.spec.interfaceName, d.spec.rdmaCapable)
  }

  /** An expression that does not compile fails even on no devices. */
  predicate Fails(cel: Cel, expression: string, devices: set<HostDevice>) {
    !cel.compiles(expression) || exists d :: d in devices && Eval(cel, expression, d).None?
  }

  /** One selector: a failing one is skipped whole. */
  function Narrow(devices: set<HostDevice>, selector: Selector, cel: Cel): set<HostDevice> {
    if selector.cel.None? || Fails(cel, selector.cel.value, devices) then devices
    else set d | d in devices && Eval(cel, selector.cel.value, d) == Some(true)
  }

  /** The selectors in order. */
  function Select(devices: set<HostDevice>, selectors: seq<Selector>, cel: Cel): (r: set<HostDevice>)
    ensures r <= devices
  {
    if selectors == [] then devices
    else Narrow(Select(devices, selectors[..|selectors| - 1], cel), selectors[|selectors| - 1], cel)
  }

  /** No expression of the list can fail on a device of the store. */
  ghost predicate NeverFails(devices: set<HostDevice>, selectors: seq<Selector>, cel: Cel) {
    forall s :: s in selectors && s.cel.Some? ==> !Fails(cel, s.cel.value, devices)
  }

  /** Selectors that cannot fail are a conjunction, whatever their order. */
  lemma {:induction false} SelectIsConjunction(devices: set<HostDevice>, selectors: seq<Selector>, cel: Cel)
    requires NeverFails(devices, selectors, cel)
    ensures Select(devices, selectors, cel) ==
            set d | d in devices && forall s :: s in selectors && s.cel.Some? ==>
                Eval(cel, s.cel.value, d) == Some(true)
  {
    if selectors != [] {
      var n := |selectors| - 1;
      var rest, last := selectors[..n], selectors[n];
      assert selectors == rest + [last];
      SelectIsConjunction(devices, rest, cel);
      assert last in selectors;
      assert last.cel.Some? ==> !Fails(cel, last.cel.value, Select(devices, rest, cel));
    }
  }

  function SetOf<T>(s: seq<T>): set<T> { set x | x in s }

  /** A set as a list, in an order nobody chose. */
  method UnsortedList<T(==)>(s: set<T>) returns (r: seq<T>)
    ensures SetOf(r) == s && |r| == |s| && NoDuplicates(r)
  {
    r := [];
    var rest := s;
    while rest != {}
      invariant rest <= s && SetOf(r) == s - rest && |r| + |rest| == |s| && NoDuplicates(r)
      decreases |rest|
    {
      var x :| x in rest;
      assert SetOf(r + [x]) == SetOf(r) + {x};
      assert forall i :: 0 <= i < |r| ==> r[i] in SetOf(r);
      r := r + [x];
      rest := rest - {x};
    }
  }

  ghost predicate NoDuplicates<T>(s: seq<T>) { forall i, j :: 0 <= i < j < |s| ==> s[i] != s[j] }

  /** Whether an expression is true of a device. */
  function IsTrueOf(cel: Cel, expression: string): HostDevice -> bool { d => Eval(cel, expression, d) == Some(true) }

  /** EvalDevices: the matching devices, in their order, or nothing at all if compilation or one evaluation fails. */
  method EvalDevices(cel: Cel, expression: string, devices: seq<HostDevice>) returns (r: Option<seq<HostDevice>>)
    ensures r.None? <==>
              !cel.compiles(expression) ||
              exists d :: d in devices && cel.value(expression, d.spec.interfaceName, d.spec.rdmaCapable).None?
    ensures r.Some? ==> exists at: seq<nat> :: PicksTrue(at, cel, expression, devices, r.value)
    ensures r.Some? ==> forall d :: d in r.value <==>
              d in devices && cel.value(expression, d.spec.interfaceName, d.spec.rdmaCapable) == Some(true)
  {
    if !cel.compiles(expression) {
      return None;
    }
    var filtered := [];
    for i := 0 to |devices|
      invariant forall k :: 0 <= k < i ==> Eval(cel, expression, devices[k]).Some?
      invariant filtered == Filtered(devices[..i], IsTrueOf(cel, expression))
    {
      var match_ := Eval(cel, expression, devices[i]);
      assert devices[..i + 1] == devices[..i] + [devices[i]];
      FilteredOneMore(devices[..i], devices[i], IsTrueOf(cel, expression));
      if match_.None? {
        assert devices[i] in devices;
        return None;
      }
      if match_.value {
        filtered := filtered + [devices[i]];
      }
    }
    assert devices[..|devices|] == devices;
    ghost var at := FilteredExactly(devices, IsTrueOf(cel, expression));
    assert PicksTrue(at, cel, expression, devices, filtered);
    FilteredMembers(devices, IsTrueOf(cel, expression));
    r := Some(filtered);
  }

  /** The devices at these positions, which are those of the true ones, in order. */
  ghost predicate PicksTrue(at: seq<nat>, cel: Cel, expression: string, devices: seq<HostDevice>, r: seq<HostDevice>) {
    Increasing(at) && |at| == |r| && (forall i :: 0 <= i < |at| ==> at[i] < |devices| && r[i] == devices[at[i]]) &&
    forall k: nat :: k in at <==>
      k < |devices| &&
      cel.value(expression, devices[k].spec.interfaceName, devices[k].spec.rdmaCapable) == Some(true)
  }

  /**
   One selector, from what came before to what is left: nothing changes without an expression, or if it
   does not compile or fails on some device; otherwise the devices of which it is true are left.
   */
  ghost predicate Stage(cel: Cel, before: set<HostDevice>, s: Selector, after: set<HostDevice>) {
    if s.cel.None? || !cel.compiles(s.cel.value) then after == before
    else if exists d :: d in before && cel.value(s.cel.value, d.spec.interfaceName, d.spec.rdmaCapable).None? then
      after == before
    else
      forall d :: d in after <==>
        d in before && cel.value(s.cel.value, d.spec.interfaceName, d.spec.rdmaCapable) == Some(true)
  }

  /** The selectors one after the other. */
  ghost predicate Stages(cel: Cel, stages: seq<set<HostDevice>>, selectors: seq<Selector>) {
    |stages| == |selectors| + 1 && forall k :: 0 <= k < |selectors| ==>
        Stage(cel, stages[k], selectors[k], stages[k + 1])
  }

  lemma {:induction false} SelectInStages(devices: set<HostDevice>, selectors: seq<Selector>, cel: Cel)
      returns (stages: seq<set<HostDevice>>)
    ensures Stages(cel, stages, selectors) && stages[0] == devices
    ensures stages[|selectors|] == Select(devices, selectors, cel)
  {
    stages := [devices];
    if selectors != [] {
      var n := |selectors| - 1;
      var before := SelectInStages(devices, selectors[..n], cel);
      stages := before + [Select(devices, selectors, cel)];
      assert Stage(cel, before[n], selectors[n], stages[n + 1]);
      forall k | 0 <= k < |selectors| ensures Stage(cel, stages[k], selectors[k], stages[k + 1]) {
        if k < n { assert Stage(cel, before[k], selectors[..n][k], before[k + 1]); }
      }
    }
  }

  /** List: narrows the store selector by selector, and lists each device once. */
  method List(store: Store, selectors: seq<Selector>, cel: Cel) returns (r: seq<HostDevice>)
    ensures SetOf(r) == Select(store.Values, selectors, cel) && NoDuplicates(r)
    ensures exists stages ::
      Stages(cel, stages, selectors) && stages[0] == store.Values && SetOf(r) == stages[|selectors|]
  {
    var result := store.Values;
    for i := 0 to |selectors|
      invariant result == Select(store.Values, selectors[..i], cel)
    {
      assert selectors[..i + 1][..i] == selectors[..i];
      if selectors[i].cel.Some? {
        var devices := UnsortedList(result);
        assert forall d :: d in devices <==> d in SetOf(devices);
        var evaluated := EvalDevices(cel, selectors[i].cel.value, devices);
        if evaluated.Some? {
          result := SetOf(evaluated.value);
        }
      }
    }
    assert selectors[..|selectors|] == selectors;
    ghost var stages := SelectInStages(store.Values, selectors, cel);
    r := UnsortedList(result);
  }
}
