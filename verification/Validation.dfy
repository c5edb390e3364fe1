/** Validation of a DeviceNetwork (apis/v1alpha1/validation/validation.go, pkg/validation/helpers.go). */
module Validation {
  import opened Wrappers
  import opened Api

  const DEVICE_SELECTOR_MAX: nat := 4
  const DEVICE_CONFIGURATION_MAX: nat := 4
  const SELECTOR_PER_CONFIGURATION_MAX: nat := 4
  const SELECTOR_PER_DEVICE_SELECTOR_MAX: nat := 1
  const EXPRESSION_MAX_LENGTH: nat := 10 * 1024

  /** An error of the list, by its kind; paths are not kept. */
  datatype Error = Forbidden | Required | TooMany | TooLong | NotFound | Duplicate | Invalid | BadNodeSelector

  type Errors = seq<Error>

  // ----- the generic validators

  /** The errors of the items, in order. */
  function ItemErrors<T>(items: seq<T>, check: T -> Errors): Errors {
    if items == [] then [] else ItemErrors(items[..|items| - 1], check) + check(items[|items| - 1])
  }

  /** A Duplicate for each item whose key an earlier item has. */
  function DuplicateErrors<T, K(==)>(items: seq<T>, key: T -> K): Errors {
    if items == [] then []
    else
      var n := |items| - 1;
      DuplicateErrors(items[..n], key) + (if key(items[n]) in Keys(items[..n], key) then [Duplicate] else [])
  }

  function Keys<T, K(==)>(items: seq<T>, key: T -> K): set<K> { set i | 0 <= i < |items| :: key(items[i]) }

  function SetErrors<T, K(==)>(items: seq<T>, maxSize: int, check: T -> Errors, key: T -> K): Errors {
    if maxSize >= 0 && |items| > maxSize then [TooMany] else ItemErrors(items, check) + DuplicateErrors(items, key)
  }

  function SliceErrors<T>(items: seq<T>, maxSize: int, check: T -> Errors): Errors {
    if maxSize >= 0 && |items| > maxSize then [TooMany] else ItemErrors(items, check)
  }

  method ValidateItems<T>(items: seq<T>, check: T -> Errors) returns (errors: Errors)
    ensures errors == ItemErrors(items, check)
  {
    errors := [];
    for i := 0 to |items|
      invariant errors == ItemErrors(items[..i], check)
    {
      assert items[..i + 1][..i] == items[..i];
      errors := errors + check(items[i]);
    }
    assert items[..|items|] == items;
  }

  method ValidateSet<T, K(==)>(items: seq<T>, maxSize: int, check: T -> Errors, key: T -> K) returns (errors: Errors)
    ensures errors == SetErrors(items, maxSize, check, key)
  {
    if maxSize >= 0 && |items| > maxSize {
      return [TooMany];
    }
    errors := ValidateItems(items, check);
    var seen: set<K> := {};
    ghost var itemErrors := errors;
    for i := 0 to |items|
      invariant seen == Keys(items[..i], key)
      invariant errors == itemErrors + DuplicateErrors(items[..i], key)
    {
      assert items[..i + 1][..i] == items[..i];
      assert Keys(items[..i + 1], key) == Keys(items[..i], key) + {key(items[i])} by {
        assert items[..i + 1][i] == items[i];
        assert forall j :: 0 <= j < i ==> items[..i + 1][j] == items[..i][j];
      }
      if key(items[i]) in seen {
        errors := errors + [Duplicate];
      } else {
        seen := seen + {key(items[i])};
      }
    }
    assert items[..|items|] == items;
  }

  method ValidateSlice<T>(items: seq<T>, maxSize: int, check: T -> Errors) returns (errors: Errors)
    ensures errors == SliceErrors(items, maxSize, check)
  {
    if maxSize >= 0 && |items| > maxSize {
      return [TooMany];
    }
    errors := ValidateItems(items, check);
  }

  // ----- what the error lists mean

  lemma {:induction false} NoItemErrors<T>(items: seq<T>, check: T -> Errors)
    ensures ItemErrors(items, check) == [] <==> forall x :: x in items ==> check(x) == []
  {
    if items != [] {
      var n := |items| - 1;
      NoItemErrors(items[..n], check);
      assert items == items[..n] + [items[n]];
    }
  }

  /** Too long a list gives that error only; any other the errors of its items and then those of repeated keys. */
  lemma {:induction false} SizeComesFirst<T, K>(items: seq<T>, maxSize: int, check: T -> Errors, key: T -> K)
    ensures var set_, slice := SetErrors(items, maxSize, check, key), SliceErrors(items, maxSize, check);
            if 0 <= maxSize < |items| then set_ == slice == [TooMany]
            else slice == ItemErrors(items, check) && set_ == slice + DuplicateErrors(items, key)
  {
  }

  lemma {:induction false} ItemErrorsAppend<T>(a: seq<T>, b: seq<T>, check: T -> Errors)
    ensures ItemErrors(a + b, check) == ItemErrors(a, check) + ItemErrors(b, check)
  {
    if b == [] {
      assert a + b == a;
    } else {
      var n := |b| - 1;
      assert (a + b)[..|a| + n] == a + b[..n];
      ItemErrorsAppend(a, b[..n], check);
    }
  }

  /** All errors of every item are there, between those of the items before and after it. */
  lemma {:induction false} ItemErrorsInOrder<T>(items: seq<T>, check: T -> Errors, i: nat)
    requires i < |items|
    ensures ItemErrors(items, check) == ItemErrors(items[..i], check) + check(items[i]) +
        ItemErrors(items[i + 1..], check)
    ensures forall e :: e in check(items[i]) ==> e in ItemErrors(items, check)
    ensures ItemErrors(items[..0], check) == []
  {
    assert items == items[..i] + [items[i]] + items[i + 1..];
    ItemErrorsAppend(items[..i] + [items[i]], items[i + 1..], check);
    ItemErrorsAppend(items[..i], [items[i]], check);
    assert [items[i]][..0] == [];
  }

  /** There are as many Duplicate errors as items beyond the distinct keys. */
  lemma {:induction false} DuplicatesAreCounted<T, K>(items: seq<T>, key: T -> K)
    ensures |DuplicateErrors(items, key)| == |items| - |Keys(items, key)|
    ensures forall e :: e in DuplicateErrors(items, key) ==> e == Duplicate
  {
    if items != [] {
      var n := |items| - 1;
      DuplicatesAreCounted(items[..n], key);
      KeysOneMore(items, key);
      var keys, k := Keys(items[..n], key), key(items[n]);
      assert if k in keys then keys + {k} == keys else |keys + {k}| == |keys| + 1;
    }
  }

  lemma KeysOneMore<T, K>(items: seq<T>, key: T -> K)
    requires items != []
    ensures Keys(items, key) == Keys(items[..|items| - 1], key) + {key(items[|items| - 1])}
  {
    var n := |items| - 1;
    assert forall j :: 0 <= j < n ==> items[..n][j] == items[j];
  }

  ghost predicate DistinctKeys<T, K>(items: seq<T>, key: T -> K) {
    forall i, j :: 0 <= i < j < |items| ==> key(items[i]) != key(items[j])
  }

  lemma {:induction false} NoDuplicateErrors<T, K>(items: seq<T>, key: T -> K)
    ensures DuplicateErrors(items, key) == [] <==> DistinctKeys(items, key)
  {
    if items != [] {
      var n := |items| - 1;
      NoDuplicateErrors(items[..n], key);
      assert forall j :: 0 <= j < n ==> items[..n][j] == items[j];
      if DistinctKeys(items, key) {
        assert key(items[n]) !in Keys(items[..n], key);
      }
      if DuplicateErrors(items, key) == [] {
        forall i, j | 0 <= i < j < |items| ensures key(items[i]) != key(items[j]) {
          if j == n {
            assert key(items[..n][i]) in Keys(items[..n], key);
          } else {
            assert key(items[..n][i]) != key(items[..n][j]);
          }
        }
      }
    }
  }

  // ----- the validators of a DeviceNetwork

  /** Validation of node selector syntax is kept abstract. */
  type NodeCheck = NodeSelector -> Errors

  function SelectorErrors(s: Selector): Errors {
    if s.cel.None? then [Required] else if |s.cel.value| > EXPRESSION_MAX_LENGTH then [TooLong] else []
  }

  function DeviceSelectorErrors(nodeCheck: NodeCheck, used: set<string>, s: DeviceSelector): Errors {
    (if s.name !in used then [Forbidden] else []) +
    SliceErrors(s.selectors, SELECTOR_PER_DEVICE_SELECTOR_MAX, SelectorErrors) +
    (if s.nodeSelector.Some? then nodeCheck(s.nodeSelector.value) else [])
  }

  function ReferenceCheck(names: set<string>): string -> Errors { n => if n !in names then [NotFound] else [] }

  function ReferenceErrors(names: set<string>, references: seq<string>): Errors {
    SetErrors(references, SELECTOR_PER_CONFIGURATION_MAX, ReferenceCheck(names), (n: string) => n)
  }

  function TypeErrors(dc: DeviceConfiguration): Errors {
    var deviceType := GetDeviceType(dc);
    if deviceType == HOST_DEVICE then (if dc.macvlan.Some? then [Forbidden] else [])
    else if deviceType == MACVLAN then (if dc.hasHostDevice then [Forbidden] else [])
    else [Invalid]
  }

  function ConfigurationErrors(names: set<string>, dc: DeviceConfiguration): Errors {
    (if |dc.deviceSelectors| == 0 then [Required] else []) + ReferenceErrors(names, dc.deviceSelectors) + TypeErrors(dc)
  }

  function SelectorCheck(nodeCheck: NodeCheck, used: set<string>): DeviceSelector -> Errors {
    s => DeviceSelectorErrors(nodeCheck, used, s)
  }

  function ConfigurationCheck(names: set<string>): DeviceConfiguration -> Errors {
    dc => ConfigurationErrors(names, dc)
  }

  function SelectorNames(selectors: seq<DeviceSelector>): set<string> { set s | s in selectors :: s.name }

  function UsedSelectorNames(dcs: seq<DeviceConfiguration>): set<string> {
    set dc, n | dc in dcs && n in dc.deviceSelectors :: n
  }

  method ListSelectorNames(selectors: seq<DeviceSelector>) returns (names: set<string>)
    ensures names == SelectorNames(selectors)
  {
    names := {};
    for i := 0 to |selectors|
      invariant names == SelectorNames(selectors[..i])
    {
      assert selectors[..i + 1] == selectors[..i] + [selectors[i]];
      names := names + {selectors[i].name};
    }
    assert selectors[..|selectors|] == selectors;
  }

  method ListUsedSelectorNames(dcs: seq<DeviceConfiguration>) returns (names: set<string>)
    ensures names == UsedSelectorNames(dcs)
  {
    names := {};
    for i := 0 to |dcs|
      invariant names == UsedSelectorNames(dcs[..i])
    {
      assert dcs[..i + 1] == dcs[..i] + [dcs[i]];
      for j := 0 to |dcs[i].deviceSelectors|
        invariant names == UsedSelectorNames(dcs[..i]) + set n | n in dcs[i].deviceSelectors[..j]
      {
        assert dcs[i].deviceSelectors[..j + 1] == dcs[i].deviceSelectors[..j] + [dcs[i].deviceSelectors[j]];
        names := names + {dcs[i].deviceSelectors[j]};
      }
      assert dcs[i].deviceSelectors[..|dcs[i].deviceSelectors|] == dcs[i].deviceSelectors;
    }
    assert dcs[..|dcs|] == dcs;
  }

  function SelectorsErrors(nodeCheck: NodeCheck, net: DeviceNetwork): Errors {
    (if |net.deviceSelectors| == 0 then [Forbidden] else []) +
    SetErrors(net.deviceSelectors, DEVICE_SELECTOR_MAX,
              SelectorCheck(nodeCheck, UsedSelectorNames(net.deviceConfigurations)), (s: DeviceSelector) => s.name)
  }

  function ConfigurationsErrors(net: DeviceNetwork): Errors {
    (if |net.deviceConfigurations| == 0 then [Forbidden] else []) +
    SetErrors(net.deviceConfigurations, DEVICE_CONFIGURATION_MAX,
              ConfigurationCheck(SelectorNames(net.deviceSelectors)), (dc: DeviceConfiguration) => dc.name)
  }

  /** validateDeviceNetworkSpec. */
  method ValidateDeviceNetwork(nodeCheck: NodeCheck, net: DeviceNetwork) returns (errors: Errors)
    ensures errors == [] <==> WellFormed(nodeCheck, net)
    ensures errors == SelectorsErrors(nodeCheck, net) + ConfigurationsErrors(net)
  {
    var names := ListSelectorNames(net.deviceSelectors);
    var used := ListUsedSelectorNames(net.deviceConfigurations);
    errors := [];
    if |net.deviceSelectors| == 0 {
      errors := errors + [Forbidden];
    }
    var e := ValidateSet(net.deviceSelectors, DEVICE_SELECTOR_MAX,
                         SelectorCheck(nodeCheck, used), (s: DeviceSelector) => s.name);
    errors := errors + e;
    assert errors == SelectorsErrors(nodeCheck, net);
    if |net.deviceConfigurations| == 0 {
      errors := errors + [Forbidden];
    }
    e := ValidateSet(net.deviceConfigurations, DEVICE_CONFIGURATION_MAX,
                     ConfigurationCheck(names), (dc: DeviceConfiguration) => dc.name);
    errors := errors + e;
    assert errors == SelectorsErrors(nodeCheck, net) + ConfigurationsErrors(net);
    SoundAndComplete(nodeCheck, net);
  }

  // ----- the declarative form

  ghost predicate WellFormedSelector(nodeCheck: NodeCheck, net: DeviceNetwork, s: DeviceSelector) {
    && (exists dc :: dc in net.deviceConfigurations && s.name in dc.deviceSelectors)
    && |s.selectors| <= SELECTOR_PER_DEVICE_SELECTOR_MAX
    && (forall x :: x in s.selectors ==> x.cel.Some? && |x.cel.value| <= EXPRESSION_MAX_LENGTH)
    && (s.nodeSelector.Some? ==> nodeCheck(s.nodeSelector.value) == [])
  }

  ghost predicate WellFormedConfiguration(net: DeviceNetwork, dc: DeviceConfiguration) {
    && 1 <= |dc.deviceSelectors| <= SELECTOR_PER_CONFIGURATION_MAX
    && (forall i, j :: 0 <= i < j < |dc.deviceSelectors| ==> dc.deviceSelectors[i] != dc.deviceSelectors[j])
    && (forall n :: n in dc.deviceSelectors ==> exists s :: s in net.deviceSelectors && s.name == n)
    && (|| (GetDeviceType(dc) == HOST_DEVICE && dc.macvlan.None?)
        || (GetDeviceType(dc) == MACVLAN && !dc.hasHostDevice))
  }

  ghost predicate WellFormed(nodeCheck: NodeCheck, net: DeviceNetwork) {
    && 1 <= |net.deviceSelectors| <= DEVICE_SELECTOR_MAX
    && 1 <= |net.deviceConfigurations| <= DEVICE_CONFIGURATION_MAX
    && (forall i, j :: 0 <= i < j < |net.deviceSelectors| ==>
        net.deviceSelectors[i].name != net.deviceSelectors[j].name)
    && (forall i, j :: 0 <= i < j < |net.deviceConfigurations| ==>
        net.deviceConfigurations[i].name != net.deviceConfigurations[j].name)
    && (forall s :: s in net.deviceSelectors ==> WellFormedSelector(nodeCheck, net, s))
    && (forall dc :: dc in net.deviceConfigurations ==> WellFormedConfiguration(net, dc))
  }

  lemma NoSetErrors<T, K>(items: seq<T>, maxSize: int, check: T -> Errors, key: T -> K)
    ensures SetErrors(items, maxSize, check, key) == [] <==>
              (maxSize >= 0 ==> |items| <= maxSize) && (forall x :: x in items ==> check(x) == []) &&
                  DistinctKeys(items, key)
  {
    NoItemErrors(items, check);
    NoDuplicateErrors(items, key);
  }

  lemma SelectorIsWellFormed(nodeCheck: NodeCheck, net: DeviceNetwork, s: DeviceSelector)
    ensures DeviceSelectorErrors(nodeCheck, UsedSelectorNames(net.deviceConfigurations), s) == [] <==>
        WellFormedSelector(nodeCheck, net, s)
  {
    NoItemErrors(s.selectors, SelectorErrors);
  }

  lemma ConfigurationIsWellFormed(net: DeviceNetwork, dc: DeviceConfiguration)
    ensures ConfigurationErrors(SelectorNames(net.deviceSelectors), dc) == [] <==> WellFormedConfiguration(net, dc)
  {
    var names := SelectorNames(net.deviceSelectors);
    NoSetErrors(dc.deviceSelectors, SELECTOR_PER_CONFIGURATION_MAX, ReferenceCheck(names), (n: string) => n);
    assert forall n :: n in names <==> exists s :: s in net.deviceSelectors && s.name == n;
  }

  lemma SelectorsAreWellFormed(nodeCheck: NodeCheck, net: DeviceNetwork)
    ensures SelectorsErrors(nodeCheck, net) == [] <==>
              1 <= |net.deviceSelectors| <= DEVICE_SELECTOR_MAX &&
              (forall s :: s in net.deviceSelectors ==> WellFormedSelector(nodeCheck, net, s)) &&
              DistinctKeys(net.deviceSelectors, (s: DeviceSelector) => s.name)
  {
    var check := SelectorCheck(nodeCheck, UsedSelectorNames(net.deviceConfigurations));
    NoSetErrors(net.deviceSelectors, DEVICE_SELECTOR_MAX, check, (s: DeviceSelector) => s.name);
    forall s ensures check(s) == [] <==> WellFormedSelector(nodeCheck, net, s) {
      SelectorIsWellFormed(nodeCheck, net, s);
    }
  }

  lemma ConfigurationsAreWellFormed(net: DeviceNetwork)
    ensures ConfigurationsErrors(net) == [] <==>
              1 <= |net.deviceConfigurations| <= DEVICE_CONFIGURATION_MAX &&
              (forall dc :: dc in net.deviceConfigurations ==> WellFormedConfiguration(net, dc)) &&
              DistinctKeys(net.deviceConfigurations, (dc: DeviceConfiguration) => dc.name)
  {
    var check := ConfigurationCheck(SelectorNames(net.deviceSelectors));
    NoSetErrors(net.deviceConfigurations, DEVICE_CONFIGURATION_MAX, check, (dc: DeviceConfiguration) => dc.name);
    forall dc ensures check(dc) == [] <==> WellFormedConfiguration(net, dc) {
      ConfigurationIsWellFormed(net, dc);
    }
  }

  // ----- every violation is reported

  /** What is wrong with a selector of a list that is not too long is in the error list, all of it. */
  lemma {:induction false} SelectorViolations(nodeCheck: NodeCheck, net: DeviceNetwork, i: nat)
    requires i < |net.deviceSelectors| <= 4
    ensures var errors, s := SelectorsErrors(nodeCheck, net) + ConfigurationsErrors(net), net.deviceSelectors[i];
            ((forall dc :: dc in net.deviceConfigurations ==> s.name !in dc.deviceSelectors) ==> Forbidden in errors) &&
            (|s.selectors| > 1 ==> TooMany in errors) &&
            (|s.selectors| == 1 && s.selectors[0].cel.None? ==> Required in errors) &&
            (|s.selectors| == 1 && s.selectors[0].cel.Some? && |s.selectors[0].cel.value| > 10240 ==>
                TooLong in errors) &&
            (s.nodeSelector.Some? ==> forall e :: e in nodeCheck(s.nodeSelector.value) ==> e in errors)
  {
    var s := net.deviceSelectors[i];
    var check := SelectorCheck(nodeCheck, UsedSelectorNames(net.deviceConfigurations));
    ItemErrorsInOrder(net.deviceSelectors, check, i);
    if |s.selectors| == 1 { ItemErrorsInOrder(s.selectors, SelectorErrors, 0); }
    assert forall e :: e in check(s) ==> e in SelectorsErrors(nodeCheck, net);
  }

  /** The same for a configuration. */
  lemma {:induction false} ConfigurationViolations(nodeCheck: NodeCheck, net: DeviceNetwork, i: nat, k: nat)
    requires i < |net.deviceConfigurations| <= 4
    ensures var errors, dc := SelectorsErrors(nodeCheck, net) + ConfigurationsErrors(net), net.deviceConfigurations[i];
            (|dc.deviceSelectors| == 0 ==> Required in errors) &&
            (|dc.deviceSelectors| > 4 ==> TooMany in errors) &&
            (k < |dc.deviceSelectors| <= 4 &&
                (forall s :: s in net.deviceSelectors ==> s.name != dc.deviceSelectors[k]) ==>
               NotFound in errors) &&
            (k < |dc.deviceSelectors| <= 4 &&
                (exists j :: 0 <= j < k && dc.deviceSelectors[j] == dc.deviceSelectors[k]) ==>
               Duplicate in errors) &&
            ((dc.deviceType.None? || dc.deviceType.value == "HostDevice") && dc.macvlan.Some? ==>
                Forbidden in errors) &&
            (dc.deviceType == Some("Macvlan") && dc.hasHostDevice ==> Forbidden in errors) &&
            (dc.deviceType.Some? && dc.deviceType.value != "HostDevice" && dc.deviceType.value != "Macvlan" ==>
               Invalid in errors)
  {
    var dc, names := net.deviceConfigurations[i], SelectorNames(net.deviceSelectors);
    ItemErrorsInOrder(net.deviceConfigurations, ConfigurationCheck(names), i);
    assert forall e :: e in ConfigurationErrors(names, dc) ==> e in ConfigurationsErrors(net);
    if k < |dc.deviceSelectors| <= 4 {
      ItemErrorsInOrder(dc.deviceSelectors, ReferenceCheck(names), k);
      if exists j :: 0 <= j < k && dc.deviceSelectors[j] == dc.deviceSelectors[k] {
        RepeatedIsDuplicate(dc.deviceSelectors, (n: string) => n, k);
      }
      assert forall e :: e in ReferenceErrors(names, dc.deviceSelectors) ==> e in ConfigurationErrors(names, dc);
    }
  }

  /** And for the two lists: missing, too long, or with a repeated name. */
  lemma {:induction false} ListViolations(nodeCheck: NodeCheck, net: DeviceNetwork)
    ensures var errors := SelectorsErrors(nodeCheck, net) + ConfigurationsErrors(net);
            (net.deviceSelectors == [] || net.deviceConfigurations == [] ==> Forbidden in errors) &&
            (|net.deviceSelectors| > 4 || |net.deviceConfigurations| > 4 ==> TooMany in errors)
    ensures forall i, j ::
              0 <= i < j < |net.deviceSelectors| <= 4 &&
              net.deviceSelectors[i].name == net.deviceSelectors[j].name ==>
              Duplicate in SelectorsErrors(nodeCheck, net)
    ensures forall i, j ::
              0 <= i < j < |net.deviceConfigurations| <= 4 &&
              net.deviceConfigurations[i].name == net.deviceConfigurations[j].name ==>
              Duplicate in ConfigurationsErrors(net)
  {
    forall i, j | 0 <= i < j < |net.deviceSelectors| <= 4 && net.deviceSelectors[i].name == net.deviceSelectors[j].name
      ensures Duplicate in SelectorsErrors(nodeCheck, net)
    {
      RepeatedIsDuplicate(net.deviceSelectors, (s: DeviceSelector) => s.name, j);
    }
    forall i, j | 0 <= i < j < |net.deviceConfigurations| <= 4 &&
                  net.deviceConfigurations[i].name == net.deviceConfigurations[j].name
      ensures Duplicate in ConfigurationsErrors(net)
    {
      RepeatedIsDuplicate(net.deviceConfigurations, (dc: DeviceConfiguration) => dc.name, j);
    }
  }

  lemma {:induction false} RepeatedIsDuplicate<T, K>(items: seq<T>, key: T -> K, k: nat)
    requires k < |items| && exists j :: 0 <= j < k && key(items[j]) == key(items[k])
    ensures Duplicate in DuplicateErrors(items, key)
  {
    var j :| 0 <= j < k && key(items[j]) == key(items[k]);
    DuplicatesAreCounted(items, key);
    NoDuplicateErrors(items, key);
    assert !DistinctKeys(items, key);
    assert DuplicateErrors(items, key)[0] in DuplicateErrors(items, key);
  }

  /** The error list is empty exactly for a well-formed spec. */
  lemma SoundAndComplete(nodeCheck: NodeCheck, net: DeviceNetwork)
    ensures SelectorsErrors(nodeCheck, net) + ConfigurationsErrors(net) == [] <==> WellFormed(nodeCheck, net)
  {
    SelectorsAreWellFormed(nodeCheck, net);
    ConfigurationsAreWellFormed(net);
  }
}
