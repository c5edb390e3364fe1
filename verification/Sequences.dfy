/** What a filter keeps of a list: which items, in which order, and how often. */
module Sequences {

  function Filtered<T>(s: seq<T>, keep: T -> bool): seq<T> {
    if s == [] then []
    else Filtered(s[..|s| - 1], keep) + (if keep(s[|s| - 1]) then [s[|s| - 1]] else [])
  }

  ghost predicate Increasing(at: seq<nat>) { forall i, j :: 0 <= i < j < |at| ==> at[i] < at[j] }

  /** The positions of the kept items, in order. */
  lemma {:induction false} FilteredExactly<T>(s: seq<T>, keep: T -> bool) returns (at: seq<nat>)
    ensures Increasing(at) && forall k: nat :: k in at <==> k < |s| && keep(s[k])
    ensures |at| == |Filtered(s, keep)| && forall i :: 0 <= i < |at| ==> at[i] < |s| && Filtered(s, keep)[i] == s[at[i]]
  {
    at := [];
    if s != [] {
      var n := |s| - 1;
      var before := FilteredExactly(s[..n], keep);
      at := before;
      forall i | 0 <= i < |before| ensures before[i] < n { assert before[i] in before; }
      if keep(s[n]) { at := before + [n]; }
      forall k: nat ensures k in at <==> k < |s| && keep(s[k]) {
        assert k in before <==> k < n && keep(s[..n][k]);
      }
    }
  }

  lemma {:induction false} FilteredOneMore<T>(s: seq<T>, x: T, keep: T -> bool)
    ensures Filtered(s + [x], keep) == Filtered(s, keep) + (if keep(x) then [x] else [])
  {
    assert (s + [x])[..|s|] == s;
  }

  lemma {:induction false} FilteredAppend<T>(a: seq<T>, b: seq<T>, keep: T -> bool)
    ensures Filtered(a + b, keep) == Filtered(a, keep) + Filtered(b, keep)
  {
    if b == [] {
      assert a + b == a;
    } else {
      var n := |b| - 1;
      assert (a + b)[..|a| + n] == a + b[..n];
      FilteredAppend(a, b[..n], keep);
    }
  }

  lemma {:induction false} FilteredMembers<T>(s: seq<T>, keep: T -> bool)
    ensures forall x :: x in Filtered(s, keep) <==> x in s && keep(x)
  {
    if s != [] {
      var n := |s| - 1;
      assert s == s[..n] + [s[n]];
      FilteredMembers(s[..n], keep);
    }
  }
}
