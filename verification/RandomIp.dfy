/**
 Random host addresses of a subnet. An address is a sequence of bytes, most significant first,
 and generateRandomIP works on it byte by byte; the lemmas say what that means for the number.
 */
module RandomIp {
  import opened Wrappers

  type Bytes = seq<bv8>

  // ----- addresses as numbers

  /** The number the bytes spell, most significant byte first. */
  function Value(s: Bytes): nat {
    if s == [] then 0 else Value(s[..|s| - 1]) * 256 + s[|s| - 1] as int
  }

  function Pow2(k: nat): (v: nat)
    ensures v >= 1
  {
    if k == 0 then 1 else 2 * Pow2(k - 1)
  }

  /** A byte with k leading ones. */
  function MaskByte(k: nat): bv8
    requires k <= 8
  {
    if k == 0 then 0 else if k == 1 then 0x80 else if k == 2 then 0xC0 else if k == 3 then 0xE0
    else if k == 4 then 0xF0 else if k == 5 then 0xF8 else if k == 6 then 0xFC else if k == 7 then 0xFE else 0xFF
  }

  /** The canonical mask of a prefix length, n bytes long (section 3.1 of RFC 4632). */
  function PrefixMask(ones: nat, n: nat): (m: Bytes)
    requires ones <= 8 * n
    ensures |m| == n
  {
    if n == 0 then []
    else if ones <= 8 * (n - 1) then PrefixMask(ones, n - 1) + [0]
    else PrefixMask(8 * (n - 1), n - 1) + [MaskByte(ones - 8 * (n - 1))]
  }

  /** The prefix length of a mask from k on, if it is canonical. */
  function PrefixFrom(mask: Bytes, k: nat): (r: Option<nat>)
    requires k <= 8 * |mask|
    ensures r.Some? ==> k <= r.value <= 8 * |mask| && mask == PrefixMask(r.value, |mask|)
    ensures r.None? ==> forall j :: k <= j <= 8 * |mask| ==> mask != PrefixMask(j, |mask|)
    decreases 8 * |mask| - k
  {
    if mask == PrefixMask(k, |mask|) then Some(k)
    else if k == 8 * |mask| then None
    else PrefixFrom(mask, k + 1)
  }

  /** Mask.Size of Go's net package: leading ones and length in bits, both 0 for a mask that is not canonical. */
  function Size(mask: Bytes): (nat, nat) {
    match PrefixFrom(mask, 0)
    case Some(k) => (k, 8 * |mask|)
    case None => (0, 0)
  }

  predicate IsCanonical(mask: Bytes) { PrefixFrom(mask, 0).Some? }

  /** Host bits of a mask; none for a mask that is not canonical. */
  function HostLength(mask: Bytes): nat {
    var (ones, bits) := Size(mask); bits - ones
  }

  function HostMask(mask: Bytes): (m: Bytes)
    ensures |m| == |mask|
  {
    seq(|mask|, i requires 0 <= i < |mask| => !mask[i])
  }

  /** The network address itself: no host bit set. */
  ghost predicate IsNetwork(net: Bytes, mask: Bytes) {
    |net| == |mask| && forall i :: 0 <= i < |net| ==> net[i] & !mask[i] == 0
  }

  ghost predicate InHost(host: Bytes, mask: Bytes) {
    |host| == |mask| && forall i :: 0 <= i < |host| ==> host[i] & mask[i] == 0
  }

  // ----- one pass of the loop

  function HostBits(drawn: bv8, mask: bv8): bv8 { drawn & !mask }

  /** The host bits a pass keeps of what it draws. */
  function Masked(draw: nat -> bv8, mask: Bytes): (h: Bytes)
    ensures |h| == |mask|
  {
    seq(|mask|, i requires 0 <= i < |mask| => HostBits(draw(i), mask[i]))
  }

  predicate AllZero(host: Bytes) { forall i :: 0 <= i < |host| ==> host[i] == 0 }

  predicate AllOne(host: Bytes, mask: Bytes)
    requires |host| == |mask|
  {
    forall i :: 0 <= i < |host| ==> host[i] == !mask[i]
  }

  predicate Usable(draw: nat -> bv8, mask: Bytes) {
    var host := Masked(draw, mask);
    !AllZero(host) && !AllOne(host, mask)
  }

  function Joined(net: Bytes, host: Bytes): (r: Bytes)
    requires |net| == |host|
    ensures |r| == |net|
  {
    seq(|net|, i requires 0 <= i < |net| => net[i] | host[i])
  }

  /** r is a usable host address of the network: above it, below its broadcast address, same prefix. */
  ghost predicate UsableHost(r: Bytes, net: Bytes, mask: Bytes) {
    |r| == |net| == |mask| &&
    Value(net) < Value(r) < Value(net) + Pow2(HostLength(mask)) - 1 &&
    forall i :: 0 <= i < |r| ==> r[i] & mask[i] == net[i] & mask[i]
  }

  // ----- numbers of masks

  lemma {:induction false} ZeroValue(s: Bytes)
    requires AllZero(s)
    ensures Value(s) == 0
  {
    if s != [] {
      assert AllZero(s[..|s| - 1]);
      ZeroValue(s[..|s| - 1]);
    }
  }

  lemma ByteRange(a: bv8)
    ensures 0 <= a as int < 256
  {
  }

  lemma {:induction false} ValueIsInjective(a: Bytes, b: Bytes)
    requires |a| == |b|
    ensures a == b <==> Value(a) == Value(b)
  {
    if a != [] {
      var n := |a| - 1;
      ValueIsInjective(a[..n], b[..n]);
      assert a == a[..n] + [a[n]] && b == b[..n] + [b[n]];
      SameNumber(Value(a[..n]), a[n], Value(b[..n]), b[n]);
    }
  }

  lemma SameNumber(p: nat, x: bv8, q: nat, y: bv8)
    ensures p == q && x == y <==> p * 256 + x as int == q * 256 + y as int
  {
    ByteRange(x);
    ByteRange(y);
    SameByte(x, y);
    SameSplit(p, x as nat, q, y as nat);
  }

  lemma SameSplit(p: nat, x: nat, q: nat, y: nat)
    requires x < 256 && y < 256
    ensures p == q && x == y <==> p * 256 + x == q * 256 + y
  {
  }

  lemma SameByte(a: bv8, b: bv8)
    ensures a == b <==> a as int == b as int
  {
  }

  lemma ByteUnder(a: bv8, m: bv8)
    requires a & !m == 0
    ensures a as int <= m as int
  {
  }

  lemma DisjointBytesAdd(a: bv8, b: bv8)
    requires a & b == 0
    ensures (a | b) as int == a as int + b as int
  {
  }

  lemma {:induction false} ValueUnder(a: Bytes, m: Bytes)
    requires |a| == |m| && forall i :: 0 <= i < |a| ==> a[i] & !m[i] == 0
    ensures Value(a) <= Value(m)
  {
    if a != [] {
      ValueUnder(a[..|a| - 1], m[..|m| - 1]);
      ByteUnder(a[|a| - 1], m[|m| - 1]);
    }
  }

  /** Adding heads and last bytes apart adds the whole. */
  lemma ValuesAdd(a: Bytes, b: Bytes, c: Bytes, n: nat)
    requires |a| == |b| == |c| == n + 1
    requires Value(c[..n]) == Value(a[..n]) + Value(b[..n])
    requires c[n] as int == a[n] as int + b[n] as int
    ensures Value(c) == Value(a) + Value(b)
  {
  }

  lemma JoinedParts(a: Bytes, b: Bytes, n: nat)
    requires |a| == |b| == n + 1 && a[n] & b[n] == 0
    ensures Joined(a, b)[..n] == Joined(a[..n], b[..n])
    ensures Joined(a, b)[n] as int == a[n] as int + b[n] as int
  {
    DisjointBytesAdd(a[n], b[n]);
  }

  lemma {:induction false} DisjointValuesAdd(a: Bytes, b: Bytes)
    requires |a| == |b| && forall i :: 0 <= i < |a| ==> a[i] & b[i] == 0
    ensures Value(Joined(a, b)) == Value(a) + Value(b)
  {
    if a != [] {
      var n := |a| - 1;
      DisjointValuesAdd(a[..n], b[..n]);
      JoinedParts(a, b, n);
      ValuesAdd(a, b, Joined(a, b), n);
    }
  }

  lemma Pow2Byte(k: nat)
    ensures Pow2(k + 8) == 256 * Pow2(k)
  {
    assert Pow2(k + 8) == 2 * Pow2(k + 7) == 4 * Pow2(k + 6) == 8 * Pow2(k + 5) == 16 * Pow2(k + 4);
    assert Pow2(k + 4) == 2 * Pow2(k + 3) == 4 * Pow2(k + 2) == 8 * Pow2(k + 1) == 16 * Pow2(k);
  }

  lemma HostByte(k: nat)
    requires 1 <= k <= 8
    ensures (!MaskByte(k)) as int == Pow2(8 - k) - 1
  {
    assert Pow2(1) == 2 && Pow2(2) == 4 && Pow2(3) == 8 && Pow2(4) == 16;
    assert Pow2(5) == 2 * Pow2(4) && Pow2(6) == 2 * Pow2(5) && Pow2(7) == 2 * Pow2(6);
  }

  /** All host bits set: one less than a power of two. */
  lemma {:induction false} HostMaskValue(ones: nat, n: nat)
    requires ones <= 8 * n
    ensures Value(HostMask(PrefixMask(ones, n))) == Pow2(8 * n - ones) - 1
  {
    if n > 0 {
      var m := PrefixMask(ones, n);
      var head := if ones <= 8 * (n - 1) then ones else 8 * (n - 1);
      HostMaskValue(head, n - 1);
      HostMaskHead(ones, n, head);
      HostMaskEnd(ones, n);
      assert Value(HostMask(m)) == Value(HostMask(m)[..n - 1]) * 256 + HostMask(m)[n - 1] as int;
    }
  }

  lemma HostMaskHead(ones: nat, n: nat, head: nat)
    requires n > 0 && ones <= 8 * n && head == if ones <= 8 * (n - 1) then ones else 8 * (n - 1)
    ensures HostMask(PrefixMask(ones, n))[..n - 1] == HostMask(PrefixMask(head, n - 1))
  {
    assert PrefixMask(ones, n)[..n - 1] == PrefixMask(head, n - 1);
  }

  /** The last byte of a host mask, after the value of its head. */
  lemma HostMaskEnd(ones: nat, n: nat)
    requires n > 0 && ones <= 8 * n
    ensures var last := HostMask(PrefixMask(ones, n))[n - 1] as int;
            if ones <= 8 * (n - 1) then (Pow2(8 * (n - 1) - ones) - 1) * 256 + last == Pow2(8 * n - ones) - 1
            else last == Pow2(8 * n - ones) - 1
  {
    if ones <= 8 * (n - 1) {
      Pow2Byte(8 * (n - 1) - ones);
      assert HostMask(PrefixMask(ones, n))[n - 1] == 255;
    } else {
      HostByte(ones - 8 * (n - 1));
    }
  }

  /** A canonical mask has one prefix length only. */
  lemma {:induction false} PrefixLengthIsUnique(ones: nat, n: nat)
    requires ones <= 8 * n
    ensures Size(PrefixMask(ones, n)) == (ones, 8 * n)
  {
    var k := PrefixFrom(PrefixMask(ones, n), 0).value;
    HostMaskValue(ones, n);
    HostMaskValue(k, n);
    if k < ones { Pow2Grows(8 * n - ones, 8 * n - k); }
    if ones < k { Pow2Grows(8 * n - k, 8 * n - ones); }
  }

  lemma {:induction false} Pow2Grows(j: nat, k: nat)
    requires j < k
    ensures Pow2(j) < Pow2(k)
  {
    if j + 1 < k { Pow2Grows(j, k - 1); }
  }

  // ----- what a pass yields

  lemma {:induction false} CanonicalHostValue(mask: Bytes)
    requires IsCanonical(mask)
    ensures Value(HostMask(mask)) == Pow2(HostLength(mask)) - 1
  {
    HostMaskValue(PrefixFrom(mask, 0).value, |mask|);
  }

  /** The loop rejects exactly the host numbers 0 and 2^h - 1 (section 3.2.1.3 of RFC 1122). */
  lemma RejectionIsExact(host: Bytes, mask: Bytes)
    requires IsCanonical(mask) && InHost(host, mask)
    ensures AllZero(host) <==> Value(host) == 0
    ensures AllOne(host, mask) <==> Value(host) == Pow2(HostLength(mask)) - 1
    ensures Value(host) <= Pow2(HostLength(mask)) - 1
  {
    var zero := seq(|host|, i => 0 as bv8);
    ZeroValue(zero);
    ValueIsInjective(host, zero);
    ValueIsInjective(host, HostMask(mask));
    CanonicalHostValue(mask);
    forall i | 0 <= i < |host| ensures host[i] & !HostMask(mask)[i] == 0 {
      assert HostMask(mask)[i] == !mask[i];
    }
    ValueUnder(host, HostMask(mask));
  }

  lemma MaskedIsHost(draw: nat -> bv8, mask: Bytes)
    ensures InHost(Masked(draw, mask), mask)
  {
    forall i | 0 <= i < |mask| ensures Masked(draw, mask)[i] & mask[i] == 0 {
      HostBitsAreHost(draw(i), mask[i]);
    }
  }

  lemma HostBitsAreHost(drawn: bv8, m: bv8)
    ensures HostBits(drawn, m) & m == 0
    ensures drawn & m == 0 ==> HostBits(drawn, m) == drawn
  {
  }

  /** The address of a host number: the sum, with the prefix kept. */
  lemma JoinedIsSum(net: Bytes, host: Bytes, mask: Bytes)
    requires IsNetwork(net, mask) && InHost(host, mask)
    ensures Value(Joined(net, host)) == Value(net) + Value(host)
    ensures forall i :: 0 <= i < |net| ==> Joined(net, host)[i] & mask[i] == net[i] & mask[i]
  {
    forall i | 0 <= i < |net| ensures net[i] & host[i] == 0 && (net[i] | host[i]) & mask[i] == net[i] & mask[i] {
      DisjointHalves(net[i], host[i], mask[i]);
    }
    DisjointValuesAdd(net, host);
  }

  lemma DisjointHalves(a: bv8, b: bv8, m: bv8)
    requires a & !m == 0 && b & m == 0
    ensures a & b == 0 && (a | b) & m == a & m
  {
  }

  /** Every pass the loop accepts is a usable host address. */
  lemma UsablePassIsUsableHost(draw: nat -> bv8, net: Bytes, mask: Bytes)
    requires IsCanonical(mask) && IsNetwork(net, mask) && Usable(draw, mask)
    ensures UsableHost(Joined(net, Masked(draw, mask)), net, mask)
  {
    var host := Masked(draw, mask);
    MaskedIsHost(draw, mask);
    RejectionIsExact(host, mask);
    JoinedIsSum(net, host, mask);
  }

  // ----- every usable host can be drawn

  /** The n low bytes of a number. */
  function ToBytes(v: nat, n: nat): (s: Bytes)
    ensures |s| == n
  {
    if n == 0 then [] else ToBytes(v / 256, n - 1) + [ByteOf(v % 256)]
  }

  function ByteOf(v: nat): (b: bv8)
    requires v < 256
    ensures b as int == v
  {
    if v == 0 then 0 else NextByte(ByteOf(v - 1)); ByteOf(v - 1) + 1
  }

  lemma NextByte(b: bv8)
    requires b as int < 255
    ensures (b + 1) as int == b as int + 1
  {
  }

  lemma ShortByte(b: bv8, k: nat)
    requires 1 <= k <= 8 && b as int < Pow2(8 - k)
    ensures b & MaskByte(k) == 0
  {
    assert Pow2(1) == 2 && Pow2(2) == 4 && Pow2(3) == 8 && Pow2(4) == 16;
    assert Pow2(5) == 2 * Pow2(4) && Pow2(6) == 2 * Pow2(5) && Pow2(7) == 2 * Pow2(6);
  }

  lemma ShortIsByte(v: nat, k: nat)
    requires 1 <= k <= 8 && v < Pow2(8 - k)
    ensures v < 256 && v / 256 == 0 && v % 256 == v
  {
    assert Pow2(1) == 2 && Pow2(2) == 4 && Pow2(3) == 8 && Pow2(4) == 16;
    assert Pow2(5) == 2 * Pow2(4) && Pow2(6) == 2 * Pow2(5) && Pow2(7) == 2 * Pow2(6);
  }

  /** The last byte of a number and what is left of it fit the last byte and the head of the mask. */
  lemma SplitFits(v: nat, ones: nat, n: nat) returns (head: nat)
    requires n > 0 && ones <= 8 * n && v < Pow2(8 * n - ones)
    ensures head <= 8 * (n - 1) && v / 256 < Pow2(8 * (n - 1) - head)
    ensures PrefixMask(ones, n)[..n - 1] == PrefixMask(head, n - 1)
    ensures ByteOf(v % 256) & PrefixMask(ones, n)[n - 1] == 0
  {
    if ones <= 8 * (n - 1) {
      head := ones;
      Pow2Byte(8 * (n - 1) - ones);
    } else {
      head := 8 * (n - 1);
      ShortIsByte(v, ones - 8 * (n - 1));
      ShortByte(ByteOf(v), ones - 8 * (n - 1));
    }
  }

  /** The last byte of a number put after the bytes of the rest. */
  lemma NumberOfEnd(s: Bytes, v: nat, n: nat)
    requires |s| == n + 1 && Value(s[..n]) == v / 256 && s[n] as int == v % 256
    ensures Value(s) == v
  {
  }

  lemma ToBytesEnd(v: nat, n: nat)
    requires n > 0
    ensures ToBytes(v, n)[..n - 1] == ToBytes(v / 256, n - 1) && ToBytes(v, n)[n - 1] as int == v % 256
  {
  }

  lemma {:induction false} NumberOfBytes(v: nat, n: nat)
    requires v < Pow2(8 * n)
    ensures Value(ToBytes(v, n)) == v
    decreases n
  {
    if n > 0 {
      Pow2Byte(8 * (n - 1));
      NumberOfBytes(v / 256, n - 1);
      ToBytesEnd(v, n);
      NumberOfEnd(ToBytes(v, n), v, n - 1);
    }
  }

  /** A number below 2^(8n - ones) fits the host part of an n-byte address. */
  lemma {:induction false} HostNumberFits(v: nat, ones: nat, n: nat)
    requires ones <= 8 * n && v < Pow2(8 * n - ones)
    ensures InHost(ToBytes(v, n), PrefixMask(ones, n))
    decreases n
  {
    if n > 0 {
      var s := ToBytes(v, n);
      var head := SplitFits(v, ones, n);
      HostNumberFits(v / 256, head, n - 1);
      assert s[..n - 1] == ToBytes(v / 256, n - 1);
      HostEnd(s, PrefixMask(ones, n), n - 1);
    }
  }

  lemma HostEnd(s: Bytes, m: Bytes, n: nat)
    requires |s| == |m| == n + 1 && InHost(s[..n], m[..n]) && s[n] & m[n] == 0
    ensures InHost(s, m)
  {
    forall i | 0 <= i <= n ensures s[i] & m[i] == 0 {
      if i < n { assert s[..n][i] & m[..n][i] == 0; }
    }
  }

  /** Completeness: every usable host number v is what the loop returns for some draw. */
  lemma EveryUsableHostIsDrawn(net: Bytes, mask: Bytes, v: nat) returns (draw: nat -> bv8)
    requires IsCanonical(mask) && IsNetwork(net, mask) && 0 < v < Pow2(HostLength(mask)) - 1
    ensures Usable(draw, mask) && Value(Joined(net, Masked(draw, mask))) == Value(net) + v
  {
    var n, ones := |mask|, PrefixFrom(mask, 0).value;
    var host := ToBytes(v, n);
    HostNumberFits(v, ones, n);
    if ones > 0 { Pow2Grows(8 * n - ones, 8 * n); }
    NumberOfBytes(v, n);
    draw := i => if 0 <= i < |host| then host[i] else 0;
    forall i | 0 <= i < n ensures Masked(draw, mask)[i] == host[i] {
      HostBitsAreHost(host[i], mask[i]);
    }
    assert Masked(draw, mask) == host;
    RejectionIsExact(host, mask);
    JoinedIsSum(net, host, mask);
  }

  // ----- the loop

  /** Pass p is the one the loop stops at. */
  ghost predicate FirstUsable(draws: nat -> nat -> bv8, mask: Bytes, p: nat) {
    Usable(draws(p), mask) && forall q: nat :: q < p ==> !Usable(draws(q), mask)
  }

  /** These bytes are the network address with what the first usable pass draws. */
  ghost predicate IsDrawn(r: Bytes, net: Bytes, mask: Bytes, draws: nat -> nat -> bv8, p: nat)
    requires |net| == |mask|
  {
    FirstUsable(draws, mask, p) && r == Joined(net, Masked(draws(p), mask))
  }

  /** One pass: the drawn host bits are or-ed into a copy of the network address. */
  method DrawPass(ip: array<bv8>, mask: Bytes, draw: nat -> bv8) returns (allZero: bool, allOne: bool)
    requires ip.Length == |mask|
    modifies ip
    ensures ip[..] == Joined(old(ip[..]), Masked(draw, mask))
    ensures allZero == AllZero(Masked(draw, mask)) && allOne == AllOne(Masked(draw, mask), mask)
  {
    allZero, allOne := true, true;
    ghost var net, host := ip[..], Masked(draw, mask);
    ghost var result := Joined(net, host);
    var i := 0;
    while i < ip.Length
      invariant 0 <= i <= ip.Length
      invariant forall k :: 0 <= k < i ==> ip[k] == result[k]
      invariant forall k :: i <= k < ip.Length ==> ip[k] == net[k]
      invariant allZero <==> forall k :: 0 <= k < i ==> host[k] == 0
      invariant allOne <==> forall k :: 0 <= k < i ==> host[k] == !mask[k]
    {
      var hostBits := HostBits(draw(i), mask[i]);
      ip[i] := ip[i] | hostBits;
      if hostBits != 0 {
        allZero := false;
      }
      if hostBits != !mask[i] {
        allOne := false;
      }
      i := i + 1;
    }
    assert ip[..] == result;
  }

  /** Two host bits are left exactly by the canonical masks of a prefix that is two bits shorter at least. */
  lemma {:induction false} HostLengthExactly(mask: Bytes)
    ensures HostLength(mask) >= 2 <==> exists ones: nat :: ones + 2 <= 8 * |mask| && mask == PrefixMask(ones, |mask|)
  {
    if ones: nat :| ones + 2 <= 8 * |mask| && mask == PrefixMask(ones, |mask|) {
      PrefixLengthIsUnique(ones, |mask|);
    }
  }

  /**
   generateRandomIP, drawing byte i of pass p from draws(p)(i). The ghost argument names a pass
   that the loop would accept; the distance to it bounds the passes.
   */
  method GenerateRandomIP(net: Bytes, mask: Bytes, draws: nat -> nat -> bv8, ghost usable: nat)
    returns (r: Result<array<bv8>, string>)
    requires |net| == |mask|
    requires HostLength(mask) >= 2 ==> Usable(draws(usable), mask)
    ensures r.Ok? <==> HostLength(mask) >= 2
    ensures r.Ok? ==> exists p: nat :: p <= usable && IsDrawn(r.value[..], net, mask, draws, p)
    ensures r.Ok? && IsNetwork(net, mask) ==> UsableHost(r.value[..], net, mask)
  {
    var (ones, bits) := Size(mask);
    if bits - ones < 2 {
      return Err("subnet has no usable host addresses");
    }
    var pass: nat := 0;
    while true
      invariant pass <= usable
      invariant forall q: nat :: q < pass ==> !Usable(draws(q), mask)
      decreases usable - pass
    {
      var ip := new bv8[|net|](i requires 0 <= i < |net| => net[i]);
      assert ip[..] == net;
      var allZero, allOne := DrawPass(ip, mask, draws(pass));
      if !allZero && !allOne {
        assert IsDrawn(ip[..], net, mask, draws, pass);
        if IsNetwork(net, mask) {
          UsablePassIsUsableHost(draws(pass), net, mask);
        }
        return Ok(ip);
      }
      pass := pass + 1;
    }
  }
}
