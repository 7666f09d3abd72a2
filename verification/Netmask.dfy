/** Netmask (IPv4) or prefix length (IPv6) derived from the CIDR of a DHCP range. */
module Netmask {
  import opened Wrappers
  import opened Octets
  import opened IpBlocks

  /** The fields of a DHCP range that the derivation reads, writes and leaves alone. */
  datatype DhcpRange = DhcpRange(name: string, cidr: Option<CIDR>, mtu: int, podIndex: int, prefix: int, netmask: Bytes)

  // ---------------------------------------------------------------------
  // The length of a mask

  /** Leading ones of a byte that is neither all ones nor followed by more. */
  method ByteOnes(v0: byte) returns (n: nat, ok: bool)
    ensures ok ==> n <= 8 && v0 == MaskByte(n)
    ensures forall k: nat | k <= 8 :: v0 == MaskByte(k) ==> ok
  {
    var v := v0 as int;
    n := 0;
    MaskBytes();
    while v >= 128
      invariant 0 <= v < 256 && n <= 8
      invariant v == (v0 - MaskByte(n)) * Pow2(n) && v0 >= MaskByte(n)
      decreases 8 - n, v
    {
      NotFull(v0, n, v);
      Leading(v0, n, v);
      v, n := v * 2 % 256, n + 1;
    }
    ok := v == 0;
    Trailing(v0, n, v);
  }

  lemma MaskBytes()
    ensures MaskByte(0) == 0 && MaskByte(1) == 128 && MaskByte(2) == 192 && MaskByte(3) == 224 && MaskByte(4) == 240
    ensures MaskByte(5) == 248 && MaskByte(6) == 252 && MaskByte(7) == 254 && MaskByte(8) == 255
    ensures Pow2(0) == 1 && Pow2(1) == 2 && Pow2(2) == 4 && Pow2(3) == 8 && Pow2(4) == 16
    ensures Pow2(5) == 32 && Pow2(6) == 64 && Pow2(7) == 128 && Pow2(8) == 256
  {
  }

  lemma NotFull(v0: byte, n: nat, v: int)
    requires n <= 8 && 128 <= v && v == (v0 - MaskByte(n)) * Pow2(n)
    ensures n < 8
  {
    if n == 8 {
      MaskBytes();
      MulMono(v0 - 255, 0, 256);
    }
  }

  /** One more leading one. */
  lemma NextMaskByte(n: nat)
    requires n < 8
    ensures MaskByte(n + 1) == MaskByte(n) + Pow2(7 - n) && Pow2(7 - n) * Pow2(n) == 128
  {
    Pow2Adds(7 - n, n);
    MaskBytes();
  }

  lemma ShiftStep(d: int, e: int, p: int)
    requires p > 0 && e * p == 128 && 128 <= d * p < 256
    ensures d >= e && d * p * 2 - 256 == (d - e) * (2 * p)
  {
    if d < e {
      MulMono(d + 1, e, p);
      Distribute(d, 1, p);
    }
    Distribute(d, -e, p);
    Assoc(d - e, 2, p);
  }

  lemma Leading(v0: byte, n: nat, v: int)
    requires n < 8 && 128 <= v < 256 && v == (v0 - MaskByte(n)) * Pow2(n) && v0 >= MaskByte(n)
    ensures v0 >= MaskByte(n + 1) && v * 2 % 256 == (v0 - MaskByte(n + 1)) * Pow2(n + 1)
  {
    NextMaskByte(n);
    ShiftStep(v0 - MaskByte(n), Pow2(7 - n), Pow2(n));
  }

  lemma Trailing(v0: byte, n: nat, v: int)
    requires n <= 8 && 0 <= v < 128 && v == (v0 - MaskByte(n)) * Pow2(n) && v0 >= MaskByte(n)
    ensures v == 0 <==> v0 == MaskByte(n)
    ensures forall k: nat | k <= 8 :: v0 == MaskByte(k) ==> v == 0
  {
    var d: int := v0 - MaskByte(n);
    if d > 0 {
      MulMono(1, d, Pow2(n));
      if n < 8 {
        NextMaskByte(n);
        if d >= Pow2(7 - n) { MulMono(Pow2(7 - n), d, Pow2(n)); }
      }
      forall k: nat | k <= 8 ensures v0 != MaskByte(k) {
        if k > n { MaskGrows(n + 1, k); } else { MaskGrows(k, n); }
      }
    }
  }

  lemma MaskGrows(k: nat, n: nat)
    requires k <= n <= 8
    ensures MaskByte(k) <= MaskByte(n)
  {
    Pow2Grows(8 - n, 8 - k);
  }

  /** Ones, then the byte with the rest of them, then zeros. */
  lemma {:induction false} MaskShape(ones: nat, len: nat, j: nat)
    requires ones <= 8 * len && j < len
    ensures CIDRMask(ones, len)[j] == if j < ones / 8 then 255 else if j == ones / 8 then MaskByte(ones % 8) else 0
    decreases len
  {
    MaskBytes();
    if j > 0 {
      MaskShape(if ones >= 8 then ones - 8 else 0, len - 1, j - 1);
    }
  }

  lemma ShapeIsMask(mask: Bytes, ones: nat)
    requires ones <= 8 * |mask|
    requires forall j :: 0 <= j < |mask| ==>
               mask[j] == if j < ones / 8 then 255 else if j == ones / 8 then MaskByte(ones % 8) else 0
    ensures mask == CIDRMask(ones, |mask|)
  {
    forall j | 0 <= j < |mask| ensures mask[j] == CIDRMask(ones, |mask|)[j] { MaskShape(ones, |mask|, j); }
  }

  /** The prefix length can be read back: masks of different lengths differ. */
  lemma MaskIsInjective(a: nat, b: nat, len: nat)
    requires a <= 8 * len && b <= 8 * len && CIDRMask(a, len) == CIDRMask(b, len)
    ensures a == b
  {
    if a / 8 < len { MaskShape(a, len, a / 8); MaskShape(b, len, a / 8); }
    if b / 8 < len { MaskShape(a, len, b / 8); MaskShape(b, len, b / 8); }
    MaskBytes();
  }

  lemma OddByte(mask: Bytes, i: nat, k: nat)
    requires i < |mask| && k <= 8 * |mask| && mask == CIDRMask(k, |mask|)
    ensures mask[i] == 255 || exists b: nat :: b <= 8 && mask[i] == MaskByte(b)
  {
    MaskShape(k, |mask|, i);
    MaskBytes();
  }

  lemma LateOne(mask: Bytes, i: nat, j: nat, k: nat)
    requires i < j < |mask| && mask[i] != 255 && mask[j] != 0 && k <= 8 * |mask|
    ensures mask != CIDRMask(k, |mask|)
  {
    MaskShape(k, |mask|, i);
    MaskShape(k, |mask|, j);
  }

  /** The prefix length of a mask, or -1 for bytes that are no mask, as the Size
      method of net.IPMask counts it. */
  method MaskSize(mask: Bytes) returns (r: int)
    ensures r >= 0 ==> r <= 8 * |mask| && mask == CIDRMask(r, |mask|)
    ensures r < 0 ==> forall k: nat :: k <= 8 * |mask| ==> mask != CIDRMask(k, |mask|)
  {
    var n := 0;
    for i := 0 to |mask|
      invariant n == 8 * i
      invariant forall j :: 0 <= j < i ==> mask[j] == 255
    {
      if mask[i] == 255 {
        n := n + 8;
        continue;
      }
      var ones, ok := ByteOnes(mask[i]);
      if !ok {
        forall k: nat | k <= 8 * |mask| ensures mask != CIDRMask(k, |mask|) {
          if mask == CIDRMask(k, |mask|) { OddByte(mask, i, k); }
        }
        return -1;
      }
      MaskBytes();
      n := n + ones;
      for j := i + 1 to |mask|
        invariant forall k :: i < k < j ==> mask[k] == 0
      {
        if mask[j] != 0 {
          forall k: nat | k <= 8 * |mask| ensures mask != CIDRMask(k, |mask|) { LateOne(mask, i, j, k); }
          return -1;
        }
      }
      ShapeIsMask(mask, n);
      return n;
    }
    ShapeIsMask(mask, n);
    r := n;
  }

  // ---------------------------------------------------------------------
  // The derivation

  /** The range with its netmask or prefix filled in. */
  function Derived(r: DhcpRange): DhcpRange
    requires r.cidr.Some?
  {
    var c := r.cidr.value;
    if |c.net| == 4 then r.(netmask := CIDRMask(c.ones, 4)) else r.(prefix := c.ones)
  }

  /** PrefixOrNetmaskFromCIDR: a new list of the same length and order, or the
      unchanged list when some CIDR does not parse. */
  method PrefixOrNetmaskFromCIDR(ranges: seq<DhcpRange>) returns (derived: seq<DhcpRange>, ok: bool)
    ensures ok <==> forall i :: 0 <= i < |ranges| ==> ranges[i].cidr.Some?
    ensures !ok ==> derived == ranges
    ensures ok ==> |derived| == |ranges| && forall i :: 0 <= i < |ranges| ==> derived[i] == Derived(ranges[i])
  {
    derived, ok := [], true;
    for i := 0 to |ranges|
      invariant |derived| == i
      invariant forall j :: 0 <= j < i ==> ranges[j].cidr.Some? && derived[j] == Derived(ranges[j])
    {
      var dhcpRange := ranges[i];
      if dhcpRange.cidr.None? { return ranges, false; }
      var c := dhcpRange.cidr.value;
      var mask := CIDRMask(c.ones, |c.net|);
      if |c.net| == 4 {
        dhcpRange := dhcpRange.(netmask := mask);
      } else {
        var prefix := MaskSize(mask);
        if prefix >= 0 { MaskIsInjective(prefix, c.ones, |c.net|); }
        dhcpRange := dhcpRange.(prefix := prefix);
      }
      derived := derived + [dhcpRange];
    }
  }

  lemma NetmaskDenotesBlock(r: DhcpRange, ip: IP)
    requires r.cidr.Some? && |Short(ip)| == |r.cidr.value.net| == 4
    ensures Matches(Short(ip), r.cidr.value.net, Derived(r).netmask) <==> InBlock(r.cidr.value, ip)
  {
    MatchIsBlock(r.cidr.value, ip);
  }

  lemma PrefixDenotesBlock(r: DhcpRange, ip: IP)
    requires r.cidr.Some? && |Short(ip)| == |r.cidr.value.net| == 16
    ensures 0 <= Derived(r).prefix <= 128
    ensures SameQuotient(Short(ip), r.cidr.value.net, 128 - Derived(r).prefix) <==> InBlock(r.cidr.value, ip)
  {
    BlockIsQuotient(r.cidr.value, ip, 128 - r.cidr.value.ones);
  }

  /** What is derived denotes the block of the CIDR: an address is in the block
      exactly when it matches the network under the netmask, or agrees with it
      above the host bits of the prefix length; and nothing else of the range
      changes. */
  lemma DerivedDenotesBlock(r: DhcpRange, ip: IP)
    requires r.cidr.Some? && |Short(ip)| == |r.cidr.value.net|
    ensures var c, d := r.cidr.value, Derived(r);
            && (|c.net| == 4 ==> (Matches(Short(ip), c.net, d.netmask) <==> InBlock(c, ip)) && d.prefix == r.prefix)
            && (|c.net| == 16 ==>
                  0 <= d.prefix <= 128 && (SameQuotient(Short(ip), c.net, 128 - d.prefix) <==> InBlock(c, ip)))
            && (|c.net| == 16 ==> d.netmask == r.netmask)
            && d.name == r.name && d.cidr == r.cidr && d.mtu == r.mtu && d.podIndex == r.podIndex
  {
    if |r.cidr.value.net| == 4 { NetmaskDenotesBlock(r, ip); } else { PrefixDenotesBlock(r, ip); }
  }
}
