/** Addresses as byte strings, as the Go net package keeps them, and the blocks
    of addresses that a CIDR prefix denotes (RFC 4632, section 3.1; RFC 4291,
    section 2.3). */
module IpBlocks {
  import opened Octets

  function Pow2(n: nat): (p: nat)
    ensures p > 0
  {
    if n == 0 then 1 else 2 * Pow2(n - 1)
  }

  // ---------------------------------------------------------------------
  // Arithmetic

  lemma Assoc(a: int, b: int, c: int)
    ensures a * (b * c) == a * b * c
  {
  }

  lemma Distribute(a: int, b: int, c: int)
    ensures (a + b) * c == a * c + b * c
  {
  }

  lemma MulMono(x: int, y: int, p: int)
    requires x <= y && p >= 0
    ensures x * p <= y * p
  {
    if x < y { Distribute(x, y - x, p); }
  }

  lemma Dominates(x: int, y: int, p: int, u: int, v: int)
    requires x < y && 0 <= u < p && 0 <= v
    ensures x * p + u < y * p + v
  {
    MulMono(x + 1, y, p);
    Distribute(x, 1, p);
  }

  lemma DivisionIs(a: int, d: int, q: int, r: int)
    requires d > 0 && a == q * d + r && 0 <= r < d
    ensures a / d == q && a % d == r
  {
    var e := a / d;
    if e < q { Dominates(e, q, d, a % d, r); } else if e > q { Dominates(q, e, d, r, a % d); }
  }

  lemma SplitEqual(x: int, y: int, p: int, u: int, v: int)
    requires 0 <= u < p && 0 <= v < p
    ensures x * p + u == y * p + v <==> x == y && u == v
  {
    if x < y { Dominates(x, y, p, u, v); } else if y < x { Dominates(y, x, p, v, u); }
  }

  lemma DivideTail(h: int, tail: int, d: int, m: int, p: int)
    requires d > 0 && p == m * d && 0 <= tail < p
    ensures (h * p + tail) / d == h * m + tail / d
    ensures 0 <= tail / d < m
  {
    var q, r := tail / d, tail % d;
    Assoc(h, m, d);
    Distribute(h * m, q, d);
    DivisionIs(h * p + tail, d, h * m + q, r);
    if q >= m { MulMono(m, q, d); }
    if q < 0 { MulMono(q, -1, d); }
  }

  lemma DivideHead(h: int, tail: int, e: int, p: int, d: int)
    requires e > 0 && d == e * p && 0 <= tail < p
    ensures d > 0 && (h * p + tail) / d == h / e
  {
    var q, r := h / e, h % e;
    MulMono(1, e, p);
    Distribute(q * e, r, p);
    Assoc(q, e, p);
    MulMono(0, r, p);
    MulMono(r, e - 1, p);
    Distribute(e, -1, p);
    DivisionIs(h * p + tail, d, q, r * p + tail);
  }

  lemma QuotientIsInterval(x: int, y: int, d: int)
    requires d > 0
    ensures x / d == y / d <==> y / d * d <= x < y / d * d + d
  {
    var q := y / d;
    if q * d <= x < q * d + d { DivisionIs(x, d, q, x - q * d); }
  }

  /** The unsigned big-endian number that the bytes spell. */
  function Num(b: Bytes): (n: nat)
    ensures n < Pow2(8 * |b|)
    decreases |b|
  {
    if b == [] then 0
    else
      Shift8(|b| - 1);
      256 * Num(b[..|b| - 1]) + (b[|b| - 1] as int)
  }

  lemma Shift8(n: nat)
    ensures Pow2(8 * (n + 1)) == 256 * Pow2(8 * n)
  {
    var p := Pow2(8 * n);
    assert Pow2(8 * n + 1) == 2 * p && Pow2(8 * n + 2) == 4 * p && Pow2(8 * n + 3) == 8 * p
           && Pow2(8 * n + 4) == 16 * p;
    assert Pow2(8 * n + 5) == 32 * p && Pow2(8 * n + 6) == 64 * p && Pow2(8 * n + 7) == 128 * p
           && Pow2(8 * n + 8) == 256 * p;
  }

  lemma {:induction false} Pow2Adds(a: nat, b: nat)
    ensures Pow2(a + b) == Pow2(a) * Pow2(b)
  {
    if a > 0 {
      Pow2Adds(a - 1, b);
    }
  }

  lemma {:induction false} NumOfConcat(a: Bytes, b: Bytes)
    ensures Num(a + b) == Num(a) * Pow2(8 * |b|) + Num(b)
    decreases |b|
  {
    if b == [] {
      assert a + b == a;
    } else {
      var front, p := b[..|b| - 1], Pow2(8 * (|b| - 1));
      assert (a + b)[..|a + b| - 1] == a + front && (a + b)[|a + b| - 1] == b[|b| - 1];
      NumOfConcat(a, front);
      Shift8(|b| - 1);
      Distribute(Num(a) * p, Num(front), 256);
      Assoc(Num(a), p, 256);
    }
  }

  lemma HeadStep(h: int, p: int, u: int, x: int)
    ensures 256 * (h * p + u) + x == h * (256 * p) + (256 * u + x)
  {
    Assoc(h, 256, p);
  }

  /** The weight of the first byte. */
  lemma {:induction false} NumHead(a: Bytes)
    requires a != []
    ensures Num(a) == a[0] * Pow2(8 * (|a| - 1)) + Num(a[1..])
    decreases |a|
  {
    if |a| > 1 {
      var front, last := a[..|a| - 1], a[|a| - 1];
      NumHead(front);
      assert a[1..][..|a| - 2] == front[1..] && a[1..][|a| - 2] == last;
      Shift8(|a| - 2);
      HeadStep(a[0], Pow2(8 * (|a| - 2)), Num(front[1..]), last);
    } else {
      assert a[1..] == [] && a[..0] == [];
    }
  }

  // ---------------------------------------------------------------------
  // Comparison

  /** Byte-wise lexicographic comparison, as bytes.Compare does it. */
  function Compare(a: Bytes, b: Bytes): (r: int)
    ensures r in {-1, 0, 1}
    decreases |a|
  {
    if a == [] then (if b == [] then 0 else -1)
    else if b == [] then 1
    else if a[0] < b[0] then -1
    else if a[0] > b[0] then 1
    else Compare(a[1..], b[1..])
  }

  /** On byte strings of one length, lexicographic order is numeric order. */
  lemma {:induction false} CompareIsNumeric(a: Bytes, b: Bytes)
    requires |a| == |b|
    ensures Compare(a, b) == -1 <==> Num(a) < Num(b)
    ensures Compare(a, b) == 0 <==> Num(a) == Num(b)
    ensures Compare(a, b) == 0 <==> a == b
    decreases |a|
  {
    if a != [] {
      var p := Pow2(8 * (|a| - 1));
      NumHead(a);
      NumHead(b);
      if a[0] < b[0] { Dominates(a[0], b[0], p, Num(a[1..]), Num(b[1..])); }
      else if a[0] > b[0] { Dominates(b[0], a[0], p, Num(b[1..]), Num(a[1..])); }
      else {
        CompareIsNumeric(a[1..], b[1..]);
        assert a == [a[0]] + a[1..] && b == [b[0]] + b[1..];
      }
    }
  }

  // ---------------------------------------------------------------------
  // Masks

  /** Bitwise conjunction. */
  function And(a: nat, b: nat): (r: nat)
    ensures r <= a && r <= b
  {
    if a == 0 || b == 0 then 0
    else 2 * And(a / 2, b / 2) + (if a % 2 == 1 && b % 2 == 1 then 1 else 0)
  }

  lemma {:induction false} AndOnes(a: nat, w: nat)
    requires a < Pow2(w)
    ensures And(a, Pow2(w) - 1) == a
  {
    if w > 0 && a > 0 {
      AndOnes(a / 2, w - 1);
    }
  }

  lemma {:induction false} Pow2Grows(j: nat, w: nat)
    requires j <= w
    ensures Pow2(j) <= Pow2(w)
  {
    if j < w { Pow2Grows(j, w - 1); }
  }

  lemma HalveDivision(a: nat, d: nat)
    requires d > 0
    ensures a / 2 / d == a / (2 * d)
  {
    var q, r := a / (2 * d), a % (2 * d);
    Assoc(q, 2, d);
    Assoc(2, q, d);
    DivisionIs(a / 2, d, q, r / 2);
  }

  lemma DoubleFloor(a: nat, d: nat)
    requires d > 0
    ensures 2 * (a / 2 / d * d) == a / (2 * d) * (2 * d)
  {
    HalveDivision(a, d);
    var q := a / (2 * d);
    Assoc(2, q, d);
    Assoc(q, 2, d);
  }

  lemma AndEven(a: nat, w: nat, j: nat)
    requires 0 < j < w && a > 0
    ensures Pow2(j - 1) <= Pow2(w - 1) && Pow2(j) <= Pow2(w)
    ensures And(a, Pow2(w) - Pow2(j)) == 2 * And(a / 2, Pow2(w - 1) - Pow2(j - 1))
  {
    Pow2Grows(j, w - 1);
  }

  /** Clearing the low j bits. */
  function Floor(a: nat, j: nat): nat { if j == 0 then a else 2 * Floor(a / 2, j - 1) }

  lemma {:induction false} FloorIsMultiple(a: nat, j: nat)
    ensures Floor(a, j) == a / Pow2(j) * Pow2(j)
    decreases j
  {
    if j > 0 {
      FloorIsMultiple(a / 2, j - 1);
      DoubleFloor(a, Pow2(j - 1));
    }
  }

  lemma {:induction false} FloorOfSmall(a: nat, j: nat)
    requires a < Pow2(j)
    ensures Floor(a, j) == 0
    decreases j
  {
    if j > 0 { FloorOfSmall(a / 2, j - 1); }
  }

  /** A mask of leading ones clears the low j bits. */
  lemma {:induction false} AndLeadingOnes(a: nat, w: nat, j: nat)
    requires j <= w && a < Pow2(w)
    ensures Pow2(j) <= Pow2(w)
    ensures And(a, Pow2(w) - Pow2(j)) == Floor(a, j)
    decreases j
  {
    Pow2Grows(j, w);
    if j == 0 {
      AndOnes(a, w);
    } else if w == j || a == 0 {
      FloorOfSmall(a, j);
    } else {
      var half := a / 2;
      assert half < Pow2(w - 1);
      AndLeadingOnes(half, w - 1, j - 1);
      AndEven(a, w, j);
      assert Floor(a, j) == 2 * Floor(half, j - 1);
    }
  }

  lemma Pow2Of8()
    ensures Pow2(8) == 256
  {
    Shift8(0);
  }

  /** The mask byte that takes k leading ones. */
  function MaskByte(k: nat): byte
    requires k <= 8
  {
    Pow2Of8();
    Pow2Grows(8 - k, 8);
    256 - Pow2(8 - k)
  }

  /** The mask of the given number of leading ones, as net.CIDRMask makes it. */
  function CIDRMask(ones: nat, len: nat): (m: Bytes)
    requires ones <= 8 * len
    ensures |m| == len
    decreases len
  {
    if len == 0 then []
    else if ones >= 8 then [255] + CIDRMask(ones - 8, len - 1)
    else [MaskByte(ones)] + CIDRMask(0, len - 1)
  }

  /** The bytes agree under the mask. */
  predicate Matches(a: Bytes, b: Bytes, mask: Bytes)
    requires |a| == |b| == |mask|
  {
    forall i :: 0 <= i < |a| ==> And(a[i], mask[i]) == And(b[i], mask[i])
  }

  lemma {:induction false} MatchesNothing(a: Bytes, b: Bytes, len: nat)
    requires |a| == |b| == len
    ensures Matches(a, b, CIDRMask(0, len))
    decreases len
  {
    if len > 0 {
      MatchesNothing(a[1..], b[1..], len - 1);
      Pow2Of8();
      assert CIDRMask(0, len) == [0] + CIDRMask(0, len - 1);
      forall i | 0 <= i < len ensures And(a[i], CIDRMask(0, len)[i]) == And(b[i], CIDRMask(0, len)[i]) {
        if i > 0 { assert a[i] == a[1..][i - 1] && b[i] == b[1..][i - 1]; }
      }
    }
  }

  lemma MatchesHead(a: Bytes, b: Bytes, head: byte, rest: Bytes)
    requires |a| == |b| == |rest| + 1
    ensures Matches(a, b, [head] + rest) <==> And(a[0], head) == And(b[0], head) && Matches(a[1..], b[1..], rest)
  {
    var mask := [head] + rest;
    if Matches(a, b, mask) {
      forall i | 0 <= i < |rest| ensures And(a[1..][i], rest[i]) == And(b[1..][i], rest[i]) {
        assert a[1..][i] == a[i + 1] && b[1..][i] == b[i + 1] && rest[i] == mask[i + 1];
      }
      assert mask[0] == head;
    }
    if And(a[0], head) == And(b[0], head) && Matches(a[1..], b[1..], rest) {
      forall i | 0 <= i < |a| ensures And(a[i], mask[i]) == And(b[i], mask[i]) {
        if i > 0 { assert a[1..][i - 1] == a[i] && b[1..][i - 1] == b[i] && rest[i - 1] == mask[i]; }
      }
    }
  }

  /** The number above the host bits, byte by byte. */
  function Above(a: Bytes, host: nat): int
    requires host <= 8 * |a|
    decreases |a|
  {
    if a == [] then 0
    else if host <= 8 * (|a| - 1) then a[0] * Pow2(8 * (|a| - 1) - host) + Above(a[1..], host)
    else a[0] / Pow2(host - 8 * (|a| - 1))
  }

  /** It is the quotient of the number by a power of two. */
  lemma {:induction false} AboveIsQuotient(a: Bytes, host: nat)
    requires host <= 8 * |a|
    ensures Num(a) / Pow2(host) == Above(a, host)
    decreases |a|
  {
    if a != [] {
      var w := 8 * (|a| - 1);
      NumHead(a);
      if host <= w {
        AboveIsQuotient(a[1..], host);
        Pow2Adds(w - host, host);
        DivideTail(a[0], Num(a[1..]), Pow2(host), Pow2(w - host), Pow2(w));
      } else {
        Pow2Adds(host - w, w);
        DivideHead(a[0], Num(a[1..]), Pow2(host - w), Pow2(w), Pow2(host));
      }
    }
  }

  lemma AboveIsBounded(a: Bytes, host: nat)
    requires host <= 8 * |a|
    ensures 0 <= Above(a, host) < Pow2(8 * |a| - host)
  {
    AboveIsQuotient(a, host);
    Pow2Adds(8 * |a| - host, host);
    DivideTail(0, Num(a), Pow2(host), Pow2(8 * |a| - host), Pow2(8 * |a|));
  }

  lemma MaskedOne(x: byte, ones: nat)
    requires ones < 8
    ensures And(x, MaskByte(ones)) == Floor(x, 8 - ones)
  {
    Pow2Of8();
    assert MaskByte(ones) == Pow2(8) - Pow2(8 - ones);
    AndLeadingOnes(x, 8, 8 - ones);
  }

  lemma SameFloor(x: nat, y: nat, j: nat)
    ensures Floor(x, j) == Floor(y, j) <==> x / Pow2(j) == y / Pow2(j)
  {
    FloorIsMultiple(x, j);
    FloorIsMultiple(y, j);
    SplitEqual(x / Pow2(j), y / Pow2(j), Pow2(j), 0, 0);
  }

  /** The bytes agree above the host bits: whole bytes, then the top of one byte. */
  predicate SameAbove(a: Bytes, b: Bytes, ones: nat)
    requires |a| == |b| && ones <= 8 * |a|
    decreases |a|
  {
    a == [] || (if ones >= 8 then a[0] == b[0] && SameAbove(a[1..], b[1..], ones - 8)
                else Floor(a[0], 8 - ones) == Floor(b[0], 8 - ones))
  }

  lemma WholeByte(x: byte)
    ensures And(x, 255) == x
  {
    Pow2Of8();
    AndOnes(x, 8);
  }

  lemma MatchWholeByte(a: Bytes, b: Bytes, rest: Bytes)
    requires |a| == |b| == |rest| + 1
    ensures Matches(a, b, [255] + rest) <==> a[0] == b[0] && Matches(a[1..], b[1..], rest)
  {
    MatchesHead(a, b, 255, rest);
    WholeByte(a[0]);
    WholeByte(b[0]);
  }

  lemma SamePart(x: byte, y: byte, ones: nat)
    requires ones < 8
    ensures And(x, MaskByte(ones)) == And(y, MaskByte(ones)) <==> Floor(x, 8 - ones) == Floor(y, 8 - ones)
  {
    MaskedOne(x, ones);
    MaskedOne(y, ones);
  }

  lemma MatchPartByte(a: Bytes, b: Bytes, head: byte, rest: Bytes)
    requires |a| == |b| == |rest| + 1 && Matches(a[1..], b[1..], rest)
    ensures Matches(a, b, [head] + rest) <==> And(a[0], head) == And(b[0], head)
  {
    MatchesHead(a, b, head, rest);
  }

  lemma {:induction false} MatchIsSameAbove(a: Bytes, b: Bytes, ones: nat)
    requires |a| == |b| && ones <= 8 * |a|
    ensures Matches(a, b, CIDRMask(ones, |a|)) <==> SameAbove(a, b, ones)
    decreases |a|
  {
    if a != [] && ones >= 8 {
      MatchWholeByte(a, b, CIDRMask(ones - 8, |a| - 1));
      MatchIsSameAbove(a[1..], b[1..], ones - 8);
    } else if a != [] {
      MatchesNothing(a[1..], b[1..], |a| - 1);
      MatchPartByte(a, b, MaskByte(ones), CIDRMask(0, |a| - 1));
      SamePart(a[0], b[0], ones);
    }
  }

  lemma {:induction false} SameAboveIsAbove(a: Bytes, b: Bytes, ones: nat, host: nat)
    requires |a| == |b| && ones + host == 8 * |a|
    ensures SameAbove(a, b, ones) <==> Above(a, host) == Above(b, host)
    decreases |a|
  {
    var n := |a|;
    if n > 0 && ones >= 8 {
      SameAboveIsAbove(a[1..], b[1..], ones - 8, host);
      AboveIsBounded(a[1..], host);
      AboveIsBounded(b[1..], host);
      SplitEqual(a[0], b[0], Pow2(8 * (n - 1) - host), Above(a[1..], host), Above(b[1..], host));
    } else if n > 0 {
      SameFloor(a[0], b[0], 8 - ones);
      assert host - 8 * (n - 1) == 8 - ones;
    }
  }

  /** The numbers agree above the host bits. */
  predicate SameQuotient(a: Bytes, b: Bytes, host: nat) { Num(a) / Pow2(host) == Num(b) / Pow2(host) }

  /** Two addresses match under a mask of leading ones exactly when their
      numbers agree above the host bits. */
  lemma MatchIsQuotient(a: Bytes, b: Bytes, ones: nat, host: nat)
    requires |a| == |b| && ones + host == 8 * |a|
    ensures Matches(a, b, CIDRMask(ones, |a|)) <==> SameQuotient(a, b, host)
  {
    MatchIsSameAbove(a, b, ones);
    SameAboveIsAbove(a, b, ones, host);
    AboveIsQuotient(a, host);
    AboveIsQuotient(b, host);
  }

  // ---------------------------------------------------------------------
  // Addresses and blocks

  /** A parsed address, always in 16 bytes. */
  type IP = b: Bytes | |b| == 16 witness [0, 0, 0, 0, 0, 0, 0, 0, 0, 0, 0, 0, 0, 0, 0, 0]

  const V4_PREFIX: Bytes := [0, 0, 0, 0, 0, 0, 0, 0, 0, 0, 255, 255]

  /** The address is IPv4, kept in the mapped form of RFC 4291, section 2.5.5.2. */
  predicate IsIPv4(ip: IP) { ip[..12] == V4_PREFIX }

  /** The bytes of the address in the shorter form, when it has one. */
  function Short(ip: IP): Bytes { if IsIPv4(ip) then ip[12..] else ip }

  /** A parsed CIDR: the network's bytes, 4 or 16 of them, and its prefix length.
      An IPv6 network in the IPv4-mapped range is not considered. */
  type CIDR = c: Network | (|c.net| == 4 || (|c.net| == 16 && c.net[..12] != V4_PREFIX)) && c.ones <= 8 * |c.net|
    witness Network([0, 0, 0, 0], 0)

  datatype Network = Network(net: Bytes, ones: nat)

  /** How many addresses the block has. */
  function Size(c: CIDR): nat { Pow2(8 * |c.net| - c.ones) }

  /** The first address of the block. */
  function First(c: CIDR): int { Num(c.net) / Size(c) * Size(c) }

  /** The block of a CIDR is the interval of that many numbers. */
  predicate InBlock(c: CIDR, ip: IP) {
    |Short(ip)| == |c.net| && First(c) <= Num(Short(ip)) < First(c) + Size(c)
  }

  lemma BlockIsQuotient(c: CIDR, ip: IP, host: nat)
    requires |Short(ip)| == |c.net| && host == 8 * |c.net| - c.ones
    ensures InBlock(c, ip) <==> SameQuotient(Short(ip), c.net, host)
  {
    QuotientIsInterval(Num(Short(ip)), Num(c.net), Size(c));
  }

  /** Membership by mask is membership in the interval. */
  lemma MatchIsBlock(c: CIDR, ip: IP)
    requires |Short(ip)| == |c.net|
    ensures Matches(Short(ip), c.net, CIDRMask(c.ones, |c.net|)) <==> InBlock(c, ip)
  {
    var host: nat := 8 * |c.net| - c.ones;
    assert Size(c) == Pow2(host);
    MatchIsQuotient(Short(ip), c.net, c.ones, host);
    BlockIsQuotient(c, ip, host);
  }

  /** Every address between two addresses of a block is in the block. */
  lemma BlockIsConvex(c: CIDR, low: IP, ip: IP, high: IP)
    requires InBlock(c, low) && InBlock(c, high) && |Short(ip)| == |c.net|
    requires Num(Short(low)) <= Num(Short(ip)) <= Num(Short(high))
    ensures InBlock(c, ip)
  {
  }

  /** IPv4 addresses are ordered the same in either form. */
  lemma MappedOrder(a: IP, b: IP)
    requires IsIPv4(a) && IsIPv4(b)
    ensures Num(a) < Num(b) <==> Num(Short(a)) < Num(Short(b))
  {
    assert a == V4_PREFIX + Short(a) && b == V4_PREFIX + Short(b);
    NumOfConcat(V4_PREFIX, Short(a));
    NumOfConcat(V4_PREFIX, Short(b));
  }

  method MatchesUnder(a: Bytes, b: Bytes, mask: Bytes) returns (r: bool)
    requires |a| == |b| == |mask|
    ensures r <==> Matches(a, b, mask)
  {
    for i := 0 to |a|
      invariant forall k :: 0 <= k < i ==> And(a[k], mask[k]) == And(b[k], mask[k])
    {
      if And(a[i], mask[i]) != And(b[i], mask[i]) { return false; }
    }
    r := true;
  }

  /** Whether the block contains the address, byte by byte under the mask. */
  method Contains(c: CIDR, ip: IP) returns (r: bool)
    ensures r <==> InBlock(c, ip)
  {
    var addr := Short(ip);
    if |addr| != |c.net| { return false; }
    MatchIsBlock(c, ip);
    r := MatchesUnder(addr, c.net, CIDRMask(c.ones, |c.net|));
  }
}
