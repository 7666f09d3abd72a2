/** Admission of DHCP ranges: one range against its network, and all ranges
    against each other.  Texts are parsed before they come here. */
module DhcpRanges {
  import opened Wrappers
  import opened Octets
  import opened IpBlocks

  /** The gateway field: the empty text, a text that is no address, or an address. */
  datatype Gateway = Absent | Unparsable | Given(ip: IP)

  datatype Range = Range(cidr: Option<CIDR>, start: Option<IP>, end: Option<IP>, gateway: Gateway)

  datatype Fault =
    | InvalidCidr | StartNotIP | EndNotIP | GatewayNotIP
    | MixedFamily | IPv6Gateway
    | StartNotInCidr | EndNotInCidr | GatewayNotInCidr
    | InvalidRangeStart | InvalidRangeEnd

  function Rank(f: Fault): nat {
    match f
    case InvalidCidr => 0 case StartNotIP => 1 case EndNotIP => 2 case GatewayNotIP => 3
    case MixedFamily => 4 case IPv6Gateway => 5
    case StartNotInCidr => 6 case EndNotInCidr => 7 case GatewayNotInCidr => 8
    case InvalidRangeStart => 9 case InvalidRangeEnd => 10
  }

  predicate IsIPv4CIDR(c: CIDR) { |c.net| == 4 }

  /** All four fields hold a parsed value; only then does the validation go on. */
  predicate Complete(r: Range) { r.cidr.Some? && r.start.Some? && r.end.Some? && r.gateway.Given? }

  /** When a fault is to be reported. */
  predicate Raised(r: Range, f: Fault) {
    match f
    case InvalidCidr => r.cidr.None?
    case StartNotIP => r.start.None?
    case EndNotIP => r.end.None?
    case GatewayNotIP => r.gateway.Unparsable?
    case MixedFamily =>
      Complete(r) && (if IsIPv4CIDR(r.cidr.value)
                      then !IsIPv4(r.start.value) || !IsIPv4(r.end.value) || !IsIPv4(r.gateway.ip)
                      else IsIPv4(r.start.value) || IsIPv4(r.end.value))
    case IPv6Gateway => Complete(r) && !IsIPv4CIDR(r.cidr.value)
    case StartNotInCidr => Complete(r) && !InBlock(r.cidr.value, r.start.value)
    case EndNotInCidr => Complete(r) && !InBlock(r.cidr.value, r.end.value)
    case GatewayNotInCidr => Complete(r) && !InBlock(r.cidr.value, r.gateway.ip)
    case InvalidRangeStart => Complete(r) && Num(r.end.value) <= Num(r.start.value)
    case InvalidRangeEnd => Complete(r) && Num(r.end.value) <= Num(r.start.value)
  }

  function RaisedBy(r: Range): Fault -> bool { f => Raised(r, f) }

  /** The faults found so far: those of lower rank that are raised, each once and in order. */
  ghost predicate Found(raised: Fault -> bool, errs: seq<Fault>, rank: nat) {
    && (forall f :: f in errs <==> raised(f) && Rank(f) < rank)
    && (forall i, j :: 0 <= i < j < |errs| ==> Rank(errs[i]) < Rank(errs[j]))
  }

  /** Appends a fault when it was found. */
  method Report(ghost raised: Fault -> bool, errs: seq<Fault>, f: Fault, found: bool) returns (more: seq<Fault>)
    requires Found(raised, errs, Rank(f)) && (found <==> raised(f))
    ensures Found(raised, more, Rank(f) + 1)
  {
    more := if found then errs + [f] else errs;
  }

  method ParseFaults(r: Range) returns (errs: seq<Fault>)
    ensures Found(RaisedBy(r), errs, 4)
  {
    errs := [];
    errs := Report(RaisedBy(r), errs, InvalidCidr, r.cidr.None?);
    errs := Report(RaisedBy(r), errs, StartNotIP, r.start.None?);
    errs := Report(RaisedBy(r), errs, EndNotIP, r.end.None?);
    errs := Report(RaisedBy(r), errs, GatewayNotIP, r.gateway.Unparsable?);
  }

  method FamilyFaults(r: Range, errs0: seq<Fault>) returns (errs: seq<Fault>)
    requires Complete(r) && Found(RaisedBy(r), errs0, 4)
    ensures Found(RaisedBy(r), errs, 6)
  {
    var mixed := false;
    var start, end, gateway := r.start.value, r.end.value, r.gateway.ip;
    if IsIPv4CIDR(r.cidr.value) {
      if !(IsIPv4(start) && IsIPv4(end)) { mixed := true; }
      else if !IsIPv4(gateway) { mixed := true; }
    } else if !(!IsIPv4(start) && !IsIPv4(end)) {
      mixed := true;
    }
    errs := Report(RaisedBy(r), errs0, MixedFamily, mixed);
    errs := Report(RaisedBy(r), errs, IPv6Gateway, !IsIPv4CIDR(r.cidr.value));
  }

  method NetworkFaults(r: Range, errs0: seq<Fault>) returns (errs: seq<Fault>)
    requires Complete(r) && Found(RaisedBy(r), errs0, 6)
    ensures Found(RaisedBy(r), errs, 9)
  {
    var inside := Contains(r.cidr.value, r.start.value);
    errs := Report(RaisedBy(r), errs0, StartNotInCidr, !inside);
    inside := Contains(r.cidr.value, r.end.value);
    errs := Report(RaisedBy(r), errs, EndNotInCidr, !inside);
    inside := Contains(r.cidr.value, r.gateway.ip);
    errs := Report(RaisedBy(r), errs, GatewayNotInCidr, !inside);
  }

  /** What is reported, fault by fault. */
  predicate FaultsOf(r: Range, errs: seq<Fault>) {
    && (InvalidCidr in errs <==> r.cidr.None?) && (StartNotIP in errs <==> r.start.None?)
    && (EndNotIP in errs <==> r.end.None?) && (GatewayNotIP in errs <==> r.gateway.Unparsable?)
    && if r.cidr.Some? && r.start.Some? && r.end.Some? && r.gateway.Given? then
         NetworkFaultsOf(r.cidr.value, r.start.value, r.end.value, r.gateway.ip, errs)
       else
         forall f :: f in errs ==> f in {InvalidCidr, StartNotIP, EndNotIP, GatewayNotIP}
  }

  predicate NetworkFaultsOf(c: CIDR, start: IP, end: IP, gateway: IP, errs: seq<Fault>) {
    && (MixedFamily in errs <==>
          if |c.net| == 4 then !(IsIPv4(start) && IsIPv4(end) && IsIPv4(gateway)) else IsIPv4(start) || IsIPv4(end))
    && (IPv6Gateway in errs <==> |c.net| != 4)
    && (StartNotInCidr in errs <==> !InBlock(c, start)) && (EndNotInCidr in errs <==> !InBlock(c, end))
    && (GatewayNotInCidr in errs <==> !InBlock(c, gateway))
    && (InvalidRangeStart in errs <==> Num(end) <= Num(start)) && (InvalidRangeEnd in errs <==> Num(end) <= Num(start))
  }

  lemma FoundIff(r: Range, errs: seq<Fault>, f: Fault)
    requires Found(RaisedBy(r), errs, 11)
    ensures f in errs <==> Raised(r, f)
  {
    assert f in errs <==> RaisedBy(r)(f) && Rank(f) < 11;
  }

  lemma FoundInNetwork(r: Range, errs: seq<Fault>)
    requires Complete(r) && Found(RaisedBy(r), errs, 11)
    ensures NetworkFaultsOf(r.cidr.value, r.start.value, r.end.value, r.gateway.ip, errs)
  {
    FoundIff(r, errs, MixedFamily);
    FoundIff(r, errs, IPv6Gateway);
    FoundIff(r, errs, StartNotInCidr);
    FoundIff(r, errs, EndNotInCidr);
    FoundIff(r, errs, GatewayNotInCidr);
    FoundIff(r, errs, InvalidRangeStart);
    FoundIff(r, errs, InvalidRangeEnd);
  }

  lemma FoundFaults(r: Range, errs: seq<Fault>)
    requires Found(RaisedBy(r), errs, 11)
    ensures FaultsOf(r, errs)
  {
    FoundIff(r, errs, InvalidCidr);
    FoundIff(r, errs, StartNotIP);
    FoundIff(r, errs, EndNotIP);
    FoundIff(r, errs, GatewayNotIP);
    if Complete(r) {
      FoundInNetwork(r, errs);
    } else {
      forall f | f in errs ensures f in {InvalidCidr, StartNotIP, EndNotIP, GatewayNotIP} { FoundIff(r, errs, f); }
    }
  }

  /** validateDHCPRange: an absent gateway, like anything that does not parse,
      ends the validation before families, network and order are looked at. */
  method ValidateDHCPRange(r: Range) returns (errs: seq<Fault>)
    ensures Found(RaisedBy(r), errs, 11)
    ensures errs == [] <==> Accepted(r)
    ensures FaultsOf(r, errs)
  {
    errs := ParseFaults(r);
    if r.cidr.None? || r.start.None? || r.end.None? || !r.gateway.Given? {
      IncompleteStops(r, errs);
      FoundFaults(r, errs);
      return;
    }
    errs := FamilyFaults(r, errs);
    errs := NetworkFaults(r, errs);
    CompareIsNumeric(r.end.value, r.start.value);
    var reversed := Compare(r.end.value, r.start.value) != 1;
    errs := Report(RaisedBy(r), errs, InvalidRangeStart, reversed);
    errs := Report(RaisedBy(r), errs, InvalidRangeEnd, reversed);
    AcceptedIffNothingFound(r, errs);
    FoundFaults(r, errs);
  }

  // ---------------------------------------------------------------------
  // What is accepted

  /** Without a gateway, whatever parses; with one, exactly the IPv4 ranges in
      order whose ends and gateway lie in the network. */
  predicate Accepted(r: Range) {
    && r.cidr.Some? && r.start.Some? && r.end.Some?
    && match r.gateway
       case Absent => true
       case Unparsable => false
       case Given(gateway) =>
         && IsIPv4CIDR(r.cidr.value)
         && InBlock(r.cidr.value, r.start.value) && InBlock(r.cidr.value, r.end.value) && InBlock(r.cidr.value, gateway)
         && Num(Short(r.start.value)) < Num(Short(r.end.value))
  }

  lemma NothingFound(raised: Fault -> bool, errs: seq<Fault>, rank: nat, f: Fault)
    requires Found(raised, errs, rank) && errs == [] && Rank(f) < rank
    ensures !raised(f)
  {
    assert f in errs <==> raised(f) && Rank(f) < rank;
  }

  lemma SomethingFound(raised: Fault -> bool, errs: seq<Fault>, rank: nat)
    requires Found(raised, errs, rank) && errs != []
    ensures raised(errs[0]) && Rank(errs[0]) < rank
  {
    assert errs[0] in errs;
  }

  lemma IncompleteStops(r: Range, errs: seq<Fault>)
    requires !Complete(r) && Found(RaisedBy(r), errs, 4)
    ensures Found(RaisedBy(r), errs, 11) && (errs == [] <==> Accepted(r))
  {
    if errs == [] {
      NothingFound(RaisedBy(r), errs, 4, InvalidCidr);
      NothingFound(RaisedBy(r), errs, 4, StartNotIP);
      NothingFound(RaisedBy(r), errs, 4, EndNotIP);
      NothingFound(RaisedBy(r), errs, 4, GatewayNotIP);
    } else {
      SomethingFound(RaisedBy(r), errs, 4);
    }
    forall f: Fault ensures RaisedBy(r)(f) ==> Rank(f) < 4 {}
  }

  lemma AcceptedRaisesNothing(r: Range, f: Fault)
    requires Accepted(r)
    ensures !Raised(r, f)
  {
    if Complete(r) { MappedOrder(r.start.value, r.end.value); }
  }

  lemma NothingRaisedAccepts(r: Range)
    requires Complete(r) && !Raised(r, MixedFamily) && !Raised(r, IPv6Gateway) && !Raised(r, InvalidRangeStart)
    requires !Raised(r, StartNotInCidr) && !Raised(r, EndNotInCidr) && !Raised(r, GatewayNotInCidr)
    ensures Accepted(r)
  {
    MappedOrder(r.start.value, r.end.value);
  }

  lemma NothingFoundAccepts(r: Range, errs: seq<Fault>)
    requires Complete(r) && Found(RaisedBy(r), errs, 11) && errs == []
    ensures Accepted(r)
  {
    NothingFound(RaisedBy(r), errs, 11, MixedFamily);
    NothingFound(RaisedBy(r), errs, 11, IPv6Gateway);
    NothingFound(RaisedBy(r), errs, 11, StartNotInCidr);
    NothingFound(RaisedBy(r), errs, 11, EndNotInCidr);
    NothingFound(RaisedBy(r), errs, 11, GatewayNotInCidr);
    NothingFound(RaisedBy(r), errs, 11, InvalidRangeStart);
    NothingRaisedAccepts(r);
  }

  lemma AcceptedIffNothingFound(r: Range, errs: seq<Fault>)
    requires Complete(r) && Found(RaisedBy(r), errs, 11)
    ensures errs == [] <==> Accepted(r)
  {
    if errs == [] {
      NothingFoundAccepts(r, errs);
    } else {
      SomethingFound(RaisedBy(r), errs, 11);
      if Accepted(r) { AcceptedRaisesNothing(r, errs[0]); }
    }
  }

  /** An address between two mapped IPv4 addresses is itself one. */
  lemma BetweenMapped(low: IP, ip: IP, high: IP)
    requires IsIPv4(low) && IsIPv4(high) && Num(low) <= Num(ip) <= Num(high)
    ensures IsIPv4(ip) && Num(Short(low)) <= Num(Short(ip)) <= Num(Short(high))
  {
    assert low == V4_PREFIX + low[12..] && high == V4_PREFIX + high[12..] && ip == ip[..12] + ip[12..];
    NumOfConcat(V4_PREFIX, low[12..]);
    NumOfConcat(V4_PREFIX, high[12..]);
    NumOfConcat(ip[..12], ip[12..]);
    var p, m, k := Pow2(8 * 4), Num(V4_PREFIX), Num(ip[..12]);
    if k < m { Dominates(k, m, p, Num(ip[12..]), Num(low[12..])); }
    if k > m { Dominates(m, k, p, Num(high[12..]), Num(ip[12..])); }
    CompareIsNumeric(ip[..12], V4_PREFIX);
  }

  /** When a range with a gateway is accepted, every 16-byte address that
      dnsmasq may hand out, from start to end, lies in the network, and so does
      the gateway. */
  lemma AcceptedRangeLiesInNetwork(r: Range, ip: IP)
    ensures Accepted(r) && r.gateway.Given? && Num(r.start.value) <= Num(ip) <= Num(r.end.value) ==>
              && IsIPv4(ip) && InBlock(r.cidr.value, ip) && InBlock(r.cidr.value, r.gateway.ip)
              && Num(r.start.value) < Num(r.end.value)
  {
    if Accepted(r) && r.gateway.Given? && Num(r.start.value) <= Num(ip) <= Num(r.end.value) {
      MappedOrder(r.start.value, r.end.value);
      BetweenMapped(r.start.value, ip, r.end.value);
      BlockIsConvex(r.cidr.value, r.start.value, ip, r.end.value);
    }
  }

  /** What the validation is for: one family, both ends in the network, start before
      end, and a gateway, if any, in an IPv4 network. */
  predicate Sound(r: Range) {
    && r.cidr.Some? && r.start.Some? && r.end.Some?
    && InBlock(r.cidr.value, r.start.value) && InBlock(r.cidr.value, r.end.value)
    && Num(r.start.value) < Num(r.end.value)
    && match r.gateway
       case Absent => true
       case Unparsable => false
       case Given(gateway) => IsIPv4CIDR(r.cidr.value) && InBlock(r.cidr.value, gateway)
  }

  /** With a gateway field that is not empty it accepts the sound ranges,
      no more and no fewer.  Without one it accepts whatever parses. */
  lemma AcceptedIffSound(r: Range)
    ensures r.gateway != Absent ==> (Accepted(r) <==> Sound(r))
    ensures r.gateway == Absent ==> (Accepted(r) <==> r.cidr.Some? && r.start.Some? && r.end.Some?)
    ensures Sound(r) ==> Accepted(r)
  {
    if r.start.Some? && r.end.Some? && IsIPv4(r.start.value) && IsIPv4(r.end.value) {
      MappedOrder(r.start.value, r.end.value);
    }
  }

  /** For example, a range that runs backwards, outside its network. */
  lemma UnsoundRangeAccepted() returns (r: Range)
    ensures Accepted(r) && !Sound(r) && Num(r.end.value) < Num(r.start.value) && !InBlock(r.cidr.value, r.start.value)
  {
    var low: IP := V4_PREFIX + [10, 0, 0, 1];
    var high: IP := V4_PREFIX + [10, 0, 0, 2];
    var net: Bytes := [32, 1, 13, 184, 0, 0, 0, 0, 0, 0, 0, 0, 0, 0, 0, 0];
    assert net[..12][0] != V4_PREFIX[0];
    var six: CIDR := Network(net, 64);
    r := Range(Some(six), Some(high), Some(low), Absent);
    assert low[..12] == V4_PREFIX && high[..12] == V4_PREFIX;
    CompareIsNumeric(low, high);
    assert low[15] < high[15];
    EqualUpTo(low, high, 15);
  }

  lemma {:induction false} EqualUpTo(a: Bytes, b: Bytes, k: nat)
    requires k < |a| == |b| && a[..k] == b[..k] && a[k] < b[k]
    ensures Compare(a, b) == -1
    decreases k
  {
    if k > 0 {
      assert a[0] == a[..k][0] == b[..k][0] == b[0];
      assert a[1..][..k - 1] == a[..k][1..] == b[..k][1..] == b[1..][..k - 1];
      EqualUpTo(a[1..], b[1..], k - 1);
    }
  }
}
