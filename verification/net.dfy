/** Interfaces and prefix arithmetic (src/iface.rs, src/config.rs). Machine words are bit sequences, most
    significant bit first, so masking and shifting are what the code does. */
module Net {
  import opened Records

  function And(a: Bits, b: Bits): Bits
    requires |a| == |b|
  {
    seq(|a|, i requires 0 <= i < |a| => a[i] && b[i])
  }

  function Ones(n: nat): Bits { seq(n, _ => true) }
  function Zeros(n: nat): Bits { seq(n, _ => false) }

  /** `a << n` at the width of `a`. */
  function ShiftLeft(a: Bits, n: nat): Bits
    requires n <= |a|
  {
    a[n..] + Zeros(n)
  }

  /** The prefix mask of either width; the code special-cases zero because it may
      not shift by the whole width. */
  function PrefixMask(width: nat, prefixLen: nat): Bits
    requires prefixLen <= width
  {
    if prefixLen == 0 then Zeros(width) else ShiftLeft(Ones(width), width - prefixLen)
  }

  function Ipv6Net(addr: Ipv6, prefixLen: nat): Ipv6
    requires prefixLen <= 128
  {
    And(addr, PrefixMask(128, prefixLen))
  }

  /** Masking with a prefix keeps the leading bits and clears the others. */
  lemma MaskKeepsPrefix(a: Bits, prefixLen: nat)
    requires prefixLen <= |a|
    ensures And(a, PrefixMask(|a|, prefixLen)) == a[..prefixLen] + Zeros(|a| - prefixLen)
  {
  }

  /** Two addresses mask alike exactly when their leading bits agree. */
  lemma MaskAgreesIff(a: Bits, b: Bits, prefixLen: nat)
    requires |a| == |b| && prefixLen <= |a|
    ensures And(a, PrefixMask(|a|, prefixLen)) == And(b, PrefixMask(|a|, prefixLen))
            <==> a[..prefixLen] == b[..prefixLen]
  {
    MaskKeepsPrefix(a, prefixLen);
    MaskKeepsPrefix(b, prefixLen);
    var za := a[..prefixLen] + Zeros(|a| - prefixLen);
    var zb := b[..prefixLen] + Zeros(|a| - prefixLen);
    assert za[..prefixLen] == a[..prefixLen] && zb[..prefixLen] == b[..prefixLen];
  }

  /** Taking the network twice is taking it once at the shorter prefix. */
  lemma NetOfNet(addr: Ipv6, p: nat, q: nat)
    requires p <= 128 && q <= 128
    ensures Ipv6Net(Ipv6Net(addr, p), q) == Ipv6Net(addr, if p <= q then p else q)
  {
    MaskKeepsPrefix(addr, p);
    MaskKeepsPrefix(addr, if p <= q then p else q);
    MaskKeepsPrefix(Ipv6Net(addr, p), q);
  }

  /** The prefix length of a netmask, octet by octet. */
  method Ipv6PrefixLen(mask: Ipv6) returns (bits: nat)
    ensures bits <= 128
    ensures mask[..bits] == Ones(bits)
    ensures bits < 128 ==> !mask[bits]
  {
    bits := 0;
    for octet := 0 to 16
      invariant bits == 8 * octet
      invariant mask[..bits] == Ones(bits)
    {
      var byte := mask[8 * octet..8 * octet + 8];
      var ones := LeadingOnes(byte);
      assert mask[..bits + ones] == mask[..bits] + byte[..ones];
      bits := bits + ones;
      if ones < 8 {
        return;
      }
    }
  }

  /** `u8::leading_ones`. */
  method LeadingOnes(byte: Bits) returns (ones: nat)
    ensures ones <= |byte| && byte[..ones] == Ones(ones) && (ones < |byte| ==> !byte[ones])
  {
    ones := 0;
    while ones < |byte| && byte[ones]
      invariant ones <= |byte| && byte[..ones] == Ones(ones)
    {
      ones := ones + 1;
    }
  }

  // ---- source filters ----

  datatype IpAddr = V4(v4: Ipv4) | V6(v6: Ipv6)

  datatype Subnet =
    | Subnet4(mask: Ipv4, net: Ipv4)
    | Subnet6(prefixLen: nat, net6: Ipv6)

  datatype SubnetError = MaskTooLong

  /** The arithmetic of `parse_subnet` once address and mask length are read. */
  function MakeSubnet(addr: IpAddr, bits: nat): Result<Subnet, SubnetError> {
    match addr
    case V4(a) =>
      if bits > 32 then Failure(MaskTooLong)
      else Success(Subnet4(PrefixMask(32, bits), And(a, PrefixMask(32, bits))))
    case V6(a) =>
      if bits > 128 then Failure(MaskTooLong) else Success(Subnet6(bits, Ipv6Net(a, bits)))
  }

  predicate SubnetMatches(s: Subnet, ip: IpAddr)
    requires s.Subnet6? ==> s.prefixLen <= 128
  {
    match (s, ip)
    case (Subnet4(mask, net), V4(a)) => And(a, mask) == net
    case (Subnet6(p, net), V6(a)) => Ipv6Net(a, p) == net
    case (_, _) => false
  }

  function BitsOf(ip: IpAddr): Bits {
    match ip case V4(a) => a case V6(a) => a
  }

  predicate SameFamily(a: IpAddr, b: IpAddr) {
    a.V4? <==> b.V4?
  }

  /** A subnet is made exactly when the length fits the family, and then matches
      exactly the addresses of the family that share the leading bits. */
  lemma SubnetMatchesIff(addr: IpAddr, bits: nat, ip: IpAddr)
    ensures MakeSubnet(addr, bits).Success? <==> bits <= |BitsOf(addr)|
    ensures MakeSubnet(addr, bits).Success? ==>
              (SubnetMatches(MakeSubnet(addr, bits).value, ip) <==>
               SameFamily(addr, ip) && BitsOf(addr)[..bits] == BitsOf(ip)[..bits])
  {
    if bits <= |BitsOf(addr)| && SameFamily(addr, ip) {
      MaskAgreesIff(BitsOf(ip), BitsOf(addr), bits);
    }
  }

  /** A longer prefix of the same address matches a subset. */
  lemma LongerPrefixMatchesSubset(addr: IpAddr, p: nat, q: nat, ip: IpAddr)
    requires p <= q && MakeSubnet(addr, q).Success?
    ensures MakeSubnet(addr, p).Success?
    ensures SubnetMatches(MakeSubnet(addr, q).value, ip) ==> SubnetMatches(MakeSubnet(addr, p).value, ip)
  {
    SubnetMatchesIff(addr, p, ip);
    SubnetMatchesIff(addr, q, ip);
    if SameFamily(addr, ip) {
      var a, b := BitsOf(addr), BitsOf(ip);
      assert a[..q][..p] == a[..p] && b[..q][..p] == b[..p];
    }
  }

  // ---- interfaces ----

  datatype IfaceV4 = IfaceV4(addr: Ipv4, mask: Ipv4, net: Ipv4)
  datatype IfaceV6 = IfaceV6(addr: Ipv6, prefixLen: nat, net: Ipv6)
  datatype Iface = Iface(ifindex: u32, v4: Option<IfaceV4>, v6: Option<IfaceV6>)

  /** What interface enumeration stores: each network is the masked own address. */
  ghost predicate WellFormedIface(i: Iface) {
    && (i.v4.Some? ==> i.v4.value.net == And(i.v4.value.addr, i.v4.value.mask))
    && (i.v6.Some? ==> i.v6.value.prefixLen <= 128
                       && i.v6.value.net == Ipv6Net(i.v6.value.addr, i.v6.value.prefixLen))
  }

  ghost predicate WellFormedIfaces(ifaces: seq<Iface>) {
    forall i :: 0 <= i < |ifaces| ==> WellFormedIface(ifaces[i])
  }

  predicate HasAddr(i: Iface, ip: IpAddr) {
    match ip
    case V4(a) => i.v4.Some? && i.v4.value.addr == a
    case V6(a) => i.v6.Some? && i.v6.value.addr == a
  }

  predicate Contains(i: Iface, ip: IpAddr)
    requires WellFormedIface(i)
  {
    match ip
    case V4(a) => i.v4.Some? && And(a, i.v4.value.mask) == i.v4.value.net
    case V6(a) => i.v6.Some? && Ipv6Net(a, i.v6.value.prefixLen) == i.v6.value.net
  }

  /** fe80::/10 */
  predicate LinkLocal(ip: IpAddr) {
    ip.V6? && ip.v6[..10] == [true, true, true, true, true, true, true, false, true, false]
  }

  /** An interface contains itself, and a source exactly when the two addresses agree
      on every bit the mask keeps: the leading ones, where the mask is a prefix. */
  lemma ContainsIff(i: Iface, ip: IpAddr)
    requires WellFormedIface(i)
    ensures HasAddr(i, ip) ==> Contains(i, ip)
    ensures ip.V4? && i.v4.Some? ==>
              (Contains(i, ip) <==>
               forall b :: 0 <= b < 32 && i.v4.value.mask[b] ==> ip.v4[b] == i.v4.value.addr[b])
    ensures ip.V4? && i.v4.Some? ==>
              forall p: nat :: p <= 32 && i.v4.value.mask == PrefixMask(32, p) ==>
                (Contains(i, ip) <==> ip.v4[..p] == i.v4.value.addr[..p])
    ensures ip.V6? && i.v6.Some? ==>
              (Contains(i, ip) <==>
               ip.v6[..i.v6.value.prefixLen] == i.v6.value.addr[..i.v6.value.prefixLen])
    ensures (if ip.V4? then i.v4.None? else i.v6.None?) ==> !Contains(i, ip)
  {
    if ip.V4? && i.v4.Some? {
      MaskedAlikeIff(ip.v4, i.v4.value.addr, i.v4.value.mask);
      forall p: nat | p <= 32 && i.v4.value.mask == PrefixMask(32, p)
        ensures Contains(i, ip) <==> ip.v4[..p] == i.v4.value.addr[..p]
      {
        MaskAgreesIff(ip.v4, i.v4.value.addr, p);
      }
    }
    if ip.V6? && i.v6.Some? {
      MaskAgreesIff(ip.v6, i.v6.value.addr, i.v6.value.prefixLen);
    }
  }

  lemma MaskedAlikeIff(a: Bits, b: Bits, mask: Bits)
    requires |a| == |b| == |mask|
    ensures And(a, mask) == And(b, mask) <==> forall i :: 0 <= i < |mask| && mask[i] ==> a[i] == b[i]
  {
    if And(a, mask) == And(b, mask) {
      forall i | 0 <= i < |mask| && mask[i] ensures a[i] == b[i] {
        assert And(a, mask)[i] == And(b, mask)[i];
      }
    }
  }
}
