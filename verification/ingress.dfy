/** What happens to a received datagram before it is parsed (src/engine.rs) and
    where it is repeated (src/repeater.rs), and why repeating never feeds itself. */
module Ingress {
  import opened Records
  import opened Net

  const MDNS_PORT: nat := 5353

  datatype Datagram = Datagram(source: IpAddr, port: nat, recvIfindex: Option<u32>)

  datatype Config = Config(ifaces: seq<Iface>, whitelist: seq<Subnet>, blacklist: seq<Subnet>, repeat: bool)

  ghost predicate WellFormed(c: Config) {
    && WellFormedIfaces(c.ifaces)
    && forall s :: s in c.whitelist + c.blacklist && s.Subnet6? ==> s.prefixLen <= 128
  }

  predicate AllowSource(c: Config, ip: IpAddr)
    requires WellFormed(c)
  {
    if c.whitelist != [] then
      exists s :: s in c.whitelist && SubnetMatches(s, ip)
    else
      forall s :: s in c.blacklist ==> !SubnetMatches(s, ip)
  }

  /** The first interface from `from` on with this kernel index. */
  function FirstWithIndex(ifaces: seq<Iface>, ifindex: u32, from: nat): (at: Option<nat>)
    requires from <= |ifaces|
    ensures at.Some? ==> from <= at.value < |ifaces| && ifaces[at.value].ifindex == ifindex
    ensures forall j :: from <= j < (if at.Some? then at.value else |ifaces|) ==> ifaces[j].ifindex != ifindex
    decreases |ifaces| - from
  {
    if from == |ifaces| then None
    else if ifaces[from].ifindex == ifindex then Some(from)
    else FirstWithIndex(ifaces, ifindex, from + 1)
  }

  /** The first interface from `from` on whose subnet holds the source. */
  function FirstContaining(ifaces: seq<Iface>, ip: IpAddr, from: nat): (at: Option<nat>)
    requires from <= |ifaces| && WellFormedIfaces(ifaces)
    ensures at.Some? ==> from <= at.value < |ifaces| && Contains(ifaces[at.value], ip)
    ensures forall j :: from <= j < (if at.Some? then at.value else |ifaces|) ==> !Contains(ifaces[j], ip)
    decreases |ifaces| - from
  {
    if from == |ifaces| then None
    else if Contains(ifaces[from], ip) then Some(from)
    else FirstContaining(ifaces, ip, from + 1)
  }

  function IdentifyRecvIface(d: Datagram, ifaces: seq<Iface>): Option<nat>
    requires WellFormedIfaces(ifaces)
  {
    var byIndex := if d.recvIfindex.Some? then FirstWithIndex(ifaces, d.recvIfindex.value, 0) else None;
    if byIndex.Some? then byIndex
    else if LinkLocal(d.source) then None
    else FirstContaining(ifaces, d.source, 0)
  }

  /** Position `j` is the first interface with this kernel index. */
  predicate FirstIndexed(ifaces: seq<Iface>, ifindex: u32, j: int) {
    0 <= j < |ifaces| && ifaces[j].ifindex == ifindex && forall m :: 0 <= m < j ==> ifaces[m].ifindex != ifindex
  }

  /** Position `j` is the first interface whose subnet holds the address. */
  predicate FirstHolding(ifaces: seq<Iface>, ip: IpAddr, j: int)
    requires WellFormedIfaces(ifaces)
  {
    0 <= j < |ifaces| && Contains(ifaces[j], ip) && forall m :: 0 <= m < j ==> !Contains(ifaces[m], ip)
  }

  /** The kernel's index decides when it belongs to a monitored interface. Otherwise a
      source in fe80::/10 cannot be told, and any other belongs to the first interface
      whose subnet holds it, if there is one. */
  lemma IngressIsIdentified(d: Datagram, ifaces: seq<Iface>)
    requires WellFormedIfaces(ifaces)
    ensures var recv := IdentifyRecvIface(d, ifaces);
            var indexed := d.recvIfindex.Some? && exists i :: i in ifaces && i.ifindex == d.recvIfindex.value;
            var linkLocal := d.source.V6? && d.source.v6[..10]
                             == [true, true, true, true, true, true, true, false, true, false];
            && (indexed ==> recv.Some? && FirstIndexed(ifaces, d.recvIfindex.value, recv.value))
            && (!indexed && linkLocal ==> recv == None)
            && (!indexed && !linkLocal && recv.Some? ==> FirstHolding(ifaces, d.source, recv.value))
            && (!indexed && !linkLocal ==> (recv.None? <==> forall i :: i in ifaces ==> !Contains(i, d.source)))
  {
  }

  predicate ForwardsTo(recv: Option<nat>, source: IpAddr, ifaces: seq<Iface>, j: nat)
    requires WellFormedIfaces(ifaces) && j < |ifaces|
  {
    match recv
    case Some(i) => j != i
    case None => FirstContaining(ifaces, source, 0).Some? && !Contains(ifaces[j], source)
  }

  /** The targets among the first `n` interfaces, in order. */
  function Targets(recv: Option<nat>, source: IpAddr, ifaces: seq<Iface>, n: nat): seq<nat>
    requires WellFormedIfaces(ifaces) && n <= |ifaces|
  {
    if n == 0 then []
    else Targets(recv, source, ifaces, n - 1)
         + (if ForwardsTo(recv, source, ifaces, n - 1) then [n - 1] else [])
  }

  function ForwardTargets(recv: Option<nat>, source: IpAddr, ifaces: seq<Iface>): seq<nat>
    requires WellFormedIfaces(ifaces)
  {
    Targets(recv, source, ifaces, |ifaces|)
  }

  ghost predicate Increasing(s: seq<nat>) {
    forall i, j :: 0 <= i < j < |s| ==> s[i] < s[j]
  }

  lemma {:induction false} TargetsMember(recv: Option<nat>, source: IpAddr, ifaces: seq<Iface>, n: nat)
    requires WellFormedIfaces(ifaces) && n <= |ifaces|
    ensures forall j: nat :: j in Targets(recv, source, ifaces, n) <==> j < n && ForwardsTo(recv, source, ifaces, j)
  {
    if n > 0 { TargetsMember(recv, source, ifaces, n - 1); }
  }

  lemma {:induction false} TargetsIncrease(recv: Option<nat>, source: IpAddr, ifaces: seq<Iface>, n: nat)
    requires WellFormedIfaces(ifaces) && n <= |ifaces|
    ensures Increasing(Targets(recv, source, ifaces, n))
    ensures forall i :: 0 <= i < |Targets(recv, source, ifaces, n)| ==> Targets(recv, source, ifaces, n)[i] < n
  {
    if n > 0 { TargetsIncrease(recv, source, ifaces, n - 1); }
  }

  lemma {:induction false} TargetsLeaveOut(recv: Option<nat>, source: IpAddr, ifaces: seq<Iface>, n: nat, out: nat)
    requires WellFormedIfaces(ifaces) && n <= |ifaces|
    requires out < |ifaces| && !ForwardsTo(recv, source, ifaces, out)
    ensures |Targets(recv, source, ifaces, n)| <= if out < n then n - 1 else n
  {
    if n > 0 { TargetsLeaveOut(recv, source, ifaces, n - 1, out); }
  }

  lemma {:induction false} NoTargets(recv: Option<nat>, source: IpAddr, ifaces: seq<Iface>, n: nat)
    requires WellFormedIfaces(ifaces) && n <= |ifaces| && recv.None? && FirstContaining(ifaces, source, 0).None?
    ensures Targets(recv, source, ifaces, n) == []
  {
    if n > 0 { NoTargets(recv, source, ifaces, n - 1); }
  }

  /** Identify then forward: strictly increasing valid indices that leave out the
      ingress or, when it is unknown, every interface on the source's subnet;
      nothing at all for an unattributed source that is not link-local IPv6. */
  lemma ForwardingIsSound(d: Datagram, ifaces: seq<Iface>)
    requires WellFormedIfaces(ifaces)
    ensures var recv := IdentifyRecvIface(d, ifaces);
            var targets := ForwardTargets(recv, d.source, ifaces);
            && Increasing(targets)
            && (forall j :: j in targets ==> j < |ifaces|)
            && (recv.Some? ==> recv.value < |ifaces| && recv.value !in targets
                               && forall j :: 0 <= j < |ifaces| && j != recv.value ==> j in targets)
            && (recv.None? ==> forall j :: j in targets ==> !Contains(ifaces[j], d.source))
            && (recv.None? && !LinkLocal(d.source) ==> targets == [])
            && (ifaces != [] ==> |targets| <= |ifaces| - 1)
  {
    var recv := IdentifyRecvIface(d, ifaces);
    TargetsMember(recv, d.source, ifaces, |ifaces|);
    TargetsIncrease(recv, d.source, ifaces, |ifaces|);
    var targets := ForwardTargets(recv, d.source, ifaces);
    if recv.Some? {
      TargetsLeaveOut(recv, d.source, ifaces, |ifaces|, recv.value);
    } else {
      var first := FirstContaining(ifaces, d.source, 0);
      if first.Some? {
        TargetsLeaveOut(recv, d.source, ifaces, |ifaces|, first.value);
      } else {
        NoTargets(recv, d.source, ifaces, |ifaces|);
      }
    }
  }

  // ---- the guards ----

  datatype Verdict = Dropped | Taken(recv: Option<nat>, forwards: seq<nat>)

  predicate OwnAddress(ifaces: seq<Iface>, ip: IpAddr) {
    exists i :: i in ifaces && HasAddr(i, ip)
  }

  /** `handle_datagram` up to the parser, with the targets it will repeat to. */
  function Admit(c: Config, d: Datagram): Verdict
    requires WellFormed(c)
  {
    if d.port != MDNS_PORT then Dropped
    else if OwnAddress(c.ifaces, d.source) then Dropped
    else if !AllowSource(c, d.source) then Dropped
    else
      var recv := IdentifyRecvIface(d, c.ifaces);
      if recv.None? && !c.repeat then Dropped
      else Taken(recv, if c.repeat then ForwardTargets(recv, d.source, c.ifaces) else [])
  }

  /** Some listed prefix agrees with the address on its leading bits. */
  ghost predicate Listed(listed: seq<(IpAddr, nat)>, ip: IpAddr) {
    exists l :: l in listed && SameFamily(l.0, ip) && l.1 <= |BitsOf(l.0)| && BitsOf(l.0)[..l.1] == BitsOf(ip)[..l.1]
  }

  /** The subnets are what the listed prefixes parse to. */
  ghost predicate ParsedFrom(subnets: seq<Subnet>, listed: seq<(IpAddr, nat)>) {
    |subnets| == |listed| && forall n :: 0 <= n < |listed| ==> MakeSubnet(listed[n].0, listed[n].1) == Success(subnets[n])
  }

  lemma ListedIff(subnets: seq<Subnet>, listed: seq<(IpAddr, nat)>, ip: IpAddr)
    requires ParsedFrom(subnets, listed)
    ensures forall s :: s in subnets && s.Subnet6? ==> s.prefixLen <= 128
    ensures (exists s :: s in subnets && SubnetMatches(s, ip)) <==> Listed(listed, ip)
  {
    forall n | 0 <= n < |listed| { SubnetMatchesIff(listed[n].0, listed[n].1, ip); }
    if Listed(listed, ip) {
      var l :| l in listed && SameFamily(l.0, ip) && l.1 <= |BitsOf(l.0)| && BitsOf(l.0)[..l.1] == BitsOf(ip)[..l.1];
      var n :| 0 <= n < |listed| && listed[n] == l;
      assert subnets[n] in subnets;
    }
  }

  /** A datagram is taken exactly when it comes from port 5353, from no address of this
      host, from a whitelisted prefix or, without a whitelist, from no blacklisted one,
      and its ingress is known or repeating is on. It is then answered at its ingress,
      and repeated, if at all, to all other interfaces of a known ingress, or to those
      off the subnet of a source that is on some monitored subnet. */
  lemma TakenIff(c: Config, whitelist: seq<(IpAddr, nat)>, blacklist: seq<(IpAddr, nat)>, d: Datagram)
    requires WellFormed(c) && ParsedFrom(c.whitelist, whitelist) && ParsedFrom(c.blacklist, blacklist)
    ensures var recv := IdentifyRecvIface(d, c.ifaces);
            && (Admit(c, d).Taken? <==>
                && d.port == 5353
                && (forall i :: i in c.ifaces ==>
                      && (i.v4.Some? ==> d.source != V4(i.v4.value.addr))
                      && (i.v6.Some? ==> d.source != V6(i.v6.value.addr)))
                && (if whitelist != [] then Listed(whitelist, d.source) else !Listed(blacklist, d.source))
                && (recv.Some? || c.repeat))
            && (Admit(c, d).Taken? ==>
                && Admit(c, d).recv == recv
                && forall j: nat :: j in Admit(c, d).forwards <==>
                     && c.repeat && j < |c.ifaces|
                     && if recv.Some? then j != recv.value
                        else !Contains(c.ifaces[j], d.source) && exists i :: i in c.ifaces && Contains(i, d.source))
  {
    ListedIff(c.whitelist, whitelist, d.source);
    ListedIff(c.blacklist, blacklist, d.source);
    TargetsMember(IdentifyRecvIface(d, c.ifaces), d.source, c.ifaces, |c.ifaces|);
    SomeHolds(c.ifaces, d.source);
  }

  lemma SomeHolds(ifaces: seq<Iface>, ip: IpAddr)
    requires WellFormedIfaces(ifaces)
    ensures FirstContaining(ifaces, ip, 0).Some? <==> exists i :: i in ifaces && Contains(i, ip)
  {
    if i :| i in ifaces && Contains(i, ip) {
      var j :| 0 <= j < |ifaces| && ifaces[j] == i;
    }
  }

  // ---- the network may hand anything back ----

  datatype Family = Inet | Inet6

  /** What the link sees: a datagram leaves through an interface's socket, or one
      arrives, possibly a copy of an earlier emission on any interface. */
  datatype NetEvent =
    | Emit(iface: nat, family: Family)
    | Hear(d: Datagram, echoOf: Option<nat>)

  /** Send sockets are bound to the interface's own address and port 5353. */
  predicate SentFrom(c: Config, e: NetEvent, ip: IpAddr) {
    && e.Emit? && e.iface < |c.ifaces|
    && match e.family
       case Inet => c.ifaces[e.iface].v4.Some? && ip == V4(c.ifaces[e.iface].v4.value.addr)
       case Inet6 => c.ifaces[e.iface].v6.Some? && ip == V6(c.ifaces[e.iface].v6.value.addr)
  }

  ghost predicate LegalTrace(c: Config, trace: seq<NetEvent>) {
    forall i :: 0 <= i < |trace| && trace[i].Hear? && trace[i].echoOf.Some? ==>
                  && trace[i].echoOf.value < i
                  && trace[i].d.port == MDNS_PORT
                  && SentFrom(c, trace[trace[i].echoOf.value], trace[i].d.source)
  }

  /** Everything the daemon repeats over a trace. */
  function Forwards(c: Config, trace: seq<NetEvent>): nat
    requires WellFormed(c)
  {
    if trace == [] then 0
    else
      var e := trace[|trace| - 1];
      Forwards(c, trace[..|trace| - 1])
      + (if e.Hear? && Admit(c, e.d).Taken? then |Admit(c, e.d).forwards| else 0)
  }

  /** The datagrams from outside that pass the guards. */
  function ExternalTaken(c: Config, trace: seq<NetEvent>): nat
    requires WellFormed(c)
  {
    if trace == [] then 0
    else
      var e := trace[|trace| - 1];
      ExternalTaken(c, trace[..|trace| - 1])
      + (if e.Hear? && e.echoOf.None? && Admit(c, e.d).Taken? then 1 else 0)
  }

  lemma EchoIsDropped(c: Config, trace: seq<NetEvent>, i: nat)
    requires WellFormed(c) && LegalTrace(c, trace)
    requires i < |trace| && trace[i].Hear? && trace[i].echoOf.Some?
    ensures Admit(c, trace[i].d).Dropped?
  {
    var sent := trace[trace[i].echoOf.value];
    assert c.ifaces[sent.iface] in c.ifaces && HasAddr(c.ifaces[sent.iface], trace[i].d.source);
  }

  /** Reflection never cascades: no emission, looped back anywhere, is cached,
      answered or repeated, so repeats stay within n - 1 per external datagram. */
  lemma {:induction false} ReflectionNeverCascades(c: Config, trace: seq<NetEvent>)
    requires WellFormed(c) && c.ifaces != [] && LegalTrace(c, trace)
    ensures forall i :: 0 <= i < |trace| && trace[i].Hear? && trace[i].echoOf.Some? ==>
                          Admit(c, trace[i].d).Dropped?
    ensures Forwards(c, trace) <= (|c.ifaces| - 1) * ExternalTaken(c, trace)
  {
    forall i | 0 <= i < |trace| && trace[i].Hear? && trace[i].echoOf.Some?
      ensures Admit(c, trace[i].d).Dropped?
    {
      EchoIsDropped(c, trace, i);
    }
    ForwardsBounded(c, trace);
  }

  lemma {:induction false} ForwardsBounded(c: Config, trace: seq<NetEvent>)
    requires WellFormed(c) && c.ifaces != [] && LegalTrace(c, trace)
    ensures Forwards(c, trace) <= (|c.ifaces| - 1) * ExternalTaken(c, trace)
  {
    if trace != [] {
      var n := |trace| - 1;
      var e := trace[n];
      assert LegalTrace(c, trace[..n]);
      ForwardsBounded(c, trace[..n]);
      var others, taken := |c.ifaces| - 1, ExternalTaken(c, trace[..n]);
      if e.Hear? && e.echoOf.Some? {
        EchoIsDropped(c, trace, n);
      } else if e.Hear? && Admit(c, e.d).Taken? {
        TakenForwards(c, e.d);
        OneMore(others, taken, Forwards(c, trace[..n]), |Admit(c, e.d).forwards|);
      }
    }
  }

  lemma OneMore(others: nat, taken: nat, sofar: nat, more: nat)
    requires sofar <= others * taken && more <= others
    ensures sofar + more <= others * (taken + 1)
  {
  }

  lemma TakenForwards(c: Config, d: Datagram)
    requires WellFormed(c) && c.ifaces != [] && Admit(c, d).Taken?
    ensures |Admit(c, d).forwards| <= |c.ifaces| - 1
  {
    ForwardingIsSound(d, c.ifaces);
  }
}
