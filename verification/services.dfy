/** The records the daemon publishes (src/services.rs). */
module Services {
  import opened Records
  import opened Net
  import Cache
  import CacheRuns

  const TTL_HOST: u32 := 120
  const TTL_SERVICE: u32 := 4500
  const CLASS_IN: nat := 1
  const META: Name := "_services._dns-sd._udp.local."

  datatype ServiceRecords = ServiceRecords(
    instanceName: Name, serviceType: Name,
    ptrToInstance: Record, ptrMeta: Record, srv: Record, txt: Record)

  datatype Published = Published(
    hostname: Name, hostA: seq<Record>, hostAaaa: seq<Record>, services: seq<ServiceRecords>)

  datatype ServiceConfig = ServiceConfig(
    name: string, service: string, port: nat, txt: seq<string>, host: Option<string>)

  /** Name parsing is a library's; each function may refuse its input. */
  datatype NameParser = NameParser(
    fromStr: string -> Option<Name>, fromLabel: string -> Option<Name>, append: (Name, Name) -> Option<Name>)

  datatype ServiceError = BadServiceType | BadInstanceName | BadInstanceCompose | BadHost | Internal

  // ---- building ----

  /** The host records of one family, one per interface that has an address. */
  function HostA(hostname: Name, ifaces: seq<Iface>): seq<Record> {
    if ifaces == [] then []
    else (if ifaces[0].v4.Some? then [Record(hostname, TTL_HOST, CLASS_IN, true, AData(ifaces[0].v4.value.addr))] else [])
         + HostA(hostname, ifaces[1..])
  }

  function HostAaaa(hostname: Name, ifaces: seq<Iface>): seq<Record> {
    if ifaces == [] then []
    else (if ifaces[0].v6.Some? then [Record(hostname, TTL_HOST, CLASS_IN, true, AaaaData(ifaces[0].v6.value.addr))] else [])
         + HostAaaa(hostname, ifaces[1..])
  }

  function ServiceOf(names: NameParser, hostname: Name, meta: Name, sc: ServiceConfig)
    : Result<ServiceRecords, ServiceError>
  {
    match names.fromStr(sc.service) case None => Failure(BadServiceType) case Some(serviceType) =>
    match names.fromLabel(sc.name) case None => Failure(BadInstanceName) case Some(instanceLabel) =>
    match names.append(instanceLabel, serviceType) case None => Failure(BadInstanceCompose) case Some(instanceName) =>
    match (if sc.host.Some? then names.fromStr(sc.host.value) else Some(hostname))
    case None => Failure(BadHost)
    case Some(target) =>
      Success(ServiceRecords(
                instanceName, serviceType,
                Record(serviceType, TTL_SERVICE, CLASS_IN, false, PtrData(instanceName)),
                Record(meta, TTL_SERVICE, CLASS_IN, false, PtrData(serviceType)),
                Record(instanceName, TTL_HOST, CLASS_IN, true, SrvData(0, 0, sc.port, target)),
                Record(instanceName, TTL_SERVICE, CLASS_IN, true,
                       TxtData(if sc.txt == [] then [""] else sc.txt))))
  }

  /** The service records that the configuration asks for. */
  ghost predicate Describes(s: ServiceRecords, names: NameParser, hostname: Name, meta: Name, sc: ServiceConfig) {
    var instanceLabel := names.fromLabel(sc.name);
    var target := if sc.host.Some? then names.fromStr(sc.host.value) else Some(hostname);
    && names.fromStr(sc.service) == Some(s.serviceType)
    && instanceLabel.Some? && names.append(instanceLabel.value, s.serviceType) == Some(s.instanceName)
    && target.Some?
    && s.ptrMeta == Record(meta, 4500, 1, false, PtrData(s.serviceType))
    && s.ptrToInstance == Record(s.serviceType, 4500, 1, false, PtrData(s.instanceName))
    && s.srv == Record(s.instanceName, 120, 1, true, SrvData(0, 0, sc.port, target.value))
    && s.txt == Record(s.instanceName, 4500, 1, true, TxtData(if sc.txt == [] then [""] else sc.txt))
  }

  /** The first name of the service that does not parse is the one the error names. */
  ghost predicate FailsWith(e: ServiceError, names: NameParser, sc: ServiceConfig) {
    var serviceType, instanceLabel := names.fromStr(sc.service), names.fromLabel(sc.name);
    match e
    case BadServiceType => serviceType.None?
    case BadInstanceName => serviceType.Some? && instanceLabel.None?
    case BadInstanceCompose =>
      serviceType.Some? && instanceLabel.Some? && names.append(instanceLabel.value, serviceType.value).None?
    case BadHost =>
      && serviceType.Some? && instanceLabel.Some? && names.append(instanceLabel.value, serviceType.value).Some?
      && sc.host.Some? && names.fromStr(sc.host.value).None?
    case Internal => false
  }

  /** TTL, class and cache-flush follow from the kind of record. */
  predicate Standard(r: Record) {
    && r.ttl == (if r.data.PtrData? || r.data.TxtData? then TTL_SERVICE else TTL_HOST)
    && r.dnsClass == CLASS_IN
    && r.flush == !r.data.PtrData?
  }

  ghost predicate WellFormedService(s: ServiceRecords) {
    && s.ptrToInstance.name == s.serviceType && s.ptrToInstance.data == PtrData(s.instanceName)
    && s.ptrMeta.data == PtrData(s.serviceType)
    && s.srv.name == s.instanceName && s.srv.data.SrvData?
    && s.txt.name == s.instanceName && s.txt.data.TxtData?
    && Standard(s.ptrToInstance) && Standard(s.ptrMeta) && Standard(s.srv) && Standard(s.txt)
  }

  lemma ServiceOfIsRight(names: NameParser, hostname: Name, meta: Name, sc: ServiceConfig)
    ensures match ServiceOf(names, hostname, meta, sc)
            case Success(s) => Describes(s, names, hostname, meta, sc)
            case Failure(e) => FailsWith(e, names, sc)
  {
  }

  lemma DescribedDoesNotFail(s: ServiceRecords, names: NameParser, hostname: Name, meta: Name, sc: ServiceConfig)
    requires Describes(s, names, hostname, meta, sc)
    ensures forall e :: !FailsWith(e, names, sc)
  {
  }

  /** The shape of everything `build` can produce. */
  ghost predicate WellFormed(p: Published) {
    && (forall r :: r in p.hostA ==> r.name == p.hostname && r.data.AData? && Standard(r))
    && (forall r :: r in p.hostAaaa ==> r.name == p.hostname && r.data.AaaaData? && Standard(r))
    && (forall s :: s in p.services ==> WellFormedService(s))
  }

  /** `p` is what the configuration asks for: the addresses of the interfaces and one
      group of records per service, in order. */
  ghost predicate BuiltFrom(p: Published, names: NameParser, hostname: Name, services: seq<ServiceConfig>,
                            ifaces: seq<Iface>)
  {
    var meta := names.fromStr("_services._dns-sd._udp.local.");
    && meta.Some? && p.hostname == hostname
    && p.hostA == HostA(hostname, ifaces) && p.hostAaaa == HostAaaa(hostname, ifaces)
    && |p.services| == |services|
    && forall n :: 0 <= n < |services| ==> Describes(p.services[n], names, hostname, meta.value, services[n])
  }

  /** Building succeeds exactly when every name parses, otherwise it reports the
      first name of the first service that does not; what it builds is well formed. */
  method Build(names: NameParser, hostname: Name, services: seq<ServiceConfig>, ifaces: seq<Iface>)
    returns (res: Result<Published, ServiceError>)
    ensures res.Success? ==> WellFormed(res.value) && BuiltFrom(res.value, names, hostname, services, ifaces)
    ensures res.Failure? ==>
              if names.fromStr("_services._dns-sd._udp.local.").None? then res.error == Internal
              else exists n :: 0 <= n < |services| && FailsWith(res.error, names, services[n])
                               && forall m, e :: 0 <= m < n ==> !FailsWith(e, names, services[m])
  {
    var built: seq<ServiceRecords> := [];
    var meta := names.fromStr(META);
    if meta.None? { return Failure(Internal); }
    for i := 0 to |services|
      invariant |built| == i
      invariant forall j :: 0 <= j < i ==> Describes(built[j], names, hostname, meta.value, services[j])
    {
      ServiceOfIsRight(names, hostname, meta.value, services[i]);
      var one := ServiceOf(names, hostname, meta.value, services[i]);
      if one.Failure? {
        forall j | 0 <= j < i { DescribedDoesNotFail(built[j], names, hostname, meta.value, services[j]); }
        return Failure(one.error);
      }
      built := built + [one.value];
    }
    res := Success(Published(hostname, HostA(hostname, ifaces), HostAaaa(hostname, ifaces), built));
    BuiltIsWellFormed(res.value, names, hostname, services, ifaces);
  }

  lemma DescribedIsWellFormed(s: ServiceRecords, names: NameParser, hostname: Name, meta: Name, sc: ServiceConfig)
    requires Describes(s, names, hostname, meta, sc)
    ensures WellFormedService(s)
  {
  }

  lemma BuiltIsWellFormed(p: Published, names: NameParser, hostname: Name, services: seq<ServiceConfig>, ifaces: seq<Iface>)
    requires BuiltFrom(p, names, hostname, services, ifaces)
    ensures WellFormed(p)
  {
    HostAddresses(hostname, ifaces);
    forall s | s in p.services ensures WellFormedService(s) {
      var n :| 0 <= n < |p.services| && p.services[n] == s;
      DescribedIsWellFormed(s, names, hostname, names.fromStr("_services._dns-sd._udp.local.").value, services[n]);
    }
  }

  function DataOf(rs: seq<Record>): set<RData> {
    set r | r in rs :: r.data
  }

  lemma {:induction false} HostAddresses(hostname: Name, ifaces: seq<Iface>)
    ensures forall r :: r in HostA(hostname, ifaces) ==>
                        r.data.AData? && r == Record(hostname, 120, 1, true, r.data)
    ensures forall r :: r in HostAaaa(hostname, ifaces) ==>
                        r.data.AaaaData? && r == Record(hostname, 120, 1, true, r.data)
    ensures forall a :: AData(a) in DataOf(HostA(hostname, ifaces)) <==>
                        exists i :: i in ifaces && i.v4.Some? && i.v4.value.addr == a
    ensures forall a :: AaaaData(a) in DataOf(HostAaaa(hostname, ifaces)) <==>
                        exists i :: i in ifaces && i.v6.Some? && i.v6.value.addr == a
  {
    if ifaces != [] {
      HostAddresses(hostname, ifaces[1..]);
      assert ifaces == [ifaces[0]] + ifaces[1..];
    }
  }

  // ---- answering ----

  function ServiceList(s: ServiceRecords): seq<Record> {
    [s.ptrToInstance, s.ptrMeta, s.srv, s.txt]
  }

  function Listed(services: seq<ServiceRecords>): seq<Record> {
    if services == [] then []
    else Listed(services[..|services| - 1]) + ServiceList(services[|services| - 1])
  }

  /** Everything published, in order. */
  function Flattened(p: Published): seq<Record> {
    p.hostA + p.hostAaaa + Listed(p.services)
  }

  /** The plain filter by name and type. */
  function Matching(rs: seq<Record>, qname: Name, qtype: RecordType): seq<Record> {
    if rs == [] then []
    else Matching(rs[..|rs| - 1], qname, qtype)
         + Matched(rs[|rs| - 1], qname, qtype)
  }

  function Matched(r: Record, qname: Name, qtype: RecordType): seq<Record> {
    if r.name == qname && Selects(qtype, TypeOf(r.data)) then [r] else []
  }

  lemma {:induction false} MatchingConcat(a: seq<Record>, b: seq<Record>, qname: Name, qtype: RecordType)
    ensures Matching(a + b, qname, qtype) == Matching(a, qname, qtype) + Matching(b, qname, qtype)
  {
    if b == [] {
      assert a + b == a;
    } else {
      assert (a + b)[..|a + b| - 1] == a + b[..|b| - 1];
      MatchingConcat(a, b[..|b| - 1], qname, qtype);
    }
  }

  lemma MatchingSnoc(rs: seq<Record>, r: Record, qname: Name, qtype: RecordType)
    ensures Matching(rs + [r], qname, qtype) == Matching(rs, qname, qtype) + Matched(r, qname, qtype)
  {
    assert (rs + [r])[..|rs|] == rs;
  }

  lemma MatchingFour(a: Record, b: Record, c: Record, d: Record, qname: Name, qtype: RecordType)
    ensures Matching([a, b, c, d], qname, qtype)
         == Matched(a, qname, qtype) + Matched(b, qname, qtype) + Matched(c, qname, qtype) + Matched(d, qname, qtype)
  {
    var one := [a];
    var two := one + [b];
    var three := two + [c];
    MatchingSnoc([], a, qname, qtype);
    assert [] + [a] == one;
    MatchingSnoc(one, b, qname, qtype);
    MatchingSnoc(two, c, qname, qtype);
    MatchingSnoc(three, d, qname, qtype);
    assert [a, b, c, d] == three + [d];
  }

  lemma {:induction false} MatchingNone(rs: seq<Record>, qname: Name, qtype: RecordType)
    requires forall r :: r in rs ==> !Selects(qtype, TypeOf(r.data))
    ensures Matching(rs, qname, qtype) == []
  {
    if rs != [] { MatchingNone(rs[..|rs| - 1], qname, qtype); }
  }

  lemma {:induction false} MatchingMember(rs: seq<Record>, qname: Name, qtype: RecordType)
    ensures forall r :: r in Matching(rs, qname, qtype) <==>
                        r in rs && r.name == qname && Selects(qtype, TypeOf(r.data))
  {
    if rs != [] {
      MatchingMember(rs[..|rs| - 1], qname, qtype);
      assert rs == rs[..|rs| - 1] + [rs[|rs| - 1]];
    }
  }

  /** One scan over a list of host records. */
  method ScanNames(rs: seq<Record>, qname: Name, qtype: RecordType) returns (out: seq<Record>)
    requires forall r :: r in rs ==> Selects(qtype, TypeOf(r.data))
    ensures out == Matching(rs, qname, qtype)
  {
    out := [];
    for i := 0 to |rs|
      invariant out == Matching(rs[..i], qname, qtype)
    {
      assert rs[..i + 1][..i] == rs[..i] && rs[i] in rs;
      if rs[i].name == qname { out := out + [rs[i]]; }
    }
    assert rs[..|rs|] == rs;
  }

  method ScanService(s: ServiceRecords, qname: Name, qtype: RecordType) returns (out: seq<Record>)
    requires WellFormedService(s)
    ensures out == Matching(ServiceList(s), qname, qtype)
  {
    var any := qtype == ANY;
    out := if (any || qtype == PTR) && qname == s.serviceType then [s.ptrToInstance] else [];
    assert out == Matched(s.ptrToInstance, qname, qtype);
    var meta := if (any || qtype == PTR) && qname == s.ptrMeta.name then [s.ptrMeta] else [];
    assert meta == Matched(s.ptrMeta, qname, qtype);
    var srv := if (any || qtype == SRV) && qname == s.instanceName then [s.srv] else [];
    assert srv == Matched(s.srv, qname, qtype);
    var txt := if (any || qtype == TXT) && qname == s.instanceName then [s.txt] else [];
    assert txt == Matched(s.txt, qname, qtype);
    out := out + meta + srv + txt;
    MatchingFour(s.ptrToInstance, s.ptrMeta, s.srv, s.txt, qname, qtype);
  }

  method ScanHosts(p: Published, qname: Name, qtype: RecordType) returns (out: seq<Record>)
    requires WellFormed(p)
    ensures out == Matching(p.hostA + p.hostAaaa, qname, qtype)
  {
    MatchingConcat(p.hostA, p.hostAaaa, qname, qtype);
    out := [];
    if qtype == ANY || qtype == A {
      out := ScanNames(p.hostA, qname, qtype);
    } else {
      MatchingNone(p.hostA, qname, qtype);
    }
    if qtype == ANY || qtype == AAAA {
      var more := ScanNames(p.hostAaaa, qname, qtype);
      out := out + more;
    } else {
      MatchingNone(p.hostAaaa, qname, qtype);
    }
  }

  method ScanServices(services: seq<ServiceRecords>, qname: Name, qtype: RecordType) returns (out: seq<Record>)
    requires forall s :: s in services ==> WellFormedService(s)
    ensures out == Matching(Listed(services), qname, qtype)
  {
    out := [];
    for i := 0 to |services|
      invariant out == Matching(Listed(services[..i]), qname, qtype)
    {
      var more := ScanService(services[i], qname, qtype);
      assert services[..i + 1][..i] == services[..i];
      MatchingConcat(Listed(services[..i]), ServiceList(services[i]), qname, qtype);
      out := out + more;
    }
    assert services[..|services|] == services;
  }

  /** The branching by type and the comparisons of stored names answer exactly the
      plain filter of the flattened list, in order. */
  method Answer(p: Published, qname: Name, qtype: RecordType) returns (out: seq<Record>)
    requires WellFormed(p)
    ensures out == Matching(Flattened(p), qname, qtype)
  {
    var hosts := ScanHosts(p, qname, qtype);
    var services := ScanServices(p.services, qname, qtype);
    MatchingConcat(p.hostA + p.hostAaaa, Listed(p.services), qname, qtype);
    out := hosts + services;
  }

  // ---- per interface ----

  /** The address records of `i` itself. */
  function WithData(rs: seq<Record>, d: RData): seq<Record> {
    if rs == [] then []
    else (if rs[0].data == d then [rs[0]] else []) + WithData(rs[1..], d)
  }

  function HostRecordsForIface(p: Published, i: Iface): seq<Record> {
    (if i.v4.Some? then WithData(p.hostA, AData(i.v4.value.addr)) else [])
    + (if i.v6.Some? then WithData(p.hostAaaa, AaaaData(i.v6.value.addr)) else [])
  }

  lemma {:induction false} WithDataMember(rs: seq<Record>, d: RData)
    ensures forall r :: r in WithData(rs, d) <==> r in rs && r.data == d
  {
    if rs != [] {
      WithDataMember(rs[1..], d);
      assert rs == [rs[0]] + rs[1..];
    }
  }

  predicate OwnAddressData(d: RData, i: Iface) {
    || (d.AData? && i.v4.Some? && i.v4.value.addr == d.v4)
    || (d.AaaaData? && i.v6.Some? && i.v6.value.addr == d.v6)
  }

  /** The host records of an interface are exactly the published address records
      that carry one of its own addresses. */
  lemma HostRecordsAreOwn(p: Published, i: Iface)
    requires WellFormed(p)
    ensures forall r :: r in HostRecordsForIface(p, i) <==> r in p.hostA + p.hostAaaa && OwnAddressData(r.data, i)
  {
    if i.v4.Some? { WithDataMember(p.hostA, AData(i.v4.value.addr)); }
    if i.v6.Some? { WithDataMember(p.hostAaaa, AaaaData(i.v6.value.addr)); }
  }

  function UniqueServices(services: seq<ServiceRecords>): seq<Record> {
    if services == [] then []
    else UniqueServices(services[..|services| - 1]) + [services[|services| - 1].srv, services[|services| - 1].txt]
  }

  function UniqueForIface(p: Published, i: Iface): seq<Record> {
    HostRecordsForIface(p, i) + UniqueServices(p.services)
  }

  /** What `build_announce` puts into an announcement on `i`. */
  function Announcement(p: Published, i: Iface): seq<Record> {
    HostRecordsForIface(p, i) + Listed(p.services)
  }

  lemma {:induction false} ListedMember(services: seq<ServiceRecords>)
    ensures forall r :: r in Listed(services) <==> exists s :: s in services && r in ServiceList(s)
    ensures forall r :: r in UniqueServices(services) <==> exists s :: s in services && (r == s.srv || r == s.txt)
  {
    if services != [] {
      ListedMember(services[..|services| - 1]);
      assert services == services[..|services| - 1] + [services[|services| - 1]];
    }
  }

  /** Of what an announcement sends, exactly the cache-flush records are stamped in
      the rate limiter: the announced PTR records are not. */
  lemma AnnouncedIsStampedIffUnique(p: Published, i: Iface, r: Record)
    requires WellFormed(p) && r in Announcement(p, i)
    ensures r in UniqueForIface(p, i) <==> r.flush
  {
    ListedMember(p.services);
    HostRecordsAreOwn(p, i);
  }

  // ---- goodbye ----

  function Retracted(services: seq<ServiceRecords>): seq<Record> {
    if services == [] then []
    else
      var s := services[|services| - 1];
      Retracted(services[..|services| - 1]) + [s.ptrToInstance, s.srv, s.txt]
  }

  function Zeroed(rs: seq<Record>): seq<Record> {
    seq(|rs|, i requires 0 <= i < |rs| => rs[i].(ttl := 0))
  }

  method Goodbye(p: Published) returns (out: seq<Record>)
    ensures out == Zeroed(Farewell(p))
  {
    out := Zeroed(p.hostA) + Zeroed(p.hostAaaa);
    for i := 0 to |p.services|
      invariant out == Zeroed(p.hostA + p.hostAaaa + Retracted(p.services[..i]))
    {
      var s := p.services[i];
      assert p.services[..i + 1][..i] == p.services[..i];
      out := out + [s.ptrToInstance.(ttl := 0)];
      out := out + [s.srv.(ttl := 0)];
      out := out + [s.txt.(ttl := 0)];
    }
    assert p.services[..|p.services|] == p.services;
  }

  /** The insertions a peer makes when it hears `rs`. */
  function Heard(rs: seq<Record>, source: Option<u32>, now: Time): seq<CacheRuns.Event> {
    seq(|rs|, i requires 0 <= i < |rs| => CacheRuns.Insert(rs[i], source, now, None))
  }

  lemma ZeroedKeys(rs: seq<Record>)
    ensures KeysOf(Zeroed(rs)) == KeysOf(rs)
  {
    forall r | r in rs ensures KeyOf(r) in KeysOf(Zeroed(rs)) {
      var i :| 0 <= i < |rs| && rs[i] == r;
      assert Zeroed(rs)[i] in Zeroed(rs) && KeyOf(Zeroed(rs)[i]) == KeyOf(r);
    }
    forall z | z in Zeroed(rs) ensures KeyOf(z) in KeysOf(rs) {
      var i :| 0 <= i < |rs| && Zeroed(rs)[i] == z;
      assert rs[i] in rs && KeyOf(rs[i]) == KeyOf(z);
    }
  }

  lemma HeardKeys(rs: seq<Record>, source: Option<u32>, now: Time)
    ensures (set e | e in Heard(rs, source, now) :: KeyOf(e.record)) == KeysOf(rs)
  {
    var log := Heard(rs, source, now);
    forall r | r in rs ensures KeyOf(r) in (set e | e in log :: KeyOf(e.record)) {
      var j :| 0 <= j < |rs| && rs[j] == r;
      assert log[j] in log;
    }
  }

  /** The records whose goodbye is sent. */
  function Farewell(p: Published): seq<Record> {
    p.hostA + p.hostAaaa + Retracted(p.services)
  }

  /** Of everything published exactly the host records and each service's PTR, SRV and
      TXT get a goodbye; a meta PTR gets none. */
  lemma FarewellIsExact(p: Published, r: Record)
    ensures r in Farewell(p) <==>
              || r in p.hostA || r in p.hostAaaa
              || exists s :: s in p.services && (r == s.ptrToInstance || r == s.srv || r == s.txt)
  {
    RetractedMember(p.services);
  }

  /** Of the records announced on an interface only meta PTRs get no goodbye. */
  lemma OnlyMetaStays(p: Published, i: Iface, r: Record)
    requires WellFormed(p) && r in Announcement(p, i) && r !in Farewell(p)
    ensures exists s :: s in p.services && r == s.ptrMeta
  {
    ListedMember(p.services);
    FarewellIsExact(p, r);
    HostRecordsAreOwn(p, i);
  }

  /** Any cache that hears the goodbye loses exactly its keys, and of the records
      announced on any interface at most meta PTRs stay behind. */
  lemma GoodbyeClearsPeers(p: Published, i: Iface, limits: Cache.Limits, peer: Cache.Table,
                           source: Option<u32>, now: Time)
    requires WellFormed(p)
    ensures var after := CacheRuns.Run(limits, peer, Heard(Zeroed(Farewell(p)), source, now));
            && after == peer - KeysOf(Farewell(p))
            && forall r :: r in Announcement(p, i) && KeyOf(r) in after ==>
                             exists s :: s in p.services && r == s.ptrMeta
  {
    CacheRuns.GoodbyesSubtract(limits, peer, Heard(Zeroed(Farewell(p)), source, now));
    HeardKeys(Zeroed(Farewell(p)), source, now);
    ZeroedKeys(Farewell(p));
    forall r | r in Announcement(p, i) && KeyOf(r) !in KeysOf(Farewell(p))
      ensures exists s :: s in p.services && r == s.ptrMeta
    {
      OnlyMetaStays(p, i, r);
    }
  }

  lemma {:induction false} RetractedMember(services: seq<ServiceRecords>)
    ensures forall r :: r in Retracted(services) <==>
                        exists s :: s in services && (r == s.ptrToInstance || r == s.srv || r == s.txt)
  {
    if services != [] {
      RetractedMember(services[..|services| - 1]);
      assert services == services[..|services| - 1] + [services[|services| - 1]];
    }
  }
}
