/** Choosing the records of a response (src/responder.rs): candidates, known-answer
    suppression, additionals and the delay class. */
module Responder {
  import opened Records
  import opened Net
  import opened Services
  import opened Cache
  import opened CacheCalls

  datatype Question = Question(name: Name, qtype: RecordType)

  datatype Message = Message(
    queries: seq<Question>, truncated: bool, answers: seq<Record>, authorities: seq<Record>)

  // ---- pushing without duplicates ----

  /** `push_unique` for a whole list: `seen` holds the keys of `out` and `blocked`. */
  function PushNew(out: seq<Record>, blocked: set<RecordKey>, rs: seq<Record>): seq<Record> {
    if rs == [] then out
    else
      var before, r := PushNew(out, blocked, rs[..|rs| - 1]), rs[|rs| - 1];
      if KeyOf(r) in blocked + KeysOf(before) then before else before + [r]
  }

  lemma KeysOfConcat(a: seq<Record>, b: seq<Record>)
    ensures KeysOf(a + b) == KeysOf(a) + KeysOf(b)
  {
  }

  /** Nothing is lost, nothing is doubled, and nothing blocked comes in. */
  lemma {:induction false} PushNewKeeps(out: seq<Record>, blocked: set<RecordKey>, rs: seq<Record>)
    requires DistinctKeys(out) && KeysOf(out) !! blocked
    ensures DistinctKeys(PushNew(out, blocked, rs)) && KeysOf(PushNew(out, blocked, rs)) !! blocked
    ensures KeysOf(PushNew(out, blocked, rs)) == KeysOf(out) + (KeysOf(rs) - blocked)
    ensures forall r :: r in PushNew(out, blocked, rs) ==> r in out || r in rs
    ensures out <= PushNew(out, blocked, rs)
  {
    if rs != [] {
      var init, r := rs[..|rs| - 1], rs[|rs| - 1];
      assert rs == init + [r];
      PushNewKeeps(out, blocked, init);
      PushOneKeeps(PushNew(out, blocked, init), blocked, r);
      KeysOfSnoc(init, r);
    }
  }

  lemma PushOneKeeps(before: seq<Record>, blocked: set<RecordKey>, r: Record)
    requires DistinctKeys(before) && KeysOf(before) !! blocked
    ensures var after := if KeyOf(r) in blocked + KeysOf(before) then before else before + [r];
            && DistinctKeys(after) && KeysOf(after) !! blocked
            && KeysOf(after) == KeysOf(before) + ({KeyOf(r)} - blocked)
  {
    KeysOfSnoc(before, r);
    if KeyOf(r) !in blocked + KeysOf(before) { DistinctSnoc(before, r); }
  }

  lemma KeysOfSnoc(rs: seq<Record>, r: Record)
    ensures KeysOf(rs + [r]) == KeysOf(rs) + {KeyOf(r)}
  {
    KeysOfConcat(rs, [r]);
    assert KeysOf([r]) == {KeyOf(r)};
  }

  lemma DistinctSnoc(rs: seq<Record>, r: Record)
    requires DistinctKeys(rs) && KeyOf(r) !in KeysOf(rs)
    ensures DistinctKeys(rs + [r])
  {
    forall i | 0 <= i < |rs| ensures KeyOf(rs[i]) != KeyOf(r) {
      assert rs[i] in rs;
    }
  }

  /** `push_unique` over a list, with the explicit set of keys already seen. */
  method PushAll(out: seq<Record>, seen: set<RecordKey>, ghost blocked: set<RecordKey>, rs: seq<Record>)
    returns (out': seq<Record>, seen': set<RecordKey>)
    requires seen == blocked + KeysOf(out)
    ensures out' == PushNew(out, blocked, rs)
    ensures seen' == blocked + KeysOf(out')
  {
    out', seen' := out, seen;
    for i := 0 to |rs|
      invariant out' == PushNew(out, blocked, rs[..i])
      invariant seen' == blocked + KeysOf(out')
    {
      assert rs[..i + 1][..i] == rs[..i];
      if KeyOf(rs[i]) !in seen' {
        KeysOfConcat(out', [rs[i]]);
        assert KeysOf([rs[i]]) == {KeyOf(rs[i])};
        out', seen' := out' + [rs[i]], seen' + {KeyOf(rs[i])};
      }
    }
    assert rs[..|rs|] == rs;
  }

  // ---- candidate answers ----

  predicate IsAddress(r: Record) {
    TypeOf(r.data) == A || TypeOf(r.data) == AAAA
  }

  /** Published answers, without the addresses of other interfaces. Records compare
      without their TTL, so equality here is equality of keys. */
  function OwnAnswers(rs: seq<Record>, p: Published, i: Iface): seq<Record> {
    if rs == [] then []
    else
      var r := rs[|rs| - 1];
      OwnAnswers(rs[..|rs| - 1], p, i)
      + (if IsAddress(r) && KeyOf(r) !in KeysOf(HostRecordsForIface(p, i)) then [] else [r])
  }

  /** A record this daemon publishes and may send on `i`: addresses only its own. */
  ghost predicate OwnRecord(r: Record, p: Published, i: Iface) {
    r in Flattened(p) && (IsAddress(r) ==> OwnAddressData(r.data, i))
  }

  lemma {:induction false} OwnAnswersMember(rs: seq<Record>, p: Published, i: Iface)
    requires WellFormed(p)
    ensures forall r :: r in OwnAnswers(rs, p, i) ==> r in rs && (IsAddress(r) ==> OwnAddressData(r.data, i))
    ensures forall r :: r in rs && r in Flattened(p) && (IsAddress(r) ==> OwnAddressData(r.data, i)) ==>
                        r in OwnAnswers(rs, p, i)
  {
    if rs != [] {
      OwnAnswersMember(rs[..|rs| - 1], p, i);
      assert rs == rs[..|rs| - 1] + [rs[|rs| - 1]];
      HostRecordsAreOwn(p, i);
      var r := rs[|rs| - 1];
      if r in Flattened(p) && IsAddress(r) && OwnAddressData(r.data, i) {
        AddressIsHost(p, r);
        assert r in HostRecordsForIface(p, i);
      }
    }
  }

  lemma AddressIsHost(p: Published, r: Record)
    requires WellFormed(p) && r in Flattened(p) && IsAddress(r)
    ensures r in p.hostA + p.hostAaaa
  {
    ListedMember(p.services);
  }

  /** The published answers to one question that may go out on `i`. */
  function Own(p: Published, q: Question, i: Iface): seq<Record> {
    OwnAnswers(Matching(Flattened(p), q.name, q.qtype), p, i)
  }

  /** They are exactly the interface's own records that match the question. */
  lemma OwnIsExact(p: Published, q: Question, i: Iface)
    requires WellFormed(p)
    ensures forall r :: r in Own(p, q, i) <==>
                        OwnRecord(r, p, i) && r.name == q.name && Selects(q.qtype, TypeOf(r.data))
  {
    MatchingMember(Flattened(p), q.name, q.qtype);
    OwnAnswersMember(Matching(Flattened(p), q.name, q.qtype), p, i);
  }

  /** Own records of one key are one record: TTL and cache-flush follow from the kind. */
  lemma OwnKeysAreUnique(p: Published, i: Iface, a: Record, b: Record)
    requires WellFormed(p) && OwnRecord(a, p, i) && OwnRecord(b, p, i) && KeyOf(a) == KeyOf(b)
    ensures a == b
  {
    OwnIsStandard(p, i, a);
    OwnIsStandard(p, i, b);
  }

  lemma OwnIsStandard(p: Published, i: Iface, r: Record)
    requires WellFormed(p) && OwnRecord(r, p, i)
    ensures Standard(r)
  {
    ListedMember(p.services);
  }

  /** An announcement carries exactly what the interface would answer. */
  lemma AnnouncementIsOwn(p: Published, i: Iface, r: Record)
    requires WellFormed(p)
    ensures r in Announcement(p, i) <==> OwnRecord(r, p, i)
  {
    ListedMember(p.services);
    HostRecordsAreOwn(p, i);
    if r in Flattened(p) && IsAddress(r) { AddressIsHost(p, r); }
  }

  /** The unique records of an interface are its own cache-flush records. */
  lemma UniqueIsOwnFlush(p: Published, i: Iface, r: Record)
    requires WellFormed(p)
    ensures r in UniqueForIface(p, i) <==> OwnRecord(r, p, i) && r.flush
  {
    AnnouncementIsOwn(p, i, r);
    if r in Announcement(p, i) { AnnouncedIsStampedIffUnique(p, i, r); }
    ListedMember(p.services);
  }

  /** The record answers the question on `i`. */
  ghost predicate Answers(p: Published, i: Iface, r: Record, qtype: RecordType) {
    r in Own(p, Question(r.name, qtype), i)
  }

  /** Browsing finds every configured service, step by step as RFC 6763 has it: the
      meta query leads to its type, the type to the instance, the instance to its port,
      text and host; and the host, when it is this one, to the addresses of the very
      interface that was asked. The instance is its label before the type. */
  lemma BrowsingResolves(p: Published, names: NameParser, hostname: Name, services: seq<ServiceConfig>,
                         ifaces: seq<Iface>, n: nat, i: Iface)
    requires BuiltFrom(p, names, hostname, services, ifaces) && WellFormed(p) && n < |services| && i in ifaces
    ensures var sc := services[n];
            var meta, serviceType := names.fromStr("_services._dns-sd._udp.local."), names.fromStr(sc.service);
            var instanceLabel := names.fromLabel(sc.name);
            var target := if sc.host.Some? then names.fromStr(sc.host.value) else Some(hostname);
            && meta.Some? && serviceType.Some? && instanceLabel.Some? && target.Some?
            && names.append(instanceLabel.value, serviceType.value).Some?
            && var instanceName := names.append(instanceLabel.value, serviceType.value).value;
               && Answers(p, i, Record(meta.value, 4500, 1, false, PtrData(serviceType.value)), PTR)
               && Answers(p, i, Record(serviceType.value, 4500, 1, false, PtrData(instanceName)), PTR)
               && Answers(p, i, Record(instanceName, 120, 1, true, SrvData(0, 0, sc.port, target.value)), SRV)
               && Answers(p, i, Record(instanceName, 4500, 1, true, TxtData(if sc.txt == [] then [""] else sc.txt)), TXT)
    ensures i.v4.Some? ==> Answers(p, i, Record(hostname, 120, 1, true, AData(i.v4.value.addr)), A)
    ensures i.v6.Some? ==> Answers(p, i, Record(hostname, 120, 1, true, AaaaData(i.v6.value.addr)), AAAA)
    ensures forall r :: r in Own(p, Question(hostname, A), i) ==> i.v4.Some? && r.data == AData(i.v4.value.addr)
    ensures forall r :: r in Own(p, Question(hostname, AAAA), i) ==> i.v6.Some? && r.data == AaaaData(i.v6.value.addr)
  {
    assert Describes(p.services[n], names, hostname, names.fromStr("_services._dns-sd._udp.local.").value, services[n]);
    ServiceAnswers(p, i, p.services[n]);
    HostAnswers(p, hostname, ifaces, i);
    OnlyOwnAddresses(p, hostname, i);
  }

  lemma ServiceAnswers(p: Published, i: Iface, s: ServiceRecords)
    requires WellFormed(p) && s in p.services
    ensures Answers(p, i, s.ptrMeta, PTR) && Answers(p, i, s.ptrToInstance, PTR)
    ensures Answers(p, i, s.srv, SRV) && Answers(p, i, s.txt, TXT)
  {
    ListedAnswers(p, i, s, 0, PTR);
    ListedAnswers(p, i, s, 1, PTR);
    ListedAnswers(p, i, s, 2, SRV);
    ListedAnswers(p, i, s, 3, TXT);
  }

  lemma ListedAnswers(p: Published, i: Iface, s: ServiceRecords, n: nat, rtype: RecordType)
    requires WellFormed(p) && s in p.services && n < 4 && rtype == [PTR, PTR, SRV, TXT][n]
    ensures Answers(p, i, ServiceList(s)[n], rtype)
  {
    var r := ServiceList(s)[n];
    assert WellFormedService(s) && rtype == TypeOf(r.data);
    assert OwnRecord(r, p, i) by {
      ListedMember(p.services);
      assert r in ServiceList(s);
    }
    PublishedAnswers(p, i, r);
  }

  lemma PublishedAnswers(p: Published, i: Iface, r: Record)
    requires WellFormed(p) && OwnRecord(r, p, i)
    ensures Answers(p, i, r, TypeOf(r.data))
  {
    OwnIsExact(p, Question(r.name, TypeOf(r.data)), i);
  }

  lemma HostAnswers(p: Published, hostname: Name, ifaces: seq<Iface>, i: Iface)
    requires WellFormed(p) && p.hostA == HostA(hostname, ifaces) && p.hostAaaa == HostAaaa(hostname, ifaces)
    requires i in ifaces
    ensures i.v4.Some? ==> Answers(p, i, Record(hostname, 120, 1, true, AData(i.v4.value.addr)), A)
    ensures i.v6.Some? ==> Answers(p, i, Record(hostname, 120, 1, true, AaaaData(i.v6.value.addr)), AAAA)
  {
    if i.v4.Some? {
      var r := Record(hostname, 120, 1, true, AData(i.v4.value.addr));
      assert r in p.hostA by {
        HostAddresses(hostname, ifaces);
        assert r.data in DataOf(p.hostA);
      }
      PublishedAnswers(p, i, r);
    }
    if i.v6.Some? {
      var r := Record(hostname, 120, 1, true, AaaaData(i.v6.value.addr));
      assert r in p.hostAaaa by {
        HostAddresses(hostname, ifaces);
        assert r.data in DataOf(p.hostAaaa);
      }
      PublishedAnswers(p, i, r);
    }
  }

  lemma OnlyOwnAddresses(p: Published, hostname: Name, i: Iface)
    requires WellFormed(p)
    ensures forall r :: r in Own(p, Question(hostname, A), i) ==> i.v4.Some? && r.data == AData(i.v4.value.addr)
    ensures forall r :: r in Own(p, Question(hostname, AAAA), i) ==> i.v6.Some? && r.data == AaaaData(i.v6.value.addr)
  {
    OwnAddressesOnly(p, hostname, i, A);
    OwnAddressesOnly(p, hostname, i, AAAA);
  }

  lemma OwnAddressesOnly(p: Published, hostname: Name, i: Iface, rtype: RecordType)
    requires WellFormed(p) && (rtype == A || rtype == AAAA)
    ensures forall r :: r in Own(p, Question(hostname, rtype), i) ==> TypeOf(r.data) == rtype && OwnAddressData(r.data, i)
  {
    OwnIsExact(p, Question(hostname, rtype), i);
  }

  /** A cached record that may be relayed to `arrival`: learned elsewhere, still
      alive, cache-flush cleared. */
  ghost predicate Relayable(r: Record, m: Table, arrival: u32, now: Time) {
    && KeyOf(r) in m
    && FromElsewhere(m[KeyOf(r)], arrival)
    && !r.flush
    && WithRemainingTtl(m[KeyOf(r)], now).Some?
    && r == WithRemainingTtl(m[KeyOf(r)], now).value.(flush := false)
  }

  lemma OtherViewIsRelayable(m: Table, name: Name, rtype: RecordType, arrival: u32, now: Time, rs: seq<Record>)
    requires WellKeyed(m) && Lists(rs, OtherView(m, name, rtype, arrival, now))
    ensures forall r :: r in rs ==> Relayable(r, m, arrival, now)
    ensures KeysOf(rs) == OtherView(m, name, rtype, arrival, now).Keys
  {
    var view := OtherView(m, name, rtype, arrival, now);
    forall k | k in view ensures k in KeysOf(rs) {
      assert view[k] in rs && KeyOf(view[k]) == k;
    }
  }

  /** The keys a query calls for: the interface's own matching records and, when
      enabled, what the cache can relay. Each question's lookup reads its own clock. */
  ghost function CandidateKeys(p: Published, i: Iface, m: Table, fromCache: bool, qs: seq<Question>, clock: seq<Time>)
    : set<RecordKey>
    requires |clock| == |qs|
  {
    if qs == [] then {}
    else
      var n := |qs| - 1;
      CandidateKeys(p, i, m, fromCache, qs[..n], clock[..n])
      + KeysOf(Own(p, qs[n], i))
      + (if fromCache then OtherView(m, qs[n].name, qs[n].qtype, i.ifindex, clock[n]).Keys else {})
  }

  /** Where a candidate may come from. */
  ghost predicate Sourced(r: Record, p: Published, i: Iface, m: Table, clock: seq<Time>) {
    OwnRecord(r, p, i) || exists j :: 0 <= j < |clock| && Relayable(r, m, i.ifindex, clock[j])
  }

  /** The published answers to one question that belong to the interface. */
  method AddOwn(q: Question, i: Iface, p: Published, answers: seq<Record>, seen: set<RecordKey>)
    returns (answers': seq<Record>, seen': set<RecordKey>)
    requires WellFormed(p) && seen == KeysOf(answers) && DistinctKeys(answers)
    ensures seen' == KeysOf(answers') && DistinctKeys(answers') && answers <= answers'
    ensures KeysOf(answers') == KeysOf(answers) + KeysOf(Own(p, q, i))
    ensures forall r :: r in answers' ==> r in answers || OwnRecord(r, p, i)
  {
    var published := Answer(p, q.name, q.qtype);
    var own := OwnAnswers(published, p, i);
    assert forall r :: r in own ==> OwnRecord(r, p, i) by { OwnIsExact(p, q, i); }
    PushNewKeeps(answers, {}, own);
    answers', seen' := PushAll(answers, seen, {}, own);
  }

  /** What the cache can relay for one question. */
  method AddRelayed(cache: RecordCache, q: Question, i: Iface, now: Time, answers: seq<Record>, seen: set<RecordKey>)
    returns (answers': seq<Record>, seen': set<RecordKey>)
    requires cache.Valid() && seen == KeysOf(answers) && DistinctKeys(answers)
    ensures seen' == KeysOf(answers') && DistinctKeys(answers') && answers <= answers'
    ensures KeysOf(answers') == KeysOf(answers) + OtherView(cache.byKey, q.name, q.qtype, i.ifindex, now).Keys
    ensures forall r :: r in answers' ==> r in answers || Relayable(r, cache.byKey, i.ifindex, now)
  {
    var cached := cache.LookupFromOtherIfaces(q.name, q.qtype, i.ifindex, now);
    OtherViewIsRelayable(cache.byKey, q.name, q.qtype, i.ifindex, now, cached);
    PushNewKeeps(answers, {}, cached);
    answers', seen' := PushAll(answers, seen, {}, cached);
  }

  /** One question: published records first, then what the cache can relay. */
  method AnswerQuestion(cache: RecordCache, q: Question, i: Iface, p: Published, fromCache: bool, now: Time,
                        answers: seq<Record>, seen: set<RecordKey>)
    returns (answers': seq<Record>, seen': set<RecordKey>)
    requires cache.Valid() && WellFormed(p) && seen == KeysOf(answers) && DistinctKeys(answers)
    ensures seen' == KeysOf(answers') && DistinctKeys(answers')
    ensures KeysOf(answers') == KeysOf(answers) + KeysOf(Own(p, q, i))
              + (if fromCache then OtherView(cache.byKey, q.name, q.qtype, i.ifindex, now).Keys else {})
    ensures answers <= answers'
    ensures forall r :: r in answers' ==>
                          r in answers || OwnRecord(r, p, i) || Relayable(r, cache.byKey, i.ifindex, now)
  {
    answers', seen' := AddOwn(q, i, p, answers, seen);
    if fromCache {
      answers', seen' := AddRelayed(cache, q, i, now, answers', seen');
    }
  }

  /** Every record of the list is the interface's own or may be relayed to it. */
  ghost predicate AllSourced(rs: seq<Record>, p: Published, i: Iface, m: Table, clock: seq<Time>) {
    forall r :: r in rs ==> Sourced(r, p, i, m, clock)
  }

  lemma AllSourcedNext(rs: seq<Record>, rs': seq<Record>, p: Published, i: Iface, m: Table, clock: seq<Time>, n: nat)
    requires n < |clock| && AllSourced(rs, p, i, m, clock)
    requires forall r :: r in rs' ==> r in rs || OwnRecord(r, p, i) || Relayable(r, m, i.ifindex, clock[n])
    ensures AllSourced(rs', p, i, m, clock)
  {
    forall r | r in rs' ensures Sourced(r, p, i, m, clock) { }
  }

  lemma CandidateKeysNext(p: Published, i: Iface, m: Table, fromCache: bool, qs: seq<Question>, clock: seq<Time>, n: nat)
    requires |clock| == |qs| && n < |qs|
    ensures CandidateKeys(p, i, m, fromCache, qs[..n + 1], clock[..n + 1])
         == CandidateKeys(p, i, m, fromCache, qs[..n], clock[..n])
            + KeysOf(Own(p, qs[n], i))
            + (if fromCache then OtherView(m, qs[n].name, qs[n].qtype, i.ifindex, clock[n]).Keys else {})
  {
    assert qs[..n + 1][..n] == qs[..n] && clock[..n + 1][..n] == clock[..n];
  }

  /** Each key called for is answered once, by a record the interface owns or may
      have relayed to it. */
  method CandidateAnswers(cache: RecordCache, qs: seq<Question>, i: Iface, p: Published, fromCache: bool,
                          clock: seq<Time>)
    returns (answers: seq<Record>)
    requires cache.Valid() && WellFormed(p) && |clock| == |qs|
    ensures DistinctKeys(answers)
    ensures KeysOf(answers) == CandidateKeys(p, i, cache.byKey, fromCache, qs, clock)
    ensures AllSourced(answers, p, i, cache.byKey, clock)
  {
    answers := [];
    var seen: set<RecordKey> := {};
    for n := 0 to |qs|
      invariant seen == KeysOf(answers) && DistinctKeys(answers)
      invariant seen == CandidateKeys(p, i, cache.byKey, fromCache, qs[..n], clock[..n])
      invariant AllSourced(answers, p, i, cache.byKey, clock)
    {
      ghost var before := answers;
      CandidateKeysNext(p, i, cache.byKey, fromCache, qs, clock, n);
      answers, seen := AnswerQuestion(cache, qs[n], i, p, fromCache, clock[n], answers, seen);
      AllSourcedNext(before, answers, p, i, cache.byKey, clock, n);
    }
    assert qs[..|qs|] == qs && clock[..|qs|] == clock;
  }

  // ---- known-answer suppression ----

  /** Section 7.1 of RFC 6762 in exact arithmetic: the querier knows the record
      with at least half of our TTL left. */
  ghost predicate Known(r: Record, known: seq<Record>) {
    exists k :: k in known && k.name == r.name && k.data == r.data && 2 * k.ttl >= r.ttl
  }

  /** The order-preserving part of `answers` that is not known. */
  ghost function Unknown(answers: seq<Record>, known: seq<Record>): seq<Record> {
    if answers == [] then []
    else
      Unknown(answers[..|answers| - 1], known)
      + (if Known(answers[|answers| - 1], known) then [] else [answers[|answers| - 1]])
  }

  /** `u32::saturating_mul(2)`. */
  function SaturatingDouble(ttl: u32): u32 {
    if 2 * ttl <= U32_MAX then 2 * ttl else U32_MAX
  }

  method ApplyKnownAnswers(answers: seq<Record>, known: seq<Record>) returns (kept: seq<Record>)
    ensures kept == Unknown(answers, known)
  {
    kept := [];
    for i := 0 to |answers|
      invariant kept == Unknown(answers[..i], known)
    {
      assert answers[..i + 1][..i] == answers[..i];
      var r := answers[i];
      var hit := false;
      for j := 0 to |known|
        invariant hit <==> Known(r, known[..j])
      {
        var k := known[j];
        assert known[..j + 1] == known[..j] + [k];
        if k.name == r.name && TypeOf(k.data) == TypeOf(r.data) && k.data == r.data
           && SaturatingDouble(k.ttl) >= r.ttl {
          hit := true;
        }
      }
      assert known[..|known|] == known;
      if !hit { kept := kept + [r]; }
    }
    assert answers[..|answers|] == answers;
  }

  /** Suppression only drops: membership, order and distinctness carry over. */
  lemma {:induction false} UnknownMember(answers: seq<Record>, known: seq<Record>)
    ensures forall r :: r in Unknown(answers, known) <==> r in answers && !Known(r, known)
    ensures DistinctKeys(answers) ==> DistinctKeys(Unknown(answers, known))
  {
    if answers != [] {
      var init, r := answers[..|answers| - 1], answers[|answers| - 1];
      assert answers == init + [r];
      UnknownMember(init, known);
      if DistinctKeys(answers) && !Known(r, known) {
        forall x | x in init ensures KeyOf(x) != KeyOf(r) {}
        DistinctSnoc(Unknown(init, known), r);
      }
    }
  }

  // ---- additionals ----

  /** `k` calls for the additional `a` (section 12 of RFC 6763): a PTR for the SRV
      and TXT at its target, an SRV for the addresses of its target. */
  predicate CallsFor(k: RecordKey, a: RecordKey) {
    || (k.rdata.PtrData? && a.name == k.rdata.ptr && (a.rtype == SRV || a.rtype == TXT))
    || (k.rdata.SrvData? && a.name == k.rdata.target && (a.rtype == A || a.rtype == AAAA))
  }

  /** The keys the cache can relay to `arrival`. */
  ghost function Available(m: Table, arrival: u32, now: Time): set<RecordKey> {
    set k | k in m && FromElsewhere(m[k], arrival) && now < m[k].deadline
  }

  ghost predicate Closed(x: set<RecordKey>, available: set<RecordKey>) {
    forall k, a :: k in x && a in available && CallsFor(k, a) ==> a in x
  }

  /** `adds` completes `answers`: it is closed under what was `always` available, and
      within the least set closed under what was `ever` available. */
  ghost predicate CompletesBetween(answers: set<RecordKey>, adds: set<RecordKey>, always: set<RecordKey>, ever: set<RecordKey>) {
    && adds <= ever && adds !! answers
    && Closed(answers + adds, always)
    && forall x :: answers <= x && Closed(x, ever) ==> adds <= x
  }

  /** The least closed set itself, and nothing repeated. */
  ghost predicate Completes(answers: set<RecordKey>, adds: set<RecordKey>, available: set<RecordKey>) {
    CompletesBetween(answers, adds, available, available)
  }

  lemma AvailableShrinks(m: Table, arrival: u32, earlier: Time, later: Time)
    requires earlier <= later
    ensures Available(m, arrival, later) <= Available(m, arrival, earlier)
  {
  }

  lemma OtherViewKeys(m: Table, name: Name, rtype: RecordType, arrival: u32, now: Time)
    requires WellKeyed(m)
    ensures forall k :: k in OtherView(m, name, rtype, arrival, now) <==>
                        k in Available(m, arrival, now) && k.name == name && Selects(rtype, k.rtype)
  {
    forall k | k in m
      ensures k in OtherView(m, name, rtype, arrival, now) <==>
              k in Available(m, arrival, now) && k.name == name && Selects(rtype, k.rtype)
    {
      RemainingTtlIsCeiling(m[k], now);
    }
  }

  method AddCachedRecords(cache: RecordCache, name: Name, rtype: RecordType, arrival: u32, now: Time,
                          out: seq<Record>, seen: set<RecordKey>, ghost blocked: set<RecordKey>)
    returns (out': seq<Record>, seen': set<RecordKey>)
    requires cache.Valid() && seen == blocked + KeysOf(out) && DistinctKeys(out) && KeysOf(out) !! blocked
    ensures seen' == blocked + KeysOf(out') && DistinctKeys(out') && KeysOf(out') !! blocked && out <= out'
    ensures forall k :: k in KeysOf(out') <==>
                        k in KeysOf(out) || (k in Available(cache.byKey, arrival, now) && k !in blocked
                                             && k.name == name && Selects(rtype, k.rtype))
    ensures forall r :: r in out' ==> r in out || Relayable(r, cache.byKey, arrival, now)
  {
    var found := cache.LookupFromOtherIfaces(name, rtype, arrival, now);
    OtherViewIsRelayable(cache.byKey, name, rtype, arrival, now, found);
    OtherViewKeys(cache.byKey, name, rtype, arrival, now);
    PushNewKeeps(out, blocked, found);
    out', seen' := PushAll(out, seen, blocked, found);
  }

  /** What the first `n` records contribute in a pass that looks only at PTRs, or
      only at SRVs. */
  ghost predicate CalledBy(rs: seq<Record>, n: nat, ptr: bool, a: RecordKey)
    requires n <= |rs|
  {
    exists j :: 0 <= j < n && (if ptr then rs[j].data.PtrData? else rs[j].data.SrvData?) && CallsFor(KeyOf(rs[j]), a)
  }

  /** `out` holds `start` and what the first `n` records call for: all that was
      available throughout the readings, and only what was available at some. */
  ghost predicate Gathered(out: seq<Record>, start: seq<Record>, rs: seq<Record>, n: nat, ptr: bool,
                           blocked: set<RecordKey>, always: set<RecordKey>, ever: set<RecordKey>)
    requires n <= |rs|
  {
    && DistinctKeys(out) && KeysOf(out) !! blocked && start <= out
    && (forall k :: k in KeysOf(out) ==> k in KeysOf(start) || (k in ever && CalledBy(rs, n, ptr, k)))
    && (forall k :: k in always && k !in blocked && CalledBy(rs, n, ptr, k) ==> k in KeysOf(out))
  }

  /** The two lookups for one record of a pass. */
  method AddCalledFor(cache: RecordCache, name: Name, first: RecordType, second: RecordType, arrival: u32,
                      now: Time, now': Time, out: seq<Record>, seen: set<RecordKey>, ghost blocked: set<RecordKey>,
                      ghost lo: Time, ghost hi: Time)
    returns (out': seq<Record>, seen': set<RecordKey>)
    requires cache.Valid() && seen == blocked + KeysOf(out) && DistinctKeys(out) && KeysOf(out) !! blocked
    requires first != ANY && second != ANY && lo <= now <= hi && lo <= now' <= hi
    ensures seen' == blocked + KeysOf(out') && DistinctKeys(out') && KeysOf(out') !! blocked && out <= out'
    ensures forall k :: k in KeysOf(out') ==>
              || k in KeysOf(out)
              || (k in Available(cache.byKey, arrival, lo) && k.name == name && (k.rtype == first || k.rtype == second))
    ensures forall k :: k in Available(cache.byKey, arrival, hi) && k !in blocked ==>
              k.name == name && (k.rtype == first || k.rtype == second) ==> k in KeysOf(out')
    ensures forall r :: r in out' ==>
              r in out || Relayable(r, cache.byKey, arrival, now) || Relayable(r, cache.byKey, arrival, now')
  {
    AvailableShrinks(cache.byKey, arrival, lo, now);
    AvailableShrinks(cache.byKey, arrival, lo, now');
    AvailableShrinks(cache.byKey, arrival, now, hi);
    AvailableShrinks(cache.byKey, arrival, now', hi);
    out', seen' := AddCachedRecords(cache, name, first, arrival, now, out, seen, blocked);
    out', seen' := AddCachedRecords(cache, name, second, arrival, now', out', seen', blocked);
  }

  /** A record was relayable at one of the readings. */
  ghost predicate RelayedAt(r: Record, m: Table, arrival: u32, clock: nat -> Time) {
    exists n: nat :: Relayable(r, m, arrival, clock(n))
  }

  /** One of the two passes over `rs`; each lookup takes the next reading of the clock. */
  method Pass(cache: RecordCache, rs: seq<Record>, ptr: bool, arrival: u32, clock: nat -> Time, tick: nat,
              start: seq<Record>, seen: set<RecordKey>, ghost blocked: set<RecordKey>, ghost lo: Time, ghost hi: Time)
    returns (out: seq<Record>, seen': set<RecordKey>, tick': nat)
    requires cache.Valid() && seen == blocked + KeysOf(start) && DistinctKeys(start) && KeysOf(start) !! blocked
    requires forall n :: lo <= clock(n) <= hi
    ensures seen' == blocked + KeysOf(out)
    ensures Gathered(out, start, rs, |rs|, ptr, blocked, Available(cache.byKey, arrival, hi), Available(cache.byKey, arrival, lo))
    ensures forall r :: r in out ==> r in start || RelayedAt(r, cache.byKey, arrival, clock)
  {
    out, seen', tick' := start, seen, tick;
    ghost var always, ever := Available(cache.byKey, arrival, hi), Available(cache.byKey, arrival, lo);
    for i := 0 to |rs|
      invariant seen' == blocked + KeysOf(out)
      invariant Gathered(out, start, rs, i, ptr, blocked, always, ever)
      invariant forall r :: r in out ==> r in start || RelayedAt(r, cache.byKey, arrival, clock)
    {
      ghost var before := out;
      CalledByNext(rs, i, ptr);
      if ptr && rs[i].data.PtrData? {
        out, seen' := AddCalledFor(cache, rs[i].data.ptr, SRV, TXT, arrival, clock(tick'), clock(tick' + 1), out, seen', blocked, lo, hi);
        tick' := tick' + 2;
      } else if !ptr && rs[i].data.SrvData? {
        out, seen' := AddCalledFor(cache, rs[i].data.target, A, AAAA, arrival, clock(tick'), clock(tick' + 1), out, seen', blocked, lo, hi);
        tick' := tick' + 2;
      }
      GatheredNext(before, out, start, rs, i, ptr, blocked, always, ever);
    }
  }

  lemma GatheredNext(before: seq<Record>, out: seq<Record>, start: seq<Record>, rs: seq<Record>, i: nat, ptr: bool,
                     blocked: set<RecordKey>, always: set<RecordKey>, ever: set<RecordKey>)
    requires i < |rs| && Gathered(before, start, rs, i, ptr, blocked, always, ever)
    requires DistinctKeys(out) && KeysOf(out) !! blocked && before <= out
    requires var called := k => (if ptr then rs[i].data.PtrData? else rs[i].data.SrvData?) && CallsFor(KeyOf(rs[i]), k);
             && (forall k :: k in KeysOf(out) ==> k in KeysOf(before) || (k in ever && called(k)))
             && (forall k :: k in always && k !in blocked && called(k) ==> k in KeysOf(out))
    ensures Gathered(out, start, rs, i + 1, ptr, blocked, always, ever)
  {
    CalledByNext(rs, i, ptr);
    forall k | k in KeysOf(before) ensures k in KeysOf(out) {
      var r :| r in before && KeyOf(r) == k;
      assert r in out;
    }
  }

  lemma CalledByNext(rs: seq<Record>, i: nat, ptr: bool)
    requires i < |rs|
    ensures forall a :: CalledBy(rs, i + 1, ptr, a) <==>
                        CalledBy(rs, i, ptr, a)
                        || ((if ptr then rs[i].data.PtrData? else rs[i].data.SrvData?) && CallsFor(KeyOf(rs[i]), a))
  {
    forall a
      ensures CalledBy(rs, i + 1, ptr, a) <==>
              CalledBy(rs, i, ptr, a)
              || ((if ptr then rs[i].data.PtrData? else rs[i].data.SrvData?) && CallsFor(KeyOf(rs[i]), a))
    {
      if CalledBy(rs, i, ptr, a) {
        var j :| 0 <= j < i && (if ptr then rs[j].data.PtrData? else rs[j].data.SrvData?) && CallsFor(KeyOf(rs[j]), a);
        assert 0 <= j < i + 1;
      }
    }
  }

  /** The two passes complete the answers: no third pass could add anything. The cache
      may age between the lookups, from `lo` to `hi`; at one reading the result is the
      least closed set exactly. */
  method CachedAdditionals(cache: RecordCache, answers: seq<Record>, i: Iface, fromCache: bool, clock: nat -> Time,
                           ghost lo: Time, ghost hi: Time)
    returns (adds: seq<Record>)
    requires cache.Valid() && forall n :: lo <= clock(n) <= hi
    ensures !fromCache ==> adds == []
    ensures DistinctKeys(adds) && KeysOf(adds) !! KeysOf(answers)
    ensures fromCache ==> CompletesBetween(KeysOf(answers), KeysOf(adds), Available(cache.byKey, i.ifindex, hi),
                                           Available(cache.byKey, i.ifindex, lo))
    ensures fromCache && lo == hi ==> Completes(KeysOf(answers), KeysOf(adds), Available(cache.byKey, i.ifindex, lo))
    ensures forall r :: r in adds ==> RelayedAt(r, cache.byKey, i.ifindex, clock)
  {
    adds := [];
    if !fromCache { return; }
    ghost var blocked := KeysOf(answers);
    var seen, tick := KeysOf(answers), 0;
    adds, seen, tick := Pass(cache, answers, true, i.ifindex, clock, tick, adds, seen, blocked, lo, hi);
    ghost var first := adds;
    var both := answers + adds;
    adds, seen, tick := Pass(cache, both, false, i.ifindex, clock, tick, adds, seen, blocked, lo, hi);
    TwoPassesComplete(answers, first, adds, Available(cache.byKey, i.ifindex, hi), Available(cache.byKey, i.ifindex, lo));
  }

  lemma TwoPassesComplete(answers: seq<Record>, first: seq<Record>, adds: seq<Record>, always: set<RecordKey>,
                          ever: set<RecordKey>)
    requires Gathered(first, [], answers, |answers|, true, KeysOf(answers), always, ever)
    requires Gathered(adds, first, answers + first, |answers + first|, false, KeysOf(answers), always, ever)
    ensures CompletesBetween(KeysOf(answers), KeysOf(adds), always, ever)
  {
    var all := KeysOf(answers) + KeysOf(adds);
    KeysOfConcat(answers, first);
    assert KeysOf(first) <= KeysOf(adds) by { KeysOfPrefix(first, adds); }
    assert KeysOf(adds) <= ever;
    forall k, a | k in all && a in always && CallsFor(k, a) ensures a in all {
      CallerIsSeen(answers, first, adds, always, ever, k, a);
    }
    forall x | KeysOf(answers) <= x && Closed(x, ever) ensures KeysOf(adds) <= x {
      forall k | k in KeysOf(first) ensures k in x {
        var j :| 0 <= j < |answers| && answers[j].data.PtrData? && CallsFor(KeyOf(answers[j]), k);
        assert answers[j] in answers && KeyOf(answers[j]) in KeysOf(answers);
      }
      forall k | k in KeysOf(adds) && k !in KeysOf(first) ensures k in x {
        var rs := answers + first;
        var j :| 0 <= j < |rs| && rs[j].data.SrvData? && CallsFor(KeyOf(rs[j]), k);
        assert rs[j] in rs && KeyOf(rs[j]) in KeysOf(rs);
      }
    }
  }

  lemma KeysOfPrefix(a: seq<Record>, b: seq<Record>)
    requires a <= b
    ensures KeysOf(a) <= KeysOf(b)
  {
    forall r | r in a ensures r in b {}
  }

  /** A PTR can only be an answer, and an SRV only an answer or a first-pass
      additional, so each is looked at by the pass that needs it. */
  lemma CallerIsSeen(answers: seq<Record>, first: seq<Record>, adds: seq<Record>, always: set<RecordKey>,
                     ever: set<RecordKey>, k: RecordKey, a: RecordKey)
    requires KeysOf(answers + first) == KeysOf(answers) + KeysOf(first) && KeysOf(first) <= KeysOf(adds)
    requires Gathered(first, [], answers, |answers|, true, KeysOf(answers), always, ever)
    requires Gathered(adds, first, answers + first, |answers + first|, false, KeysOf(answers), always, ever)
    requires k in KeysOf(answers) + KeysOf(adds) && a in always && CallsFor(k, a)
    ensures a in KeysOf(answers) + KeysOf(adds)
  {
    assert k.rtype == TypeOf(k.rdata);
    if k.rdata.PtrData? {
      assert k in KeysOf(answers);
      var r :| r in answers && KeyOf(r) == k;
      var j :| 0 <= j < |answers| && answers[j] == r;
      assert CalledBy(answers, |answers|, true, a);
    } else {
      assert k in KeysOf(answers + first);
      var r :| r in answers + first && KeyOf(r) == k;
      var j :| 0 <= j < |answers + first| && (answers + first)[j] == r;
      assert CalledBy(answers + first, |answers + first|, false, a);
    }
  }

  // ---- delay ----

  datatype DelayClass = ProbeDefense | UniqueAnswer | Shared | Truncated

  /** Section 8.2 of RFC 6762: the proposed records sit in the authority section;
      only name and type decide. */
  predicate IsProbeForUs(authorities: seq<Record>, unique: seq<Record>) {
    exists a, u :: a in authorities && u in unique && u.name == a.name && TypeOf(u.data) == TypeOf(a.data)
  }

  function ClassifyDelay(msg: Message, answers: seq<Record>, probeDefense: bool): DelayClass {
    if probeDefense then ProbeDefense
    else if msg.truncated then Truncated
    else if |msg.queries| == 1 && (forall r :: r in answers ==> r.flush) && (exists r :: r in answers && r.flush)
    then UniqueAnswer
    else Shared
  }

  /** The range the random delay is drawn from. */
  predicate DelayAllowed(kind: DelayClass, delay: nat) {
    match kind
    case ProbeDefense => delay == 0
    case UniqueAnswer => delay == 0
    case Shared => 20 * MILLISECOND <= delay <= 120 * MILLISECOND
    case Truncated => 400 * MILLISECOND <= delay <= 500 * MILLISECOND
  }
}
