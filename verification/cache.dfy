/** The record cache (src/cache.rs): a bounded table with deadlines. The
    functions give one call as a function of the table; the class is the object
    itself, each method proved against them. */
module Cache {
  import opened Records

  datatype Entry = Entry(record: Record, deadline: Time, source: Option<u32>)
  type Table = map<RecordKey, Entry>

  datatype Limits = Limits(maxEntries: nat, maxTtl: Option<nat>)

  datatype InsertOutcome = Inserted | Refreshed | GoodbyeRemoved | GoodbyeNoOp | Rejected

  // ---- one insertion ----

  /** The TTL cap. A configured cap is narrowed to 32 bits before the minimum. */
  function CappedTtl(ttl: u32, cap: Option<nat>): u32 {
    if ttl > 0 && cap.Some? then
      var narrowed := cap.value % 0x1_0000_0000;
      if ttl <= narrowed then ttl else narrowed
    else ttl
  }

  function Capped(limits: Limits, r: Record): Record {
    r.(ttl := CappedTtl(r.ttl, limits.maxTtl))
  }

  /** A different record of the same name, type and class as `r`. */
  predicate Sibling(k: RecordKey, r: Record) {
    k.name == r.name && k.rtype == TypeOf(r.data) && k.dnsClass == r.dnsClass && k.rdata != r.data
  }

  function Flushed(m: Table, r: Record): Table {
    if r.flush then map k | k in m && !Sibling(k, r) :: m[k] else m
  }

  ghost predicate SoonestToExpire(m: Table, k: RecordKey) {
    k in m && forall other :: other in m ==> m[k].deadline <= m[other].deadline
  }

  /** A capacity eviction happens exactly when a live record is new and the
      table is still full after the flush. */
  predicate NeedsRoom(limits: Limits, m: Table, r: Record) {
    && Capped(limits, r).ttl > 0
    && KeyOf(r) !in Flushed(m, r)
    && |Flushed(m, r)| >= limits.maxEntries
  }

  /** Any entry of least deadline may be the victim: hash-table order breaks ties. */
  ghost predicate LegalVictim(limits: Limits, m: Table, r: Record, victim: Option<RecordKey>) {
    && (victim.Some? <==> NeedsRoom(limits, m, r))
    && (victim.Some? ==> SoonestToExpire(Flushed(m, r), victim.value))
  }

  function Deadline(limits: Limits, r: Record, now: Time): Time {
    now + Capped(limits, r).ttl * SECOND
  }

  function WithoutVictim(m: Table, victim: Option<RecordKey>): Table {
    if victim.Some? then m - {victim.value} else m
  }

  function AfterInsert(limits: Limits, m: Table, r: Record, source: Option<u32>, now: Time,
                       victim: Option<RecordKey>): Table
  {
    var key := KeyOf(r);
    var capped := Capped(limits, r);
    var deadline := Deadline(limits, r, now);
    if capped.ttl == 0 then m - {key}
    else
      var kept := Flushed(m, r);
      if key in kept then kept[key := Entry(capped, deadline, source.Or(kept[key].source))]
      else WithoutVictim(kept, victim)[key := Entry(capped, deadline, source)]
  }

  function OutcomeOf(limits: Limits, m: Table, r: Record): InsertOutcome {
    if Capped(limits, r).ttl == 0 then
      if KeyOf(r) in m then GoodbyeRemoved else GoodbyeNoOp
    else if KeyOf(r) in m then Refreshed else Inserted
  }

  // ---- sweeping and looking up ----

  function Swept(m: Table, now: Time): Table {
    map k | k in m && m[k].deadline > now :: m[k]
  }

  /** The record with its remaining TTL, in whole seconds rounded up; `None` once
      nothing remains. */
  function WithRemainingTtl(e: Entry, now: Time): Option<Record> {
    if e.deadline < now then None
    else
      var remaining := e.deadline - now;
      var ttl := remaining / SECOND + (if remaining % SECOND > 0 then 1 else 0);
      if ttl == 0 then None
      else Some(e.record.(ttl := if ttl <= U32_MAX then ttl else U32_MAX))
  }

  predicate Matches(r: Record, name: Name, rtype: RecordType) {
    r.name == name && Selects(rtype, TypeOf(r.data))
  }

  /** What `lookup` can see. */
  function View(m: Table, name: Name, rtype: RecordType, now: Time): map<RecordKey, Record> {
    map k | k in m && Matches(m[k].record, name, rtype) && WithRemainingTtl(m[k], now).Some?
      :: WithRemainingTtl(m[k], now).value
  }

  predicate FromElsewhere(e: Entry, arrival: u32) {
    e.source.Some? && e.source.value != arrival
  }

  /** What `lookup_from_other_ifaces` can see: cache-flush is cleared. */
  function OtherView(m: Table, name: Name, rtype: RecordType, arrival: u32, now: Time)
    : map<RecordKey, Record>
  {
    map k | k in View(m, name, rtype, now) && FromElsewhere(m[k], arrival)
      :: View(m, name, rtype, now)[k].(flush := false)
  }

  /** Every entry sits under its own record's key and was live when stored. */
  ghost predicate WellKeyed(m: Table) {
    forall k :: k in m ==> KeyOf(m[k].record) == k && m[k].record.ttl > 0
  }

  ghost predicate Bounded(limits: Limits, m: Table) {
    1 <= limits.maxEntries && |m| <= limits.maxEntries
  }

  // ---- the object ----

  class RecordCache {
    const limits: Limits
    var byKey: Table

    ghost predicate Valid()
      reads this
    {
      WellKeyed(byKey) && Bounded(limits, byKey)
    }

    constructor (maxEntries: nat, maxTtl: Option<nat>)
      ensures Valid() && byKey == map[]
      ensures limits == Limits(if maxEntries >= 1 then maxEntries else 1, maxTtl)
    {
      limits := Limits(if maxEntries >= 1 then maxEntries else 1, maxTtl);
      byKey := map[];
    }

    /** The scan for the soonest-to-expire entry. */
    method Victim(m: Table) returns (victim: RecordKey)
      requires m != map[]
      ensures SoonestToExpire(m, victim)
    {
      var rest := m.Keys;
      victim :| victim in rest;
      rest := rest - {victim};
      while rest != {}
        invariant rest <= m.Keys && victim in m
        invariant forall k :: k in m && k !in rest ==> m[victim].deadline <= m[k].deadline
        decreases |rest|
      {
        var k :| k in rest;
        if m[k].deadline < m[victim].deadline { victim := k; }
        rest := rest - {k};
      }
    }

    method InsertFrom(record: Record, source: Option<u32>, now: Time)
      returns (outcome: InsertOutcome, ghost victim: Option<RecordKey>)
      requires Valid()
      modifies this`byKey
      ensures Valid()
      ensures LegalVictim(limits, old(byKey), record, victim)
      ensures byKey == AfterInsert(limits, old(byKey), record, source, now, victim)
      ensures outcome == OutcomeOf(limits, old(byKey), record)
    {
      ghost var before := byKey;
      var key := KeyOf(record);
      var capped := Capped(limits, record);
      victim := None;
      if capped.ttl == 0 {
        outcome := if key in byKey then GoodbyeRemoved else GoodbyeNoOp;
        byKey := byKey - {key};
      } else {
        byKey := Flushed(byKey, record);
        var deadline := now + capped.ttl * SECOND;
        if key in byKey {
          byKey := byKey[key := Entry(capped, deadline, source.Or(byKey[key].source))];
          outcome := Refreshed;
        } else {
          if |byKey| >= limits.maxEntries {
            var found := Victim(byKey);
            victim := Some(found);
            byKey := byKey - {found};
          }
          byKey := byKey[key := Entry(capped, deadline, source)];
          outcome := Inserted;
        }
      }
      InsertKeepsKeys(limits, before, record, source, now, victim);
      InsertKeepsBound(limits, before, record, source, now, victim);
    }

    method EvictExpired(now: Time) returns (evicted: nat)
      requires Valid()
      modifies this`byKey
      ensures Valid()
      ensures byKey == Swept(old(byKey), now)
      ensures evicted == |old(byKey)| - |byKey|
    {
      var before := |byKey|;
      SweptIsSmaller(byKey, now);
      byKey := map k | k in byKey && byKey[k].deadline > now :: byKey[k];
      evicted := before - |byKey|;
    }

    /** Lists a view in whatever order the keys come. */
    method Enumerate(view: map<RecordKey, Record>) returns (rs: seq<Record>)
      requires forall k :: k in view ==> KeyOf(view[k]) == k
      ensures Lists(rs, view)
    {
      rs := [];
      var rest := view.Keys;
      while rest != {}
        invariant rest <= view.Keys
        invariant DistinctKeys(rs)
        invariant forall r :: r in rs ==> KeyOf(r) in view && view[KeyOf(r)] == r && KeyOf(r) !in rest
        invariant forall k :: k in view && k !in rest ==> view[k] in rs
        decreases |rest|
      {
        var k :| k in rest;
        rs := rs + [view[k]];
        rest := rest - {k};
      }
    }

    method Lookup(name: Name, rtype: RecordType, now: Time) returns (rs: seq<Record>)
      requires Valid()
      ensures Lists(rs, View(byKey, name, rtype, now))
    {
      rs := Enumerate(View(byKey, name, rtype, now));
    }

    method LookupFromOtherIfaces(name: Name, rtype: RecordType, arrival: u32, now: Time)
      returns (rs: seq<Record>)
      requires Valid()
      ensures Lists(rs, OtherView(byKey, name, rtype, arrival, now))
    {
      rs := Enumerate(OtherView(byKey, name, rtype, arrival, now));
    }
  }

  // ---- one call: what it keeps, what it loses ----

  lemma SubmapIsSmaller(small: Table, big: Table)
    requires small.Keys <= big.Keys
    ensures |small| <= |big|
    ensures |small| == |big| ==> small.Keys == big.Keys
  {
    var gone := big.Keys - small.Keys;
    assert big.Keys == small.Keys + gone;
    if |small| == |big| { assert gone == {}; }
  }

  lemma SweptIsSmaller(m: Table, now: Time)
    ensures |Swept(m, now)| <= |m|
  {
    SubmapIsSmaller(Swept(m, now), m);
  }

  lemma FlushedIsSmaller(m: Table, r: Record)
    ensures |Flushed(m, r)| <= |m|
    ensures |Flushed(m, r)| == |m| ==> Flushed(m, r) == m
  {
    SubmapIsSmaller(Flushed(m, r), m);
  }

  lemma InsertKeepsKeys(limits: Limits, m: Table, r: Record, source: Option<u32>, now: Time,
                        victim: Option<RecordKey>)
    requires WellKeyed(m)
    ensures WellKeyed(AfterInsert(limits, m, r, source, now, victim))
  {
  }

  /** Whichever legal victim is taken, an insertion keeps the table within
      max(1, max_entries). */
  lemma InsertKeepsBound(limits: Limits, m: Table, r: Record, source: Option<u32>, now: Time,
                         victim: Option<RecordKey>)
    requires Bounded(limits, m) && LegalVictim(limits, m, r, victim)
    ensures Bounded(limits, AfterInsert(limits, m, r, source, now, victim))
  {
    var key := KeyOf(r);
    var kept := Flushed(m, r);
    var after := AfterInsert(limits, m, r, source, now, victim);
    FlushedIsSmaller(m, r);
    if Capped(limits, r).ttl == 0 {
      SubmapIsSmaller(after, m);
    } else if key in kept {
      assert after.Keys == kept.Keys;
    } else {
      var room := WithoutVictim(kept, victim);
      assert victim.Some? ==> kept.Keys == room.Keys + {victim.value};
      assert after.Keys == room.Keys + {key};
    }
  }
}
