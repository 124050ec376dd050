/** What one call on the cache promises, for every table it may be called on. */
module CacheCalls {
  import opened Records
  import opened Cache

  /** A live insertion: exactly the flushed siblings and the victim go, the rest
      is untouched, and the newcomer is visible at once with its capped TTL. The
      victim has the least deadline of the whole old table, and there is none
      when the key was present or a sibling was flushed. */
  lemma InsertLosesOnly(limits: Limits, m: Table, r: Record, source: Option<u32>, now: Time,
                        victim: Option<RecordKey>)
    requires Bounded(limits, m) && LegalVictim(limits, m, r, victim) && Capped(limits, r).ttl > 0
    ensures var after := AfterInsert(limits, m, r, source, now, victim);
            && (forall k :: k in m && k != KeyOf(r) ==>
                              (k !in after <==> (r.flush && Sibling(k, r)) || victim == Some(k)))
            && (forall k :: k in after && k != KeyOf(r) ==> k in m && after[k] == m[k])
            && KeyOf(r) in after
            && WithRemainingTtl(after[KeyOf(r)], now) == Some(Capped(limits, r))
    ensures victim.Some? ==> SoonestToExpire(m, victim.value)
    ensures KeyOf(r) in m || (exists k :: k in m && r.flush && Sibling(k, r)) ==> victim.None?
  {
    FlushedIsSmaller(m, r);
  }

  /** The same in plain fields. Whatever differs from `r` in name, type or class
      outlives a live insertion of it, save for the victim; with cache-flush, other
      data of the same name, type and class goes. There is a victim exactly when a new
      key meets a full table that holds nothing to flush. */
  lemma FlushIsOfOneGroup(limits: Limits, m: Table, r: Record, source: Option<u32>, now: Time, victim: Option<RecordKey>)
    requires Bounded(limits, m) && LegalVictim(limits, m, r, victim) && Capped(limits, r).ttl > 0
    ensures var after := AfterInsert(limits, m, r, source, now, victim);
            forall k :: k in m && victim != Some(k) ==>
              && (k.name != r.name || k.rtype != TypeOf(r.data) || k.dnsClass != r.dnsClass ==>
                    k in after && after[k] == m[k])
              && (k.name == r.name && k.rtype == TypeOf(r.data) && k.dnsClass == r.dnsClass && k.rdata != r.data ==>
                    (k in after <==> !r.flush) && (k in after ==> after[k] == m[k]))
    ensures victim.Some? <==>
              && |m| == limits.maxEntries && KeyOf(r) !in m
              && !(r.flush && exists k :: k in m && k.name == r.name && k.rtype == TypeOf(r.data)
                                          && k.dnsClass == r.dnsClass && k.rdata != r.data)
  {
    FlushedIsSmaller(m, r);
    if KeyOf(r) !in m && |m| == limits.maxEntries && victim.None? {
      assert Flushed(m, r) != m;
    }
  }

  // ---- lookups ----

  /** A lookup sees exactly the live records of the name, and of the type unless it
      asks for any; a relaying one those of them that were heard on a known, other
      interface, without their cache-flush. */
  lemma LookupIsExact(m: Table, name: Name, rtype: RecordType, arrival: u32, now: Time, k: RecordKey)
    requires WellKeyed(m)
    ensures k in View(m, name, rtype, now) <==>
              k in m && k.name == name && (rtype == ANY || k.rtype == rtype) && now < m[k].deadline
    ensures k in View(m, name, rtype, now) ==>
              var r := View(m, name, rtype, now)[k]; r == m[k].record.(ttl := r.ttl)
    ensures k in OtherView(m, name, rtype, arrival, now) <==>
              k in View(m, name, rtype, now) && exists s :: m[k].source == Some(s) && s != arrival
    ensures k in OtherView(m, name, rtype, arrival, now) ==>
              OtherView(m, name, rtype, arrival, now)[k] == View(m, name, rtype, now)[k].(flush := false)
  {
    if k in m { RemainingTtlIsCeiling(m[k], now); }
  }

  // ---- TTLs handed out ----

  /** Visible exactly before the deadline, with the remaining seconds rounded up
      exactly unless more than 2^32 - 1 of them remain. */
  lemma RemainingTtlIsCeiling(e: Entry, now: Time)
    ensures WithRemainingTtl(e, now).Some? <==> now < e.deadline
    ensures now < e.deadline ==>
              var r := WithRemainingTtl(e, now).value;
              && r == e.record.(ttl := r.ttl)
              && 1 <= r.ttl
              && (r.ttl - 1) * SECOND < e.deadline - now
              && (e.deadline - now <= r.ttl * SECOND || r.ttl == U32_MAX)
  {
  }

  /** A lookup hands out at most the stored TTL exactly when its clock reading is
      not earlier than the insertion's (or the stored TTL is already the
      largest). The reading is taken before the lock, so it can be earlier. */
  lemma TtlWithinStoredIff(e: Entry, stored: Time, now: Time)
    requires e.deadline == stored + e.record.ttl * SECOND && now < e.deadline
    ensures WithRemainingTtl(e, now).value.ttl <= e.record.ttl <==>
            stored <= now || e.record.ttl == U32_MAX
  {
    RemainingTtlIsCeiling(e, now);
  }

  /** When the reading is in order the 32-bit clamp never bites. */
  lemma TtlExactWhenInOrder(e: Entry, stored: Time, now: Time)
    requires e.deadline == stored + e.record.ttl * SECOND && stored <= now < e.deadline
    ensures var ttl := WithRemainingTtl(e, now).value.ttl;
            (ttl - 1) * SECOND < e.deadline - now <= ttl * SECOND
  {
    RemainingTtlIsCeiling(e, now);
  }

  lemma TtlNeverRises(e: Entry, earlier: Time, later: Time)
    requires earlier <= later < e.deadline
    ensures WithRemainingTtl(e, later).value.ttl <= WithRemainingTtl(e, earlier).value.ttl
  {
    RemainingTtlIsCeiling(e, earlier);
    RemainingTtlIsCeiling(e, later);
  }

  // ---- the configured TTL cap ----

  const MAX_CACHE_TTL_SECS: nat := U32_MAX

  datatype ConfigError = BadCacheMaxTtl(got: nat)

  /** Validation of `cache_max_ttl_secs`; zero means no cap. */
  function ValidateTtlCap(raw: Option<nat>): Result<Option<nat>, ConfigError> {
    match raw
    case None => Success(None)
    case Some(0) => Success(None)
    case Some(ttl) =>
      if ttl > MAX_CACHE_TTL_SECS then Failure(BadCacheMaxTtl(ttl)) else Success(Some(ttl))
  }

  /** A cap turns some live record into a goodbye exactly when it is a multiple
      of 2^32. */
  lemma CapMakesGoodbyeIff(cap: Option<nat>)
    ensures (exists ttl: u32 :: ttl > 0 && CappedTtl(ttl, cap) == 0) <==>
            cap.Some? && cap.value % 0x1_0000_0000 == 0
  {
    if cap.Some? && cap.value % 0x1_0000_0000 == 0 {
      var one: u32 := 1;
      assert CappedTtl(one, cap) == 0;
    }
  }

  /** Validation refuses exactly what 32 bits cannot hold; what it lets through acts as
      the plain minimum with the configured number, zero meaning none, and makes no live
      record a goodbye. */
  lemma ValidatedCapIsMinimum(raw: Option<nat>, ttl: u32)
    ensures ValidateTtlCap(raw).Failure? <==> raw.Some? && raw.value > 0xFFFF_FFFF
    ensures ValidateTtlCap(raw).Success? ==>
              var cap := ValidateTtlCap(raw).value;
              && CappedTtl(ttl, cap) == (if raw.Some? && 0 < raw.value < ttl then raw.value else ttl)
              && (CappedTtl(ttl, cap) == 0 <==> ttl == 0)
  {
  }
}
