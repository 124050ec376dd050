/** Whole runs of the cache, in lock order. A run is its log: the victim of each
    insertion is part of the log, so every resolution of a tie is some run. */
module CacheRuns {
  import opened Records
  import opened Cache
  import opened CacheCalls

  datatype Event =
    | Insert(record: Record, source: Option<u32>, now: Time, victim: Option<RecordKey>)
    | Tick(now: Time, swept: bool)   // a timer tick, and whether the sweep ran at it

  function Step(limits: Limits, m: Table, e: Event): Table {
    match e
    case Insert(r, source, now, victim) => AfterInsert(limits, m, r, source, now, victim)
    case Tick(now, swept) => if swept then Swept(m, now) else m
  }

  ghost predicate Legal(limits: Limits, m: Table, e: Event) {
    e.Insert? ==> LegalVictim(limits, m, e.record, e.victim)
  }

  function Run(limits: Limits, start: Table, log: seq<Event>): Table {
    if log == [] then start
    else Step(limits, Run(limits, start, log[..|log| - 1]), log[|log| - 1])
  }

  ghost predicate LegalRun(limits: Limits, start: Table, log: seq<Event>) {
    log != [] ==>
      && LegalRun(limits, start, log[..|log| - 1])
      && Legal(limits, Run(limits, start, log[..|log| - 1]), log[|log| - 1])
  }

  lemma {:induction false} LegalPrefix(limits: Limits, start: Table, log: seq<Event>, n: nat)
    requires LegalRun(limits, start, log) && n <= |log|
    ensures LegalRun(limits, start, log[..n])
  {
    if n == |log| {
      assert log[..n] == log;
    } else {
      LegalPrefix(limits, start, log[..|log| - 1], n);
      assert log[..|log| - 1][..n] == log[..n];
    }
  }

  /** In every reachable state the table is well keyed and within its bound. */
  lemma {:induction false} RunStaysBounded(limits: Limits, start: Table, log: seq<Event>)
    requires WellKeyed(start) && Bounded(limits, start) && LegalRun(limits, start, log)
    ensures WellKeyed(Run(limits, start, log)) && Bounded(limits, Run(limits, start, log))
  {
    if log != [] {
      var m := Run(limits, start, log[..|log| - 1]);
      RunStaysBounded(limits, start, log[..|log| - 1]);
      match log[|log| - 1]
      case Insert(r, source, now, victim) =>
        InsertKeepsKeys(limits, m, r, source, now, victim);
        InsertKeepsBound(limits, m, r, source, now, victim);
      case Tick(now, _) =>
        SweptIsSmaller(m, now);
    }
  }

  // ---- the table refines its log ----

  predicate Live(limits: Limits, e: Event) {
    e.Insert? && Capped(limits, e.record).ttl > 0
  }

  predicate Refreshes(limits: Limits, e: Event, k: RecordKey) {
    Live(limits, e) && KeyOf(e.record) == k
  }

  /** The events that decide the fate of `k`: insertions of `k`, live
      cache-flush insertions of a sibling, and its own capacity eviction. */
  predicate Touches(limits: Limits, e: Event, k: RecordKey) {
    && e.Insert?
    && (|| KeyOf(e.record) == k
        || (Live(limits, e) && e.record.flush && Sibling(k, e.record))
        || e.victim == Some(k))
  }

  ghost predicate LastTouch(limits: Limits, log: seq<Event>, k: RecordKey, i: int) {
    && 0 <= i < |log|
    && Touches(limits, log[i], k)
    && forall j :: i < j < |log| ==> !Touches(limits, log[j], k)
  }

  /** The log alone says that `k` is live at `now`. */
  ghost predicate LiveByLog(limits: Limits, log: seq<Event>, k: RecordKey, now: Time) {
    exists i :: LastTouch(limits, log, k, i)
                && Refreshes(limits, log[i], k) && now < Deadline(limits, log[i].record, log[i].now)
  }

  predicate Visible(m: Table, k: RecordKey, now: Time) {
    k in m && now < m[k].deadline
  }

  lemma StepFate(limits: Limits, m: Table, e: Event, k: RecordKey, now: Time)
    requires Legal(limits, m, e)
    requires e.Tick? ==> e.now <= now
    ensures !Touches(limits, e, k) ==>
              && (Visible(Step(limits, m, e), k, now) <==> Visible(m, k, now))
              && (Visible(m, k, now) ==> Step(limits, m, e)[k] == m[k])
    ensures Touches(limits, e, k) && !Refreshes(limits, e, k) ==> k !in Step(limits, m, e)
    ensures Refreshes(limits, e, k) ==>
              && k in Step(limits, m, e)
              && Step(limits, m, e)[k].record == Capped(limits, e.record)
              && Step(limits, m, e)[k].deadline == Deadline(limits, e.record, e.now)
  {
  }

  lemma LastTouchExtends(limits: Limits, log: seq<Event>, k: RecordKey)
    requires log != []
    ensures var n := |log| - 1;
            && (Touches(limits, log[n], k) ==> forall i :: LastTouch(limits, log, k, i) <==> i == n)
            && (!Touches(limits, log[n], k) ==>
                  forall i :: LastTouch(limits, log, k, i) <==> LastTouch(limits, log[..n], k, i))
  {
  }

  /** A key is visible exactly when the last event that touched it is a live
      insertion of it whose lifetime has not run out. Sweeps never matter, as
      long as none read a clock later than the observer's. */
  lemma {:induction false} VisibleIffLiveByLog(limits: Limits, log: seq<Event>, k: RecordKey, now: Time)
    requires LegalRun(limits, map[], log)
    requires forall i :: 0 <= i < |log| && log[i].Tick? ==> log[i].now <= now
    ensures Visible(Run(limits, map[], log), k, now) <==> LiveByLog(limits, log, k, now)
    ensures forall i :: LastTouch(limits, log, k, i) && Visible(Run(limits, map[], log), k, now) ==>
              && Run(limits, map[], log)[k].record == Capped(limits, log[i].record)
              && Run(limits, map[], log)[k].deadline == Deadline(limits, log[i].record, log[i].now)
  {
    if log != [] {
      var n := |log| - 1;
      VisibleIffLiveByLog(limits, log[..n], k, now);
      StepFate(limits, Run(limits, map[], log[..n]), log[n], k, now);
      LastTouchExtends(limits, log, k);
      if Touches(limits, log[n], k) {
        assert LastTouch(limits, log, k, n);
      } else if LiveByLog(limits, log[..n], k, now) {
        var i :| LastTouch(limits, log[..n], k, i) && Refreshes(limits, log[..n][i], k)
                 && now < Deadline(limits, log[..n][i].record, log[..n][i].now);
        assert LastTouch(limits, log, k, i) && log[i] == log[..n][i];
      }
    }
  }

  /** What a lookup hands out in any run: the last record inserted, with the exact
      number of seconds left of its capped lifetime, rounded up. It exceeds the
      capped TTL exactly when the lookup read its clock before the insertion did. */
  lemma HandedOutTtl(limits: Limits, log: seq<Event>, k: RecordKey, now: Time, i: int)
    requires LegalRun(limits, map[], log) && LastTouch(limits, log, k, i)
    requires forall j :: 0 <= j < |log| && log[j].Tick? ==> log[j].now <= now
    requires Visible(Run(limits, map[], log), k, now)
    ensures var stored := Capped(limits, log[i].record);
            var seen := View(Run(limits, map[], log), k.name, k.rtype, now);
            && k in seen
            && seen[k] == stored.(ttl := seen[k].ttl)
            && 1 <= seen[k].ttl
            && (seen[k].ttl <= stored.ttl <==> log[i].now <= now || stored.ttl == U32_MAX)
            && (log[i].now <= now ==>
                  (seen[k].ttl - 1) * SECOND < Deadline(limits, log[i].record, log[i].now) - now <= seen[k].ttl * SECOND)
  {
    var m := Run(limits, map[], log);
    VisibleIffLiveByLog(limits, log, k, now);
    WellKeyedRun(limits, log);
    RemainingTtlIsCeiling(m[k], now);
    TtlWithinStoredIff(m[k], log[i].now, now);
    if log[i].now <= now { TtlExactWhenInOrder(m[k], log[i].now, now); }
  }

  /** An entry that is there keeps its record and deadline back to any point since
      which nothing touched its key. */
  lemma {:induction false} UntouchedSince(limits: Limits, log: seq<Event>, p: nat, k: RecordKey)
    requires LegalRun(limits, map[], log) && p <= |log| && k in Run(limits, map[], log)
    requires forall j :: p <= j < |log| ==> !Touches(limits, log[j], k)
    ensures k in Run(limits, map[], log[..p]) && Run(limits, map[], log[..p])[k] == Run(limits, map[], log)[k]
  {
    if p == |log| {
      assert log[..p] == log;
    } else {
      var n := |log| - 1;
      assert !Touches(limits, log[n], k);
      UntouchedSince(limits, log[..n], p, k);
      assert log[..n][..p] == log[..p];
    }
  }

  /** Between two lookups, at any two points of a run with no event that touches the
      key between them, the TTL handed out never rises. */
  lemma TtlNeverRisesInRun(limits: Limits, log: seq<Event>, p: nat, q: nat, k: RecordKey, earlier: Time, later: Time)
    requires LegalRun(limits, map[], log) && p <= q <= |log| && earlier <= later
    requires forall j :: p <= j < q ==> !Touches(limits, log[j], k)
    requires Visible(Run(limits, map[], log[..q]), k, later)
    ensures var first := View(Run(limits, map[], log[..p]), k.name, k.rtype, earlier);
            var second := View(Run(limits, map[], log[..q]), k.name, k.rtype, later);
            k in first && k in second && second[k] == first[k].(ttl := second[k].ttl) && second[k].ttl <= first[k].ttl
  {
    LegalPrefix(limits, map[], log, q);
    UntouchedSince(limits, log[..q], p, k);
    assert log[..q][..p] == log[..p];
    WellKeyedRun(limits, log[..q]);
    TtlNeverRises(Run(limits, map[], log[..q])[k], earlier, later);
    RemainingTtlIsCeiling(Run(limits, map[], log[..q])[k], earlier);
    RemainingTtlIsCeiling(Run(limits, map[], log[..q])[k], later);
  }

  // ---- attribution ----

  predicate Attributes(limits: Limits, e: Event, k: RecordKey) {
    Refreshes(limits, e, k) && e.source.Some?
  }

  /** `k` has been present ever since event `i`. */
  ghost predicate PresentSince(limits: Limits, log: seq<Event>, k: RecordKey, i: int) {
    forall j :: 0 <= i < j <= |log| ==> k in Run(limits, map[], log[..j])
  }

  /** Event `i` is the latest attributed insertion of `k` since it was last absent. */
  ghost predicate LatestAttribution(limits: Limits, log: seq<Event>, k: RecordKey, i: int) {
    && 0 <= i < |log|
    && Attributes(limits, log[i], k)
    && PresentSince(limits, log, k, i)
    && forall j :: i < j < |log| ==> !Attributes(limits, log[j], k)
  }

  /** The source of `k`, if any, is that of its latest attribution. */
  ghost predicate SourceByLog(limits: Limits, log: seq<Event>, k: RecordKey, source: Option<u32>) {
    forall s :: source == Some(s) <==> exists i :: LatestAttribution(limits, log, k, i) && log[i].source == Some(s)
  }

  /** An entry's source is the latest attributed one since its key was last
      absent, and `None` when there is none. */
  lemma {:induction false} SourceIsLatestAttribution(limits: Limits, log: seq<Event>, k: RecordKey)
    requires LegalRun(limits, map[], log) && k in Run(limits, map[], log)
    ensures SourceByLog(limits, log, k, Run(limits, map[], log)[k].source)
  {
    var n := |log| - 1;
    var before := Run(limits, map[], log[..n]);
    if Attributes(limits, log[n], k) {
      AttributedNow(limits, log, k);
    } else if k in before {
      SourceIsLatestAttribution(limits, log[..n], k);
      CarriedOver(limits, log, k, before[k].source);
    } else {
      NewlyPresent(limits, log, k);
    }
  }

  lemma AttributedNow(limits: Limits, log: seq<Event>, k: RecordKey)
    requires log != [] && k in Run(limits, map[], log) && Attributes(limits, log[|log| - 1], k)
    ensures SourceByLog(limits, log, k, Run(limits, map[], log)[k].source)
  {
    var n := |log| - 1;
    assert log[..|log|] == log;
    assert LatestAttribution(limits, log, k, n);
    assert forall i :: LatestAttribution(limits, log, k, i) ==> i == n;
    assert Run(limits, map[], log)[k].source == log[n].source;
  }

  lemma NewlyPresent(limits: Limits, log: seq<Event>, k: RecordKey)
    requires log != [] && k in Run(limits, map[], log) && !Attributes(limits, log[|log| - 1], k)
    requires k !in Run(limits, map[], log[..|log| - 1])
    ensures SourceByLog(limits, log, k, Run(limits, map[], log)[k].source)
  {
    assert Run(limits, map[], log)[k].source == None;
    forall i ensures !LatestAttribution(limits, log, k, i) {}
  }

  lemma CarriedOver(limits: Limits, log: seq<Event>, k: RecordKey, source: Option<u32>)
    requires log != [] && k in Run(limits, map[], log) && !Attributes(limits, log[|log| - 1], k)
    requires k in Run(limits, map[], log[..|log| - 1]) && Run(limits, map[], log[..|log| - 1])[k].source == source
    requires SourceByLog(limits, log[..|log| - 1], k, source)
    ensures SourceByLog(limits, log, k, Run(limits, map[], log)[k].source)
  {
    var past := log[..|log| - 1];
    assert Run(limits, map[], log)[k].source == source;
    forall i { AttributionExtends(limits, log, k, i); }
    forall s ensures source == Some(s) <==> exists i :: LatestAttribution(limits, log, k, i) && log[i].source == Some(s) {
      if source == Some(s) {
        var i :| LatestAttribution(limits, past, k, i) && past[i].source == Some(s);
        assert LatestAttribution(limits, log, k, i) && log[i].source == Some(s);
      }
      if i :| LatestAttribution(limits, log, k, i) && log[i].source == Some(s) {
        assert LatestAttribution(limits, past, k, i) && past[i].source == Some(s);
      }
    }
  }

  lemma AttributionExtends(limits: Limits, log: seq<Event>, k: RecordKey, i: int)
    requires log != [] && k in Run(limits, map[], log) && !Attributes(limits, log[|log| - 1], k)
    ensures LatestAttribution(limits, log, k, i) <==>
            LatestAttribution(limits, log[..|log| - 1], k, i)
  {
    var n := |log| - 1;
    if 0 <= i < n {
      PresenceExtends(limits, log, k, i);
    }
  }

  lemma PresenceExtends(limits: Limits, log: seq<Event>, k: RecordKey, i: nat)
    requires log != [] && k in Run(limits, map[], log) && i < |log| - 1
    ensures PresentSince(limits, log, k, i) <==> PresentSince(limits, log[..|log| - 1], k, i)
  {
    var n := |log| - 1;
    assert log[..|log|] == log;
    forall j | 0 <= j <= n ensures log[..n][..j] == log[..j] {}
    if PresentSince(limits, log, k, i) {
      forall j | i < j <= n ensures k in Run(limits, map[], log[..n][..j]) {
        assert k in Run(limits, map[], log[..j]);
      }
    }
    if PresentSince(limits, log[..n], k, i) {
      forall j | i < j <= n + 1 ensures k in Run(limits, map[], log[..j]) {
        if j <= n { assert k in Run(limits, map[], log[..n][..j]); }
      }
    }
  }

  // ---- groups owned through cache-flush ----

  predicate SameGroup(k: RecordKey, l: RecordKey) {
    k.name == l.name && k.rtype == l.rtype && k.dnsClass == l.dnsClass
  }

  /** Every live record of the group of `g` carries cache-flush. */
  ghost predicate FedByFlush(limits: Limits, log: seq<Event>, g: RecordKey) {
    forall i :: 0 <= i < |log| && Live(limits, log[i]) && SameGroup(KeyOf(log[i].record), g)
                ==> log[i].record.flush
  }

  /** A group fed only by cache-flush records never holds two entries. */
  lemma {:induction false} FlushedGroupIsSingle(limits: Limits, log: seq<Event>, k: RecordKey, l: RecordKey)
    requires LegalRun(limits, map[], log) && SameGroup(k, l) && FedByFlush(limits, log, k)
    requires k in Run(limits, map[], log) && l in Run(limits, map[], log)
    ensures k == l
  {
    if k != l {
      var n := |log| - 1;
      var before, e := Run(limits, map[], log[..n]), log[n];
      WellKeyedRun(limits, log[..n]);
      if k in before && l in before {
        FlushedGroupIsSingle(limits, log[..n], k, l);
      }
    }
  }

  lemma {:induction false} WellKeyedRun(limits: Limits, log: seq<Event>)
    ensures WellKeyed(Run(limits, map[], log))
  {
    if log != [] {
      var n := |log| - 1;
      WellKeyedRun(limits, log[..n]);
      if log[n].Insert? {
        InsertKeepsKeys(limits, Run(limits, map[], log[..n]), log[n].record, log[n].source, log[n].now, log[n].victim);
      }
    }
  }

  // ---- goodbyes ----

  /** Feeding goodbyes to any cache is exact map subtraction of their keys. */
  lemma {:induction false} GoodbyesSubtract(limits: Limits, start: Table, log: seq<Event>)
    requires forall i :: 0 <= i < |log| ==> log[i].Insert? && log[i].record.ttl == 0
    ensures Run(limits, start, log) == start - (set e | e in log :: KeyOf(e.record))
  {
    if log != [] {
      var n := |log| - 1;
      GoodbyesSubtract(limits, start, log[..n]);
      assert log == log[..n] + [log[n]];
      assert (set e | e in log :: KeyOf(e.record))
          == (set e | e in log[..n] :: KeyOf(e.record)) + {KeyOf(log[n].record)};
    }
  }
}
