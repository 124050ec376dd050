/** The background sweep is invisible: two runs with the same traffic and any two
    sweep schedules answer every lookup alike. */
module CacheSweeps {
  import opened Records
  import opened Cache
  import opened CacheRuns
  import opened CacheCalls

  // ---- one sweep, one observer ----

  /** A sweep that read the clock at `swept` is invisible to an observer reading
      it at `seen`, whatever the table holds, exactly when `swept <= seen`. */
  lemma SweepInvisibleIff(swept: Time, seen: Time)
    ensures (forall m: Table, k :: Visible(Swept(m, swept), k, seen) == Visible(m, k, seen))
            <==> swept <= seen
  {
    if seen < swept {
      var r := Record("", 1, 1, false, PtrData(""));
      var m: Table := map[KeyOf(r) := Entry(r, swept, None)];
      assert Visible(Swept(m, swept), KeyOf(r), seen) != Visible(m, KeyOf(r), seen);
    }
  }

  // ---- coupling a swept table with one that is never swept ----

  /** `s` is the part of `u` that outlives `horizon`, up to attribution. */
  ghost predicate Coupled(u: Table, s: Table, horizon: Time) {
    && (forall k :: k in s <==> k in u && horizon < u[k].deadline)
    && (forall k :: k in s ==> s[k].record == u[k].record && s[k].deadline == u[k].deadline)
  }

  lemma CoupledSize(u: Table, s: Table, horizon: Time)
    requires Coupled(u, s, horizon)
    ensures |s| <= |u|
    ensures |s| == |u| ==> s.Keys == u.Keys
  {
    SubmapIsSmaller(s, u);
  }

  lemma CoupledFlush(u: Table, s: Table, horizon: Time, r: Record)
    requires Coupled(u, s, horizon)
    ensures Coupled(Flushed(u, r), Flushed(s, r), horizon)
  {
  }

  /** When the unswept table is full and the swept one is not, the unswept victim
      is an entry that the sweep has already removed. */
  lemma VictimWasSwept(u: Table, s: Table, horizon: Time, victim: RecordKey)
    requires Coupled(u, s, horizon) && |s| < |u| && SoonestToExpire(u, victim)
    ensures u[victim].deadline <= horizon
  {
    var gone := u.Keys - s.Keys;
    assert u.Keys == s.Keys + gone;
    assert gone != {};
    var d :| d in gone;
    assert u[d].deadline <= horizon;
  }

  /** Storing the same record on both sides keeps them coupled. */
  lemma CoupledStore(u: Table, s: Table, horizon: Time, k: RecordKey, ue: Entry, se: Entry)
    requires Coupled(u, s, horizon)
    requires horizon < ue.deadline && ue.record == se.record && ue.deadline == se.deadline
    ensures Coupled(u[k := ue], s[k := se], horizon)
  {
  }

  lemma CoupledRemove(u: Table, s: Table, horizon: Time, k: RecordKey)
    requires Coupled(u, s, horizon)
    ensures Coupled(u - {k}, s - {k}, horizon)
    ensures k in u && u[k].deadline <= horizon ==> Coupled(u - {k}, s, horizon)
  {
  }

  /** Making room: both lose the same victim, or only the unswept side loses one
      that the other no longer has. */
  lemma CoupledRoom(limits: Limits, u: Table, s: Table, horizon: Time, r: Record,
                    uVictim: Option<RecordKey>, sVictim: Option<RecordKey>)
    requires Coupled(u, s, horizon) && Bounded(limits, u)
    requires LegalVictim(limits, u, r, uVictim) && LegalVictim(limits, s, r, sVictim)
    requires sVictim.Some? ==> uVictim == sVictim
    requires KeyOf(r) !in Flushed(s, r) && Capped(limits, r).ttl > 0
    ensures Coupled(WithoutVictim(Flushed(u, r), uVictim), WithoutVictim(Flushed(s, r), sVictim), horizon)
  {
    var fu, fs := Flushed(u, r), Flushed(s, r);
    CoupledFlush(u, s, horizon, r);
    CoupledSize(fu, fs, horizon);
    if uVictim.Some? {
      if sVictim.None? { VictimWasSwept(fu, fs, horizon, uVictim.value); }
      CoupledRemove(fu, fs, horizon, uVictim.value);
    }
  }

  lemma CoupledInsert(limits: Limits, u: Table, s: Table, horizon: Time, e: Event,
                      uVictim: Option<RecordKey>, sVictim: Option<RecordKey>)
    requires e.Insert? && horizon <= e.now && Coupled(u, s, horizon) && Bounded(limits, u)
    requires LegalVictim(limits, u, e.record, uVictim) && LegalVictim(limits, s, e.record, sVictim)
    requires sVictim.Some? ==> uVictim == sVictim
    ensures Coupled(AfterInsert(limits, u, e.record, e.source, e.now, uVictim),
                    AfterInsert(limits, s, e.record, e.source, e.now, sVictim), horizon)
  {
    var r, k := e.record, KeyOf(e.record);
    var fu, fs := Flushed(u, r), Flushed(s, r);
    CoupledRemove(u, s, horizon, k);
    if Capped(limits, r).ttl > 0 {
      var mu, ms := fu, fs;
      CoupledFlush(u, s, horizon, r);
      if k !in fs {
        CoupledRoom(limits, u, s, horizon, r, uVictim, sVictim);
        mu, ms := WithoutVictim(fu, uVictim), WithoutVictim(fs, sVictim);
      }
      var ue, se := AfterInsert(limits, u, r, e.source, e.now, uVictim)[k], AfterInsert(limits, s, r, e.source, e.now, sVictim)[k];
      CoupledStore(mu, ms, horizon, k, ue, se);
    }
  }

  lemma AnyVictim(m: Table) returns (victim: RecordKey)
    requires m != map[]
    ensures SoonestToExpire(m, victim)
  {
    var k :| k in m;
    var rest := m - {k};
    assert m.Keys == rest.Keys + {k};
    if rest == map[] {
      victim := k;
    } else {
      victim := AnyVictim(rest);
      if m[k].deadline < m[victim].deadline { victim := k; }
      forall o | o in m ensures m[victim].deadline <= m[o].deadline {
        if o != k { assert o in rest; }
      }
    }
  }

  lemma LegalVictimExists(limits: Limits, m: Table, r: Record) returns (victim: Option<RecordKey>)
    requires 1 <= limits.maxEntries
    ensures LegalVictim(limits, m, r, victim)
  {
    victim := None;
    if NeedsRoom(limits, m, r) {
      var k := AnyVictim(Flushed(m, r));
      victim := Some(k);
    }
  }

  /** When the swept table is full so is the other, and they agree. */
  lemma SameVictim(limits: Limits, u: Table, s: Table, horizon: Time, r: Record)
    requires Coupled(u, s, horizon) && Bounded(limits, u) && NeedsRoom(limits, s, r)
    ensures forall v :: LegalVictim(limits, u, r, v) <==> LegalVictim(limits, s, r, v)
  {
    CoupledFlush(u, s, horizon, r);
    CoupledSize(Flushed(u, r), Flushed(s, r), horizon);
    FlushedIsSmaller(u, r);
    assert Flushed(u, r).Keys == Flushed(s, r).Keys;
    forall v: Option<RecordKey> | v.Some?
      ensures SoonestToExpire(Flushed(u, r), v.value) <==> SoonestToExpire(Flushed(s, r), v.value) {}
  }

  // ---- whole runs ----

  /** No insertion reads a clock earlier than an earlier tick's; insertions read
      it while they hold the lock. */
  ghost predicate Orderly(log: seq<Event>) {
    forall i, j :: 0 <= i < j < |log| && log[i].Tick? && log[j].Insert? ==> log[i].now <= log[j].now
  }

  /** The latest reading of a sweep that ran. */
  function Horizon(log: seq<Event>): Time {
    if log == [] then 0
    else
      var h, e := Horizon(log[..|log| - 1]), log[|log| - 1];
      if e.Tick? && e.swept && h < e.now then e.now else h
  }

  /** The same call at the same time, up to the victim and whether the sweep ran. */
  predicate SameCall(a: Event, b: Event) {
    match a
    case Insert(_, _, _, _) => b.Insert? && b == a.(victim := b.victim)
    case Tick(now, _) => b.Tick? && b.now == now
  }

  ghost predicate SameTraffic(a: seq<Event>, b: seq<Event>) {
    |a| == |b| && forall i :: 0 <= i < |a| ==> SameCall(a[i], b[i])
  }

  ghost predicate Follows(log: seq<Event>, plan: seq<bool>) {
    |log| == |plan| && forall i :: 0 <= i < |log| && log[i].Tick? ==> log[i].swept == plan[i]
  }

  ghost predicate NeverSwept(log: seq<Event>) {
    forall i :: 0 <= i < |log| && log[i].Tick? ==> !log[i].swept
  }

  ghost predicate CoupledAt(limits: Limits, u: seq<Event>, s: seq<Event>, i: nat)
    requires i <= |u| && i <= |s|
  {
    Coupled(Run(limits, map[], u[..i]), Run(limits, map[], s[..i]), Horizon(s[..i]))
  }

  /** The two runs are coupled after every prefix. */
  ghost predicate CoupledRuns(limits: Limits, u: seq<Event>, s: seq<Event>) {
    SameTraffic(u, s) && forall i :: 0 <= i <= |s| ==> CoupledAt(limits, u, s, i)
  }

  lemma CoupledNow(limits: Limits, u: seq<Event>, s: seq<Event>)
    requires CoupledRuns(limits, u, s)
    ensures Coupled(Run(limits, map[], u), Run(limits, map[], s), Horizon(s))
  {
    assert CoupledAt(limits, u, s, |s|);
    assert u[..|s|] == u && s[..|s|] == s;
  }

  lemma {:induction false} HorizonBehind(log: seq<Event>, now: Time)
    requires forall i :: 0 <= i < |log| && log[i].Tick? ==> log[i].now <= now
    ensures Horizon(log) <= now
  {
    if log != [] { HorizonBehind(log[..|log| - 1], now); }
  }

  lemma ExtendCoupling(limits: Limits, u: seq<Event>, s: seq<Event>, ue: Event, se: Event)
    requires CoupledRuns(limits, u, s) && SameCall(ue, se)
    requires Coupled(Run(limits, map[], u + [ue]), Run(limits, map[], s + [se]), Horizon(s + [se]))
    ensures CoupledRuns(limits, u + [ue], s + [se])
  {
    forall i | 0 <= i <= |s| + 1 ensures CoupledAt(limits, u + [ue], s + [se], i) {
      if i <= |s| {
        assert CoupledAt(limits, u, s, i);
        assert (u + [ue])[..i] == u[..i] && (s + [se])[..i] == s[..i];
      } else {
        assert (u + [ue])[..i] == u + [ue] && (s + [se])[..i] == s + [se];
      }
    }
  }

  /** One more call on coupled runs, given the event on each side. */
  lemma CoupledStep(limits: Limits, u: seq<Event>, s: seq<Event>, ue: Event, se: Event)
    requires 1 <= limits.maxEntries
    requires CoupledRuns(limits, u, s) && LegalRun(limits, map[], u) && LegalRun(limits, map[], s)
    requires SameCall(ue, se) && (ue.Tick? ==> !ue.swept) && (se.Insert? ==> Horizon(s) <= se.now)
    requires Legal(limits, Run(limits, map[], u), ue) && Legal(limits, Run(limits, map[], s), se)
    requires ue.Insert? && se.victim.Some? ==> ue.victim == se.victim
    ensures CoupledRuns(limits, u + [ue], s + [se])
    ensures LegalRun(limits, map[], u + [ue]) && LegalRun(limits, map[], s + [se])
  {
    assert (u + [ue])[..|u|] == u && (s + [se])[..|s|] == s;
    CoupledNow(limits, u, s);
    var mu, ms := Run(limits, map[], u), Run(limits, map[], s);
    if ue.Insert? {
      RunStaysBounded(limits, map[], u);
      CoupledInsert(limits, mu, ms, Horizon(s), ue, ue.victim, se.victim);
    }
    ExtendCoupling(limits, u, s, ue, se);
  }

  lemma OrderlyLast(log: seq<Event>)
    requires log != [] && Orderly(log) && log[|log| - 1].Insert?
    ensures Horizon(log[..|log| - 1]) <= log[|log| - 1].now
  {
    HorizonBehind(log[..|log| - 1], log[|log| - 1].now);
  }

  /** The event that answers `se` on the side that never sweeps. */
  lemma MatchUnswept(limits: Limits, u: Table, s: Table, horizon: Time, se: Event) returns (ue: Event)
    requires Bounded(limits, u) && Coupled(u, s, horizon) && Legal(limits, s, se)
    ensures SameCall(ue, se) && Legal(limits, u, ue) && (ue.Tick? ==> !ue.swept)
    ensures ue.Insert? && se.victim.Some? ==> ue.victim == se.victim
  {
    if se.Tick? {
      ue := Tick(se.now, false);
    } else if se.victim.Some? {
      SameVictim(limits, u, s, horizon, se.record);
      ue := se;
    } else {
      var v := LegalVictimExists(limits, u, se.record);
      ue := se.(victim := v);
    }
  }

  /** The event that answers `ue` on the side that sweeps when told to. */
  lemma MatchSwept(limits: Limits, u: Table, s: Table, horizon: Time, ue: Event, sweep: bool)
    returns (se: Event)
    requires Bounded(limits, u) && Coupled(u, s, horizon) && Legal(limits, u, ue)
    ensures SameCall(ue, se) && Legal(limits, s, se) && (se.Tick? ==> se.swept == sweep)
    ensures ue.Insert? && se.victim.Some? ==> ue.victim == se.victim
  {
    if ue.Tick? {
      se := Tick(ue.now, sweep);
    } else if NeedsRoom(limits, s, ue.record) {
      SameVictim(limits, u, s, horizon, ue.record);
      se := ue;
    } else {
      se := ue.(victim := None);
    }
  }

  lemma UnsweepStep(limits: Limits, u: seq<Event>, s: seq<Event>, e: Event) returns (ue: Event)
    requires 1 <= limits.maxEntries && LegalRun(limits, map[], u) && LegalRun(limits, map[], s) && CoupledRuns(limits, u, s)
    requires NeverSwept(u) && Legal(limits, Run(limits, map[], s), e) && (e.Insert? ==> Horizon(s) <= e.now)
    ensures LegalRun(limits, map[], u + [ue]) && NeverSwept(u + [ue]) && CoupledRuns(limits, u + [ue], s + [e])
  {
    CoupledNow(limits, u, s);
    RunStaysBounded(limits, map[], u);
    ue := MatchUnswept(limits, Run(limits, map[], u), Run(limits, map[], s), Horizon(s), e);
    CoupledStep(limits, u, s, ue, e);
  }

  /** Every run is coupled with one of the same traffic that never sweeps. */
  lemma {:induction false} Unsweep(limits: Limits, s: seq<Event>) returns (u: seq<Event>)
    requires 1 <= limits.maxEntries && LegalRun(limits, map[], s) && Orderly(s)
    ensures LegalRun(limits, map[], u) && NeverSwept(u) && CoupledRuns(limits, u, s)
    decreases |s|
  {
    if s == [] {
      u := [];
    } else {
      var past, e := s[..|s| - 1], s[|s| - 1];
      u := Unsweep(limits, past);
      if e.Insert? { OrderlyLast(s); }
      var ue := UnsweepStep(limits, u, past, e);
      assert s == past + [e];
      u := u + [ue];
    }
  }

  lemma ResweepStep(limits: Limits, u: seq<Event>, s: seq<Event>, e: Event, sweep: bool) returns (se: Event)
    requires 1 <= limits.maxEntries && LegalRun(limits, map[], u) && LegalRun(limits, map[], s) && CoupledRuns(limits, u, s)
    requires Legal(limits, Run(limits, map[], u), e) && (e.Tick? ==> !e.swept) && Orderly(u + [e])
    ensures LegalRun(limits, map[], s + [se]) && CoupledRuns(limits, u + [e], s + [se]) && (se.Tick? ==> se.swept == sweep)
  {
    CoupledNow(limits, u, s);
    RunStaysBounded(limits, map[], u);
    se := MatchSwept(limits, Run(limits, map[], u), Run(limits, map[], s), Horizon(s), e, sweep);
    if e.Insert? { OrderlyAfter(u, s, e); }
    CoupledStep(limits, u, s, e, se);
  }

  /** A run that never sweeps is coupled with one following any sweep plan. */
  lemma {:induction false} Resweep(limits: Limits, u: seq<Event>, plan: seq<bool>) returns (s: seq<Event>)
    requires 1 <= limits.maxEntries && LegalRun(limits, map[], u) && Orderly(u) && NeverSwept(u)
    requires |plan| == |u|
    ensures LegalRun(limits, map[], s) && Follows(s, plan) && CoupledRuns(limits, u, s)
    decreases |u|
  {
    if u == [] {
      s := [];
    } else {
      var past, e := u[..|u| - 1], u[|u| - 1];
      assert u == past + [e];
      s := Resweep(limits, past, plan[..|u| - 1]);
      var se := ResweepStep(limits, past, s, e, plan[|u| - 1]);
      FollowsOn(s, se, plan);
      s := s + [se];
    }
  }

  lemma FollowsOn(s: seq<Event>, e: Event, plan: seq<bool>)
    requires |plan| == |s| + 1 && Follows(s, plan[..|s|]) && (e.Tick? ==> e.swept == plan[|s|])
    ensures Follows(s + [e], plan)
  {
  }

  lemma OrderlyAfter(u: seq<Event>, s: seq<Event>, e: Event)
    requires SameTraffic(u, s) && Orderly(u + [e]) && e.Insert?
    ensures Horizon(s) <= e.now
  {
    forall i | 0 <= i < |s| && s[i].Tick? ensures s[i].now <= e.now {
      assert SameCall(u[i], s[i]) && (u + [e])[i] == u[i] && (u + [e])[|u|] == e;
    }
    HorizonBehind(s, e.now);
  }

  // ---- what lookups see ----

  lemma CoupledViews(u: Table, s: Table, horizon: Time, name: Name, rtype: RecordType, now: Time)
    requires Coupled(u, s, horizon) && horizon <= now
    ensures View(u, name, rtype, now) == View(s, name, rtype, now)
  {
    forall k | k in u
      ensures k in View(u, name, rtype, now) <==> k in View(s, name, rtype, now)
      ensures k in View(s, name, rtype, now) ==> View(u, name, rtype, now)[k] == View(s, name, rtype, now)[k]
    {
      RemainingTtlIsCeiling(u[k], now);
    }
  }

  ghost predicate SameSources(u: Table, s: Table) {
    forall k :: k in s && k in u ==> s[k].source == u[k].source
  }

  /** Attribution agrees exactly when no relaying lookup can tell the tables apart. */
  lemma SameSourcesIff(u: Table, s: Table, horizon: Time)
    requires Coupled(u, s, horizon)
    ensures SameSources(u, s) <==>
            forall name, rtype, arrival, now :: horizon <= now ==>
              OtherView(u, name, rtype, arrival, now) == OtherView(s, name, rtype, arrival, now)
  {
    if SameSources(u, s) {
      forall name, rtype, arrival, now | horizon <= now
        ensures OtherView(u, name, rtype, arrival, now) == OtherView(s, name, rtype, arrival, now)
      {
        CoupledViews(u, s, horizon, name, rtype, now);
      }
    } else {
      var k :| k in s && k in u && s[k].source != u[k].source;
      var r := s[k].record;
      var zero: u32, one: u32 := 0, 1;
      var arrival := if s[k].source.Some? && u[k].source.Some? then s[k].source.value
                     else if s[k].source == Some(zero) || u[k].source == Some(zero) then one else zero;
      CoupledViews(u, s, horizon, r.name, ANY, horizon);
      assert k in View(u, r.name, ANY, horizon);
      assert (k in OtherView(u, r.name, ANY, arrival, horizon))
          != (k in OtherView(s, r.name, ANY, arrival, horizon));
    }
  }

  /** The one way to lose a source: an unattributed refresh of an entry that was
      attributed, has expired, and is already swept on the other side. */
  predicate Readopts(limits: Limits, u: Table, horizon: Time, e: Event) {
    && Live(limits, e) && e.source.None?
    && KeyOf(e.record) in u
    && u[KeyOf(e.record)].deadline <= horizon
    && u[KeyOf(e.record)].source.Some?
  }

  lemma SourcesStep(limits: Limits, u: Table, s: Table, horizon: Time, ue: Event, se: Event)
    requires Coupled(u, s, horizon) && SameSources(u, s) && SameCall(ue, se) && (ue.Tick? ==> !ue.swept)
    ensures SameSources(Step(limits, u, ue), Step(limits, s, se)) <==> !Readopts(limits, u, horizon, ue)
  {
    if ue.Insert? && Live(limits, ue) {
      var key := KeyOf(ue.record);
      assert key in Step(limits, u, ue) && key in Step(limits, s, se);
    }
  }

  ghost predicate SourcesAgreeAt(limits: Limits, u: seq<Event>, s: seq<Event>, i: nat)
    requires i <= |u| && i <= |s|
  {
    SameSources(Run(limits, map[], u[..i]), Run(limits, map[], s[..i]))
  }

  ghost predicate ReadoptsAt(limits: Limits, u: seq<Event>, s: seq<Event>, i: nat)
    requires i < |u| && i < |s|
  {
    Readopts(limits, Run(limits, map[], u[..i]), Horizon(s[..i]), u[i])
  }

  lemma SourcesAt(limits: Limits, u: seq<Event>, s: seq<Event>, i: nat)
    requires CoupledRuns(limits, u, s) && NeverSwept(u) && i < |s| && SourcesAgreeAt(limits, u, s, i)
    ensures SourcesAgreeAt(limits, u, s, i + 1) <==> !ReadoptsAt(limits, u, s, i)
  {
    assert CoupledAt(limits, u, s, i);
    assert u[..i + 1][..i] == u[..i] && s[..i + 1][..i] == s[..i];
    SourcesStep(limits, Run(limits, map[], u[..i]), Run(limits, map[], s[..i]), Horizon(s[..i]), u[i], s[i]);
  }

  lemma {:induction false} SourcesUpTo(limits: Limits, u: seq<Event>, s: seq<Event>, n: nat)
    requires CoupledRuns(limits, u, s) && NeverSwept(u) && n <= |s|
    requires forall i :: 0 <= i < n ==> !ReadoptsAt(limits, u, s, i)
    ensures SourcesAgreeAt(limits, u, s, n)
  {
    if n > 0 {
      SourcesUpTo(limits, u, s, n - 1);
      SourcesAt(limits, u, s, n - 1);
    }
  }

  /** Sweeping changes no relaying lookup of a whole run exactly when the run
      never readopts a swept entry. */
  lemma AttributionInvisibleIff(limits: Limits, u: seq<Event>, s: seq<Event>)
    requires CoupledRuns(limits, u, s) && NeverSwept(u)
    ensures (forall i :: 0 <= i <= |s| ==> SourcesAgreeAt(limits, u, s, i))
            <==> (forall i :: 0 <= i < |s| ==> !ReadoptsAt(limits, u, s, i))
  {
    if forall i :: 0 <= i <= |s| ==> SourcesAgreeAt(limits, u, s, i) {
      forall i | 0 <= i < |s| ensures !ReadoptsAt(limits, u, s, i) {
        assert SourcesAgreeAt(limits, u, s, i) && SourcesAgreeAt(limits, u, s, i + 1);
        SourcesAt(limits, u, s, i);
      }
    }
    if forall i :: 0 <= i < |s| ==> !ReadoptsAt(limits, u, s, i) {
      forall i | 0 <= i <= |s| ensures SourcesAgreeAt(limits, u, s, i) {
        SourcesUpTo(limits, u, s, i);
      }
    }
  }

  // ---- the theorem ----

  ghost predicate AllTicksBy(log: seq<Event>, now: Time) {
    forall i :: 0 <= i < |log| && log[i].Tick? ==> log[i].now <= now
  }

  ghost predicate Attributed(log: seq<Event>) {
    forall i :: 0 <= i < |log| && log[i].Insert? ==> log[i].source.Some?
  }

  ghost predicate SameLookups(a: Table, b: Table, now: Time) {
    forall name, rtype :: View(a, name, rtype, now) == View(b, name, rtype, now)
  }

  ghost predicate SameRelays(a: Table, b: Table, now: Time) {
    forall name, rtype, arrival :: OtherView(a, name, rtype, arrival, now) == OtherView(b, name, rtype, arrival, now)
  }

  /** After every prefix, at every reading not before a tick, the two runs answer
      every lookup alike; relaying lookups too when every insertion is attributed. */
  ghost predicate AnswerAlike(limits: Limits, a: seq<Event>, b: seq<Event>)
    requires |a| == |b|
  {
    && (forall i, now :: 0 <= i <= |a| && AllTicksBy(a[..i], now) ==>
          SameLookups(Run(limits, map[], a[..i]), Run(limits, map[], b[..i]), now))
    && (Attributed(a) ==>
        forall i, now :: 0 <= i <= |a| && AllTicksBy(a[..i], now) ==>
          SameRelays(Run(limits, map[], a[..i]), Run(limits, map[], b[..i]), now))
  }

  /** For every run and every other sweep plan there is a run of the same traffic
      under that plan that answers alike, however the first run resolved its ties. */
  lemma SweepsAreInvisible(limits: Limits, a: seq<Event>, plan: seq<bool>) returns (b: seq<Event>)
    requires 1 <= limits.maxEntries && LegalRun(limits, map[], a) && Orderly(a) && |plan| == |a|
    ensures LegalRun(limits, map[], b) && SameTraffic(a, b) && Follows(b, plan)
    ensures AnswerAlike(limits, a, b)
  {
    var u := Unsweep(limits, a);
    b := Resweep(limits, u, plan);
    CoupledAnswerAlike(limits, u, a, b);
  }

  lemma CoupledAnswerAlike(limits: Limits, u: seq<Event>, a: seq<Event>, b: seq<Event>)
    requires NeverSwept(u) && CoupledRuns(limits, u, a) && CoupledRuns(limits, u, b)
    ensures AnswerAlike(limits, a, b)
  {
    forall i, now | 0 <= i <= |a| && AllTicksBy(a[..i], now)
      ensures SameLookups(Run(limits, map[], a[..i]), Run(limits, map[], b[..i]), now)
    {
      PrefixLookups(limits, u, a, i, now);
      assert AllTicksBy(b[..i], now) by { TicksAgree(a, b, i, now); }
      PrefixLookups(limits, u, b, i, now);
    }
    if Attributed(a) {
      AttributionInvisibleIff(limits, u, a);
      AttributionInvisibleIff(limits, u, b);
      forall i, now | 0 <= i <= |a| && AllTicksBy(a[..i], now)
        ensures SameRelays(Run(limits, map[], a[..i]), Run(limits, map[], b[..i]), now)
      {
        PrefixRelays(limits, u, a, i, now);
        assert AllTicksBy(b[..i], now) by { TicksAgree(a, b, i, now); }
        PrefixRelays(limits, u, b, i, now);
      }
    }
  }

  lemma TicksAgree(a: seq<Event>, b: seq<Event>, i: nat, now: Time)
    requires SameTraffic(a, b) && i <= |a| && AllTicksBy(a[..i], now)
    ensures AllTicksBy(b[..i], now)
  {
    forall j | 0 <= j < i && b[..i][j].Tick? ensures b[..i][j].now <= now {
      assert SameCall(a[j], b[j]) && a[..i][j] == a[j];
    }
  }

  lemma PrefixLookups(limits: Limits, u: seq<Event>, s: seq<Event>, i: nat, now: Time)
    requires CoupledRuns(limits, u, s) && i <= |s| && AllTicksBy(s[..i], now)
    ensures SameLookups(Run(limits, map[], u[..i]), Run(limits, map[], s[..i]), now)
  {
    assert CoupledAt(limits, u, s, i);
    HorizonBehind(s[..i], now);
    forall name, rtype {
      CoupledViews(Run(limits, map[], u[..i]), Run(limits, map[], s[..i]), Horizon(s[..i]), name, rtype, now);
    }
  }

  lemma PrefixRelays(limits: Limits, u: seq<Event>, s: seq<Event>, i: nat, now: Time)
    requires CoupledRuns(limits, u, s) && i <= |s| && AllTicksBy(s[..i], now)
    requires SourcesAgreeAt(limits, u, s, i)
    ensures SameRelays(Run(limits, map[], u[..i]), Run(limits, map[], s[..i]), now)
  {
    assert CoupledAt(limits, u, s, i);
    HorizonBehind(s[..i], now);
    SameSourcesIff(Run(limits, map[], u[..i]), Run(limits, map[], s[..i]), Horizon(s[..i]));
  }

  // ---- any two runs under one tie-break ----

  /** A fixed tie-break: of several entries of least deadline the one of least rank goes. */
  type Rank = RecordKey -> nat

  ghost predicate Injective(rank: Rank) {
    forall k, l :: rank(k) == rank(l) ==> k == l
  }

  ghost predicate Chosen(rank: Rank, m: Table, victim: RecordKey)
    requires victim in m
  {
    forall k :: k in m && k != victim && m[k].deadline == m[victim].deadline ==> rank(victim) < rank(k)
  }

  /** Every victim of the run is the one the tie-break picks. */
  ghost predicate RankedRun(limits: Limits, rank: Rank, log: seq<Event>)
    requires LegalRun(limits, map[], log)
  {
    log != [] ==>
      && RankedRun(limits, rank, log[..|log| - 1])
      && Ranked(limits, rank, Run(limits, map[], log[..|log| - 1]), log[|log| - 1])
  }

  ghost predicate Ranked(limits: Limits, rank: Rank, m: Table, e: Event)
    requires Legal(limits, m, e)
  {
    e.Insert? && e.victim.Some? ==> Chosen(rank, Flushed(m, e.record), e.victim.value)
  }

  /** A full swept table and its coupled one lose the same entry. */
  lemma SameChoice(limits: Limits, rank: Rank, u: Table, s: Table, horizon: Time, ue: Event, se: Event)
    requires Coupled(u, s, horizon) && Bounded(limits, u) && ue.Insert? && SameCall(ue, se)
    requires Legal(limits, u, ue) && Legal(limits, s, se) && Ranked(limits, rank, u, ue) && Ranked(limits, rank, s, se)
    requires se.victim.Some?
    ensures ue.victim == se.victim
  {
    var r := se.record;
    SameVictim(limits, u, s, horizon, r);
    assert LegalVictim(limits, u, r, se.victim) && LegalVictim(limits, s, r, ue.victim);
    var fu, fs := Flushed(u, r), Flushed(s, r);
    CoupledFlush(u, s, horizon, r);
    var x, y := ue.victim.value, se.victim.value;
    assert x in fu && y in fu && x in fs && y in fs;
    assert fu[x].deadline == fu[y].deadline && fs[x].deadline == fs[y].deadline;
    assert x != y ==> rank(x) < rank(y) && rank(y) < rank(x);
  }

  lemma RankedStep(limits: Limits, rank: Rank, u: seq<Event>, s: seq<Event>, ue: Event, se: Event)
    requires 1 <= limits.maxEntries && LegalRun(limits, map[], u) && LegalRun(limits, map[], s) && CoupledRuns(limits, u, s)
    requires SameCall(ue, se) && (ue.Tick? ==> !ue.swept) && (se.Insert? ==> Horizon(s) <= se.now)
    requires Legal(limits, Run(limits, map[], u), ue) && Ranked(limits, rank, Run(limits, map[], u), ue)
    requires Legal(limits, Run(limits, map[], s), se) && Ranked(limits, rank, Run(limits, map[], s), se)
    ensures CoupledRuns(limits, u + [ue], s + [se])
  {
    CoupledNow(limits, u, s);
    RunStaysBounded(limits, map[], u);
    if se.Insert? && se.victim.Some? {
      SameChoice(limits, rank, Run(limits, map[], u), Run(limits, map[], s), Horizon(s), ue, se);
    }
    CoupledStep(limits, u, s, ue, se);
  }

  /** Under one tie-break, any run is coupled with any unswept run of its traffic. */
  lemma {:induction false} RankedRunsCouple(limits: Limits, rank: Rank, u: seq<Event>, s: seq<Event>)
    requires 1 <= limits.maxEntries && LegalRun(limits, map[], u) && LegalRun(limits, map[], s)
    requires RankedRun(limits, rank, u) && RankedRun(limits, rank, s)
    requires SameTraffic(u, s) && NeverSwept(u) && Orderly(s)
    ensures CoupledRuns(limits, u, s)
    decreases |s|
  {
    if s != [] {
      var n := |s| - 1;
      RankedRunsCouple(limits, rank, u[..n], s[..n]);
      if s[n].Insert? { OrderlyLast(s); }
      RankedStep(limits, rank, u[..n], s[..n], u[n], s[n]);
      assert u == u[..n] + [u[n]] && s == s[..n] + [s[n]];
    }
  }

  lemma ChosenVictim(rank: Rank, m: Table) returns (victim: RecordKey)
    requires m != map[] && Injective(rank)
    ensures SoonestToExpire(m, victim) && Chosen(rank, m, victim)
  {
    var k :| k in m;
    var rest := m - {k};
    assert m.Keys == rest.Keys + {k};
    victim := k;
    if rest != map[] {
      var other := ChosenVictim(rank, rest);
      if m[other].deadline < m[k].deadline || (m[other].deadline == m[k].deadline && rank(other) < rank(k)) {
        victim := other;
      }
      assert forall o :: o in m ==> o == k || o in rest;
    }
  }

  /** The call `e` on an unswept table, with the victim the tie-break picks. */
  lemma RankedEvent(limits: Limits, rank: Rank, m: Table, e: Event) returns (ue: Event)
    requires 1 <= limits.maxEntries && Injective(rank)
    ensures SameCall(ue, e) && Legal(limits, m, ue) && Ranked(limits, rank, m, ue) && (ue.Tick? ==> !ue.swept)
  {
    if e.Tick? {
      ue := Tick(e.now, false);
    } else if NeedsRoom(limits, m, e.record) {
      var v := ChosenVictim(rank, Flushed(m, e.record));
      ue := e.(victim := Some(v));
    } else {
      ue := e.(victim := None);
    }
  }

  lemma RankedExtends(limits: Limits, rank: Rank, past: seq<Event>, e: Event)
    requires LegalRun(limits, map[], past) && RankedRun(limits, rank, past)
    requires Legal(limits, Run(limits, map[], past), e) && Ranked(limits, rank, Run(limits, map[], past), e)
    ensures LegalRun(limits, map[], past + [e]) && RankedRun(limits, rank, past + [e])
  {
    assert (past + [e])[..|past|] == past;
  }

  lemma TrafficExtends(u: seq<Event>, s: seq<Event>, ue: Event)
    requires s != [] && SameTraffic(u, s[..|s| - 1]) && NeverSwept(u)
    requires SameCall(ue, s[|s| - 1]) && (ue.Tick? ==> !ue.swept)
    ensures SameTraffic(u + [ue], s) && NeverSwept(u + [ue])
  {
    forall i | 0 <= i < |s| ensures SameCall((u + [ue])[i], s[i]) {
      if i < |u| { assert SameCall(u[i], s[..|s| - 1][i]); }
    }
  }

  /** A tie-break leaves an unswept run of any traffic. */
  lemma {:induction false} RankedUnswept(limits: Limits, rank: Rank, s: seq<Event>) returns (u: seq<Event>)
    requires 1 <= limits.maxEntries && Injective(rank)
    ensures LegalRun(limits, map[], u) && RankedRun(limits, rank, u) && NeverSwept(u) && SameTraffic(u, s)
  {
    if s == [] {
      u := [];
    } else {
      u := RankedUnswept(limits, rank, s[..|s| - 1]);
      var ue := RankedEvent(limits, rank, Run(limits, map[], u), s[|s| - 1]);
      RankedExtends(limits, rank, u, ue);
      TrafficExtends(u, s, ue);
      u := u + [ue];
    }
  }

  /** Any two runs of the same traffic under one tie-break answer alike, whenever
      each of them sweeps. */
  lemma AnyTwoSchedulesAgree(limits: Limits, rank: Rank, a: seq<Event>, b: seq<Event>)
    requires 1 <= limits.maxEntries && Injective(rank) && SameTraffic(a, b) && Orderly(a)
    requires LegalRun(limits, map[], a) && RankedRun(limits, rank, a)
    requires LegalRun(limits, map[], b) && RankedRun(limits, rank, b)
    ensures AnswerAlike(limits, a, b)
  {
    var u := RankedUnswept(limits, rank, a);
    assert Orderly(b) by { SameOrder(a, b); }
    assert SameTraffic(u, b) by {
      forall i | 0 <= i < |b| ensures SameCall(u[i], b[i]) { assert SameCall(u[i], a[i]) && SameCall(a[i], b[i]); }
    }
    RankedRunsCouple(limits, rank, u, a);
    RankedRunsCouple(limits, rank, u, b);
    CoupledAnswerAlike(limits, u, a, b);
  }

  lemma SameOrder(a: seq<Event>, b: seq<Event>)
    requires SameTraffic(a, b) && Orderly(a)
    ensures Orderly(b)
  {
    forall i, j | 0 <= i < j < |b| && b[i].Tick? && b[j].Insert? ensures b[i].now <= b[j].now {
      assert SameCall(a[i], b[i]) && SameCall(a[j], b[j]);
    }
  }

  // ---- the one difference, shown ----

  /** A record is heard on `source`, runs out, and is heard again from a link that
      could not be told. */
  function Readoption(limits: Limits, r: Record, source: u32, swept: bool): seq<Event> {
    var expired := Deadline(limits, r, 0);
    [Insert(r, Some(source), 0, None), Tick(expired, swept), Insert(r, None, expired, None)]
  }

  /** That run tells a swept cache from an unswept one, for any record and any two
      interfaces: only the unswept cache goes on relaying the record. */
  lemma ReadoptionIsVisible(limits: Limits, r: Record, source: u32, arrival: u32)
    requires 1 <= limits.maxEntries && Capped(limits, r).ttl > 0 && source != arrival
    ensures var u, s := Readoption(limits, r, source, false), Readoption(limits, r, source, true);
            var now := Deadline(limits, r, 0);
            && LegalRun(limits, map[], u) && LegalRun(limits, map[], s) && Orderly(u)
            && SameTraffic(u, s) && NeverSwept(u) && ReadoptsAt(limits, u, s, 2)
            && KeyOf(r) in OtherView(Run(limits, map[], u), r.name, TypeOf(r.data), arrival, now)
            && KeyOf(r) !in OtherView(Run(limits, map[], s), r.name, TypeOf(r.data), arrival, now)
  {
    ReadoptionTables(limits, r, source, false);
    ReadoptionTables(limits, r, source, true);
    var u, s := Readoption(limits, r, source, false), Readoption(limits, r, source, true);
    RemainingTtlIsCeiling(Run(limits, map[], u)[KeyOf(r)], Deadline(limits, r, 0));
    assert Horizon(s[..2]) == Deadline(limits, r, 0) by {
      assert s[..2][..1] == s[..1] && s[..1][..0] == [];
      assert Horizon(s[..1]) == 0;
    }
  }

  lemma ReadoptionTables(limits: Limits, r: Record, source: u32, swept: bool)
    requires 1 <= limits.maxEntries && Capped(limits, r).ttl > 0
    ensures var log, key, capped := Readoption(limits, r, source, swept), KeyOf(r), Capped(limits, r);
            var first := Entry(capped, Deadline(limits, r, 0), Some(source));
            && LegalRun(limits, map[], log)
            && Run(limits, map[], log[..2]) == (if swept then map[] else map[key := first])
            && Run(limits, map[], log)
               == map[key := Entry(capped, Deadline(limits, r, Deadline(limits, r, 0)), if swept then None else Some(source))]
  {
    var log := Readoption(limits, r, source, swept);
    assert log[..2][..1] == log[..1] && log[..1][..0] == [];
    assert Run(limits, map[], log[..1]) == map[KeyOf(r) := Entry(Capped(limits, r), Deadline(limits, r, 0), Some(source))];
    assert LegalRun(limits, map[], log[..1]);
    assert LegalRun(limits, map[], log[..2]);
  }
}
