/** Feeding a response message to the cache (src/engine.rs). */
module Engine {
  import opened Records
  import opened Cache
  import opened CacheRuns

  /** How many siblings a record flushes. */
  ghost function FlushCount(limits: Limits, m: Table, r: Record): int {
    if Capped(limits, r).ttl == 0 then 0 else |m| - |Flushed(m, r)|
  }

  lemma RemovedSize(m: Table, k: RecordKey)
    ensures |m - {k}| == |m| - (if k in m then 1 else 0)
  {
    if k in m { assert m.Keys == (m - {k}).Keys + {k}; } else { assert m - {k} == m; }
  }

  lemma StoredSize(m: Table, k: RecordKey, e: Entry)
    ensures |m[k := e]| == |m| + (if k in m then 0 else 1)
  {
    assert m[k := e].Keys == m.Keys + {k};
  }

  /** The running totals of one response message. */
  datatype Counts = Counts(inserted: nat, refreshed: nat, goodbyes: nat, rejected: nat, ignored: nat)

  function Tally(n: Counts, outcome: InsertOutcome): Counts {
    match outcome
    case Inserted => n.(inserted := n.inserted + 1)
    case Refreshed => n.(refreshed := n.refreshed + 1)
    case GoodbyeRemoved => n.(goodbyes := n.goodbyes + 1)
    case Rejected => n.(rejected := n.rejected + 1)
    case GoodbyeNoOp => n.(ignored := n.ignored + 1)
  }

  function Evictions(victim: Option<RecordKey>): nat { if victim.Some? then 1 else 0 }

  /** What one insertion adds to the size, given its outcome. */
  function Gain(outcome: InsertOutcome): int {
    if outcome == Inserted then 1 else if outcome == GoodbyeRemoved then -1 else 0
  }

  /** One insertion in numbers: every entry that appears or goes is accounted for. */
  lemma InsertBalance(limits: Limits, m: Table, r: Record, source: Option<u32>, now: Time, victim: Option<RecordKey>)
    requires LegalVictim(limits, m, r, victim)
    ensures |AfterInsert(limits, m, r, source, now, victim)|
         == |m| + Gain(OutcomeOf(limits, m, r)) - FlushCount(limits, m, r) - Evictions(victim)
    ensures FlushCount(limits, m, r) >= 0
  {
    FlushedIsSmaller(m, r);
    if Capped(limits, r).ttl == 0 {
      RemovedSize(m, KeyOf(r));
    } else {
      LiveBalance(limits, m, r, source, now, victim);
    }
  }

  lemma LiveBalance(limits: Limits, m: Table, r: Record, source: Option<u32>, now: Time, victim: Option<RecordKey>)
    requires LegalVictim(limits, m, r, victim) && Capped(limits, r).ttl > 0
    ensures |AfterInsert(limits, m, r, source, now, victim)|
         == |Flushed(m, r)| + (if KeyOf(r) in m then 0 else 1) - Evictions(victim)
  {
    var key, kept := KeyOf(r), Flushed(m, r);
    var capped, deadline := Capped(limits, r), Deadline(limits, r, now);
    assert key in kept <==> key in m;
    if key in kept {
      StoredSize(kept, key, Entry(capped, deadline, source.Or(kept[key].source)));
    } else {
      if victim.Some? { RemovedSize(kept, victim.value); }
      StoredSize(WithoutVictim(kept, victim), key, Entry(capped, deadline, source));
    }
  }

  lemma ExtendRun(limits: Limits, start: Table, past: seq<Event>, e: Event)
    requires LegalRun(limits, start, past) && Legal(limits, Run(limits, start, past), e)
    ensures LegalRun(limits, start, past + [e])
    ensures Run(limits, start, past + [e]) == Step(limits, Run(limits, start, past), e)
    ensures e.Insert? && Inserts(past) ==>
              && Inserts(past + [e])
              && Tallied(limits, start, past + [e])
                 == Tally(Tallied(limits, start, past), OutcomeOf(limits, Run(limits, start, past), e.record))
  {
    assert (past + [e])[..|past|] == past;
  }

  ghost predicate Inserts(log: seq<Event>) {
    forall i :: 0 <= i < |log| ==> log[i].Insert?
  }

  /** The outcomes of a run of insertions, counted. */
  ghost function Tallied(limits: Limits, start: Table, log: seq<Event>): Counts
    requires Inserts(log)
  {
    if log == [] then Counts(0, 0, 0, 0, 0)
    else
      var past, e := log[..|log| - 1], log[|log| - 1];
      Tally(Tallied(limits, start, past), OutcomeOf(limits, Run(limits, start, past), e.record))
  }

  /** The entries flushed, and those evicted for room, over a run of insertions. */
  ghost function FlushedIn(limits: Limits, start: Table, log: seq<Event>): int
    requires Inserts(log)
  {
    if log == [] then 0
    else
      var past, e := log[..|log| - 1], log[|log| - 1];
      FlushedIn(limits, start, past) + FlushCount(limits, Run(limits, start, past), e.record)
  }

  ghost function EvictedIn(log: seq<Event>): nat
    requires Inserts(log)
  {
    if log == [] then 0 else EvictedIn(log[..|log| - 1]) + Evictions(log[|log| - 1].victim)
  }

  /** Conservation over every run of insertions: nothing is ever rejected, every
      record is counted once, and the size balances exactly. */
  lemma {:induction false} RunBalance(limits: Limits, start: Table, log: seq<Event>)
    requires Inserts(log) && LegalRun(limits, start, log)
    ensures var n := Tallied(limits, start, log);
            && n.rejected == 0
            && n.inserted + n.refreshed + n.goodbyes + n.ignored == |log|
            && FlushedIn(limits, start, log) >= 0
            && |Run(limits, start, log)|
               == |start| + n.inserted - n.goodbyes - FlushedIn(limits, start, log) - EvictedIn(log)
  {
    if log != [] {
      var past, e := log[..|log| - 1], log[|log| - 1];
      var m := Run(limits, start, past);
      RunBalance(limits, start, past);
      InsertBalance(limits, m, e.record, e.source, e.now, e.victim);
      TallyGain(Tallied(limits, start, past), OutcomeOf(limits, m, e.record));
      assert Run(limits, start, log) == AfterInsert(limits, m, e.record, e.source, e.now, e.victim);
    }
  }

  /** Position `i` inserts a live record, or a goodbye, for a key that is or is not there. */
  ghost predicate Happens(limits: Limits, start: Table, log: seq<Event>, i: int, live: bool, present: bool)
    requires Inserts(log) && 0 <= i < |log|
  {
    && (Capped(limits, log[i].record).ttl > 0) == live
    && (KeyOf(log[i].record) in Run(limits, start, log[..i])) == present
  }

  ghost function Positions(limits: Limits, start: Table, log: seq<Event>, live: bool, present: bool): set<int>
    requires Inserts(log)
  {
    set i | 0 <= i < |log| && Happens(limits, start, log, i, live, present)
  }

  lemma HappensBefore(limits: Limits, start: Table, log: seq<Event>, n: nat, i: nat, live: bool, present: bool)
    requires Inserts(log) && i < n <= |log|
    ensures Happens(limits, start, log[..n], i, live, present) <==> Happens(limits, start, log, i, live, present)
  {
    assert log[..n][..i] == log[..i];
  }

  lemma PositionMember(limits: Limits, start: Table, log: seq<Event>, live: bool, present: bool, i: int)
    requires Inserts(log)
    ensures i in Positions(limits, start, log, live, present) <==>
            0 <= i < |log| && Happens(limits, start, log, i, live, present)
  {
  }

  lemma PositionStays(limits: Limits, start: Table, log: seq<Event>, live: bool, present: bool, i: int)
    requires Inserts(log) && log != [] && i != |log| - 1
    ensures i in Positions(limits, start, log, live, present) <==>
            i in Positions(limits, start, log[..|log| - 1], live, present)
  {
    var n := |log| - 1;
    PositionMember(limits, start, log, live, present, i);
    PositionMember(limits, start, log[..n], live, present, i);
    if 0 <= i < n { HappensBefore(limits, start, log, n, i, live, present); }
  }

  lemma OneMoreMember<T(!new)>(before: set<T>, after: set<T>, n: T)
    requires n !in before && forall i :: i != n ==> (i in after <==> i in before)
    ensures |after| == |before| + (if n in after then 1 else 0)
  {
    if n in after { assert after == before + {n}; } else { assert after == before; }
  }

  lemma PositionsGrow(limits: Limits, start: Table, log: seq<Event>, live: bool, present: bool)
    requires Inserts(log) && log != []
    ensures var n := |log| - 1;
            |Positions(limits, start, log, live, present)|
            == |Positions(limits, start, log[..n], live, present)|
               + (if Happens(limits, start, log, n, live, present) then 1 else 0)
  {
    var n := |log| - 1;
    PositionMember(limits, start, log, live, present, n);
    PositionMember(limits, start, log[..n], live, present, n);
    forall i | i != n { PositionStays(limits, start, log, live, present, i); }
    OneMoreMember(Positions(limits, start, log[..n], live, present), Positions(limits, start, log, live, present), n);
  }

  /** The counters as numbers of positions. */
  ghost function Counted(limits: Limits, start: Table, log: seq<Event>): Counts
    requires Inserts(log)
  {
    Counts(|Positions(limits, start, log, true, false)|, |Positions(limits, start, log, true, true)|,
           |Positions(limits, start, log, false, true)|, 0, |Positions(limits, start, log, false, false)|)
  }

  /** Each counter is the number of records it stands for: live and new, live and
      there, goodbyes for what was there, goodbyes for nothing. */
  lemma {:induction false} CountersCount(limits: Limits, start: Table, log: seq<Event>)
    requires Inserts(log)
    ensures Tallied(limits, start, log) == Counted(limits, start, log)
  {
    if log == [] {
      NoPositions(limits, start, log, true, false);
      NoPositions(limits, start, log, true, true);
      NoPositions(limits, start, log, false, true);
      NoPositions(limits, start, log, false, false);
    } else {
      CountersCount(limits, start, log[..|log| - 1]);
      CountedNext(limits, start, log);
    }
  }

  lemma NoPositions(limits: Limits, start: Table, log: seq<Event>, live: bool, present: bool)
    requires log == []
    ensures Positions(limits, start, log, live, present) == {}
  {
  }

  lemma CountedNext(limits: Limits, start: Table, log: seq<Event>)
    requires Inserts(log) && log != []
    ensures var n := |log| - 1;
            Counted(limits, start, log)
            == Tally(Counted(limits, start, log[..n]), OutcomeOf(limits, Run(limits, start, log[..n]), log[n].record))
  {
    PositionsGrow(limits, start, log, true, false);
    PositionsGrow(limits, start, log, true, true);
    PositionsGrow(limits, start, log, false, true);
    PositionsGrow(limits, start, log, false, false);
  }

  lemma TallyGain(n: Counts, outcome: InsertOutcome)
    requires outcome != Rejected
    ensures var n' := Tally(n, outcome);
            && n'.rejected == n.rejected
            && n'.inserted - n'.goodbyes == n.inserted - n.goodbyes + Gain(outcome)
            && n'.inserted + n'.refreshed + n'.goodbyes + n'.ignored
               == n.inserted + n.refreshed + n.goodbyes + n.ignored + 1
  {
  }

  /** The events of feeding `rs`, one per record in order. */
  ghost predicate Feeds(log: seq<Event>, rs: seq<Record>, source: Option<u32>, clock: seq<Time>) {
    && |log| == |rs| == |clock|
    && forall i :: 0 <= i < |log| ==> log[i].Insert? && log[i] == Insert(rs[i], source, clock[i], log[i].victim)
  }

  /** One record, as one more event of the run so far. */
  method FeedRecord(cache: RecordCache, r: Record, source: Option<u32>, now: Time,
                    ghost start: Table, ghost log: seq<Event>)
    returns (outcome: InsertOutcome, ghost e: Event)
    requires cache.Valid() && Inserts(log)
    requires LegalRun(cache.limits, start, log) && cache.byKey == Run(cache.limits, start, log)
    modifies cache
    ensures cache.Valid() && e.Insert? && e == Insert(r, source, now, e.victim) && Inserts(log + [e])
    ensures LegalRun(cache.limits, start, log + [e]) && cache.byKey == Run(cache.limits, start, log + [e])
    ensures Tallied(cache.limits, start, log + [e]) == Tally(Tallied(cache.limits, start, log), outcome)
  {
    ghost var victim;
    outcome, victim := cache.InsertFrom(r, source, now);
    e := Insert(r, source, now, victim);
    ExtendRun(cache.limits, start, log, e);
  }

  lemma FeedsOn(log: seq<Event>, e: Event, rs: seq<Record>, source: Option<u32>, clock: seq<Time>)
    requires |log| < |rs| == |clock| && Feeds(log, rs[..|log|], source, clock[..|log|])
    requires e.Insert? && e == Insert(rs[|log|], source, clock[|log|], e.victim)
    ensures Feeds(log + [e], rs[..|log| + 1], source, clock[..|log| + 1])
  {
  }

  method FeedAll(cache: RecordCache, rs: seq<Record>, source: Option<u32>, clock: seq<Time>)
    returns (n: Counts, ghost log: seq<Event>)
    requires cache.Valid() && |clock| == |rs|
    modifies cache
    ensures cache.Valid()
    ensures Feeds(log, rs, source, clock) && Inserts(log)
    ensures LegalRun(cache.limits, old(cache.byKey), log)
    ensures cache.byKey == Run(cache.limits, old(cache.byKey), log)
    ensures n == Tallied(cache.limits, old(cache.byKey), log)
  {
    n := Counts(0, 0, 0, 0, 0);
    log := [];
    ghost var start := cache.byKey;
    for i := 0 to |rs|
      invariant cache.Valid() && Inserts(log) && Feeds(log, rs[..i], source, clock[..i])
      invariant LegalRun(cache.limits, start, log) && cache.byKey == Run(cache.limits, start, log)
      invariant n == Tallied(cache.limits, start, log)
    {
      var outcome, e := FeedRecord(cache, rs[i], source, clock[i], start, log);
      n := Tally(n, outcome);
      FeedsOn(log, e, rs, source, clock);
      log := log + [e];
    }
    assert rs[..|rs|] == rs && clock[..|rs|] == clock;
  }

  /** A response message feeds all three sections, in order, as one legal run, and
      its counters are that run's outcomes. */
  method HandleResponseMsg(cache: RecordCache, answers: seq<Record>, authorities: seq<Record>, additionals: seq<Record>,
                           source: Option<u32>, clock: seq<Time>)
    returns (n: Counts, ghost log: seq<Event>)
    requires cache.Valid() && |clock| == |answers + authorities + additionals|
    modifies cache
    ensures cache.Valid()
    ensures Feeds(log, answers + authorities + additionals, source, clock) && Inserts(log)
    ensures LegalRun(cache.limits, old(cache.byKey), log)
    ensures cache.byKey == Run(cache.limits, old(cache.byKey), log)
    ensures n == Counted(cache.limits, old(cache.byKey), log)
  {
    n, log := FeedAll(cache, answers + authorities + additionals, source, clock);
    CountersCount(cache.limits, old(cache.byKey), log);
  }
}
