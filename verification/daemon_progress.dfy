/** What the daemon gets done: every heard response reaches the cache, housekeeping
    clears exactly what is over, announcements leave their stamps, and every handler can
    always go on and comes to an end. */
module DaemonProgress {
  import opened Records
  import opened Net
  import opened Services
  import opened Cache
  import opened CacheRuns
  import opened Tracker
  import opened Responder
  import opened Daemon
  import opened DaemonInv
  import opened DaemonRuns
  import opened DaemonAnswers

  // ---- responses reach the cache ----

  /** The records are inserted at the positions `at`, in order, under their source. */
  ghost predicate FedAt(log: seq<Event>, from: nat, source: Option<u32>, rs: seq<Record>, at: seq<nat>) {
    && |at| == |rs|
    && (forall j :: 0 <= j < |at| ==>
          from <= at[j] < |log| && log[at[j]].Insert? && log[at[j]].record == rs[j] && log[at[j]].source == source)
    && (forall j, m :: 0 <= j < m < |at| ==> at[j] < at[m])
  }

  lemma FedGrows(log: seq<Event>, log': seq<Event>, from: nat, source: Option<u32>, rs: seq<Record>, at: seq<nat>)
    requires log <= log' && FedAt(log, from, source, rs, at)
    ensures FedAt(log', from, source, rs, at)
  {
  }

  lemma FedOneMore(log: seq<Event>, e: Event, from: nat, source: Option<u32>, rs: seq<Record>, at: seq<nat>)
    requires FedAt(log, from, source, rs, at) && e.Insert? && e.source == source && from <= |log|
    ensures FedAt(log + [e], from, source, rs + [e.record], at + [|log|])
  {
  }

  /** What a step does to one response handler. */
  lemma IngestionStep(c: Config, s: State, a: Action, id: nat)
    requires Enabled(c, s, a) && id in s.ingestions
    ensures var g, s' := s.ingestions[id], Next(c, s, a);
            || (id in s'.ingestions && s'.ingestions[id] == g && s.cacheLog <= s'.cacheLog)
            || (id !in s'.ingestions && g.rest == [] && s'.cacheLog == s.cacheLog)
            || (&& a.Ingest? && g.rest != [] && id in s'.ingestions && s'.ingestions[id] == g.(rest := g.rest[1..])
                && s'.cacheLog == s.cacheLog + [Insert(g.rest[0], g.source, a.now, a.victim)])
            || (a.HearResponse? && id == s.nextId)
  {
    if a.By? { MoveGrows(c, s, a.id, a.move); MoveLeavesCache(c, s, a.id, a.move); }
  }

  lemma MoveLeavesCache(c: Config, s: State, id: nat, move: Move)
    requires id in s.handlers && MoveEnabled(c, s, move, s.handlers[id])
    ensures var after := AfterMove(c, s, id, move, s.handlers[id]);
            after.cacheLog == s.cacheLog && after.ingestions == s.ingestions && after.nextId == s.nextId
  {
  }

  /** The part already fed and the part still to feed make up the whole. */
  ghost predicate FedSoFar(s: State, id: nat, from: nat, g: Ingestion, fed: seq<Record>, at: seq<nat>) {
    && FedAt(s.cacheLog, from, g.source, fed, at) && from <= |s.cacheLog|
    && (if id in s.ingestions then s.ingestions[id].source == g.source && g.rest == fed + s.ingestions[id].rest else g.rest == fed)
  }

  lemma FedNext(c: Config, s: State, a: Action, id: nat, from: nat, g: Ingestion, fed: seq<Record>, at: seq<nat>)
    returns (fed': seq<Record>, at': seq<nat>)
    requires Enabled(c, s, a) && id in s.ingestions && id < s.nextId && FedSoFar(s, id, from, g, fed, at)
    ensures FedSoFar(Next(c, s, a), id, from, g, fed', at')
  {
    var s' := Next(c, s, a);
    IngestionStep(c, s, a, id);
    fed', at' := fed, at;
    if id in s'.ingestions && s'.ingestions[id] != s.ingestions[id] {
      var r := s.ingestions[id].rest[0];
      fed', at' := fed + [r], at + [|s.cacheLog|];
      FedOneMore(s.cacheLog, s'.cacheLog[|s.cacheLog|], from, g.source, fed, at);
      assert s.ingestions[id].rest == [r] + s'.ingestions[id].rest;
      assert fed + ([r] + s'.ingestions[id].rest) == fed + [r] + s'.ingestions[id].rest;
    } else {
      FedGrows(s.cacheLog, s'.cacheLog, from, g.source, fed, at);
      assert fed + [] == fed;
    }
  }

  /** Only a new response takes the next id. */
  lemma GoneStaysGone(c: Config, s: State, a: Action, id: nat)
    requires Enabled(c, s, a) && id !in s.ingestions && id < s.nextId
    ensures id !in Next(c, s, a).ingestions && s.cacheLog <= Next(c, s, a).cacheLog && id < Next(c, s, a).nextId
  {
    NextGrows(c, s, a);
    if a.By? { MoveLeavesCache(c, s, a.id, a.move); }
  }

  lemma {:induction false} FedUpTo(c: Config, actions: seq<Action>, states: seq<State>, m: nat, n: nat, id: nat)
    returns (fed: seq<Record>, at: seq<nat>)
    requires IsRun(c, actions, states) && m <= n <= |actions| && id in states[m].ingestions && id < states[m].nextId
    ensures id < states[n].nextId && FedSoFar(states[n], id, |states[m].cacheLog|, states[m].ingestions[id], fed, at)
    decreases n
  {
    var from, g := |states[m].cacheLog|, states[m].ingestions[id];
    if m == n {
      fed, at := [], [];
      assert [] + g.rest == g.rest;
    } else {
      fed, at := FedUpTo(c, actions, states, m, n - 1, id);
      RunStep(c, actions, states, n - 1);
      NextGrows(c, states[n - 1], actions[n - 1]);
      if id in states[n - 1].ingestions {
        fed, at := FedNext(c, states[n - 1], actions[n - 1], id, from, g, fed, at);
      } else {
        GoneStaysGone(c, states[n - 1], actions[n - 1], id);
        FedGrows(states[n - 1].cacheLog, states[n].cacheLog, from, g.source, fed, at);
      }
    }
  }

  /** Every response heard is put into the cache whole: once its handler is done, all its
      records have been inserted, in order and under the interface it came from. */
  lemma ResponsesReachTheCache(c: Config, actions: seq<Action>, states: seq<State>, j: nat, n: nat,
                               source: Option<u32>, records: seq<Record>) returns (at: seq<nat>)
    requires IsRun(c, actions, states) && j < n <= |actions| && actions[j] == HearResponse(source, records)
    requires states[j].nextId !in states[n].ingestions
    ensures FedAt(states[n].cacheLog, |states[j].cacheLog|, source, records, at)
  {
    RunStep(c, actions, states, j);
    var fed;
    fed, at := FedUpTo(c, actions, states, j + 1, n, states[j].nextId);
  }

  /** The record was in a response heard under this source. */
  ghost predicate HeardFrom(actions: seq<Action>, n: nat, source: Option<u32>, r: Record)
    requires n <= |actions|
  {
    exists j :: 0 <= j < n && actions[j].HearResponse? && actions[j].source == source && r in actions[j].records
  }

  ghost predicate AllHeard(actions: seq<Action>, s: State, n: nat)
    requires n <= |actions|
  {
    && (forall e :: e in s.cacheLog && e.Insert? ==> HeardFrom(actions, n, e.source, e.record))
    && (forall id, r :: id in s.ingestions && r in s.ingestions[id].rest ==> HeardFrom(actions, n, s.ingestions[id].source, r))
  }

  lemma HeardFromLater(actions: seq<Action>, n: nat, source: Option<u32>, r: Record)
    requires n < |actions|
    requires HeardFrom(actions, n, source, r) || (actions[n].HearResponse? && actions[n].source == source && r in actions[n].records)
    ensures HeardFrom(actions, n + 1, source, r)
  {
    if HeardFrom(actions, n, source, r) {
      var j :| 0 <= j < n && actions[j].HearResponse? && actions[j].source == source && r in actions[j].records;
    }
  }

  lemma EventOrigin(c: Config, s: State, a: Action, e: Event)
    requires Enabled(c, s, a) && e in Next(c, s, a).cacheLog && e !in s.cacheLog && e.Insert?
    ensures exists id :: id in s.ingestions && e.source == s.ingestions[id].source && e.record in s.ingestions[id].rest
  {
    if a.By? { MoveLeavesCache(c, s, a.id, a.move); }
    if a.Ingest? { assert s.ingestions[a.id].rest[0] in s.ingestions[a.id].rest; }
  }

  lemma RestOrigin(c: Config, s: State, a: Action, id: nat, r: Record)
    requires Enabled(c, s, a) && id in Next(c, s, a).ingestions && r in Next(c, s, a).ingestions[id].rest
    ensures var source := Next(c, s, a).ingestions[id].source;
            || (id in s.ingestions && s.ingestions[id].source == source && r in s.ingestions[id].rest)
            || (a.HearResponse? && a.source == source && r in a.records)
  {
    if a.By? { MoveLeavesCache(c, s, a.id, a.move); }
  }

  /** And nothing else is put into it. */
  lemma {:induction false} InsertsWereHeard(c: Config, actions: seq<Action>, states: seq<State>, n: nat)
    requires IsRun(c, actions, states) && n <= |actions|
    ensures AllHeard(actions, states[n], n)
    decreases n
  {
    if n > 0 {
      InsertsWereHeard(c, actions, states, n - 1);
      RunStep(c, actions, states, n - 1);
      HeardStep(c, actions, states[n - 1], states[n], n - 1);
    }
  }

  lemma HeardStep(c: Config, actions: seq<Action>, s: State, s': State, n: nat)
    requires n < |actions| && Enabled(c, s, actions[n]) && s' == Next(c, s, actions[n]) && AllHeard(actions, s, n)
    ensures AllHeard(actions, s', n + 1)
  {
    forall e | e in s'.cacheLog && e.Insert? ensures HeardFrom(actions, n + 1, e.source, e.record) {
      if e !in s.cacheLog {
        EventOrigin(c, s, actions[n], e);
        var id :| id in s.ingestions && e.source == s.ingestions[id].source && e.record in s.ingestions[id].rest;
        assert HeardFrom(actions, n, s.ingestions[id].source, e.record);
      }
      HeardFromLater(actions, n, e.source, e.record);
    }
    forall id, r | id in s'.ingestions && r in s'.ingestions[id].rest
      ensures HeardFrom(actions, n + 1, s'.ingestions[id].source, r)
    {
      RestOrigin(c, s, actions[n], id, r);
      HeardFromLater(actions, n, s'.ingestions[id].source, r);
    }
  }

  // ---- housekeeping and announcements ----

  /** A sweep leaves exactly the entries that are not over; a prune exactly the stamps
      less than a second old; an announcement its stamp at its reading. Nothing else
      changes. */
  lemma Housekeeping(c: Config, s: State, now: Time)
    ensures var s' := Next(c, s, Sweep(now));
            && s' == s.(cacheLog := s'.cacheLog)
            && forall k :: (k in CacheTable(c, s') <==> k in CacheTable(c, s) && now < CacheTable(c, s)[k].deadline)
                           && (k in CacheTable(c, s') ==> CacheTable(c, s')[k] == CacheTable(c, s)[k])
    ensures var s' := Next(c, s, PruneStamps(now));
            && s' == s.(ops := s'.ops)
            && forall slot :: (slot in Stamped(s'.ops, true) <==>
                               slot in Stamped(s.ops, true) && now < Stamped(s.ops, true)[slot] + 1 * SECOND)
                              && (slot in Stamped(s'.ops, true) ==> Stamped(s'.ops, true)[slot] == Stamped(s.ops, true)[slot])
  {
    var swept, pruned := s.cacheLog + [Tick(now, true)], s.ops + [Prune(now)];
    assert swept[..|s.cacheLog|] == s.cacheLog && pruned[..|s.ops|] == s.ops;
  }

  lemma AnnouncementsStamp(c: Config, s: State, i: nat, r: Record, now: Time)
    requires WellFormed(c.published) && i < |c.ifaces|
    ensures Enabled(c, s, AnnounceMark(i, r, now)) <==> OwnRecord(r, c.published, c.ifaces[i]) && r.flush
    ensures Enabled(c, s, AnnounceMark(i, r, now)) ==>
              var s' := Next(c, s, AnnounceMark(i, r, now));
              && s' == s.(ops := s'.ops)
              && Stamped(s'.ops, true) == Stamped(s.ops, true)[Slot(c.ifaces[i].ifindex, KeyOf(r)) := now]
  {
    UniqueIsOwnFlush(c.published, c.ifaces[i], r);
    var marked := s.ops + [Mark(Slot(c.ifaces[i].ifindex, KeyOf(r)), now)];
    assert marked[..|s.ops|] == s.ops;
  }

  // ---- permits, and going on ----

  /** A datagram is taken up exactly while fewer than 256 are in hand; a query needs a
      question. */
  lemma TakenUpIff(c: Config, s: State, source: Option<u32>, records: seq<Record>, i: nat, msg: Message)
    ensures Enabled(c, s, HearResponse(source, records)) <==> |s.handlers| + |s.ingestions| < 256
    ensures Enabled(c, s, HearQuery(i, msg)) <==>
              |s.handlers| + |s.ingestions| < 256 && i < |c.ifaces| && msg.queries != []
  {
  }

  lemma SomeListing(view: map<RecordKey, Record>) returns (rs: seq<Record>)
    requires forall k :: k in view ==> KeyOf(view[k]) == k
    ensures Lists(rs, view)
    decreases |view|
  {
    if view == map[] {
      rs := [];
    } else {
      var k :| k in view;
      var rest := view - {k};
      assert view.Keys == rest.Keys + {k};
      var some := SomeListing(rest);
      rs := some + [view[k]];
      assert DistinctKeys(rs) by {
        assert KeyOf(view[k]) !in KeysOf(some);
        DistinctSnoc(some, view[k]);
      }
      assert forall x :: x in view ==> x == k || x in rest;
    }
  }

  lemma LookupFinds(c: Config, s: State, i: nat, name: Name, rtype: RecordType, now: Time) returns (found: seq<Record>)
    requires i < |c.ifaces|
    ensures Found(c, s, i, name, rtype, now, found)
  {
    WellKeyedRun(c.limits, s.cacheLog);
    found := SomeListing(OtherView(CacheTable(c, s), name, rtype, c.ifaces[i].ifindex, now));
  }

  lemma SomeDelay(kind: DelayClass) returns (delay: nat)
    ensures DelayAllowed(kind, delay)
  {
    delay := match kind
      case ProbeDefense => 0
      case UniqueAnswer => 0
      case Shared => 20 * MILLISECOND
      case Truncated => 400 * MILLISECOND;
  }

  lemma GatheringCanMove(c: Config, s: State, h: Handler) returns (move: Move)
    requires h.Gathering? && h.i < |c.ifaces| && h.next <= |h.msg.queries|
    ensures MoveEnabled(c, s, move, h)
  {
    if h.next == |h.msg.queries| {
      move := Suppress;
    } else {
      var found: seq<Record> := [];
      var q := h.msg.queries[h.next];
      if c.fromCache { found := LookupFinds(c, s, h.i, q.name, q.qtype, 0); }
      move := Prepare(Gather(0, found));
    }
  }

  lemma AddingCanMove(c: Config, s: State, h: Handler) returns (move: Move)
    requires h.Adding? && h.i < |c.ifaces|
    ensures MoveEnabled(c, s, move, h)
  {
    if h.todo != [] {
      var found := LookupFinds(c, s, h.i, h.todo[0].name, h.todo[0].rtype, 0);
      move := Prepare(Add(0, found));
    } else if !h.second {
      move := Prepare(SecondPass);
    } else {
      var delay := SomeDelay(ClassifyDelay(h.msg, h.answers, Defends(c, h.i, h.msg)));
      move := Prepare(Delay(0, delay));
    }
  }

  /** No handler is ever stuck. */
  lemma HandlersCanMove(c: Config, actions: seq<Action>, states: seq<State>, n: nat, id: nat) returns (move: Move)
    requires WellFormed(c.published) && IsRun(c, actions, states) && n <= |actions| && id in states[n].handlers
    ensures Enabled(c, states[n], By(id, move))
  {
    RunKeepsAccounts(c, actions, states, n);
    var s, h := states[n], states[n].handlers[id];
    assert HandlerAccount(c, LogsOf(s), id, h);
    match h
    case Gathering(_, _, _, _) => move := GatheringCanMove(c, s, h);
    case Adding(_, _, _, _, _, _) => move := AddingCanMove(c, s, h);
    case Sleeping(_, _, _, _, _, until) => move := Prepare(Wake(until));
    case CheckingAnswers(_, _, _, woke, _, rest, _) => move := if rest == [] then AnswersChecked else CheckAnswer(woke);
    case CheckingAdds(_, _, _, woke, _, _, rest) => move := if rest == [] then Send else CheckAdd(woke);
  }

  /** How far a handler has to go: its phase, and what is left of it. */
  function Phase(h: Handler): nat {
    match h
    case Gathering(_, _, _, _) => 5
    case Adding(_, _, _, _, _, second) => if second then 3 else 4
    case Sleeping(_, _, _, _, _, _) => 2
    case CheckingAnswers(_, _, _, _, _, _, _) => 1
    case CheckingAdds(_, _, _, _, _, _, _) => 0
  }

  function Left(h: Handler): int {
    match h
    case Gathering(_, msg, next, _) => |msg.queries| - next
    case Adding(_, _, _, _, todo, _) => |todo|
    case Sleeping(_, _, _, _, _, _) => 0
    case CheckingAnswers(_, _, _, _, _, rest, _) => |rest|
    case CheckingAdds(_, _, _, _, _, _, rest) => |rest|
  }

  /** Every move brings its handler closer to its end, so every query handler ends after
      finitely many of its own moves. */
  lemma MovesLeadToTheEnd(c: Config, s: State, id: nat, move: Move)
    requires id in s.handlers && MoveEnabled(c, s, move, s.handlers[id])
    ensures var h, after := s.handlers[id], AfterMove(c, s, id, move, s.handlers[id]).handlers;
            id in after ==>
              Phase(after[id]) < Phase(h) || (Phase(after[id]) == Phase(h) && 0 <= Left(after[id]) < Left(h))
  {
  }
}
