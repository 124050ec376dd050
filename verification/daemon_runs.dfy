/** What holds over every run of the daemon, whatever its handlers, announcements,
    sweeps and prunes do between each other's steps. */
module DaemonRuns {
  import opened Records
  import opened Net
  import opened Services
  import opened Cache
  import opened CacheCalls
  import opened CacheRuns
  import opened Tracker
  import opened Responder
  import opened Daemon
  import opened DaemonInv

  lemma {:induction false} RunKeepsInv(c: Config, actions: seq<Action>, states: seq<State>, n: nat)
    requires WellFormed(c.published) && IsRun(c, actions, states) && n <= |actions|
    ensures Inv(c, states[n])
  {
    if n == 0 {
      assert forall id: nat :: AcceptedBy([], id) == [];
    } else {
      RunKeepsInv(c, actions, states, n - 1);
      StepKeepsInv(c, states[n - 1], actions[n - 1]);
    }
  }

  // ---- split horizon ----

  /** Read `x` of the handler could relay `r`, and insertion `j` is what the cache had
      learned it from, on another interface. */
  ghost predicate LearnedAt(c: Config, log: seq<Event>, seen: seq<Read>, id: nat, i: nat, r: Record, x: int, j: int)
    requires i < |c.ifaces|
  {
    && RelayedBy(c, log, seen, id, i, r, x)
    && LatestAttribution(c.limits, log[..seen[x].at], KeyOf(r), j)
    && log[j].source.Some? && log[j].source.value != c.ifaces[i].ifindex
  }

  ghost predicate LearnedElsewhere(c: Config, log: seq<Event>, seen: seq<Read>, id: nat, i: nat, r: Record)
    requires i < |c.ifaces|
  {
    exists x, j :: LearnedAt(c, log, seen, id, i, r, x, j)
  }

  lemma RelayedIsLearned(c: Config, log: seq<Event>, seen: seq<Read>, id: nat, i: nat, r: Record, x: int)
    requires i < |c.ifaces| && LegalRun(c.limits, map[], log) && RelayedBy(c, log, seen, id, i, r, x)
    ensures LearnedElsewhere(c, log, seen, id, i, r)
  {
    var past := log[..seen[x].at];
    LegalPrefix(c.limits, map[], log, seen[x].at);
    SourceIsLatestAttribution(c.limits, past, KeyOf(r));
    var source := Run(c.limits, map[], past)[KeyOf(r)].source;
    assert source == Some(source.value);
    var j :| LatestAttribution(c.limits, past, KeyOf(r), j) && past[j].source == Some(source.value);
    assert LearnedAt(c, log, seen, id, i, r, x, j);
  }

  /** In every state of every interleaving at most 256 handlers run, and each response
      sent carries distinct records: the interface's own, or ones that a lookup of that
      very handler found alive, with cache-flush cleared, and that the cache had
      learned last on another interface. */
  lemma ResponsesRespectTheHorizon(c: Config, actions: seq<Action>, states: seq<State>, n: nat, p: Packet)
    requires WellFormed(c.published) && IsRun(c, actions, states) && n <= |actions|
    ensures |states[n].handlers| + |states[n].ingestions| <= 256
    ensures p in states[n].wire ==>
              && p.i < |c.ifaces| && p.answers != [] && DistinctKeys(p.answers + p.adds)
              && forall r :: r in p.answers + p.adds ==>
                   || OwnRecord(r, c.published, c.ifaces[p.i])
                   || (!r.flush && LearnedElsewhere(c, states[n].cacheLog, states[n].lookups, p.handler, p.i, r))
  {
    RunKeepsInv(c, actions, states, n);
    var s := states[n];
    if p in s.wire {
      assert PacketRecords(c, s.cacheLog, s.lookups, p);
      forall r | r in p.answers + p.adds && !OwnRecord(r, c.published, c.ifaces[p.i])
        ensures !r.flush && LearnedElsewhere(c, s.cacheLog, s.lookups, p.handler, p.i, r)
      {
        assert Sendable(c, s.cacheLog, s.lookups, p.handler, p.i, r);
        var x :| RelayedBy(c, s.cacheLog, s.lookups, p.handler, p.i, r, x);
        RelayedIsLearned(c, s.cacheLog, s.lookups, p.handler, p.i, r, x);
      }
    }
  }

  // ---- a response answers its query ----

  predicate IsDelay(a: Action, id: nat, drawn: Time) {
    a.By? && a.id == id && a.move.Prepare? && a.move.p.Delay? && a.move.p.now == drawn
  }

  predicate HasDrawn(h: Handler) {
    h.Sleeping? || Checks(h)
  }

  /** Handler `id` was started by this query. */
  ghost predicate HeardBy(actions: seq<Action>, states: seq<State>, n: nat, id: nat, i: nat, msg: Message)
    requires |states| == |actions| + 1 && n <= |actions|
  {
    exists j :: 0 <= j < n && actions[j] == HearQuery(i, msg) && states[j].nextId == id
  }

  ghost predicate DrewAt(actions: seq<Action>, n: nat, id: nat, drawn: Time)
    requires n <= |actions|
  {
    exists j :: 0 <= j < n && IsDelay(actions[j], id, drawn)
  }

  ghost predicate AllTraced(actions: seq<Action>, states: seq<State>, n: nat)
    requires |states| == |actions| + 1 && n <= |actions|
  {
    && (forall id :: id in states[n].handlers ==>
          var h := states[n].handlers[id];
          HeardBy(actions, states, n, id, h.i, h.msg) && (HasDrawn(h) ==> DrewAt(actions, n, id, h.drawn)))
    && (forall p :: p in states[n].wire ==>
          HeardBy(actions, states, n, p.handler, p.i, p.msg) && DrewAt(actions, n, p.handler, p.drawn))
  }

  /** A handler that moved still answers its query, and drew its delay before or now. */
  ghost predicate Continues(h: Handler, h': Handler, a: Action, id: nat) {
    && h'.i == h.i && h'.msg == h.msg
    && (HasDrawn(h') ==> (HasDrawn(h) && h'.drawn == h.drawn) || IsDelay(a, id, h'.drawn))
  }

  lemma PreparedContinues(c: Config, s: State, id: nat, p: Preparation, h: Handler)
    requires h.i < |c.ifaces| && PreparationEnabled(c, s, p, h)
    ensures Continues(h, Prepared(c, s, p, h), By(id, Prepare(p)), id)
  {
  }

  lemma MoveContinues(c: Config, s: State, id: nat, move: Move)
    requires id in s.handlers && MoveEnabled(c, s, move, s.handlers[id])
    ensures var after := AfterMove(c, s, id, move, s.handlers[id]).handlers;
            && after.Keys <= s.handlers.Keys
            && (forall other :: other in after && other != id ==> after[other] == s.handlers[other])
            && (id in after ==> Continues(s.handlers[id], after[id], By(id, move), id))
  {
    if move.Prepare? { PreparedContinues(c, s, id, move.p, s.handlers[id]); }
  }

  /** How a handler stems from the state before. */
  lemma HandlerOrigin(c: Config, s: State, a: Action, id: nat)
    requires Enabled(c, s, a) && id in Next(c, s, a).handlers
    ensures var h' := Next(c, s, a).handlers[id];
            || (a.HearQuery? && id == s.nextId && h' == Handler.Gathering(a.i, a.msg, 0, []))
            || (id in s.handlers && Continues(s.handlers[id], h', a, id))
  {
    if a.By? { MoveContinues(c, s, a.id, a.move); }
  }

  lemma PacketOrigin(c: Config, s: State, a: Action, p: Packet)
    requires Enabled(c, s, a) && p in Next(c, s, a).wire && p !in s.wire
    ensures p.handler in s.handlers
    ensures var h := s.handlers[p.handler]; Checks(h) && p.i == h.i && p.msg == h.msg && p.drawn == h.drawn
  {
  }

  lemma HeardLater(actions: seq<Action>, states: seq<State>, n: nat, id: nat, i: nat, msg: Message)
    requires |states| == |actions| + 1 && n < |actions| && HeardBy(actions, states, n, id, i, msg)
    ensures HeardBy(actions, states, n + 1, id, i, msg)
  {
    var j :| 0 <= j < n && actions[j] == HearQuery(i, msg) && states[j].nextId == id;
  }

  lemma DrewLater(actions: seq<Action>, n: nat, id: nat, drawn: Time)
    requires n < |actions| && (DrewAt(actions, n, id, drawn) || IsDelay(actions[n], id, drawn))
    ensures DrewAt(actions, n + 1, id, drawn)
  {
    if DrewAt(actions, n, id, drawn) {
      var j :| 0 <= j < n && IsDelay(actions[j], id, drawn);
    }
  }

  lemma TraceHandler(c: Config, actions: seq<Action>, states: seq<State>, n: nat, id: nat)
    requires IsRun(c, actions, states) && n < |actions| && AllTraced(actions, states, n) && id in states[n + 1].handlers
    ensures var h := states[n + 1].handlers[id];
            HeardBy(actions, states, n + 1, id, h.i, h.msg) && (HasDrawn(h) ==> DrewAt(actions, n + 1, id, h.drawn))
  {
    var h := states[n + 1].handlers[id];
    HandlerOrigin(c, states[n], actions[n], id);
    if id in states[n].handlers && h.i == states[n].handlers[id].i && h.msg == states[n].handlers[id].msg {
      HeardLater(actions, states, n, id, h.i, h.msg);
    }
    if HasDrawn(h) { DrewLater(actions, n, id, h.drawn); }
  }

  lemma TracePacket(c: Config, actions: seq<Action>, states: seq<State>, n: nat, p: Packet)
    requires IsRun(c, actions, states) && n < |actions| && AllTraced(actions, states, n) && p in states[n + 1].wire
    ensures HeardBy(actions, states, n + 1, p.handler, p.i, p.msg) && DrewAt(actions, n + 1, p.handler, p.drawn)
  {
    if p !in states[n].wire { PacketOrigin(c, states[n], actions[n], p); }
    HeardLater(actions, states, n, p.handler, p.i, p.msg);
    DrewLater(actions, n, p.handler, p.drawn);
  }

  lemma {:induction false} RunIsTraced(c: Config, actions: seq<Action>, states: seq<State>, n: nat)
    requires IsRun(c, actions, states) && n <= |actions|
    ensures AllTraced(actions, states, n)
  {
    if n > 0 {
      RunIsTraced(c, actions, states, n - 1);
      forall id | id in states[n].handlers
        ensures var h := states[n].handlers[id];
                HeardBy(actions, states, n, id, h.i, h.msg) && (HasDrawn(h) ==> DrewAt(actions, n, id, h.drawn))
      {
        TraceHandler(c, actions, states, n - 1, id);
      }
      forall p | p in states[n].wire
        ensures HeardBy(actions, states, n, p.handler, p.i, p.msg) && DrewAt(actions, n, p.handler, p.drawn)
      {
        TracePacket(c, actions, states, n - 1, p);
      }
    }
  }

  /** Every response answers a query that was heard on its interface by its handler:
      each answer matches a question, and none is known to the querier with half of
      its TTL left. */
  lemma ResponsesAnswerTheirQuery(c: Config, actions: seq<Action>, states: seq<State>, n: nat, p: Packet)
    requires WellFormed(c.published) && IsRun(c, actions, states) && n <= |actions| && p in states[n].wire
    ensures HeardBy(actions, states, n, p.handler, p.i, p.msg)
    ensures forall r :: r in p.answers ==> AnswersQuery(p.msg, r) && !Known(r, p.msg.answers)
  {
    RunKeepsInv(c, actions, states, n);
    RunIsTraced(c, actions, states, n);
    assert PacketRecords(c, states[n].cacheLog, states[n].lookups, p);
  }

  /** Outside probe defence a response waits before it asks the limiter for its first
      record, counted from when its handler drew the delay: 400 ms when the query was
      truncated, 20 ms when it asked several questions or an answer is not this
      daemon's own unique record. */
  lemma ResponsesWait(c: Config, actions: seq<Action>, states: seq<State>, n: nat, p: Packet)
    requires WellFormed(c.published) && IsRun(c, actions, states) && n <= |actions| && p in states[n].wire
    ensures p.i < |c.ifaces| && DrewAt(actions, n, p.handler, p.drawn)
    ensures forall a :: CheckBy(states[n].ops, a, p.handler) && !Probes(c, p.i, p.msg) ==>
              && (p.msg.truncated ==> p.drawn + 400 * MILLISECOND <= states[n].ops[a].now)
              && (|p.msg.queries| != 1 ==> p.drawn + 20 * MILLISECOND <= states[n].ops[a].now)
              && ((exists r :: r in p.answers && (!r.flush || !OwnRecord(r, c.published, c.ifaces[p.i]))) ==>
                    p.drawn + 20 * MILLISECOND <= states[n].ops[a].now)
  {
    RunKeepsInv(c, actions, states, n);
    RunIsTraced(c, actions, states, n);
    PacketWaits(c, states[n].cacheLog, states[n].lookups, states[n].ops, p);
    DefendsIff(c, p.i, p.msg);
  }

  lemma PacketWaits(c: Config, log: seq<Event>, seen: seq<Read>, ops: seq<Op>, p: Packet)
    requires PacketRecords(c, log, seen, p) && PacketOps(c, ops, p)
    ensures forall a :: CheckBy(ops, a, p.handler) && !Defends(c, p.i, p.msg) ==>
              && (p.msg.truncated ==> p.drawn + 400 * MILLISECOND <= ops[a].now)
              && (|p.msg.queries| != 1 ==> p.drawn + 20 * MILLISECOND <= ops[a].now)
              && ((exists r :: r in p.answers && (!r.flush || !OwnRecord(r, c.published, c.ifaces[p.i]))) ==>
                    p.drawn + 20 * MILLISECOND <= ops[a].now)
  {
    forall r | r in p.answers && !OwnRecord(r, c.published, c.ifaces[p.i]) ensures !r.flush {
      assert r in p.answers + p.adds && Sendable(c, log, seen, p.handler, p.i, r);
    }
  }

  // ---- the rate limiter ----

  /** The slots a handler stamps are, in order, exactly the records of the response
      it sends; one that ends without sending has stamped nothing; and none is
      refused a record because of its own stamps, since it asks only once. */
  lemma StampsAreTheResponse(c: Config, actions: seq<Action>, states: seq<State>, n: nat)
    requires WellFormed(c.published) && IsRun(c, actions, states) && n <= |actions|
    ensures forall p :: p in states[n].wire ==>
              && p.i < |c.ifaces|
              && AcceptedBy(states[n].ops, p.handler) == SlotsOf(c.ifaces[p.i].ifindex, p.answers + p.adds)
              && AsksOnce(states[n].ops, p.handler, c.ifaces[p.i].ifindex, [])
    ensures forall id: nat :: id !in states[n].handlers && !Sent(states[n].wire, id) ==> AcceptedBy(states[n].ops, id) == []
  {
    RunKeepsInv(c, actions, states, n);
    forall p | p in states[n].wire ensures PacketOps(c, states[n].ops, p) {}
  }

  lemma {:induction false} AcceptedAt(ops: seq<Op>, id: nat, slot: Slot) returns (at: nat)
    requires slot in AcceptedBy(ops, id)
    ensures CheckBy(ops, at, id) && PutsStamp(ops, at, true) && ops[at].slot == slot
  {
    var n := |ops| - 1;
    if CheckBy(ops, n, id) && PutsStamp(ops, n, true) && ops[n].slot == slot {
      at := n;
    } else {
      at := AcceptedAt(ops[..n], id, slot);
      assert ops[..n][..at] == ops[..at];
    }
  }

  /** Operation `at` is the stamp that let response `p` carry `r`. */
  ghost predicate StampOf(c: Config, ops: seq<Op>, p: Packet, r: Record, at: int)
    requires p.i < |c.ifaces|
  {
    && CheckBy(ops, at, p.handler) && PutsStamp(ops, at, true)
    && ops[at].slot == Slot(c.ifaces[p.i].ifindex, KeyOf(r))
  }

  lemma SentIsStamped(c: Config, s: State, p: Packet, r: Record) returns (at: nat)
    requires Inv(c, s) && p in s.wire && r in p.answers + p.adds
    ensures p.i < |c.ifaces| && StampOf(c, s.ops, p, r, at) && s.ops[at].interval == IntervalFor(c, p.i, p.msg)
  {
    assert PacketOps(c, s.ops, p);
    var rs := p.answers + p.adds;
    var j :| 0 <= j < |rs| && rs[j] == r;
    var slots := SlotsOf(c.ifaces[p.i].ifindex, rs);
    assert slots[j] in slots;
    at := AcceptedAt(s.ops, p.handler, Slot(c.ifaces[p.i].ifindex, KeyOf(r)));
  }

  /** `later` leaves the gap section 6 of RFC 6762 asks for after `earlier`: a second,
      or a quarter of one when the query was a probe for a record of this interface. */
  ghost predicate Spaced(c: Config, p: Packet, earlier: Time, later: Time)
    requires p.i < |c.ifaces|
  {
    && earlier + 250 * MILLISECOND <= later
    && (!Probes(c, p.i, p.msg) ==> earlier + 1 * SECOND <= later)
  }

  /** Section 6 of RFC 6762 over every interleaving of handlers, announcements and
      prunes: each record of each response was stamped with the full gap after every
      earlier stamp of that record on that interface, whether left by another response
      or by an announcement. */
  lemma ResponseIsSpaced(c: Config, actions: seq<Action>, states: seq<State>, n: nat, p: Packet, r: Record)
    returns (at: nat)
    requires WellFormed(c.published) && IsRun(c, actions, states) && n <= |actions|
    requires InOrder(states[n].ops) && MarksForward(states[n].ops)
    requires p in states[n].wire && r in p.answers + p.adds
    ensures p.i < |c.ifaces| && StampOf(c, states[n].ops, p, r, at)
    ensures var ops := states[n].ops;
            forall a :: 0 <= a < at && PutsStamp(ops, a, true) && ops[a].slot == ops[at].slot ==>
              Spaced(c, p, ops[a].now, ops[at].now)
  {
    RunKeepsInv(c, actions, states, n);
    at := SentIsStamped(c, states[n], p, r);
    SpacedFrom(states[n].ops, at);
    DefendsIff(c, p.i, p.msg);
  }

  lemma SpacedFrom(ops: seq<Op>, at: nat)
    requires AllLawful(ops) && InOrder(ops) && MarksForward(ops)
    requires at < |ops| && ops[at].Check? && PutsStamp(ops, at, true)
    ensures forall a :: 0 <= a < at && PutsStamp(ops, a, true) && ops[a].slot == ops[at].slot ==>
                          ops[at].now >= ops[a].now + ops[at].interval
  {
    assert PositiveIntervals(ops);
    forall a | 0 <= a < at && PutsStamp(ops, a, true) && ops[a].slot == ops[at].slot
      ensures ops[at].now >= ops[a].now + ops[at].interval
    {
      StampsAreSpaced(ops, a, at);
    }
  }

  /** Two responses never share a stamp, so of any two with the same record on the
      same interface one was stamped for it with the full gap after the other. */
  lemma ResponsesAreSpaced(c: Config, actions: seq<Action>, states: seq<State>, n: nat, x: nat, y: nat, rx: Record, ry: Record)
    returns (ax: nat, ay: nat)
    requires WellFormed(c.published) && IsRun(c, actions, states) && n <= |actions|
    requires InOrder(states[n].ops) && MarksForward(states[n].ops)
    requires x < |states[n].wire| && y < |states[n].wire| && x != y
    requires var p, q := states[n].wire[x], states[n].wire[y];
             && p.i < |c.ifaces| && q.i < |c.ifaces| && c.ifaces[p.i].ifindex == c.ifaces[q.i].ifindex
             && rx in p.answers + p.adds && ry in q.answers + q.adds && KeyOf(rx) == KeyOf(ry)
    ensures var ops, p, q := states[n].ops, states[n].wire[x], states[n].wire[y];
            && StampOf(c, ops, p, rx, ax) && StampOf(c, ops, q, ry, ay) && ax != ay
            && (Spaced(c, q, ops[ax].now, ops[ay].now) || Spaced(c, p, ops[ay].now, ops[ax].now))
  {
    var p, q := states[n].wire[x], states[n].wire[y];
    ax := ResponseIsSpaced(c, actions, states, n, p, rx);
    ay := ResponseIsSpaced(c, actions, states, n, q, ry);
    assert p.handler != q.handler by { RunKeepsInv(c, actions, states, n); }
  }

  // ---- gathering and completing ----

  /** One question adds exactly the interface's own records and what can be relayed. */
  lemma GatherAddsExactly(c: Config, s: State, id: nat, p: Preparation, h: Handler)
    requires p.Gather? && HandlerRecords(c, s.cacheLog, s.lookups, id, h) && PreparationEnabled(c, s, p, h)
    ensures var q := h.msg.queries[h.next];
            var relayed := OtherView(CacheTable(c, s), q.name, q.qtype, c.ifaces[h.i].ifindex, p.now).Keys;
            var gathered := KeysOf(Own(c.published, q, c.ifaces[h.i])) + (if c.fromCache then relayed else {});
            KeysOf(Prepared(c, s, p, h).answers) == KeysOf(h.answers) + gathered
  {
    var q := h.msg.queries[h.next];
    var own := Own(c.published, q, c.ifaces[h.i]);
    PushNewKeeps(h.answers, {}, own);
    PushNewKeeps(PushNew(h.answers, {}, own), {}, p.found);
    if c.fromCache {
      WellKeyedRun(c.limits, s.cacheLog);
      OtherViewIsRelayable(CacheTable(c, s), q.name, q.qtype, c.ifaces[h.i].ifindex, p.now, p.found);
    }
  }

  /** At each lookup the handler made for additionals, `always` was available and
      nothing outside `ever` was. */
  ghost predicate ReadsBetween(c: Config, log: seq<Event>, seen: seq<Read>, id: nat, i: nat, always: set<RecordKey>, ever: set<RecordKey>)
    requires i < |c.ifaces|
  {
    forall x :: ReadBy(log, seen, id, x) && seen[x].adding ==>
                  always <= Available(TableAt(c, log, seen[x]), c.ifaces[i].ifindex, seen[x].now) <= ever
  }

  lemma RelayableIsAvailable(r: Record, m: Cache.Table, arrival: u32, now: Time)
    requires Relayable(r, m, arrival, now)
    ensures KeyOf(r) in Available(m, arrival, now)
  {
    RemainingTtlIsCeiling(m[KeyOf(r)], now);
  }

  lemma WantedIsEver(c: Config, log: seq<Event>, seen: seq<Read>, id: nat, i: nat, r: Record, asked: seq<Lookup>,
                     always: set<RecordKey>, ever: set<RecordKey>)
    requires i < |c.ifaces| && ReadsBetween(c, log, seen, id, i, always, ever) && Wanted(c, log, seen, id, i, r, asked)
    ensures KeyOf(r) in ever && AskedFor(asked, KeyOf(r))
  {
    var x :| RelayedBy(c, log, seen, id, i, r, x) && seen[x].adding && seen[x].lookup in asked;
    RelayableIsAvailable(r, TableAt(c, log, seen[x]), c.ifaces[i].ifindex, seen[x].now);
  }

  lemma ServedIsHeld(c: Config, log: seq<Event>, seen: seq<Read>, id: nat, i: nat, asked: seq<Lookup>, held: set<RecordKey>,
                     a: RecordKey, always: set<RecordKey>, ever: set<RecordKey>)
    requires i < |c.ifaces| && ReadsBetween(c, log, seen, id, i, always, ever)
    requires AllServed(c, log, seen, id, i, asked, [], held) && a in always && AskedFor(asked, a)
    ensures a in held
  {
    var l :| l in asked && Asks(l, a);
    var x :| ServedBy(c, log, seen, id, i, l, held, x);
  }

  /** A caller among answers and additionals has its lookup on the list. */
  lemma CallerAsks(answers: seq<Record>, adds: seq<Record>, r: Record, a: RecordKey)
    requires r in answers + adds && CallsFor(KeyOf(r), a)
    requires r.data.PtrData? ==> r in answers
    ensures AskedFor(Asked(answers, adds, true), a)
  {
    if r.data.PtrData? {
      var j :| 0 <= j < |answers| && answers[j] == r;
      assert CalledBy(answers, |answers|, true, a);
      PtrLookupsAsk(answers, a);
    } else {
      var rs := answers + adds;
      var j :| 0 <= j < |rs| && rs[j] == r;
      assert CalledBy(rs, |rs|, false, a);
      SrvLookupsAsk(rs, a);
    }
    assert forall l :: l in PtrLookups(answers) || l in SrvLookups(answers + adds) ==> l in Asked(answers, adds, true);
  }

  /** An additional is asked for by a lookup of its own type. */
  lemma AskedHow(answers: seq<Record>, adds: seq<Record>, k: RecordKey)
    requires AskedFor(Asked(answers, adds, true), k)
    ensures k.rtype == SRV || k.rtype == TXT || k.rtype == A || k.rtype == AAAA
    ensures k.rtype == SRV || k.rtype == TXT ==> CalledBy(answers, |answers|, true, k)
    ensures k.rtype == A || k.rtype == AAAA ==> CalledBy(answers + adds, |answers + adds|, false, k)
  {
    var l :| l in Asked(answers, adds, true) && Asks(l, k);
    LookupTypes(answers);
    LookupTypes(answers + adds);
    PtrLookupsAsk(answers, k);
    SrvLookupsAsk(answers + adds, k);
    assert l in PtrLookups(answers) || l in SrvLookups(answers + adds);
  }

  lemma AddsAreClosed(c: Config, log: seq<Event>, seen: seq<Read>, id: nat, i: nat, answers: seq<Record>, adds: seq<Record>,
                      always: set<RecordKey>, ever: set<RecordKey>)
    requires c.fromCache && i < |c.ifaces| && Progress(c, log, seen, id, i, answers, adds, [], true)
    requires ReadsBetween(c, log, seen, id, i, always, ever)
    ensures Closed(KeysOf(answers) + KeysOf(adds), always)
  {
    var held := KeysOf(answers) + KeysOf(adds);
    KeysOfConcat(answers, adds);
    forall k, a | k in held && a in always && CallsFor(k, a) ensures a in held {
      var r :| r in answers + adds && KeyOf(r) == k;
      if r in adds {
        WantedIsEver(c, log, seen, id, i, r, Asked(answers, adds, true), always, ever);
        AskedHow(answers, adds, KeyOf(r));
      }
      CallerAsks(answers, adds, r, a);
      ServedIsHeld(c, log, seen, id, i, Asked(answers, adds, true), held, a, always, ever);
    }
  }

  /** A set closed under what was ever available holds an additional, if it holds
      the answers and, for an address, the additional SRVs. */
  lemma AddIsReached(answers: seq<Record>, adds: seq<Record>, k: RecordKey, ever: set<RecordKey>, x: set<RecordKey>)
    requires KeysOf(answers) <= x && Closed(x, ever) && k in ever && AskedFor(Asked(answers, adds, true), k)
    requires k.rtype == A || k.rtype == AAAA ==> forall r :: r in adds && r.data.SrvData? ==> KeyOf(r) in x
    ensures k in x
  {
    AskedHow(answers, adds, k);
    if k.rtype == SRV || k.rtype == TXT {
      var j :| 0 <= j < |answers| && answers[j].data.PtrData? && CallsFor(KeyOf(answers[j]), k);
      assert answers[j] in answers;
      assert KeyOf(answers[j]) in KeysOf(answers);
    } else {
      var rs := answers + adds;
      var j :| 0 <= j < |rs| && rs[j].data.SrvData? && CallsFor(KeyOf(rs[j]), k);
      assert rs[j] in rs;
      assert rs[j] in answers ==> KeyOf(rs[j]) in KeysOf(answers);
    }
  }

  lemma AddsAreLeast(c: Config, log: seq<Event>, seen: seq<Read>, id: nat, i: nat, answers: seq<Record>, adds: seq<Record>,
                     always: set<RecordKey>, ever: set<RecordKey>, x: set<RecordKey>)
    requires c.fromCache && i < |c.ifaces| && Progress(c, log, seen, id, i, answers, adds, [], true)
    requires ReadsBetween(c, log, seen, id, i, always, ever)
    requires KeysOf(answers) <= x && Closed(x, ever)
    ensures KeysOf(adds) <= x && KeysOf(adds) <= ever
  {
    forall r | r in adds && r.data.SrvData? ensures KeyOf(r) in x {
      WantedIsEver(c, log, seen, id, i, r, Asked(answers, adds, true), always, ever);
      AddIsReached(answers, adds, KeyOf(r), ever, x);
    }
    forall r | r in adds ensures KeyOf(r) in x && KeyOf(r) in ever {
      WantedIsEver(c, log, seen, id, i, r, Asked(answers, adds, true), always, ever);
      AddIsReached(answers, adds, KeyOf(r), ever, x);
    }
  }

  /** In every run, a handler that has made its lookups, whatever went into the cache
      or out of it between them, has completed its answers as section 12 of RFC 6763
      asks: closed under all that was available throughout, and within the least set
      closed under what was available at some lookup. */
  lemma HandlerCompletes(c: Config, actions: seq<Action>, states: seq<State>, n: nat, id: nat,
                         always: set<RecordKey>, ever: set<RecordKey>)
    requires WellFormed(c.published) && IsRun(c, actions, states) && n <= |actions| && c.fromCache
    requires id in states[n].handlers && states[n].handlers[id].Sleeping? && states[n].handlers[id].i < |c.ifaces|
    requires ReadsBetween(c, states[n].cacheLog, states[n].lookups, id, states[n].handlers[id].i, always, ever)
    ensures var h := states[n].handlers[id];
            DistinctKeys(h.answers + h.adds) && CompletesBetween(KeysOf(h.answers), KeysOf(h.adds), always, ever)
  {
    RunKeepsInv(c, actions, states, n);
    var s, h := states[n], states[n].handlers[id];
    assert HandlerRecords(c, s.cacheLog, s.lookups, id, h) && HandlerLookups(c, s.cacheLog, s.lookups, id, h);
    DistinctParts(h.answers, h.adds);
    AddsAreClosed(c, s.cacheLog, s.lookups, id, h.i, h.answers, h.adds, always, ever);
    forall x | KeysOf(h.answers) <= x && Closed(x, ever) ensures KeysOf(h.adds) <= x {
      AddsAreLeast(c, s.cacheLog, s.lookups, id, h.i, h.answers, h.adds, always, ever, x);
    }
    var all := KeysOf(h.answers) + ever;
    AddsAreLeast(c, s.cacheLog, s.lookups, id, h.i, h.answers, h.adds, always, ever, all);
  }

  // ---- announcements and the limiter ----

  /** The marks `announce_all` leaves for one interface, each at its own reading. */
  function MarkAll(ifindex: u32, rs: seq<Record>, clock: seq<Time>): seq<Op>
    requires |clock| == |rs|
  {
    seq(|rs|, j requires 0 <= j < |rs| => Mark(Slot(ifindex, KeyOf(rs[j])), clock[j]))
  }

  lemma {:induction false} MarkedSlots(ops: seq<Op>, ifindex: u32, rs: seq<Record>, clock: seq<Time>, k: RecordKey)
    requires |clock| == |rs|
    ensures var before, after := Stamped(ops, true), Stamped(ops + MarkAll(ifindex, rs, clock), true);
            var slot := Slot(ifindex, k);
            && (k in KeysOf(rs) ==> slot in after && after[slot] in clock)
            && (k !in KeysOf(rs) ==> (slot in after <==> slot in before) && (slot in after ==> after[slot] == before[slot]))
  {
    if rs == [] {
      assert ops + MarkAll(ifindex, rs, clock) == ops;
    } else {
      var n := |rs| - 1;
      MarkedSlots(ops, ifindex, rs[..n], clock[..n], k);
      assert rs == rs[..n] + [rs[n]];
      KeysOfSnoc(rs[..n], rs[n]);
      var all := ops + MarkAll(ifindex, rs, clock);
      assert all[..|all| - 1] == ops + MarkAll(ifindex, rs[..n], clock[..n]);
      assert all[|all| - 1] == Mark(Slot(ifindex, KeyOf(rs[n])), clock[n]);
      assert clock[n] in clock && forall t :: t in clock[..n] ==> t in clock;
    }
  }

  /** After an announcement, within the interval of its marks, the limiter holds back
      an announced record exactly when it is a cache-flush record or was held back
      anyway: the announced PTRs leave no stamp, so an answer may repeat them at once. */
  lemma AnnouncedIsHeldBackIffUnique(ops: seq<Op>, p: Published, i: Iface, r: Record, clock: seq<Time>, later: Time, interval: nat)
    requires WellFormed(p) && r in Announcement(p, i) && |clock| == |UniqueForIface(p, i)| && 0 < interval
    requires forall t :: t in clock ==> later < t + interval
    ensures var slot := Slot(i.ifindex, KeyOf(r));
            !Allows(Stamped(ops + MarkAll(i.ifindex, UniqueForIface(p, i), clock), true), slot, later, interval)
            <==> r.flush || !Allows(Stamped(ops, true), slot, later, interval)
  {
    MarkedSlots(ops, i.ifindex, UniqueForIface(p, i), clock, KeyOf(r));
    AnnouncedIsStampedIffUnique(p, i, r);
    if KeyOf(r) in KeysOf(UniqueForIface(p, i)) && !r.flush {
      var u :| u in UniqueForIface(p, i) && KeyOf(u) == KeyOf(r);
      UniqueIsNotPtr(p, i, u);
      SharedIsPtr(p, i, r);
    }
  }

  lemma UniqueIsNotPtr(p: Published, i: Iface, u: Record)
    requires WellFormed(p) && u in UniqueForIface(p, i)
    ensures !u.data.PtrData?
  {
    ListedMember(p.services);
    HostRecordsAreOwn(p, i);
  }

  lemma SharedIsPtr(p: Published, i: Iface, r: Record)
    requires WellFormed(p) && r in Announcement(p, i) && !r.flush
    ensures r.data.PtrData?
  {
    ListedMember(p.services);
    HostRecordsAreOwn(p, i);
  }
}
