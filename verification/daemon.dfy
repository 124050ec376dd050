/** The running daemon as interleaved steps (src/engine.rs, src/responder.rs). A
    handler gathers, suppresses, completes, sleeps, asks the rate limiter record by
    record and sends; response handlers fill the cache; the evictor sweeps both. */
module Daemon {
  import opened Records
  import opened Net
  import opened Services
  import opened Cache
  import opened CacheRuns
  import opened Tracker
  import opened Responder

  const MAX_INFLIGHT_HANDLERS: nat := 256

  datatype Config = Config(limits: Limits, published: Published, ifaces: seq<Iface>, fromCache: bool)

  datatype Lookup = Lookup(name: Name, rtype: RecordType)

  /** One relaying lookup: who made it, whether for additionals, what it asked, how
      long the cache's log was when it held the lock, and the clock it had read. */
  datatype Read = Read(handler: nat, adding: bool, lookup: Lookup, at: nat, now: Time)

  /** A response handler: the records still to be put into the cache. */
  datatype Ingestion = Ingestion(source: Option<u32>, rest: seq<Record>)

  /** A query handler, with the query it answers. `drawn` is when it drew its delay,
      `woke` what it read when it woke. */
  datatype Handler =
    | Gathering(i: nat, msg: Message, next: nat, answers: seq<Record>)
    | Adding(i: nat, msg: Message, answers: seq<Record>, adds: seq<Record>, todo: seq<Lookup>, second: bool)
    | Sleeping(i: nat, msg: Message, answers: seq<Record>, adds: seq<Record>, drawn: Time, until: Time)
    | CheckingAnswers(i: nat, msg: Message, drawn: Time, woke: Time, kept: seq<Record>, rest: seq<Record>, adds: seq<Record>)
    | CheckingAdds(i: nat, msg: Message, drawn: Time, woke: Time, answers: seq<Record>, kept: seq<Record>, rest: seq<Record>)

  /** A response that was built for sending. */
  datatype Packet = Packet(handler: nat, i: nat, msg: Message, drawn: Time, woke: Time, answers: seq<Record>, adds: seq<Record>)

  /** The cache and the tracker are their logs in lock order. */
  datatype State = State(
    cacheLog: seq<Event>, lookups: seq<Read>, ops: seq<Op>,
    ingestions: map<nat, Ingestion>, handlers: map<nat, Handler>, nextId: nat, wire: seq<Packet>)

  const INITIAL := State([], [], [], map[], map[], 0, [])

  function CacheTable(c: Config, s: State): Cache.Table {
    Run(c.limits, map[], s.cacheLog)
  }

  // ---- steps ----

  /** What a query handler does until it turns to the rate limiter. */
  datatype Preparation =
    | Gather(now: Time, found: seq<Record>)
    | Add(now: Time, found: seq<Record>)
    | SecondPass
    | Delay(now: Time, delay: nat)
    | Wake(now: Time)

  datatype Move =
    | Prepare(p: Preparation)
    | Suppress
    | CheckAnswer(now: Time)
    | AnswersChecked
    | CheckAdd(now: Time)
    | Send

  datatype Action =
    | HearResponse(source: Option<u32>, records: seq<Record>)
    | HearQuery(i: nat, msg: Message)
    | Ingest(id: nat, now: Time, victim: Option<RecordKey>)
    | Ingested(id: nat)
    | By(id: nat, move: Move)
    | AnnounceMark(i: nat, r: Record, now: Time)
    | Sweep(now: Time)
    | PruneStamps(now: Time)

  function PtrLookups(rs: seq<Record>): seq<Lookup> {
    if rs == [] then []
    else PtrLookups(rs[..|rs| - 1])
         + (var r := rs[|rs| - 1];
            if r.data.PtrData? then [Lookup(r.data.ptr, SRV), Lookup(r.data.ptr, TXT)] else [])
  }

  function SrvLookups(rs: seq<Record>): seq<Lookup> {
    if rs == [] then []
    else SrvLookups(rs[..|rs| - 1])
         + (var r := rs[|rs| - 1];
            if r.data.SrvData? then [Lookup(r.data.target, A), Lookup(r.data.target, AAAA)] else [])
  }

  /** What the cache may answer to one relaying lookup at this moment. */
  ghost predicate Found(c: Config, s: State, i: nat, name: Name, rtype: RecordType, now: Time, found: seq<Record>)
    requires i < |c.ifaces|
  {
    Lists(found, OtherView(CacheTable(c, s), name, rtype, c.ifaces[i].ifindex, now))
  }

  /** The query proposes a record that this interface owns. */
  predicate Defends(c: Config, i: nat, msg: Message)
    requires i < |c.ifaces|
  {
    IsProbeForUs(msg.authorities, UniqueForIface(c.published, c.ifaces[i]))
  }

  /** The query proposes, in its authority section, a record of the name and type of a
      cache-flush record that this interface owns. */
  ghost predicate Probes(c: Config, i: nat, msg: Message)
    requires i < |c.ifaces|
  {
    exists a, u :: a in msg.authorities && OwnRecord(u, c.published, c.ifaces[i]) && u.flush
                   && u.name == a.name && TypeOf(u.data) == TypeOf(a.data)
  }

  lemma DefendsIff(c: Config, i: nat, msg: Message)
    requires WellFormed(c.published) && i < |c.ifaces|
    ensures Defends(c, i, msg) <==> Probes(c, i, msg)
  {
    forall u { UniqueIsOwnFlush(c.published, c.ifaces[i], u); }
  }

  function IntervalFor(c: Config, i: nat, msg: Message): nat
    requires i < |c.ifaces|
  {
    if Defends(c, i, msg) then PROBE_DEFENSE_INTERVAL else MIN_MULTICAST_INTERVAL
  }

  /** A datagram is taken only while a permit is free. */
  predicate PermitFree(s: State) {
    |s.handlers| + |s.ingestions| < MAX_INFLIGHT_HANDLERS
  }

  ghost predicate Enabled(c: Config, s: State, a: Action) {
    match a
    case HearResponse(_, _) => PermitFree(s)
    case HearQuery(i, msg) => PermitFree(s) && i < |c.ifaces| && msg.queries != []
    case AnnounceMark(i, r, _) => i < |c.ifaces| && r in UniqueForIface(c.published, c.ifaces[i])
    case Sweep(_) => true
    case PruneStamps(_) => true
    case Ingest(id, _, victim) =>
      && id in s.ingestions && s.ingestions[id].rest != []
      && LegalVictim(c.limits, CacheTable(c, s), s.ingestions[id].rest[0], victim)
    case Ingested(id) => id in s.ingestions && s.ingestions[id].rest == []
    case By(id, move) => id in s.handlers && MoveEnabled(c, s, move, s.handlers[id])
  }

  /** A handler's own clock readings do not go back: it asks no earlier than it woke. */
  ghost predicate MoveEnabled(c: Config, s: State, move: Move, h: Handler) {
    && h.i < |c.ifaces|
    && match move
       case Prepare(p) => PreparationEnabled(c, s, p, h)
       case Suppress => h.Gathering? && h.next == |h.msg.queries|
       case CheckAnswer(now) => h.CheckingAnswers? && h.rest != [] && h.woke <= now
       case AnswersChecked => h.CheckingAnswers? && h.rest == []
       case CheckAdd(now) => h.CheckingAdds? && h.rest != [] && h.woke <= now
       case Send => h.CheckingAdds? && h.rest == []
  }

  ghost predicate PreparationEnabled(c: Config, s: State, p: Preparation, h: Handler)
    requires h.i < |c.ifaces|
  {
    match p
    case Gather(now, found) =>
      && h.Gathering? && h.next < |h.msg.queries|
      && var q := h.msg.queries[h.next];
         if c.fromCache then Found(c, s, h.i, q.name, q.qtype, now, found) else found == []
    case Add(now, found) =>
      h.Adding? && h.todo != [] && Found(c, s, h.i, h.todo[0].name, h.todo[0].rtype, now, found)
    case SecondPass => h.Adding? && h.todo == [] && !h.second
    case Delay(_, delay) =>
      h.Adding? && h.todo == [] && h.second && DelayAllowed(ClassifyDelay(h.msg, h.answers, Defends(c, h.i, h.msg)), delay)
    case Wake(now) => h.Sleeping? && h.until <= now
  }

  function Finish(s: State, id: nat): State {
    s.(handlers := s.handlers - {id})
  }

  /** The rate limiter's view of one record. */
  function CheckOp(c: Config, id: nat, i: nat, msg: Message, r: Record, now: Time): Op
    requires i < |c.ifaces|
  {
    Check(id, Slot(c.ifaces[i].ifindex, KeyOf(r)), now, IntervalFor(c, i, msg))
  }

  predicate Granted(ops: seq<Op>, op: Op)
    requires op.Check?
  {
    Allows(Stamped(ops, true), op.slot, op.now, op.interval)
  }

  ghost function Next(c: Config, s: State, a: Action): State
    requires Enabled(c, s, a)
  {
    match a
    case HearResponse(source, records) =>
      s.(ingestions := s.ingestions[s.nextId := Ingestion(source, records)], nextId := s.nextId + 1)
    case HearQuery(i, msg) =>
      s.(handlers := s.handlers[s.nextId := Handler.Gathering(i, msg, 0, [])], nextId := s.nextId + 1)
    case AnnounceMark(i, r, now) => s.(ops := s.ops + [Mark(Slot(c.ifaces[i].ifindex, KeyOf(r)), now)])
    case Sweep(now) => s.(cacheLog := s.cacheLog + [Tick(now, true)])
    case PruneStamps(now) => s.(ops := s.ops + [Prune(now)])
    case Ingest(id, now, victim) => AfterIngest(s, id, now, victim)
    case Ingested(id) => s.(ingestions := s.ingestions - {id})
    case By(id, move) => AfterMove(c, s, id, move, s.handlers[id])
  }

  function AfterIngest(s: State, id: nat, now: Time, victim: Option<RecordKey>): State
    requires id in s.ingestions && s.ingestions[id].rest != []
  {
    var g := s.ingestions[id];
    s.(ingestions := s.ingestions[id := g.(rest := g.rest[1..])],
       cacheLog := s.cacheLog + [Insert(g.rest[0], g.source, now, victim)])
  }

  ghost function AfterMove(c: Config, s: State, id: nat, move: Move, h: Handler): State
    requires MoveEnabled(c, s, move, h)
  {
    match move
    case Prepare(p) => Become(s, id, Prepared(c, s, p, h)).(lookups := s.lookups + NewReads(c, s, id, p, h))
    case Suppress =>
      var left := Unknown(h.answers, h.msg.answers);
      if left == [] then Finish(s, id) else Become(s, id, AfterSuppress(c, h, left))
    case CheckAnswer(now) =>
      var op := CheckOp(c, id, h.i, h.msg, h.rest[0], now);
      Become(s, id, AnswerAsked(h, Granted(s.ops, op))).(ops := s.ops + [op])
    case AnswersChecked =>
      if h.kept == [] then Finish(s, id) else Become(s, id, AfterAnswers(h))
    case CheckAdd(now) =>
      var op := CheckOp(c, id, h.i, h.msg, h.rest[0], now);
      Become(s, id, AddAsked(h, Granted(s.ops, op))).(ops := s.ops + [op])
    case Send => Finish(s, id).(wire := s.wire + [SentBy(id, h)])
  }

  /** A record is checked off: it is kept when the limiter grants it. */
  function AnswerAsked(h: Handler, granted: bool): Handler
    requires h.CheckingAnswers? && h.rest != []
  {
    Handler.CheckingAnswers(h.i, h.msg, h.drawn, h.woke, if granted then h.kept + [h.rest[0]] else h.kept, h.rest[1..], h.adds)
  }

  function AddAsked(h: Handler, granted: bool): Handler
    requires h.CheckingAdds? && h.rest != []
  {
    Handler.CheckingAdds(h.i, h.msg, h.drawn, h.woke, h.answers, if granted then h.kept + [h.rest[0]] else h.kept, h.rest[1..])
  }

  function AfterAnswers(h: Handler): Handler
    requires h.CheckingAnswers?
  {
    Handler.CheckingAdds(h.i, h.msg, h.drawn, h.woke, h.kept, [], h.adds)
  }

  function Become(s: State, id: nat, h: Handler): State {
    s.(handlers := s.handlers[id := h])
  }

  function SentBy(id: nat, h: Handler): Packet
    requires h.CheckingAdds?
  {
    Packet(id, h.i, h.msg, h.drawn, h.woke, h.answers, h.kept)
  }

  /** The lookups of the first pass; none when answering from the cache is off. */
  function AfterSuppress(c: Config, h: Handler, left: seq<Record>): Handler
    requires h.Gathering?
  {
    Handler.Adding(h.i, h.msg, left, [], if c.fromCache then PtrLookups(left) else [], false)
  }

  /** What a preparing move leaves of its handler. */
  ghost function Prepared(c: Config, s: State, p: Preparation, h: Handler): Handler
    requires h.i < |c.ifaces| && PreparationEnabled(c, s, p, h)
  {
    match p
    case Gather(_, found) =>
      var own := Own(c.published, h.msg.queries[h.next], c.ifaces[h.i]);
      Handler.Gathering(h.i, h.msg, h.next + 1, PushNew(PushNew(h.answers, {}, own), {}, found))
    case Add(_, found) =>
      Handler.Adding(h.i, h.msg, h.answers, PushNew(h.adds, KeysOf(h.answers), found), h.todo[1..], h.second)
    case SecondPass =>
      Handler.Adding(h.i, h.msg, h.answers, h.adds, if c.fromCache then SrvLookups(h.answers + h.adds) else [], true)
    case Delay(now, delay) => Handler.Sleeping(h.i, h.msg, h.answers, h.adds, now, now + delay)
    case Wake(now) => Handler.CheckingAnswers(h.i, h.msg, h.drawn, now, [], h.answers, h.adds)
  }

  /** The cache reads a preparing move makes. */
  ghost function NewReads(c: Config, s: State, id: nat, p: Preparation, h: Handler): seq<Read>
    requires h.i < |c.ifaces| && PreparationEnabled(c, s, p, h)
  {
    match p
    case Gather(now, _) =>
      var q := h.msg.queries[h.next];
      if c.fromCache then [Read(id, false, Lookup(q.name, q.qtype), |s.cacheLog|, now)] else []
    case Add(now, _) => [Read(id, true, h.todo[0], |s.cacheLog|, now)]
    case SecondPass => []
    case Delay(_, _) => []
    case Wake(_) => []
  }

  // ---- runs ----

  /** `states` is the run of `actions` from the start. */
  ghost predicate IsRun(c: Config, actions: seq<Action>, states: seq<State>) {
    && |states| == |actions| + 1
    && states[0] == INITIAL
    && forall i :: 0 <= i < |actions| ==> Enabled(c, states[i], actions[i]) && states[i + 1] == Next(c, states[i], actions[i])
  }

  // ---- what a query asks and a handler looks up ----

  predicate Asks(l: Lookup, k: RecordKey) {
    k.name == l.name && Selects(l.rtype, k.rtype)
  }

  /** Some lookup of the list asks for `k`. */
  ghost predicate AskedFor(todo: seq<Lookup>, k: RecordKey) {
    exists l :: l in todo && Asks(l, k)
  }

  lemma AskedForSnoc(todo: seq<Lookup>, l: Lookup, k: RecordKey)
    ensures AskedFor(todo + [l], k) <==> AskedFor(todo, k) || Asks(l, k)
  {
    assert l in todo + [l];
    if AskedFor(todo, k) {
      var x :| x in todo && Asks(x, k);
      assert x in todo + [l];
    }
  }

  lemma {:induction false} PtrLookupsAsk(rs: seq<Record>, k: RecordKey)
    ensures AskedFor(PtrLookups(rs), k) <==> CalledBy(rs, |rs|, true, k)
  {
    if rs != [] {
      var n := |rs| - 1;
      var r := rs[n];
      PtrLookupsAsk(rs[..n], k);
      CalledByPrefix(rs, n, true, k);
      CalledByNext(rs, n, true);
      if r.data.PtrData? {
        var before := PtrLookups(rs[..n]);
        AskedForSnoc(before, Lookup(r.data.ptr, SRV), k);
        AskedForSnoc(before + [Lookup(r.data.ptr, SRV)], Lookup(r.data.ptr, TXT), k);
        assert PtrLookups(rs) == before + [Lookup(r.data.ptr, SRV)] + [Lookup(r.data.ptr, TXT)];
      }
    }
  }

  lemma {:induction false} SrvLookupsAsk(rs: seq<Record>, k: RecordKey)
    ensures AskedFor(SrvLookups(rs), k) <==> CalledBy(rs, |rs|, false, k)
  {
    if rs != [] {
      var n := |rs| - 1;
      var r := rs[n];
      SrvLookupsAsk(rs[..n], k);
      CalledByPrefix(rs, n, false, k);
      CalledByNext(rs, n, false);
      if r.data.SrvData? {
        var before := SrvLookups(rs[..n]);
        AskedForSnoc(before, Lookup(r.data.target, A), k);
        AskedForSnoc(before + [Lookup(r.data.target, A)], Lookup(r.data.target, AAAA), k);
        assert SrvLookups(rs) == before + [Lookup(r.data.target, A)] + [Lookup(r.data.target, AAAA)];
      }
    }
  }

  lemma CalledByPrefix(rs: seq<Record>, n: nat, ptr: bool, k: RecordKey)
    requires n <= |rs|
    ensures CalledBy(rs[..n], n, ptr, k) <==> CalledBy(rs, n, ptr, k)
  {
    if CalledBy(rs, n, ptr, k) {
      var j :| 0 <= j < n && (if ptr then rs[j].data.PtrData? else rs[j].data.SrvData?) && CallsFor(KeyOf(rs[j]), k);
      assert rs[..n][j] == rs[j];
    }
  }

  lemma {:induction false} LookupTypes(rs: seq<Record>)
    ensures forall l :: l in PtrLookups(rs) ==> l.rtype == SRV || l.rtype == TXT
    ensures forall l :: l in SrvLookups(rs) ==> l.rtype == A || l.rtype == AAAA
  {
    if rs != [] { LookupTypes(rs[..|rs| - 1]); }
  }

  /** Records that are no SRV ask for no further address. */
  lemma {:induction false} SrvLookupsConcat(rs: seq<Record>, more: seq<Record>)
    requires forall r :: r in more ==> !r.data.SrvData?
    ensures SrvLookups(rs + more) == SrvLookups(rs)
  {
    if more == [] {
      assert rs + more == rs;
    } else {
      var n := |more| - 1;
      SrvLookupsConcat(rs, more[..n]);
      assert (rs + more)[..|rs + more| - 1] == rs + more[..n];
    }
  }
}
