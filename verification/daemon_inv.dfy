/** What every step of the daemon keeps. */
module DaemonInv {
  import opened Records
  import opened Net
  import opened Services
  import opened Cache
  import opened CacheRuns
  import opened Tracker
  import opened Responder
  import opened Daemon

  // ---- the parts of a handler ----

  /** The records a handler holds, its answers among them, those it has been granted,
      and those it may still ask for. */
  function Holds(h: Handler): seq<Record> {
    match h
    case Gathering(_, _, _, answers) => answers
    case Adding(_, _, answers, adds, _, _) => answers + adds
    case Sleeping(_, _, answers, adds, _, _) => answers + adds
    case CheckingAnswers(_, _, _, _, kept, rest, adds) => kept + (rest + adds)
    case CheckingAdds(_, _, _, _, answers, kept, rest) => answers + kept + rest
  }

  function AnswersOf(h: Handler): seq<Record> {
    match h
    case Gathering(_, _, _, answers) => answers
    case Adding(_, _, answers, _, _, _) => answers
    case Sleeping(_, _, answers, _, _, _) => answers
    case CheckingAnswers(_, _, _, _, kept, rest, _) => kept + rest
    case CheckingAdds(_, _, _, _, answers, _, _) => answers
  }

  function Kept(h: Handler): seq<Record> {
    match h
    case CheckingAnswers(_, _, _, _, kept, _, _) => kept
    case CheckingAdds(_, _, _, _, answers, kept, _) => answers + kept
    case _ => []
  }

  function Waiting(h: Handler): seq<Record> {
    match h
    case CheckingAnswers(_, _, _, _, _, rest, adds) => rest + adds
    case CheckingAdds(_, _, _, _, _, _, rest) => rest
    case _ => Holds(h)
  }

  predicate Checks(h: Handler) {
    h.CheckingAnswers? || h.CheckingAdds?
  }

  // ---- records: where they come from ----

  /** Read `x` was made by handler `id` on a table of the log. */
  predicate ReadBy(log: seq<Event>, seen: seq<Read>, id: nat, x: int) {
    0 <= x < |seen| && seen[x].handler == id && seen[x].at <= |log|
  }

  function TableAt(c: Config, log: seq<Event>, read: Read): Cache.Table
    requires read.at <= |log|
  {
    Run(c.limits, map[], log[..read.at])
  }

  /** Read `x` asked for `r` and could relay it, at the table and the clock it read. */
  ghost predicate RelayedBy(c: Config, log: seq<Event>, seen: seq<Read>, id: nat, i: nat, r: Record, x: int)
    requires i < |c.ifaces|
  {
    && ReadBy(log, seen, id, x)
    && Asks(seen[x].lookup, KeyOf(r))
    && Relayable(r, TableAt(c, log, seen[x]), c.ifaces[i].ifindex, seen[x].now)
  }

  /** Split horizon: `r` is this daemon's own record for the interface, or one of the
      handler's reads could relay it. */
  ghost predicate Sendable(c: Config, log: seq<Event>, seen: seq<Read>, id: nat, i: nat, r: Record)
    requires i < |c.ifaces|
  {
    OwnRecord(r, c.published, c.ifaces[i]) || exists x :: RelayedBy(c, log, seen, id, i, r, x)
  }

  ghost predicate AllSendable(c: Config, log: seq<Event>, seen: seq<Read>, id: nat, i: nat, rs: seq<Record>)
    requires i < |c.ifaces|
  {
    forall r :: r in rs ==> Sendable(c, log, seen, id, i, r)
  }

  ghost predicate AnswersQuery(msg: Message, r: Record) {
    exists q :: q in msg.queries && Asks(Lookup(q.name, q.qtype), KeyOf(r))
  }

  /** Every record answers the query. */
  ghost predicate AllAsked(msg: Message, rs: seq<Record>) {
    forall r :: r in rs ==> AnswersQuery(msg, r)
  }

  ghost predicate NoneKnown(msg: Message, rs: seq<Record>) {
    forall r :: r in rs ==> !Known(r, msg.answers)
  }

  /** The least delay section 6 of RFC 6762 asks of a response with these answers. */
  ghost function LeastDelay(c: Config, i: nat, msg: Message, rs: seq<Record>): nat
    requires i < |c.ifaces|
  {
    if Defends(c, i, msg) then 0
    else if msg.truncated then 400 * MILLISECOND
    else if |msg.queries| != 1 || exists r :: r in rs && !r.flush then 20 * MILLISECOND
    else 0
  }

  ghost predicate Waited(c: Config, h: Handler)
    requires h.i < |c.ifaces|
  {
    && (h.Sleeping? ==> h.drawn + LeastDelay(c, h.i, h.msg, h.answers) <= h.until)
    && (Checks(h) ==> h.drawn + LeastDelay(c, h.i, h.msg, AnswersOf(h)) <= h.woke)
  }

  ghost predicate HandlerRecords(c: Config, log: seq<Event>, seen: seq<Read>, id: nat, h: Handler) {
    && h.i < |c.ifaces|
    && DistinctKeys(Holds(h))
    && AllSendable(c, log, seen, id, h.i, Holds(h))
    && AllAsked(h.msg, AnswersOf(h))
    && (!h.Gathering? ==> NoneKnown(h.msg, AnswersOf(h)))
    && Waited(c, h)
    && (h.CheckingAdds? ==> h.answers != [])
  }

  ghost predicate PacketRecords(c: Config, log: seq<Event>, seen: seq<Read>, p: Packet) {
    && p.i < |c.ifaces| && p.answers != []
    && DistinctKeys(p.answers + p.adds)
    && AllSendable(c, log, seen, p.handler, p.i, p.answers + p.adds)
    && AllAsked(p.msg, p.answers) && NoneKnown(p.msg, p.answers)
    && p.drawn + LeastDelay(c, p.i, p.msg, p.answers) <= p.woke
  }

  // ---- lookups: what the additionals contain ----

  /** Read `x` was this lookup, and all it asked for and could have relayed is held. */
  ghost predicate ServedBy(c: Config, log: seq<Event>, seen: seq<Read>, id: nat, i: nat, l: Lookup,
                           held: set<RecordKey>, x: int)
    requires i < |c.ifaces|
  {
    && ReadBy(log, seen, id, x) && seen[x].adding && seen[x].lookup == l
    && forall k :: k in Available(TableAt(c, log, seen[x]), c.ifaces[i].ifindex, seen[x].now) && Asks(l, k) ==> k in held
  }

  ghost predicate Served(c: Config, log: seq<Event>, seen: seq<Read>, id: nat, i: nat, l: Lookup, held: set<RecordKey>)
    requires i < |c.ifaces|
  {
    exists x :: ServedBy(c, log, seen, id, i, l, held, x)
  }

  /** Every lookup of `asked` is still to be made or was served. */
  ghost predicate AllServed(c: Config, log: seq<Event>, seen: seq<Read>, id: nat, i: nat, asked: seq<Lookup>,
                            todo: seq<Lookup>, held: set<RecordKey>)
    requires i < |c.ifaces|
  {
    forall l :: l in asked ==> l in todo || Served(c, log, seen, id, i, l, held)
  }

  /** `r` was found by one of the lookups `asked`. */
  ghost predicate Wanted(c: Config, log: seq<Event>, seen: seq<Read>, id: nat, i: nat, r: Record, asked: seq<Lookup>)
    requires i < |c.ifaces|
  {
    exists x :: RelayedBy(c, log, seen, id, i, r, x) && seen[x].adding && seen[x].lookup in asked
  }

  ghost predicate AllWanted(c: Config, log: seq<Event>, seen: seq<Read>, id: nat, i: nat, rs: seq<Record>, asked: seq<Lookup>)
    requires i < |c.ifaces|
  {
    forall r :: r in rs ==> Wanted(c, log, seen, id, i, r, asked)
  }

  /** The lookups that answers and additionals call for by this pass. */
  function Asked(answers: seq<Record>, adds: seq<Record>, second: bool): seq<Lookup> {
    PtrLookups(answers) + if second then SrvLookups(answers + adds) else []
  }

  ghost predicate Progress(c: Config, log: seq<Event>, seen: seq<Read>, id: nat, i: nat, answers: seq<Record>,
                           adds: seq<Record>, todo: seq<Lookup>, second: bool)
    requires i < |c.ifaces|
  {
    if c.fromCache then
      && AllServed(c, log, seen, id, i, Asked(answers, adds, second), todo, KeysOf(answers) + KeysOf(adds))
      && AllWanted(c, log, seen, id, i, adds, Asked(answers, adds, second))
      && (forall l :: l in todo ==> l in if second then SrvLookups(answers + adds) else PtrLookups(answers))
    else adds == [] && todo == []
  }

  ghost predicate HandlerLookups(c: Config, log: seq<Event>, seen: seq<Read>, id: nat, h: Handler) {
    && h.i < |c.ifaces|
    && match h
       case Adding(i, _, answers, adds, todo, second) => Progress(c, log, seen, id, i, answers, adds, todo, second)
       case Sleeping(i, _, answers, adds, _, _) => Progress(c, log, seen, id, i, answers, adds, [], true)
       case _ => true
  }

  // ---- the rate limiter's log ----

  /** Operation `at` is a check by handler `id`. */
  predicate CheckBy(ops: seq<Op>, at: int, id: nat) {
    0 <= at < |ops| && ops[at].Check? && ops[at].handler == id
  }

  /** The slots stamped for handler `id`, in order. */
  function AcceptedBy(ops: seq<Op>, id: nat): seq<Slot> {
    if ops == [] then []
    else
      var n := |ops| - 1;
      AcceptedBy(ops[..n], id)
      + (if CheckBy(ops, n, id) && PutsStamp(ops, n, true) then [ops[n].slot] else [])
  }

  function SlotsOf(ifindex: u32, rs: seq<Record>): seq<Slot> {
    seq(|rs|, j requires 0 <= j < |rs| => Slot(ifindex, KeyOf(rs[j])))
  }

  /** Handler `id` asked about no slot twice and about none it still waits for. */
  ghost predicate AsksOnce(ops: seq<Op>, id: nat, ifindex: u32, waiting: seq<Record>) {
    && (forall a, b :: a < b && CheckBy(ops, a, id) && CheckBy(ops, b, id) ==> ops[a].slot != ops[b].slot)
    && (forall a, r :: CheckBy(ops, a, id) && r in waiting ==> ops[a].slot != Slot(ifindex, KeyOf(r)))
  }

  /** How a handler asks: at which interval, and since when. */
  datatype Asking = Asking(interval: nat, since: Time)

  ghost predicate AsksAs(ops: seq<Op>, id: nat, asking: Asking) {
    forall a :: CheckBy(ops, a, id) ==> ops[a].interval == asking.interval && asking.since <= ops[a].now
  }

  function AskingOf(c: Config, h: Handler): Option<Asking>
    requires h.i < |c.ifaces|
  {
    if Checks(h) then Some(Asking(IntervalFor(c, h.i, h.msg), h.woke)) else None
  }

  /** What the rate limiter's log says about handler `id`: the slots stamped for it
      are those of the records kept, in order; nothing was asked twice. */
  ghost predicate History(ops: seq<Op>, id: nat, ifindex: u32, kept: seq<Record>, waiting: seq<Record>,
                          asking: Option<Asking>)
  {
    && AcceptedBy(ops, id) == SlotsOf(ifindex, kept)
    && AsksOnce(ops, id, ifindex, waiting)
    && (asking.None? ==> forall a :: !CheckBy(ops, a, id))
    && (asking.Some? ==> AsksAs(ops, id, asking.value))
  }

  ghost predicate HandlerOps(c: Config, ops: seq<Op>, id: nat, h: Handler) {
    h.i < |c.ifaces| && History(ops, id, c.ifaces[h.i].ifindex, Kept(h), Waiting(h), AskingOf(c, h))
  }

  ghost predicate PacketOps(c: Config, ops: seq<Op>, p: Packet) {
    && p.i < |c.ifaces|
    && History(ops, p.handler, c.ifaces[p.i].ifindex, p.answers + p.adds, [], Some(Asking(IntervalFor(c, p.i, p.msg), p.woke)))
  }

  // ---- the invariant ----

  ghost predicate AllHandlerRecords(c: Config, log: seq<Event>, seen: seq<Read>, handlers: map<nat, Handler>) {
    forall id :: id in handlers ==> HandlerRecords(c, log, seen, id, handlers[id])
  }

  ghost predicate AllHandlerLookups(c: Config, log: seq<Event>, seen: seq<Read>, handlers: map<nat, Handler>) {
    forall id :: id in handlers ==> HandlerLookups(c, log, seen, id, handlers[id])
  }

  ghost predicate AllHandlerOps(c: Config, ops: seq<Op>, handlers: map<nat, Handler>) {
    forall id :: id in handlers ==> HandlerOps(c, ops, id, handlers[id])
  }

  ghost predicate AllPacketRecords(c: Config, log: seq<Event>, seen: seq<Read>, wire: seq<Packet>) {
    forall p :: p in wire ==> PacketRecords(c, log, seen, p)
  }

  ghost predicate AllPacketOps(c: Config, ops: seq<Op>, wire: seq<Packet>) {
    forall p :: p in wire ==> PacketOps(c, ops, p)
  }

  ghost predicate Sent(wire: seq<Packet>, id: nat) {
    exists p :: p in wire && p.handler == id
  }

  /** Ids are never reused. */
  ghost predicate Ids(handlers: map<nat, Handler>, wire: seq<Packet>, nextId: nat) {
    && (forall id :: id in handlers ==> id < nextId)
    && (forall p :: p in wire ==> p.handler < nextId && p.handler !in handlers)
    && (forall i, j :: 0 <= i < j < |wire| ==> wire[i].handler != wire[j].handler)
  }

  /** Whoever neither runs nor sent has stamped nothing; whoever has not started has
      asked nothing. */
  ghost predicate Silent(ops: seq<Op>, handlers: map<nat, Handler>, wire: seq<Packet>, nextId: nat) {
    && (forall id: nat :: id !in handlers && !Sent(wire, id) ==> AcceptedBy(ops, id) == [])
    && (forall id: nat, a :: nextId <= id ==> !CheckBy(ops, a, id))
  }

  predicate LawfulInterval(interval: nat) {
    interval == MIN_MULTICAST_INTERVAL || interval == PROBE_DEFENSE_INTERVAL
  }

  ghost predicate AllLawful(ops: seq<Op>) {
    forall a :: 0 <= a < |ops| && ops[a].Check? ==> LawfulInterval(ops[a].interval)
  }

  ghost predicate RecordsHold(c: Config, log: seq<Event>, seen: seq<Read>, handlers: map<nat, Handler>, wire: seq<Packet>) {
    && AllHandlerRecords(c, log, seen, handlers)
    && AllHandlerLookups(c, log, seen, handlers)
    && AllPacketRecords(c, log, seen, wire)
  }

  ghost predicate LimiterHolds(c: Config, ops: seq<Op>, handlers: map<nat, Handler>, wire: seq<Packet>) {
    && AllHandlerOps(c, ops, handlers)
    && AllPacketOps(c, ops, wire)
    && AllLawful(ops)
  }

  ghost predicate Inv(c: Config, s: State) {
    && LegalRun(c.limits, map[], s.cacheLog)
    && |s.handlers| + |s.ingestions| <= MAX_INFLIGHT_HANDLERS
    && RecordsHold(c, s.cacheLog, s.lookups, s.handlers, s.wire)
    && LimiterHolds(c, s.ops, s.handlers, s.wire)
    && Ids(s.handlers, s.wire, s.nextId)
    && Silent(s.ops, s.handlers, s.wire, s.nextId)
  }

  // ---- the cache's log and its readers only grow ----

  ghost predicate Extends(log: seq<Event>, seen: seq<Read>, log': seq<Event>, seen': seq<Read>) {
    log <= log' && seen <= seen'
  }

  lemma RelayedByGrows(c: Config, log: seq<Event>, seen: seq<Read>, log': seq<Event>, seen': seq<Read>, id: nat, i: nat, r: Record, x: int)
    requires Extends(log, seen, log', seen') && i < |c.ifaces| && RelayedBy(c, log, seen, id, i, r, x)
    ensures RelayedBy(c, log', seen', id, i, r, x) && seen'[x] == seen[x]
  {
    assert log'[..seen[x].at] == log[..seen[x].at];
  }

  lemma AllSendableGrows(c: Config, log: seq<Event>, seen: seq<Read>, log': seq<Event>, seen': seq<Read>, id: nat, i: nat, rs: seq<Record>)
    requires Extends(log, seen, log', seen') && i < |c.ifaces| && AllSendable(c, log, seen, id, i, rs)
    ensures AllSendable(c, log', seen', id, i, rs)
  {
    forall r | r in rs ensures Sendable(c, log', seen', id, i, r) {
      assert Sendable(c, log, seen, id, i, r);
      if x :| RelayedBy(c, log, seen, id, i, r, x) { RelayedByGrows(c, log, seen, log', seen', id, i, r, x); }
    }
  }

  lemma ServedGrows(c: Config, log: seq<Event>, seen: seq<Read>, log': seq<Event>, seen': seq<Read>, id: nat, i: nat, l: Lookup,
                    held: set<RecordKey>, held': set<RecordKey>)
    requires Extends(log, seen, log', seen') && i < |c.ifaces| && held <= held' && Served(c, log, seen, id, i, l, held)
    ensures Served(c, log', seen', id, i, l, held')
  {
    var x :| ServedBy(c, log, seen, id, i, l, held, x);
    assert log'[..seen[x].at] == log[..seen[x].at];
    assert ServedBy(c, log', seen', id, i, l, held', x);
  }

  lemma AllWantedGrows(c: Config, log: seq<Event>, seen: seq<Read>, log': seq<Event>, seen': seq<Read>, id: nat, i: nat,
                       rs: seq<Record>, asked: seq<Lookup>, asked': seq<Lookup>)
    requires Extends(log, seen, log', seen') && i < |c.ifaces| && AllWanted(c, log, seen, id, i, rs, asked)
    requires forall l :: l in asked ==> l in asked'
    ensures AllWanted(c, log', seen', id, i, rs, asked')
  {
    forall r | r in rs ensures Wanted(c, log', seen', id, i, r, asked') {
      assert Wanted(c, log, seen, id, i, r, asked);
      var x :| RelayedBy(c, log, seen, id, i, r, x) && seen[x].adding && seen[x].lookup in asked;
      RelayedByGrows(c, log, seen, log', seen', id, i, r, x);
    }
  }

  lemma ProgressGrows(c: Config, log: seq<Event>, seen: seq<Read>, log': seq<Event>, seen': seq<Read>, id: nat, i: nat,
                      answers: seq<Record>, adds: seq<Record>, todo: seq<Lookup>, second: bool)
    requires Extends(log, seen, log', seen') && i < |c.ifaces| && Progress(c, log, seen, id, i, answers, adds, todo, second)
    ensures Progress(c, log', seen', id, i, answers, adds, todo, second)
  {
    if c.fromCache {
      var asked, held := Asked(answers, adds, second), KeysOf(answers) + KeysOf(adds);
      AllWantedGrows(c, log, seen, log', seen', id, i, adds, asked, asked);
      forall l | l in asked && l !in todo ensures Served(c, log', seen', id, i, l, held) {
        ServedGrows(c, log, seen, log', seen', id, i, l, held, held);
      }
    }
  }

  lemma HandlerGrows(c: Config, log: seq<Event>, seen: seq<Read>, log': seq<Event>, seen': seq<Read>, id: nat, h: Handler)
    requires Extends(log, seen, log', seen') && HandlerRecords(c, log, seen, id, h) && HandlerLookups(c, log, seen, id, h)
    ensures HandlerRecords(c, log', seen', id, h) && HandlerLookups(c, log', seen', id, h)
  {
    AllSendableGrows(c, log, seen, log', seen', id, h.i, Holds(h));
    match h
    case Adding(i, _, answers, adds, todo, second) =>
      ProgressGrows(c, log, seen, log', seen', id, i, answers, adds, todo, second);
    case Sleeping(i, _, answers, adds, _, _) =>
      ProgressGrows(c, log, seen, log', seen', id, i, answers, adds, [], true);
    case _ =>
  }

  lemma RecordsGrow(c: Config, log: seq<Event>, seen: seq<Read>, log': seq<Event>, seen': seq<Read>, handlers: map<nat, Handler>,
                    wire: seq<Packet>)
    requires Extends(log, seen, log', seen') && RecordsHold(c, log, seen, handlers, wire)
    ensures RecordsHold(c, log', seen', handlers, wire)
  {
    forall id | id in handlers
      ensures HandlerRecords(c, log', seen', id, handlers[id]) && HandlerLookups(c, log', seen', id, handlers[id])
    {
      HandlerGrows(c, log, seen, log', seen', id, handlers[id]);
    }
    forall p | p in wire ensures PacketRecords(c, log', seen', p) {
      AllSendableGrows(c, log, seen, log', seen', p.handler, p.i, p.answers + p.adds);
    }
  }

  lemma CacheStep(c: Config, s: State, e: Event, ingestions: map<nat, Ingestion>)
    requires Inv(c, s) && Legal(c.limits, CacheTable(c, s), e) && |ingestions| == |s.ingestions|
    ensures Inv(c, s.(cacheLog := s.cacheLog + [e], ingestions := ingestions))
  {
    assert (s.cacheLog + [e])[..|s.cacheLog|] == s.cacheLog;
    RecordsGrow(c, s.cacheLog, s.lookups, s.cacheLog + [e], s.lookups, s.handlers, s.wire);
  }

  // ---- the limiter's log only grows ----

  lemma OpsGrow(ops: seq<Op>, op: Op, id: nat)
    ensures forall a :: CheckBy(ops + [op], a, id) <==>
                        CheckBy(ops, a, id) || (a == |ops| && op.Check? && op.handler == id)
    ensures forall a :: CheckBy(ops, a, id) ==> (ops + [op])[a] == ops[a]
    ensures AcceptedBy(ops + [op], id) == AcceptedBy(ops, id)
              + (if op.Check? && op.handler == id && Allows(Stamped(ops, true), op.slot, op.now, op.interval)
                 then [op.slot] else [])
  {
    assert (ops + [op])[..|ops|] == ops;
  }

  predicate Foreign(op: Op, id: nat) {
    op.Check? ==> op.handler != id
  }

  lemma HistoryGrows(ops: seq<Op>, op: Op, id: nat, ifindex: u32, kept: seq<Record>, waiting: seq<Record>,
                     asking: Option<Asking>)
    requires History(ops, id, ifindex, kept, waiting, asking) && Foreign(op, id)
    ensures History(ops + [op], id, ifindex, kept, waiting, asking)
  {
    OpsGrow(ops, op, id);
  }

  /** The limiter's log grows; only the asking handler, if any, is left to prove. */
  lemma LimiterGrows(c: Config, ops: seq<Op>, op: Op, handlers: map<nat, Handler>, wire: seq<Packet>)
    requires AllHandlerOps(c, ops, handlers) && AllPacketOps(c, ops, wire)
    requires forall p :: p in wire ==> Foreign(op, p.handler)
    ensures forall id :: id in handlers && Foreign(op, id) ==> HandlerOps(c, ops + [op], id, handlers[id])
    ensures AllPacketOps(c, ops + [op], wire)
  {
    forall id | id in handlers && Foreign(op, id) ensures HandlerOps(c, ops + [op], id, handlers[id]) {
      var h := handlers[id];
      HistoryGrows(ops, op, id, c.ifaces[h.i].ifindex, Kept(h), Waiting(h), AskingOf(c, h));
    }
    forall p | p in wire ensures PacketOps(c, ops + [op], p) {
      HistoryGrows(ops, op, p.handler, c.ifaces[p.i].ifindex, p.answers + p.adds, [],
                   Some(Asking(IntervalFor(c, p.i, p.msg), p.woke)));
    }
  }

  lemma SilentGrows(ops: seq<Op>, op: Op, handlers: map<nat, Handler>, wire: seq<Packet>, nextId: nat)
    requires Silent(ops, handlers, wire, nextId)
    requires op.Check? ==> op.handler in handlers && op.handler < nextId
    ensures Silent(ops + [op], handlers, wire, nextId)
  {
    forall id: nat | id !in handlers && !Sent(wire, id) ensures AcceptedBy(ops + [op], id) == [] {
      OpsGrow(ops, op, id);
    }
    forall id: nat, a | nextId <= id ensures !CheckBy(ops + [op], a, id) {
      OpsGrow(ops, op, id);
    }
  }

  lemma UnrelatedOpStep(c: Config, s: State, op: Op)
    requires Inv(c, s) && !op.Check?
    ensures Inv(c, s.(ops := s.ops + [op]))
  {
    LimiterGrows(c, s.ops, op, s.handlers, s.wire);
    LawfulGrows(s.ops, op);
    SilentGrows(s.ops, op, s.handlers, s.wire, s.nextId);
  }

  // ---- handlers come, change and go ----

  lemma RecordsWith(c: Config, log: seq<Event>, seen: seq<Read>, handlers: map<nat, Handler>, wire: seq<Packet>, id: nat, h: Handler)
    requires RecordsHold(c, log, seen, handlers, wire) && HandlerRecords(c, log, seen, id, h) && HandlerLookups(c, log, seen, id, h)
    ensures RecordsHold(c, log, seen, handlers[id := h], wire)
  {
  }

  lemma LimiterWith(c: Config, ops: seq<Op>, handlers: map<nat, Handler>, wire: seq<Packet>, id: nat, h: Handler)
    requires LimiterHolds(c, ops, handlers, wire) && HandlerOps(c, ops, id, h)
    ensures LimiterHolds(c, ops, handlers[id := h], wire)
  {
  }

  lemma RecordsWithout(c: Config, log: seq<Event>, seen: seq<Read>, handlers: map<nat, Handler>, wire: seq<Packet>, id: nat)
    requires RecordsHold(c, log, seen, handlers, wire)
    ensures RecordsHold(c, log, seen, handlers - {id}, wire)
  {
  }

  lemma LimiterWithout(c: Config, ops: seq<Op>, handlers: map<nat, Handler>, wire: seq<Packet>, id: nat)
    requires LimiterHolds(c, ops, handlers, wire)
    ensures LimiterHolds(c, ops, handlers - {id}, wire)
  {
  }

  lemma OneFewer(handlers: map<nat, Handler>, id: nat)
    requires id in handlers
    ensures |handlers - {id}| == |handlers| - 1
  {
    assert handlers.Keys == (handlers - {id}).Keys + {id};
  }

  lemma FreshHandler(c: Config, log: seq<Event>, seen: seq<Read>, ops: seq<Op>, id: nat, i: nat, msg: Message)
    requires i < |c.ifaces| && AcceptedBy(ops, id) == [] && forall a :: !CheckBy(ops, a, id)
    ensures HandlerRecords(c, log, seen, id, Handler.Gathering(i, msg, 0, []))
    ensures HandlerLookups(c, log, seen, id, Handler.Gathering(i, msg, 0, []))
    ensures HandlerOps(c, ops, id, Handler.Gathering(i, msg, 0, []))
  {
    assert SlotsOf(c.ifaces[i].ifindex, []) == [];
  }

  lemma NextIdTaken(ops: seq<Op>, handlers: map<nat, Handler>, wire: seq<Packet>, nextId: nat, h: Handler)
    requires Ids(handlers, wire, nextId) && Silent(ops, handlers, wire, nextId)
    ensures Ids(handlers[nextId := h], wire, nextId + 1) && Silent(ops, handlers[nextId := h], wire, nextId + 1)
    ensures |handlers[nextId := h]| <= |handlers| + 1
    ensures AcceptedBy(ops, nextId) == [] && forall a :: !CheckBy(ops, a, nextId)
  {
    assert handlers[nextId := h].Keys == handlers.Keys + {nextId};
    assert !Sent(wire, nextId);
  }

  lemma HearQueryStep(c: Config, s: State, i: nat, msg: Message)
    requires Inv(c, s) && PermitFree(s) && i < |c.ifaces|
    ensures Inv(c, s.(handlers := s.handlers[s.nextId := Handler.Gathering(i, msg, 0, [])], nextId := s.nextId + 1))
  {
    var id, h := s.nextId, Handler.Gathering(i, msg, 0, []);
    NextIdTaken(s.ops, s.handlers, s.wire, id, h);
    FreshHandler(c, s.cacheLog, s.lookups, s.ops, id, i, msg);
    RecordsWith(c, s.cacheLog, s.lookups, s.handlers, s.wire, id, h);
    LimiterWith(c, s.ops, s.handlers, s.wire, id, h);
  }

  lemma SameIds(ops: seq<Op>, handlers: map<nat, Handler>, wire: seq<Packet>, nextId: nat, id: nat, h: Handler)
    requires Ids(handlers, wire, nextId) && Silent(ops, handlers, wire, nextId) && id in handlers
    ensures Ids(handlers[id := h], wire, nextId) && Silent(ops, handlers[id := h], wire, nextId)
    ensures |handlers[id := h]| == |handlers|
  {
    assert handlers[id := h].Keys == handlers.Keys;
  }

  /** A handler changes, possibly after it has read the cache. */
  lemma InvBecome(c: Config, s: State, id: nat, h: Handler, more: seq<Read>)
    requires Inv(c, s) && id in s.handlers
    requires HandlerRecords(c, s.cacheLog, s.lookups + more, id, h) && HandlerLookups(c, s.cacheLog, s.lookups + more, id, h)
    requires HandlerOps(c, s.ops, id, h)
    ensures Inv(c, Become(s, id, h).(lookups := s.lookups + more))
  {
    SameIds(s.ops, s.handlers, s.wire, s.nextId, id, h);
    RecordsGrow(c, s.cacheLog, s.lookups, s.cacheLog, s.lookups + more, s.handlers, s.wire);
    RecordsWith(c, s.cacheLog, s.lookups + more, s.handlers, s.wire, id, h);
    LimiterWith(c, s.ops, s.handlers, s.wire, id, h);
  }

  lemma InvReplace(c: Config, s: State, id: nat, h: Handler)
    requires Inv(c, s) && id in s.handlers && HandlerOps(c, s.ops, id, h)
    requires HandlerRecords(c, s.cacheLog, s.lookups, id, h) && HandlerLookups(c, s.cacheLog, s.lookups, id, h)
    ensures Inv(c, Become(s, id, h))
  {
    assert s.lookups + [] == s.lookups;
    InvBecome(c, s, id, h, []);
  }

  lemma LawfulGrows(ops: seq<Op>, op: Op)
    requires AllLawful(ops) && (op.Check? ==> LawfulInterval(op.interval))
    ensures AllLawful(ops + [op])
  {
  }

  lemma OthersKeepOps(c: Config, ops: seq<Op>, handlers: map<nat, Handler>, id: nat, h: Handler)
    requires HandlerOps(c, ops, id, h) && forall other :: other in handlers && other != id ==> HandlerOps(c, ops, other, handlers[other])
    ensures AllHandlerOps(c, ops, handlers[id := h])
  {
  }

  lemma AskGrows(c: Config, ops: seq<Op>, op: Op, handlers: map<nat, Handler>, wire: seq<Packet>, nextId: nat,
                 id: nat, h: Handler)
    requires LimiterHolds(c, ops, handlers, wire) && Ids(handlers, wire, nextId)
    requires id in handlers && op.Check? && op.handler == id && LawfulInterval(op.interval) && HandlerOps(c, ops + [op], id, h)
    ensures LimiterHolds(c, ops + [op], handlers[id := h], wire)
  {
    LimiterGrows(c, ops, op, handlers, wire);
    forall other | other in handlers && other != id ensures HandlerOps(c, ops + [op], other, handlers[other]) {
      assert Foreign(op, other);
    }
    OthersKeepOps(c, ops + [op], handlers, id, h);
    LawfulGrows(ops, op);
  }

  lemma InvAsk(c: Config, s: State, id: nat, h: Handler, op: Op)
    requires Inv(c, s) && id in s.handlers && op.Check? && op.handler == id && LawfulInterval(op.interval)
    requires HandlerRecords(c, s.cacheLog, s.lookups, id, h) && HandlerLookups(c, s.cacheLog, s.lookups, id, h)
    requires HandlerOps(c, s.ops + [op], id, h)
    ensures Inv(c, Become(s, id, h).(ops := s.ops + [op]))
  {
    AskGrows(c, s.ops, op, s.handlers, s.wire, s.nextId, id, h);
    SilentGrows(s.ops, op, s.handlers, s.wire, s.nextId);
    SameIds(s.ops + [op], s.handlers, s.wire, s.nextId, id, h);
    RecordsWith(c, s.cacheLog, s.lookups, s.handlers, s.wire, id, h);
  }

  lemma InvFinish(c: Config, s: State, id: nat)
    requires Inv(c, s) && id in s.handlers && AcceptedBy(s.ops, id) == []
    ensures Inv(c, Finish(s, id))
  {
    var handlers := s.handlers - {id};
    assert Ids(handlers, s.wire, s.nextId) && Silent(s.ops, handlers, s.wire, s.nextId);
    RecordsWithout(c, s.cacheLog, s.lookups, s.handlers, s.wire, id);
    LimiterWithout(c, s.ops, s.handlers, s.wire, id);
    OneFewer(s.handlers, id);
  }

  lemma SentGrows(wire: seq<Packet>, p: Packet, id: nat)
    ensures Sent(wire + [p], id) <==> Sent(wire, id) || p.handler == id
  {
    if Sent(wire, id) {
      var q :| q in wire && q.handler == id;
      assert q in wire + [p];
    }
    assert p in wire + [p];
  }

  lemma BuiltPacket(c: Config, log: seq<Event>, seen: seq<Read>, ops: seq<Op>, id: nat, h: Handler)
    requires HandlerRecords(c, log, seen, id, h) && HandlerOps(c, ops, id, h) && h.CheckingAdds? && h.rest == []
    ensures PacketRecords(c, log, seen, SentBy(id, h)) && PacketOps(c, ops, SentBy(id, h))
  {
    assert h.answers + h.kept + h.rest == h.answers + h.kept;
  }

  lemma PacketsWith(c: Config, log: seq<Event>, seen: seq<Read>, ops: seq<Op>, handlers: map<nat, Handler>, wire: seq<Packet>, p: Packet)
    requires RecordsHold(c, log, seen, handlers, wire) && LimiterHolds(c, ops, handlers, wire)
    requires PacketRecords(c, log, seen, p) && PacketOps(c, ops, p)
    ensures RecordsHold(c, log, seen, handlers, wire + [p]) && LimiterHolds(c, ops, handlers, wire + [p])
  {
  }

  lemma SilentAfterSend(ops: seq<Op>, handlers: map<nat, Handler>, wire: seq<Packet>, nextId: nat, p: Packet)
    requires Silent(ops, handlers, wire, nextId) && p.handler in handlers
    ensures Silent(ops, handlers - {p.handler}, wire + [p], nextId)
  {
    forall id: nat | id !in handlers - {p.handler} && !Sent(wire + [p], id) ensures AcceptedBy(ops, id) == [] {
      SentGrows(wire, p, id);
    }
  }

  lemma IdsAfterSend(handlers: map<nat, Handler>, wire: seq<Packet>, nextId: nat, p: Packet)
    requires Ids(handlers, wire, nextId) && p.handler in handlers
    ensures Ids(handlers - {p.handler}, wire + [p], nextId)
  {
    forall i | 0 <= i < |wire| ensures wire[i].handler != p.handler { assert wire[i] in wire; }
  }

  lemma SendStep(c: Config, s: State, id: nat)
    requires Inv(c, s) && id in s.handlers && s.handlers[id].CheckingAdds? && s.handlers[id].rest == []
    ensures Inv(c, Finish(s, id).(wire := s.wire + [SentBy(id, s.handlers[id])]))
  {
    var h, p := s.handlers[id], SentBy(id, s.handlers[id]);
    BuiltPacket(c, s.cacheLog, s.lookups, s.ops, id, h);
    RecordsWithout(c, s.cacheLog, s.lookups, s.handlers, s.wire, id);
    LimiterWithout(c, s.ops, s.handlers, s.wire, id);
    OneFewer(s.handlers, id);
    PacketsWith(c, s.cacheLog, s.lookups, s.ops, s.handlers - {id}, s.wire, p);
    IdsAfterSend(s.handlers, s.wire, s.nextId, p);
    SilentAfterSend(s.ops, s.handlers, s.wire, s.nextId, p);
  }

  // ---- gathering ----

  /** What a lookup found, the moment it is logged. */
  lemma FoundIsRelayed(c: Config, s: State, id: nat, i: nat, read: Read, found: seq<Record>, r: Record)
    requires i < |c.ifaces| && read.handler == id && read.at == |s.cacheLog|
    requires Found(c, s, i, read.lookup.name, read.lookup.rtype, read.now, found) && r in found
    ensures RelayedBy(c, s.cacheLog, s.lookups + [read], id, i, r, |s.lookups|)
  {
    WellKeyedRun(c.limits, s.cacheLog);
    OtherViewIsRelayable(CacheTable(c, s), read.lookup.name, read.lookup.rtype, c.ifaces[i].ifindex, read.now, found);
    OtherViewKeys(CacheTable(c, s), read.lookup.name, read.lookup.rtype, c.ifaces[i].ifindex, read.now);
    assert s.cacheLog[..|s.cacheLog|] == s.cacheLog;
  }

  lemma DistinctConcat(a: seq<Record>, b: seq<Record>)
    requires DistinctKeys(a) && DistinctKeys(b) && KeysOf(a) !! KeysOf(b)
    ensures DistinctKeys(a + b)
  {
    forall i, j | 0 <= i < |a| && 0 <= j < |b| ensures KeyOf(a[i]) != KeyOf(b[j]) {
      assert a[i] in a && b[j] in b;
      assert KeyOf(a[i]) in KeysOf(a) && KeyOf(b[j]) in KeysOf(b);
    }
  }

  lemma DistinctParts(a: seq<Record>, b: seq<Record>)
    requires DistinctKeys(a + b)
    ensures DistinctKeys(a) && DistinctKeys(b) && KeysOf(a) !! KeysOf(b)
  {
    forall i, j | 0 <= i < j < |a| ensures KeyOf(a[i]) != KeyOf(a[j]) {
      assert (a + b)[i] == a[i] && (a + b)[j] == a[j];
    }
    forall i, j | 0 <= i < j < |b| ensures KeyOf(b[i]) != KeyOf(b[j]) {
      assert (a + b)[|a| + i] == b[i] && (a + b)[|a| + j] == b[j];
    }
    forall x, y | x in a && y in b ensures KeyOf(x) != KeyOf(y) {
      var i :| 0 <= i < |a| && a[i] == x;
      var j :| 0 <= j < |b| && b[j] == y;
      assert (a + b)[i] == x && (a + b)[|a| + j] == y;
    }
  }

  /** A handler that has not asked yet owes nothing to the limiter's log. */
  lemma NotAskedYet(c: Config, ops: seq<Op>, id: nat, h: Handler, h': Handler)
    requires HandlerOps(c, ops, id, h) && !Checks(h) && !h'.CheckingAdds? && h'.i == h.i
    requires h'.CheckingAnswers? ==> h'.kept == []
    ensures HandlerOps(c, ops, id, h')
  {
  }

  /** A record the interface owns, or one just found, that answers question `q`. */
  ghost predicate Fits(c: Config, log: seq<Event>, seen: seq<Read>, id: nat, i: nat, msg: Message, r: Record)
    requires i < |c.ifaces|
  {
    Sendable(c, log, seen, id, i, r) && AnswersQuery(msg, r)
  }

  lemma OwnFits(c: Config, log: seq<Event>, seen: seq<Read>, id: nat, i: nat, msg: Message, q: Question, r: Record)
    requires WellFormed(c.published) && i < |c.ifaces| && q in msg.queries && r in Own(c.published, q, c.ifaces[i])
    ensures Fits(c, log, seen, id, i, msg, r)
  {
    OwnIsExact(c.published, q, c.ifaces[i]);
    assert Asks(Lookup(q.name, q.qtype), KeyOf(r));
  }

  lemma GatheredFits(c: Config, log: seq<Event>, seen: seq<Read>, id: nat, i: nat, msg: Message, answers: seq<Record>,
                     own: seq<Record>, found: seq<Record>)
    requires i < |c.ifaces| && DistinctKeys(answers)
    requires forall r :: r in answers || r in own || r in found ==> Fits(c, log, seen, id, i, msg, r)
    ensures var all := PushNew(PushNew(answers, {}, own), {}, found);
            DistinctKeys(all) && AllSendable(c, log, seen, id, i, all) && AllAsked(msg, all)
  {
    PushNewKeeps(answers, {}, own);
    PushNewKeeps(PushNew(answers, {}, own), {}, found);
    var all := PushNew(PushNew(answers, {}, own), {}, found);
    forall r | r in all ensures Fits(c, log, seen, id, i, msg, r) {}
  }

  lemma FoundFits(c: Config, s: State, id: nat, i: nat, msg: Message, q: Question, read: Read, found: seq<Record>, r: Record)
    requires i < |c.ifaces| && q in msg.queries && read == Read(id, false, Lookup(q.name, q.qtype), |s.cacheLog|, read.now)
    requires Found(c, s, i, q.name, q.qtype, read.now, found) && r in found
    ensures Fits(c, s.cacheLog, s.lookups + [read], id, i, msg, r)
  {
    FoundIsRelayed(c, s, id, i, read, found, r);
  }

  lemma GatherKeeps(c: Config, s: State, id: nat, p: Preparation, h: Handler)
    requires WellFormed(c.published) && HandlerRecords(c, s.cacheLog, s.lookups, id, h)
    requires p.Gather? && PreparationEnabled(c, s, p, h)
    ensures HandlerRecords(c, s.cacheLog, s.lookups + NewReads(c, s, id, p, h), id, Prepared(c, s, p, h))
  {
    var q := h.msg.queries[h.next];
    var own, seen := Own(c.published, q, c.ifaces[h.i]), s.lookups + NewReads(c, s, id, p, h);
    AllSendableGrows(c, s.cacheLog, s.lookups, s.cacheLog, seen, id, h.i, h.answers);
    forall r | r in h.answers || r in own || r in p.found ensures Fits(c, s.cacheLog, seen, id, h.i, h.msg, r) {
      if r in own {
        OwnFits(c, s.cacheLog, seen, id, h.i, h.msg, q, r);
      } else if r in p.found {
        FoundFits(c, s, id, h.i, h.msg, q, NewReads(c, s, id, p, h)[0], p.found, r);
      }
    }
    GatheredFits(c, s.cacheLog, seen, id, h.i, h.msg, h.answers, own, p.found);
  }

  // ---- suppression ----

  lemma SuppressKeeps(c: Config, log: seq<Event>, seen: seq<Read>, id: nat, h: Handler)
    requires HandlerRecords(c, log, seen, id, h) && h.Gathering?
    ensures var h' := AfterSuppress(c, h, Unknown(h.answers, h.msg.answers));
            HandlerRecords(c, log, seen, id, h') && HandlerLookups(c, log, seen, id, h')
  {
    UnknownMember(h.answers, h.msg.answers);
    var left := Unknown(h.answers, h.msg.answers);
    assert left + [] == left;
    assert Asked(left, [], false) == PtrLookups(left);
  }

  lemma SuppressStep(c: Config, s: State, id: nat)
    requires Inv(c, s) && id in s.handlers && s.handlers[id].Gathering?
    ensures var h := s.handlers[id];
            var left := Unknown(h.answers, h.msg.answers);
            Inv(c, if left == [] then Finish(s, id) else Become(s, id, AfterSuppress(c, h, left)))
  {
    var h := s.handlers[id];
    var left := Unknown(h.answers, h.msg.answers);
    assert HandlerRecords(c, s.cacheLog, s.lookups, id, h) && HandlerOps(c, s.ops, id, h);
    if left == [] {
      InvFinish(c, s, id);
    } else {
      SuppressKeeps(c, s.cacheLog, s.lookups, id, h);
      NotAskedYet(c, s.ops, id, h, AfterSuppress(c, h, left));
      InvReplace(c, s, id, AfterSuppress(c, h, left));
    }
  }

  // ---- adding ----

  lemma AddKeepsRecords(c: Config, s: State, id: nat, p: Preparation, h: Handler)
    requires HandlerRecords(c, s.cacheLog, s.lookups, id, h) && p.Add? && PreparationEnabled(c, s, p, h)
    ensures HandlerRecords(c, s.cacheLog, s.lookups + NewReads(c, s, id, p, h), id, Prepared(c, s, p, h))
  {
    var seen := s.lookups + NewReads(c, s, id, p, h);
    var more := PushNew(h.adds, KeysOf(h.answers), p.found);
    AllSendableGrows(c, s.cacheLog, s.lookups, s.cacheLog, seen, id, h.i, h.answers + h.adds);
    DistinctParts(h.answers, h.adds);
    PushNewKeeps(h.adds, KeysOf(h.answers), p.found);
    DistinctConcat(h.answers, more);
    forall r | r in h.answers + more ensures Sendable(c, s.cacheLog, seen, id, h.i, r) {
      if r in h.answers + h.adds {
        assert Sendable(c, s.cacheLog, seen, id, h.i, r);
      } else {
        FoundIsRelayed(c, s, id, h.i, NewReads(c, s, id, p, h)[0], p.found, r);
      }
    }
  }

  /** What is pushed onto a list comes from the pushed records. */
  lemma {:induction false} PushNewTail(out: seq<Record>, blocked: set<RecordKey>, rs: seq<Record>)
    ensures out <= PushNew(out, blocked, rs)
    ensures forall r :: r in PushNew(out, blocked, rs)[|out|..] ==> r in rs
  {
    if rs != [] {
      var init, r := rs[..|rs| - 1], rs[|rs| - 1];
      PushNewTail(out, blocked, init);
      var before := PushNew(out, blocked, init);
      assert (before + [r])[|out|..] == before[|out|..] + [r];
      assert rs == init + [r];
    }
  }

  /** An address lookup finds no SRV that would call for more. */
  lemma SrvStays(rs: seq<Record>, l: Lookup, more: seq<Record>)
    requires l.rtype == A || l.rtype == AAAA
    requires forall r :: r in more ==> Asks(l, KeyOf(r))
    ensures SrvLookups(rs + more) == SrvLookups(rs)
  {
    assert forall r :: r in more ==> !r.data.SrvData?;
    SrvLookupsConcat(rs, more);
  }

  lemma AskedStays(answers: seq<Record>, adds: seq<Record>, l: Lookup, found: seq<Record>)
    requires l in SrvLookups(answers + adds)
    requires forall r :: r in found ==> Asks(l, KeyOf(r))
    ensures SrvLookups(answers + PushNew(adds, KeysOf(answers), found)) == SrvLookups(answers + adds)
  {
    PushNewTail(adds, KeysOf(answers), found);
    var all := PushNew(adds, KeysOf(answers), found);
    var tail := all[|adds|..];
    assert l.rtype == A || l.rtype == AAAA by { LookupTypes(answers + adds); }
    assert answers + all == answers + adds + tail;
    SrvStays(answers + adds, l, tail);
  }

  lemma AddServes(c: Config, s: State, id: nat, i: nat, read: Read, found: seq<Record>, held: set<RecordKey>)
    requires i < |c.ifaces| && read == Read(id, true, read.lookup, |s.cacheLog|, read.now) && KeysOf(found) <= held
    requires Found(c, s, i, read.lookup.name, read.lookup.rtype, read.now, found)
    ensures Served(c, s.cacheLog, s.lookups + [read], id, i, read.lookup, held)
  {
    WellKeyedRun(c.limits, s.cacheLog);
    var l := read.lookup;
    OtherViewKeys(CacheTable(c, s), l.name, l.rtype, c.ifaces[i].ifindex, read.now);
    OtherViewIsRelayable(CacheTable(c, s), l.name, l.rtype, c.ifaces[i].ifindex, read.now, found);
    assert s.cacheLog[..|s.cacheLog|] == s.cacheLog;
    assert ServedBy(c, s.cacheLog, s.lookups + [read], id, i, l, held, |s.lookups|);
  }

  /** The records kept so far and those just found are all wanted. */
  lemma AddWants(c: Config, s: State, id: nat, i: nat, read: Read, found: seq<Record>, adds: seq<Record>, all: seq<Record>, asked: seq<Lookup>)
    requires i < |c.ifaces| && read == Read(id, true, read.lookup, |s.cacheLog|, read.now) && read.lookup in asked
    requires Found(c, s, i, read.lookup.name, read.lookup.rtype, read.now, found)
    requires AllWanted(c, s.cacheLog, s.lookups, id, i, adds, asked)
    requires forall r :: r in all ==> r in adds || r in found
    ensures AllWanted(c, s.cacheLog, s.lookups + [read], id, i, all, asked)
  {
    AllWantedGrows(c, s.cacheLog, s.lookups, s.cacheLog, s.lookups + [read], id, i, adds, asked, asked);
    forall r | r in all ensures Wanted(c, s.cacheLog, s.lookups + [read], id, i, r, asked) {
      if r in adds {
        assert Wanted(c, s.cacheLog, s.lookups + [read], id, i, r, asked);
      } else {
        FoundIsRelayed(c, s, id, i, read, found, r);
      }
    }
  }

  lemma AllServedNext(c: Config, s: State, id: nat, i: nat, read: Read, asked: seq<Lookup>, todo: seq<Lookup>,
                      held: set<RecordKey>, held': set<RecordKey>)
    requires i < |c.ifaces| && todo != [] && read.lookup == todo[0] && held <= held'
    requires AllServed(c, s.cacheLog, s.lookups, id, i, asked, todo, held)
    requires Served(c, s.cacheLog, s.lookups + [read], id, i, todo[0], held')
    ensures AllServed(c, s.cacheLog, s.lookups + [read], id, i, asked, todo[1..], held')
  {
    forall l | l in asked && l !in todo[1..] ensures Served(c, s.cacheLog, s.lookups + [read], id, i, l, held') {
      if l != todo[0] {
        ServedGrows(c, s.cacheLog, s.lookups, s.cacheLog, s.lookups + [read], id, i, l, held, held');
      }
    }
  }

  lemma AddedKeys(answers: seq<Record>, adds: seq<Record>, found: seq<Record>)
    requires DistinctKeys(answers + adds)
    ensures var all := PushNew(adds, KeysOf(answers), found);
            && KeysOf(adds) <= KeysOf(all) && KeysOf(found) <= KeysOf(answers) + KeysOf(all)
            && forall r :: r in all ==> r in adds || r in found
  {
    DistinctParts(answers, adds);
    PushNewKeeps(adds, KeysOf(answers), found);
  }

  lemma FoundAsks(c: Config, s: State, i: nat, l: Lookup, now: Time, found: seq<Record>)
    requires i < |c.ifaces| && Found(c, s, i, l.name, l.rtype, now, found)
    ensures forall r :: r in found ==> Asks(l, KeyOf(r))
  {
    forall r | r in found ensures Asks(l, KeyOf(r)) {
      FoundIsRelayed(c, s, 0, i, Read(0, true, l, |s.cacheLog|, now), found, r);
    }
  }

  lemma AddServesAll(c: Config, s: State, id: nat, i: nat, answers: seq<Record>, adds: seq<Record>, todo: seq<Lookup>,
                     asked: seq<Lookup>, read: Read, found: seq<Record>)
    requires i < |c.ifaces| && todo != [] && read == Read(id, true, todo[0], |s.cacheLog|, read.now)
    requires AllServed(c, s.cacheLog, s.lookups, id, i, asked, todo, KeysOf(answers) + KeysOf(adds)) && DistinctKeys(answers + adds)
    requires Found(c, s, i, todo[0].name, todo[0].rtype, read.now, found)
    ensures var all := PushNew(adds, KeysOf(answers), found);
            AllServed(c, s.cacheLog, s.lookups + [read], id, i, asked, todo[1..], KeysOf(answers) + KeysOf(all))
  {
    var all := PushNew(adds, KeysOf(answers), found);
    var held, held' := KeysOf(answers) + KeysOf(adds), KeysOf(answers) + KeysOf(all);
    AddedKeys(answers, adds, found);
    AddServes(c, s, id, i, read, found, held');
    AllServedNext(c, s, id, i, read, asked, todo, held, held');
  }

  lemma AddProgress(c: Config, s: State, id: nat, i: nat, answers: seq<Record>, adds: seq<Record>, todo: seq<Lookup>,
                    second: bool, read: Read, found: seq<Record>)
    requires c.fromCache && i < |c.ifaces| && todo != [] && read == Read(id, true, todo[0], |s.cacheLog|, read.now)
    requires Progress(c, s.cacheLog, s.lookups, id, i, answers, adds, todo, second) && DistinctKeys(answers + adds)
    requires Found(c, s, i, todo[0].name, todo[0].rtype, read.now, found)
    ensures Progress(c, s.cacheLog, s.lookups + [read], id, i, answers, PushNew(adds, KeysOf(answers), found), todo[1..], second)
  {
    var all, asked := PushNew(adds, KeysOf(answers), found), Asked(answers, adds, second);
    assert todo[0] in todo && forall l :: l in todo[1..] ==> l in todo;
    FoundAsks(c, s, i, todo[0], read.now, found);
    if second { AskedStays(answers, adds, todo[0], found); }
    AddServesAll(c, s, id, i, answers, adds, todo, asked, read, found);
    assert AllWanted(c, s.cacheLog, s.lookups + [read], id, i, all, asked) by {
      AddedKeys(answers, adds, found);
      AddWants(c, s, id, i, read, found, adds, all, asked);
    }
  }

  lemma AddKeepsLookups(c: Config, s: State, id: nat, p: Preparation, h: Handler)
    requires HandlerRecords(c, s.cacheLog, s.lookups, id, h) && HandlerLookups(c, s.cacheLog, s.lookups, id, h)
    requires p.Add? && PreparationEnabled(c, s, p, h)
    ensures HandlerLookups(c, s.cacheLog, s.lookups + NewReads(c, s, id, p, h), id, Prepared(c, s, p, h))
  {
    AddProgress(c, s, id, h.i, h.answers, h.adds, h.todo, h.second, Read(id, true, h.todo[0], |s.cacheLog|, p.now), p.found);
  }

  lemma SecondPassKeepsLookups(c: Config, log: seq<Event>, seen: seq<Read>, id: nat, h: Handler)
    requires h.Adding? && h.todo == [] && !h.second && HandlerLookups(c, log, seen, id, h)
    ensures HandlerLookups(c, log, seen, id,
                           Handler.Adding(h.i, h.msg, h.answers, h.adds,
                                          if c.fromCache then SrvLookups(h.answers + h.adds) else [], true))
  {
    if c.fromCache {
      AllWantedGrows(c, log, seen, log, seen, id, h.i, h.adds, Asked(h.answers, h.adds, false), Asked(h.answers, h.adds, true));
    }
  }

  // ---- sleeping and waking ----

  lemma DrawnDelayIsEnough(c: Config, i: nat, msg: Message, answers: seq<Record>, delay: nat)
    requires i < |c.ifaces| && DelayAllowed(ClassifyDelay(msg, answers, Defends(c, i, msg)), delay)
    ensures LeastDelay(c, i, msg, answers) <= delay
  {
  }

  /** Fewer answers need no longer delay. */
  lemma LeastDelayShrinks(c: Config, i: nat, msg: Message, rs: seq<Record>, part: seq<Record>)
    requires i < |c.ifaces| && forall r :: r in part ==> r in rs
    ensures LeastDelay(c, i, msg, part) <= LeastDelay(c, i, msg, rs)
  {
  }

  lemma DelayKeeps(c: Config, s: State, id: nat, p: Preparation, h: Handler)
    requires HandlerRecords(c, s.cacheLog, s.lookups, id, h) && HandlerLookups(c, s.cacheLog, s.lookups, id, h)
    requires p.Delay? && PreparationEnabled(c, s, p, h)
    ensures HandlerRecords(c, s.cacheLog, s.lookups, id, Prepared(c, s, p, h))
    ensures HandlerLookups(c, s.cacheLog, s.lookups, id, Prepared(c, s, p, h))
  {
    DrawnDelayIsEnough(c, h.i, h.msg, h.answers, p.delay);
  }

  lemma WokenParts(h: Handler, now: Time)
    requires h.Sleeping?
    ensures var h' := Handler.CheckingAnswers(h.i, h.msg, h.drawn, now, [], h.answers, h.adds);
            Holds(h') == Holds(h) && AnswersOf(h') == AnswersOf(h)
  {
  }

  lemma WakeKeeps(c: Config, log: seq<Event>, seen: seq<Read>, id: nat, now: Time, h: Handler)
    requires HandlerRecords(c, log, seen, id, h) && h.Sleeping? && h.until <= now
    ensures HandlerRecords(c, log, seen, id, Handler.CheckingAnswers(h.i, h.msg, h.drawn, now, [], h.answers, h.adds))
  {
    WokenParts(h, now);
  }

  lemma PreparedKeeps(c: Config, s: State, id: nat, p: Preparation, h: Handler)
    requires HandlerRecords(c, s.cacheLog, s.lookups, id, h) && HandlerLookups(c, s.cacheLog, s.lookups, id, h)
    requires WellFormed(c.published) && PreparationEnabled(c, s, p, h)
    ensures HandlerRecords(c, s.cacheLog, s.lookups + NewReads(c, s, id, p, h), id, Prepared(c, s, p, h))
    ensures HandlerLookups(c, s.cacheLog, s.lookups + NewReads(c, s, id, p, h), id, Prepared(c, s, p, h))
  {
    assert s.lookups + [] == s.lookups;
    match p
    case Gather(_, _) => GatherKeeps(c, s, id, p, h);
    case Add(_, _) => AddKeepsRecords(c, s, id, p, h); AddKeepsLookups(c, s, id, p, h);
    case SecondPass => SecondPassKeepsLookups(c, s.cacheLog, s.lookups, id, h);
    case Delay(_, _) => DelayKeeps(c, s, id, p, h);
    case Wake(now) => WakeKeeps(c, s.cacheLog, s.lookups, id, now, h);
  }

  lemma PrepareStep(c: Config, s: State, id: nat, p: Preparation)
    requires WellFormed(c.published) && Inv(c, s) && id in s.handlers
    requires s.handlers[id].i < |c.ifaces| && PreparationEnabled(c, s, p, s.handlers[id])
    ensures Inv(c, AfterMove(c, s, id, Prepare(p), s.handlers[id]))
  {
    var h := s.handlers[id];
    var h', more := Prepared(c, s, p, h), NewReads(c, s, id, p, h);
    assert HandlerRecords(c, s.cacheLog, s.lookups, id, h) && HandlerOps(c, s.ops, id, h);
    assert HandlerLookups(c, s.cacheLog, s.lookups, id, h);
    PreparedKeeps(c, s, id, p, h);
    NotAskedYet(c, s.ops, id, h, h');
    InvBecome(c, s, id, h', more);
  }

  // ---- asking the limiter ----

  lemma AskedStaysDistinct(kept: seq<Record>, r: Record, later: seq<Record>)
    requires DistinctKeys(kept + ([r] + later))
    ensures DistinctKeys(kept + [r] + later) && DistinctKeys(kept + later)
    ensures forall x :: x in later ==> KeyOf(x) != KeyOf(r)
  {
    assert kept + [r] + later == kept + ([r] + later);
    DistinctParts(kept, [r] + later);
    DistinctParts([r], later);
    KeysOfConcat([r], later);
    DistinctConcat(kept, later);
    assert KeyOf(r) in KeysOf([r]);
  }

  lemma AsksOnceMore(ops: seq<Op>, op: Op, id: nat, ifindex: u32, r: Record, later: seq<Record>)
    requires forall x :: x in later ==> KeyOf(x) != KeyOf(r)
    requires op.Check? && op.handler == id && op.slot == Slot(ifindex, KeyOf(r))
    requires AsksOnce(ops, id, ifindex, [r] + later)
    ensures AsksOnce(ops + [op], id, ifindex, later)
  {
    OpsGrow(ops, op, id);
    assert r in [r] + later;
    assert forall x :: x in later ==> x in [r] + later;
  }

  /** Asking about `r`: it joins the kept ones when granted, and is dropped otherwise. */
  lemma AskNext(ops: seq<Op>, op: Op, id: nat, ifindex: u32, kept: seq<Record>, r: Record, later: seq<Record>, since: Time)
    requires forall x :: x in later ==> KeyOf(x) != KeyOf(r)
    requires op.Check? && op.handler == id && op.slot == Slot(ifindex, KeyOf(r)) && since <= op.now
    requires History(ops, id, ifindex, kept, [r] + later, Some(Asking(op.interval, since)))
    ensures History(ops + [op], id, ifindex, if Granted(ops, op) then kept + [r] else kept, later,
                    Some(Asking(op.interval, since)))
  {
    OpsGrow(ops, op, id);
    assert SlotsOf(ifindex, kept + [r]) == SlotsOf(ifindex, kept) + [op.slot];
    AsksOnceMore(ops, op, id, ifindex, r, later);
  }

  /** What remains of `kept` and `r` before `later`. */
  lemma AskedRecords(c: Config, log: seq<Event>, seen: seq<Read>, id: nat, i: nat, kept: seq<Record>, r: Record, later: seq<Record>, granted: bool)
    requires i < |c.ifaces| && DistinctKeys(kept + ([r] + later)) && AllSendable(c, log, seen, id, i, kept + ([r] + later))
    ensures var kept' := if granted then kept + [r] else kept;
            DistinctKeys(kept' + later) && AllSendable(c, log, seen, id, i, kept' + later)
  {
    AskedStaysDistinct(kept, r, later);
    var kept' := if granted then kept + [r] else kept;
    forall x | x in kept' + later ensures Sendable(c, log, seen, id, i, x) {
      assert x in kept + ([r] + later);
    }
  }

  /** The answers that are left are among those there were. */
  lemma FewerAnswers(c: Config, h: Handler, h': Handler)
    requires h.i < |c.ifaces| && Checks(h) && Checks(h') && h'.i == h.i && h'.msg == h.msg
    requires h'.drawn == h.drawn && h'.woke == h.woke && forall r :: r in AnswersOf(h') ==> r in AnswersOf(h)
    requires AllAsked(h.msg, AnswersOf(h)) && NoneKnown(h.msg, AnswersOf(h)) && Waited(c, h)
    ensures AllAsked(h'.msg, AnswersOf(h')) && NoneKnown(h'.msg, AnswersOf(h')) && Waited(c, h')
  {
    LeastDelayShrinks(c, h.i, h.msg, AnswersOf(h), AnswersOf(h'));
  }

  lemma AnswerAskedParts(h: Handler, granted: bool)
    requires h.CheckingAnswers? && h.rest != []
    ensures var r, later := h.rest[0], h.rest[1..] + h.adds;
            var h' := AnswerAsked(h, granted);
            && Waiting(h) == [r] + later && Waiting(h') == later && Holds(h) == h.kept + ([r] + later)
            && Kept(h') == (if granted then h.kept + [r] else h.kept) && Holds(h') == Kept(h') + later
            && forall x :: x in AnswersOf(h') ==> x in AnswersOf(h)
  {
  }

  lemma AddAskedParts(h: Handler, granted: bool)
    requires h.CheckingAdds? && h.rest != []
    ensures var r, later := h.rest[0], h.rest[1..];
            var h' := AddAsked(h, granted);
            && Waiting(h) == [r] + later && Waiting(h') == later && Holds(h) == Kept(h) + ([r] + later)
            && Kept(h') == (if granted then Kept(h) + [r] else Kept(h)) && Holds(h') == Kept(h') + later
            && AnswersOf(h') == AnswersOf(h)
  {
    assert h.answers + (h.kept + [h.rest[0]]) == h.answers + h.kept + [h.rest[0]];
  }

  /** One record is asked about and leaves the waiting ones. */
  ghost predicate AsksAbout(h: Handler, h': Handler, r: Record, later: seq<Record>, granted: bool) {
    && Checks(h) && Checks(h') && h'.i == h.i && h'.msg == h.msg && h'.drawn == h.drawn && h'.woke == h.woke
    && Waiting(h) == [r] + later && Waiting(h') == later && Holds(h) == Kept(h) + ([r] + later)
    && Kept(h') == (if granted then Kept(h) + [r] else Kept(h)) && Holds(h') == Kept(h') + later
    && (forall x :: x in AnswersOf(h') ==> x in AnswersOf(h))
    && (h'.CheckingAdds? ==> h.CheckingAdds? && h'.answers == h.answers)
  }

  lemma AskedKeepsOps(c: Config, ops: seq<Op>, id: nat, h: Handler, h': Handler, r: Record, later: seq<Record>, op: Op)
    requires h.i < |c.ifaces| && op == CheckOp(c, id, h.i, h.msg, r, op.now)
    requires AsksAbout(h, h', r, later, Granted(ops, op)) && DistinctKeys(Holds(h)) && HandlerOps(c, ops, id, h) && h.woke <= op.now
    ensures HandlerOps(c, ops + [op], id, h')
  {
    assert forall x :: x in later ==> KeyOf(x) != KeyOf(r) by { AskedStaysDistinct(Kept(h), r, later); }
    AskNext(ops, op, id, c.ifaces[h.i].ifindex, Kept(h), r, later, h.woke);
  }

  lemma AskedKeepsRecords(c: Config, log: seq<Event>, seen: seq<Read>, id: nat, h: Handler, h': Handler, r: Record, later: seq<Record>, granted: bool)
    requires HandlerRecords(c, log, seen, id, h) && AsksAbout(h, h', r, later, granted)
    ensures HandlerRecords(c, log, seen, id, h') && HandlerLookups(c, log, seen, id, h')
  {
    AskedRecords(c, log, seen, id, h.i, Kept(h), r, later, granted);
    FewerAnswers(c, h, h');
  }

  /** The handler after its next record was asked about. */
  function AfterCheck(h: Handler, granted: bool): Handler
    requires Checks(h) && h.rest != []
  {
    if h.CheckingAnswers? then AnswerAsked(h, granted) else AddAsked(h, granted)
  }

  lemma CheckAsksAbout(h: Handler, granted: bool)
    requires Checks(h) && h.rest != []
    ensures AsksAbout(h, AfterCheck(h, granted), h.rest[0], if h.CheckingAnswers? then h.rest[1..] + h.adds else h.rest[1..], granted)
  {
    if h.CheckingAnswers? { AnswerAskedParts(h, granted); } else { AddAskedParts(h, granted); }
  }

  lemma CheckStep(c: Config, s: State, id: nat, now: Time)
    requires Inv(c, s) && id in s.handlers && Checks(s.handlers[id]) && s.handlers[id].rest != []
    requires s.handlers[id].i < |c.ifaces| && s.handlers[id].woke <= now
    ensures var h := s.handlers[id];
            var op := CheckOp(c, id, h.i, h.msg, h.rest[0], now);
            Inv(c, Become(s, id, AfterCheck(h, Granted(s.ops, op))).(ops := s.ops + [op]))
  {
    var h := s.handlers[id];
    var op := CheckOp(c, id, h.i, h.msg, h.rest[0], now);
    var granted, later := Granted(s.ops, op), if h.CheckingAnswers? then h.rest[1..] + h.adds else h.rest[1..];
    assert HandlerRecords(c, s.cacheLog, s.lookups, id, h) && HandlerOps(c, s.ops, id, h);
    CheckAsksAbout(h, granted);
    AskedKeepsRecords(c, s.cacheLog, s.lookups, id, h, AfterCheck(h, granted), h.rest[0], later, granted);
    AskedKeepsOps(c, s.ops, id, h, AfterCheck(h, granted), h.rest[0], later, op);
    InvAsk(c, s, id, AfterCheck(h, granted), op);
  }

  lemma MovesOn(c: Config, log: seq<Event>, seen: seq<Read>, ops: seq<Op>, id: nat, h: Handler)
    requires HandlerRecords(c, log, seen, id, h) && HandlerOps(c, ops, id, h)
    requires h.CheckingAnswers? && h.rest == [] && h.kept != []
    ensures HandlerRecords(c, log, seen, id, AfterAnswers(h)) && HandlerOps(c, ops, id, AfterAnswers(h))
    ensures HandlerLookups(c, log, seen, id, AfterAnswers(h))
  {
    assert h.rest + h.adds == h.adds && h.kept + [] == h.kept && h.kept + h.rest == h.kept;
  }

  lemma AnswersCheckedStep(c: Config, s: State, id: nat)
    requires Inv(c, s) && id in s.handlers && s.handlers[id].CheckingAnswers? && s.handlers[id].rest == []
    ensures Inv(c, if s.handlers[id].kept == [] then Finish(s, id) else Become(s, id, AfterAnswers(s.handlers[id])))
  {
    var h := s.handlers[id];
    assert HandlerRecords(c, s.cacheLog, s.lookups, id, h) && HandlerOps(c, s.ops, id, h);
    if h.kept == [] {
      InvFinish(c, s, id);
    } else {
      MovesOn(c, s.cacheLog, s.lookups, s.ops, id, h);
      InvReplace(c, s, id, AfterAnswers(h));
    }
  }

  // ---- every step ----

  lemma OneMoreIngestion(ingestions: map<nat, Ingestion>, id: nat, g: Ingestion)
    ensures |ingestions[id := g]| <= |ingestions| + 1
    ensures id in ingestions ==> |ingestions[id := g]| == |ingestions|
  {
    assert ingestions[id := g].Keys == ingestions.Keys + {id};
  }

  lemma HearResponseStep(c: Config, s: State, source: Option<u32>, records: seq<Record>)
    requires Inv(c, s) && PermitFree(s)
    ensures Inv(c, s.(ingestions := s.ingestions[s.nextId := Ingestion(source, records)], nextId := s.nextId + 1))
  {
    OneMoreIngestion(s.ingestions, s.nextId, Ingestion(source, records));
    NextIdSkipped(s.ops, s.handlers, s.wire, s.nextId);
  }

  lemma NextIdSkipped(ops: seq<Op>, handlers: map<nat, Handler>, wire: seq<Packet>, nextId: nat)
    requires Ids(handlers, wire, nextId) && Silent(ops, handlers, wire, nextId)
    ensures Ids(handlers, wire, nextId + 1) && Silent(ops, handlers, wire, nextId + 1)
  {
  }

  lemma IngestStep(c: Config, s: State, id: nat, now: Time, victim: Option<RecordKey>)
    requires Inv(c, s) && id in s.ingestions && s.ingestions[id].rest != []
    requires LegalVictim(c.limits, CacheTable(c, s), s.ingestions[id].rest[0], victim)
    ensures Inv(c, AfterIngest(s, id, now, victim))
  {
    var g := s.ingestions[id];
    var ingestions := s.ingestions[id := g.(rest := g.rest[1..])];
    OneMoreIngestion(s.ingestions, id, g.(rest := g.rest[1..]));
    CacheStep(c, s, Insert(g.rest[0], g.source, now, victim), ingestions);
  }

  lemma IngestedStep(c: Config, s: State, id: nat)
    requires Inv(c, s) && id in s.ingestions
    ensures Inv(c, s.(ingestions := s.ingestions - {id}))
  {
    assert s.ingestions.Keys == (s.ingestions - {id}).Keys + {id};
  }

  lemma MoveKeepsInv(c: Config, s: State, id: nat, move: Move)
    requires WellFormed(c.published) && Inv(c, s) && id in s.handlers && MoveEnabled(c, s, move, s.handlers[id])
    ensures Inv(c, AfterMove(c, s, id, move, s.handlers[id]))
  {
    match move
    case Prepare(p) => PrepareStep(c, s, id, p);
    case Suppress => SuppressStep(c, s, id);
    case CheckAnswer(now) => CheckStep(c, s, id, now);
    case AnswersChecked => AnswersCheckedStep(c, s, id);
    case CheckAdd(now) => CheckStep(c, s, id, now);
    case Send => SendStep(c, s, id);
  }

  /** Every step keeps the invariant. */
  lemma StepKeepsInv(c: Config, s: State, a: Action)
    requires WellFormed(c.published) && Inv(c, s) && Enabled(c, s, a)
    ensures Inv(c, Next(c, s, a))
  {
    match a
    case HearQuery(i, msg) => HearQueryStep(c, s, i, msg);
    case AnnounceMark(i, r, now) => UnrelatedOpStep(c, s, Mark(Slot(c.ifaces[i].ifindex, KeyOf(r)), now));
    case PruneStamps(now) => UnrelatedOpStep(c, s, Prune(now));
    case Sweep(now) => CacheStep(c, s, Tick(now, true), s.ingestions);
    case HearResponse(source, records) => HearResponseStep(c, s, source, records);
    case Ingest(id, now, victim) => IngestStep(c, s, id, now, victim);
    case Ingested(id) => IngestedStep(c, s, id);
    case By(id, move) => MoveKeepsInv(c, s, id, move);
  }
}
