/** Every query gets what it asked for: over every run, each record that a handler owes
    its query is in the response, is known to the querier, or was refused by the rate
    limiter for a reason. */
module DaemonAnswers {
  import opened Records
  import opened Net
  import opened Services
  import opened Cache
  import opened CacheRuns
  import opened Tracker
  import opened Responder
  import opened Daemon
  import opened DaemonInv
  import opened DaemonRuns

  /** The three logs of a state. */
  datatype Logs = Logs(cache: seq<Event>, seen: seq<Read>, ops: seq<Op>)

  function LogsOf(s: State): Logs {
    Logs(s.cacheLog, s.lookups, s.ops)
  }

  ghost predicate Grew(l: Logs, l': Logs) {
    l.cache <= l'.cache && l.seen <= l'.seen && l.ops <= l'.ops
  }

  // ---- what may become of a record ----

  /** The gap section 6 of RFC 6762 asks for before an answer to this query. */
  ghost function Gap(c: Config, i: nat, msg: Message): nat
    requires i < |c.ifaces|
  {
    if Probes(c, i, msg) then 250 * MILLISECOND else 1 * SECOND
  }

  /** Check `a` of handler `id` for `k` was refused, and stamp `b` of the same record on
      the same interface is the reason: it was less than the gap old. */
  ghost predicate RefusedAt(c: Config, ops: seq<Op>, id: nat, i: nat, msg: Message, k: RecordKey, a: int, b: int)
    requires i < |c.ifaces|
  {
    && CheckBy(ops, a, id) && ops[a].slot == Slot(c.ifaces[i].ifindex, k) && !PutsStamp(ops, a, true)
    && 0 <= b < a && PutsStamp(ops, b, true) && !ops[b].Prune? && ops[b].slot == ops[a].slot
    && ops[a].now < ops[b].now + Gap(c, i, msg)
  }

  ghost predicate Refused(c: Config, ops: seq<Op>, id: nat, i: nat, msg: Message, k: RecordKey)
    requires i < |c.ifaces|
  {
    exists a, b :: RefusedAt(c, ops, id, i, msg, k, a, b)
  }

  /** `k` is held, or was refused. */
  ghost predicate Settled(c: Config, l: Logs, id: nat, i: nat, msg: Message, k: RecordKey, held: set<RecordKey>)
    requires i < |c.ifaces|
  {
    k in held || Refused(c, l.ops, id, i, msg, k)
  }

  /** A record of this key that the handler could have sent is known to the querier. */
  ghost predicate KnownAlready(c: Config, l: Logs, id: nat, i: nat, msg: Message, k: RecordKey)
    requires i < |c.ifaces|
  {
    exists r :: KeyOf(r) == k && Sendable(c, l.cache, l.seen, id, i, r) && Known(r, msg.answers)
  }

  // ---- answers ----

  /** Read `x` asked question `q`, and all it could relay is settled or known. */
  ghost predicate ReadFor(c: Config, l: Logs, id: nat, i: nat, msg: Message, q: Question, held: set<RecordKey>, x: int)
    requires i < |c.ifaces|
  {
    && ReadBy(l.cache, l.seen, id, x) && !l.seen[x].adding && l.seen[x].lookup == Lookup(q.name, q.qtype)
    && forall k :: k in Available(TableAt(c, l.cache, l.seen[x]), c.ifaces[i].ifindex, l.seen[x].now) && Asks(l.seen[x].lookup, k) ==>
         Settled(c, l, id, i, msg, k, held) || KnownAlready(c, l, id, i, msg, k)
  }

  ghost predicate QuestionPut(c: Config, l: Logs, id: nat, i: nat, msg: Message, q: Question, held: set<RecordKey>)
    requires i < |c.ifaces|
  {
    exists x :: ReadFor(c, l, id, i, msg, q, held, x)
  }

  /** Each question was put to the cache, when answering from it is on. */
  ghost predicate RelaysSettled(c: Config, l: Logs, id: nat, i: nat, msg: Message, held: set<RecordKey>, n: nat)
    requires i < |c.ifaces| && n <= |msg.queries|
  {
    c.fromCache ==> forall j :: 0 <= j < n ==> QuestionPut(c, l, id, i, msg, msg.queries[j], held)
  }

  /** Each record of the interface that answers a question is settled, unless known. */
  ghost predicate OwnSettled(c: Config, l: Logs, id: nat, i: nat, msg: Message, held: set<RecordKey>)
    requires i < |c.ifaces|
  {
    forall q, r :: q in msg.queries && OwnRecord(r, c.published, c.ifaces[i])
                   && r.name == q.name && (q.qtype == ANY || q.qtype == TypeOf(r.data)) && !Known(r, msg.answers) ==>
                     Settled(c, l, id, i, msg, KeyOf(r), held)
  }

  /** The query is answered by `held`, but for what was refused or known. */
  ghost predicate AnswersSettled(c: Config, l: Logs, id: nat, i: nat, msg: Message, held: set<RecordKey>)
    requires i < |c.ifaces|
  {
    OwnSettled(c, l, id, i, msg, held) && RelaysSettled(c, l, id, i, msg, held, |msg.queries|)
  }

  // ---- additionals ----

  /** Read `x` asked for `a`, and `a` is settled if it could be relayed then. */
  ghost predicate CallRead(c: Config, l: Logs, id: nat, i: nat, msg: Message, a: RecordKey, held: set<RecordKey>, x: int)
    requires i < |c.ifaces|
  {
    && ReadBy(l.cache, l.seen, id, x) && l.seen[x].adding && Asks(l.seen[x].lookup, a)
    && (a in Available(TableAt(c, l.cache, l.seen[x]), c.ifaces[i].ifindex, l.seen[x].now) ==> Settled(c, l, id, i, msg, a, held))
  }

  ghost predicate CallsSettled(c: Config, l: Logs, id: nat, i: nat, msg: Message, all: seq<Record>)
    requires i < |c.ifaces|
  {
    forall r, a :: r in all && CallsFor(KeyOf(r), a) ==> exists x :: CallRead(c, l, id, i, msg, a, KeysOf(all), x)
  }

  /** Some record that was composed, and sent unless refused, calls for `a`. */
  ghost predicate HasCaller(c: Config, l: Logs, id: nat, i: nat, msg: Message, a: RecordKey, held: set<RecordKey>)
    requires i < |c.ifaces|
  {
    exists k :: CallsFor(k, a) && Settled(c, l, id, i, msg, k, held)
  }

  /** All that the records call for and the cache could relay is among them, but for
      what was refused; and nothing is added without a caller. */
  ghost predicate AddsSettled(c: Config, l: Logs, id: nat, i: nat, msg: Message, all: seq<Record>, adds: seq<Record>)
    requires i < |c.ifaces|
  {
    if c.fromCache then
      && CallsSettled(c, l, id, i, msg, all)
      && forall r :: r in adds ==> HasCaller(c, l, id, i, msg, KeyOf(r), KeysOf(all))
    else forall r :: r !in adds
  }

  // ---- delays ----

  /** The delay section 6 of RFC 6762 asks for, both ways: none in probe defence, 400 to
      500 ms for a truncated query, none for one question answered by unique records
      only, 20 to 120 ms otherwise. */
  ghost predicate DelayFits(c: Config, i: nat, msg: Message, answers: seq<Record>, drawn: Time, until: Time)
    requires i < |c.ifaces|
  {
    if Probes(c, i, msg) then until == drawn
    else if msg.truncated then drawn + 400 * MILLISECOND <= until <= drawn + 500 * MILLISECOND
    else if |msg.queries| == 1 && forall r :: r in answers ==> r.flush then until == drawn
    else drawn + 20 * MILLISECOND <= until <= drawn + 120 * MILLISECOND
  }

  // ---- the account of a handler and of a response ----

  predicate AsksAt(msg: Message, j: int, k: RecordKey) {
    0 <= j < |msg.queries| && Asks(Lookup(msg.queries[j].name, msg.queries[j].qtype), k)
  }

  /** After `n` questions. */
  ghost predicate GatheredSoFar(c: Config, l: Logs, id: nat, i: nat, msg: Message, n: nat, answers: seq<Record>)
    requires i < |c.ifaces|
  {
    && n <= |msg.queries|
    && (forall r :: r in answers ==> exists j :: j < n && AsksAt(msg, j, KeyOf(r)))
    && (forall j, r :: j < n && AsksAt(msg, j, KeyOf(r)) && OwnRecord(r, c.published, c.ifaces[i]) ==> r in answers)
    && RelaysSettled(c, l, id, i, msg, KeysOf(answers), n)
  }

  function AddsOf(h: Handler): seq<Record>
    requires Checks(h)
  {
    if h.CheckingAnswers? then h.adds else h.kept + h.rest
  }

  ghost predicate HandlerAccount(c: Config, l: Logs, id: nat, h: Handler) {
    && h.i < |c.ifaces|
    && match h
       case Gathering(i, msg, next, answers) => GatheredSoFar(c, l, id, i, msg, next, answers)
       case Adding(i, msg, answers, _, _, _) => answers != [] && AnswersSettled(c, l, id, i, msg, KeysOf(answers))
       case Sleeping(i, msg, answers, _, drawn, until) =>
         && answers != [] && AnswersSettled(c, l, id, i, msg, KeysOf(answers))
         && DelayFits(c, i, msg, answers, drawn, until)
       case _ =>
         && AnswersSettled(c, l, id, h.i, h.msg, KeysOf(AnswersOf(h)))
         && AddsSettled(c, l, id, h.i, h.msg, Holds(h), AddsOf(h))
  }

  ghost predicate PacketAccount(c: Config, l: Logs, p: Packet) {
    && p.i < |c.ifaces|
    && AnswersSettled(c, l, p.handler, p.i, p.msg, KeysOf(p.answers))
    && AddsSettled(c, l, p.handler, p.i, p.msg, p.answers + p.adds, p.adds)
  }

  ghost predicate Accounts(c: Config, s: State) {
    && (forall id :: id in s.handlers ==> HandlerAccount(c, LogsOf(s), id, s.handlers[id]))
    && (forall p :: p in s.wire ==> PacketAccount(c, LogsOf(s), p))
  }

  // ---- settled stays settled ----

  lemma RefusedGrows(c: Config, ops: seq<Op>, ops': seq<Op>, id: nat, i: nat, msg: Message, k: RecordKey)
    requires i < |c.ifaces| && ops <= ops' && Refused(c, ops, id, i, msg, k)
    ensures Refused(c, ops', id, i, msg, k)
  {
    var a, b :| RefusedAt(c, ops, id, i, msg, k, a, b);
    assert ops'[..a] == ops[..a] && ops'[..b] == ops[..b];
    assert RefusedAt(c, ops', id, i, msg, k, a, b);
  }

  /** Whatever is settled by `held` is settled by `held'` later. */
  ghost predicate Carries(c: Config, l: Logs, l': Logs, id: nat, i: nat, msg: Message, held: set<RecordKey>, held': set<RecordKey>)
    requires i < |c.ifaces|
  {
    Grew(l, l') && forall k :: Settled(c, l, id, i, msg, k, held) ==> Settled(c, l', id, i, msg, k, held')
  }

  lemma GrewCarries(c: Config, l: Logs, l': Logs, id: nat, i: nat, msg: Message, held: set<RecordKey>, held': set<RecordKey>)
    requires i < |c.ifaces| && Grew(l, l')
    requires forall k :: k in held ==> Settled(c, l', id, i, msg, k, held')
    ensures Carries(c, l, l', id, i, msg, held, held')
  {
    forall k | Settled(c, l, id, i, msg, k, held) ensures Settled(c, l', id, i, msg, k, held') {
      if k !in held { RefusedGrows(c, l.ops, l'.ops, id, i, msg, k); }
    }
  }

  lemma KnownCarries(c: Config, l: Logs, l': Logs, id: nat, i: nat, msg: Message, k: RecordKey)
    requires i < |c.ifaces| && Grew(l, l') && KnownAlready(c, l, id, i, msg, k)
    ensures KnownAlready(c, l', id, i, msg, k)
  {
    var r :| KeyOf(r) == k && Sendable(c, l.cache, l.seen, id, i, r) && Known(r, msg.answers);
    assert AllSendable(c, l.cache, l.seen, id, i, [r]);
    AllSendableGrows(c, l.cache, l.seen, l'.cache, l'.seen, id, i, [r]);
    assert Sendable(c, l'.cache, l'.seen, id, i, r);
  }

  lemma ReadStays(c: Config, l: Logs, l': Logs, id: nat, x: int)
    requires Grew(l, l') && ReadBy(l.cache, l.seen, id, x)
    ensures ReadBy(l'.cache, l'.seen, id, x) && l'.seen[x] == l.seen[x]
    ensures TableAt(c, l'.cache, l'.seen[x]) == TableAt(c, l.cache, l.seen[x])
  {
    assert l'.cache[..l.seen[x].at] == l.cache[..l.seen[x].at];
  }

  lemma ReadForCarries(c: Config, l: Logs, l': Logs, id: nat, i: nat, msg: Message, q: Question, held: set<RecordKey>, held': set<RecordKey>, x: int)
    requires i < |c.ifaces| && Carries(c, l, l', id, i, msg, held, held') && ReadFor(c, l, id, i, msg, q, held, x)
    ensures ReadFor(c, l', id, i, msg, q, held', x)
  {
    ReadStays(c, l, l', id, x);
    forall k | k in Available(TableAt(c, l.cache, l.seen[x]), c.ifaces[i].ifindex, l.seen[x].now) && Asks(l.seen[x].lookup, k)
      ensures Settled(c, l', id, i, msg, k, held') || KnownAlready(c, l', id, i, msg, k)
    {
      if !Settled(c, l, id, i, msg, k, held) { KnownCarries(c, l, l', id, i, msg, k); }
    }
  }

  lemma RelaysCarry(c: Config, l: Logs, l': Logs, id: nat, i: nat, msg: Message, held: set<RecordKey>, held': set<RecordKey>, n: nat)
    requires i < |c.ifaces| && n <= |msg.queries| && Carries(c, l, l', id, i, msg, held, held') && RelaysSettled(c, l, id, i, msg, held, n)
    ensures RelaysSettled(c, l', id, i, msg, held', n)
  {
    if c.fromCache {
      forall j | 0 <= j < n ensures QuestionPut(c, l', id, i, msg, msg.queries[j], held') {
        assert QuestionPut(c, l, id, i, msg, msg.queries[j], held);
        var x :| ReadFor(c, l, id, i, msg, msg.queries[j], held, x);
        ReadForCarries(c, l, l', id, i, msg, msg.queries[j], held, held', x);
      }
    }
  }

  lemma AnswersCarry(c: Config, l: Logs, l': Logs, id: nat, i: nat, msg: Message, held: set<RecordKey>, held': set<RecordKey>)
    requires i < |c.ifaces| && Carries(c, l, l', id, i, msg, held, held') && AnswersSettled(c, l, id, i, msg, held)
    ensures AnswersSettled(c, l', id, i, msg, held')
  {
    RelaysCarry(c, l, l', id, i, msg, held, held', |msg.queries|);
  }

  lemma CallsCarry(c: Config, l: Logs, l': Logs, id: nat, i: nat, msg: Message, all: seq<Record>, all': seq<Record>)
    requires i < |c.ifaces| && Carries(c, l, l', id, i, msg, KeysOf(all), KeysOf(all')) && CallsSettled(c, l, id, i, msg, all)
    requires forall r :: r in all' ==> r in all
    ensures CallsSettled(c, l', id, i, msg, all')
  {
    forall r, a | r in all' && CallsFor(KeyOf(r), a) ensures exists x :: CallRead(c, l', id, i, msg, a, KeysOf(all'), x) {
      assert r in all;
      var x :| CallRead(c, l, id, i, msg, a, KeysOf(all), x);
      ReadStays(c, l, l', id, x);
      assert CallRead(c, l', id, i, msg, a, KeysOf(all'), x);
    }
  }

  lemma AddsCarry(c: Config, l: Logs, l': Logs, id: nat, i: nat, msg: Message, all: seq<Record>, all': seq<Record>, adds: seq<Record>, adds': seq<Record>)
    requires i < |c.ifaces| && Carries(c, l, l', id, i, msg, KeysOf(all), KeysOf(all')) && AddsSettled(c, l, id, i, msg, all, adds)
    requires (forall r :: r in all' ==> r in all) && (forall r :: r in adds' ==> r in adds)
    ensures AddsSettled(c, l', id, i, msg, all', adds')
  {
    if c.fromCache {
      CallsCarry(c, l, l', id, i, msg, all, all');
      forall r | r in adds' ensures HasCaller(c, l', id, i, msg, KeyOf(r), KeysOf(all')) {
        assert HasCaller(c, l, id, i, msg, KeyOf(r), KeysOf(all));
        var k :| CallsFor(k, KeyOf(r)) && Settled(c, l, id, i, msg, k, KeysOf(all));
      }
    }
  }

  lemma HandlerAccountGrows(c: Config, l: Logs, l': Logs, id: nat, h: Handler)
    requires Grew(l, l') && HandlerAccount(c, l, id, h)
    ensures HandlerAccount(c, l', id, h)
  {
    var held := KeysOf(AnswersOf(h));
    GrewCarries(c, l, l', id, h.i, h.msg, held, held);
    match h
    case Gathering(i, msg, next, answers) => RelaysCarry(c, l, l', id, i, msg, held, held, next);
    case Adding(_, _, _, _, _, _) => AnswersCarry(c, l, l', id, h.i, h.msg, held, held);
    case Sleeping(_, _, _, _, _, _) => AnswersCarry(c, l, l', id, h.i, h.msg, held, held);
    case _ =>
      AnswersCarry(c, l, l', id, h.i, h.msg, held, held);
      GrewCarries(c, l, l', id, h.i, h.msg, KeysOf(Holds(h)), KeysOf(Holds(h)));
      AddsCarry(c, l, l', id, h.i, h.msg, Holds(h), Holds(h), AddsOf(h), AddsOf(h));
  }

  lemma PacketAccountGrows(c: Config, l: Logs, l': Logs, p: Packet)
    requires Grew(l, l') && PacketAccount(c, l, p)
    ensures PacketAccount(c, l', p)
  {
    var all := p.answers + p.adds;
    GrewCarries(c, l, l', p.handler, p.i, p.msg, KeysOf(p.answers), KeysOf(p.answers));
    GrewCarries(c, l, l', p.handler, p.i, p.msg, KeysOf(all), KeysOf(all));
    AnswersCarry(c, l, l', p.handler, p.i, p.msg, KeysOf(p.answers), KeysOf(p.answers));
    AddsCarry(c, l, l', p.handler, p.i, p.msg, all, all, p.adds, p.adds);
  }

  // ---- gathering ----

  /** An own record of a key that is there is there itself, and not another record. */
  lemma GatheredOwn(c: Config, i: nat, msg: Message, n: nat, answers: seq<Record>, own: seq<Record>, r: Record)
    requires WellFormed(c.published) && i < |c.ifaces| && n < |msg.queries| && DistinctKeys(answers)
    requires own == Own(c.published, msg.queries[n], c.ifaces[i])
    requires forall x :: x in answers ==> exists j :: j < n && AsksAt(msg, j, KeyOf(x))
    requires forall j, x :: j < n && AsksAt(msg, j, KeyOf(x)) && OwnRecord(x, c.published, c.ifaces[i]) ==> x in answers
    requires AsksAt(msg, n, KeyOf(r)) && OwnRecord(r, c.published, c.ifaces[i])
    ensures r in PushNew(answers, {}, own)
  {
    OwnIsExact(c.published, msg.queries[n], c.ifaces[i]);
    PushNewKeeps(answers, {}, own);
    var all := PushNew(answers, {}, own);
    assert KeyOf(r) in KeysOf(all);
    var x :| x in all && KeyOf(x) == KeyOf(r);
    if x in answers {
      var j :| j < n && AsksAt(msg, j, KeyOf(x));
      assert AsksAt(msg, j, KeyOf(r));
      assert r in answers;
    } else {
      OwnKeysAreUnique(c.published, c.ifaces[i], x, r);
    }
  }

  lemma GatherAsks(c: Config, s: State, id: nat, p: Preparation, h: Handler)
    requires h.i < |c.ifaces| && p.Gather? && PreparationEnabled(c, s, p, h) && WellFormed(c.published)
    requires DistinctKeys(h.answers)
    requires forall r :: r in h.answers ==> exists j :: j < h.next && AsksAt(h.msg, j, KeyOf(r))
    ensures forall r :: r in Prepared(c, s, p, h).answers ==> exists j :: j < h.next + 1 && AsksAt(h.msg, j, KeyOf(r))
  {
    var q := h.msg.queries[h.next];
    var own := Own(c.published, q, c.ifaces[h.i]);
    PushNewKeeps(h.answers, {}, own);
    PushNewKeeps(PushNew(h.answers, {}, own), {}, p.found);
    OwnIsExact(c.published, q, c.ifaces[h.i]);
    if c.fromCache { FoundAsks(c, s, h.i, Lookup(q.name, q.qtype), p.now, p.found); }
    forall r | r in Prepared(c, s, p, h).answers ensures exists j :: j < h.next + 1 && AsksAt(h.msg, j, KeyOf(r)) {
      if r in h.answers {
        var j :| j < h.next && AsksAt(h.msg, j, KeyOf(r));
        assert j < h.next + 1;
      } else {
        assert AsksAt(h.msg, h.next, KeyOf(r));
      }
    }
  }

  lemma GatherReads(c: Config, s: State, id: nat, p: Preparation, h: Handler)
    requires h.i < |c.ifaces| && p.Gather? && PreparationEnabled(c, s, p, h) && DistinctKeys(h.answers) && c.fromCache
    ensures var l := LogsOf(s).(seen := s.lookups + NewReads(c, s, id, p, h));
            ReadFor(c, l, id, h.i, h.msg, h.msg.queries[h.next], KeysOf(Prepared(c, s, p, h).answers), |s.lookups|)
  {
    var q, arrival := h.msg.queries[h.next], c.ifaces[h.i].ifindex;
    var own := Own(c.published, q, c.ifaces[h.i]);
    PushNewKeeps(h.answers, {}, own);
    PushNewKeeps(PushNew(h.answers, {}, own), {}, p.found);
    WellKeyedRun(c.limits, s.cacheLog);
    OtherViewIsRelayable(CacheTable(c, s), q.name, q.qtype, arrival, p.now, p.found);
    OtherViewKeys(CacheTable(c, s), q.name, q.qtype, arrival, p.now);
    assert s.cacheLog[..|s.cacheLog|] == s.cacheLog;
  }

  lemma OneMoreQuestion(c: Config, l: Logs, l': Logs, id: nat, i: nat, msg: Message, held: set<RecordKey>, held': set<RecordKey>, n: nat)
    requires i < |c.ifaces| && n < |msg.queries| && Grew(l, l') && held <= held' && RelaysSettled(c, l, id, i, msg, held, n)
    requires c.fromCache ==> QuestionPut(c, l', id, i, msg, msg.queries[n], held')
    ensures RelaysSettled(c, l', id, i, msg, held', n + 1)
  {
    GrewCarries(c, l, l', id, i, msg, held, held');
    RelaysCarry(c, l, l', id, i, msg, held, held', n);
  }

  lemma GatherAccount(c: Config, s: State, id: nat, p: Preparation, h: Handler)
    requires WellFormed(c.published) && HandlerAccount(c, LogsOf(s), id, h) && DistinctKeys(Holds(h))
    requires p.Gather? && PreparationEnabled(c, s, p, h)
    ensures HandlerAccount(c, LogsOf(s).(seen := s.lookups + NewReads(c, s, id, p, h)), id, Prepared(c, s, p, h))
  {
    var l' := LogsOf(s).(seen := s.lookups + NewReads(c, s, id, p, h));
    var own := Own(c.published, h.msg.queries[h.next], c.ifaces[h.i]);
    GatherAsks(c, s, id, p, h);
    GatherHasOwn(c, s, p, h);
    GatherAddsKeys(h.answers, own, p.found);
    if c.fromCache { GatherReads(c, s, id, p, h); }
    OneMoreQuestion(c, LogsOf(s), l', id, h.i, h.msg, KeysOf(h.answers), KeysOf(Prepared(c, s, p, h).answers), h.next);
  }

  lemma GatherAddsKeys(answers: seq<Record>, own: seq<Record>, found: seq<Record>)
    requires DistinctKeys(answers)
    ensures KeysOf(answers) <= KeysOf(PushNew(PushNew(answers, {}, own), {}, found))
    ensures PushNew(answers, {}, own) <= PushNew(PushNew(answers, {}, own), {}, found)
    ensures answers <= PushNew(answers, {}, own)
  {
    PushNewKeeps(answers, {}, own);
    PushNewKeeps(PushNew(answers, {}, own), {}, found);
  }

  lemma GatherHasOwn(c: Config, s: State, p: Preparation, h: Handler)
    requires WellFormed(c.published) && h.i < |c.ifaces| && p.Gather? && PreparationEnabled(c, s, p, h) && DistinctKeys(h.answers)
    requires forall r :: r in h.answers ==> exists j :: j < h.next && AsksAt(h.msg, j, KeyOf(r))
    requires forall j, r :: j < h.next && AsksAt(h.msg, j, KeyOf(r)) && OwnRecord(r, c.published, c.ifaces[h.i]) ==> r in h.answers
    ensures forall j, r :: j < h.next + 1 && AsksAt(h.msg, j, KeyOf(r)) && OwnRecord(r, c.published, c.ifaces[h.i]) ==>
                             r in Prepared(c, s, p, h).answers
  {
    var own := Own(c.published, h.msg.queries[h.next], c.ifaces[h.i]);
    GatherAddsKeys(h.answers, own, p.found);
    forall j, r | j < h.next + 1 && AsksAt(h.msg, j, KeyOf(r)) && OwnRecord(r, c.published, c.ifaces[h.i])
      ensures r in Prepared(c, s, p, h).answers
    {
      if j == h.next {
        GatheredOwn(c, h.i, h.msg, h.next, h.answers, own, r);
      } else {
        assert r in h.answers;
      }
    }
  }

  // ---- suppression ----

  lemma SuppressedRelays(c: Config, l: Logs, id: nat, i: nat, msg: Message, answers: seq<Record>)
    requires i < |c.ifaces| && AllSendable(c, l.cache, l.seen, id, i, answers)
    requires RelaysSettled(c, l, id, i, msg, KeysOf(answers), |msg.queries|)
    ensures RelaysSettled(c, l, id, i, msg, KeysOf(Unknown(answers, msg.answers)), |msg.queries|)
  {
    if c.fromCache {
      var left := Unknown(answers, msg.answers);
      forall j | 0 <= j < |msg.queries| ensures QuestionPut(c, l, id, i, msg, msg.queries[j], KeysOf(left)) {
        assert QuestionPut(c, l, id, i, msg, msg.queries[j], KeysOf(answers));
        var x :| ReadFor(c, l, id, i, msg, msg.queries[j], KeysOf(answers), x);
        forall k | Settled(c, l, id, i, msg, k, KeysOf(answers))
          ensures Settled(c, l, id, i, msg, k, KeysOf(left)) || KnownAlready(c, l, id, i, msg, k)
        {
          SuppressedKey(c, l, id, i, msg, answers, k);
        }
        assert ReadFor(c, l, id, i, msg, msg.queries[j], KeysOf(left), x);
      }
    }
  }

  lemma SuppressedKey(c: Config, l: Logs, id: nat, i: nat, msg: Message, answers: seq<Record>, k: RecordKey)
    requires i < |c.ifaces| && AllSendable(c, l.cache, l.seen, id, i, answers) && Settled(c, l, id, i, msg, k, KeysOf(answers))
    ensures Settled(c, l, id, i, msg, k, KeysOf(Unknown(answers, msg.answers))) || KnownAlready(c, l, id, i, msg, k)
  {
    UnknownMember(answers, msg.answers);
    if k in KeysOf(answers) {
      var r :| r in answers && KeyOf(r) == k;
      if Known(r, msg.answers) {
        assert Sendable(c, l.cache, l.seen, id, i, r);
      } else {
        assert r in Unknown(answers, msg.answers);
      }
    }
  }

  lemma SuppressedAnswers(c: Config, l: Logs, id: nat, h: Handler)
    requires h.Gathering? && h.next == |h.msg.queries| && HandlerAccount(c, l, id, h)
    requires AllSendable(c, l.cache, l.seen, id, h.i, h.answers)
    ensures AnswersSettled(c, l, id, h.i, h.msg, KeysOf(Unknown(h.answers, h.msg.answers)))
  {
    SuppressedRelays(c, l, id, h.i, h.msg, h.answers);
    UnknownMember(h.answers, h.msg.answers);
    var left := Unknown(h.answers, h.msg.answers);
    forall q, r | q in h.msg.queries && OwnRecord(r, c.published, c.ifaces[h.i])
                  && r.name == q.name && (q.qtype == ANY || q.qtype == TypeOf(r.data)) && !Known(r, h.msg.answers)
      ensures KeyOf(r) in KeysOf(left)
    {
      var j :| 0 <= j < |h.msg.queries| && h.msg.queries[j] == q;
      assert AsksAt(h.msg, j, KeyOf(r));
      assert r in left;
    }
  }

  // ---- sleeping and waking ----

  lemma DrawnDelayFits(c: Config, i: nat, msg: Message, answers: seq<Record>, drawn: Time, delay: nat)
    requires WellFormed(c.published) && i < |c.ifaces| && answers != []
    requires DelayAllowed(ClassifyDelay(msg, answers, Defends(c, i, msg)), delay)
    ensures DelayFits(c, i, msg, answers, drawn, drawn + delay)
  {
    DefendsIff(c, i, msg);
    assert answers[0] in answers;
  }

  lemma CallIsRead(c: Config, l: Logs, id: nat, i: nat, msg: Message, asked: seq<Lookup>, a: RecordKey, held: set<RecordKey>)
    requires i < |c.ifaces| && AllServed(c, l.cache, l.seen, id, i, asked, [], held) && AskedFor(asked, a)
    ensures exists x :: CallRead(c, l, id, i, msg, a, held, x)
  {
    var lookup :| lookup in asked && Asks(lookup, a);
    var x :| ServedBy(c, l.cache, l.seen, id, i, lookup, held, x);
    assert CallRead(c, l, id, i, msg, a, held, x);
  }

  lemma PtrIsAnswer(c: Config, l: Logs, id: nat, i: nat, answers: seq<Record>, adds: seq<Record>, r: Record)
    requires i < |c.ifaces| && r in adds && AllWanted(c, l.cache, l.seen, id, i, adds, Asked(answers, adds, true))
    ensures !r.data.PtrData?
  {
    WantedIsAsked(c, l, id, i, r, Asked(answers, adds, true));
    AskedHow(answers, adds, KeyOf(r));
  }

  lemma WokenCalls(c: Config, l: Logs, id: nat, i: nat, msg: Message, answers: seq<Record>, adds: seq<Record>)
    requires c.fromCache && i < |c.ifaces| && Progress(c, l.cache, l.seen, id, i, answers, adds, [], true)
    ensures CallsSettled(c, l, id, i, msg, answers + adds)
  {
    KeysOfConcat(answers, adds);
    forall r, a | r in answers + adds && CallsFor(KeyOf(r), a)
      ensures exists x :: CallRead(c, l, id, i, msg, a, KeysOf(answers + adds), x)
    {
      if r !in answers { PtrIsAnswer(c, l, id, i, answers, adds, r); }
      CallerAsks(answers, adds, r, a);
      CallIsRead(c, l, id, i, msg, Asked(answers, adds, true), a, KeysOf(answers + adds));
    }
  }

  lemma WantedIsAsked(c: Config, l: Logs, id: nat, i: nat, r: Record, asked: seq<Lookup>)
    requires i < |c.ifaces| && Wanted(c, l.cache, l.seen, id, i, r, asked)
    ensures AskedFor(asked, KeyOf(r))
  {
    var x :| RelayedBy(c, l.cache, l.seen, id, i, r, x) && l.seen[x].adding && l.seen[x].lookup in asked;
  }

  lemma WokenCallers(c: Config, l: Logs, id: nat, i: nat, msg: Message, answers: seq<Record>, adds: seq<Record>)
    requires c.fromCache && i < |c.ifaces| && Progress(c, l.cache, l.seen, id, i, answers, adds, [], true)
    ensures forall r :: r in adds ==> HasCaller(c, l, id, i, msg, KeyOf(r), KeysOf(answers + adds))
  {
    KeysOfConcat(answers, adds);
    forall r | r in adds ensures HasCaller(c, l, id, i, msg, KeyOf(r), KeysOf(answers + adds)) {
      WantedIsAsked(c, l, id, i, r, Asked(answers, adds, true));
      AskedHow(answers, adds, KeyOf(r));
      CalledIsCalled(answers, adds, KeyOf(r));
      var x :| x in answers + adds && CallsFor(KeyOf(x), KeyOf(r));
      assert Settled(c, l, id, i, msg, KeyOf(x), KeysOf(answers + adds));
    }
  }

  lemma CalledIsCalled(answers: seq<Record>, adds: seq<Record>, a: RecordKey)
    requires CalledBy(answers, |answers|, true, a) || CalledBy(answers + adds, |answers + adds|, false, a)
    ensures exists x :: x in answers + adds && CallsFor(KeyOf(x), a)
  {
    if CalledBy(answers, |answers|, true, a) {
      var j :| 0 <= j < |answers| && answers[j].data.PtrData? && CallsFor(KeyOf(answers[j]), a);
      assert answers[j] in answers + adds;
    } else {
      var rs := answers + adds;
      var j :| 0 <= j < |rs| && rs[j].data.SrvData? && CallsFor(KeyOf(rs[j]), a);
      assert rs[j] in rs;
    }
  }

  lemma WakeAccount(c: Config, l: Logs, id: nat, h: Handler, now: Time)
    requires h.Sleeping? && HandlerAccount(c, l, id, h) && HandlerLookups(c, l.cache, l.seen, id, h)
    ensures HandlerAccount(c, l, id, Handler.CheckingAnswers(h.i, h.msg, h.drawn, now, [], h.answers, h.adds))
  {
    WokenParts(h, now);
    if c.fromCache {
      WokenCalls(c, l, id, h.i, h.msg, h.answers, h.adds);
      WokenCallers(c, l, id, h.i, h.msg, h.answers, h.adds);
    }
  }

  lemma PrepareAccount(c: Config, s: State, id: nat, p: Preparation, h: Handler)
    requires WellFormed(c.published) && HandlerAccount(c, LogsOf(s), id, h)
    requires HandlerRecords(c, s.cacheLog, s.lookups, id, h) && HandlerLookups(c, s.cacheLog, s.lookups, id, h)
    requires PreparationEnabled(c, s, p, h)
    ensures HandlerAccount(c, LogsOf(s).(seen := s.lookups + NewReads(c, s, id, p, h)), id, Prepared(c, s, p, h))
  {
    var l' := LogsOf(s).(seen := s.lookups + NewReads(c, s, id, p, h));
    match p
    case Gather(_, _) => GatherAccount(c, s, id, p, h);
    case Add(_, _) => HandlerAccountGrows(c, LogsOf(s), l', id, h);
    case SecondPass => HandlerAccountGrows(c, LogsOf(s), l', id, h);
    case Delay(now, delay) =>
      HandlerAccountGrows(c, LogsOf(s), l', id, h);
      DrawnDelayFits(c, h.i, h.msg, h.answers, now, delay);
    case Wake(now) =>
      assert s.lookups + [] == s.lookups;
      WakeAccount(c, LogsOf(s), id, h, now);
  }

  // ---- asking ----

  /** Each stamp was put by some operation. */
  lemma {:induction false} StampWasPut(ops: seq<Op>, slot: Slot) returns (b: nat)
    requires slot in Stamped(ops, true)
    ensures b < |ops| && PutsStamp(ops, b, true) && !ops[b].Prune? && ops[b].slot == slot && ops[b].now == Stamped(ops, true)[slot]
  {
    var n := |ops| - 1;
    var past := Stamped(ops[..n], true);
    if PutsStamp(ops, n, true) && ops[n].slot == slot {
      b := n;
    } else {
      b := StampWasPut(ops[..n], slot);
      assert ops[..n][..b] == ops[..b];
    }
  }

  /** A refusal has its reason. */
  lemma RefusalHasReason(c: Config, ops: seq<Op>, id: nat, i: nat, msg: Message, r: Record, op: Op)
    requires WellFormed(c.published) && i < |c.ifaces| && op == CheckOp(c, id, i, msg, r, op.now) && !Granted(ops, op)
    ensures Refused(c, ops + [op], id, i, msg, KeyOf(r))
  {
    DefendsIff(c, i, msg);
    var b := StampWasPut(ops, op.slot);
    var all := ops + [op];
    assert all[..|ops|] == ops && all[..b] == ops[..b];
    assert RefusedAt(c, all, id, i, msg, KeyOf(r), |ops|, b);
  }

  /** Asked about, the record is kept or refused; the others stay. */
  lemma CheckCarries(c: Config, l: Logs, id: nat, h: Handler, h': Handler, r: Record, later: seq<Record>, op: Op, part: seq<Record>, part': seq<Record>)
    requires WellFormed(c.published) && h.i < |c.ifaces| && op == CheckOp(c, id, h.i, h.msg, r, op.now)
    requires forall x :: x in part ==> x in part' || (x == r && !Granted(l.ops, op))
    ensures Carries(c, l, l.(ops := l.ops + [op]), id, h.i, h.msg, KeysOf(part), KeysOf(part'))
  {
    var l' := l.(ops := l.ops + [op]);
    if !Granted(l.ops, op) { RefusalHasReason(c, l.ops, id, h.i, h.msg, r, op); }
    forall k | k in KeysOf(part) ensures Settled(c, l', id, h.i, h.msg, k, KeysOf(part')) {
      var x :| x in part && KeyOf(x) == k;
      if x in part' { assert KeyOf(x) in KeysOf(part'); }
    }
    GrewCarries(c, l, l', id, h.i, h.msg, KeysOf(part), KeysOf(part'));
  }

  lemma CheckParts(h: Handler, granted: bool)
    requires Checks(h) && h.rest != []
    ensures var h', r := AfterCheck(h, granted), h.rest[0];
            && (forall x :: x in AnswersOf(h) ==> x in AnswersOf(h') || (x == r && !granted))
            && (forall x :: x in Holds(h) ==> x in Holds(h') || (x == r && !granted))
            && (forall x :: x in Holds(h') ==> x in Holds(h))
            && (forall x :: x in AddsOf(h') ==> x in AddsOf(h))
  {
    assert h.rest == [h.rest[0]] + h.rest[1..];
  }

  lemma CheckAccount(c: Config, l: Logs, id: nat, h: Handler, op: Op)
    requires WellFormed(c.published) && HandlerAccount(c, l, id, h) && Checks(h) && h.rest != []
    requires op == CheckOp(c, id, h.i, h.msg, h.rest[0], op.now)
    ensures HandlerAccount(c, l.(ops := l.ops + [op]), id, AfterCheck(h, Granted(l.ops, op)))
  {
    var h', l', r := AfterCheck(h, Granted(l.ops, op)), l.(ops := l.ops + [op]), h.rest[0];
    CheckParts(h, Granted(l.ops, op));
    CheckCarries(c, l, id, h, h', r, [], op, AnswersOf(h), AnswersOf(h'));
    CheckCarries(c, l, id, h, h', r, [], op, Holds(h), Holds(h'));
    AnswersCarry(c, l, l', id, h.i, h.msg, KeysOf(AnswersOf(h)), KeysOf(AnswersOf(h')));
    AddsCarry(c, l, l', id, h.i, h.msg, Holds(h), Holds(h'), AddsOf(h), AddsOf(h'));
  }

  lemma MovesOnAccount(c: Config, l: Logs, id: nat, h: Handler)
    requires HandlerAccount(c, l, id, h) && h.CheckingAnswers? && h.rest == []
    ensures HandlerAccount(c, l, id, AfterAnswers(h))
  {
    assert h.kept + h.rest == h.kept && h.rest + h.adds == h.adds && [] + h.adds == h.adds;
    assert h.kept + [] + h.adds == h.kept + h.adds;
  }

  lemma SendAccount(c: Config, l: Logs, id: nat, h: Handler)
    requires HandlerAccount(c, l, id, h) && h.CheckingAdds? && h.rest == []
    ensures PacketAccount(c, l, SentBy(id, h))
  {
    assert h.kept + h.rest == h.kept && h.answers + h.kept + h.rest == h.answers + h.kept;
  }

  // ---- every step ----

  lemma MoveGrows(c: Config, s: State, id: nat, move: Move)
    requires id in s.handlers && MoveEnabled(c, s, move, s.handlers[id])
    ensures Grew(LogsOf(s), LogsOf(AfterMove(c, s, id, move, s.handlers[id])))
  {
  }

  lemma NextGrows(c: Config, s: State, a: Action)
    requires Enabled(c, s, a)
    ensures Grew(LogsOf(s), LogsOf(Next(c, s, a))) && s.nextId <= Next(c, s, a).nextId
  {
    if a.By? { MoveGrows(c, s, a.id, a.move); }
  }

  lemma SuppressAccount(c: Config, l: Logs, id: nat, h: Handler)
    requires h.Gathering? && h.next == |h.msg.queries| && HandlerAccount(c, l, id, h)
    requires AllSendable(c, l.cache, l.seen, id, h.i, h.answers)
    ensures var left := Unknown(h.answers, h.msg.answers); left != [] ==> HandlerAccount(c, l, id, AfterSuppress(c, h, left))
  {
    SuppressedAnswers(c, l, id, h);
  }

  lemma MoveAccount(c: Config, s: State, id: nat, move: Move)
    requires WellFormed(c.published) && id in s.handlers && MoveEnabled(c, s, move, s.handlers[id])
    requires HandlerRecords(c, s.cacheLog, s.lookups, id, s.handlers[id]) && HandlerLookups(c, s.cacheLog, s.lookups, id, s.handlers[id])
    requires HandlerAccount(c, LogsOf(s), id, s.handlers[id])
    ensures var after := AfterMove(c, s, id, move, s.handlers[id]);
            id in after.handlers ==> HandlerAccount(c, LogsOf(after), id, after.handlers[id])
  {
    var h := s.handlers[id];
    match move
    case Prepare(p) => PrepareAccount(c, s, id, p, h);
    case Suppress => SuppressAccount(c, LogsOf(s), id, h);
    case CheckAnswer(now) => CheckAccount(c, LogsOf(s), id, h, CheckOp(c, id, h.i, h.msg, h.rest[0], now));
    case AnswersChecked => MovesOnAccount(c, LogsOf(s), id, h);
    case CheckAdd(now) => CheckAccount(c, LogsOf(s), id, h, CheckOp(c, id, h.i, h.msg, h.rest[0], now));
    case Send =>
  }

  /** A handler after a step: moved itself, started, or left alone. */
  lemma HandlerIsWhose(c: Config, s: State, a: Action, id: nat)
    requires Enabled(c, s, a) && id in Next(c, s, a).handlers
    ensures || (a.By? && a.id == id && id in s.handlers)
            || (a.HearQuery? && Next(c, s, a).handlers[id] == Handler.Gathering(a.i, a.msg, 0, []) && a.i < |c.ifaces|)
            || (id in s.handlers && Next(c, s, a).handlers[id] == s.handlers[id])
  {
    if a.By? { MoveContinues(c, s, a.id, a.move); }
  }

  lemma FreshAccount(c: Config, l: Logs, id: nat, i: nat, msg: Message)
    requires i < |c.ifaces|
    ensures HandlerAccount(c, l, id, Handler.Gathering(i, msg, 0, []))
  {
  }

  lemma HandlersKeepAccount(c: Config, s: State, a: Action, id: nat)
    requires WellFormed(c.published) && Inv(c, s) && Enabled(c, s, a) && id in Next(c, s, a).handlers
    requires id in s.handlers ==> HandlerAccount(c, LogsOf(s), id, s.handlers[id])
    ensures HandlerAccount(c, LogsOf(Next(c, s, a)), id, Next(c, s, a).handlers[id])
  {
    HandlerIsWhose(c, s, a, id);
    if a.By? && a.id == id {
      assert HandlerRecords(c, s.cacheLog, s.lookups, id, s.handlers[id]) && HandlerLookups(c, s.cacheLog, s.lookups, id, s.handlers[id]);
      MoveAccount(c, s, a.id, a.move);
    } else if a.HearQuery? && Next(c, s, a).handlers[id] == Handler.Gathering(a.i, a.msg, 0, []) {
      FreshAccount(c, LogsOf(Next(c, s, a)), id, a.i, a.msg);
    } else {
      NextGrows(c, s, a);
      HandlerAccountGrows(c, LogsOf(s), LogsOf(Next(c, s, a)), id, s.handlers[id]);
    }
  }

  lemma PacketsKeepAccount(c: Config, s: State, a: Action, p: Packet)
    requires Inv(c, s) && Enabled(c, s, a) && Accounts(c, s) && p in Next(c, s, a).wire
    ensures PacketAccount(c, LogsOf(Next(c, s, a)), p)
  {
    if p in s.wire {
      NextGrows(c, s, a);
      PacketAccountGrows(c, LogsOf(s), LogsOf(Next(c, s, a)), p);
    } else {
      NewPacket(c, s, a, p);
      SendAccount(c, LogsOf(s), a.id, s.handlers[a.id]);
    }
  }

  lemma NewPacket(c: Config, s: State, a: Action, p: Packet)
    requires Enabled(c, s, a) && p in Next(c, s, a).wire && p !in s.wire
    ensures a.By? && a.id in s.handlers && s.handlers[a.id].CheckingAdds? && s.handlers[a.id].rest == []
    ensures p == SentBy(a.id, s.handlers[a.id]) && LogsOf(Next(c, s, a)) == LogsOf(s)
  {
  }

  lemma StepKeepsAccounts(c: Config, s: State, a: Action)
    requires WellFormed(c.published) && Inv(c, s) && Enabled(c, s, a) && Accounts(c, s)
    ensures Accounts(c, Next(c, s, a))
  {
    var s' := Next(c, s, a);
    forall id | id in s'.handlers ensures HandlerAccount(c, LogsOf(s'), id, s'.handlers[id]) {
      HandlersKeepAccount(c, s, a, id);
    }
    forall p | p in s'.wire ensures PacketAccount(c, LogsOf(s'), p) {
      PacketsKeepAccount(c, s, a, p);
    }
  }

  // ---- every run ----

  lemma {:induction false} RunKeepsAccounts(c: Config, actions: seq<Action>, states: seq<State>, n: nat)
    requires WellFormed(c.published) && IsRun(c, actions, states) && n <= |actions|
    ensures Accounts(c, states[n])
  {
    if n > 0 {
      RunKeepsAccounts(c, actions, states, n - 1);
      RunKeepsInv(c, actions, states, n - 1);
      StepKeepsAccounts(c, states[n - 1], actions[n - 1]);
    }
  }

  /** In every run each response is complete. Every record of the interface that answers
      a question, and every record the cache could relay when the handler asked it that
      question, is among the answers, is known to the querier, or was refused because a
      stamp was less than the gap old. What the records sent call for, and the cache
      could relay when asked, is sent too, unless refused for such a stamp; and nothing
      is added that no record composed for the response calls for. */
  lemma ResponsesAreComplete(c: Config, actions: seq<Action>, states: seq<State>, n: nat, p: Packet)
    requires WellFormed(c.published) && IsRun(c, actions, states) && n <= |actions| && p in states[n].wire
    ensures p.i < |c.ifaces|
    ensures AnswersSettled(c, LogsOf(states[n]), p.handler, p.i, p.msg, KeysOf(p.answers))
    ensures AddsSettled(c, LogsOf(states[n]), p.handler, p.i, p.msg, p.answers + p.adds, p.adds)
  {
    RunKeepsAccounts(c, actions, states, n);
    assert PacketAccount(c, LogsOf(states[n]), p);
  }

  lemma RunStep(c: Config, actions: seq<Action>, states: seq<State>, n: nat)
    requires IsRun(c, actions, states) && n < |actions|
    ensures Enabled(c, states[n], actions[n]) && states[n + 1] == Next(c, states[n], actions[n])
  {
  }

  lemma HandlerIsPlaced(c: Config, s: State, id: nat)
    requires Inv(c, s) && id in s.handlers
    ensures id < s.nextId && s.handlers[id].i < |c.ifaces| && !Sent(s.wire, id)
  {
    assert HandlerRecords(c, s.cacheLog, s.lookups, id, s.handlers[id]);
  }

  /** A handler that goes on is the same handler, for the same query. */
  lemma StepStays(c: Config, s: State, a: Action, id: nat)
    requires Enabled(c, s, a) && id < s.nextId
    ensures id < Next(c, s, a).nextId
    ensures id in Next(c, s, a).handlers ==>
              && id in s.handlers
              && Next(c, s, a).handlers[id].i == s.handlers[id].i && Next(c, s, a).handlers[id].msg == s.handlers[id].msg
  {
    NextGrows(c, s, a);
    if id in Next(c, s, a).handlers { HandlerOrigin(c, s, a, id); }
  }

  /** A handler keeps its interface and query while it runs. */
  lemma {:induction false} HandlerStays(c: Config, actions: seq<Action>, states: seq<State>, m: nat, n: nat, id: nat)
    requires IsRun(c, actions, states) && m <= n <= |actions| && id in states[m].handlers && id < states[m].nextId
    ensures id < states[n].nextId
    ensures id in states[n].handlers ==>
              states[n].handlers[id].i == states[m].handlers[id].i && states[n].handlers[id].msg == states[m].handlers[id].msg
    decreases n
  {
    if m < n {
      HandlerStays(c, actions, states, m, n - 1, id);
      RunStep(c, actions, states, n - 1);
      StepStays(c, states[n - 1], actions[n - 1], id);
    }
  }

  lemma EndMove(c: Config, s: State, id: nat, move: Move)
    requires id in s.handlers && MoveEnabled(c, s, move, s.handlers[id])
    requires id !in AfterMove(c, s, id, move, s.handlers[id]).handlers
    ensures move.Suppress? || move.AnswersChecked? || move.Send?
    ensures move.Suppress? ==> Unknown(s.handlers[id].answers, s.handlers[id].msg.answers) == []
    ensures move.AnswersChecked? ==> AnswersOf(s.handlers[id]) == []
    ensures move.Send? ==> Sent(AfterMove(c, s, id, move, s.handlers[id]).wire, id)
  {
    if move.Send? { SentGrows(s.wire, SentBy(id, s.handlers[id]), id); }
  }

  lemma EndIsOwn(c: Config, s: State, a: Action, id: nat)
    requires Enabled(c, s, a) && id in s.handlers && id !in Next(c, s, a).handlers
    ensures a.By? && a.id == id
  {
    if a.By? && a.id != id { OthersStay(c, s, a.id, a.move, id); }
  }

  lemma OthersStay(c: Config, s: State, id: nat, move: Move, other: nat)
    requires id in s.handlers && MoveEnabled(c, s, move, s.handlers[id]) && other in s.handlers && other != id
    ensures other in AfterMove(c, s, id, move, s.handlers[id]).handlers
  {
  }

  /** A handler that ends without sending owed nothing that was not known or refused. */
  lemma EndOwesNothing(c: Config, s: State, a: Action, id: nat)
    requires Inv(c, s) && Enabled(c, s, a) && id in s.handlers && HandlerAccount(c, LogsOf(s), id, s.handlers[id])
    requires id !in Next(c, s, a).handlers && !Sent(Next(c, s, a).wire, id)
    ensures AnswersSettled(c, LogsOf(Next(c, s, a)), id, s.handlers[id].i, s.handlers[id].msg, {})
  {
    var h := s.handlers[id];
    EndIsOwn(c, s, a, id);
    EndMove(c, s, id, a.move);
    assert KeysOf([]) == {};
    if a.move.Suppress? {
      assert HandlerRecords(c, s.cacheLog, s.lookups, id, h);
      SuppressedAnswers(c, LogsOf(s), id, h);
    }
  }

  /** The step at which a handler ended. */
  lemma {:induction false} GoneWhen(actions: seq<Action>, states: seq<State>, m: nat, n: nat, id: nat) returns (j: nat)
    requires |states| == |actions| + 1 && m <= n <= |actions| && id in states[m].handlers && id !in states[n].handlers
    ensures m <= j < n && id in states[j].handlers && id !in states[j + 1].handlers
    decreases n
  {
    j := n - 1;
    if id !in states[j].handlers { j := GoneWhen(actions, states, m, j, id); }
  }

  ghost predicate GrewTo(s: State, s': State) {
    Grew(LogsOf(s), LogsOf(s')) && s.wire <= s'.wire
  }

  lemma RunStepGrows(c: Config, actions: seq<Action>, states: seq<State>, n: nat)
    requires IsRun(c, actions, states) && n < |actions|
    ensures GrewTo(states[n], states[n + 1])
  {
    RunStep(c, actions, states, n);
    NextGrows(c, states[n], actions[n]);
    WireGrows(c, states[n], actions[n]);
  }

  lemma {:induction false} GrowthChains(states: seq<State>, m: nat, n: nat)
    requires m <= n < |states| && forall j :: m <= j < n ==> GrewTo(states[j], states[j + 1])
    ensures GrewTo(states[m], states[n])
    decreases n
  {
    if m < n {
      GrowthChains(states, m, n - 1);
      assert GrewTo(states[n - 1], states[n - 1 + 1]);
    }
  }

  /** Logs and wire only grow over a run. */
  lemma RunGrows(c: Config, actions: seq<Action>, states: seq<State>, m: nat, n: nat)
    requires IsRun(c, actions, states) && m <= n <= |actions|
    ensures GrewTo(states[m], states[n])
  {
    forall j | m <= j < n ensures GrewTo(states[j], states[j + 1]) { RunStepGrows(c, actions, states, j); }
    GrowthChains(states, m, n);
  }

  lemma SentPersists(wire: seq<Packet>, wire': seq<Packet>, id: nat)
    requires wire <= wire' && Sent(wire, id)
    ensures Sent(wire', id)
  {
    var p :| p in wire && p.handler == id;
    assert p in wire';
  }

  lemma SettledPersists(c: Config, l: Logs, l': Logs, id: nat, i: nat, msg: Message)
    requires Grew(l, l') && i < |c.ifaces| && AnswersSettled(c, l, id, i, msg, {})
    ensures AnswersSettled(c, l', id, i, msg, {})
  {
    GrewCarries(c, l, l', id, i, msg, {}, {});
    AnswersCarry(c, l, l', id, i, msg, {}, {});
  }

  lemma EndSettles(c: Config, actions: seq<Action>, states: seq<State>, j: nat, id: nat)
    requires WellFormed(c.published) && IsRun(c, actions, states) && j < |actions|
    requires id in states[j].handlers && id !in states[j + 1].handlers && !Sent(states[j + 1].wire, id)
    ensures states[j].handlers[id].i < |c.ifaces|
    ensures AnswersSettled(c, LogsOf(states[j + 1]), id, states[j].handlers[id].i, states[j].handlers[id].msg, {})
  {
    RunKeepsInv(c, actions, states, j);
    RunKeepsAccounts(c, actions, states, j);
    RunStep(c, actions, states, j);
    EndOwesNothing(c, states[j], actions[j], id);
  }

  /** A handler that ended without a response owed nothing that was not known or refused. */
  lemma UnsentOwesNothing(c: Config, actions: seq<Action>, states: seq<State>, m: nat, n: nat, id: nat)
    requires WellFormed(c.published) && IsRun(c, actions, states) && m <= n <= |actions|
    requires id in states[m].handlers && id < states[m].nextId && states[m].handlers[id].i < |c.ifaces|
    requires id !in states[n].handlers && !Sent(states[n].wire, id)
    ensures AnswersSettled(c, LogsOf(states[n]), id, states[m].handlers[id].i, states[m].handlers[id].msg, {})
  {
    var h := states[m].handlers[id];
    var j := GoneWhen(actions, states, m, n, id);
    HandlerStays(c, actions, states, m, j, id);
    RunGrows(c, actions, states, j + 1, n);
    if Sent(states[j + 1].wire, id) { SentPersists(states[j + 1].wire, states[n].wire, id); }
    EndSettles(c, actions, states, j, id);
    SettledPersists(c, LogsOf(states[j + 1]), LogsOf(states[n]), id, h.i, h.msg);
  }

  lemma WireGrows(c: Config, s: State, a: Action)
    requires Enabled(c, s, a)
    ensures s.wire <= Next(c, s, a).wire
  {
  }

  /** The fate of every query that was heard, once its handler is done: either one
      response to it was built, complete as above, or none was, and then everything it
      asked for is known to the querier or was refused for a stamp less than the gap old. */
  lemma EveryQueryIsSettled(c: Config, actions: seq<Action>, states: seq<State>, j: nat, n: nat, i: nat, msg: Message)
    requires WellFormed(c.published) && IsRun(c, actions, states) && j < n <= |actions|
    requires actions[j] == HearQuery(i, msg) && states[j].nextId !in states[n].handlers
    ensures i < |c.ifaces|
    ensures var id := states[j].nextId;
            || (exists p :: p in states[n].wire && p.handler == id && p.i == i && p.msg == msg
                            && AnswersSettled(c, LogsOf(states[n]), id, i, msg, KeysOf(p.answers)))
            || (!Sent(states[n].wire, id) && AnswersSettled(c, LogsOf(states[n]), id, i, msg, {}))
  {
    var id := states[j].nextId;
    RunStep(c, actions, states, j);
    RunKeepsInv(c, actions, states, j + 1);
    HandlerIsPlaced(c, states[j + 1], id);
    if Sent(states[n].wire, id) {
      var p :| p in states[n].wire && p.handler == id;
      ResponsesAreComplete(c, actions, states, n, p);
      SentToItsQuery(c, actions, states, j + 1, n, p);
    } else {
      UnsentOwesNothing(c, actions, states, j + 1, n, id);
    }
  }

  /** The step at which a response was built. */
  lemma {:induction false} SentWhen(c: Config, actions: seq<Action>, states: seq<State>, m: nat, n: nat, p: Packet) returns (j: nat)
    requires IsRun(c, actions, states) && m <= n <= |actions| && p in states[n].wire && p !in states[m].wire
    ensures m <= j < n && p !in states[j].wire && p in states[j + 1].wire
    decreases n
  {
    j := n - 1;
    if p in states[j].wire { j := SentWhen(c, actions, states, m, j, p); }
  }

  /** A response goes to the query its handler was started for. */
  lemma SentToItsQuery(c: Config, actions: seq<Action>, states: seq<State>, m: nat, n: nat, p: Packet)
    requires IsRun(c, actions, states) && m <= n <= |actions| && p in states[n].wire && p !in states[m].wire
    requires p.handler in states[m].handlers && p.handler < states[m].nextId
    ensures p.i == states[m].handlers[p.handler].i && p.msg == states[m].handlers[p.handler].msg
  {
    var j := SentWhen(c, actions, states, m, n, p);
    RunStep(c, actions, states, j);
    SentStep(c, states[j], actions[j], states[j + 1], p);
    HandlerStays(c, actions, states, m, j, p.handler);
  }

  lemma SentStep(c: Config, s: State, a: Action, s': State, p: Packet)
    requires Enabled(c, s, a) && s' == Next(c, s, a) && p in s'.wire && p !in s.wire
    ensures p.handler in s.handlers && p.i == s.handlers[p.handler].i && p.msg == s.handlers[p.handler].msg
  {
    PacketOrigin(c, s, a, p);
  }

  /** A sleeping handler's delay is in its range, and once it has passed the handler can
      go on. */
  lemma SleepersAreOnTime(c: Config, actions: seq<Action>, states: seq<State>, n: nat, id: nat, now: Time)
    requires WellFormed(c.published) && IsRun(c, actions, states) && n <= |actions|
    requires id in states[n].handlers && states[n].handlers[id].Sleeping?
    ensures var h := states[n].handlers[id];
            && h.i < |c.ifaces| && DelayFits(c, h.i, h.msg, h.answers, h.drawn, h.until)
            && (Enabled(c, states[n], By(id, Prepare(Wake(now)))) <==> h.until <= now)
  {
    RunKeepsAccounts(c, actions, states, n);
    assert HandlerAccount(c, LogsOf(states[n]), id, states[n].handlers[id]);
  }
}
