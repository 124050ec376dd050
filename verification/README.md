# nmdns: a verified model

nmdns answers multicast DNS queries, caches what its links announce, and
repeats datagrams between interfaces. This project models its decision logic in
Dafny and proves what that logic keeps over every run.

| file | models |
|---|---|
| `records.dfy` | records, record keys, lookups by name and type |
| `cache.dfy` | the cache object, and one call on it as a function of the table |
| `cache_calls.dfy` | what one call promises: what an insertion loses, TTLs handed out, the TTL cap |
| `cache_runs.dfy` | whole runs: the table against the log of events |
| `cache_sweeps.dfy` | the swept cache against the never-swept one |
| `tracker.dfy` | the multicast rate limiter and its runs |
| `net.dfy` | prefix arithmetic, subnets, interfaces |
| `ingress.dfy` | the guards on a received datagram, attribution, forward targets, reflection |
| `services.dfy` | the published records: building, answering, announcing, goodbye |
| `responder.dfy` | the records of a response: candidates, suppression, additionals, delay |
| `engine.dfy` | feeding a response message to the cache |
| `daemon.dfy` | the running daemon: up to 256 interleaved handlers over one cache and one limiter |
| `daemon_inv.dfy` | what every step of the daemon keeps |
| `daemon_runs.dfy` | what holds over every run of the daemon |
| `daemon_answers.dfy` | every query gets what it asked for, in every run |
| `daemon_progress.dfy` | what the daemon gets done: responses into the cache, housekeeping, no handler stuck |

`dafny verify dfyconfig.toml` checks the whole project.

## Main results

- **Sweeping the cache is invisible.** Any two runs of the same traffic under one
  tie-break answer alike, whenever each of them sweeps
  (`CacheSweeps.AnyTwoSchedulesAgree`). However a run resolved its ties, there is a
  run under any other sweep plan that answers alike (`CacheSweeps.SweepsAreInvisible`).
  Both hold at capacity, where the two caches evict different entries.
- **The table refines its log** (`CacheRuns.VisibleIffLiveByLog`). Whether a key
  is visible can be read off the events alone.
- **Rate limiting holds over every interleaving** (`DaemonRuns.ResponseIsSpaced`,
  `DaemonRuns.ResponsesAreSpaced`) of handlers, announcement marks and prunes: one
  second, or 250 ms exactly for a probe of a record of the interface.
- **Split horizon holds over every interleaving** (`DaemonRuns.ResponsesRespectTheHorizon`):
  each relayed record goes back to a lookup of its own handler, at the clock that
  lookup read, and to an insertion heard on another interface.
- **Every query is settled** (`DaemonAnswers.EveryQueryIsSettled`,
  `DaemonAnswers.ResponsesAreComplete`). In every run, whatever a query asks for that the
  interface owns, or that the cache could relay when asked, is in its one response, is
  known to the querier, or was refused for a stamp of that record on that interface
  less than a second old, 250 ms for a probe. This holds of queries that get no
  response too.
- **A response answers its query** (`DaemonRuns.ResponsesAnswerTheirQuery`) **and waits
  for it** (`DaemonRuns.ResponsesWait`).
- **The stamps of a handler are its response** (`DaemonRuns.StampsAreTheResponse`).
- **Additionals are complete in every run** (`DaemonRuns.HandlerCompletes`), also while
  the cache changes between the lookups; against one cache the two passes reach the
  least closed set (`Responder.CachedAdditionals`).
- **Responses reach the cache whole** (`DaemonProgress.ResponsesReachTheCache`) and
  nothing else does (`DaemonProgress.InsertsWereHeard`).
- **No handler is ever stuck** (`DaemonProgress.HandlersCanMove`) and each ends after
  finitely many moves (`DaemonProgress.MovesLeadToTheEnd`).
- **Reflection never cascades** (`Ingress.ReflectionNeverCascades`).

## Where the code does not do what one might expect

Each of these is stated with its exact condition.

- A TTL cap is narrowed to 32 bits. It turns live records into goodbyes exactly
  when it is a multiple of 2^32; a cap that passed validation never is
  (`CapMakesGoodbyeIff`, `ValidatedCapIsMinimum`).
- A lookup reads the clock before it takes the lock. The TTL it hands out exceeds
  the stored one exactly when that reading precedes the insertion's, unless the
  stored TTL is already 2^32 - 1 (`TtlWithinStoredIff`, `HandedOutTtl`).
- A sweep can be noticed exactly by an observer whose clock reading is earlier
  than the sweep's (`SweepInvisibleIff`). A prune can be noticed exactly by a
  check that lags it by more than the slack between the two intervals: none for
  ordinary answers, 750 ms for probe defence (`PruneInvisibleIff`).
- Relaying lookups can tell a swept cache from an unswept one exactly when an
  insertion without a source refreshes an expired, already swept entry that had
  one: the unswept cache keeps the old source (`AttributionInvisibleIff`). Such a run
  exists for every record and any two interfaces (`ReadoptionIsVisible`).
- Announced PTR records are sent but not stamped in the limiter, so an answer may
  repeat them at once (`AnnouncedIsStampedIffUnique`,
  `AnnouncedIsHeldBackIffUnique`).
- The comment at `src/cache.rs:81-83` says a record may be rejected at capacity.
  The code always evicts and never rejects; the model follows the code
  (`Engine.RunBalance`).

## Premises

- Time is a natural number of nanoseconds. Every clock reading is an argument, so
  any order of readings is allowed unless a theorem says otherwise. `Orderly`,
  `InOrder` and `MarksForward` are the orders asked for; readings that do not
  decrease in lock order meet them. A handler's own readings do not go back: it asks
  the limiter no earlier than it woke.
- `Instant::duration_since` saturates at zero.
- The scan for the entry to evict breaks ties arbitrarily. The victim is part of
  a run's log, and any entry of least deadline is legal. A fixed tie-break is an
  injective rank of keys.
- Names are compared by equality only; parsing them is a parameter that may fail.
- Records that are equal apart from their TTL are the same published record.
- Encoding a response succeeds. Random delays are any value in their range.
- Addresses are bit sequences, most significant bit first.

## Model

| member | source | states |
|---|---|---|
| `Records.SameKeyIff` | src/record_key.rs:13-30 | two records have one key iff they differ in TTL and cache-flush at most |
| `Cache.RecordCache.constructor` | src/cache.rs:63-71 | a new cache is empty and its bound is max(1, max_entries) |
| `Cache.RecordCache.Victim` | src/cache.rs:148-152 | the scan finds an entry of least deadline |
| `Cache.RecordCache.InsertFrom` | src/cache.rs:91-167 | the new table, the outcome and the legality of the victim; the table stays well keyed and bounded |
| `Cache.RecordCache.EvictExpired` | src/cache.rs:179-185 | exactly the entries past their deadline go, and the count is how many went |
| `Cache.RecordCache.Lookup` | src/cache.rs:190-192 | lists each live matching record once, with its remaining TTL |
| `Cache.RecordCache.LookupFromOtherIfaces` | src/cache.rs:200-226 | lists each live matching record learned on another interface once, cache-flush cleared |
| `Cache.InsertKeepsBound` | src/cache.rs:141-165 | whichever legal victim is taken, size stays within max(1, max_entries) |
| `CacheCalls.InsertLosesOnly` | src/cache.rs:113-166 | a live insertion loses exactly the flushed siblings and one victim of least deadline in the old table, none if the key was present or a sibling went; the record is visible at once |
| `CacheCalls.FlushIsOfOneGroup` | src/cache.rs:113-156 | in plain fields: what differs from a live insertion in name, type or class stays unchanged but for the victim; with cache-flush other data of the same name, type and class goes; there is a victim iff a new key meets a full table with nothing to flush |
| `CacheCalls.LookupIsExact` | src/cache.rs:190-243 | a lookup sees a key iff it is live and of the name, and of the type unless any is asked; a relaying one iff also heard on a known other interface, cache-flush cleared |
| `CacheCalls.RemainingTtlIsCeiling` | src/cache.rs:245-258 | a record is handed out exactly before its deadline, with the remaining seconds rounded up |
| `CacheCalls.TtlWithinStoredIff` | src/cache.rs:215-258 | the TTL handed out is within the stored one iff the lookup's reading is not before the insertion's, or the stored one is the largest |
| `CacheCalls.TtlExactWhenInOrder` | src/cache.rs:245-258 | with readings in order the 32-bit clamp never bites |
| `CacheCalls.TtlNeverRises` | src/cache.rs:245-258 | of one entry a later reading never hands out a larger TTL |
| `CacheCalls.CapMakesGoodbyeIff` | src/cache.rs:99-103 | a cap makes some live record a goodbye iff it is a multiple of 2^32 |
| `CacheCalls.ValidatedCapIsMinimum` | src/config.rs:235-244 | a cap is refused iff it exceeds 32 bits; otherwise it acts as the plain minimum with the configured number, zero meaning none, and makes no live record a goodbye |
| `CacheRuns.RunStaysBounded` | src/cache.rs:91-185 | in every reachable state the table is well keyed and within its bound |
| `CacheRuns.StepFate` | src/cache.rs:91-185 | which events can change whether a key is visible, and to what |
| `CacheRuns.VisibleIffLiveByLog` | src/cache.rs:91-258 | a key is visible iff the last event that touched it is a live insertion of it that has not run out; capacity evictions included |
| `CacheRuns.HandedOutTtl` | src/cache.rs:99-258 | in any run a lookup hands out the last inserted record with the exact ceiling of its remaining capped lifetime; within the capped TTL iff the reading is in order |
| `CacheRuns.TtlNeverRisesInRun` | src/cache.rs:91-258 | at any two points of a run with no event touching the key between them, the later lookup hands out the same record with no larger TTL |
| `CacheRuns.SourceIsLatestAttribution` | src/cache.rs:131-139 | an entry's source is the latest attributed one since its key was last absent, and none iff there is none |
| `CacheRuns.FlushedGroupIsSingle` | src/cache.rs:117-126 | a (name, type, class) group fed only by cache-flush records never holds two entries |
| `CacheRuns.GoodbyesSubtract` | src/cache.rs:105-111 | feeding goodbyes to any table is map subtraction of their keys |
| `CacheSweeps.SweepInvisibleIff` | src/cache.rs:179-185 | a sweep changes nothing any observer can see iff its reading is not later than the observer's |
| `CacheSweeps.VictimWasSwept` | src/cache.rs:141-156 | whenever the swept cache has fewer entries, the unswept one evicts an entry that was swept already |
| `CacheSweeps.Unsweep` | src/cache.rs:91-185 | every run has a never-swept twin, coupled with it at every point |
| `CacheSweeps.Resweep` | src/cache.rs:91-185 | every never-swept run has a twin that sweeps at any chosen ticks, coupled with it at every point |
| `CacheSweeps.SameSourcesIff` | src/cache.rs:200-226 | coupled tables answer every relaying lookup alike iff their sources agree |
| `CacheSweeps.AttributionInvisibleIff` | src/cache.rs:131-139 | sources agree throughout a run iff no unattributed insertion refreshes a swept, attributed entry |
| `CacheSweeps.ReadoptionIsVisible` | src/engine.rs:204-256 | for any record and any two interfaces: heard, run out, swept or not, heard again from a link that could not be told, it is relayed by the unswept cache and not by the swept one |
| `CacheSweeps.SweepsAreInvisible` | src/engine.rs:120-139 | for any run, however it resolved its ties, and any other sweep plan there is a run of the same calls with the same lookups at every point, and the same relaying lookups when every insertion is attributed |
| `CacheSweeps.RankedRunsCouple` | src/cache.rs:141-185 | under one tie-break every run is coupled at every point with every unswept run of the same calls |
| `CacheSweeps.AnyTwoSchedulesAgree` | src/engine.rs:120-139 | under one tie-break any two runs of the same calls, whenever each sweeps, have the same lookups at every point, and the same relaying lookups when every insertion is attributed |
| `Tracker.MulticastTracker.constructor` | src/timing.rs:47-50 | a new tracker has no stamps |
| `Tracker.MulticastTracker.Mark` | src/timing.rs:53-56 | stamps the slot, whatever was there |
| `Tracker.MulticastTracker.CheckAndMark` | src/timing.rs:98-109 | accepts iff the interval has elapsed or the slot is free; stamps iff it accepts |
| `Tracker.MulticastTracker.PruneOlderThan` | src/timing.rs:73-79 | drops exactly the stamps older than the interval |
| `Tracker.PruneInvisibleIff` | src/timing.rs:67-79 | no tracker can be told from its pruned self by a check iff the check is within the slack of the prune |
| `Tracker.PruningIsInvisible` | src/timing.rs:73-109 | a tracker pruned at any points decides every check of every run as one that keeps every stamp |
| `Tracker.NonDecreasingIsInOrder` | src/timing.rs:73-109 | readings that do not decrease in lock order put every check within the slack |
| `Tracker.NonDecreasingMarksForward` | src/timing.rs:53-56 | and no mark reads before the slot's last stamp |
| `Tracker.LatestStamp` | src/timing.rs:98-109 | the stamp of a slot is at least every stamp it ever got, even with checks out of clock order |
| `Tracker.StampsAreSpaced` | src/timing.rs:98-109 | an accepted check is stamped at least its interval after every earlier stamp of its slot |
| `Net.MaskAgreesIff` | src/config.rs:167-173 | two addresses mask alike iff their leading bits agree, at either width |
| `Net.NetOfNet` | src/iface.rs:279-287 | the network of a network is the network at the shorter prefix |
| `Net.Ipv6PrefixLen` | src/iface.rs:266-277 | the octet loop returns the greatest p at which the mask starts with p ones |
| `Net.SubnetMatchesIff` | src/config.rs:123-181 | a subnet is accepted iff its length fits the family, and matches iff the family and the leading bits agree |
| `Net.LongerPrefixMatchesSubset` | src/config.rs:123-181 | a longer prefix of the same address matches a subset |
| `Net.ContainsIff` | src/iface.rs:78-96 | an interface contains itself, and a source iff the addresses agree on every bit of the mask: the leading bits for IPv6 and for an IPv4 prefix mask |
| `Ingress.FirstWithIndex` | src/repeater.rs:85-88 | the first interface with the kernel index, or none has it |
| `Ingress.FirstContaining` | src/repeater.rs:102-106 | the first interface whose subnet holds the source, or none does |
| `Ingress.IngressIsIdentified` | src/repeater.rs:84-107 | the kernel's index decides iff a monitored interface has it, the first such; otherwise fe80::/10 is not attributed, and any other source belongs to the first interface whose subnet holds it, to none iff none does |
| `Ingress.ForwardingIsSound` | src/repeater.rs:23-107 | identify-then-forward yields strictly increasing valid indices: all but a known ingress; no interface on the source's subnet when it is unknown; none for an unattributed source that is not link-local |
| `Ingress.TakenIff` | src/engine.rs:185-229 | a datagram is taken iff it has port 5353, comes from no own address, from a whitelisted prefix or, without a whitelist, from no blacklisted one, by leading bits, and its ingress is known or repeating is on; and exactly where it is repeated |
| `Ingress.EchoIsDropped` | src/engine.rs:185-202 | a copy of anything the daemon emitted, heard on any interface, is dropped before it is parsed |
| `Ingress.ReflectionNeverCascades` | src/engine.rs:185-229 | over any trace no echo is cached, answered or repeated, and repeats are at most (n - 1) per external datagram taken |
| `Services.Build` | src/services.rs:91-181 | succeeds iff every name parses, otherwise names the first that does not, of the first such service; one group of records per service, its instance the label before the type, and one per interface address, in order |
| `Services.HostAddresses` | src/services.rs:96-115 | the published addresses are exactly those of the interfaces, each under the host name with the host TTL and cache-flush set |
| `Services.Answer` | src/services.rs:186-221 | the scan by type and stored name equals, in order, the plain filter of the flattened published list |
| `Services.HostRecordsAreOwn` | src/services.rs:226-253 | the host records of an interface are exactly the published ones with one of its own addresses |
| `Services.AnnouncedIsStampedIffUnique` | src/responder.rs:315-332 | of what an announcement sends, exactly the cache-flush records are stamped |
| `Services.Goodbye` | src/services.rs:279-293 | every published record but the meta PTRs, in order, with TTL zero |
| `Services.FarewellIsExact` | src/services.rs:285-291 | a record gets a goodbye iff it is a host record or a service's PTR, SRV or TXT |
| `Services.OnlyMetaStays` | src/services.rs:287-291 | of the records announced on an interface only meta PTRs get no goodbye |
| `Services.GoodbyeClearsPeers` | src/services.rs:279-293 | any cache that hears the goodbye loses exactly its keys; of what was announced at most meta PTRs stay |
| `Responder.PushNewKeeps` | src/responder.rs:73-77 | de-duplication loses no key, doubles none, and lets no blocked one in |
| `Responder.PushAll` | src/responder.rs:73-77 | the loop with its set of seen keys computes it |
| `Responder.OwnIsExact` | src/responder.rs:88-102 | the published answers kept are exactly the interface's own records that match the question |
| `Responder.BrowsingResolves` | src/services.rs:91-221 | for everything built, on every interface: the meta query leads to each configured type, the type to its instance, label before type, the instance to the configured port, text and host, and the own host name to the addresses of the interface asked, of either family, and no other |
| `Responder.OwnKeysAreUnique` | src/services.rs:100-163 | own records of one key are one record |
| `Responder.AnnouncementIsOwn` | src/responder.rs:315-332 | an announcement carries exactly the records the interface would answer with |
| `Responder.UniqueIsOwnFlush` | src/services.rs:260-275 | the unique records of an interface are exactly its own cache-flush records |
| `Responder.AnswerQuestion` | src/responder.rs:88-117 | one question adds exactly its own and relayable keys, after what was there |
| `Responder.CandidateAnswers` | src/responder.rs:79-132 | each key called for is answered once, by a record the interface owns or that may be relayed to it |
| `Responder.ApplyKnownAnswers` | src/responder.rs:59-71 | keeps, in order, exactly the answers not known with half the TTL left; the saturating product agrees with exact arithmetic |
| `Responder.UnknownMember` | src/responder.rs:59-71 | an answer survives iff it is not known; distinctness carries over |
| `Responder.AddCachedRecords` | src/responder.rs:134-148 | adds exactly what the cache can relay for the name and type, unless seen |
| `Responder.AddCalledFor` | src/responder.rs:158-177 | the two lookups for one record, each at its own reading: all that was available throughout, only what was available at some |
| `Responder.Pass` | src/responder.rs:179-205 | a pass adds the keys its records call for: all available throughout its readings, only ones available at some |
| `Responder.CachedAdditionals` | src/responder.rs:150-208 | each lookup reads the clock anew: the additionals are closed under PTR to SRV/TXT and SRV to A/AAAA over what stayed available, within the least set closed over what was available at first, exactly the least closed set at one reading; no repeats; none when answering from cache is off |
| `Responder.TwoPassesComplete` | src/responder.rs:158-205 | two passes suffice: no third could add anything |
| `Engine.InsertBalance` | src/cache.rs:105-166 | one insertion in numbers: the new size from the outcome, the flushed and the evicted |
| `Engine.RunBalance` | src/engine.rs:250-263 | over any run of insertions none is rejected, each is counted once, and the size balances exactly |
| `Engine.CountersCount` | src/engine.rs:246-262 | each counter is the number of records of its kind: live and new, live and there, goodbyes for what was there, goodbyes for nothing; none rejected |
| `Engine.FeedRecord` | src/engine.rs:256-262 | one record extends the run by one legal event and its counter by the outcome |
| `Engine.HandleResponseMsg` | src/engine.rs:244-274 | all three sections are fed in order as one legal run, and each counter counts the records of its kind |
| `DaemonInv.StepKeepsInv` | src/responder.rs:236-312 | every step of every handler, announcement, sweep and prune keeps the invariant |
| `DaemonRuns.RunKeepsInv` | src/engine.rs:142-183 | so every state of every run has it |
| `DaemonRuns.ResponsesRespectTheHorizon` | src/responder.rs:236-312 | at most 256 handlers run; each response has distinct records, each the interface's own or, with cache-flush cleared, one that a lookup of that handler found alive at its own reading and whose latest attributed insertion came from another interface |
| `DaemonRuns.RunIsTraced` | src/engine.rs:166-240 | in every run each handler and response goes back to the query that started it and to the drawing of its delay |
| `DaemonRuns.ResponsesAnswerTheirQuery` | src/responder.rs:252-259 | every response goes back to a query heard on its interface; each answer matches one of its questions and none is known with half its TTL left |
| `Daemon.DefendsIff` | src/responder.rs:45-54 | a query is defended against iff its authority section names a cache-flush record that the interface owns, by name and type |
| `DaemonRuns.ResponsesWait` | src/responder.rs:268-273 | outside probe defence the first record is asked for at least 400 ms after the delay was drawn when the query was truncated, and at least 20 ms after when it had several questions or an answer is shared or relayed |
| `DaemonRuns.StampsAreTheResponse` | src/responder.rs:279-298 | the slots a handler stamps are, in order, the records it sends; it asks for none twice; one that sends nothing has stamped nothing |
| `DaemonRuns.SentIsStamped` | src/responder.rs:284-293 | each record sent was stamped by its own handler at the interval of its query |
| `DaemonRuns.ResponseIsSpaced` | src/responder.rs:275-298 | each record sent was stamped at least 1 s after every earlier stamp of it on that interface, from a response or an announcement; 250 ms only when the query probes for a record of the interface |
| `DaemonRuns.ResponsesAreSpaced` | src/responder.rs:236-312 | of two responses with the same record on the same interface the two stamps of that record are distinct and one has the full gap after the other |
| `DaemonRuns.GatherAddsExactly` | src/responder.rs:88-117 | in the running daemon a question adds exactly the own records and what the cache can relay at that moment |
| `DaemonRuns.HandlerCompletes` | src/responder.rs:252-261 | in every run, whatever changes in the cache between its lookups, a handler's answers are completed: closed over what was available at all of them, within the least set closed over what was available at some |
| `DaemonRuns.AnnouncedIsHeldBackIffUnique` | src/responder.rs:398-420 | after an announcement onto any limiter, each mark at its own reading, an announced record is held back iff it is a cache-flush record or was held back before |
| `DaemonAnswers.RefusalHasReason` | src/timing.rs:98-109 | a check is refused only for a stamp of the record on the interface less than 1 s old, 250 ms for a probe |
| `DaemonAnswers.RunKeepsAccounts` | src/responder.rs:236-312 | in every state of every run each handler and response accounts for all its query asks for |
| `DaemonAnswers.ResponsesAreComplete` | src/responder.rs:252-298 | every own record and every relayable record a question asks for is among the answers, known, or refused for a stamp; what the records sent call for and the cache could relay is sent unless refused; nothing is added without a caller |
| `DaemonAnswers.UnsentOwesNothing` | src/responder.rs:257-292 | a handler that ends without a response owed nothing that was not known or refused |
| `DaemonAnswers.EveryQueryIsSettled` | src/engine.rs:231-242 | once its handler is done, every query heard has a complete response to it, or none, and then all it asked for is known or was refused |
| `DaemonAnswers.SleepersAreOnTime` | src/timing.rs:129-135 | a delay is none in probe defence, 400 to 500 ms for a truncated query, none for one question answered by unique records only, 20 to 120 ms otherwise; a handler may go on iff it has passed |
| `DaemonProgress.ResponsesReachTheCache` | src/engine.rs:244-263 | once its handler is done, all records of a response heard are inserted, in order, under the interface it came from |
| `DaemonProgress.InsertsWereHeard` | src/engine.rs:244-263 | every insertion is of a record of some response heard, under its source |
| `DaemonProgress.Housekeeping` | src/engine.rs:129-134 | a tick leaves exactly the entries not over and the stamps less than a second old |
| `DaemonProgress.AnnouncementsStamp` | src/responder.rs:409-411 | exactly the own cache-flush records are marked, at their reading |
| `DaemonProgress.TakenUpIff` | src/engine.rs:150-174 | a datagram is taken up iff fewer than 256 are in hand |
| `DaemonProgress.HandlersCanMove` | src/responder.rs:236-312 | in every state of every run every handler has a move |
| `DaemonProgress.MovesLeadToTheEnd` | src/responder.rs:236-312 | every move brings its handler closer to its end |

## Left out

- Sockets, `recvmsg`, interface enumeration and sends: calls into the operating system. A send is an append to a log.
- DNS wire encoding and decoding, and name parsing: a library's. Names and record data are compared by equality.
- The gap between stamping a record and its bytes leaving: the limiter stamps before the send, so stamps are spaced and sends only as far as they follow their stamps promptly.
- The repeater's send in a running handler: `Daemon` ends a handler with its response or its last record; what is repeated is decided in `Ingress`.
- Responder.CachedAdditionals: sees one cache throughout, ageing but not changed by others, because a method holds no other task's steps; `Daemon` interleaves every lookup with every insertion and sweep, and `DaemonRuns.HandlerCompletes` covers that.
- Probing at startup, the two announcement rounds and the two goodbye rounds with their gaps: plain loops around sends.
- The browser's back-off: a one-line closed form, the rest is input and output.
- TOML, command line, logging, hostname: plumbing.
- Task scheduling, signals and the shutdown drain: a library's. The interleaving and the permit count are modelled.
- Diagnostic reads (`snapshot`, `len`, `allows`): no callers in the modelled behaviour.
- Section 8.2 tie-breaking, section 6.1 NSEC responses and section 7.2 multi-packet known answers of RFC 6762: nmdns does not implement them.
