# A verified model of the aga2aga gateway and document core

aga2aga lets agents exchange work through Redis streams. A gateway offers MCP tools
(`get_task`, `complete_task`, `fail_task`, `send_message`, `receive_message`) on top of those
streams; documents are YAML front matter plus a body; limits, policies and a lifecycle table
govern who may do what. This project models the parts where ordering, concurrency or bytes
make the promises hard to see, and proves those promises for all inputs and all runs.

Check everything with `dafny verify dfyconfig.toml`.

## How it is laid out

| module | what it holds |
|---|---|
| `Delivery` | The delivery protocol as interleaved steps: Redis as logs, cursors and an unacknowledged set; read loops with their batch and one-slot channel; `get_task` and `receive_message`; `complete_task` and `fail_task`; the sweep. Network calls carry a reply that may report an error although the server acted. |
| `DeliveryPlaces`, `DeliveryInv` | The invariant, one small lemma per step. |
| `DeliveryTheorems`, `PendingCap`, `DeliveryOrder` | What every run guarantees: conservation and outcomes, the pending cap, the order of reading and handing on. |
| `DeliveryRuns`, `DeliveryLimits` | Runs built call by call, and with them the exact conditions: when an entry is overwritten, how far the pending cap reaches, why calls count from their count on. |
| `HandlerSteps`, `Handlers` | The tool handlers and the sweep as methods with their early exits, on the classes below, each proved to take the protocol through the steps it stands for. |
| `PendingMap` | The pending map as a class, and how old an entry is when the sweep removes it. |
| `RateBucket`, `Limiter`, `SendHistory`, `LimitCache` | The rate bucket on an array, compacted in place; the limit enforcer with its cache and its map of buckets; whole runs of sends by many agents; the cache as a concurrent protocol. |
| `FrontMatter`, `Documents`, `Protocol`, `Wire` | The byte-level splitter and its printer, documents, the registry, and the trip through the wire around an assumed YAML codec. |
| `Validator`, `Lifecycle`, `Builder` | Three-layer validation, the lifecycle table and its runs, the builder as a class and as chains of calls. |
| `Policy` | Policy evaluation over every permutation an unstable sort may choose. |
| `MessageLog` | The asynchronous logger: bounded channel, draining worker, flush on close. |

## Main results

- **Conservation.** In every run every entry the consumer group has read is in exactly one place
  or has met exactly one fate, fates are final, and the unacknowledged set is read minus
  acknowledged. This needs no hypothesis on IDs, because one of the fates is "overwritten": the
  pending map is keyed by entry ID alone. Some run overwrites x by y exactly when both are
  well-formed task entries, of two agents, with one ID (`OverwrittenExactlyWhen`).
- **Outcomes.** At most one outcome document per delivered entry, always naming that entry, and a
  well-formed task entry is acknowledged only after its outcome was published. With a gateway ID and
  schemas that compile, no entry leaves the pending map because its outcome could not be built.
- **Order.** Once a group exists on a topic it skips nothing and never goes back; each read loop hands on
  its entries in the order of the log. A read loop outlives a call that timed out: the entry it takes
  next is stranded in the channel for good, unacknowledged (`TimeoutsStrandEntries`, `StrandedForever`).
- **The pending cap.** Counting calls from their check on bounds nothing: the pending count is an
  argument of the check and is read before it, so for every n there is a run with one call at a
  time past its check and n entries pending (`StaleCountsPassTheCheck`). Counting calls from the
  moment they read the count, the cap is exact: every run with at most m calls of an agent on their
  way keeps its pending entries within L + k if and only if m <= k (`CapIsExact`).
- **Eviction.** With ideal ticks an unclaimed entry is there up to age ttl, gone past ttl + ttl/2
  whatever looks for it, and removed by one sweep at an age in between.
- **The rate limiter.** The bucket compacted in place answers exactly like a limiter that keeps
  every timestamp. The sends let through under a rate limit in any 60-second window never exceed the
  limit in force at the last of them, however many agents share the map of buckets. Sends that no
  limit applied to (no row, a store error, a rate of 0) are let through and never recorded, so the
  limit does not bound all sends: n + 1 of them can pass under a limit of 1 (`OneIsNotTheLimit`). The
  bound on all sends is exact: with at most f unlimited ones per window they stay within L + k if and
  only if f <= k (`BudgetIsExact`). Past the ceiling of the map, agents without a bucket are never
  limited.
- **The limit cache.** Every value used is what the store held less than the cache TTL plus one
  fetch-to-commit delay earlier, and that delay cannot be left out. Once full, which it can become, the cache is frozen.
- **The codec.** A split succeeds exactly on input that decomposes, uniquely; it loses bytes
  exactly on a stray CR; and it inverts `Serialize`'s framing exactly when the header is non-empty and
  holds no bare delimiter line. With LF or CRLF line ends, alike or mixed, header and body come back exact.
- **Governance.** Promotions, rollbacks, quarantines and retirements are accepted exactly when structure
  and schema are fine and sender, target and statuses stand in the relation the table allows.
- **Policies.** What `Evaluate` may return is the action of a rule that speaks for the pair, by its source
  and target or, only if bidirectional, with those reversed, and that no such rule outranks.
- **Lifecycle, builder, policies, logger.** See the table.

## Where the code and its documentation differ

- `internal/gateway/pending.go:97-100` says an unclaimed entry is evicted at an age in
  [ttl, 1.5 ttl). The code evicts strictly older entries, so the interval is (ttl, ttl + ttl/2].
- The comment at `internal/gateway/limiter.go:63-66` says that past the ceiling new agents are
  fetched on every call. A full cache never changes again, not even for the agents it holds, so from
  ttl after it filled up every agent is fetched on every call (`LimitCache.FullCacheGoesDead`).
- `internal/gateway/tools.go:391-392` guards a received body because "the transport does not enforce
  this"; `pkg/transport/redis/redis.go:199` does enforce a limit on the whole document, so the guard
  never fires on what the read loop delivers.
- A body at the cap of `internal/gateway/tools.go:138` and `:318` is accepted and published, and then
  discarded by every reader, because the reader's cap is on the whole document.
- `docHasField` looks for `ttl`, `signature` and `signing_key_id` in Extra only.

## Assumptions

- The YAML codec is a parameter; theorems about the wire assume, for the header at hand, that it
  round-trips, is not empty and emits no bare delimiter line; marshalling does not fail. JSON Schema checks are an
  uninterpreted function from a document to errors.
- Redis gives every entry of a stream its own non-empty ID; a generated document ID is not empty.
- One gateway process owns the consumer group: no other process reads or acknowledges for it.
- The default validator is a parameter that may be absent, as when its embedded schemas do not compile.
- Clocks never go back. `GetEffectiveLimits` of the store is one atomic read. Pending limits are fixed in
  the protocol runs.
- Names that the source compares with constants (message types, header fields) are constructors,
  with one constructor for every other string.

## Model

| member | source | states |
|---|---|---|
| DeliveryTheorems.EveryReadEntryIsInExactlyOnePlace | pkg/transport/redis/redis.go:134-186 | In every state of every interleaved run: an entry was read iff it is in one place or settled, never two places, never both; batches hold no duplicates; unacknowledged = read minus acknowledged; every fate fits its entry: only malformed entries are discarded, only well-formed task entries evicted or overwritten (then two share an ID), only well-formed entries failed or acknowledged, and Redis was told of each acknowledged one. |
| DeliveryTheorems.FatesAreFinal | internal/gateway/tools.go:145-171 | An entry that was evicted, discarded, abandoned, failed, overwritten or acknowledged stays so in every later state. |
| DeliveryTheorems.DistinctIdsLoseNothing | internal/gateway/tools.go:100-101 | With IDs distinct among the well-formed task entries that were read (messages and malformed entries may share them), no pending entry is ever overwritten. |
| DeliveryLimits.OverwrittenExactlyWhen | internal/gateway/tools.go:100-101 | Some run overwrites pending entry x by y iff both are well-formed task entries, of two agents, with one ID. |
| DeliveryLimits.SharedIdsLoseAnEntry | internal/gateway/tools.go:100-101 | For any two such entries there is a run in which the second replaces the first in the pending map. |
| DeliveryTheorems.AtMostOneOutcomePerEntry | internal/gateway/tools.go:145-171 | However complete, fail, eviction and repeated calls interleave, no two published outcomes are for the same entry, and each has exec_id and in_reply_to equal to its entry's ID. |
| DeliveryTheorems.OutcomesAreOnTheirStream | internal/gateway/tools.go:150-164 | In every run what is published for an entry is a task.result with step "result" on agent.events.completed, or a task.fail with step "fail" on agent.events.failed. |
| DeliveryTheorems.DistinctIdsDistinctOutcomes | internal/gateway/tools.go:213-239 | With IDs distinct among well-formed task entries no two outcome documents carry the same exec_id. |
| DeliveryTheorems.AcksFollowPublishes | internal/gateway/tools.go:163-171 | Every acknowledgement of a well-formed task entry comes after the publication of an outcome that names it. |
| DeliveryTheorems.OutcomesAlwaysBuild | internal/gateway/tools.go:145-161 | With a gateway ID and a validator, in every reachable state every entry taken by complete or fail has its document: the build-failure branch is never enabled. |
| DeliveryTheorems.GatewayBuildsAll | internal/gateway/tools.go:150-158 | Every outcome with a document ID and a task ID builds iff the gateway ID is non-empty and the validator is there. |
| DeliveryTheorems.UnreadableNeverReachesAHandler | pkg/transport/redis/redis.go:166-175 | An entry parseMsg rejects, for whatever reason, is in no state of any run in a channel, held, pending or with an outcome handler; settled, it is discarded or abandoned. |
| DeliveryTheorems.OversizeNeverReachesAHandler | pkg/transport/redis/redis.go:192-202 | In particular any payload of more than 65536 bytes, whatever it holds. |
| DeliveryInv.RunKeepsInv | pkg/transport/redis/redis.go:134-186 | The protocol invariant (streams, places, acknowledgements, kinds of entries, order of events) holds in every state of every run. |
| DeliveryOrder.NothingIsSkipped | pkg/transport/redis/redis.go:100-153 | From any state of a run in which a group exists to any later one, its cursor never goes back and every entry it passed was read. |
| DeliveryOrder.GroupsStartAtTheEnd | pkg/transport/redis/redis.go:101-106 | A group created during a run starts at the end of its log. |
| DeliveryOrder.EntriesAreHandedOnInOrder | pkg/transport/redis/redis.go:165-184 | In every state of every run each loop's batch is a stretch of its log, and what it handed on before stands before it. |
| DeliveryOrder.BatchesAreSmall | pkg/transport/redis/redis.go:146-152 | A loop never has more than ten entries on hand. |
| DeliveryOrder.StrandedForever | internal/gateway/tools.go:90-116 | An entry that reaches the channel of a call that has returned stays there in every later state, unacknowledged, never pending. |
| DeliveryOrder.TimeoutsStrandEntries | internal/gateway/tools.go:84-92 | For every well-formed task entry some run strands it so, because the loop is not tied to the read timeout. |
| PendingCap.PendingStaysWithinLimit | internal/gateway/tools.go:80-101 | For a limit L > 0 and at most k calls of the agent on their way from the count on, pending entries plus those calls never exceed L + k. |
| PendingCap.SequentialUseExceedsByAtMostOne | internal/gateway/limiter.go:199-209 | One call at a time: at most L + 1 entries pending. |
| DeliveryLimits.CapIsReached | internal/gateway/tools.go:80-101 | For every L > 0 and k >= 1 a run with never more than k calls on their way ends with exactly L + k entries pending. |
| DeliveryLimits.CapIsExact | internal/gateway/tools.go:80-101 | Every run with at most m calls on their way keeps the pending entries within L + k iff m <= k. |
| DeliveryLimits.StaleCountsPassTheCheck | internal/gateway/tools.go:80-82 | For every limit and every n, a run with never more than one call past its check ends with n entries pending. |
| Handlers.PassGates | internal/gateway/tools.go:120-136 | A call passes only with a valid agent ID, a key bound to exactly that agent (or no authenticator) and a winning allow policy; each refusal has its cause, and no earlier gate failed. |
| Handlers.AuthorisedExactlyWhen | internal/gateway/gateway.go:58-92 | A call is let past exactly when the agent ID is valid, the presented key is bound to that agent (or nothing authenticates) and some allowed decision permits it; an agent named without a key gets no default key. |
| Handlers.Gateway.FinishTask | internal/gateway/tools.go:119-185 | complete_task and fail_task: an early refusal takes no protocol step and names the first gate that failed; otherwise the protocol takes exactly Take, Publish, Ack as far as each succeeds, and the answer says which failed. A call that got as far as the limiter has spent a send of the agent, even if the entry turns out to be unknown; only a complete success is logged. |
| Handlers.Gateway.Conclude | internal/gateway/tools.go:213-239 | From LoadAndDelete on, the effects on the pending map and on Redis are a path of the protocol, for every combination of failures. |
| Handlers.Gateway.Settle | internal/gateway/tools.go:145-184 | The whole new state: the entry is gone, what Redis was told and on which stream, the cache entry the stream-length lookup may refresh, and a log entry on complete success only. |
| Handlers.ReportsItsOutcome | internal/gateway/tools.go:150-171 | For every combination of replies: Redis is told the report on the stream of that outcome, with type, step, IDs and body spelled out, then, if the publish is confirmed, the acknowledgement of that entry, and nothing else. |
| Handlers.ToldOnItsStream | internal/gateway/tools.go:163-166 | At the end of any run, every report Redis holds of the gateway is a task.result on agent.events.completed or a task.fail on agent.events.failed. |
| HandlerSteps.ToldIsHistory | internal/gateway/tools.go:164-171 | What Redis was told is the protocol's history, event for event, streams and topics included. |
| Handlers.TakesOnlyWhenAllowed | internal/gateway/tools.go:119-148 | An entry is taken only for an authorised call with a body of at most 65536 bytes that the limiter lets through and whose entry is pending; success is said only if Redis confirmed report and acknowledgement. |
| Handlers.LoggedIsPublished | internal/gateway/tools.go:173-183 | The log entry of a success names the published document's ID, thread, type, recipient and body, and the tool. |
| Handlers.LoggedIsDelivered | internal/gateway/tools.go:102-112 | The log entry of a delivery names its document, from its sender to the agent that fetched it. |
| Handlers.Gateway.BeginGetTask | internal/gateway/tools.go:60-82 | get_task up to its subscription takes the protocol through Count and Check and goes on exactly when the protocol lets it pass. |
| Handlers.Gateway.ReadEntry | pkg/transport/redis/redis.go:165-184 | The read loop on one entry: delivered to the channel as parseMsg reads it, or acknowledged and discarded, as the protocol's Push or Discard. |
| HandlerSteps.LoopShown | pkg/transport/redis/redis.go:134-186 | No step of a read loop touches the pending map; Redis is told of a discard and of nothing else. |
| HandlerSteps.HandlerShown | internal/gateway/tools.go:355-414 | No step of get_task or receive_message but Store touches the pending map; Redis is told of a message acknowledged and of nothing else. |
| HandlerSteps.QuietPathShown | internal/gateway/tools.go:80-101 | Over any path of such steps, as between the check of get_task and its Store, the memory keeps showing the protocol. |
| Handlers.Gateway.AwaitTask | internal/gateway/tools.go:93-116 | A delivery is stored under its own entry ID and topic, as the protocol's Store, logged, and returned with the body its payload parses to; a timeout stores and logs nothing. |
| Handlers.Gateway.AwaitMessage | internal/gateway/tools.go:387-413 | A message is acknowledged, as the protocol's AckMessage, then logged and returned; if the acknowledgement fails nothing is logged; the guard on the body size never fires. |
| Handlers.Gateway.Sweep | internal/gateway/pending.go:119-129 | A sweep is a path of the protocol: one eviction for each entry older than ttl, and no other. |
| HandlerSteps.SweepShown | internal/gateway/pending.go:119-129 | From any state the memory shows, those evictions lead to the state the swept map shows. |
| HandlerSteps.PathExtendsRun | internal/gateway/tools.go:145-171 | What a handler does from a state of a run ends in a state of a longer run, so every theorem about runs holds after it. |
| Handlers.OnlyRedisFailsAnOutcome | internal/gateway/tools.go:150-171 | In any state of any run of a gateway with an ID and a validator, complete or fail on a pending entry answers with success iff both Redis calls succeed. |
| Handlers.FinishedInRun | internal/gateway/tools.go:119-185 | What complete or fail did at the end of any run of a real gateway extends the run; having taken the entry, it fails with Publish or Ack exactly as Redis did. |
| HandlerSteps.CountShown | internal/gateway/pending.go:84-95 | The IDs counted for an agent are exactly the entries the protocol holds pending for it: task topics are told apart by agent and from message topics. |
| HandlerSteps.StoreShown | internal/gateway/pending.go:40-44 | Storing a delivery under its entry ID is the protocol's Store, whatever was pending under that ID before. |
| PendingMap.Pending.LoadAndDelete | internal/gateway/pending.go:69-80 | Returns the entry and removes it in one step. |
| PendingMap.TwoClaims | internal/gateway/pending.go:65-80 | Of two claims by LoadAndDelete only the first gets the entry. |
| PendingMap.TwoRacingClaims | internal/gateway/pending.go:48-63 | Of two interleaved claims by Load and then Delete both get it, which is why LoadAndDelete exists. |
| PendingMap.Pending.CountByAgent | internal/gateway/pending.go:84-95 | The loop, in whatever order, returns the cardinality of the agent's entries. |
| PendingMap.Pending.Evict | internal/gateway/pending.go:119-129 | Exactly the entries strictly older than ttl are gone, the rest unchanged. |
| PendingMap.Cleanup.PresentUnlessSwept | internal/gateway/pending.go:101-117 | An unclaimed entry is present iff no tick later than its age limit has fired, and then unchanged. |
| PendingMap.Cleanup.LifetimeIsBounded | internal/gateway/pending.go:97-129 | With ticks that fire when due, at every event of any kind an unclaimed entry is there up to age ttl and gone past ttl + ttl/2. |
| PendingMap.Cleanup.UnclaimedEntriesAreEvicted | internal/gateway/pending.go:97-129 | Every entry left unclaimed longer than ttl + ttl/2 was removed by one sweep, at an age in (ttl, ttl + ttl/2]. |
| PendingMap.Cleanup.ClaimsGetFreshEntries | internal/gateway/pending.go:69-80 | No claim gets an entry older than ttl + ttl/2, and every claim up to age ttl gets it. |
| PendingMap.Cleanup.EvictionAge | internal/gateway/pending.go:97-129 | The sweep that removes an unclaimed entry does so at an age in (ttl, ttl + ttl/2]. |
| PendingMap.Cleanup.LifetimeAtTick | internal/gateway/pending.go:119-129 | A tick keeps an unclaimed entry up to age ttl and leaves none past it. |
| PendingMap.EndpointsAreReached | internal/gateway/pending.go:97-100 | For every even ttl an entry can be present at age exactly ttl and be removed at age exactly 1.5 ttl. |
| RateBucket.Bucket.Compact | internal/gateway/limiter.go:101-108 | In place on the shared array, the write index never past the read index: what is left is exactly the timestamps after the cutoff, in order. |
| RateBucket.Bucket.TryRecord | internal/gateway/limiter.go:98-114 | The array-backed bucket computes the pruning step of the abstract limiter: contents and verdict. |
| RateBucket.PrunedIsRecentHistory | internal/gateway/limiter.go:101-113 | After every run under a monotone clock the bucket is the full history cut at the last cutoff. |
| RateBucket.BucketRefinesFullHistory | internal/gateway/limiter.go:101-113 | tryRecord accepts exactly when a limiter that keeps every timestamp would. |
| RateBucket.NewerKeepsExactly | internal/gateway/limiter.go:101-107 | Pruning keeps every time after the cutoff, as often as it was there, and no other. |
| RateBucket.RefusedExactlyWhenFull | internal/gateway/limiter.go:98-114 | A send is refused iff a positive limit of sends was recorded in the 60 seconds before the check, counted over the whole history. |
| RateBucket.WindowNeverExceedsLimit | internal/gateway/limiter.go:98-114 | For any run under positive or changing limits, the sends in any 60-second window of the whole history number at most the limit in force at the last of them. |
| RateBucket.HistoryWithinLimit | internal/gateway/limiter.go:109-113 | Each recorded send had, when recorded, at most its limit in the minute before it, itself included. |
| Limiter.Enforcer.EffectiveLimits | internal/gateway/limiter.go:136-155 | A fresh cache entry is returned and nothing changes; otherwise the store's answer is returned and committed, unless the cache is full. |
| LimitCache.HitIsOneStep | internal/gateway/limiter.go:136-144 | The method on a hit leaves the cache and the value of the concurrent protocol's Begin. |
| LimitCache.MissIsFourSteps | internal/gateway/limiter.go:145-154 | On a miss, those of its Begin, Fetch, Advance and Commit. |
| Limiter.Enforcer.BucketFor | internal/gateway/limiter.go:157-171 | The agent's own bucket, a new one kept in the map, or a throwaway one at the ceiling; it shares nothing with another agent's bucket and no record changes. |
| Limiter.Enforcer.CheckSend | internal/gateway/limiter.go:176-192 | Verdict and the records of all agents after it, from the limits used; a body refusal records nothing, and no other agent's record changes although buckets live behind pointers. |
| Limiter.VerdictExactlyWhen | internal/gateway/limiter.go:176-192 | Refused as too large iff over a positive body cap; refused for rate iff not too large and a positive rate of sends lies on record in the 60 seconds before. |
| Limiter.RecordsExactlyWhen | internal/gateway/limiter.go:157-192 | A send without a rate, too large, or without a bucket at the ceiling records nothing; any other is recorded iff let through; other agents' records never change. |
| Limiter.OwnRowFirst | internal/admin/sqlite.go:611-636 | An agent's own row decides alone, the default row serves the others, and without both there are no limits. |
| SendHistory.NoMinuteExceedsTheLimit | internal/gateway/limiter.go:157-192 | In every run of sends by many agents, for an agent with a stored bucket the rate-limited sends let through in any 60-second window number at most the limit in force at the last of them. |
| SendHistory.AllSendsInAMinute | internal/gateway/limiter.go:176-192 | All its sends let through in the window, limited or not, number at most that limit plus the sends in the window that no limit applied to. |
| SendHistory.OneIsNotTheLimit | internal/gateway/limiter.go:146-180 | For every n some run lets n + 1 sends pass in one window although the limit at the last of them is 1. |
| SendHistory.BudgetIsExact | internal/gateway/limiter.go:176-192 | Runs with at most f unlimited sends of the agent per window stay within L + k in every window whose last limited send was under L iff f <= k. |
| SendHistory.LimitedSendsAreHistory | internal/gateway/limiter.go:157-192 | The rate-limited sends let through for such an agent are what a full-history limiter for it alone would record. |
| SendHistory.CeilingIsForever | internal/gateway/limiter.go:163-167 | An agent that finds the map full without a bucket never gets one, and every send of it that reaches a bucket is let through. |
| Limiter.Enforcer.CheckPendingTasks | internal/gateway/limiter.go:199-209 | Refuses exactly a count above a positive limit. |
| Limiter.RefusedExactlyAbove | internal/gateway/limiter.go:199-209 | A count is refused iff it is above a positive limit; the limit itself still passes. |
| LimitCache.UsesAreRecentTruth | internal/gateway/limiter.go:136-155 | With check, fetch and commit interleaved, every value used is what the store held (an error counting as none) less than ttl plus that fetch's own delay earlier, even with overlapping fetches and a full cache. |
| LimitCache.ChangesTakeEffect | internal/gateway/limiter.go:136-155 | Once the current rows have stood for ttl plus the longest delay, every use not stemming from a store error returns them. |
| LimitCache.DelayAddsToTheBound | internal/gateway/limiter.go:145-153 | For every ttl and delay a run still uses the old rows ttl + delay - 1 after they were replaced. |
| LimitCache.CacheFillsUp | internal/gateway/limiter.go:148-153 | For every n up to 10 000 some run fills the cache with n entries. |
| LimitCache.FullCacheIsFrozen | internal/gateway/limiter.go:148-153 | In every run, once the cache holds 10 000 entries it never changes again. |
| LimitCache.FullCacheGoesDead | internal/gateway/limiter.go:136-155 | From ttl after it filled up, no lookup of any agent ever hits it. |
| FrontMatter.FindClosingDelimiter | pkg/document/parser.go:28-43 | Despite jumping four bytes after a miss, the least index of "\n---" followed by newline, CR or end, and -1 iff there is none. |
| FrontMatter.SplitFrontMatter | pkg/document/parser.go:50-77 | Computes the reference split. |
| FrontMatter.SplitIsUniqueDecomposition | pkg/document/parser.go:50-77 | A split succeeds iff the input is an opening line, a header and a closing line; the decomposition is unique, the result is its header and body, and bytes are lost iff the closing line has a CR followed by something other than a newline. |
| FrontMatter.SplitInvertsFrame | pkg/document/parser.go:126-150 | For every body, splitting the framed document returns header and body iff the header is non-empty and holds no bare delimiter line after its first line. |
| FrontMatter.SplitInvertsLineEnds | pkg/document/parser.go:50-77 | With LF or CRLF after the opening and the closing dashes, alike or mixed, splitting returns exactly header and body, for every body. |
| FrontMatter.NoNewlineNoBody | pkg/document/parser.go:68-74 | A closing line without a newline ends a document without a body. |
| FrontMatter.DelimiterExactlyWhen | pkg/document/parser.go:20-22 | A delimiter line is three dashes and then carriage returns only. |
| FrontMatter.FrameIsFramed | pkg/document/parser.go:126-150 | The frame is the LF document of the header, which gains a newline only if it has none. |
| FrontMatter.WriteFrame | pkg/document/parser.go:126-150 | The buffer writes give the frame the inverse is proved for. |
| Wire.Parse | pkg/document/parser.go:83-103 | Parsing through the loops of the source equals parsing through the reference split, size test first. |
| Wire.ParseMsg | pkg/transport/redis/redis.go:192-209 | An entry is delivered iff its doc field is a string of at most 65536 bytes that decomposes with a header the codec accepts; it then carries that header and the body of that decomposition, whichever it is. |
| Wire.PublishedIsReadBackExactlyWhenItFits | pkg/transport/redis/redis.go:75-92 | A published document is read back with the same envelope, Extra and body iff its serialised length is at most 65536 bytes; otherwise it is discarded. |
| Wire.BodyAtTheCapIsDiscarded | internal/gateway/tools.go:138-140 | A body the handlers accept at their cap never survives the trip. |
| Wire.ParsedDocumentsKeepTheirBytes | pkg/document/parser.go:83-103 | Whatever parses, its raw bytes are the payload, at least 8 longer than its body, and decompose into its header and body. |
| Documents.DuplicateKeysComeFromShadowing | pkg/document/types.go:72-95 | A header key is emitted twice iff Extra shadows an emitted envelope name. |
| Documents.ReservedExactlyWhenEmitted | pkg/document/types.go:51-95 | The reserved names are exactly those some envelope writes. |
| Documents.EmitsExactlyTheSetFields | pkg/document/types.go:51-68 | Besides type and version a name is written iff emptying its field changes the envelope. |
| Builder.DocBuilder.Field | pkg/document/builder.go:104-115 | A reserved key leaves the first offender as the sticky error and stores nothing; any other key is stored. |
| Builder.DocBuilder.Build | pkg/document/builder.go:127-167 | The loop copies the extra map completely; the result is the assembled document iff there is no sticky error, the default validator is there and it accepts. |
| Builder.BuildOfChain | pkg/document/builder.go:104-167 | For every chain of calls Build succeeds iff no Field call used a reserved key, the validator is there and the document of last values validates, and returns that document; a reserved-key failure names the first offender. |
| Builder.BuildByChain | pkg/document/builder.go:31-167 | The same of any chain of calls made on the builder object itself. |
| Builder.LastCallIsLast | pkg/document/builder.go:39-121 | "Last value" means a call that sets the slot with no later call that does. |
| Builder.FirstReservedIsFirst | pkg/document/builder.go:104-112 | The key reported is that of a reserved Field call before which there is none. |
| Builder.BuiltDocumentsAreSound | pkg/document/builder.go:127-167 | Every built document has Extra disjoint from the envelope keys, no header key twice, a registered type and every field the registry requires. |
| Builder.BuildOutcome | internal/gateway/tools.go:150-158 | The call chain of the handlers, run on the builder object, gives the outcome of that chain. |
| Builder.OutcomeKinds | internal/gateway/tools.go:150-226 | Completion is a task.result with step "result", failure a task.fail with step "fail". |
| Builder.AssembledIsUnsignedV1 | pkg/document/builder.go:127-150 | Whatever was set, a document is of version v1, unsigned, and of the type the builder was made for. |
| Builder.OutcomeBuildsExactlyWhen | pkg/protocol/registry.go:80-87 | A result or failure document builds iff the validator is there and document ID, gateway ID and task ID are non-empty, whatever the schemas, and then carries that task ID as exec_id and in_reply_to. |
| Validator.ValidateStructural | pkg/document/validator.go:98-136 | The missing fields in registry order, after the type and version checks. |
| Validator.Missing | pkg/document/validator.go:128-136 | No error iff every required field is present. |
| Validator.Validate | pkg/document/validator.go:396-404 | Structural errors alone, else schema errors then semantic errors. |
| Validator.AcceptedExactlyWhen | pkg/document/validator.go:396-404 | Validate accepts iff the type is registered, version and all required fields are present, and schema and semantic layers have no complaint. |
| Validator.TransitionAcceptedExactlyWhen | pkg/document/validator.go:333-390 | A promotion or rollback is accepted iff structure and schema are fine, it names a target other than its sender, and its two statuses are a step of the table. |
| Validator.TerminationAcceptedExactlyWhen | pkg/document/validator.go:304-331 | A quarantine or retirement is accepted iff structure and schema are fine, it does not name its sender, and a status it names may be left for the quarantined, respectively retired, one. |
| Validator.OthersAcceptedExactlyWhen | pkg/document/validator.go:282-297 | Every other document is accepted iff structure and schema are fine. |
| Validator.StructuralReports | pkg/document/validator.go:98-136 | Which structural errors are reported, each exactly when its cause is there. |
| Validator.MissingInOrder | pkg/document/validator.go:125-135 | Missing fields are reported in the order of the registry's list, each as often as it is listed. |
| Validator.TransitionReports | pkg/document/validator.go:333-390 | Which semantic errors a promotion or rollback gets, each exactly when its cause is there. |
| Validator.TerminationReports | pkg/document/validator.go:304-331 | The same for a quarantine or retirement. |
| Validator.LayersReport | pkg/document/validator.go:396-404 | Structural errors hide the other layers; without them every error of both is reported. |
| Validator.FieldIsThereWhenWritten | pkg/document/validator.go:139-177 | A required envelope field counts as present iff it is written; any other iff Extra holds something but "" and null. |
| Protocol.RegistryByFamily | pkg/protocol/registry.go:17-135 | A type is registered unless its name is unknown, and requires exactly what its family needs. |
| Protocol.SchemasExactlyFor | pkg/protocol/registry.go:17-135 | Messages, tasks and negotiations have no schema, every other registered type has one. |
| Validator.AcceptedTransition | pkg/document/validator.go:333-390 | An accepted promotion or rollback is a step of the table, with a sender and a target that differ. |
| Validator.ChainIsLegal | pkg/document/validator.go:333-404 | Every chained sequence of accepted promotions and rollbacks traces a legal lifecycle run, sender never the target. |
| Validator.ChainIntoService | pkg/document/validator.go:333-404 | Such a chain from proposed into service passes the whole ladder. |
| Lifecycle.ActiveRunsTookTheLadder | pkg/document/lifecycle.go:31-54 | A legal run from proposed that enters service begins proposed, approved_for_sandbox, sandbox, candidate, active, and none of the first four ever recurs. |
| Lifecycle.ServiceIsNotReentered | pkg/document/lifecycle.go:31-54 | Once a run leaves active/inactive it never returns. |
| Lifecycle.AtMostSixNonFlips | pkg/document/lifecycle.go:31-54 | Besides flips between active and inactive a run from proposed has at most six steps. |
| Lifecycle.SixStepsAreReached | pkg/document/lifecycle.go:31-39 | Six is reached. |
| Lifecycle.AllowedExactlyWhenEnteredFrom | pkg/document/lifecycle.go:31-54 | The table read backwards: from where each state may be entered, reactivation and rollback included. |
| Lifecycle.NamesAreUnique | pkg/document/lifecycle.go:14-26 | Each status string names one state and each state has one status string. |
| Policy.Evaluate | pkg/admin/policy.go:14-27 | The action of a matching policy of maximal priority, or deny when none matches. |
| Policy.MayDecideIsWins | pkg/admin/policy.go:14-42 | Over every sorted permutation the sort may choose, the possible results are exactly the actions of the top-priority matches (deny if none). |
| Policy.DecidedByWhoSpeaks | pkg/admin/policy.go:14-42 | In terms of the fields: the possible results are the actions of rules that speak for the pair and that no such rule outranks, and deny iff none speaks. |
| Policy.OneRuleDecides | pkg/admin/policy.go:30-42 | One rule alone decides exactly for the pair it names, and for the reverse pair only if bidirectional. |
| Policy.OneWayRulesDoNotReverse | pkg/admin/policy.go:36-41 | A list without bidirectional rules that names a pair nowhere denies it, whatever it says of the reverse pair. |
| Policy.DecisionIsUniqueExactlyWhen | pkg/admin/policy.go:14-27 | The result is the same for every sort iff the top-priority matches agree. |
| Policy.OrderDoesNotMatter | pkg/admin/policy.go:14-27 | With agreeing top matches, reordering the input changes no result. |
| Policy.BidirectionalIsSymmetric | pkg/admin/policy.go:30-42 | With only bidirectional policies both directions have the same possible results. |
| Policy.Allowed | internal/gateway/policy.go:61-67 | A store error is passed on; otherwise the answer is whether a winning action is allow. |
| Policy.ListPoliciesFor | internal/gateway/policy.go:71-84 | A store error is passed on; otherwise the loop keeps exactly the policies that name the agent or a wildcard, in order. |
| Policy.ListedExactlyWhenItSpeaks | internal/gateway/policy.go:71-84 | A rule is listed for an agent iff it speaks for some pair the agent is part of. |
| Policy.ListedInOrder | internal/gateway/policy.go:76-83 | The list shown keeps the order and the repetitions of the full one. |
| Policy.ListedPoliciesDecideAlike | internal/gateway/policy.go:71-84 | For every peer the listed policies have the same possible results as the full list, in both directions. |
| MessageLog.Logger.Log | internal/gateway/msglog.go:89-96 | Takes the case of the select the protocol offers in this state, and changes nothing else. |
| MessageLog.Logger.Close | internal/gateway/msglog.go:100-123 | With nothing else running, the entry in flight and the whole buffer are written in order before it returns. |
| MessageLog.AcceptedIsWrittenInFlightBuffered | internal/gateway/msglog.go:89-123 | In every interleaving, accepted = written ++ in flight ++ buffered, in order. |
| MessageLog.OfferedEntriesAreKeptExactlyWhenThereIsRoom | internal/gateway/msglog.go:89-96 | In every run an entry offered to Log is accepted iff there is room in the buffer or a worker parked to take it; otherwise the buffer is full and just that entry is dropped. |
| MessageLog.CloseFlushesEverythingAcceptedBefore | internal/gateway/msglog.go:100-123 | When Close returns, every entry accepted before the call has been passed to write, in order. |

## Left out

- The Redis client, its retries and connection handling: a network call is a step with a reply.
- Approximate MAXLEN trimming of streams: the length cap is looked up before a publish, but logs only grow.
- YAML and JSON Schema libraries: a codec parameter and an uninterpreted check; documents that are nil.
- SQLite, the HTTP enforcers and loggers, admin handlers, sessions, templates, command-line tools: plumbing.
- Cryptography and API key storage: authentication is a function from a key to an agent.
- The regular expression of `IsValidAgentID`: a predicate.
- `send_message` and the producers of tasks: entries appear on a stream by an Append step.
- `get_task` as one method: its two halves are methods (`BeginGetTask`, `AwaitTask`), because the read loop runs between them. Of `receive_message` the second half is a method (`AwaitMessage`), and of the read loop the work on one entry (`ReadEntry`); the rest of both appears as protocol steps.
- The worker's write into the store. The log entries carry the fields the handlers give them.
- MessageLog.Logger.Close: the method runs with nothing else running; every interleaving with Log and the worker is covered by `CloseFlushesEverythingAcceptedBefore` instead.
- Eventual delivery: entries read and then abandoned stay unacknowledged, so only conservation is claimed.
- Ownership: complete and fail do not compare the caller with the entry's topic, so nothing is claimed about it.
- A second call of the logger's Close, which panics in the source.
- `get_my_limits`, `get_my_policies`, heartbeat, `ParseAs`, the specialised builders, `Registered`: simple lookups and wrappers.
- Cleanup: ticks are ideal; a ttl below 2 ns, for which the ticker panics, is outside.
- Locks: a critical section is one step, or one method call.
