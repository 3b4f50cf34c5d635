# Verification model of eve-api-cache

eve-api-cache is a caching proxy for the EVE Online ESI API with a permanent archive.
This project models its stateful protocols in Dafny and proves what they promise over
whole runs: the five Redis keys behind one cached response, request coalescing, the
upstream client with its pacer, breaker, retry loop and pagination, the client rate
limiter, canonical cache keys, and the PostgreSQL archive with its minute buckets,
content-addressed blobs, manifests and market-order deltas.

`dafny verify dfyconfig.toml` checks the whole project.

## How the modules fit together

| source | modules |
|---|---|
| app/coalesce.py | `Coalesce` (all interleavings, cancellation included), `LeaderEffects` (dispatches on top of it) |
| app/esi_client.py | `Pacer`, `Breaker`, `Retry`, `Fetch`, with `Esi` for responses |
| app/rate_limit.py | `RateLimit` |
| app/allowlist.py | `JsonText`, `Canonical`, `CacheKeys` |
| app/cache.py | `Cache` |
| app/proxy.py | `Dispatch` (one request), `DispatchRuns` (all interleavings), `Refinement` (their requests perform `Dispatch`), `Outcomes` (what every request is told and leaves behind), `Freshness` (transparency), `Lifetimes` (ages and expiry), `Exclusion` (positive against negative entries), `Degradation` (fallbacks), `Scenarios` and `Interleaving` (runs that go wrong) |
| app/archive.py, app/db.py | `Tables`, `Deltas`, `Archive` (the writes), `ArchiveInv`, `ArchiveRuns`, `ArchiveHistory`, `ArchiveLatest`, `ArchiveRecords`, `ArchiveCommits`, `ArchiveFallback` (runs), `ArchiveExamples`, `ManifestRace` (concurrent writers) |
| app/collector.py | `Collector`, `Discovery`, `Forgetting` |

Code that changes state in place is a class whose methods are proved against a
specification (`RateLimit.InMemoryRateLimiter`, `Pacer.TokenBucket`,
`Breaker.CircuitBreaker`, `Cache.CacheClient`, `Deltas.Session`); what the source
promises is then proved about that specification, for single steps and for runs.

What is taken as given, as a parameter or a stated hypothesis:

- Redis: a pipeline is one atomic step, an entry is live strictly before its expiry, and
  a SET whose expiry is not positive is refused while the other commands take effect.
- PostgreSQL: the uniqueness constraints, ON CONFLICT, READ COMMITTED, rollback.
- Clocks do not go back, and a sleep lasts at least as long as it was asked to.
- Compression round trips; SHA-256 of contents, orders and idempotency keys is injective
  (`Tables.Faithful`, which `Tables.FaithfulIsPossible` shows to be satisfiable);
  `json.loads` reads back what `json.dumps` wrote. For cache keys no injectivity is
  assumed: a collision of the truncated hash is the stated alternative.
- Upstream is a history of what it held for each key at each moment, and answers a request
  at one moment between its sending and the arrival of the answer. It answers 304 only
  to a matching ETag (sections 13.1.2 and 15.4.5 of RFC 9110) and never uses one ETag for
  two bodies of one resource.
- A raw body does not start with the four magic bytes of a compressed value.

## Where the code does less than its documentation says, or than one would expect

- The repository's README.md, line 45, promises one upstream call however many callers hit an uncached key.
  The key is popped before the leader writes Redis, so a caller that looked earlier can
  fetch again (`LeaderEffects.TwoFetchesForOneMiss`). What holds is one execution at a
  time (`Coalesce.AtMostOneExecution`), and exactly when a call leads is
  `Coalesce.LeadsIffNobodyOwns`.
- A leader cancelled inside its coroutine leaves its future unresolved for good; those
  futures are exactly the orphaned ones (`Coalesce.OrphanedIffLeaderCancelled`, and a run:
  `Coalesce.CancelledLeaderStrandsWaiter`).
- The prior TTL survives a 304 without Cache-Control only while the TTL entry is still
  live when it is read, after the fetch (`Lifetimes.RestoreKeepsTtl`, and a run:
  `Scenarios.TtlFallsBack`).
- A 304 with max-age=0 makes a restoring leader fail (`Lifetimes.RaisesIffZeroMaxAge`, and
  a run: `Scenarios.ZeroMaxAgeRaises`).
- A collector store that overlaps a dispatch of the same key can pair a body with a
  foreign ETag; it does exactly when it changes the stored body
  (`Interleaving.OverlappedRestore`, and a run: `Interleaving.OverlapBreaksTransparency`).
- A success deletes the negative entry of its key (app/cache.py, lines 95-97), but a 4xx
  does not look at the body entry again: both are live together after a 4xx answered to a
  request that missed before somebody else stored a body, and only then
  (`Exclusion.ExclusiveIffNeverOverwritten`, and a run: `Scenarios.BothLive`).
- A waiter shares an answer that upstream may have given before the waiter came
  (`Freshness.Transparency`, and a run: `Scenarios.LateWaiterGetsOlder`).
- `get_latest_payload` is documented to return the most recent payload; it does so unless
  content went back within one minute (`ArchiveLatest.ReadsLatestIffNotOvertaken`, and
  three writes: `ArchiveExamples.ReadsOvertaken`).
- A snapshot with one order id under two contents keeps the first of them in its deltas
  (`Deltas.RecoversAllIffUnambiguous`, `ArchiveExamples.SecondContentLost`), and two equal
  orders in one batch make the write fail as a whole
  (`Deltas.Session.WriteMarketOrderDeltas`, `ArchiveExamples.EqualOrdersFail`).
- Discovery is documented to return every type ever archived for the region. It does so
  for the types of archived orders and no others (`Forgetting.FoundForGoodIff`, and three
  snapshots: `ArchiveExamples.TypeForgotten`); without deltas or Parquet it returns those
  of the latest payload only (`Forgetting.WithoutDeltasOnlyLatest`).
- The header of app/archive.py keys events by datasource and path; the code adds the
  query hash, and so does the model.

## Model

| member | source | states |
|---|---|---|
| Coalesce.AtMostOneExecution | app/coalesce.py:26-47 | in every interleaving of any number of calls, with cancellations anywhere, at most one call per key is between registering its future and popping it |
| Coalesce.LeadsIffNobodyOwns | app/coalesce.py:26-33 | a call runs its own coroutine exactly when no other call of its key is between registering and popping; otherwise it joins that very call |
| Coalesce.PopRemovesOwnFuture | app/coalesce.py:45-47 | the pop of a leader removes the entry that maps to itself and leaves every other entry and every future as it was |
| Coalesce.WaiterSharesLeaderOutcome | app/coalesce.py:35-44 | a served waiter returns exactly the result or exception its leader finished with, a different call of the same key, which finishes with nothing else in the whole run |
| Coalesce.ResolvedForGood | app/coalesce.py:40-43 | a resolved future keeps its outcome in every continuation |
| Coalesce.OrphanedIffLeaderCancelled | app/coalesce.py:38-44 | an unresolved future has its leader still in the coroutine unless, and only unless, that leader was cancelled there: only Exception is caught |
| Coalesce.OrphanNeverServed | app/coalesce.py:35-47 | whoever waits for a cancelled leader is never served in any continuation; it can only be cancelled itself |
| Coalesce.CancelledLeaderStrandsWaiter | app/coalesce.py:35-47 | a run with such a cancellation: the key is popped, the lock is free, and a waiter waits on a future that stays unresolved |
| Coalesce.NoDeadlock | app/coalesce.py:26-47 | when nothing but arrivals and cancellations can move, the lock is free, nothing is in flight, and every call has finished or waits for a cancelled leader |
| Coalesce.StepKeepsInv | app/coalesce.py:26-47 | every step keeps: the lock is held by who stands in a critical section, in-flight keys are exactly the owned ones, futures hold what leaders produced, waiters follow leaders of their key |
| LeaderEffects.WritesAtMostOncePerExecution | app/proxy.py:151-211 | over all interleavings of dispatches, each execution of the fetch or of the refetch is stored at most once and archived at most once; only answers 200 and 304 are stored, only 200 archived, each by the leader of that execution |
| LeaderEffects.SuccessIsStored | app/proxy.py:187-211 | once all dispatches have replied, every execution whose leader got a 200 has been stored and archived, unless a write raised |
| LeaderEffects.UnmodifiedIsStored | app/proxy.py:155-174 | after a 304 with the stale copy there, nobody refetches and the execution of the leader is stored by the time all have replied, unless that write raised |
| LeaderEffects.UnmodifiedIsRefetched | app/proxy.py:155-184 | after a 304 without it, leader and waiters alike call again under the refetch key, and that 304 is never stored |
| LeaderEffects.StepKeepsWriteInv | app/proxy.py:166-211 | no step stores an execution already stored or archives one already archived, a refetch led by a first-round waiter included |
| LeaderEffects.TwoFetchesForOneMiss | app/coalesce.py:45-47 | the documented single call per miss does not hold: a run in which a second execution for one key is running while the first has succeeded and is not stored yet |
| Pacer.PacerBound | app/esi_client.py:381-399 | in any interval [s, t] at most max(1, rate) + rate * (t - s) requests are released by any log the bucket can produce |
| Pacer.TokenBucket.Pace | app/esi_client.py:381-399 | with a whole token there a call is released at once and takes exactly that token; without one it is released, but for the lag of the sleep, at the first moment that has one, and the bucket is left empty; rate 0 or less changes nothing |
| Pacer.TokenBucket.NeverExceeds | app/esi_client.py:381-399 | the bound holds of the bucket after whatever calls were made so far |
| Pacer.SpentSince | app/esi_client.py:386-399 | what is left after a release, and what was used since s, a token per release and what sleeps forfeited, came out of one burst and the gain since s |
| Pacer.DelayedIffExhausted | app/esi_client.py:388-399 | a release is delayed exactly if, since some moment, the earlier ones, with what their sleeps forfeited, had used up the burst plus the gain since then |
| Pacer.ColdBurst | app/esi_client.py:102-105 | a fresh bucket releases as many calls without delay as max(1, rate) has whole tokens, whenever they come |
| Breaker.BeforePeak | app/esi_client.py:343-363 | a moment is before the breaker's deadline exactly when it lies inside the window of some trip ever made |
| Breaker.CircuitBreaker.NoteResponseBudget | app/esi_client.py:330-351 | the deadline never decreases and stays the maximum of trip time plus block length over all trips; exactly a 420, a 429 or a remaining budget at or below the threshold trips; the length is retry-after, else reset, else the configured block, zero counting as absent |
| Breaker.CircuitBreaker.BudgetBlocked | app/esi_client.py:362-363 | blocked exactly inside the window of some trip |
| Retry.RetryBounds | app/esi_client.py:287-326 | at most R + 1 requests; all but the last reply are transport failures or 502, 503 or 504, and so is the last only if the limit is reached, so none follows a 420 or 429; a pause after each but the last, in all at most R ceilings; the closing assertion fails exactly for a negative R |
| Retry.PauseIsAsked | app/esi_client.py:323-326 | the pause after a reply is its Retry-After, else the base delay doubled with every attempt, kept between zero and the maximum delay |
| Retry.PausesMultiply | app/esi_client.py:323-326 | R pauses at the ceiling are R times the maximum delay |
| Retry.RequestWithRetries | app/esi_client.py:287-326 | the loop returns what the retry specification says; each request passes the pacer; every response, as it comes, trips the breaker as its own headers demand, so the trips added are those of replies 0 to used - 1; the block never shrinks |
| Fetch.GatherPages | app/esi_client.py:260-275 | however the requests of different pages interleave, retries included, each page's result is in its own slot and one release is made per request |
| Fetch.FetchAllPages | app/esi_client.py:254-285 | the merge is page 1, then pages 2 to N in page order, or nothing if any page failed; it does not depend on the interleaving; at most (N - 1) * (R + 1) requests |
| Fetch.MergedPages | app/esi_client.py:277-285 | the merged body holds every page whole, at consecutive places in page order, and no more |
| Fetch.PaginationAllOrNothing | app/esi_client.py:208-285 | a paginated GET answers 200 exactly when page 1 is a list and the final reply of every other page is a 2xx list that agrees on X-Pages or gives none; the body is then page 1 and the items of each such reply, one page right after the other in page order; otherwise 500 without items; never with an ETag |
| Fetch.UnpagedAnswers | app/esi_client.py:153-206 | everything but a paginated 200: a transport failure becomes a 503, a 304 keeps the ETag that was sent and says not modified, any other reply is passed on with its own status, body, ETag, max-age and location |
| Fetch.EtagMeansSinglePage | app/esi_client.py:236-252 | an ETag handed on with a GET 200 validates the whole body: there was one page |
| Fetch.FetchOne | app/esi_client.py:107-252 | a fetch is a function of the replies alone; one entered inside any trip's window sends nothing and answers 503; P pages cost at most P * (R + 1) requests |
| Fetch.FetchForDispatch | app/proxy.py:151-184 | one dispatch that leads its fetches sends at most (1 + P) * (R + 1) requests; its result is that of the conditional fetch, or, after a 304 without a stale copy, of a second fetch without an ETag |
| RateLimit.WindowBound | app/rate_limit.py:21-43 | no half-open window of the limiter's length, wherever it ends, holds more than the limit of accepted calls of one key |
| RateLimit.InMemoryRateLimiter.Allow | app/rate_limit.py:21-43 | accepts exactly when fewer than limit of all calls ever accepted for the key lie in the window; answer, remaining allowance and history do not depend on trimming or on the prune interval |
| RateLimit.InMemoryRateLimiter.Refresh | app/rate_limit.py:27-37 | after prune and trim the deque is exactly as long as the window has accepts in the full history |
| RateLimit.InMemoryRateLimiter.Prune | app/rate_limit.py:45-48 | drops exactly the keys that are idle at the cutoff and leaves the others alone |
| RateLimit.InMemoryRateLimiter.NeverExceeds | app/rate_limit.py:21-43 | the window bound holds of every key after whatever calls were made |
| RateLimit.TrimmedCounts | app/rate_limit.py:35-39 | a trimmed deque is as long as the number of accepts in the window |
| RateLimit.PruneKeepsAll | app/rate_limit.py:45-48 | a prune loses no accept that any later window can contain |
| JsonText.ListInjective | app/allowlist.py:209 | the compact JSON text of a list of integers and strings determines the list |
| JsonText.ObjectPrefixFree | app/allowlist.py:212-219 | the JSON text of the parameters can be told apart from whatever is hashed after it |
| JsonText.ItemInjective | app/allowlist.py:202-203 | the sort key and the duplicate marker of an item determine the item |
| JsonText.EscapeReads | app/allowlist.py:209-216 | every escaped character stands for itself: the short escapes, printable ASCII as it is, any other character by its code point in hexadecimal or by its surrogate pair |
| JsonText.DecimalReads | app/allowlist.py:202-209 | an integer is written in decimal digits that stand for it, without a leading zero |
| Canonical.CanonCharacterised | app/allowlist.py:200-209 | two batches have the same canonical list exactly when they have the same set of items; canonicalising twice changes nothing |
| Canonical.NormalizeList | app/allowlist.py:200-207 | sort and skip gives the canonical list: strictly increasing by JSON text, so without duplicates, with exactly the items of the input |
| Canonical.BatchCanonicalisation | app/allowlist.py:184-209 | two accepted bodies normalise to the same text exactly when they hold the same items; normalising is idempotent and its result is accepted again |
| Canonical.OrderedUnique | app/allowlist.py:202-209 | only one strictly increasing list has a given set of items |
| Canonical.AcceptedBodies | app/proxy.py:251-270 | a batch passes exactly if it is a JSON list of at most the allowed number of integers and strings; a list that is too long is reported as such before its items are looked at |
| CacheKeys.EqualKeysSameUpstream | app/allowlist.py:212-225 | two accepted requests with equal cache keys pass identical path, method, params and body upstream, unless two different preimages collide under the truncated hash |
| CacheKeys.SameUpstreamEqualKeys | app/proxy.py:126-132 | accepted requests that send the same thing upstream share their cache key |
| CacheKeys.EqualKeysIffSameUpstream | app/proxy.py:124-132 | so, unless their preimages collide, two accepted requests share a key exactly if they send the same path, method, params and body |
| CacheKeys.ForwardedParams | app/proxy.py:126-132 | parameter by parameter: page never goes upstream; datasource goes exactly if the request asks for another one than tranquility, with that value; every other one goes exactly as the client gave it |
| CacheKeys.ForwardedRest | app/proxy.py:124-149 | path and method go upstream unchanged, and of a batch the text of the same items in strictly increasing order |
| CacheKeys.AcceptedRequests | app/proxy.py:111-125 | let through are exactly a GET without a body and a POST of a well-formed batch, for one of the two datasources |
| CacheKeys.PreimageInjective | app/allowlist.py:212-219 | the hashed bytes decode uniquely into the cleaned parameters and the normalised body |
| CacheKeys.KeyFields | app/allowlist.py:225 | the key string decodes uniquely into datasource, method, path and hash |
| CacheKeys.ArchiveHashEndsKey | app/proxy.py:127-129 | the query hash the archive files under is the hash that ends the cache key, although it is computed from the cleaned parameters |
| CacheKeys.CollectorWarmsClientKey | app/collector.py:44-57 | the collector stores under the key that a client's request for the same data looks up, and fetched it with the arguments that request would forward |
| CacheKeys.RefetchKeyIsNoCacheKey | app/proxy.py:184 | the derived refetch key is never the cache key of any request |
| Cache.EncodeReadsBack | app/cache.py:26-50 | what is stored reads back, compressed or raw, unless a raw body starts with the magic |
| Cache.DecodedForm | app/cache.py:36-50 | a value without the magic reads as it is, a marked one through the codec it names, an unknown mark as it is |
| Cache.CacheClient.Set | app/cache.py:71-97 | one pipeline updates body, stale, ETag and TTL keys and deletes the negative ones; it raises exactly when an expiry is not positive, the other commands still taking effect |
| Cache.CacheClient.SetNegative | app/cache.py:109-118 | sets body and status of a client error together, with one expiry |
| Cache.SetProjects | app/cache.py:80-97 | after a set the stale, ETag and TTL keys are, for all later moments, the projection of that set alone, and so is the body key unless the expiry is zero, when the earlier body stays |
| Cache.SetElsewhere | app/cache.py:80-97 | a set leaves all six entries of every other key unchanged |
| Cache.SetNegativeProjects | app/cache.py:109-131 | after a set_negative both negative keys are, for its span, those of that one write, and the positive ones are not touched |
| Dispatch.Dispatch | app/proxy.py:134-248 | with other tasks running between any two of its round trips, its reply, its archived body and the store it leaves are those of the phase-by-phase specification that whole runs are built from |
| Refinement.RequestIsDispatch | app/proxy.py:134-248 | in every run and interleaving a request that arrives and finishes is a performance of that procedure: resumed with what the request meets in the run, it gives the same reply, hands the same body to the archive and leaves the same store |
| DispatchRuns.StepKeepsCacheInv | app/proxy.py:134-248 | in every interleaving of leaders, waiters and collectors, serialised or not, each key's body is that of one set, its stale copy, ETag and TTL are those of one set, its negative entries those of one set_negative, each for its own span and each resting on an answer upstream gave for that key; what a task goes on with came back while it was there; nobody leads one execution twice |
| DispatchRuns.SerialIgnoresOtherKeys | app/proxy.py:134-248 | what serialisation allows on a key does not depend on any task of another key, wherever that one is |
| Outcomes.EveryTaskAccounted | app/proxy.py:134-248 | in every run and interleaving each finished task is accounted for by the answer it rests on: which reply, status and location it gives, that exactly the leader of a 200 stores and archives it, with its ETag, TTL and stale window, that exactly the leader of a 304 stores a body anew and archives nothing, that everyone who gets a 4xx but a 420 or 429 stores it as a refusal, and that nothing else is written |
| Outcomes.RefetchUnconditional | app/proxy.py:176-184 | in every run a refetch is sent without an ETag and is never answered 304 |
| Outcomes.NeverServed304 | app/proxy.py:155-184 | no request is ever answered with a 304 |
| Outcomes.StepKeepsAccount | app/proxy.py:134-248 | every step keeps: tasks about to write hold what their answer says, leaders lead their own execution, refetches ask without an ETag, and finished tasks are accounted for |
| Outcomes.AtMostOneAsks | app/coalesce.py:26-44 | in every run at most one request at a time asks upstream for a key, and at most one asks again |
| Outcomes.LeadsOrJoins | app/coalesce.py:26-37 | a request about to coalesce can lead exactly if no request asks for its key, and can join exactly a request that does |
| Freshness.StepKeepsInv | app/proxy.py:145-213 | if nobody stores under a key while another task of that key, not served by the very execution stored, is between ETag read and stale read, every stored body belongs to its ETag and every task still holds an ETag or a 304 that stands for the last stored body |
| Freshness.Transparency | app/proxy.py:145-213 | a 200 marked MISS, given to a leader or to a waiter, rests on an execution begun while its leader's request was open and back while this one was; a single-page body is what upstream held when it answered that execution, whether with a 200, with a 304 and the stale copy, or to a refetch after a 304 |
| Freshness.RunTransparency | app/proxy.py:145-213 | the same in every run from an empty cache, with any number of concurrent requests, waiters and collector stores and any interleaving across keys, that serialises stores on each key as above |
| Freshness.CachedIsHeld | app/proxy.py:167-198 | in such runs a cached single-page body is what upstream held when the execution behind its set was answered, and a cached ETag is the one upstream had then |
| Lifetimes.HitAge | app/proxy.py:134-137 | in every interleaving a lookup hits exactly while the last set that stored a body is younger than its TTL, and serves that body; counted from the upstream answer its age is below TTL plus the delay between answer and set |
| Lifetimes.StaleAge | app/proxy.py:215-220 | a degraded request is served STALE exactly while the last set is younger than TTL plus the stale window and its body was small enough to keep; the body is that of the last set |
| Lifetimes.OversizeLeavesNoStale | app/proxy.py:311-314 | after storing an oversize body no stale copy is live, whatever was there before |
| Lifetimes.KeyLifetimes | app/cache.py:82-131 | in every interleaving ETag and TTL entries are live together and, with a live stale copy, come from one set |
| Lifetimes.NegativeHitAge | app/proxy.py:139-143 | in every interleaving a lookup gets a negative hit exactly while the last set_negative, if no set came after it, is younger than its TTL; body and status are both those of one 4xx answer, never a 420 or 429, the TTL is its max-age or else the configured one, and its age is below TTL plus the delay between answer and write |
| Lifetimes.TagSent | app/proxy.py:145-149 | after two misses a request asks with the ETag of the last set exactly while that lives, else with none |
| Exclusion.ExclusiveUnlessOverwritten | app/proxy.py:240-247 | one step makes positive and negative entry of a key live together exactly when it writes a negative one over a live body |
| Exclusion.LiveIffLastStore | app/cache.py:80-97 | at every point of a run a body is live exactly while the last one stored has not expired |
| Exclusion.MissLasts | app/proxy.py:135-137 | a body that a lookup missed is live again exactly when one was stored since and has not expired |
| Exclusion.ExclusiveIffNeverOverwritten | app/proxy.py:134-247 | positive and negative entry of a key exclude each other all through a run, whatever the interleaving, exactly when no request stores a 4xx over a live body that was stored between that request's own missed lookup and this write |
| Exclusion.ExclusiveIfUndisturbed | app/proxy.py:134-247 | so they do in every run in which nobody stores a body of the key between a request's missed lookup and its storing a 4xx |
| Lifetimes.RestoreKeepsTtl | app/proxy.py:158-173 | a restore without Cache-Control keeps the TTL exactly when the TTL entry is still live when read, after the fetch, and not zero; otherwise the TTL becomes 300 |
| Lifetimes.RestoreChainKeepsTtl | app/proxy.py:158-173 | as long as upstream only revalidates and TTLs are read in time, any number of concurrent restores keeps the original body, ETag and TTL, whatever happens on other keys |
| Lifetimes.RaisesIffZeroMaxAge | app/proxy.py:163-173 | a store ends in an exception exactly when it restores a body under a 304 with max-age=0 |
| Scenarios.TtlFallsBack | app/proxy.py:164-165 | a serialised run in which the TTL entry, live at the ETag read, has expired at the TTL read: 100 becomes 300 |
| Scenarios.ZeroMaxAgeRaises | app/proxy.py:163-173 | a serialised run in which a 304 with max-age=0 makes the restoring leader raise |
| Scenarios.BothLive | app/proxy.py:240-247 | a serialised run in which a 404 answered to a request that missed is stored over the body a collector has stored since: both entries are live |
| Scenarios.LateWaiterGetsOlder | app/coalesce.py:28-36 | a serialised run in which a waiter joins an execution that upstream has answered already, and is served a body upstream held at no moment while the waiter's own request was open |
| Degradation.ServesResort | app/proxy.py:215-227 | a degraded request is served the body of the last set while its stale copy lives, else what the archive read gave unless that is empty, else upstream's status with the error envelope |
| Degradation.ArchiveServesLatest | app/archive.py:244-273 | the archive read of a degraded request gives a payload written in the minute of the latest write of its resource, and the latest write itself exactly when nothing overtook it |
| Degradation.ArchiveServesRecord | app/proxy.py:215-227 | of a resource without snapshots a degraded request without a stale copy is served the last reference document, else the first event, a null or empty one not counting, else the error envelope |
| Interleaving.OverlappedRestore | app/proxy.py:148-173 | whatever ran between the ETag read of an execution and the stale read after its 304, the copy found, by its leader or a waiter, is the body the 304 validates exactly when the last set by then has the same body as the last set at the ETag read |
| Interleaving.OverlapBreaksTransparency | app/collector.py:57 | a run with a collector store in between: the new body ends up under the old ETag, and a later request that overlaps nothing gets a body upstream held at no moment while it was open |
| Tables.IdempotencyKeyInjective | app/archive.py:305-314 | equal idempotency keys mean the same resource, the same minute and the same content |
| Tables.BucketIsMinute | app/archive.py:305-314 | two moments are in one bucket exactly if one minute has both |
| Archive.WriteSnapshot | app/archive.py:67-181 | all of a write is committed, as its specification says per archive type, or nothing is |
| Archive.WriteTimeSeries | app/archive.py:85-137 | blob, row or its duplicate, and for market orders manifest, deltas and label |
| Archive.WriteMarketOrdersParquet | app/archive.py:369-436 | fails on a payload that is no list, a file that cannot be written or deltas that fail; otherwise yields the manifest of that content, existing or new |
| Archive.ArchiveResponse | app/proxy.py:288-308 | a failing write leaves the committed tables as they were and fails nothing else |
| Archive.NewestSnapshot | app/archive.py:256-267 | finds a row of the resource that no other is newer than, or there is none |
| Archive.GetLatestPayload | app/archive.py:244-302 | the newest snapshot's blob, else the reference row, else the event row, a stored JSON null counting as absent |
| ArchiveFallback.ReadsRecord | app/archive.py:275-302 | of a resource that never had a committed snapshot the last reference document is read, unless it is null, else the first event, unless it is null, else nothing |
| ArchiveFallback.NoRowIffNeverSnapshot | app/archive.py:254-273 | there is no row of a resource exactly if no committed write was a snapshot of it |
| Deltas.Session.WriteMarketOrderDeltas | app/archive.py:478-527 | the batches together do what writing row by row does; it raises exactly on an order id that is no integer and on two equal orders in one batch |
| Deltas.Session.UpsertVersions | app/archive.py:514-520 | the batched upsert equals the row-by-row one and is rejected exactly when some batch holds a version twice |
| Deltas.Session.CollectRows | app/archive.py:488-512 | keeps the orders with an id, in order, and fails on an id that is no integer |
| Deltas.KeyedKeeps | app/archive.py:488-490 | every order with an id is kept, as often as it is listed, and nothing else |
| Deltas.WriteIsLossless | app/archive.py:478-527 | after a write the join of entries with versions gives back, for every order id, the snapshot's order of that id, first one first |
| Deltas.WriteGrows | app/archive.py:514-527 | no write changes a version's content or first sighting or any existing entry, and versions stay under their own content hash with first_seen at most last_seen |
| Deltas.RecoversAllIffUnambiguous | app/archive.py:522-527 | every order of a snapshot is recovered exactly when no order id occurs in it with two contents |
| ArchiveExamples.SecondContentLost | app/archive.py:522-527 | a snapshot with one order id under two contents commits, and its join gives the first of them |
| ArchiveExamples.EqualOrdersFail | app/archive.py:514-520 | a snapshot with two equal orders in one batch: the write fails as a whole |
| ArchiveInv.SnapshotColumnsUnique | app/db.py:49-56 | rows equal in the columns of uq_timeseries_snapshot are one row, so that constraint never fires on its own |
| ArchiveInv.BlobGoesIn | app/archive.py:325-343 | the blob under a payload's hash decodes to that payload, whoever wrote it first |
| ArchiveInv.DeltasRecover | app/archive.py:478-527 | writing one snapshot's deltas recovers that snapshot and changes no other snapshot's join |
| ArchiveInv.LabelGoesOn | app/archive.py:129-137 | the label set names the manifest of the row's own content |
| ArchiveRuns.WriteKeepsInv | app/archive.py:85-137 | every write, committed or rolled back, keeps: blobs under their own hash, a blob for every row, the unique index, labels naming manifests of the same content, entries that join and carry the region of the row, and recovery of every labelled row |
| ArchiveRuns.WriteKeepsRows | app/archive.py:95-113 | rows only grow: each write adds its own row and no other, none for a duplicate in the same minute, and existing rows keep resource, content, moment and label |
| ArchiveRuns.RunKeepsInv | app/archive.py:67-181 | the same invariant after any run of writes under a clock that does not go back |
| ArchiveHistory.RunKeepsHistory | app/archive.py:85-137 | no committed snapshot is lost, no row is made up, a row keeps the moment of its first write, and with Parquet on every market-orders row is labelled |
| ArchiveHistory.CommittedIsReadable | app/archive.py:85-113 | from its commit on, every snapshot has its row and that row's blob decodes to the exact payload |
| ArchiveHistory.RowHasOrigin | app/archive.py:85-113 | every row comes from a committed write, the first of its resource, minute and content, and decodes to its payload |
| ArchiveHistory.DeltasAreLosslessForever | app/archive.py:478-527 | at every later moment, whatever is written meanwhile, the join on a market-orders snapshot gives exactly its orders |
| ArchiveHistory.OneVersionPerContent | app/db.py:153-162 | one version row per datasource, order id and content, first seen no later than last seen |
| ArchiveHistory.VersionsAreBrought | app/archive.py:488-520 | a version row exists exactly for each datasource, order id and content that a committed market-orders write had |
| ArchiveCommits.CommittedIff | app/archive.py:67-181 | a write is committed exactly if: a document is JSON; market orders, with Parquet on, are a list whose file can be written or was before, and with deltas on every order id is an integer and no batch of a thousand has one order twice; any other snapshot always |
| ArchiveCommits.ManifestIffFiled | app/archive.py:387-424 | a manifest is there exactly for the contents of committed market-orders writes, and its row count is the number of items of that content |
| ArchiveCommits.OrderIsRecovered | app/archive.py:478-527 | from its commit on, an order that is the first of its id in a snapshot is joined back from it with its text |
| ArchiveCommits.NothingMadeUp | app/archive.py:478-527 | an id that no order of a snapshot has is joined to nothing |
| ArchiveCommits.VersionMoments | app/archive.py:514-520 | a version row is there exactly if some committed write had that order, and bears the moment of the first such write as first seen and of the last one as last seen |
| ArchiveLatest.ReadsSameMinute | app/archive.py:254-273 | the payload read back was written for that resource in the minute of its latest write |
| ArchiveLatest.ReadsLatestIffNotOvertaken | app/archive.py:254-273 | it is the latest write exactly when the content did not go A, then B new in that minute, then A |
| ArchiveExamples.ReadsOvertaken | app/archive.py:254-273 | three writes A, B, A in one minute: B is read back, and nothing else can be |
| ArchiveRecords.ReferenceIsLatest | app/archive.py:139-163 | a reference row exists from the first write on, holds the content of the last one and keeps the first sighting |
| ArchiveRecords.EventIsFirst | app/archive.py:165-179 | an event row holds its first write for good |
| ManifestRace.LabelsAlwaysSound | app/archive.py:86-137 | in every committed state of every interleaving of writers, with aborts anywhere, a labelled row names an existing manifest of its own content, every row has its blob, no key has two rows and no content two manifests |
| ManifestRace.LostRaceFindsWinner | app/archive.py:416-424 | the select after a lost insert always finds the winner's row or manifest |
| ManifestRace.CommittedStays | app/archive.py:129-137 | a committed row stays and never changes its label once it has one |
| ManifestRace.CommitLabels | app/archive.py:115-137 | a writer that wanted Parquet and commits leaves its row labelled with its manifest |
| ManifestRace.StepKeepsInv | app/archive.py:387-436 | every statement, commit and abort of every writer keeps uncommitted inserts apart and committed rows sound |
| Discovery.DiscoverTypeIds | app/collector.py:164-189 | exactly the types given by the latest payload up to its first malformed item and those accumulated in the tables; only the former when the query fails; an overflowing type id raises out of it |
| Discovery.TypeIdsOf | app/collector.py:178-186 | collects the types of the items before the first malformed one and raises exactly if an overflowing one is among them |
| Discovery.AccumulatedTypeIds | app/collector.py:214-223 | exactly the types that parse, and none when the query fails |
| Discovery.AccumulatedExactly | app/collector.py:192-223 | the accumulated types are exactly those of archived orders: with an order id, the first of that id in a committed snapshot of the region, known under the datasource, and with a type text that parses |
| Discovery.OwnOrdersArchived | app/archive.py:486-527 | of a committed snapshot of the datasource itself, the first order of every id is archived |
| Discovery.PayloadGives | app/collector.py:176-187 | the latest payload gives a type exactly if it is a list and an item with that type comes before its first malformed one |
| Forgetting.DiscoveryNeverForgets | app/collector.py:164-223 | with deltas on and the query succeeding, the type of an archived order, if its text parses, is in every later result |
| Forgetting.FoundForGoodIff | app/collector.py:164-223 | a type is in the result of every later discovery, however the run goes on, exactly when some archived order has it |
| Forgetting.EmptySnapshotForgets | app/collector.py:176-187 | after one more, empty, snapshot only the accumulated types are discovered |
| Forgetting.WithoutDeltasOnlyLatest | app/collector.py:192-223 | without deltas or Parquet the result is exactly the types of the latest payload, so types are forgotten |
| ArchiveExamples.TypeForgotten | app/collector.py:176-223 | three snapshots whose type 34 is discovered and then lost: on an item without order id, on one whose type is no integer text, on the second content of an order id |
| Collector.FetchAndStore | app/collector.py:48-82 | skips anything but a 200; otherwise warms the path and its aliases and archives once under the path itself; a failing archive write is rolled back and reported, the cache stays warm |
| Collector.AllWarm | app/collector.py:54-66 | from the last cache write until the first entry expires, every warmed path is a hit with the fetched body |
| Collector.OthersUntouched | app/collector.py:54-66 | every key that is not warmed amounts to what it did |
| Collector.WarmedPaths | app/collector.py:60-66 | a path is warmed exactly if it is the fetched one or an alias of it under a configured version |
| Collector.WarmedWith | app/collector.py:55-66 | what is stored under each is the fetched body and ETag, for its max-age or else 300 seconds, with the stale window of its size |
| Collector.SwapReplaces | app/collector.py:226-231 | the version segment of a path is replaced, and a path without one is left alone |
| Collector.SwapForgets | app/collector.py:226-231 | swapping versions forgets the previous one and can be undone; an alias equals the path exactly for the same version |

## Left out

- Pacer.PacerBound: bounds the moments at which `_pace` releases requests; the wait for the upstream semaphore that follows may bunch them again on the wire.
- Retry.RequestWithRetries: models one retry loop with exclusive use of pacer and breaker; other dispatches' calls in between keep the validity of both, on which the bounds of those classes rest, but its counts are then of this loop alone.
- Freshness.RunTransparency: asks that stores on one key are serialised against the span between ETag read and stale read of other tasks of that key; what happens otherwise is in `Interleaving`.
- Freshness.CachedIsHeld: the collector's stores under alias paths (app/collector.py:62-66), off by default, occur in no run; they put body and ETag of one path under the key of another, which upstream may answer differently. `Collector.AllWarm` and `Collector.OthersUntouched` cover what they write.
- Freshness.Transparency: a merged multi-page body is passed on as it was merged; its pages may be of different moments.
- DispatchRuns.StepKeepsCacheInv: resolving a future and popping its key are one step here; their interleavings are in `Coalesce`.
- Forgetting.FoundForGoodIff: speaks of discoveries that do not raise; an overflowing type id in a later payload makes a discovery fail.
- ArchiveHistory.DeltasAreLosslessForever: orders with one id under two contents in one snapshot are recovered as the first of them; `Deltas.RecoversAllIffUnambiguous` says exactly when all are.
- ArchiveLatest.ReadsLatestIffNotOvertaken: needs writes at distinct moments, since equal moments leave the choice of row to the database; `ArchiveLatest.ReadsSameMinute` does not.
- Discovery.AccumulatedExactly: the region snapshot it names may be of another datasource, as the query does not compare the datasource of the entry.
- ManifestRace.LabelsAlwaysSound: deltas are one statement without tables of their own; their contents are in `Deltas` and `ArchiveRuns`, for one writer at a time.
- Archive.GetLatestPayload: inline JSONB payloads of old rows and reading Parquet files back are not modelled; rows written by this code always have their blob.
- The datasource default is the shipped one, tranquility.
- Cancellation while waiting for the coalescing lock: its critical sections never suspend, so the lock is never waited for.
- The regex allowlist, path validation, `check_params` and endpoint labels: finite data and set comparisons; a request here has passed them.
- Values PostgreSQL itself refuses in a JSONB column, such as a NUL character in a string.
- HTTP transport, header and date parsing, zstd and zlib, SHA-256, JSON parsing and Parquet files, beyond the assumptions above.
- Lone surrogates in JSON strings: a Dafny character is never one.
- content_type, expires_at, page metadata, and the error-limit fields of a response: they are carried along without influencing any branch.
- Routes, dependency wiring, metrics, logging, scheduler, advisory locks, migrations.
- Name extraction, `write_names` and the Redis name cache: plain upserts.
