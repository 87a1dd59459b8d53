# Cloudflare Worker blueprints: throttle and R2 sync, in Dafny

This project models the two Cloudflare Worker blueprints of the `ai-context` deployment:

- **The rate-limit worker** (`cloudflare-worker-rate-limit.js`). It sits in front of `POST /generate*`. It picks a client identity from `CF-Connecting-IP`, then from the first comma segment of `X-Forwarded-For`, and otherwise uses `unknown`. It keeps a fixed-window counter `{count, firstRequestTime, ...}` in a KV namespace under `rate-limit:<identity>`, with a limit of 100 per 3,600,000 ms. When the window is full it answers 429. Otherwise it counts the request, stores the record with a 65-minute TTL and forwards the request with `X-RateLimit-*` headers. If anything throws, it fails open.
- **The R2 sync worker** (`cloudflare-worker-r2-sync.js`). It has three parts:
  - `retryWithBackoff`: up to `maxRetries` calls, an immediate rethrow on `InvalidAccessKeyId` or `InvalidSecretAccessKey`, and waits of 500·3^attempt ms between attempts.
  - `syncContextToR2`: one unit of work (the metadata upload, with 3 attempts). It counts the unit into `syncResults`, then writes `sync:<syncId>` (7 days) and `sync:latest` (1 year).
  - The fetch router: `/health`, `/sync`, `/sync/status`, and 404 for anything else.

Layout:
- `option.dfy`: module `Optional`, with `Option`.
- `rate_limit.dfy`: module `RateLimit`.
  - Pure helpers: `IsProtected`, `FirstCommaSegment`, `ClientIdentity`, `Decide`, `Replay`.
  - Class `RateLimitGate`. Its `kv` field is the namespace, and it has the methods `Admit` and `Fetch`. `Admit` is the read-modify-write and updates a local record step by step, as the handler does. A ghost `calls` log records which namespace calls each path issues.
- `retry.dfy`: module `RetryBackoff`. The loop method `RetryWithBackoff` is proved equal to the recursive specification `RetryFrom`/`Retry`. The listed behaviours are proved of that specification by induction (`RetryShape`, `DecisiveCall`).
- `r2_sync.dfy`: module `R2Sync`.
  - Specification functions for the unit result, the namespace after a run, and the response.
  - The method `RunMetadataUnit`.
  - Class `SyncWorker`. Its `kv` field is the namespace, and it has the methods `SyncContextToR2`, `SyncStatus` and `Fetch`.

Parameters stand for the things the model cannot compute:
- the clock (`now`, the elapsed `duration`);
- the generated `syncId` and ISO `timestamp`;
- what the k-th upload call does (`upload: nat -> CallOutcome<()>`);
- which KV call throws (`KvFault`, `PutFault`, `readFault`);
- whether the origin fetch throws (`originFails`).

Points where the model follows the code to the letter:
- **Window reset.** The counter resets only when `firstRequestTime < now - 3600000`, which is strict. At exactly one hour there is no reset, so a full window then answers 429 with `retryAfter` 0.
- **Reset fields.** A reset changes only `count` and `firstRequestTime`. `lastResetTime` keeps its initial value.
- **Error classifier.** The classifier for non-retriable errors is fixed to the two credential codes. It is not pluggable.
- **Zero budget.** With `maxRetries <= 0`, `retryWithBackoff` calls nothing and resolves to `undefined` (`NoAttempt`). It does not fail. The sync run always passes 3.
- **One unit.** A sync run has exactly one unit of work, the metadata upload. There are not several units.
- **KV writes.** The two KV writes are sequential inside one `try`. If the result write throws, the pointer is not written. If the pointer write throws, the result record stays stored. Either way the response is 500 `Sync failed`.

## Model

| member | source | states |
|---|---|---|
| RateLimit.IsProtected | blueprints/ai-context/cloudflare-worker-rate-limit.js:34 | throttled exactly when the method is `POST` and the path's first nine characters are `/generate`; any other method passes through |
| RateLimit.FirstCommaSegment | blueprints/ai-context/cloudflare-worker-rate-limit.js:41 | the result is a prefix of the header value, contains no comma, and stops exactly at the first comma or at the end |
| RateLimit.ClientIdentity | blueprints/ai-context/cloudflare-worker-rate-limit.js:40-42 | the identity is never empty: a non-empty `CF-Connecting-IP` wins; otherwise the first comma segment of `X-Forwarded-For` when that is non-empty; otherwise `unknown` |
| RateLimit.RateLimitKeyInjective | blueprints/ai-context/cloudflare-worker-rate-limit.js:45 | two identities with the same `rate-limit:` key are equal, so clients never share a counter |
| RateLimit.CeilDiv | blueprints/ai-context/cloudflare-worker-rate-limit.js:76 | `Math.ceil(x / d)` on integers: the least q with x <= q*d |
| RateLimit.WindowRecord | blueprints/ai-context/cloudflare-worker-rate-limit.js:49-65 | a missing record starts as count 0 at `now`; a stored one is reset to count 0 at `now` exactly when `firstRequestTime < now - 3600000`, else kept; afterwards the window start is never more than an hour back |
| RateLimit.Decide | blueprints/ai-context/cloudflare-worker-rate-limit.js:62-110 | reject exactly when the window count is at least 100, with `retryAfter = ceil((first + 3600000 - now)/1000)`, within [0, 3600] when the window start is not in the future; on admit the count rises by one and never exceeds 100, `remaining = 100 - count >= 0`; `reset = first + 3600000` on both paths |
| RateLimit.RetryAfterZeroAtBoundary | blueprints/ai-context/cloudflare-worker-rate-limit.js:62-76 | exactly one hour after the window start a full window is not reset and asks for a 0-second wait |
| RateLimit.ReadmittedAfterWindow | blueprints/ai-context/cloudflare-worker-rate-limit.js:62-65 | once more than an hour has passed, a throttled client is admitted with count 1 and 99 remaining |
| RateLimit.Replay | blueprints/ai-context/cloudflare-worker-rate-limit.js:46-101 | one decision per request when a client's requests are handled in turn, each admitted record becoming the stored one |
| RateLimit.ReplayStored | blueprints/ai-context/cloudflare-worker-rate-limit.js:96-101 | the record left under the client's key by a run of requests: there is one exactly when one was stored before or the run is not empty |
| RateLimit.ReplayCalls | blueprints/ai-context/cloudflare-worker-rate-limit.js:46-101 | the namespace calls of a run: one get per request, plus one put after each admission |
| RateLimit.ReplayStoresLastAdmitted | blueprints/ai-context/cloudflare-worker-rate-limit.js:96-101 | when the last request of a run is admitted, its record is the one left stored |
| RateLimit.ReplayWithinWindow | blueprints/ai-context/cloudflare-worker-rate-limit.js:62-101 | while no request comes more than an hour after the window start (earlier timestamps included), requests are admitted with `remaining` counting down until the count reaches 100, and rejected from then on |
| RateLimit.FirstWindowAdmitsLimitThenRejects | blueprints/ai-context/cloudflare-worker-rate-limit.js:52-101 | a new client's first 100 requests, none more than an hour after the first, are admitted with `remaining` 99 down to 0, and the 101st and later are rejected |
| RateLimit.RateLimitGate.Admit | blueprints/ai-context/cloudflare-worker-rate-limit.js:45-101 | one `get` of `rate-limit:<ip>`; a rejection writes nothing; an admission stores the decided record with TTL 3900 s and changes no other key; a throwing `get` or `put` leaves the namespace as it was; the namespace invariant (counts in 1..100, TTL 3900, key matches `clientIP`) is kept |
| RateLimit.RateLimitGate.AdmitInTurn | blueprints/ai-context/cloudflare-worker-rate-limit.js:45-101 | a client's requests handled one after another through `Admit` give exactly the decisions of `Replay` from the stored record, so the window properties hold of the handler; afterwards the client's key holds `ReplayStored` (the last admitted record), every other key is unchanged, the calls issued are those of `ReplayCalls`, and the namespace invariant is kept |
| RateLimit.RateLimitGate.Fetch | blueprints/ai-context/cloudflare-worker-rate-limit.js:30-122 | requests that are not `POST /generate*` pass through with no namespace call; protected ones get 429 with `Retry-After`, limit 100 and remaining 0, or are forwarded with limit, remaining and reset headers; any throw fails open |
| RetryBackoff.IsCredentialError | blueprints/ai-context/cloudflare-worker-r2-sync.js:168 | the test on the two credential codes; an error without a `Code` is never a credential error, so it is always retried |
| RetryBackoff.Backoff | blueprints/ai-context/cloudflare-worker-r2-sync.js:178 | the wait after attempt k is 500·3^k ms: 500 after the first attempt, and never less than 500 |
| RetryBackoff.BackoffTriples | blueprints/ai-context/cloudflare-worker-r2-sync.js:177-178 | each wait is three times the one before it |
| RetryBackoff.BackoffSchedule | blueprints/ai-context/cloudflare-worker-r2-sync.js:177-178 | n waits, starting at 500 ms, each three times the previous: 500, 1500, 4500, … |
| RetryBackoff.RetryFrom | blueprints/ai-context/cloudflare-worker-r2-sync.js:163-183 | the loop from attempt index k on: a call is made exactly when budget is left, and every call but the last is followed by one wait |
| RetryBackoff.RetryShape | blueprints/ai-context/cloudflare-worker-r2-sync.js:162-184 | with budget left: between 1 and the remaining budget of calls, one wait fewer than calls, each wait 500·3^attempt, every call but the last a non-credential failure, and the last call returned the value, threw a credential error, or was the final attempt; with no budget, no call and `undefined` |
| RetryBackoff.Retry | blueprints/ai-context/cloudflare-worker-r2-sync.js:162-184 | the whole run: at most `maxRetries` calls; `undefined` exactly when the budget is zero or less; a first call that returns or throws a credential error settles the run alone, with no wait |
| RetryBackoff.RetryWithBackoff | blueprints/ai-context/cloudflare-worker-r2-sync.js:162-184 | the loop's result, call count and waits are those of `Retry` |
| RetryBackoff.DecisiveCall | blueprints/ai-context/cloudflare-worker-r2-sync.js:163-181 | after j transient failures, a call that returns, throws a credential error or is the last allowed settles the run with its outcome, after exactly j+1 calls and waits `[500·3^0, …, 500·3^(j-1)]` |
| RetryBackoff.DecisiveCallFrom | blueprints/ai-context/cloudflare-worker-r2-sync.js:163-181 | the same from any attempt index up to j, which gives the inductive step |
| RetryBackoff.NoBudgetNoCalls | blueprints/ai-context/cloudflare-worker-r2-sync.js:163 | `maxRetries <= 0` calls nothing and resolves to `undefined` |
| RetryBackoff.CredentialErrorAbortsAtOnce | blueprints/ai-context/cloudflare-worker-r2-sync.js:167-170 | a credential error on the first call is rethrown after that single call with no wait, whatever the budget |
| RetryBackoff.TwoFailuresThenSuccess | blueprints/ai-context/cloudflare-worker-r2-sync.js:163-181 | with 3 attempts, two transient failures and then a value give that value after 3 calls and waits of 500 and 1500 ms |
| RetryBackoff.ExhaustedBudgetRethrowsLast | blueprints/ai-context/cloudflare-worker-r2-sync.js:172-175 | when every allowed attempt fails transiently, the last error is rethrown after `maxRetries` calls, with no wait after the last one |
| R2Sync.MetadataUnitResults | blueprints/ai-context/cloudflare-worker-r2-sync.js:77-113 | after the metadata unit, `filesProcessed + filesFailed = 1` and `|errors| = filesFailed`; every error names `metadata.json`; the unit failed exactly when the retry rethrew, and the entry carries that error's message |
| R2Sync.StoreAfterSync | blueprints/ai-context/cloudflare-worker-r2-sync.js:115-130 | the result is stored under `sync:<syncId>` with TTL 604800 unless that write throws; `{syncId, timestamp}` is stored under `sync:latest` with TTL 31536000 when both writes succeed; when the pointer write throws, an existing pointer keeps its value and TTL and a missing one stays missing; no other key changes |
| R2Sync.RunResults | blueprints/ai-context/cloudflare-worker-r2-sync.js:77-117 | the record a run returns and stores keeps its id and timestamp, has processed plus failed equal to 1 and one error per failure, fails exactly when the three-attempt upload rethrew, and carries the measured `duration` |
| R2Sync.SyncResponseFor | blueprints/ai-context/cloudflare-worker-r2-sync.js:134-155 | status 200 with the results whenever both writes succeeded, even if the unit failed; 500 `Sync failed` with the error message when either write threw |
| R2Sync.Route | blueprints/ai-context/cloudflare-worker-r2-sync.js:195-219 | `GET /health` is the health route, `POST /sync` the sync route and `GET /sync/status` the status route, each exactly; every other method and path is a 404 |
| R2Sync.RunMetadataUnit | blueprints/ai-context/cloudflare-worker-r2-sync.js:88-113 | the upload through the retry wrapper with 3 attempts, counted into a fresh `syncResults`, gives `MetadataUnitResults` of the retry's outcome |
| R2Sync.LatestAfterSync | blueprints/ai-context/cloudflare-worker-r2-sync.js:126-130 | after a run whose writes succeed, the status endpoint's pointer is `{syncId, timestamp}` of that run |
| R2Sync.FailedUploadStillSucceeds | blueprints/ai-context/cloudflare-worker-r2-sync.js:88-140 | an upload failing on all three attempts gives one failed file carrying the last error's message, and the run still answers 200 |
| R2Sync.SyncWorker.SyncContextToR2 | blueprints/ai-context/cloudflare-worker-r2-sync.js:57-156 | the response is `SyncResponseFor` of the run's results, and the namespace becomes `StoreAfterSync` of the old one |
| R2Sync.SyncWorker.SyncStatus | blueprints/ai-context/cloudflare-worker-r2-sync.js:208-214 | answers the stored `sync:latest` value, or "No syncs yet" when there is none, and writes nothing; a throwing read becomes a 500 |
| R2Sync.SyncWorker.ReadStatusTwice | blueprints/ai-context/cloudflare-worker-r2-sync.js:208-214 | two status reads with no sync between them give the same answer |
| R2Sync.SyncWorker.Fetch | blueprints/ai-context/cloudflare-worker-r2-sync.js:190-235 | health gives `{status:'ok', worker:'ai-context-r2-sync'}`, sync runs `syncContextToR2`, and status reads the pointer; everything else is a 404; only the sync route changes the namespace |

## Left out

- The S3 client (`createR2Client`, `S3Client`, `PutObjectCommand`, `send`) is a foreign library. Each upload call is only an outcome: a value, or an error with `Code` and `message`. The JSON body and metadata of the uploaded object are not modelled.
- HTTP I/O is not modelled: forwarding with `fetch(request)`, building `Headers` and `Response`, and copying the origin's status and body. Responses are datatypes carrying the status-relevant fields and header values. The 429 body's `retryAfter` and the `Retry-After` header are the same value and are held once.
- `Date.now()` and `new Date().toISOString()` are parameters. So are the `sync-<ms>` form of `syncId` and the ISO formatting of `X-RateLimit-Reset`; reset times are kept as epoch milliseconds.
- The sleep (`setTimeout`) is not modelled. Each wait is recorded as its value in milliseconds.
- `console.log` and `console.error` are not modelled, and neither is JSON serialisation or parsing. The namespaces hold typed records, so a stored value this worker did not write (malformed JSON, a non-numeric count) is not represented.
- The parsed `files` list of `syncContextToR2` is computed but never read, so the model has no input for it.
- `handleScheduled` in both files contains no logic. The unused constant `CLEANUP_INTERVAL_MINUTES` is also left out.
- KV expiry by TTL is not modelled. The TTL is stored as a number beside each value.
- Concurrent read-modify-write races are not modelled, on the counter or on `sync:latest`. Each handler call is one atomic step on the namespace.
- A `new URL(request.url)` that throws is not modelled, because the runtime always passes a valid URL. In the sync worker, the router's outer catch is modelled only for the status read that throws.
- The origin fetch that throws after a successful `put` is modelled as a fail-open response with the counter already incremented. The second `fetch(request)` issued from the catch is not modelled separately.
- The default `maxRetries = 3` of `retryWithBackoff` is not modelled as a default: its only caller passes 3 explicitly, and the model always takes the budget as an argument.
- JavaScript numbers are doubles. The model uses unbounded integers, which agree with them for millisecond timestamps and counts below 2^53.
