# AgentOrchestrator security and runtime core, in Dafny

This project models the request-security and job-running core of
AgentOrchestrator (AORBIT) and proves properties of that model. AgentOrchestrator
is a FastAPI service that runs AI agent workflows. The modelled parts are:

- role-based access control: roles with parent roles, API keys, permission checks;
- the audit logger and its sorted-set indexes;
- the sliding-window rate limiter;
- the response cache;
- the authentication middleware;
- the enterprise security dispatch and its permission dependency;
- the API routes' own key-format middleware;
- the batch processor: its job lifecycle and its FIFO queue;
- field-level encryption of dictionaries, with the cipher kept abstract;
- route-input validation;
- the in-memory state manager;
- the tool registry.

The Redis server that all of these share is one class, `KeyValue.Store`. It
holds string keys with optional expiry times, hashes, sets, sorted sets and
lists. Each Redis command the core uses is a method on that class, specified by
its effect on the maps. Time, ids and random tokens are parameters. A stored
string is `Json.Text`: either a JSON document that `json.loads` reads back, or
raw text that it rejects.

Files and modules:

| file | module | models |
|---|---|---|
| json.dfy | `Json` | JSON values, Python truthiness, `json.loads` on stored text |
| store.dfy | `KeyValue` | the Redis commands used (GET, SET, SETEX, HGET/HSET, SADD/SISMEMBER, ZADD/ZREMRANGEBYSCORE, LPUSH/RPOP) |
| cardinality.dfy | `Cardinality` | set-size facts used by the termination and bound proofs |
| http.dfy | `Http` | requests, headers, JSON error responses, ASGI start/body messages |
| rbac.dfy | `Rbac` | `agentorchestrator/security/rbac.py` |
| audit.dfy | `Audit` | `agentorchestrator/security/audit.py` |
| rate_limiter.dfy | `RateLimit` | `agentorchestrator/middleware/rate_limiter.py` |
| cache.dfy | `ResponseCaching` | `agentorchestrator/middleware/cache.py` |
| auth.dfy | `Auth` | `agentorchestrator/middleware/auth.py` |
| integration.dfy | `Integration` | `agentorchestrator/security/integration.py` |
| api_middleware.dfy | `ApiSecurity` | `agentorchestrator/api/middleware.py` |
| batch.dfy | `Batch` | `agentorchestrator/batch/processor.py` |
| encryption.dfy | `Encryption` | `agentorchestrator/security/encryption.py` |
| validation.dfy | `RouteValidation` | `src/routes/validation.py` |
| state.dfy | `StateStore` | `agentorchestrator/state/base.py` |
| tools.dfy | `Tools` | `agentorchestrator/tools/base.py` |

Objects whose fields the source updates in place are classes, for example
`RBACManager` with its role cache and `BatchJob`. Each method on them is proved
against a specification function: for example, `HasPermission` against
`PermissionGranted`, and `GetEffectivePermissions` against reachability in the
role graph. The properties the source promises are then proved about those
functions.

Where the code's own description promises more than its statements do, the
model follows the statements:

- The module describes "hierarchical roles"
  (agentorchestrator/security/rbac.py:5), and `get_effective_permissions` is
  documented to include inherited permissions (rbac.py:211); it follows the
  whole parent chain. `has_permission` (rbac.py:386-407), however, consults a
  role's own permissions and its immediate parents only, so a permission held
  by a grandparent is effective but not granted (`Rbac.GrandparentNotConsulted`).
- The seeded `admin` role holds the permission `*` (rbac.py:413-419), evidently
  meant as "every permission". `has_permission` compares permission strings
  exactly, so `*` grants nothing but itself (`Rbac.WildcardNotSpecial`).

Other behaviours of the code that the model keeps as they are:

- The rate limiter, described as a sliding window (rate_limiter.py:20), rejects
  only when the count already in the window is strictly greater than the limit.
  The `reset` it reports is `60 - now % 60`, the seconds left in the current
  clock minute, not the seconds until the window has room.
- The security dispatch's bypass list (integration.py:122) lacks
  `/openapi.json/`, which the authentication middleware's public paths include.
- API keys are minted with the prefix `ao-`. The routes' middleware accepts
  `ao-` and `aorbit-`. The security dispatch's legacy check accepts `ao-` and
  anything that starts with `aorbit`.

## Model

| member | source | states |
|---|---|---|
| Rbac.RoleDocRoundTrip | agentorchestrator/security/rbac.py:143-160 | the JSON that `create_role` stores decodes back to the same role |
| Rbac.StoredRoleReadsBack | agentorchestrator/security/rbac.py:167-208 | a manager with an empty cache finds a role that `create_role` wrote |
| Rbac.CacheIsTransparent | agentorchestrator/security/rbac.py:176-205 | caching a resolved role changes no later lookup while the store is unchanged |
| Rbac.CachingKeepsResolves | agentorchestrator/security/rbac.py:176-205 | a `get_role` call answers from the role table that the cache and store agree on, and the grown cache still agrees with it |
| Rbac.ResolvedIsCandidate | agentorchestrator/security/rbac.py:167-208 | a role is found only under a cached name or a stored `role:{name}` key |
| Rbac.GraphAt | agentorchestrator/security/rbac.py:167-208 | a name is in the role table exactly when `get_role` finds it, with the same role |
| Rbac.GraphResolves | agentorchestrator/security/rbac.py:167-208 | the role table agrees with every `get_role` lookup |
| Rbac.ResolvesDeterminesGraph | agentorchestrator/security/rbac.py:167-208 | the role table is determined by the lookups that agree with it |
| Rbac.RBACManager.GetRole | agentorchestrator/security/rbac.py:167-208 | the cache first, then the stored `role:{name}` document; a role found is cached; the role table seen through the cache does not change |
| Rbac.RBACManager.FetchRole | agentorchestrator/security/rbac.py:167-208 | `get_role` returns exactly the table's role for the name, and the cache keeps agreeing with the table |
| Rbac.RBACManager.CreateRole | agentorchestrator/security/rbac.py:108-165 | an existing role is returned unchanged and nothing is written; otherwise the role is stored at `role:{name}`, the name is added to the `roles` set and the role is cached |
| Rbac.RBACManager.ProcessRole | agentorchestrator/security/rbac.py:222-238 | each newly processed role is reachable from the start role and has its parents processed; the accumulated permissions are exactly those of the processed roles |
| Rbac.RBACManager.GetEffectivePermissions | agentorchestrator/security/rbac.py:210-242 | the result is the union of the permissions of every role reachable through parent links from the given names |
| Rbac.ClosedHoldsReachable | agentorchestrator/security/rbac.py:222-238 | a processed set that holds the roots and is closed under parent links holds exactly the reachable roles |
| Rbac.ClosedHoldsPath | agentorchestrator/security/rbac.py:222-238 | a set closed under parent links that holds a path's start holds the path's end |
| Rbac.ReachableContributes | agentorchestrator/security/rbac.py:210-242 | every reachable role's permissions are effective |
| Rbac.UnknownRoleAddsNothing | agentorchestrator/security/rbac.py:225-229 | a role name that does not resolve adds no permission |
| Rbac.UnknownReachesNothing | agentorchestrator/security/rbac.py:225-229 | a role name that does not resolve reaches only itself |
| Rbac.CyclicChainInherits | agentorchestrator/security/rbac.py:222-238 | permissions are inherited through a parent chain that loops back on itself, and the walk terminates |
| Rbac.NewApiKey | agentorchestrator/security/rbac.py:279-305 | the minted key starts with `ao-`; it expires at now plus `expires_in` exactly when `expires_in` is given and non-zero; it is active, with no allow-list, user or organisation |
| Rbac.RBACManager.CreateApiKey | agentorchestrator/security/rbac.py:244-311 | a duplicate name is refused with `API key name '{name}' already exists` and nothing is written; otherwise the record goes into the `rbac:api_keys` hash and the name into the names set, and `get_api_key` reads it back |
| Rbac.ApiKeyFromDoc | agentorchestrator/security/rbac.py:313-344 | the description is never read back |
| Rbac.RBACManager.GetApiKey | agentorchestrator/security/rbac.py:313-344 | a record is returned only for a stored, decodable entry of the `rbac:api_keys` hash, and its description is empty |
| Rbac.ApiKeyDocRoundTrip | agentorchestrator/security/rbac.py:290-342 | what `create_api_key` writes, `get_api_key` reads back, except the description |
| Rbac.ApiKeyTextRoundTrip | agentorchestrator/security/rbac.py:290-342 | the same round trip, through the stored text |
| Rbac.ApiKeyDocFields | agentorchestrator/security/rbac.py:290-342 | each field that `get_api_key` reads, with its default, holds the value `create_api_key` wrote |
| Rbac.ApiKeyDocLists | agentorchestrator/security/rbac.py:290-342 | the optional ids, the allow-list and the roles read back as written |
| Rbac.KeyRoles | agentorchestrator/security/rbac.py:366-383 | roles are consulted only for an active, unexpired key with a non-empty role list |
| Rbac.RBACManager.HasPermission | agentorchestrator/security/rbac.py:346-410 | the result is `PermissionGranted` on the stored key record and the role table, and the role table does not change |
| Rbac.RBACManager.AnyRoleGrants | agentorchestrator/security/rbac.py:386-407 | the role loop grants exactly when some role of the key grants |
| Rbac.RBACManager.CheckRole | agentorchestrator/security/rbac.py:386-405 | one role grants by its own permission, by the resource-qualified form `permission:type:id`, or through an immediate parent |
| Rbac.GrantNeedsUsableKey | agentorchestrator/security/rbac.py:366-383 | `has_permission` fails closed: every grant needs a stored, decodable, active and unexpired record with roles |
| Rbac.GrantIsEffective | agentorchestrator/security/rbac.py:346-410 | every grant is backed by `get_effective_permissions` of the key's roles |
| Rbac.GrandparentNotConsulted | agentorchestrator/security/rbac.py:386-407 | a permission granted only by a grandparent is effective for the role, yet `has_permission` refuses it |
| Rbac.WildcardNotSpecial | agentorchestrator/security/rbac.py:386-407 | a role holding only `*` grants no other permission |
| Rbac.CheckPermission | agentorchestrator/security/rbac.py:458-488 | no manager or no key denies; a key that is not a string is denied; otherwise the result is the manager's `has_permission` |
| Audit.IndexKeys | agentorchestrator/security/audit.py:125-136 | every event is indexed by timestamp and by type, and by user when a user id is given |
| Audit.FetchedFrom | agentorchestrator/security/audit.py:141-156 | `get_event` returns the decoded event, or nothing for a missing or empty entry |
| Audit.AuditLogger.GetEvent | agentorchestrator/security/audit.py:141-156 | an event is found exactly when its live `audit:log:{id}` entry is a JSON document, and it is that document |
| Audit.IndexAllSpec | agentorchestrator/security/audit.py:125-136 | indexing adds the event id with its score to exactly the named sorted sets and leaves every other entry alone |
| Audit.AuditLogger.LogEvent | agentorchestrator/security/audit.py:76-139 | the event is stored under `audit:log:{id}` and indexed; `get_event` then returns it, and every other event reads as before |
| Audit.LogKeyInjective | agentorchestrator/security/audit.py:121-123 | different event ids have different log keys |
| Audit.LoggedEventReadsBack | agentorchestrator/security/audit.py:121-156 | a logged event reads back as written |
| Audit.OtherEventsUnchanged | agentorchestrator/security/audit.py:121-156 | logging one event leaves every other event's entry as it was |
| Audit.AuthSuccessArgs | agentorchestrator/security/audit.py:173-200 | an `auth.success` login event with status `success` for the given user |
| Audit.AuthFailureArgs | agentorchestrator/security/audit.py:203-232 | an `auth.failure` login event with status `failure`; the reason is recorded only when one is given |
| Audit.ApiRequestArgs | agentorchestrator/security/audit.py:235-276 | an `api.request` event for the endpoint and method; status `success` below 400 and `failure` from 400 on; the details hold endpoint, method and status code |
| RateLimit.Recent | agentorchestrator/middleware/rate_limiter.py:55 | the purge keeps exactly the entries scored after `now - 60` |
| RateLimit.Decide | agentorchestrator/middleware/rate_limiter.py:69-76 | allows exactly when the count is at most the limit; otherwise rejects, reporting the limit and `60 - now % 60` |
| RateLimit.ResetInRange | agentorchestrator/middleware/rate_limiter.py:75 | the reported reset lies between 1 and 60 seconds |
| RateLimit.RateLimiter.CheckRateLimit | agentorchestrator/middleware/rate_limiter.py:34-77 | disabled: allows and touches nothing; enabled without a client address: fails reading `request.client.host` and touches nothing; otherwise purges, counts, records the second `str(now)` and decides on the count before the add |
| RateLimit.Record | agentorchestrator/middleware/rate_limiter.py:55-61 | after the purge and the add, the window holds the new member at `now`, every other member scored after `now - 60` with its score, and nothing else |
| RateLimit.NatToStringInjective | agentorchestrator/middleware/rate_limiter.py:61 | different seconds are recorded as different members |
| RateLimit.WindowKeysDistinct | agentorchestrator/middleware/rate_limiter.py:49 | different client addresses use different windows |
| RateLimit.RecordShape | agentorchestrator/middleware/rate_limiter.py:55-61 | after a check, the window holds the new member at `now` and nothing older than 60 seconds |
| RateLimit.Run | agentorchestrator/middleware/rate_limiter.py:34-77 | successive checks of one client's window: one verdict per request, each an allow or a rejection, each request counted before its own entry is added |
| RateLimit.NothingPurged | agentorchestrator/middleware/rate_limiter.py:55 | entries no older than the window's start survive every purge within that minute |
| RateLimit.RunInOneWindow | agentorchestrator/middleware/rate_limiter.py:55-69 | within one minute, with distinct members, the i-th request is rejected exactly when the earlier entries plus i exceed the limit |
| RateLimit.DistinctSecondsPass | agentorchestrator/middleware/rate_limiter.py:58-69 | limit plus one requests in distinct seconds of one minute all pass, since each is counted before it is added |
| RateLimit.RecordKeepsSecondKeyed | agentorchestrator/middleware/rate_limiter.py:61 | members stay keyed by their second and no entry lies in the future |
| RateLimit.SecondKeyedWindowBounded | agentorchestrator/middleware/rate_limiter.py:55-61 | a window keyed by second holds at most 60 entries |
| RateLimit.NamesNoMore | agentorchestrator/middleware/rate_limiter.py:61 | recording seconds by name gives no more entries than there are seconds |
| RateLimit.SameSecondRun | agentorchestrator/middleware/rate_limiter.py:61 | at any second, repeated requests within it, against a window holding at most that second's entry, share one entry and all pass |
| RateLimit.WindowExpiryUnobservable | agentorchestrator/middleware/rate_limiter.py:55-64 | a window idle for 60 seconds is empty after the purge, so its expiry changes no verdict |
| RateLimit.DefaultLimitNeverRejects | agentorchestrator/middleware/rate_limiter.py:12-69 | as written, a limit of 60 or more never rejects |
| RateLimit.SameSecondBurstAsWritten | agentorchestrator/middleware/rate_limiter.py:61-69 | as written, 62 requests in one second under the default limit all pass |
| RateLimit.RateLimiter.CheckRateLimitPerRequest | agentorchestrator/middleware/rate_limiter.py:34-77 | the check with one member per request; otherwise the same effect and verdict, including the failure without a client address |
| RateLimit.PerRequestRefusesOverLimit | agentorchestrator/middleware/rate_limiter.py:58-69 | with one member per request, limit plus one requests in a minute pass and the next is rejected |
| ResponseCaching.KeyLayout | agentorchestrator/middleware/cache.py:56-73 | a cache key spells the API key right after `cache:`, followed by a colon |
| ResponseCaching.CacheKey | agentorchestrator/middleware/cache.py:56-73 | the key starts with `cache:` and ends with the request body for POST and PUT, with nothing from the body otherwise |
| ResponseCaching.KeyAsWritten | agentorchestrator/middleware/cache.py:53-73 | as written, a key is made only for a method other than POST and PUT, and it is then `CacheKey`; reading the body of a POST or PUT raises |
| ResponseCaching.WritesRaiseAsWritten | agentorchestrator/middleware/cache.py:53-73 | as written, every POST or PUT raises while its key is made, whatever its body |
| ResponseCaching.KeysIsolateCallers | agentorchestrator/middleware/cache.py:56-73 | requests under different API keys without colons never share a cache entry |
| ResponseCaching.BodyCountsForWritesOnly | agentorchestrator/middleware/cache.py:62-73 | only POST and PUT bodies are part of the key |
| ResponseCaching.StrValuesRoundTrip | agentorchestrator/middleware/cache.py:166-183 | stored headers decode back to themselves |
| ResponseCaching.Replay | agentorchestrator/middleware/cache.py:136-151 | a replay delivers as many chunks as the application sends, with a start exactly when it sends one; an entry lacking the content raises only after a rewritten start went out, with no chunk delivered |
| ResponseCaching.ContentlessEntryRaisesAfterStart | agentorchestrator/middleware/cache.py:136-151 | an entry with status 200 and no headers but no content delivers the start with status 200, then raises |
| ResponseCaching.CapturedReplays | agentorchestrator/middleware/cache.py:136-183 | a captured response replays with its status, headers and joined body |
| ResponseCaching.ResponseCache.GetCachedResponse | agentorchestrator/middleware/cache.py:75-95 | a disabled cache or an excluded path never hits |
| ResponseCaching.ResponseCache.CacheResponse | agentorchestrator/middleware/cache.py:97-115 | a disabled cache or an excluded path stores nothing; otherwise a non-positive TTL makes SETEX raise and stores nothing, and a positive TTL stores the response under its key, where it reads back as a hit until it expires |
| ResponseCaching.ResponseCache.Serve | agentorchestrator/middleware/cache.py:117-185 | a truthy hit is replayed (`Replay`, which may raise before or after the start) without touching the store; an unreadable entry raises; on a miss or a falsy hit the response passes through and is stored only when its status is below 400; when storing it with a non-positive TTL, the call raises after the response was sent |
| Auth.ErrorBody | agentorchestrator/middleware/auth.py:163-171 | the error body holds exactly `detail` and `status_code` |
| Auth.AuthMiddleware.Validate | agentorchestrator/middleware/auth.py:66-93 | a cached entry answers first; otherwise the `api_keys` hash; an unknown key gives nothing; a non-positive TTL makes the cache write fail |
| Auth.AuthMiddleware.ValidateApiKey | agentorchestrator/middleware/auth.py:66-93 | returns `Validate`; fills the `auth:api_key:{key}` cache only on a hash hit, after which lookups within the TTL come from the cache with the same answer |
| Auth.AuthMiddleware.KeyToValidate | agentorchestrator/middleware/auth.py:108-121 | only a non-bypassed request with a non-empty key header is validated |
| Auth.AuthMiddleware.Decide | agentorchestrator/middleware/auth.py:95-128 | public paths and OPTIONS pass; `Missing API key` exactly when a checked request lacks the header; `Invalid API key` exactly when validation gives nothing truthy; every denial is 401; a pass carries the validated data; the call raises exactly when the cache write is refused |
| Auth.AuthMiddleware.CheckAuth | agentorchestrator/middleware/auth.py:95-128 | returns `Decide`; the store changes only when validation fills the cache |
| Auth.AuthMiddleware.Serve | agentorchestrator/middleware/auth.py:130-175 | a denial becomes a JSON response with its status and `ErrorBody`; a pass forwards with the key data on the request state; the store changes only when validation fills the key's cache entry |
| Auth.DefaultPublicPathsPass | agentorchestrator/middleware/auth.py:17-111 | under the default configuration the public paths and OPTIONS pass without validation |
| Integration.Admits | agentorchestrator/security/integration.py:148-150 | `client_ip in whitelist` is list membership for a list; it raises a TypeError for null, booleans and numbers, and for a string allow-list when there is no client address |
| Integration.SecurityIntegration.KeyRole | agentorchestrator/security/integration.py:133-139 | a role is only looked up for a request that carries a key, with the RBAC manager present |
| Integration.SecurityIntegration.Screen | agentorchestrator/security/integration.py:133-200 | in enterprise mode the enterprise screening; otherwise a stop exactly when a key is present in the wrong format, with 401 `Unauthorized: Invalid API key`, no note and the request state untouched |
| Integration.SecurityIntegration.ScreenEnterprise | agentorchestrator/security/integration.py:133-190 | a 403 stop happens exactly when the allow-list refuses the address; without a stored role the request proceeds with the key on the request state |
| Integration.SecurityIntegration.Dispatch | agentorchestrator/security/integration.py:110-224 | bypass paths pass untouched; 403 exactly on an enterprise allow-list refusal; 401 exactly on a key of the wrong format outside enterprise mode; 500 exactly when the rest of the chain fails after screening; nothing else is answered; an enterprise key without a stored role proceeds with the key on the request state |
| Integration.SecurityIntegration.CheckPermissionDependency | agentorchestrator/security/integration.py:226-279 | RBAC off allows; no key on the request state gives 401 `Authentication required`; a missing manager raises; otherwise allowed exactly when the key is a string the manager grants the permission to, else 403 `Permission denied: {permission} required`; a 403 records one access-denied note, whatever the key, exactly when an audit logger exists |
| Integration.KeylessRequestLeavesNullKey | agentorchestrator/security/integration.py:133-190 | in enterprise mode, a request without a key header is forwarded with JSON null as its key on the request state, not with the key absent |
| Integration.ListedAddressPasses | agentorchestrator/security/integration.py:140-190 | a key whose allow-list lists the client address passes, with its role on the request state |
| ApiSecurity.Dispatch | agentorchestrator/api/middleware.py:39-90 | security off: forwards, and lets an application failure propagate; security layer installed: forwards, or answers 500 `Internal security error` on failure; a key put on the request state is the header's key and has a valid format |
| ApiSecurity.RefusalsExactly | agentorchestrator/api/middleware.py:56-90 | with security on and no security layer: `API key required` exactly when a request with a client address has no key; `Invalid API key` exactly when its key has the wrong format; `Internal server error` exactly when a well-formed key's request fails downstream |
| ApiSecurity.IsValidApiKey | agentorchestrator/api/middleware.py:92-101 | a key this check accepts also passes the security dispatch's legacy format check |
| ApiSecurity.LegacyFormatIsLooser | agentorchestrator/api/middleware.py:92-101 | the inclusion is strict: `aorbit_key` passes the security dispatch's legacy check and fails this one |
| ApiSecurity.MintedKeysAreValid | agentorchestrator/api/middleware.py:92-101 | every key the role manager mints passes this check |
| Batch.ObjectsRoundTrip | agentorchestrator/batch/processor.py:16-26 | the job's inputs survive serialisation |
| Batch.JobDocRoundTrip | agentorchestrator/batch/processor.py:16-86 | a saved job parses back to itself |
| Batch.ItemResult | agentorchestrator/batch/processor.py:100-108 | a success entry holds the data; an error entry holds the message |
| Batch.JobKey | agentorchestrator/batch/processor.py:43-52 | the key is `batch:job:` followed by the id, so the id can be read back from it |
| Batch.JobFromDoc | agentorchestrator/batch/processor.py:74-86 | a job parsed from a document has the document's id, agent, status, creation time and error |
| Batch.BatchJob.constructor | agentorchestrator/batch/processor.py:16-26 | a new job is pending, with no results, completion time or error |
| Batch.QueueIsFifo | agentorchestrator/batch/processor.py:70-139 | with LPUSH and RPOP, ids come off the queue in the order they were pushed |
| Batch.DrainPushed | agentorchestrator/batch/processor.py:70-139 | a pushed id comes off after everything already queued |
| Batch.RunInputs | agentorchestrator/batch/processor.py:98-108 | one result per input, in input order, each from that input alone |
| Batch.BatchProcessor.SaveJob | agentorchestrator/batch/processor.py:123-125 | the job's record replaces the saved one, and `get_job` returns it |
| Batch.Fetch | agentorchestrator/batch/processor.py:74-86 | a job is found only from stored text that parses to a well-formed job document |
| Batch.BatchProcessor.GetJob | agentorchestrator/batch/processor.py:74-86 | a job is found only from the live `batch:job:{id}` entry, parsed to a well-formed job document |
| Batch.BatchJob.FromRecord | agentorchestrator/batch/processor.py:145-147 | a job rebuilt from a fetched record has exactly that record |
| Batch.BatchProcessor.SubmitJob | agentorchestrator/batch/processor.py:54-72 | the job is saved pending without expiry and its id is pushed onto the queue; no other string, hash, set or sorted set changes; `get_job` finds it |
| Batch.BatchProcessor.ProcessJob | agentorchestrator/batch/processor.py:88-121 | the job is saved as processing, then completed at `now` with one result per input in input order and saved again; an exception from the first save fails the job with its message; either way only the job's entry changes, it loses any expiry, and `get_job` returns the final record |
| Batch.BatchProcessor.LoopTurn | agentorchestrator/batch/processor.py:136-160 | an empty queue changes nothing; otherwise the oldest id is taken off; an empty id is skipped with nothing else changed; any other id is handled as `HandledAs` its fetched job says, a found job's entry becoming its `Settled` record and nothing else changing |
| Batch.SettledSpec | agentorchestrator/batch/processor.py:145-160 | a settled job keeps its identity and inputs; with no workflow it fails with `Agent {agent} not found` and no results; otherwise it completes at `now` with one result per input, in order |
| Batch.BatchProcessor.HandleJob | agentorchestrator/batch/processor.py:145-158 | the outcome is `HandledAs` of the fetched job; no data and stored text that does not parse write nothing, the latter raising out of the loop; a found job is saved as its `Settled` record, only its entry changing, and `get_job` returns that record |
| Batch.BatchProcessor.StartProcessing | agentorchestrator/batch/processor.py:165-180 | turns processing on; a no-op when already on |
| Batch.BatchProcessor.StopProcessing | agentorchestrator/batch/processor.py:182-190 | turns processing off; a no-op when already off |
| Encryption.NewEncryptor | agentorchestrator/security/encryption.py:24-41 | a given key that is empty or blank is refused with `Encryption key cannot be empty`; a key the cipher rejects is refused; with no key, the generated one is used |
| Encryption.InitializeEncryption | agentorchestrator/security/encryption.py:79-102 | an unset or empty variable is reported as not found; a constructor failure is wrapped in an EncryptionError |
| Encryption.FieldRoundTrip | agentorchestrator/security/encryption.py:105-141 | a value encrypted as a field decrypts to its text |
| Encryption.FieldEncrypt | agentorchestrator/security/encryption.py:116-125 | a string is encrypted as itself; any other value as its `str()` text |
| Encryption.FieldDecrypt | agentorchestrator/security/encryption.py:127-141 | with a cipher that inverts, the encryption of a text decrypts to that text |
| Encryption.EncryptSensitiveData | agentorchestrator/security/encryption.py:155-173 | the loop over the listed fields computes `EncryptFields` on a copy |
| Encryption.DecryptSensitiveData | agentorchestrator/security/encryption.py:175-202 | the loop over the listed fields computes `DecryptFields` on a copy |
| Encryption.SweepSpec | agentorchestrator/security/encryption.py:167-200 | a sweep keeps the key set, leaves unlisted, absent and null fields alone, and transforms each field listed once |
| Encryption.EncryptFieldsSpec | agentorchestrator/security/encryption.py:167-173 | same keys; unlisted, absent and null fields unchanged; each listed value becomes `encrypt(str(value))` |
| Encryption.DecryptFieldsSpec | agentorchestrator/security/encryption.py:187-200 | same keys; unlisted, absent and null fields unchanged; each field listed once becomes its decryption, and null when decryption fails |
| Encryption.RoundTrip | agentorchestrator/security/encryption.py:167-200 | decrypting what was encrypted gives each value's text back, parsed where it is JSON, so a non-JSON string comes back unchanged |
| RouteValidation.TopicInput | src/routes/validation.py:8-11 | accepted exactly when `topic` is a string, keeping only the topic |
| RouteValidation.ValidateRouteInput | src/routes/validation.py:22-63 | `fun_fact_city` takes strings only; `cityfacts` takes objects with a string topic; every other route is `Unknown route: {name}`; every failure is an AgentValidationError |
| RouteValidation.ValidationIdempotent | src/routes/validation.py:22-63 | validated input validates again to itself |
| StateStore.Apply | agentorchestrator/state/base.py:43-49 | `set` stores the value under the key; `delete` removes the key; no other key changes |
| StateStore.ExistsIffLastPut | agentorchestrator/state/base.py:39-53 | after any history of updates, a key exists exactly when its last update set it, and holds that value |
| StateStore.LastOf | agentorchestrator/state/base.py:39-53 | the last update to a key is one of the updates, and to that key |
| StateStore.ReplaySnoc | agentorchestrator/state/base.py:43-49 | replaying one more update applies it to the replayed state |
| StateStore.InMemoryStateManager.Get | agentorchestrator/state/base.py:39-41 | the value when the key exists, else None |
| StateStore.InMemoryStateManager.Exists | agentorchestrator/state/base.py:51-53 | a key exists exactly when `get` finds a value |
| StateStore.InMemoryStateManager.Set | agentorchestrator/state/base.py:43-45 | the key now holds the value; nothing else changes |
| StateStore.InMemoryStateManager.Delete | agentorchestrator/state/base.py:47-49 | the key is gone; deleting an absent key changes nothing |
| Tools.NamesAfter | agentorchestrator/tools/base.py:42-44 | a new name is listed last; a known name keeps its place |
| Tools.LastIndex | agentorchestrator/tools/base.py:42-48 | the last registration under a name |
| Tools.RegisterAllSpec | agentorchestrator/tools/base.py:42-52 | after any sequence of registrations, each name is listed once in first-registration order, and holds the last tool registered under it |
| Tools.ToolRegistry.Register | agentorchestrator/tools/base.py:42-44 | the tool replaces any earlier one under its name; the registry stays consistent |
| Tools.ToolRegistry.GetTool | agentorchestrator/tools/base.py:46-48 | the tool under the name, or None |
| Tools.ToolRegistry.ListTools | agentorchestrator/tools/base.py:50-52 | every registered name, exactly once |
| Tools.ToolRegistry.GetToolSchema | agentorchestrator/tools/base.py:54-63 | None for an unknown name; otherwise the tool's name, description and parameters |

## Left out

- The Redis server is modelled by the meaning of its commands, not by its code.
  Connection errors, WRONGTYPE errors and pipeline atomicity are not modelled;
  a pipeline is taken as its commands in order.
- The processor and the security integration mix awaited and non-awaited calls
  on one client. Every store call is taken as completing.
- The audit-helper calls inside the security integration pass arguments that do
  not match the audit helpers' signatures. They are recorded as abstract audit
  notes, and the argument errors they would raise are not modelled.
- Floating-point time: clocks are whole seconds. The one exception is the
  `has_permission` clock, a real number compared with the stored expiration.
- All sorted-set scores of one audit event are one score parameter, where the
  source calls `time.time()` again for each index.
- The rate limiter's `burst_limit` setting is carried as `burstLimit` in the configuration but, as in the code, never consulted.
- The rate limiter's `EXPIRE key 60` is not modelled. `RateLimit.WindowExpiryUnobservable`
  shows that it cannot change a verdict.
- `mask_pii` is left out, because its regular expressions are outside the model.
- Fernet and base64 are left out. The cipher is a parameter, with its round trip
  stated as a precondition.
- How `str()` renders non-string values is a parameter, and so is how
  `json.loads` parses decrypted text.
- The text of pydantic validation errors, quoted in the cityfacts error message,
  is a parameter.
- Pydantic defaults for missing job fields and datetime formats are left out.
  Timestamps are whole seconds. A stored job that lacks a field, or holds one
  of the wrong type, counts as malformed.
- Python's duck typing on stored documents is left out. A role or API-key
  document with a field of an unexpected type decodes as nothing, where Python
  might accept it or raise later.
- The ASGI plumbing is abstracted. Header order and duplicate headers, streamed
  bodies, and non-HTTP scopes are not modelled; a non-HTTP scope passes through
  untouched in every middleware.
- The processor thread and its event loop (`_processor_loop`), and the one-second
  sleeps, are left out. One turn of the loop body is modelled.
- The application wiring is not part of this model: `initialize_security`,
  `initialize_rbac`, `initialize_audit_logger`, `require_permission` and the
  middleware factories.
- The audit event type's text in the type-index key is the enum's value, as
  older Python versions format a `str` enum.
- Encryption.EncryptFieldsSpec: the per-field result is stated for fields listed
  once. A field listed twice is encrypted twice, and that is left as the sweep
  definition states it.
- Encryption.RoundTrip: stated for a field list without repeats.
- Encryption.DecryptFieldsSpec: the per-field result is stated for fields listed
  once. A field listed twice is decrypted twice, and that is left as the sweep
  definition states it.
- ResponseCaching.ResponseCache.Serve: builds its key with `CacheKey`, the
  corrected fingerprint that reads the request body. As written, a POST or PUT
  to a cached path raises while the key is made (see "## Findings"); the
  as-written behaviour is `ResponseCaching.KeyAsWritten`.
- ResponseCaching.ResponseCache.GetCachedResponse: builds its key with
  `CacheKey` too, so as written it raises for a POST or PUT where the model
  looks the key up.
- ResponseCaching.ResponseCache.CacheResponse: builds its key with `CacheKey`
  too, so as written it raises for a POST or PUT where the model stores the
  response.
- ResponseCaching.ResponseCache.Serve: response bodies and headers are taken as
  UTF-8 text. A response whose body or header bytes are not UTF-8 makes the
  source raise a UnicodeDecodeError after the response went out, storing
  nothing; the model delivers it and stores it.
- StateStore.InMemoryStateManager.Get: Python's `get` also returns None for a
  key that holds None; the model's `Option` keeps a stored null apart from a
  missing key, and `Exists` agrees with the model's `Get`.
- Audit.AuditLogger.LogEvent: returns the given id. Generating a uuid is left to
  the caller.

## Findings

| source | as written | input that shows it | evidently intended | confidence | as-written member | corrected member |
|---|---|---|---|---|---|---|
| agentorchestrator/middleware/rate_limiter.py:61 | each request is recorded as the member `str(current_time)`, so all requests in one second share one sorted-set entry, and a window never holds more than 60 entries | 62 requests from one address within the same second under the default limit of 60: all are allowed | one entry per request, so the request after the limit is rejected | not executed | RateLimit.DefaultLimitNeverRejects, RateLimit.SameSecondBurstAsWritten | RateLimit.RateLimiter.CheckRateLimitPerRequest, RateLimit.PerRequestRefusesOverLimit |
| agentorchestrator/middleware/cache.py:53-131 | `__call__` builds `Request(scope)` without the receive channel, and `_get_cache_key` awaits the body of every POST and PUT, so the key cannot be made | a POST to a path that is not excluded, with caching enabled: the body read raises a RuntimeError before the application runs | POST and PUT bodies become part of the key, as the comment at cache.py:68 says | not executed | ResponseCaching.KeyAsWritten, ResponseCaching.WritesRaiseAsWritten | ResponseCaching.CacheKey, ResponseCaching.BodyCountsForWritesOnly |
