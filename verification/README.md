# goscratch: verified models of its stateful components

A Dafny model of the parts of the goscratch server that keep state over time, with proofs about every
run of them:

- **Authorization** (`Rbac.dfy`, `DecisionCache.dfy`, `Authorizer.dfy`): RBAC decisions with role
  inheritance, cycles and wildcards, memoised in an LRU cache that policy changes invalidate by subject
  or flush. The memoised answers are compared with the uncached matcher over whole runs.
- **Refresh tokens** (`RefreshTokens.dfy`): Login, Refresh, Logout, RevokeAllForUser and ChangePassword
  as concurrent calls whose single cache operations interleave, fail and expire in any way.
- **Rate limiting** (`RateLimit.dfy`): a sliding window over complete histories, and the in-memory
  backend and the Redis script that refine it.
- **Pagination** (`Pagination.dfy`): keyset pages over the users table, on a fixed table and on one that
  changes between requests.
- **Jobs and the AMQP consumer** (`Worker.dfy`, `Consumer.dfy`): shutdown of the worker, retries and
  their delays, the delivery loop with reconnection.
- **Server-sent events** (`Broker.dfy`, `EventStream.dfy`): channel lifecycle and lossy delivery in the
  broker, and the stream text against the interpretation in section 9.2.6 of the WHATWG HTML standard.

Each component has a specification on values (what one call or one step does, and runs of them), lemmas
about all runs, and, where the program updates things in place, classes and methods proved to do what
the specification says. `dafny verify dfyconfig.toml` checks everything.

## Properties that are false, with their exact conditions

- A `*ForUser` mutation drops only the cached decisions of that user. Cached answers stay right if and
  only if the subjects that inherit the user have the granted or revoked decisions anyway (`Authorizer.SafetyIsExact`);
  `Authorizer.DirectGrantToInheritedRoleIsStale` is an instance of the failure.
- Refresh ignores failures of its two deletions. The token it was given is dead once a Refresh on its own
  has returned if and only if one of them took effect (`RefreshTokens.TokenOutlivesRefreshIff`); in every
  interleaving, one effective deletion is enough against Refreshes that begin after the return
  (`RefreshTokens.SpentTokenIsRefused`).
- Logout reports success whatever happens. Alone, it leaves a live token of the caller live if and only if
  its read or both of its deletions failed (`RefreshTokens.TokenOutlivesLogoutIff`); otherwise it is final in
  every interleaving (`RefreshTokens.LogoutIsFinal`).
- A token is not single-use, nor a revocation a barrier, for calls that are already under way. Once a
  token is dead, a Refresh of it that has not returned can still issue a live token if and only if it is
  past the check of the index key, with the lookup key it may have written still there, or is about to
  check and finds the index key (`RefreshTokens.InFlightCanIssueIff`); after a revocation that covers
  Logins as well (`RefreshTokens.InFlightAcrossRevocation`). `RefreshTokens.OverlappingRefreshesBothIssue`
  and `RefreshTokens.RefreshOutlivesRevocation` are runs in which that happens.
- The Redis script uses the time as the member of the sorted set. On a key, over any run under a clock
  that never goes back, whatever would come next gets the specified answer at every moment if and only if
  no two requests on it are allowed at the same instant one after the other
  (`RedisLimiter.RedisIsExactlyWithoutRepeats`; `RedisLimiter.RedisIsExactlyUnlessTied` in terms of the
  sorted set). `RedisLimiter.TiedRequestsExceedTheRate` is an instance of the failure. The retry time after
  a refusal is exact with or without such ties (`RedisLimiter.RetryAfterIsExact`).
- The WaitGroup of the worker does not cover handlers. After the wait of a Shutdown has returned, with no
  Start since, no handler is running or ever will be if and only if every delivery goroutine has stopped
  (`WorkerShutdown.HandlersAreOverIff`); `WorkerShutdown.HandlerMayOutliveShutdown` is a run in which a
  handler is still running when Shutdown has returned nil.
- A retry delay fits 64 bits if and only if the attempt is at most 96038 (`JobRetries.DelayIsExact`).
- The event stream conveys events that have data if and only if no field has a line break and no id a
  NUL (`EventStream.RoundTripExactlyWhenClean`).

Where comments in the program and its code disagree, the model follows the code: RevokeAllForUser and
ChangePassword are described as deleting both keys of a session, but only index keys are deleted
(`RefreshTokens.OthersAreUntouched`, `RefreshTokens.PurgeIsExact`); the WaitGroup of the worker is
described as covering the consumers' active window, but covers only the goroutines that wait for
cancellation.

## Model

| member | source | states |
|---|---|---|
| `Rbac.PathSplitsAtLink` | internal/adapter/casbin/casbin.go:73-88 | a path over the links plus `u -> r` either exists without the new link, or its start already reaches `u` and `r` its end, however often the path uses the link |
| `Rbac.ReachesAfterAddLink` | internal/adapter/casbin/casbin.go:73-88 | both directions: exactly which inheritance a new grouping link creates, cycles included |
| `Rbac.AllowedAfterAddLink` | internal/adapter/casbin/casbin.go:73-88 | a link out of `u` changes only decisions of subjects reaching `u`, and adds exactly what the role is allowed |
| `Rbac.AllowedAfterAddRule` | internal/adapter/casbin/casbin.go:73-88 | a rule on `u` changes only decisions of subjects reaching `u`, on the requests it covers |
| `Rbac.AllowedPatternCoversAll` | internal/adapter/casbin/casbin.go:73-88 | a subject allowed a rule's pattern is allowed everything that pattern covers |
| `DecisionCache.CacheKeyInjective` | internal/adapter/casbin/cache.go:40-49 | NUL-free triples with the same key are the same triple |
| `DecisionCache.PrefixRecognisesSubject` | internal/adapter/casbin/cache.go:113-126 | the prefix test holds of exactly the keys of that subject |
| `DecisionCache.LookupAfterPut` | internal/adapter/casbin/cache.go:78-99 | after a put the key reads the new value; any other key reads its old value or nothing |
| `DecisionCache.LookupAfterGet` | internal/adapter/casbin/cache.go:56-72 | promotion on a hit changes no later lookup |
| `DecisionCache.LookupAfterInvalidate` | internal/adapter/casbin/cache.go:113-126 | exactly the subject's entries are forgotten, all others still read the same |
| `DecisionCache.PutKeyShape` | internal/adapter/casbin/cache.go:78-110 | a put leaves the stored entry in front of the most recent other entries that fit, in order, within the capacity |
| `DecisionCache.TouchKeepsInclusion` | internal/adapter/casbin/cache.go:56-110 | one lookup in a small and a large cache keeps the small one's keys a prefix of the large one's |
| `DecisionCache.Cache.constructor` | internal/adapter/casbin/cache.go:29-35 | an empty cache of that size |
| `DecisionCache.Cache.MapAgreesWithList` | internal/adapter/casbin/cache.go:15-25 | looking a key up in the map is looking it up in the recency list |
| `DecisionCache.Cache.Get` | internal/adapter/casbin/cache.go:56-72 | reply and new recency list of a lookup; map and list stay in bijection |
| `DecisionCache.Cache.MoveToFront` | internal/adapter/casbin/cache.go:70-70 | the element goes first, the rest keeps its order |
| `DecisionCache.Cache.Put` | internal/adapter/casbin/cache.go:78-99 | new recency list of a put in all cases: disabled or NUL, present, full, room |
| `DecisionCache.Cache.Overwrite` | internal/adapter/casbin/cache.go:88-92 | the value changes through the shared element and the entry goes first |
| `DecisionCache.Cache.PushFront` | internal/adapter/casbin/cache.go:96-98 | a new entry in front of all others, in map and list |
| `DecisionCache.Cache.EvictLRU` | internal/adapter/casbin/cache.go:102-109 | exactly the least recently used entry leaves both structures |
| `DecisionCache.Cache.InvalidateSub` | internal/adapter/casbin/cache.go:113-126 | whatever the order of iteration, exactly the entries with the prefix are gone and the others keep their order |
| `DecisionCache.Cache.Unlink` | internal/adapter/casbin/cache.go:122-123 | one entry leaves both structures, the others keep their order |
| `DecisionCache.Cache.Flush` | internal/adapter/casbin/cache.go:130-138 | the cache is empty unless it is disabled |
| `Authorizer.UninheritedUserIsSafe` | internal/adapter/casbin/casbin.go:278-377 | a user nobody else inherits is a safe target of every `*ForUser` method |
| `Authorizer.PolicyAfterIsMeant` | internal/adapter/casbin/casbin.go:278-397 | the policy after a call is exactly the one with that one link or rule more or less (or the stored or updated one), stated by membership; a rejected or failed call leaves it |
| `Authorizer.MutationReplies` | internal/adapter/casbin/casbin.go:278-397 | Ok for an accepted mutation that works; an invalid argument or an enforcer error is reported and changes nothing |
| `Authorizer.SafeIffOthersUnchanged` | internal/adapter/casbin/casbin.go:278-377 | in all four `*ForUser` methods, safety is exactly that no other subject's decision changes |
| `Authorizer.StepKeepsCoherent` | internal/adapter/casbin/casbin.go:205-397 | every safe call keeps each cached decision equal to the matcher on the new policy |
| `Authorizer.EnforceAnswers` | internal/adapter/casbin/casbin.go:244-273 | from a coherent cache: a cancelled caller gets nothing, any other the decision of the matcher, or the error of the enforcer if the decision was not cached |
| `Authorizer.EnforceAfterCall` | internal/adapter/casbin/casbin.go:244-397 | after a safe call an Enforce on anything is answered by the policy that the call is meant to lead to |
| `Authorizer.RevokedRole` | internal/adapter/casbin/casbin.go:291-300 | what revoking a role takes away: before it a subject was allowed what it still is, and through the user what the role still is |
| `Authorizer.LastRoleRevoked` | internal/adapter/casbin/casbin.go:291-300 | a user whose only role is revoked is allowed exactly what the rules of that user cover |
| `Authorizer.StepKeepsBounded` | internal/adapter/casbin/cache.go:78-99 | no call makes the cache exceed its capacity |
| `Authorizer.RunKeepsCoherent` | internal/adapter/casbin/casbin.go:205-397 | coherence over every run of safe calls |
| `Authorizer.CachedRunAgreesUncached` | internal/adapter/casbin/casbin.go:205-397 | over every run of safe calls in which no Enforce meets an enforcer error (a hit would hide it), all replies equal those of the adapter without a cache |
| `Authorizer.ProbeUnfolds` | internal/adapter/casbin/casbin.go:278-376 | asked before and after a `*ForUser` call on somebody else, a request gets its old answer again |
| `Authorizer.SafetyIsExact` | internal/adapter/casbin/casbin.go:278-376 | a call is safe if and only if no request asked before and after it gets a wrong answer |
| `Authorizer.DirectGrantToInheritedRoleIsStale` | internal/adapter/casbin/casbin.go:355-364 | a concrete policy and grant after which a cached answer is wrong |
| `Authorizer.StepKeepsInclusion` | internal/adapter/casbin/casbin.go:205-397 | every call keeps the smaller cache's keys a prefix of the larger's |
| `Authorizer.SmallerCacheIsIncluded` | internal/adapter/casbin/cache.go:56-138 | over every run with policy changes and no enforcer error in Enforce, each hit of a smaller cache is a hit of a larger one |
| `Authorizer.Adapter.constructor` | internal/adapter/casbin/casbin.go:144-159 | the loaded policy, an empty cache, and its size for zero, negative and positive settings |
| `Authorizer.Adapter.Enforce` | internal/adapter/casbin/casbin.go:244-273 | reply and new state of the specification: cancelled, hit, enforcer error (not cached), miss |
| `Authorizer.Adapter.AddRoleForUser` | internal/adapter/casbin/casbin.go:278-287 | the specification's step, with rejected arguments and enforcer errors changing nothing |
| `Authorizer.Adapter.RemoveRoleForUser` | internal/adapter/casbin/casbin.go:291-300 | the same for removing a role |
| `Authorizer.Adapter.AddPermissionForRole` | internal/adapter/casbin/casbin.go:323-332 | the same for granting to a role, with a flush |
| `Authorizer.Adapter.RemovePermissionForRole` | internal/adapter/casbin/casbin.go:337-346 | the same for revoking from a role, with a flush |
| `Authorizer.Adapter.AddPermissionForUser` | internal/adapter/casbin/casbin.go:355-364 | the same for a direct grant |
| `Authorizer.Adapter.RemovePermissionForUser` | internal/adapter/casbin/casbin.go:368-377 | the same for revoking a direct grant |
| `Authorizer.Adapter.LoadPolicy` | internal/adapter/casbin/casbin.go:391-397 | the stored policy with an empty cache, or on error no change |
| `Authorizer.Adapter.ApplyUpdate` | internal/adapter/casbin/casbin.go:205-231 | any policy a watcher message leads to, with an empty cache, or no change if it led to a reload that failed |
| `RefreshTokens.PlainPatternIsPrefix` | internal/adapter/cache/redis.go:69-69 | a glob pattern of plain text and a star matches exactly what begins with the text |
| `RefreshTokens.ScanIsExact` | internal/module/auth/usecase/auth_usecase.go:235-238 | a scan for an id without glob characters returns exactly its index keys and those of users whose id continues it after a colon |
| `RefreshTokens.OwnScanOnly` | internal/module/auth/usecase/auth_usecase.go:235-238 | with colon-free user ids, exactly its own index keys |
| `RefreshTokens.PurgeIsExact` | internal/adapter/cache/redis.go:66-84 | a successful DeleteByPrefix removes exactly the index keys of the user; a failed one removes no other key |
| `RefreshTokens.PurgeStopsAtFailure` | internal/adapter/cache/redis.go:66-84 | the keys of all rounds before the first failing SCAN or DEL are deleted and no others; success exactly if no round fails |
| `RefreshTokens.RedisStore.DeleteByPrefix` | internal/adapter/cache/redis.go:66-84 | the store and verdict of the scan loop for every sequence of replies and failures |
| `RefreshTokens.StepEvolves` | internal/module/auth/usecase/auth_usecase.go:82-238 | any step writes only keys of a token its own call is issuing, logs every removal, never changes an owner and moves no other call |
| `RefreshTokens.StepKeepsInv` | internal/module/auth/usecase/auth_usecase.go:82-238 | the protocol invariant is kept by every operation of every call, every failure and every expiry |
| `RefreshTokens.RunKeepsInv` | internal/module/auth/usecase/auth_usecase.go:82-238 | and so by every interleaving |
| `RefreshTokens.DeadForever` | internal/module/auth/usecase/auth_usecase.go:140-200 | a token with a missing key and no pending write never becomes usable again |
| `RefreshTokens.DeadTokenIsRefused` | internal/module/auth/usecase/auth_usecase.go:140-166 | every Refresh of such a token that begins later is refused in every continuation |
| `RefreshTokens.PursuitBegins` | internal/module/auth/usecase/auth_usecase.go:235-238 | a revocation that begins after the token was issued owes it its index key |
| `RefreshTokens.PursuitContinues` | internal/adapter/cache/redis.go:66-84 | that debt is kept through every interleaving with the scan, until success leaves no index key |
| `RefreshTokens.RevocationIsFinal` | internal/module/auth/usecase/auth_usecase.go:140-238 | after a RevokeAllForUser or ChangePassword that reported success, every token issued before it began is refused by every later Refresh, forever |
| `RefreshTokens.LeavingContinues` | internal/module/auth/usecase/auth_usecase.go:210-230 | what a Logout owes to its token is kept by every step of every run |
| `RefreshTokens.LogoutIsFinal` | internal/module/auth/usecase/auth_usecase.go:210-230 | in every interleaving, once a Logout by its owner has returned, every later Refresh of the token is refused, unless its read or both of its deletions failed |
| `RefreshTokens.InFlightCanIssueIff` | internal/module/auth/usecase/auth_usecase.go:140-200 | once a token is dead, a Refresh of it that has not returned has a continuation that issues a live token if and only if it is past the index check with its own lookup key, if written, in place, or about to make the check with the key present |
| `RefreshTokens.InFlightAcrossRevocation` | internal/module/auth/usecase/auth_usecase.go:82-238 | when a revocation for a user has succeeded, of the Refreshes of a token issued before it and of the user's Logins that have not returned, exactly those past the check, with their lookup key in place if written, can still issue a live token |
| `RefreshTokens.OverlappingRefreshesBothIssue` | internal/module/auth/usecase/auth_usecase.go:140-200 | from every state with a live token, a run in which two Refreshes of it both issue live tokens |
| `RefreshTokens.RefreshOutlivesRevocation` | internal/module/auth/usecase/auth_usecase.go:140-238 | from every state with a live token, a run up to the success of a revocation, with the new token unknown, and its continuation in which a Refresh issues that token live |
| `RefreshTokens.SoloLoginRuns` | internal/module/auth/usecase/auth_usecase.go:82-129 | from every state, the initial one included, a Login on its own issues a live token |
| `RefreshTokens.IssuingLeaves` | internal/module/auth/usecase/auth_usecase.go:106-120 | what issuing a token leaves in the store for every outcome of its two writes and its clean-up |
| `RefreshTokens.LoginIssuesIff` | internal/module/auth/usecase/auth_usecase.go:82-129 | alone, a Login issues a live token if and only if both writes work; a lookup key is left behind only if the second write and the clean-up failed |
| `RefreshTokens.FailedIssueLeavesNoLiveToken` | internal/module/auth/usecase/auth_usecase.go:106-120 | an error from Login or Refresh leaves the generated token dead, whichever writes and clean-ups failed |
| `RefreshTokens.SpentTokenIsRefused` | internal/module/auth/usecase/auth_usecase.go:166-200 | after a Refresh returned with one deletion effective, every later Refresh of the same token is refused |
| `RefreshTokens.KeysNameTheOwner` | internal/module/auth/usecase/auth_usecase.go:58-76 | in every reachable state, lookup values and index keys name only the user the token was issued to |
| `RefreshTokens.OthersAreUntouched` | internal/module/auth/usecase/auth_usecase.go:210-238 | no operation of a Logout or revocation for `u` changes whether another user's token is live, and revocation removes no lookup key |
| `RefreshTokens.SoloRefreshRuns` | internal/module/auth/usecase/auth_usecase.go:140-200 | the store, the owners and the outcome of a Refresh on its own, for each outcome of its deletions |
| `RefreshTokens.TokenOutlivesRefreshIff` | internal/module/auth/usecase/auth_usecase.go:166-168 | after a Refresh on its own the new token is live, and the old one is if and only if both deletions failed |
| `RefreshTokens.TokenOutlivesLogoutIff` | internal/module/auth/usecase/auth_usecase.go:210-230 | alone, a Logout leaves a live token live if and only if the caller is not its owner, the read failed or both deletions failed; every other token stays as it was |
| `RefreshTokens.RefreshAcceptsIff` | internal/module/auth/usecase/auth_usecase.go:140-166 | alone, a Refresh gets past its checks if and only if the token is live and no read fails; otherwise it is refused and nothing has changed |
| `RefreshTokens.RevocationEndsSessions` | internal/module/auth/usecase/auth_usecase.go:235-238 | alone, RevokeAllForUser ends exactly the sessions of that user |
| `RefreshTokens.ChangeEndsSessionsIff` | internal/module/user/usecase/user_usecase.go:165-200 | alone, ChangePassword ends exactly the sessions of that user if there is a revoker, and none otherwise |
| `RefreshTokens.SwapConserves` | internal/module/auth/usecase/auth_usecase.go:166-192 | exchanging a token's keys for a new one's keeps each user's number of live tokens |
| `RefreshTokens.RefreshConservesSessions` | internal/module/auth/usecase/auth_usecase.go:140-200 | a successful Refresh on its own swaps exactly one live token of the owner and nobody else's |
| `SlidingWindow.SpecRunKeepsRate` | internal/platform/http/middleware/rate_limit.go:117-151 | the specification keeps every window of every history within the limit |
| `SlidingWindow.HistoryIsAllowedTimes` | internal/platform/http/middleware/rate_limit.go:117-151 | the history a run ends with is the initial one followed by the times of its allowing replies |
| `SlidingWindow.AllowedRateIsBounded` | internal/platform/http/middleware/rate_limit.go:117-151 | at every instant, the window ending there holds at most the limit of allowed requests |
| `SlidingWindow.SpecAnswersExactly` | internal/platform/http/middleware/rate_limit.go:117-151 | in every run a request is allowed if and only if fewer than max were allowed on its key in the window that ends with it, with the exact remaining count |
| `MemoryLimiter.SweepKeepsTracking` | internal/platform/http/middleware/rate_limit.go:153-172 | what the janitor drops could not have counted any more |
| `MemoryLimiter.MemoryRefinesSpec` | internal/platform/http/middleware/rate_limit.go:117-172 | under a nondecreasing clock the replies are those of the specification, with sweeps anywhere |
| `MemoryLimiter.MemoryRateIsBounded` | internal/platform/http/middleware/rate_limit.go:117-172 | for every key, run and instant at most the limit is allowed in the window |
| `MemoryLimiter.MemoryAnswersExactly` | internal/platform/http/middleware/rate_limit.go:117-172 | the same of the in-memory backend, which prunes and forgets, sweeps anywhere |
| `MemoryLimiter.JanitorForgetsIdleKeys` | internal/platform/http/middleware/rate_limit.go:153-172 | in every run, after a sweep exactly the keys asked about within the last window are held |
| `MemoryLimiter.Compact` | internal/platform/http/middleware/rate_limit.go:131-137 | the in-place compaction of the array leaves exactly the timestamps after the cutoff, in order |
| `MemoryLimiter.SlidingWindowState.Prune` | internal/platform/http/middleware/rate_limit.go:131-138 | the window holds its recent timestamps only |
| `MemoryLimiter.SlidingWindowState.Append` | internal/platform/http/middleware/rate_limit.go:147-147 | one timestamp is added at the end, in the same array or a larger copy |
| `MemoryLimiter.SlidingWindowState.Record` | internal/platform/http/middleware/rate_limit.go:130-150 | new window and reply of a request, refused or recorded |
| `MemoryLimiter.MemoryBackend.constructor` | internal/platform/http/middleware/rate_limit.go:107-115 | no windows |
| `MemoryLimiter.MemoryBackend.Allow` | internal/platform/http/middleware/rate_limit.go:117-151 | all windows and the reply are those of the functional step; windows never share an array |
| `MemoryLimiter.MemoryBackend.Create` | internal/platform/http/middleware/rate_limit.go:125-129 | an unknown key gets an empty window of its own |
| `MemoryLimiter.MemoryBackend.Record` | internal/platform/http/middleware/rate_limit.go:130-150 | the key's window changes as specified and no other window does |
| `MemoryLimiter.MemoryBackend.Cleanup` | internal/platform/http/middleware/rate_limit.go:158-167 | whatever the order of iteration, exactly the windows past their expiry are gone |
| `RedisLimiter.TimeToLive` | internal/adapter/cache/redis.go:168-168 | the time to live covers the window and exceeds it by less than a millisecond |
| `RedisLimiter.KeyLivesForWindow` | internal/adapter/cache/redis.go:145-171 | the key of an allowed request cannot expire within the window and can a millisecond later; a refusal does not prolong it |
| `RedisLimiter.EvictionKeepsTracking` | internal/adapter/cache/redis.go:168-168 | what an expired key held could not have counted any more |
| `RedisLimiter.TieIsNoticed` | internal/adapter/cache/redis.go:167-167 | after a request that is allowed at the time of the youngest member, another one at the same instant gets a wrong answer |
| `RedisLimiter.AnswersExactlyUnlessTied` | internal/adapter/cache/redis.go:145-171 | from any sorted set in step with a history: on a key, the answers are right at every moment of the run if and only if no allowed request on it is tied |
| `RedisLimiter.RedisIsExactlyUnlessTied` | internal/adapter/cache/redis.go:145-171 | the same from an empty store, under a clock that never goes back, with other keys, ties on them, sweeps and expiries as they come |
| `RedisLimiter.UntiedIffNoRepeat` | internal/adapter/cache/redis.go:145-171 | a run has no tie on a key if and only if no two requests on it are allowed at the same instant one after the other |
| `RedisLimiter.RedisIsExactlyWithoutRepeats` | internal/adapter/cache/redis.go:145-171 | the answers on a key are right at every moment if and only if the times its replies allow never repeat, or the window is empty |
| `RedisLimiter.StrictRequestsAreUntied` | internal/adapter/cache/redis.go:167-167 | requests on a key made at strictly increasing times are never tied, whatever happens on other keys |
| `RedisLimiter.SameTimesAllowed` | internal/adapter/cache/redis.go:145-171 | without ties on a key, exactly the requests on it are allowed that the specification allows, whatever happens on other keys |
| `RedisLimiter.RedisRefinesSpec` | internal/adapter/cache/redis.go:145-171 | without ties, all replies are those of the specification, with expiries anywhere |
| `RedisLimiter.BackendsAgree` | internal/adapter/cache/redis.go:145-171 | without ties, both backends give the same replies to every run |
| `RedisLimiter.BackendsAgreeOnStrictRequests` | internal/adapter/cache/redis.go:145-171 | in particular to every run with strictly increasing request times on each key |
| `RedisLimiter.RedisRateIsBounded` | internal/adapter/cache/redis.go:145-171 | for every key without ties, every run and every instant, at most the limit is allowed in the window |
| `RedisLimiter.TiedRequestsExceedTheRate` | internal/adapter/cache/redis.go:167-167 | a concrete run of equal times that is allowed more than the limit |
| `RedisLimiter.RetryIsExact` | internal/adapter/cache/redis.go:155-165 | a full window has room after the retry seconds and, if they are more than one, not a second earlier |
| `RedisLimiter.RunFormed` | internal/adapter/cache/redis.go:145-171 | in every run, tied or not, a key's members are ascending, no more than the limit, and in no window any more when the key expires |
| `RedisLimiter.FullAtRefusal` | internal/adapter/cache/redis.go:154-164 | at a refusal in any run the sorted set holds exactly the limit, the first member being the oldest |
| `RedisLimiter.SetStandsStill` | internal/adapter/cache/redis.go:145-171 | after a refusal and while nothing is allowed on the key, its answers depend on the members at the refusal only, through all prunings and expiries |
| `RedisLimiter.RetryAfterIsExact` | internal/adapter/cache/redis.go:155-165 | after a refusal in any run and nothing allowed meanwhile, a request after the retry seconds is allowed and one a second earlier, if they are more than one, refused |
| `RedisLimiter.RedisCache.RemoveUpTo` | internal/adapter/cache/redis.go:152-152 | the key keeps its recent members and its deadline, and disappears when none is left |
| `RedisLimiter.RedisCache.SlidingWindowAllow` | internal/adapter/cache/redis.go:145-197 | sorted sets, reply and retry seconds of the functional script |
| `Pagination.PageRespectsLimit` | internal/shared/domain/cursor.go:190-205 | no page is longer than its limit; a request with an unset limit is the one with 20, and one with more than 100 the one with 100 |
| `Pagination.ReverseInPlace` | internal/module/user/repository/user_repository.go:154-157 | the two-index loop leaves the array reversed |
| `Pagination.List` | internal/module/user/repository/user_repository.go:90-166 | one row more than the page on the requested side of the cursor, ascending in both directions |
| `Pagination.FetchedAfter` | internal/module/user/repository/sqlc/user.sql.go:128-137 | a forward fetch from an issued cursor is the next stretch of matching rows |
| `Pagination.FetchedBefore` | internal/module/user/repository/sqlc/user.sql.go:181-190 | a backward fetch is the stretch of matching rows that ends before the cursor |
| `Pagination.PageBehind` | internal/shared/domain/cursor.go:113-176 | a request with the next cursor of a row is the page that starts behind it, with exact flags and cursors |
| `Pagination.PageAhead` | internal/shared/domain/cursor.go:113-176 | a request with the prev cursor of a row is the page that ends before it, with exact flags and cursors |
| `Pagination.UserListPages` | internal/module/user/usecase/user_usecase.go:69-114 | every request with no cursor, or with the next or prev cursor of any row, is the page at the right offset |
| `Pagination.MoveByOffset` | internal/shared/domain/cursor.go:113-176 | following a cursor of a page moves by exactly one page, with exact flags and cursors |
| `Pagination.NavigationIsByOffset` | internal/module/user/usecase/user_usecase.go:69-114 | every page reached by issued cursors is the page at the offset the moves add up to |
| `Pagination.RoundTrips` | internal/module/user/usecase/user_usecase.go:69-114 | next-then-prev and prev-then-next exist and return to the same page |
| `Pagination.FlagsAreExact` | internal/shared/domain/cursor.go:113-176 | HasMore and HasPrev hold exactly when a matching row lies after or before the page |
| `Pagination.WalkIsOrdered` | internal/shared/domain/cursor.go:113-176 | whatever changes between requests, a walk returns strictly ascending ids, and each page rows that matched in the very table its request was made against |
| `Pagination.UserListServes` | internal/module/user/usecase/user_usecase.go:69-114 | a forward page holds matching rows after its cursor only, in order, and reaches every such row or leaves it behind its next cursor |
| `Pagination.ForwardFlagIsExact` | internal/shared/domain/cursor.go:113-176 | for every forward request, more is announced if and only if the page is full and a matching row follows it |
| `Pagination.BackwardPage` | internal/module/user/repository/sqlc/user.sql.go:181-190 | a backward request returns the last rows of those before its cursor, with both flags and both cursors |
| `Pagination.UserListServesBackward` | internal/module/user/usecase/user_usecase.go:69-114 | for every prev cursor, its row still there or not: the matching rows nearest before it in ascending order, every other one announced, cursors at the first and last row |
| `Pagination.WalkMissesNothing` | internal/shared/domain/cursor.go:113-176 | every id that matches throughout the walk is returned |
| `Pagination.WalkReturnsExactlyOnce` | internal/module/user/usecase/user_usecase.go:69-114 | from the first page on, exactly once |
| `WorkerShutdown.NobodyLeft` | internal/worker/worker.go:240-261 | a wait that returns finds every consumer and every retry gone |
| `WorkerShutdown.StepKeepsInv` | internal/worker/worker.go:71-261 | every step keeps the WaitGroup equal to live consumers plus live retries, and after a drained shutdown nobody is past the context check |
| `WorkerShutdown.RunKeepsInv` | internal/worker/worker.go:71-261 | and so does every interleaving |
| `WorkerShutdown.NoPublishAfterShutdown` | internal/worker/worker.go:196-261 | once Shutdown returned nil, no retry publish is in progress or ever starts, not even by retries scheduled later |
| `WorkerShutdown.RetryPublishesIff` | internal/worker/worker.go:212-238 | a retry whose timer fires publishes once if and only if the context is alive at the check, and leaves the WaitGroup otherwise |
| `WorkerShutdown.RetryLeaves` | internal/worker/worker.go:212-238 | after cancellation a retry can leave without its timer, publishing only if it was about to |
| `WorkerShutdown.ConsumerLeaves` | internal/worker/worker.go:99-115 | after cancellation a consumer can leave the WaitGroup |
| `WorkerShutdown.ShutdownCanFinish` | internal/worker/worker.go:240-261 | no deadlock: in every reachable state a waiting Shutdown can still return nil |
| `WorkerShutdown.HandlersAreOverIff` | internal/worker/worker.go:92-115 | after the wait of a Shutdown, with no Start since, no continuation has a handler in progress if and only if every delivery goroutine has stopped |
| `WorkerShutdown.HandlerMayOutliveShutdown` | internal/worker/worker.go:92-115 | a concrete run, from Start on, in which Shutdown returns nil with all consumers gone while a handler is running, which then schedules a retry |
| `JobRetries.ExecutionsWithinBudget` | internal/worker/worker.go:118-193 | whatever fails, the handler runs no more often than the attempts left, and at most once without any |
| `JobRetries.FreshJobExecutions` | internal/worker/job.go:22-75 | a fresh job runs at most max(1, MaxRetry) times |
| `JobRetries.AlwaysFailingUsesBudget` | internal/worker/worker.go:118-193 | a job that always fails runs exactly that often |
| `JobRetries.ExecutionsAreExact` | internal/worker/worker.go:118-193 | the exact number of runs for every script of outcomes: up to the first that calls for no retry, within the budget; none without a handler |
| `JobRetries.DelaysAreExact` | internal/worker/worker.go:118-238 | one retry after each of those runs but the last, each with the delay of its attempt |
| `JobRetries.SuccessIsFinal` | internal/worker/worker.go:118-193 | a job that succeeds runs once and is not scheduled again |
| `JobRetries.DefaultJobRuns` | internal/worker/job.go:22-37 | a job made without a retry limit that always fails runs three times, one and four seconds apart |
| `JobRetries.DelayIsExact` | internal/worker/worker.go:197-197 | the 64-bit delay is the square of the attempts in seconds if and only if there are at most 96038 |
| `JobRetries.DelaysExactUpTo` | internal/worker/worker.go:197-197 | all delays of a job are exact if and only if MaxRetry is at most 96039 |
| `JobRetries.TotalBackoff` | internal/worker/worker.go:196-238 | an always failing fresh job with MaxRetry m runs m times and waits (m-1)m(2m-1)/6 seconds in all |
| `JobRetries.JobRecord.IncrementAttempts` | internal/worker/job.go:73-75 | one more attempt, nothing else |
| `JobRetries.Worker.HandleMessage` | internal/worker/worker.go:118-193 | the handler last registered for the type runs, if there is one, and which retry is scheduled, for malformed, unknown, failing, exhausted, unencodable and successful jobs |
| `Consumer.WithDefaults` | internal/adapter/queue/rabbitmq.go:89-103 | all settings are positive and positive settings are kept |
| `Consumer.UnsetOptionsGiveUp` | internal/adapter/queue/rabbitmq.go:28-33 | with no settings, a consumer that lost its connection for good gives up after waits of 1, 2, 4, 8 and 16 seconds |
| `Consumer.PrefixesAreSound` | internal/adapter/queue/rabbitmq.go:242-300 | a log that follows the discipline in the end followed it at every moment |
| `Consumer.ConsumerKeepsDiscipline` | internal/adapter/queue/rabbitmq.go:213-331 | on every run each delivery is settled once before anything else happens, at most one channel is open, and none in the end |
| `Consumer.DrainSettlesVerdicts` | internal/adapter/queue/rabbitmq.go:270-300 | exactly the messages received in one drain are settled in order, acknowledged where the handler succeeded and rejected where it failed |
| `Consumer.DrainEndsAt` | internal/adapter/queue/rabbitmq.go:270-300 | draining ends at the first signal that is no message; the loop stops if and only if that is the end of the context |
| `Consumer.RunSettlesVerdicts` | internal/adapter/queue/rabbitmq.go:242-300 | over a whole run, across reconnects, the settlements are the verdicts of exactly the messages among the signals received, in order |
| `Consumer.StableBrokerLosesNothing` | internal/adapter/queue/rabbitmq.go:242-331 | while the context lives and reconnects can succeed, every message sent is settled across any number of lost channels |
| `Consumer.BackoffStep` | internal/adapter/queue/rabbitmq.go:357-363 | doubling under the ceiling step by step is the closed form |
| `Consumer.ReconnectWaits` | internal/adapter/queue/rabbitmq.go:305-331 | a reconnect waits at most MaxReconnectTries times, first the base, then min(base * 2^(k-1), ceiling) |
| `Consumer.ReopensIff` | internal/adapter/queue/rabbitmq.go:305-331 | the consumer is open again if and only if one of the allowed attempts can succeed before the context is done |
| `Consumer.ReopensAt` | internal/adapter/queue/rabbitmq.go:305-331 | and then on the first such attempt, on its channel, which is the last thing done, the later attempts unused |
| `Consumer.WaitsUntilOpen` | internal/adapter/queue/rabbitmq.go:305-331 | with one wait for each attempt used |
| `Consumer.GivesUpAfter` | internal/adapter/queue/rabbitmq.go:305-331 | otherwise it waits once for each failed attempt and gives up |
| `Consumer.ChannelPerAttempt` | internal/adapter/queue/rabbitmq.go:213-240 | a failed attempt opened a channel if and only if the connection was up, redialled if need be, and the channel was granted |
| `Consumer.RabbitMQ.constructor` | internal/adapter/queue/rabbitmq.go:127-147 | options with defaults and nothing done yet |
| `Consumer.RabbitMQ.DrainDeliveries` | internal/adapter/queue/rabbitmq.go:270-300 | the effects, the verdict to stop and the signals left over |
| `Consumer.RabbitMQ.OpenConsumer` | internal/adapter/queue/rabbitmq.go:213-240 | a channel that cannot be set up is closed again |
| `Consumer.RabbitMQ.TryOnce` | internal/adapter/queue/rabbitmq.go:308-327 | the wait, then a channel unless the redial fails |
| `Consumer.RabbitMQ.ReconnectConsumer` | internal/adapter/queue/rabbitmq.go:305-331 | the effects and outcome of the bounded loop |
| `Consumer.RabbitMQ.RunConsumer` | internal/adapter/queue/rabbitmq.go:242-266 | the whole log of one consumer |
| `Broker.QueueKeepsWhatFits` | internal/adapter/sse/broker.go:70-81 | received and buffered events together are the sends that found room, in order |
| `Broker.DeliveryIsLossyFifo` | internal/adapter/sse/broker.go:70-115 | the reader gets the first of the sends that found room, in order, and a send is missing exactly if the buffer was full then |
| `Broker.ReaderCatchesUp` | internal/module/sse/handler/sse_handler.go:65-65 | reading on yields everything that was kept, in order |
| `Broker.NothingLostWithinCapacity` | internal/adapter/sse/broker.go:70-115 | nothing is lost while no more is sent than the buffer holds |
| `Broker.StepKeepsInv` | internal/adapter/sse/broker.go:38-133 | every call keeps the registered channels open, distinct and the only open ones, without a panic |
| `Broker.ChannelLifecycle` | internal/adapter/sse/broker.go:38-133 | over every run nothing is closed twice or sent to after its close, and a channel is open exactly while registered |
| `Broker.RegisteredAfter` | internal/adapter/sse/broker.go:38-133 | who is registered after each call, on which channel and with which topics |
| `Broker.CallReachesExactly` | internal/adapter/sse/broker.go:70-115 | a broadcast reaches everybody, a broadcast to a topic its subscribers and the clients without topics, a direct send the client named, nothing else anybody |
| `Broker.ChannelGetsWhatIsAddressed` | internal/adapter/sse/broker.go:70-115 | the sends on a client's channel are exactly the events addressed to it until its subscription ends |
| `Broker.SubscriberIsSentWhatIsAddressed` | internal/adapter/sse/broker.go:38-115 | for every subscription in every run |
| `Broker.SubscriberReceivesInOrder` | internal/adapter/sse/broker.go:38-115 | in every run what a subscriber received is a subsequence of what was addressed to it |
| `Broker.SubscriberMissesNothing` | internal/adapter/sse/broker.go:38-115 | a subscriber addressed by no more events than its buffer holds has received them all or still can |
| `Broker.SentOneByOne` | internal/adapter/sse/broker.go:70-101 | sending to the selected clients one by one is sending to all of them at once |
| `Broker.EventChannel.Offer` | internal/adapter/sse/broker.go:75-79 | a send to a full buffer is dropped |
| `Broker.EventChannel.Receive` | internal/module/sse/handler/sse_handler.go:65-65 | the reader gets the oldest buffered event |
| `Broker.EventChannel.Close` | internal/adapter/sse/broker.go:65-65 | an open channel is closed |
| `Broker.SseBroker.ReadNext` | internal/module/sse/handler/sse_handler.go:65-65 | the specification's step for the reader of one channel |
| `Broker.SseBroker.constructor` | internal/adapter/sse/broker.go:22-30 | no clients yet; a buffer size that is not positive becomes 100 |
| `Broker.SseBroker.Subscribe` | internal/adapter/sse/broker.go:38-58 | the specification's step; a prior channel of the client is closed |
| `Broker.SseBroker.Unsubscribe` | internal/adapter/sse/broker.go:60-68 | the specification's step; unknown clients are ignored |
| `Broker.SseBroker.Broadcast` | internal/adapter/sse/broker.go:70-81 | the specification's step, whatever the order of iteration |
| `Broker.SseBroker.BroadcastToTopic` | internal/adapter/sse/broker.go:83-102 | the specification's step; clients without topics get everything |
| `Broker.SseBroker.SendTo` | internal/adapter/sse/broker.go:104-115 | the specification's step for one client |
| `Broker.SseBroker.Close` | internal/adapter/sse/broker.go:123-133 | all channels are closed once and all clients gone |
| `EventStream.FormatEvent` | internal/module/sse/handler/sse_handler.go:67-79 | the text of one event is its present fields as lines, then an empty line |
| `EventStream.WriteEvents` | internal/module/sse/handler/sse_handler.go:64-86 | the client has the text of exactly the events flushed before the first failure |
| `EventStream.LinesOfTerminated` | internal/module/sse/handler/sse_handler.go:67-79 | splitting terminated lines gives back the lines |
| `EventStream.ReadEvent` | internal/module/sse/handler/sse_handler.go:67-79 | reading one written event dispatches it if it has data and sets id and reconnection time |
| `EventStream.CleanEventsRoundTrip` | internal/module/sse/handler/sse_handler.go:64-80 | interpreting the written stream gives the events with data in order, with type, data and last event id, and the last retry |
| `EventStream.DispatchedIsTidy` | internal/module/sse/handler/sse_handler.go:64-80 | no stream at all can convey a line break in a type or id, a CR in data or a NUL in an id |
| `EventStream.RoundTripExactlyWhenClean` | internal/module/sse/handler/sse_handler.go:64-80 | for events with data the round trip holds if and only if no field has a line break and no id a NUL |

## Left out

- Casbin itself: the enforcer is a set of rules and a set of links; its limit on the depth of role hierarchies, its persistence and its loading are not modelled.
- Watcher replication between instances: a watcher message leads to an arbitrary policy and a flush.
- Races inside Enforce: each adapter method is one atomic step, so a decision computed before and stored after a concurrent mutation is not covered.
- Hashing, randomness, JWT, bcrypt, JSON and base64: tokens are their digests and fresh when generated, jobs and cursors arrive decoded, a job that cannot be decoded or encoded is an error case of `HandleMessage`.
- The cache assumptions of the token protocol: a failed Set writes nothing (a failed deletion may have worked, which is covered as an expiry), SCAN returns every key present throughout, user ids (UUIDs) contain no colon and, where a revocation is started for them, none of `*`, `?`, `[` and backslash, which the pattern given to SCAN would not take literally.
- Validation of credentials and user lookups: a failing lookup in Refresh is modelled, wrong passwords are not, since nothing is then written.
- Floating point in the Lua script: times and divisions are exact integers; the instants at which Redis compares and at which the client reads the clock are one.
- The rate limiter's `resetAt` and HTTP headers.
- Cursors that cannot be decoded (an error before any query) and the forward-only NewCursorPage.
- The row filter (ILIKE, email, activity) is an arbitrary predicate, ids are numbers in the database's order.
- Redial: only its success or failure counts; the publisher channel and publishing are not modelled.
- NextBackoff: durations are unbounded, a doubling beyond 64 bits is not modelled.
- Handlers are numbers; what they do is their outcome.
- The prefetch count has its default but no effect in the model.
- Redelivery of a message after a lost acknowledgement.
- Concurrency in `Worker.dfy` and `RefreshTokens.dfy` is a state machine on values; goroutines, the WaitGroup and the cache appear as its state.
- Bytes of the event stream are characters; invalid UTF-8 is not modelled.
- ClientCount, logging, metrics, HTTP handlers, configuration, storage, migrations, audit, the no-op adapters and other glue: only easy members.
