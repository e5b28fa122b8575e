# A verified model of mcpx

mcpx is a Go library that multiplexes tool calls over many MCP servers. This project models
its core in Dafny and proves what the library promises of it: the per-server connection
protocol with its reconnectors, supervisor and tool refresh, the response cache, the
`CallTool` pipeline, the token-bucket rate limiter, the argument transformers and the
placeholder scan, and the grouping queries. `dafny verify dfyconfig.toml` checks all of it.

| file | component |
|---|---|
| `ServerProtocol.dfy` | one server entry and everything that touches it, as a transition system: every lock region, atomic access, channel operation and session operation is one action, so each interleaving is a run |
| `ProtocolSafety.dfy`, `ProtocolHistory.dfy`, `ProtocolProgress.dfy`, `ToolFreshness.dfy`, `ServerStatus.dfy` | laws over every run of that system: who owns a session, what the state shows of the schedule, what can always be done, and how fresh the tools are |
| `LruModel.dfy`, `LruCache.dfy`, `CallResults.dfy`, `CacheIsolation.dfy` | the cache as a recency-ordered list, the entries and index updated in place that refine it, deep copies, and isolation from callers |
| `CallPipeline.dfy`, `CallLaws.dfy`, `CallPromises.dfy` | `CallTool` with its event trace, the laws of the trace, and what it tells whom |
| `CacheTransparency.dfy` | exactly when concurrent cached calls agree with uncached ones |
| `TokenBucket.dfy`, `RateLimitLaws.dfy` | the rate limiter, and its laws over whole call sequences |
| `Json.dfy`, `ArgTransform.dfy`, `ArgValidation.dfy` | arguments as JSON values, the transformers, the placeholder scan |
| `Grouping.dfy`, `ToolListing.dfy` | `KindGroups` and `ToolsForServers` |
| `Basics.dfy` | shared types |

What the outside world decides is a parameter: whether a dial, fetch or probe succeeds and
what it lists is part of the action taken; hooks, the JSON codec, the schema checker and
upstream are function-valued fields of the configuration; clock readings are arguments of
the operations. Go's map iteration order is an arbitrary choice in every loop over a map.
Times and tokens of the rate limiter are `real`.

## Where the code and its documentation differ

The model follows the code. Each promise below is false as written; the named members give
a failing input or run and the exact condition under which the promise holds.

- `policy/policy.go:57-59` promises one further token every `per`; the code refills `burst`
  tokens every `per`. The documented rate holds exactly when `burst` is 1
  (`DocumentedRateIffBurstOne`, `TwoBurstsExceedDocumented`).
- `metrics.go:13` says `RecordCall` follows every call. It does not when a BeforeCall hook
  stops the call or the cache answers it, and only then (`RecordedUnlessIntercepted`); an
  unrecorded call of each kind is `AbortIsUnrecorded`, `ShortCircuitIsUnrecorded` and
  `HitIsUnrecorded`.
- `multiplexer.go:277-279` and `options.go:150-151` say every server reads Connected when
  health checks are off. A server whose first connect failed reads Down until its reconnector
  succeeds, and only then (`DownIffStubNotSwapped`, `DownWithoutHealthCheck`).
- `toolrefresh.go:25-27` relies on the reconnector to supply fresh tools, and
  `toolrefresh.go:49-52` stores without rechecking the session. A refresh can store over a
  reconnect, and a notice can be lost (`StaleStoreIsReachable`). The exact conditions are
  `ToolsFollowSessionExactly` and `NoticesAreServedExactly`.
- `cache.go:152` joins key parts with `|`, and `multiplexer.go:253` joins with `/`. Names
  that contain the separator collide (`SeparatorsLeak`, `SlashHidesTool`). For any calls the
  cache changes no answer exactly when no call looks up what a different call stores and is
  answered wrongly (`TransparentIffNoClash`); each (server, tool) pair is listed once exactly
  when no two listed pairs share a joined name (`OncePerPairIffNoCollision`).
- Placeholders are checked before the transformers run; joining arrays afterwards can bring
  one in (`JoinCanIntroduceBad`, `JoinStaysCleanIff`).

## Model

| member | source | states |
|---|---|---|
| ProtocolSafety.SessionOwnership | healthcheck.go:89-134 | in every state of every interleaving at most one session is open, somebody answers for it (the entry, the connect phase or the reconnector), and until Close begins a Connected entry stores an open session |
| ProtocolSafety.ReconnectExclusion | healthcheck.go:81-181 | in every reachable state at most one reconnector goroutine runs and the supervisor's compare-and-swap has never failed; once New has returned, `reconnecting` is set exactly while one runs, a Down server has one unless the context is cancelled, and every wait follows the backoff law |
| ProtocolSafety.SnapshotsAreUsable | caller.go:67-71 | whatever a call snapshots as Connected carries a session, open unless Close had begun |
| ProtocolSafety.StepKeepsInv | multiplexer.go:97-139 | the inductive invariant behind these laws survives each action of the connect phase, the reconnector, the drain, the supervisor, callers, notices and Close |
| ProtocolSafety.RunKeepsInv | multiplexer.go:293-350 | the invariant holds along whole runs, from any state that satisfies it |
| ServerProtocol.BackoffDoubles | healthcheck.go:36-49 | stepping the backoff takes the closed form min(2^(n-1), 60) seconds from attempt n to attempt n+1 |
| ProtocolHistory.ToolsAreLastInstalled | toolrefresh.go:43-52 | in every run the stored tools are the list carried by the fetch installed last: New's, that of the reconnector that swapped, or that of the refresh that stored, whichever came latest |
| ProtocolHistory.SnapshotReadsEntry | caller.go:67-71 | the snapshot a call takes as action k of any run shows the state, session and tools of the entry as the actions before k left it |
| ProtocolHistory.StampsAreFetchStarts | toolrefresh.go:11-52 | in every run the stored list is stamped with the start of the fetch that brought it, failures likewise, and a token is queued exactly when a notice came since the drain last took one |
| ProtocolHistory.NoticesAreCounted | multiplexer.go:325-330 | the notices counted are exactly the notice actions taken while no reconnect was running |
| ProtocolHistory.AttemptsAreCounted | healthcheck.go:99-126 | a reconnector in its loop is at one more attempt than it has failed, and waits min(2^failures, 60) seconds, in nanoseconds |
| ProtocolHistory.CloseReachesStored | multiplexer.go:293-308 | whatever session is stored when Close reads the entry is closed, or Close still has to close it, ever after |
| ProtocolProgress.LoopsRunUntilCancelled | multiplexer.go:133-139 | once New has returned, the drain and, with health checks only, the supervisor run until the context is cancelled, which happens exactly when some action cancels it |
| ProtocolProgress.OnlyFailuresReconnect | healthcheck.go:170-182 | without a failed first connect or a failed probe no reconnector ever starts and a published server reads Connected |
| ProtocolProgress.ReconnectorCanFinish | healthcheck.go:81-143 | in every reachable state a reconnector not leaving a cancelled context can by its own steps alone bring the server back to Connected and release the flag, with whatever list the new session answers with |
| ProtocolProgress.FailedProbeReconnects | healthcheck.go:170-181 | from any state with an idle supervisor and no reconnect, a round with a failed probe leaves exactly one reconnector, at its start, and the flag set |
| ProtocolProgress.RefreshDelivers | toolrefresh.go:28-64 | a queued notice, an idle drain, a session and no reconnect: one round stores exactly the list the session answers with and reports the change exactly when (Server, Name) differ and somebody listens |
| ServerStatus.DownIffStubNotSwapped | multiplexer.go:103-139 | with health checks off a published server reads Down exactly if its stub was installed and no reconnect has swapped a session in |
| ServerStatus.DownWithoutHealthCheck | multiplexer.go:104-131 | a concrete run without health checks whose server reads Down |
| ToolFreshness.NoLostNotice | toolrefresh.go:11-52 | if no refresh is stored between a swap and the release of the flag, every notice posted while `reconnecting` was false is queued, or a later fetch is due, in flight, stored or failed, or the context is cancelled; at rest the stored list was asked for after the notice |
| ToolFreshness.NoticesAreServedExactly | toolrefresh.go:28-31 | every notice stays served in all states a run passes through if and only if the drain never drops its last token in the swap-to-release gap while an older list is stored |
| ToolFreshness.ToolsFollowSession | toolrefresh.go:33-52 | in every run that swaps no session in during a refresh, the stored tools come from the stored session |
| ToolFreshness.ToolsFollowSessionExactly | toolrefresh.go:33-52 | the stored tools come from the stored session in all states a run passes through if and only if its schedule stores no refresh with a session swap since that refresh read its session |
| ToolFreshness.StaleStoreIsReachable | toolrefresh.go:28-52 | a reachable state at rest, Connected to session 1 with tools from session 0 and a notice lost |
| ToolFreshness.ChangesTelescope | toolrefresh.go:49-64 | without a swap, the (before, after) pairs reported to OnToolsChanged lead, up to (Server, Name), from the first list to the stored one |
| ToolFreshness.ChainLinks | toolrefresh.go:54-62 | consecutive reported pairs meet, each is a genuine change, and the last meets the stored list |
| Tools.ToolListsEqual | toolrefresh.go:69-79 | true exactly when the two lists hold the same (Server, Name) pairs in the same order |
| LruCache.Lru.Get | cache.go:77-92 | the list and index become what the recency-list lookup makes of them; a hit is a freshly allocated result of the stored value, an expired entry is dropped |
| LruCache.Lru.Set | cache.go:94-117 | the list and index become what the recency-list store makes of them; everything new the cache reaches is freshly allocated; a nil value or a non-positive TTL changes nothing |
| LruCache.Lru.constructor | cache.go:69-75 | a new cache is valid and empty |
| LruModel.ListIsInRecencyOrder | cache.go:77-117 | after any Get/Set history the list holds distinct keys, at most `size` of them, in order of their last use |
| LruModel.HitIsLatestSet | cache.go:83-91 | a hit returns the value of the latest effective Set of the key, which has not expired |
| LruModel.ItemsAreLatest | cache.go:94-108 | every stored item carries the value and expiry of the latest effective Set of its key |
| LruModel.PositionBound | cache.go:90-109 | every key ahead of a key in the list was touched since that key was |
| LruModel.EvictionNeedsTouches | cache.go:110-116 | a key at position p is passed by a new key only after p + 1 distinct other keys were touched |
| LruModel.KeyIsRetained | cache.go:110-116 | a key not looked up past its expiry stays while fewer than `size` distinct other keys were touched since its own last touch |
| LruModel.RetainedKeyHits | cache.go:77-92 | such a key, looked up by the expiry of its latest effective Set, must hit and returns the value of that Set |
| CallResults.CallResult.Clone | tool.go:60-76 | the copy has the same value and shares no object with the original |
| CallResults.ResultIsWhole | tool.go:33-57 | two results have the same value exactly when text, error flag and number of parts agree and each part has the same kind, text, MIME type, nil slices and bytes |
| CallResults.CloneParts | tool.go:64-75 | the part slice and every byte slice in it are fresh and equal in value |
| CallResults.CloneBytes | tool.go:66-73 | a nil slice stays nil; any other becomes a fresh slice of equal bytes |
| CacheIsolation.CallersCannotReach | cache.go:91-107 | any change confined to objects callers passed to Set or received from Get leaves the cache valid and its contents as they were |
| CacheIsolation.Client.Play | cache.go:77-117 | over any program of lookups, stores and arbitrary writing to held results (including making them share arrays), every hit equals the result as it was at the latest effective Set |
| CacheIsolation.Client.Scribble | cache.go:91-107 | overwriting any field, label or byte of a held result, replacing its slices by nil or new ones, making results share parts, and building new results keeps the client's objects apart from the cache's and changes no entry |
| CacheIsolation.Client.Overwrite | cache.go:91-107 | each overwrite takes effect on the held result and leaves the cache valid with the same contents |
| CacheIsolation.Client.DoRead | cache.go:77-92 | a lookup is answered as the recency list of the client's history says, and hands over only fresh objects |
| CacheIsolation.Client.DoWrite | cache.go:94-117 | a store enters the history with the value the result had at the call |
| CallPipeline.CallTool | caller.go:51-227 | on each of the twelve exits the returned outcome and the trace are those of the phase-by-phase specification the laws below are about |
| CallPipeline.LookUpTool | caller.go:73-81 | the tool found has that name and no tool before it does; none is found exactly when no tool has it |
| CallPipeline.FindTool | caller.go:73-81 | the specification's lookup likewise finds the first tool of that name, or there is none |
| CallPipeline.RunBefore | caller.go:142-157 | the loop with its early exits computes the hook chain the fold law is about |
| CallPipeline.RunTransforms | caller.go:208-214 | the loop with its early exit computes the edits the transform fold law is about |
| CallPipeline.RunAfterCall | caller.go:240-244 | one event for each AfterCall hook, in order, with equal arguments |
| CallLaws.AfterHooksRunOnce | caller.go:240-244 | on every path each AfterCall hook runs exactly once, in order, all with the same arguments, the returned error and, on success, the returned result |
| CallLaws.RejectedIffNeverSent | caller.go:246-254 | the rejection callback, if registered, fires exactly when the call fails without an upstream call, once, with the returned error |
| CallLaws.ReasonIsFirstFailure | caller.go:58-148 | each rejection reason is given exactly in its case: unknown server, unknown tool, server down, unusable arguments or a schema violation, hook abort |
| CallLaws.UnusableIff | caller.go:102-117 | arguments are refused as bad JSON exactly when non-empty text does not parse to an object or null, and as invalid exactly when it does and the placeholder scan reports something |
| CallLaws.StagesInOrder | caller.go:51-227 | on every path the stages follow one another: schema check, BeforeCall, lookup, upstream, transforms, store, rejection, AfterCall, metrics |
| CallLaws.SentAtMostOnce | caller.go:183-187 | at most one upstream call, only for a known tool of a Connected snapshot, on the snapshot's session |
| CallLaws.SentOnOpenSession | caller.go:67-71 | for a snapshot taken in any run of the connection protocol, that session exists and is open unless Close had begun |
| CallLaws.RecordedUnlessIntercepted | caller.go:144-178 | RecordCall is made once, with the returned error, unless the hooks stop the admitted request or the active cache holds an answer for its key; then not at all |
| CallLaws.InterceptionIsTraced | caller.go:142-178 | the hooks stop a request exactly when its last BeforeCall event did, and the cache holds an answer exactly when the trace looks up and sends nothing |
| CallLaws.AbortIsUnrecorded | caller.go:144-148 | a call a hook aborts, without a record |
| CallLaws.ShortCircuitIsUnrecorded | caller.go:149-153 | for any result, a call a hook answers with it, without a record |
| CallLaws.HitIsUnrecorded | caller.go:174-178 | for any result, a call the cache answers with it, without a record |
| CallLaws.StoredIffCacheableSuccess | caller.go:216-222 | a store happens exactly on final success after an upstream call with caching on, a cacheable tool and a non-error result; it stores the returned result with the tool's TTL under the key that was looked up |
| CallLaws.BeforeCallIsAFold | caller.go:142-157 | hooks run from the first with the last non-nil context before them; the first error or result stops the chain and decides the outcome, the error winning; otherwise lookup and upstream get the final context |
| CallLaws.TransformsAreAFold | caller.go:187-226 | after a reply the ResultTransform hooks run from the first, each given the previous one's result, up to the first error, which is returned; without one all run and the last result is returned; a failed upstream call runs none and returns its wrapped error |
| CallLaws.OneArgumentValue | caller.go:123-187 | schema check, hooks, AfterCall and cache keys see one text and upstream gets the value it encodes; they part exactly when the transformed value cannot be encoded, and then the hooks see the request's own text |
| CallPromises.ArgumentsAreTransformed | caller.go:98-125 | for a usable request to an offered tool, upstream gets the parsed arguments after the server's transformers and field map, and everyone else their rendering, or the request's text where they do not render; any other request is never sent and its own text is shown |
| CallPromises.SchemaIsChecked | caller.go:130-138 | the schema check sees the tool's schema and the shown text, once, exactly when it is on and the arguments are usable |
| CallPromises.RefusalErrors | caller.go:58-138 | each refusal returns its own error with its own contents, the checks taking precedence in order |
| CallPromises.UpstreamErrors | caller.go:190-202 | a failed upstream call returns a timeout naming server and tool if the deadline passed, and the server's error otherwise |
| CallPromises.RejectionSees | caller.go:246-254 | the rejection callback gets the request's context, or that of the hook that aborted |
| CallPromises.CacheIsAsked | caller.go:161-179 | the cache is asked exactly when an accepted request passes its hooks, a cache is in use (the registered one before the built-in one) and the tool is not destructive and read-only idempotent or marked cacheable; under the registered key function's key, or scope, server, tool and canonical arguments joined with bars; what it holds is the answer |
| CallPromises.StoredForTTL | cache.go:133-148 | a stored result lives for the tool's own cache_ttl, or the default where it is absent or does not parse |
| CallPromises.AfterCallSees | caller.go:240-244 | on every path each AfterCall hook gets the context in force, the tool's metadata (empty if unknown), the shown text, the returned result or what a failed transform left, and the returned error |
| CallPromises.ListedToolIsServed | caller.go:67-96 | a call whose snapshot was taken when the entry was Connected and listed the tool is never refused as unknown server, unknown tool or down |
| CallLaws.HitIsMarked | caller.go:174-178 | AfterCall gets the hooks' final context, marked as a hit exactly when the cache answered |
| CacheTransparency.TransparentIffNoClash | caller.go:161-226 | for any calls and any size, over all interleavings, evictions and expiries: every call returns what it returns with the cache off if and only if the size is not positive or whatever one call stores is the right answer for every other call that looks its key up |
| CacheTransparency.Compare | caller.go:167-222 | a call with the cache on looks up and stores what it does on a cold cache and returns what it does with the cache off, unless its lookup hits, which decides the outcome and stores nothing |
| CacheTransparency.CacheIsTransparent | caller.go:161-226 | for any calls, their lookups and stores interleaved in any way, any size, TTLs and clock readings: with upstream and transforms fixed functions of (server, tool, arguments) and separator-free names, each call returns what it returns with the cache off |
| CacheTransparency.KeysAreInjective | cache.go:150-153 | with no separator in scope, server and tool, two keys are equal exactly when all four parts are |
| CacheTransparency.SameTextSameMeaning | cache.go:155-168 | arguments that encode faithfully and have equal canonical text are equal, absent ones counting as the empty object |
| CacheTransparency.KeyKeepsJoinedNames | cache.go:150-153 | for equal scope and arguments, keys are equal exactly when the joined names are |
| CacheTransparency.SameKeyIffSameQuestion | cache.go:150-153 | on traces with the default key and separator-free names and scopes, two calls look up the same key exactly when the scopes of their lookups, their servers, tools and canonical arguments are equal |
| CacheTransparency.ScopesNeverClash | cache.go:31-35 | calls that look up in pairwise different scopes never share an answer, whatever upstream does |
| CacheTransparency.FixedHasNoClash | cache.go:150-168 | in a fixed world with separator-free names no call stores a wrong answer for another |
| CacheTransparency.SeparatorsLeak | cache.go:150-153 | two calls in a fixed world whose server and tool names join to the same text because one server name and the other tool name contain the separator; a cache of any positive size mixes their answers up |
| TokenBucket.Limiter.Allow | policy/policy.go:114-135 | the call passes exactly when admitting it keeps every window ending at it within the bound; other keys' buckets and admissions do not change |
| TokenBucket.Limiter.constructor | policy/policy.go:106-112 | a new limiter has no buckets and no admissions |
| TokenBucket.AllowedIffAdmits | policy/policy.go:114-135 | after any call sequence, the bucket decides a call as the window rule on that key's admissions does |
| TokenBucket.LevelIsLeastSlack | policy/policy.go:125-127 | the token level is the least slack over all windows that start at an admission |
| TokenBucket.TouchTracks | policy/policy.go:118-134 | one call keeps every bucket in agreement with its key's admissions |
| RateLimitLaws.WindowBound | policy/policy.go:114-135 | calls allowed on a key between any instants s <= t number at most burst + (t-s)*burst/per |
| RateLimitLaws.BoundIffPositiveBurst | policy/policy.go:119-123 | that bound holds of all call sequences exactly when `burst` is at least 1 |
| RateLimitLaws.TokensInRange | policy/policy.go:125-134 | after any sequence every bucket holds between 0 and `burst` tokens |
| RateLimitLaws.LimiterIsGreedy | policy/policy.go:114-135 | over whole sequences the limiter admits what the window rule alone admits |
| RateLimitLaws.BurstIsAvailable | policy/policy.go:119-123 | while fewer than `burst` calls on a key have passed, the next one passes |
| RateLimitLaws.SpacedCallsPass | policy/policy.go:125-134 | a caller spacing its calls at least per/burst apart is never refused |
| RateLimitLaws.RefusedCallsAreFree | policy/policy.go:129-131 | deleting a refused call leaves every later decision on every key unchanged |
| RateLimitLaws.KeysAreIndependent | policy/policy.go:118-123 | the admissions on a key are those of the key's calls alone |
| RateLimitLaws.TwoBurstsExceedDocumented | policy/policy.go:57-59 | for every burst above 1, two bursts one `per` apart exceed the documented rate |
| RateLimitLaws.DocumentedRateIffBurstOne | policy/policy.go:57-59 | all call sequences keep the documented rate exactly when `burst` is 1 |
| ArgTransform.SnakeToCamel | transform.go:168-183 | the split-and-capitalise loop computes the renamed key that the byte-by-byte laws below describe |
| ArgTransform.CamelPositions | transform.go:168-183 | where no byte beyond ASCII follows an underscore, the result is the non-underscore bytes in order, each upper-cased (c - 32) exactly when it is a lower-case letter right after an underscore |
| ArgTransform.CamelByteByByte | transform.go:168-183 | for every key the result is the concatenated images of its bytes; a byte beyond ASCII right after an underscore becomes U+FFFD |
| ArgTransform.CamelizeDropsUnderscores | transform.go:168-183 | no renamed key contains an underscore |
| ArgTransform.CamelOfPlain | transform.go:168-183 | a key without underscores is left alone |
| ArgTransform.SnakeToCamelKeys | transform.go:142-151 | in any iteration order the keys are exactly the renamed ones and each value is the outcome of a member renamed to it, at every level |
| ArgTransform.OutcomesAreOrders | transform.go:142-151 | those outcomes are exactly the results of visiting the members in some order, nested objects included, later writes overwriting earlier ones |
| ArgTransform.CamelIsPlain | transform.go:142-151 | whatever keys collide, no key reached through objects contains an underscore |
| ArgTransform.CamelIsIdempotent | transform.go:142-151 | a second pass changes nothing, for any orders and any collisions |
| ArgTransform.OrderIndependentIffAgreeing | transform.go:142-151 | all iteration orders give one result exactly when members renamed to the same key have the same outcome; in particular when renaming is injective at every level |
| ArgTransform.JoinStringArrays | transform.go:113-140 | every array of strings reached through objects becomes one space-joined string, all else stays |
| ArgTransform.SpacedSplits | transform.go:131 | where no string contains a space, the joined text splits at spaces back into the strings |
| ArgValidation.JoinReplacesStringArrays | transform.go:113-140 | at every place reached through objects an array of strings is replaced by its joined text and any other leaf stays |
| ArgTransform.JoinIsIdempotent | transform.go:113-140 | joining again changes nothing |
| ArgTransform.TransformersCommute | transform.go:113-151 | the results of camelCase then joinArrays over all iteration orders are exactly those of joinArrays then camelCase; one value when renaming is injective |
| ArgTransform.ApplyFieldMap | transform.go:153-166 | in any iteration order the keys are exactly the mapped ones and each holds the value of a member mapped to it |
| ArgTransform.MappingIsLossless | transform.go:153-166 | with an injective map and no unmapped argument under a target, every mapped member is found under its target and every other under its own key |
| ArgTransform.FieldMapRoundTrip | transform.go:153-166 | for an injective map and any orders, the inverse map restores the arguments exactly when no unmapped argument sits under a target |
| ArgValidation.FindInvalidArgs | validate.go:23-27 | the report is, as a multiset, the dotted paths of all placeholder strings reached through objects |
| ArgValidation.SixPlaceholders | validate.go:12-19 | a single string argument is reported, under its key, exactly when it normalises to nothing or to one of the six listed words |
| ArgValidation.DottedSplits | validate.go:57-73 | a reported path of non-empty keys without dots splits at dots back into the keys |
| ArgValidation.Report.Walk | validate.go:57-73 | appends the dotted path of each bad place once and keeps what was reported before |
| ArgValidation.ReportsAgree | validate.go:57-73 | reports of different iteration orders are equal as multisets |
| ArgValidation.EmptyReportIffClean | validate.go:23-27 | the report is empty exactly when no placeholder is reachable through objects |
| ArgValidation.ScanIsStable | validate.go:57-73 | arguments with an empty report still have one after camelCase and field mapping, even when keys collide |
| ArgValidation.JoinStaysCleanIff | transform.go:113-140 | clean arguments stay clean under joinArrays exactly when no array of strings joins to a placeholder |
| ArgValidation.JoinCanIntroduceBad | transform.go:113-140 | an empty array under any key is clean and becomes a placeholder |
| Grouping.KindGroups | multiplexer.go:199-234 | groups strictly sorted by kind; each lists exactly its kind's servers and exactly their tool names, both strictly sorted, with the kind's hints |
| Grouping.GroupingIsPartition | multiplexer.go:197-234 | every server is in exactly one group, that of its kind |
| Grouping.GroupContents | multiplexer.go:206-218 | a group lists exactly the servers whose kind, or name where the kind is empty, is the group's, and exactly the tool names they list |
| StringOrder.LessIsLexicographic | multiplexer.go:220-225 | groups, servers and tools are sorted in byte-wise lexicographic order |
| Grouping.GroupingIsDetermined | multiplexer.go:199-234 | the grouping does not depend on map iteration order |
| ToolListing.ToolsForServers | multiplexer.go:239-261 | the tools met on the walk over the named servers, each at the first occurrence of its joined key |
| ToolListing.FirstsPositions | multiplexer.go:236-257 | first occurrences are listed in the order they are met, and nothing else is |
| ToolListing.WalkPositions | multiplexer.go:239-251 | the walk meets every tool of every known name asked for, names in the order asked for and tools in the server's order |
| ToolListing.OncePerPair | multiplexer.go:236-261 | with no `/` in the names asked for, exactly the first occurrences of (server, tool) pairs |
| ToolListing.OncePerPairIffNoCollision | multiplexer.go:236-261 | the list is that of first occurrences of pairs exactly when no two different pairs on the walk share a joined key |
| ToolListing.OneFirstPerPair | multiplexer.go:236-238 | first occurrences of pairs number as many as there are pairs |
| ToolListing.FirstIsListed | multiplexer.go:236-238 | the tool met first under a pair is listed |
| ToolListing.SlashHidesTool | multiplexer.go:253-257 | tool "b/c" of server "a" is dropped after tool "c" of server "a/b" |

## Left out

- Transports, HTTP retries, authentication, loggers, the eino adapter, `View`, `NewFromSessions` and option setters: plumbing and single-branch facts.
- Closing everything: the swap in `reconnectServer` does not recheck the context after it connects, so a session opened late can stay open after Close; the model allows it and no law excludes it.
- Notices posted while a reconnect is running: the code may drop them after the reconnector's own fetch, so they are not counted in the freshness laws.
- OnConnect, OnReconnect and RecordToolList calls, and log lines: they read no shared state of the protocol.
- Panics in hooks: hooks return; recovery is not modelled.
- Hooks that change a result after it was handed over: the call pipeline works on result values, and AfterCall hooks only observe.
- `buildResult` and `effectiveTimeout`: upstream's reply is the built result, and whether a failure was a timeout is part of it.
- `singularizeResourceType`, `mergedSingularMap` and custom transformers: inside the call pipeline the whole transformer list is one function of the server and the parsed arguments.
- `encoding/json` and the schema checker: parameters; cache transparency takes it as a hypothesis that the arguments at hand encode and parse back.
- Unicode: keys are byte strings, and the trimming and lower-casing of the placeholder scan is a parameter.
- Floating-point rounding, clock jumps and a non-positive `per` in the rate limiter: the times of a call sequence do not decrease and `per` is positive.
- RateLimit: the "server/tool" key it builds is any string to the limiter, so tools whose joined names coincide share a bucket.
- DenyDestructive, RequireRoles and AuditLog: stateless checks.
- KindsForServers, ServerNames and AllTools: easy relatives of the grouping queries.
- Custom caches and key functions: the call laws cover them, the transparency law is about the built-in cache with its default key.
