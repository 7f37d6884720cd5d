# RLQS in Dafny

A model of the Rate Limit Quota Service server and proofs about it. `dafny verify dfyconfig.toml` checks
everything.

| file | models |
|---|---|
| `Keys.dfy` | canonical bucket keys and domain scoping |
| `Collisions.dfy`, `Merges.dfy` | which bucket ids share a key with another, with and without limits |
| `Memory.dfy` | the in-memory bucket store, and the admin bucket listing |
| `Redis.dfy` | the Redis store as a transition system: any number of instances, one shared Redis |
| `RedisStorage.dfy` | the Redis store as an object, each call proved to be a step of `Redis.dfy` |
| `Protocol.dfy` | the stream protocol as a transition system, one move per critical section |
| `Invariants.dfy` | what every interleaving of that protocol keeps |
| `Messages.dfy` | what one message does, whatever other streams do meanwhile |
| `Sessions.dfy` | what a stream records over its whole life |
| `Progress.dfy` | that no stream gets stuck and every run can end |
| `Serial.dfy`, `Race.dfy` | exactly when the store agrees with the reference counts, and a run in which it does not |
| `Server.dfy` | the server and stream objects, each call proved to be a run of `Protocol.dfy` |
| `Classifier.dfy` | the metric-label classifier, as an object and under interleaving |
| `Engine.dfy` | both quota engines, building them from configuration, proactive pushes |
| `Reload.dfy` | the hot-reload loop |
| `Composition.dfy` | the protocol on top of the Redis store, for one instance and for many |
| `Locking.dfy` | lock order and deadlock freedom |
| `Guards.dfy` | which lock guards which move, and which moves commute |

How things are represented:

- A Go string is a Dafny `string` with one character per byte.
- `uint64`, `int64`, `uint32` arithmetic and conversions wrap as in Go; HINCRBY fails outside int64.
- Regular expressions and `strings.ToUpper` are arbitrary functions (`Classifier.Lib`). A compiled
  expression is represented by its pattern.
- In the protocol the engine is any function from domain and reports to a list of actions or an error,
  so abandons are covered although neither shipped engine sends them.
- What the environment decides (messages, receive and send failures, classifier answers, Redis outcomes,
  clock readings, map iteration order) is an argument of the step, or chosen arbitrarily in a loop.
- A call of the Redis store is one atomic step. In the code `All` and `Clear` in `flushFallback` are two
  critical sections; an update between them is outside the model.
- In `Server.dfy` the ghost fields `pc`, `known`, `live`, `log` and `trace` only relate the objects to the
  transition system.

Where code and documentation differ, the code is modelled:

- docs/ha.md:68 says fallback data is not synced back. It is flushed to Redis on recovery.
- internal/storage/redis_test.go:437 says the flush precedes the delete. The delete comes first, so the
  outage counts of the removed bucket come back (`Redis.RecoveringDeleteKeepsOutageCounts`).
- docs/ha.md:67 says Redis is retried every 5 seconds. A failed retry does not set the time of the last
  attempt, so from then on every call retries (`Redis.FailedRetriesStayDue`).
- internal/server/server.go:458-460 says stored buckets are removed only when no stream references them, which
  prevents data loss among instances that share Redis. Within one instance no referenced bucket is about to
  be removed exactly as long as no stream counts a key between another's last decrement and the removal it
  decides (`Serial.MatchedIffUndisturbed`; `Race.ReferencedBucketRemoved` is a run in which one does). Across
  instances the counts are not shared, so a removal by one takes the counts of all;
  `Redis.RemovalTakesAllShares` says exactly when it takes none of the others'.
- internal/storage/storage.go:17 says the separators avoid collisions with real data. They do not: every id
  with two or more entries shares its key with another id, and `Collisions.CollidesIff` says exactly which
  ids have their key for themselves.
- Hot reload replaces the engine through an `atomic.Value`, which panics on a value of another concrete
  type. A reload that adds the first policy or drops the last one crashes the server;
  `Reload.ReloadMeaning` says exactly which sequences do.

## Model

| member | source | states |
|---|---|---|
| `Keys.BucketKeyFromProto` | internal/storage/storage.go:19-39 | in whatever order the map is visited, the result is the canonical key; a missing id has the key of an empty one |
| `Keys.SortIgnoresOrder` | internal/storage/storage.go:23-27 | sorting the keys gives one list, however they were collected |
| `Keys.RoundTripIffClean` | internal/storage/storage.go:16-39 | decoding the key gives the id back if and only if keys avoid NUL and RS and values avoid RS |
| `Keys.KeyOfInjective` | internal/storage/storage.go:16-39 | two such ids share a key only if they are equal |
| `Collisions.CollidesIff` | internal/storage/storage.go:16-39 | some other id has the same key if and only if the id has two or more entries or a NUL in its only key or value |
| `Merges.PlainCollidesIff` | internal/server/server.go:324-343 | among ids the server accepts under any limits, one without NUL and RS shares its key if and only if two neighbouring entries, in key order, can be read as one within the limits |
| `Collisions.AcceptedCollides` | internal/server/server.go:324-343 | an accepted id of any bytes shares its key with another accepted one only if it has several entries or a NUL away from the outer ends of its only one; and then it does, if its key is within both length limits |
| `Collisions.TwoEntriesReadAsOne` | internal/storage/storage.go:16-39 | a pair of short ids that share a key |
| `Keys.ScopeCollision` | internal/storage/storage.go:41-52 | exactly when two (domain, key) pairs share a scoped key, empty domains included |
| `Keys.ScopeInjective` | internal/storage/storage.go:41-52 | never, if both domains are free of US |
| `Keys.ScopeInjectiveInKey` | internal/storage/storage.go:43-52 | within one domain, of any bytes, scoping is injective |
| `Memory.AddCounts` | internal/storage/storage.go:109-125 | an update adds to its own counters modulo 2^64 and leaves all others; a removal zeroes only its own |
| `Memory.MemoryStorage.Get` | internal/storage/storage.go:99-107 | found exactly if present; a missing bucket reads as zero |
| `Memory.MemoryStorage.Update` | internal/storage/storage.go:109-119 | the new contents are the old with the usage added |
| `Memory.MemoryStorage.Reset` | internal/storage/storage.go:121-125 | the bucket is gone, the others stay |
| `Memory.MemoryStorage.All` | internal/storage/storage.go:127-135 | a full copy |
| `Memory.MemoryStorage.RecordUsage` | internal/storage/storage.go:138-143 | adds under the scoped canonical key |
| `Memory.MemoryStorage.RemoveBucket` | internal/storage/storage.go:146-150 | removes under the scoped key |
| `Admin.Strip` | internal/admin/admin.go:86-94 | yields the listed key that scopes to the stored one, or there is none |
| `Admin.ListBuckets` | internal/admin/admin.go:84-100 | every stored key of the domain once, stripped, with its counts, and nothing else |
| `Admin.ListingInvertsScoping` | internal/admin/admin.go:84-100 | for domains free of US the filtered listing is that domain's usage, non-empty keys in original form |
| `Redis.ExecIsBump` | internal/storage/redis.go:141-190 | a pipeline in any command order, failing anywhere, acts cell by cell |
| `Redis.RecoverMoves` | internal/storage/redis.go:151-190 | a recovery moves every fallback counter to Redis except what it loses |
| `Redis.StepBalances` | internal/storage/redis.go:85-190 | the books of one counter balance over any single call or expiry |
| `Redis.Conservation` | internal/storage/redis.go:85-190 | over every run of any number of instances, while under 2^63 is reported: Redis + fallbacks = reported + duplicated - removed - dropped - lost - expired, and duplicated is at most what failed pipelines carried |
| `Redis.AllOrNothingIsExact` | internal/storage/redis.go:85-148 | if failed pipelines left no trace, nothing is ever duplicated |
| `Redis.BreakersHold` | internal/storage/redis.go:89-132 | in every reachable state a closed breaker has an empty fallback and no fallback exceeds its capacity |
| `Redis.RefinesMemory` | internal/storage/redis.go:85-134 | without drop, loss, expiry or duplication, and with removals through closed breakers, Redis + fallbacks is the in-memory store fed the same calls |
| `Redis.ClosedRefinesMemory` | internal/storage/redis.go:85-134 | then, with every breaker closed, Redis alone is |
| `Redis.DeleteLeavesNothingIff` | internal/storage/redis.go:114-134 | a removal leaves nothing of its bucket if and only if DEL was carried out or Redis had nothing, no other instance holds outage counts of it, and its own are not flushed back |
| `Redis.RecoveringDeleteKeepsOutageCounts` | internal/storage/redis.go:119-124 | a removal that ends an outage leaves all outage counts of its bucket |
| `Redis.RemovedCountsComeBack` | internal/storage/redis_test.go:397-444 | two calls that show it, for any retry interval |
| `Redis.DroppedIff` | internal/storage/redis.go:89-112 | a report that Redis does not take goes to the fallback, and is dropped if and only if the breaker was open, the fallback is full and the report would add a key |
| `Redis.OutageWithinCapacity` | internal/storage/redis.go:85-134 | over an outage of any length in which an instance sees no more keys than its fallback may hold, the fallback is the in-memory store fed the same calls |
| `Redis.HealthyIsMemory` | internal/storage/redis.go:85-134 | while Redis answers, every breaker stays closed and Redis alone is the in-memory store fed the calls of all instances |
| `Redis.OpeningStartsInterval` | internal/storage/redis.go:89-207 | after a call that opens the breaker its instance asks Redis again if and only if the interval has passed since that call |
| `Redis.SharesMakeUpRedis` | internal/storage/redis.go:85-190 | in every run, what Redis holds of a counter is the sum over all instances of what each put there since it was last emptied |
| `Redis.RemovalTakesAllShares` | internal/server/server.go:458-492 | over every run, a carried-out removal takes the shares of all instances, and nothing of the others' if and only if theirs are all zero |
| `Redis.RemovalTakesOtherInstancesCounts` | internal/server/server.go:458-492 | two reports and a removal that show it |
| `Redis.FailedRetriesStayDue` | internal/storage/redis.go:89-132 | through any calls that leave the breaker open the time of the last attempt stays, so a call retries if and only if the interval has passed since the breaker opened |
| `Redis.ClosesIff` | internal/storage/redis.go:89-156 | an open breaker closes if and only if a call of its instance is due and Redis takes it |
| `Redis.RecordAddsIff` | internal/storage/redis.go:141-148 | Redis gains the reported amount exactly if the amount and the sum fit in int64 |
| `Redis.HugeReportGoesNegative` | internal/storage/redis.go:143-144 | a report of 2^63 is counted as -2^63 |
| `RedisStore.RedisStorage.constructor` | internal/storage/redis.go:50-81 | closed breaker, empty fallback, positive capacity whatever the configuration says |
| `RedisStore.RedisStorage.RecordUsage` | internal/storage/redis.go:85-112 | Redis, fallback and breaker change as `Redis.Record` says, for every outcome |
| `RedisStore.RedisStorage.RemoveBucket` | internal/storage/redis.go:116-134 | they change as `Redis.Delete` says |
| `RedisStore.RedisStorage.TryRedisRecordUsage` | internal/storage/redis.go:141-148 | both fields are incremented, as far as the pipeline got; success exactly if all of it did |
| `RedisStore.RedisStorage.RecoverFromFallback` | internal/storage/redis.go:151-156 | flush, then close the breaker |
| `RedisStore.RedisStorage.FlushFallback` | internal/storage/redis.go:161-190 | every non-zero fallback counter is sent; the fallback is empty whether or not it arrived |
| `RedisStore.FlushCommands` | internal/storage/redis.go:167-177 | the pipeline carries exactly the non-zero counters, each once, in whatever order entries are visited |
| `Protocol.LocalOk` | internal/server/server.go:276-493 | every move keeps its stream lawful and its binding unchanged |
| `Protocol.LocalCounts` | internal/server/server.go:346-433 | a count goes up or down exactly when the stream starts or stops holding that scoped key |
| `Protocol.LocalGauges` | internal/server/server.go:364-475 | the gauge moves by one exactly when the stream's gauged buckets do, under the stream's own label |
| `Protocol.LocalRemoves` | internal/server/server.go:420-491 | a removal is made exactly by the stream that took the count to zero |
| `Messages.EveryMessageIsLawful` | internal/server/server.go:276-456 | in any interleaving a message succeeds if and only if it is not refused (domain, size) and has no reports, or all its ids are within the limits and find room, the engine answers, and the answer is empty or sent; its named reports are recorded in order under their own buckets (else those before the first inadmissible one), its ids subscribed to, abandoned ones dropped, and the answer replied |
| `Sessions.StreamsRecordWhatTheyReceive` | internal/server/server.go:276-456 | in every reachable state a stream has recorded a prefix of the usage in all reports it received that name a bucket, between messages exactly all of it |
| `Invariants.NextKeepsInv` | internal/server/server.go:240-493 | any move of any stream keeps the whole invariant |
| `Invariants.RunKeepsInv` | internal/server/server.go:240-493 | so it holds after every interleaving |
| `Invariants.RefsCountHolders` | internal/server/server.go:346-483 | in every interleaving `bucketRefs[k]` is the number of streams holding k, and absent when none does |
| `Invariants.DecrementsFindTheirKey` | internal/server/server.go:419-483 | no decrement hits a missing key |
| `Invariants.StoredIsReferencedOrAwaited` | internal/server/server.go:377-491 | a stored key is referenced, or some stream is about to remove it |
| `Invariants.EndedLeavesNothing` | internal/server/server.go:240-493 | once all streams have ended, by any path, streams, references and store are empty and all gauges zero |
| `Invariants.GaugeAtBoundaries` | internal/server/server.go:364-475 | no gauge is negative; between messages it is the number of subscriptions under its label |
| `Invariants.BindingIsForever` | internal/server/server.go:283-304 | a bound stream keeps its domain and label through any further moves |
| `Invariants.StreamsAreLawful` | internal/server/server.go:284-356 | non-empty domain once bound, no subscription before, at most the configured number, keyed canonically by ids within all limits |
| `Progress.NoStreamIsStuck` | internal/server/server.go:240-493 | in every reachable state, whatever the engine, a stream can move if and only if it has not ended |
| `Progress.EveryRunCanEnd` | internal/server/server.go:240-493 | every run can be continued, with any given engine and without new streams or messages, until all streams have ended and nothing is left |
| `Serial.MatchedIffUndisturbed` | internal/server/server.go:346-491 | over every interleaving: referenced keys are stored (or about to be recorded) and never about to be removed, throughout the run, if and only if no move counts a key that some stream is about to remove |
| `Serial.UndisturbedRunKeeps` | internal/server/server.go:319-492 | the log of such a run explains every count and every referenced counter |
| `Serial.UndisturbedRunIsSettled` | internal/server/server.go:319-492 | whenever all streams are quiet in such a run, the store holds exactly the referenced keys, each counter the usage since its count last rose from zero, modulo 2^64 |
| `Serial.SerialIsUndisturbed` | internal/server/server.go:276-493 | if whole messages and cleanups are atomic, no awaited key is ever counted |
| `Serial.SerialRunIsSettled` | internal/server/server.go:319-492 | so then the store is settled between them |
| `Race.ReferencedBucketRemoved` | internal/server/server.go:477-491 | otherwise, with every engine the server can run, a referenced bucket with recorded usage can be removed |
| `Composition.StoreIsFed` | internal/server/server.go:377-491 | in every interleaving the in-memory store is what the Record and Remove calls of the log make of an empty one |
| `Composition.InstanceHoldsStore` | internal/storage/redis.go:85-134 | at every moment of a faithful run of one instance, Redis and fallback hold of a counter what the in-memory store would |
| `Composition.ClusterLeavesNothing` | internal/storage/redis.go:85-134 | once every stream of every instance has ended, in any interleaving, a cluster whose run was faithful on a counter holds nothing of it |
| `Server.StreamState.Bind` | internal/server/server.go:283-315 | the stream becomes what `Protocol.Receive` says |
| `Server.StreamState.Track` | internal/server/server.go:319-357 | it becomes what `Protocol.TakeUsage` says |
| `Server.StreamState.Drop` | internal/server/server.go:412-418 | it becomes what `Protocol.TakeAction` says |
| `Server.CheckBucket` | internal/server/server.go:324-343 | accepts exactly the ids with no more entries than allowed and only non-empty keys and values of at most the allowed lengths, in whatever order entries are visited |
| `Server.RLQSServer.constructor` | internal/server/server.go:124-144 | the initial state |
| `Server.RLQSServer.OpenStream` | internal/server/server.go:241-248 | one opening move |
| `Server.RLQSServer.CountBucket` | internal/server/server.go:359-363 | one counting move |
| `Server.RLQSServer.RaiseGauge` | internal/server/server.go:364-364 | one gauge move |
| `Server.RLQSServer.RecordReport` | internal/server/server.go:370-384 | one recording move |
| `Server.RLQSServer.UncountBucket` | internal/server/server.go:419-433 | one uncounting move, telling whether it was the last reference |
| `Server.RLQSServer.RemoveUnreferenced` | internal/server/server.go:484-491 | one removal move |
| `Server.RLQSServer.LowerGauge` | internal/server/server.go:434-475 | one gauge move, after an abandon or before a release |
| `Server.RLQSServer.Leave` | internal/server/server.go:462-468 | one leaving move |
| `Server.RLQSServer.BindDomain` | internal/server/server.go:283-315 | one receiving move |
| `Server.RLQSServer.TrackUsage` | internal/server/server.go:346-357 | one subscription move |
| `Server.RLQSServer.DropAbandoned` | internal/server/server.go:412-418 | one abandon move |
| `Server.RLQSServer.ConsultEngine` | internal/server/server.go:390-408 | the engine is asked once, about exactly the reports collected |
| `Server.RLQSServer.SendReply` | internal/server/server.go:444-453 | one send; a failure closes the stream |
| `Server.RLQSServer.ReportUsage` | internal/server/server.go:319-385 | only moves of this stream; the report is kept exactly if it names a bucket |
| `Server.RLQSServer.ApplyAction` | internal/server/server.go:412-442 | only moves of this stream, through the whole release of an abandoned bucket |
| `Server.RLQSServer.Conclude` | internal/server/server.go:412-455 | all actions applied in order, then one send |
| `Server.RLQSServer.RunMessage` | internal/server/server.go:276-456 | the call is a run of this stream alone from receiving the message to the next boundary; the reply is the engine's answer to exactly the reports that name a bucket |
| `Server.RLQSServer.RunCleanup` | internal/server/server.go:461-493 | the call is a run of this stream alone that ends it |
| `Server.RLQSServer.HandleMessage` | internal/server/server.go:276-456 | obeys the law of messages, keeps the invariant, and the store settled |
| `Server.RLQSServer.CleanupStream` | internal/server/server.go:461-493 | keeps both |
| `Server.RLQSServer.StreamRateLimitQuotas` | internal/server/server.go:240-273 | a whole stream, however it ends, leaves every reference count as it found it |
| `Server.DoneLeavesRefs` | internal/server/server.go:461-493 | reference counts do not depend on ended streams |
| `Server.OwnMovesAreSerial` | internal/server/server.go:276-493 | calls made between other streams' messages form a serial run |
| `Server.RLQSServer.PushAssignments` | internal/server/server.go:158-220 | each bound stream with subscriptions gets the engine's answer for all of them, others nothing |
| `Server.SnapshotReports` | internal/server/server.go:175-178 | one report without usage per subscription |
| `Push.PushMatchesReports` | internal/server/server.go:168-208 | with the real engines, a push gives each subscription once the assignment any report for it would get |
| `Classifier.NewDomainClassifier` | internal/metrics/domain.go:27-47 | succeeds if and only if every non-empty pattern compiles; has exactly those patterns, and the given cap or 100 |
| `Classifier.DomainClassifier.Classify` | internal/metrics/domain.go:52-86 | the domain itself if it was admitted or is acceptable and finds room, in which case it is admitted; the overflow label otherwise |
| `Classifier.RunIsLawful` | internal/metrics/domain.go:52-86 | under any interleaving admitted domains only grow, all match, never exceed the cap; a domain once admitted is passed through by every later answer |
| `Classifier.LabelsAreBounded` | internal/metrics/domain.go:9-86 | at most cap + 1 labels over a whole run |
| `Classifier.WithinCapIsExact` | internal/metrics/domain.go:52-86 | over every interleaving that asks about no more acceptable domains than the cap, an acceptable domain is passed through and any other gets the overflow label |
| `Classifier.UninterruptedCall` | internal/metrics/domain.go:52-86 | a call that is not interleaved answers as the method does |
| `Engine.CompilePatterns` | internal/policy/policy.go:53-75 | succeeds exactly if both patterns are empty, or at most 1024 bytes long and compile |
| `Engine.NewPolicyEngine` | internal/policy/policy.go:107-117 | succeeds exactly if every policy and the default compile, and keeps their order |
| `Engine.FindPolicy` | internal/policy/policy.go:134-146 | the policy `Engine.Chosen` names |
| `Engine.ChosenIsFirst` | internal/policy/policy.go:134-146 | which is the first that matches, or the default if none does |
| `Engine.ProcessUsage` | internal/policy/policy.go:121-167 | one answer per report that names a bucket |
| `Engine.ProcessDistributes` | internal/policy/policy.go:121-167 | batches may be split anywhere |
| `Engine.ProcessIgnoresUsage` | internal/policy/policy.go:127-164 | usage counts do not influence assignments |
| `Engine.DefaultIsEmptyPolicyEngine` | internal/quota/quota.go:44-73 | the default engine is the policy engine over an empty list |
| `Engine.BuildEngine` | cmd/rlqs-server/main.go:52-102 | fails exactly if some pattern is bad; otherwise an engine that assigns what the configuration says |
| `Engine.TokensExactIff` | cmd/rlqs-server/main.go:130-139 | tokens are as configured exactly below 2^32, and modulo 2^32 otherwise |
| `Engine.DefaultTTLExactIff` | cmd/rlqs-server/main.go:62-62 | the default TTL is twice the interval exactly if that does not overflow |
| `Engine.EngineAssignsMeaning` | cmd/rlqs-server/main.go:52-161 | what that is: by the first applicable entry, deny-all, allow-all or requests per unit if so named, else a bucket of its tokens modulo 2^32, with its own TTL or twice the interval; the default if no entry applies |
| `Engine.EngineMeaning` | cmd/rlqs-server/main.go:52-141 | over any batch: one action per report that names a bucket, in order, same id, with that assignment |
| `Reload.Diff` | internal/config/diff.go:23-52 | empty exactly if nothing changed; only the engine section is hot-reloadable |
| `Reload.BuildDomainClassifier` | cmd/rlqs-server/main.go:165-173 | the classifier of the non-empty domain patterns |
| `Reload.EngineBuildsSoClassifierDoes` | cmd/rlqs-server/main.go:297-306 | if the engine builds, so does the classifier |
| `Reload.ClassifierMeaning` | cmd/rlqs-server/main.go:165-173 | the classifier of a configuration accepts a domain if and only if no policy has a domain pattern or one of them matches |
| `Reload.Reloader.SwapEngine` | internal/server/server.go:150-153 | panics exactly on an engine of the other concrete type |
| `Reload.Reloader.SwapDomainClassifier` | internal/server/server.go:225-227 | the new classifier is in force |
| `Reload.Reloader.Step` | cmd/rlqs-server/main.go:271-310 | one configuration is applied, skipped or rejected as `Reload.Reloaded` says |
| `Reload.Reloader.Loop` | cmd/rlqs-server/main.go:270-311 | and a sequence of them one after the other |
| `Reload.ReloadMeaning` | cmd/rlqs-server/main.go:270-311 | over any sequence: a crash exactly if some configuration that builds flips between no policies and some; otherwise engine and classifier are those of the last configuration that builds |
| `Reload.FirstPolicyCrashes` | cmd/rlqs-server/main.go:270-311 | the first policy that applies to everything crashes any server running without policies |
| `Locking.ProgramsAreOrdered` | internal/server/server.go:159-508 | every sequence of the code's critical sections takes locks in one strict order |
| `Locking.StepKeepsInv` | internal/server/server.go:159-508 | a step keeps the order and mutual exclusion |
| `Locking.NoDeadlock` | internal/server/server.go:159-508 | while a thread is unfinished, some thread can step, with writers that block new readers |
| `Locking.ReachableNeverDeadlocks` | internal/server/server.go:159-508 | so in every reachable state of any number of threads |
| `Guards.IndependentMovesCommute` | internal/server/server.go:97-508 | moves of different streams that do not enter the same critical section can be made in either order, to the same state |
| `Guards.SwappedRunEndsTheSame` | internal/server/server.go:97-508 | so they can be swapped anywhere in a run, which then goes on to the same streams and shared state |

## Left out

- gRPC transport, interceptors, health service, TLS, keepalive: receive and send are arbitrary outcomes.
- The regular-expression engine and `strings.ToUpper`: arbitrary functions.
- The Redis client, its pool, timeouts and real time: outcomes, clock readings and expiries are part of the event.
- Redis.Conservation: counts from the empty start of all instances; a restarted instance, which loses its fallback, is not an event.
- Redis.RemovalTakesAllShares: stated while less than 2^63 was reported for the counter, as Conservation is; `Redis.SharesMakeUpRedis` needs no bound.
- Collisions.AcceptedCollides: for an id that itself holds NUL or RS, one direction needs the whole key to be within both limits; for the others `Merges.PlainCollidesIff` is exact.
- RedisStore.RedisStorage.RecordUsage: one call is atomic; calls of one instance that overlap inside `flushFallback` are not modelled.
- RedisStore.RedisStorage.constructor: pool size, key TTL and logger defaults have no effect on the counters and are not modelled.
- Composition.ClusterLeavesNothing: needs a run that is faithful on the counter; what happens otherwise is in the ledger of `Redis.Conservation`.
- Server.RLQSServer.PushAssignments: sends are not ordered against replies or other pushes, and a failed send is ignored, as in the code.
- Locking.ProgramsAreOrdered: the sections are written down from the code; the lock inside the Redis store, always taken alone, is not listed.
- Reload.Diff: compares values, so it does not tell an absent policy list from an empty one; the code then rebuilds an equal engine.
- `UsageReport.TimeElapsed`, request counters and engine timing metrics, the ActiveStreams gauge, logging, tracing: never read back.
- YAML loading, deprecated field names, environment overrides, the file watcher and its debounce.
- The admin endpoints other than the bucket listing, stream statistics, and the pending-restart list.
- Helm charts, examples, scripts, Docker files.
