# fraud-core in Dafny

This is a model of the transaction-scoring pipeline of fraud-core. A Kafka
consumer reads transactions. The fraud detector resolves the user and reads
the user's velocity (the number of distinct locations used in the last
minute) from Redis. It asks the remote AI risk engine for a verdict: a
read-through Redis cache stands in front of that engine, and the remote call
is tried at most three times. The detector then combines the two signals
and saves an audit event. It bumps the velocity counter and publishes the
alert. A websocket hub fans alerts out to dashboards. The smaller pieces are
also modelled:
- the Kafka topic bootstrap;
- configuration loading;
- the transaction simulator's persona table;
- the log-level mapping.

The modules follow the Go source files. `Wrappers`, `BoundedRetry` and `Decimal`
are shared helpers that stand for no single Go file; `Domain` covers the four
files of internal/domain.

| module | file | models |
|---|---|---|
| `Wrappers` | wrappers.dfy | `Option`, `Result`, `Outcome` (error = message string) |
| `Domain` | domain.dfy | `Transaction`, `User`, `FraudAlert`, `FraudEvent` |
| `Decimal` | decimal.dfy | decimal text of numbers, as fmt's `%d` writes it |
| `BoundedRetry` | retry.dfy | try up to N attempts and stop at the first success; retry-go's error message |
| `RedisCache` | redis.dfy | key formats, velocity SCAN count, stats and risk caches, a `Redis` store class |
| `RiskEngine` | risk_engine.dfy | `RiskClient`: the cache, then the remote call |
| `FraudDetection` | fraud_detector.dfy | `FraudDetector.Detect` over a repository, a velocity store and an alert log |
| `KafkaConsumer` | consumer.dfy | the `Consume` loop |
| `LiveHub` | hub.dfy | the hub's client set and its register, unregister and broadcast arms |
| `KafkaAdmin` | admin.dfy | `EnsureTopics` |
| `Config` | config.dfy | `getEnv`, broker splitting, `Validate`, `New` |
| `Simulator` | simulator.dfy | `generateTransaction` |
| `Logger` | logger.dfy | level-name mapping |

Collaborators whose behaviour cannot be seen become parameters:
- the answer or failure of each database, Redis, Kafka, gRPC and websocket call;
- the SCAN reply sequence;
- the retry attempt outcomes;
- random draws and the clock.

State that the source mutates through a collaborator is a class field, and
the methods state the whole new state. This covers the user table, the event
log, the velocity counters, the published alerts, the Redis keys with their
TTLs and the hub's client set. Amounts are `float64` in the source and
integers here.

### Behaviour worth knowing

- A `GetUserByID` or `CreateUser` error aborts `Detect` with
  `failed to get user: …` / `failed to create user: …`
  (internal/usecase/fraud_detector.go:47-56).
- When the AI call fails, the verdict is not blocking and its reason is
  `AI Rate Limit reached - System in monitoring mode`
  (internal/usecase/fraud_detector.go:67-74).
- A velocity block does not change the reason text: the AI reason is copied
  verbatim (internal/usecase/fraud_detector.go:76-101).
  - `FraudDetection.VelocityBlockScenario` proves that at velocity 15 the
    alert is blocked and its reason does not contain `[Velocity Block]`.
  - The source's own test, internal/usecase/fraud_detector_test.go:103,
    expects that marker, which the code as written does not produce.
- `Detect` uses neither the stats cache nor a risk cache; risk caching lives
  in the risk client (internal/infrastructure/grpc_client/risk_engine.go:36-62).
- `GetVelocity` counts the keys matching `velocity:<user>:*`, i.e. the
  locations seen in the last minute; it does not add up the counters
  (internal/infrastructure/db/redis.go:29-46).
- The published alert carries no push message
  (internal/usecase/fraud_detector.go:94-101).
- `Consume` never returns nil. Its only exit is a read error, cancellation
  included (internal/infrastructure/kafka/consumer.go:29-47).

## Model

| member | source | states |
|---|---|---|
| BoundedRetry.RetryContract | internal/infrastructure/kafka/admin.go:22-32 | between 1 and `limit` attempts are made, all but the last failed, the result is the first success, and the last attempt's error is returned iff every attempt fails |
| BoundedRetry.ErrorsOf | internal/infrastructure/grpc_client/risk_engine.go:85-93 | one error text per attempt, in attempt order, each the attempt's own error |
| BoundedRetry.NumberedEndsWithLast | internal/infrastructure/grpc_client/risk_engine.go:85-96 | the numbered list of retry-go's error ends with the last attempt's error |
| BoundedRetry.ThreeAttemptsMessage | internal/infrastructure/grpc_client/risk_engine.go:85-96 | three failures read `All attempts fail:` then `#1: `, `#2: `, `#3: ` lines with each attempt's error, in order |
| RedisCache.VelocityKey | internal/infrastructure/db/redis.go:29-49 | the key written by IncrementVelocity is the user's SCAN prefix `velocity:<user>:` followed by the location, so it matches that user's pattern |
| RedisCache.StatsKey | internal/infrastructure/db/redis.go:58 | `user_stats:` followed by the user id, which the key therefore determines |
| RedisCache.RiskKey | internal/infrastructure/db/redis.go:77 | `ai_risk:` followed by user id, colon, merchant |
| RedisCache.VelocityPatternSelectsOwnUser | internal/infrastructure/db/redis.go:30 | for colon-free user ids the pattern selects only that user's keys |
| RedisCache.VelocityPatternOvermatches | internal/infrastructure/db/redis.go:30 | the pattern of user `a` also matches keys of user `a:b` |
| RedisCache.RiskKeyInjective | internal/infrastructure/db/redis.go:76-77 | for colon-free user ids the risk key determines (user, merchant) |
| RedisCache.RiskKeyCollides | internal/infrastructure/db/redis.go:77 | with a colon in the user id, two pairs share one risk key |
| RedisCache.RiskCacheRead | internal/infrastructure/db/redis.go:76-90 | nothing iff the key is missing, the stored alert for a JSON alert, an unmarshal error iff another value is stored |
| RedisCache.StatsRead | internal/infrastructure/db/redis.go:57-69 | zeros for a missing key, the stored pair for a stats value, a parse error otherwise |
| RedisCache.DecodeAlert | internal/infrastructure/db/redis.go:84-88 | decoding succeeds exactly for a stored JSON alert |
| RedisCache.RiskCacheRoundTrip | internal/infrastructure/db/redis.go:76-96 | SetRiskCache then GetRiskCache returns the alert written |
| RedisCache.RiskCacheIsolation | internal/infrastructure/db/redis.go:92-96 | for colon-free user ids, caching one (user, merchant) leaves every other pair's entry as it was |
| RedisCache.StatsRoundTrip | internal/infrastructure/db/redis.go:57-74 | stats written are read back; a missing entry reads as zeros |
| RedisCache.ScanCount | internal/infrastructure/db/redis.go:34-45 | a successful count is non-negative; an error is the one the first failed SCAN reply returned, every earlier reply being a batch with a non-zero cursor |
| RedisCache.ScanCountIsScannedLength | internal/infrastructure/db/redis.go:34-44 | the loop's count is the number of keys in all batches up to cursor 0 |
| RedisCache.ScanCountsKeys | internal/infrastructure/db/redis.go:29-45 | a scan that enumerates each matching key once counts the matching keys |
| RedisCache.VelocityKeysAfterWrite | internal/infrastructure/db/redis.go:48-55 | an increment adds exactly its key to those the user's pattern selects |
| RedisCache.VelocityCountsLocations | internal/infrastructure/db/redis.go:29-55 | a repeat increment at a known location leaves the count unchanged; a new location raises it by one |
| RedisCache.Redis.Get | internal/infrastructure/db/redis.go:59-64 | a network error, a hit with the stored value, or `redis.Nil` on a missing key |
| RedisCache.Redis.Set | internal/infrastructure/db/redis.go:73 | SET with expiry writes the value and its TTL, or changes nothing on error |
| RedisCache.RedisRepository.GetVelocity | internal/infrastructure/db/redis.go:29-46 | the cursor loop returns the scan count, the number of the user's velocity keys, or the first error with the partial count discarded |
| RedisCache.RedisRepository.IncrementVelocity | internal/infrastructure/db/redis.go:48-55 | INCR creates the counter at 1 or adds one, EXPIRE sets 60 s; a non-integer value fails INCR but still gets the TTL |
| RedisCache.RedisRepository.GetUserStats | internal/infrastructure/db/redis.go:57-69 | zeros on a miss, the stored pair on a hit, an error on a store error or an unparsable value |
| RedisCache.RedisRepository.SetUserStats | internal/infrastructure/db/redis.go:71-74 | writes `user_stats:<u>` with a 10-minute TTL |
| RedisCache.RedisRepository.GetRiskCache | internal/infrastructure/db/redis.go:76-90 | `(nil, nil)` on a miss, the alert on a decodable hit, an error otherwise |
| RedisCache.RedisRepository.SetRiskCache | internal/infrastructure/db/redis.go:92-96 | writes `ai_risk:<u>:<m>` with a 5-minute TTL |
| RiskEngine.BuildRequest | internal/infrastructure/grpc_client/risk_engine.go:70-82 | the request identifies the transaction by its own fields and carries the user's risk score and amounts |
| RiskEngine.RequestUsesProfileOnly | internal/infrastructure/grpc_client/risk_engine.go:70-82 | the stored user's id and ban flag are not sent: equal profiles give equal requests |
| RiskEngine.AlertFrom | internal/infrastructure/grpc_client/risk_engine.go:50-58 | id, amount, location, merchant from the transaction; reason, push message and blocked flag exactly the response's |
| RiskEngine.CachedAlert | internal/infrastructure/grpc_client/risk_engine.go:38-43 | a cached answer exists iff the GET succeeds on a stored JSON alert, and it is that alert |
| RiskEngine.RemoteVerdict | internal/infrastructure/grpc_client/risk_engine.go:45-58 | succeeds iff some attempt of three succeeds; the alert takes id, amount, location and merchant from the transaction and the verdict from the first successful response; otherwise `remote ai-risk-engine failure: ` + retry-go's list of the three errors |
| RiskEngine.RiskClient.FetchRemoteAnalysis | internal/infrastructure/grpc_client/risk_engine.go:66-99 | 1 to 3 identical requests, built from the transaction and user, as many as the retry makes; stops at the first success; fails iff all three fail, with `remote ai-risk-engine failure: ` + `All attempts fail:` and one numbered line per attempt's error |
| RiskEngine.RiskClient.Analyze | internal/infrastructure/grpc_client/risk_engine.go:35-64 | a decodable cache hit is returned with no request and no write; otherwise as many requests as the retry makes and the remote verdict, cached for 5 minutes only when it succeeds and the write succeeds |
| RiskEngine.RiskClient.AnalyzeTwice | internal/infrastructure/grpc_client/risk_engine.go:35-63 | after a call that produced a verdict and cached it, a call for the same user and merchant with a clean GET sends no request and returns that verdict, with the first transaction's id when the first call asked the engine |
| RiskEngine.RiskClient.Close | internal/infrastructure/grpc_client/risk_engine.go:101-106 | nil without a connection, else the connection's close result |
| FraudDetection.Verdict | internal/usecase/fraud_detector.go:59-101 | blocked iff (a velocity store is present and velocity > 10) or the AI verdict blocks, so a failed AI call never blocks; id, amount, location, merchant from the transaction, the reason from the AI (or the fail-safe text), no push message |
| FraudDetection.EventFor | internal/usecase/fraud_detector.go:76-87 | the saved event describes the transaction and carries the published alert's blocked flag, reason and transaction id |
| FraudDetection.VelocityThresholdIsStrict | internal/usecase/fraud_detector.go:62 | velocity 10 is not fraud, 11 is |
| FraudDetection.NoCacheIgnoresVelocity | internal/usecase/fraud_detector.go:59-65 | without a velocity store the reading has no effect |
| FraudDetection.VelocityBlockScenario | internal/usecase/fraud_detector_test.go:75-106 | velocity 15 with a non-blocking AI is blocked, and the reason lacks `[Velocity Block]` |
| FraudDetection.NormalTransactionScenario | internal/usecase/fraud_detector_test.go:108-133 | velocity 2 with a non-blocking AI is allowed |
| FraudDetection.Repository.GetUserByID | internal/usecase/fraud_detector.go:16 | the stored user, nil for an unknown id, or the error |
| FraudDetection.Repository.CreateUser | internal/usecase/fraud_detector.go:17 | stores the user unless it fails |
| FraudDetection.Repository.SaveFraudEvent | internal/usecase/fraud_detector.go:18 | appends the event unless it fails |
| FraudDetection.VelocityStore.IncrementVelocity | internal/usecase/fraud_detector.go:23 | bumps the (user, location) counter unless it fails |
| FraudDetection.AlertLog.Publish | internal/usecase/fraud_detector.go:27 | appends the alert unless it fails |
| FraudDetection.FraudDetector.Detect | internal/usecase/fraud_detector.go:46-109 | a lookup error or a failed creation of a new user returns the wrapped error with nothing changed; otherwise the user exists (new ones with risk score 15), the event is saved iff the save succeeds, the counter is bumped iff a store is present and the increment succeeds, the verdict is published iff publishing succeeds, and the publish error is returned |
| KafkaConsumer.Decode | internal/infrastructure/kafka/consumer.go:37-41 | only a JSON transaction decodes |
| KafkaConsumer.FirstReadError | internal/infrastructure/kafka/consumer.go:31-35 | the position of the first failed read; every earlier read succeeded |
| KafkaConsumer.Delivered | internal/infrastructure/kafka/consumer.go:30-35 | the messages read before the first failed read, one per successful read, in order |
| KafkaConsumer.Consume | internal/infrastructure/kafka/consumer.go:29-47 | returns the first read error and logs it last; before that, the handler is called for each decodable delivered message in order, and the k-th call's failure is logged with the transaction id and the outcome of call k, parse failures as parse errors |
| KafkaConsumer.HandleSplits | internal/infrastructure/kafka/consumer.go:30-46 | handling a concatenation is handling each part in order, the second part's handler calls numbered after the first part's |
| KafkaConsumer.CalledIffDecodable | internal/infrastructure/kafka/consumer.go:37-45 | the handler is called with a transaction iff a delivered message decodes to it, exactly as many times as such messages occur, and never more often than there are messages |
| KafkaConsumer.HandlerFailureContinues | internal/infrastructure/kafka/consumer.go:43-45 | a failed handler call is logged with its own error and the later messages are still handled, by the following calls |
| KafkaConsumer.MalformedSkipped | internal/infrastructure/kafka/consumer.go:37-41 | an undecodable message logs a parse error and makes no handler call, so the next call keeps its number |
| KafkaConsumer.RedeliveryCanSucceed | internal/app/processor.go:105-111 | the handler keeps state: the same transaction delivered twice is handled twice, and a first failure followed by a success logs one failure |
| LiveHub.AfterRegister | internal/delivery/http/handler.go:62-68 | only the given connection can join; nothing is closed or written |
| LiveHub.AfterUnregister | internal/delivery/http/handler.go:69-81 | no connection joins; a connection is closed only as it leaves the set; nothing is written |
| LiveHub.AfterBroadcast | internal/delivery/http/handler.go:82-94 | no connection joins; a connection is closed only as it leaves; histories only grow, and only for connections that stay |
| LiveHub.RunEvents | internal/delivery/http/handler.go:58-96 | over any run, close calls are only added and each connection's history is only extended |
| LiveHub.Hub.constructor | internal/delivery/http/handler.go:28-35 | a new hub has no clients |
| LiveHub.Hub.Register | internal/delivery/http/handler.go:62-68 | nil is ignored; a connection is added |
| LiveHub.Hub.Unregister | internal/delivery/http/handler.go:69-81 | a present connection is closed and removed; nil or an absent one changes nothing |
| LiveHub.Hub.Broadcast | internal/delivery/http/handler.go:82-94 | every client is written once; failing clients are closed and removed, the others receive the message |
| LiveHub.Hub.Run | internal/delivery/http/handler.go:58-96 | takes the events in order, stopping at context cancellation |
| LiveHub.RegisterAdds | internal/delivery/http/handler.go:62-68 | nil leaves the state unchanged; a connection only joins the set |
| LiveHub.UnregisterIdempotent | internal/delivery/http/handler.go:69-81 | unregistering twice is unregistering once; a present connection is closed exactly once |
| LiveHub.BroadcastPrunes | internal/delivery/http/handler.go:82-94 | the new set is the old set minus failing connections, each closed once, none added; the rest receive the message |
| LiveHub.LiveConnectionReceivesAll | internal/delivery/http/handler.go:82-94 | over N broadcasts a client whose writes succeed stays and receives all N messages in order |
| LiveHub.PrunedConnectionReceivesNothing | internal/delivery/http/handler.go:82-94 | a connection not in the set stays out and receives nothing more |
| LiveHub.DoneStops | internal/delivery/http/handler.go:59-61 | after cancellation no further event is taken |
| KafkaAdmin.EnsureTopics | internal/infrastructure/kafka/admin.go:18-69 | at most 10 dials; when all fail, `failed to dial kafka after 10 attempts: ` + the last error and nothing created; controller, controller-dial and partition errors are returned as they are; otherwise the missing topics are requested iff there are any, and the creation error is returned |
| KafkaAdmin.Dial | internal/infrastructure/kafka/admin.go:22-32 | dials until the first success, at most ten times, keeping the last error |
| KafkaAdmin.ExistingTopics | internal/infrastructure/kafka/admin.go:50-53 | the set of topics having a partition |
| KafkaAdmin.MissingTopics | internal/infrastructure/kafka/admin.go:55-60 | the creation request built by the append loop |
| KafkaAdmin.TopicsOf | internal/infrastructure/kafka/admin.go:50-53 | exactly the topics of the listed partitions |
| KafkaAdmin.ToCreate | internal/infrastructure/kafka/admin.go:55-60 | no more configs than topics asked for; each asked for, not existing, with 1 partition and replication factor 1 |
| KafkaAdmin.ToCreateMembership | internal/infrastructure/kafka/admin.go:55-60 | a topic is requested iff it was asked for and does not exist |
| KafkaAdmin.ToCreateMultiplicity | internal/infrastructure/kafka/admin.go:56-60 | a missing topic asked for n times is requested n times |
| KafkaAdmin.ToCreateConcat | internal/infrastructure/kafka/admin.go:56-60 | argument order is kept |
| KafkaAdmin.NothingToCreate | internal/infrastructure/kafka/admin.go:62-66 | when every topic exists nothing is requested |
| Config.GetEnv | internal/config/config.go:49-54 | a set variable wins even when empty; else the fallback |
| Config.Split | internal/config/config.go:22 | at least one piece, none containing a comma |
| Config.SplitCount | internal/config/config.go:22 | one piece more than there are commas |
| Config.JoinSplit | internal/config/config.go:22 | joining the pieces with commas gives the value back |
| Config.SplitJoin | internal/config/config.go:22 | splitting joined comma-free pieces gives them back |
| Config.FirstBrokerEmpty | internal/config/config.go:22 | the first broker is empty iff the value is empty or starts with a comma |
| Config.Validate | internal/config/config.go:39-47 | passes iff the first broker and the DSN are non-empty; the broker error comes first |
| Config.ValidateChecksOnlyBrokersAndDsn | internal/config/config.go:39-47 | no other field affects validation, so an empty Redis address passes |
| Config.Load | internal/config/config.go:21-30 | at least one comma-free broker, joining back to KAFKA_BROKERS or its default; every other setting is its variable or its default |
| Config.New | internal/config/config.go:20-37 | a successful result is the loaded configuration |
| Config.NewFailsIff | internal/config/config.go:20-47 | New fails iff KAFKA_BROKERS is set empty or starting with a comma, or POSTGRES_DSN is set empty, with the matching message |
| Config.NewDefaults | internal/config/config.go:20-37 | with nothing set, every default applies and there is one broker `kafka:9092` |
| Logger.LowerChar | pkg/logger/logger.go:12 | an upper-case ASCII letter becomes the letter 32 code points on, nothing else changes |
| Logger.ToLower | pkg/logger/logger.go:12 | length kept, each character lowered |
| Logger.ToLowerIdempotent | pkg/logger/logger.go:12 | lowering twice is lowering once |
| Logger.ParseLevel | pkg/logger/logger.go:12-21 | debug, warn, error select their levels, in any case; every other string selects Info |
| Logger.ParseLevelIgnoresCase | pkg/logger/logger.go:12 | matching is case-insensitive |
| Logger.ParseLevelExamples | pkg/logger/logger.go:12-21 | `WARN`, `Error`, `DeBuG` select their levels; `""` and `warning` give Info |
| Decimal.NatToString | internal/usecase/simulator.go:76 | a non-empty string of decimal digits |
| Decimal.ParseNatToString | internal/usecase/simulator.go:76 | the decimal text reads back as the number |
| Decimal.IntToStringInjective | internal/usecase/simulator.go:70 | distinct integers, negative ones included, have distinct decimal text |
| Simulator.GenerateTransaction | internal/usecase/simulator.go:41-79 | persona user id, USD, `tx-<nanos>` id, `192.168.1.<n+1>` IP, the persona's amount base plus the draw, or the override values when the roll is below 5 |
| Simulator.PersonaProfiles | internal/usecase/simulator.go:48-61 | each persona's amount range, merchant and location |
| Simulator.OverrideIff | internal/usecase/simulator.go:63-67 | the amount is 99999 iff the roll is below 5; every amount lies in [20, 99999] |
| Simulator.IpHostInRange | internal/usecase/simulator.go:76 | the IP's last octet is decimal text between 1 and 254 |
| Simulator.IdsDistinct | internal/usecase/simulator.go:70 | distinct clock readings, negative ones included, give distinct transaction ids |

## Left out

- Time: TTL expiry, the 10-second RPC timeout, retry delays, the 3-second dial delay, and the simulator's random sleep. TTLs are recorded, never expired.
- Floating point: amounts are integers. The `%.2f|%.2f` stats format and its `Sscanf` are a `Stats` value. The `userContext` string is a `UserContext` record.
- JSON: a stored or consumed value is either a well-formed record or an undecodable one. Partial decoding is not modelled.
- RedisCache.RedisRepository.GetVelocity: SCAN's guarantees are assumed, not modelled. These are that each matching key is enumerated exactly once and that the conversation ends. Glob metacharacters inside a user id are not interpreted, and the pattern is a prefix match.
- RedisCache.RedisRepository.IncrementVelocity: INCR's 64-bit overflow is not modelled.
- RiskEngine.RemoteVerdict: the text of retry-go's error (`All attempts fail:` then `#<n>: <error>` per attempt) follows that library's `Error` method, whose source is not part of this model; an attempt cut short by the 10-second deadline is an ordinary failed attempt.
- RiskEngine.RiskClient.FetchRemoteAnalysis: the same retry-go error text as `RiskEngine.RemoteVerdict`; the 200 ms delay between attempts is not modelled.
- KafkaConsumer.Consume: its contract requires that some read fails, so it covers only runs that end; a run whose reads never fail (the normal life of the service) is described only through `Calls` and `Logged` on each finite prefix of the reads. The handler is the service's closure around `Detect`, whose state is the detector's stores; the model does not run `Detect` inside the loop but takes the outcome of the handler's k-th call as a parameter.
- FraudDetection.FraudDetector.Detect: the velocity reading is a parameter; GetVelocity's error, which the source discards (`vel, _ :=`), is not modelled. The AI client is a function of the transaction and user. The detector's stateful collaborators are the three classes of the module.
- Logging outside the Kafka consumer, and the `slog.SetDefault` side effect of the logger setup.
- Logger.ToLower: only ASCII letters are lowered; Go's `strings.ToLower` also folds other Unicode letters.
- LiveHub.Hub.Broadcast: the order in which the set is walked is arbitrary, and a close error is only logged. The model records close calls and successful writes, not failed write attempts.
- The hub's Kafka reader goroutine, the channels, the mutex, websocket upgrade and route registration (internal/delivery/http/handler.go:37-56, 99-117).
- KafkaAdmin.EnsureTopics: the controller address (`net.JoinHostPort`) and the deferred connection closes are not modelled; the dial outcomes are parameters.
- Simulator.GenerateTransaction: the timestamp field is not modelled, and `Simulator.Run`'s timer loop is left out.
- Process bootstrap (internal/app, cmd), the thin Kafka producer and publisher, the GORM repository and seeder, and pkg/closer: these are plumbing. The repository's contract (not found gives `(nil, nil)`) is the `Repository` class.
