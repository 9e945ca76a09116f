# Scalable notifications: a verified model of the pipeline core

The system is a three-service notification pipeline:

- **Enqueue service.** It accepts events and publishes them to Kafka.
- **Prioritizer service.** It validates each event, assigns it a priority from its event type, and routes it to one of three priority topics.
- **Rate-limiter service.** It consumes the three topics through three consumer groups and stages the records in per-priority buffers. A scheduler drains the buffers, favouring higher priorities. For each record it:
  - applies a sliding-window rate limit kept in Redis sorted sets;
  - loads the user's channel preferences from SQL;
  - decides the delivery channels;
  - hands the result to a producer.

All three services make sure their topics exist at start-up, through a cached topic manager.

The model covers that core.

**Prioritizer service**
- `Validator`: the event validator.
- `Prioritizer`: the event-type-to-priority table.
- `PriorityProducer`: routing a prioritized event to its topic.
- `ClassifyProcessor`: the validate, prioritize, send pipeline.

**Rate-limiter service**
- `RateLimiter`: the Redis sliding-window limiter, over a sorted-set store (`CounterStore`) and decimal timestamp members (`Decimal`).
- `Preferences`: assembly of the preference matrix from the three SQL lookups.
- `DeliveryProcessor`: the per-record processor and its channel decision.
- `Consumer`: the priority consumer. This covers:
  - the buffered channels;
  - the three consumer-group handlers;
  - one iteration of the scheduler's nested `select`;
  - `Close`.

**Topic provisioning, shared by all three services**
- `TopicAdmin`: the cached topic manager, over a cluster admin whose requests may fail.
- `PrioritizerTopics`: the prioritizer's three-topic set-up.
- `EnqueueTopics`: the enqueue service's topic-name listing.

**Modelling conventions**
- Go code that mutates objects is modelled as classes whose methods are proved against specification functions. Examples:
  - `RedisRateLimiter.IsRateLimited` against `RateLimiter.Check`;
  - `Processor.ProcessMessage` against `DeliveryProcessor.Pipeline`;
  - `TopicManager.EnsureTopicExists` against `TopicAdmin.Provision`.
- The `*Properties` modules prove what those specification functions guarantee.
- **Failures.** A Redis command or cluster request fails when it is in a fixed set of failing requests. A SQL lookup or scan failure is part of the lookup's result value.
- **Nondeterminism.** Go's random map iteration order and random choice among ready `select` cases are modelled as nondeterministic choice (`:|`). The proofs hold for every choice.

The model also states the following as-written behaviours, each as a proved lemma:
- the ZADD error that `incrementCounter` discards (`SwallowedAddError`);
- the partial write when the event key's increment fails after the user key's (`EventFailureAfterUserIncrement`);
- the rate-limit key of one user colliding with the event key of another (`KeysCanCollideAcrossUsers`);
- low-priority records being handled while high-priority ones wait (`LowCanPassWaitingHigh`).

## Model

| member | source | states |
|---|---|---|
| Models.EnabledIn | services/rate-limiter-service/kafka/processor.go:105-111 | A channel is in the result exactly when the map lists it with value true |
| Decimal.FormatIntInjective | services/rate-limiter-service/ratelimiter/limiter.go:142 | Distinct timestamps give distinct decimal members, so a sorted set holds one member per second |
| CounterStore.RemoveRangeByScore | services/rate-limiter-service/ratelimiter/limiter.go:125-128 | ZREMRANGEBYSCORE keeps exactly the members of the key whose score is outside [min, max], and leaves other keys and expiries alone |
| CounterStore.WithMember | services/rate-limiter-service/ratelimiter/limiter.go:143-146 | ZADD sets the member's score, keeps every other member of the key, and changes no other key |
| CounterStore.WithExpiry | services/rate-limiter-service/ratelimiter/limiter.go:149-150 | EXPIRE sets the key's time-to-live and changes no members |
| CounterStore.SortedSetStore.ZRemRangeByScore | services/rate-limiter-service/ratelimiter/limiter.go:125-128 | A failing command changes nothing and reports an error; otherwise the store becomes RemoveRangeByScore of the old store |
| CounterStore.SortedSetStore.ZCard | services/rate-limiter-service/ratelimiter/limiter.go:131-137 | Returns the key's cardinality, or an error with 0 |
| CounterStore.SortedSetStore.ZAdd | services/rate-limiter-service/ratelimiter/limiter.go:143-146 | A failure changes nothing; otherwise the store becomes WithMember of the old store |
| CounterStore.SortedSetStore.Expire | services/rate-limiter-service/ratelimiter/limiter.go:149-150 | A failure changes nothing; otherwise the store becomes WithExpiry of the old store |
| RateLimiter.EventKey | services/rate-limiter-service/ratelimiter/limiter.go:68-69 | The event key extends the user key (the user key is a proper prefix) |
| RateLimiter.LimitTable | services/rate-limiter-service/ratelimiter/limiter.go:54-62 | The limits map has exactly the keys high, medium and low |
| RateLimiter.LimitForPriority | services/rate-limiter-service/ratelimiter/limiter.go:154-160 | A priority gets its configured limit: high and medium their own, anything else the low limit |
| RateLimiter.RedisRateLimiter.constructor | services/rate-limiter-service/ratelimiter/limiter.go:54-62 | Stores the window and builds the limit table from the configuration |
| RateLimiter.RedisRateLimiter.IsRateLimited | services/rate-limiter-service/ratelimiter/limiter.go:66-122 | The returned (limited, error) and the new store equal Check: purge both keys, count, compare, cap `like` at 20, then increment the user key and then the event key |
| RateLimiter.RedisRateLimiter.CleanupOldEntries | services/rate-limiter-service/ratelimiter/limiter.go:125-128 | Removes scores in [0, windowStart] or reports the failure |
| RateLimiter.RedisRateLimiter.GetCurrentCount | services/rate-limiter-service/ratelimiter/limiter.go:131-137 | Returns the key's member count, or an error |
| RateLimiter.RedisRateLimiter.IncrementCounter | services/rate-limiter-service/ratelimiter/limiter.go:140-151 | Equals Increment: ZADD of the decimal timestamp scored by the timestamp, then EXPIRE of twice the window; only the EXPIRE result is returned |
| RateLimiter.MockRateLimiter.IsRateLimited | services/rate-limiter-service/ratelimiter/limiter.go:173-175 | Returns the configured answer and never an error |
| RateLimiterProperties.PurgedOnEveryCall | services/rate-limiter-service/ratelimiter/limiter.go:76-82 | Whatever the verdict, a call whose purges succeed leaves no stale entry under either key |
| RateLimiterProperties.PurgedHasNoStale | services/rate-limiter-service/ratelimiter/limiter.go:76-82 | After both purges neither key has a member scored in [0, windowStart] |
| RateLimiterProperties.IncrementKeepsNoStale | services/rate-limiter-service/ratelimiter/limiter.go:140-151 | An increment at `now` keeps a key free of stale members when the window is positive |
| RateLimiterProperties.AdmitKeepsNoStale | services/rate-limiter-service/ratelimiter/limiter.go:113-121 | Both increments keep both keys free of stale members |
| RateLimiterProperties.DecideKeepsNoStale | services/rate-limiter-service/ratelimiter/limiter.go:85-121 | Counting, comparing and incrementing keep both keys free of stale members |
| RateLimiterProperties.RejectionInsertsNothing | services/rate-limiter-service/ratelimiter/limiter.go:97-110 | A rate-limited call writes no marker: the store is the purged store |
| RateLimiterProperties.AdmitNeverLimits | services/rate-limiter-service/ratelimiter/limiter.go:113-121 | The increment stage never answers "limited" |
| RateLimiterProperties.LimitedExactly | services/rate-limiter-service/ratelimiter/limiter.go:97-110 | With successful reads, "limited" holds iff the user count reaches the priority's limit or the event is `like` and its count reaches 20 |
| RateLimiterProperties.OnlyLikeIsCapped | services/rate-limiter-service/ratelimiter/limiter.go:106-110 | For any other event type, only the user limit decides |
| RateLimiterProperties.ErrorsAreNotLimits | services/rate-limiter-service/ratelimiter/limiter.go:76-121 | A store error is reported as (false, error), never as "limited" |
| RateLimiterProperties.AdmissionInsertsMarkers | services/rate-limiter-service/ratelimiter/limiter.go:113-121 | A healthy admission returns (false, nil); it gives both keys the member for `now` with score `now` and an expiry of twice the window, and touches no other key |
| RateLimiterProperties.PurgeOfFreshKey | services/rate-limiter-service/ratelimiter/limiter.go:76-82 | Purging a key all of whose scores lie after windowStart changes nothing |
| RateLimiterProperties.MarkedMembers | services/rate-limiter-service/ratelimiter/limiter.go:113-121 | The members of both keys after a healthy admission are the purged members plus the marker for `now` |
| RateLimiterProperties.HealthyAdmission | services/rate-limiter-service/ratelimiter/limiter.go:113-121 | A healthy, non-limited check returns (false, nil) and leaves the Marked store |
| RateLimiterProperties.ReadmitSameSecond | services/rate-limiter-service/ratelimiter/limiter.go:142-146 | When the user key already holds the marker for `now` and nothing stale, a further admission leaves its members unchanged |
| RateLimiterProperties.AdmissionLeavesMarker | services/rate-limiter-service/ratelimiter/limiter.go:113-121 | After a healthy admission the user key holds the member for `now`, scored `now` |
| RateLimiterProperties.SameSecondCountsOnce | services/rate-limiter-service/ratelimiter/limiter.go:140-146 | Two admissions of one user within one second leave the count where the first put it |
| RateLimiterProperties.AdmissionCountsNewSecond | services/rate-limiter-service/ratelimiter/limiter.go:113-121 | An admission raises the user count by one exactly when no marker of the same second is already there |
| RateLimiterProperties.NewSecondIsNewMember | services/rate-limiter-service/ratelimiter/limiter.go:142 | In a key of timestamp members, the member for a second with no entry is new |
| RateLimiterProperties.AdmittedReachesIncrements | services/rate-limiter-service/ratelimiter/limiter.go:97-121 | With successful reads, a check admits exactly when the healthy check does, and then goes on to the increments |
| RateLimiterProperties.PurgeKeepsTimestampMembers | services/rate-limiter-service/ratelimiter/limiter.go:125-128 | Purging preserves "every member is the decimal form of its score" |
| RateLimiterProperties.IncrementKeepsTimestampMembers | services/rate-limiter-service/ratelimiter/limiter.go:140-151 | Incrementing preserves "every member is the decimal form of its score" |
| RateLimiterProperties.CheckKeepsTimestampMembers | services/rate-limiter-service/ratelimiter/limiter.go:66-122 | A whole call preserves that invariant on every key, whatever fails |
| RateLimiterProperties.NewSecondCountsOnceMore | services/rate-limiter-service/ratelimiter/limiter.go:85-121 | In a store of timestamp members, an admission in a second with no entry raises the user count by exactly one |
| RateLimiterProperties.SwallowedAddError | services/rate-limiter-service/ratelimiter/limiter.go:140-151 | When only the user key's ZADD fails, the call still reports (false, nil) while the user key gets no marker |
| RateLimiterProperties.EventFailureAfterUserIncrement | services/rate-limiter-service/ratelimiter/limiter.go:113-121 | A failure on the event key is reported after the user key already holds its new marker |
| RateLimiterProperties.KeysCanCollideAcrossUsers | services/rate-limiter-service/ratelimiter/limiter.go:68-69 | User "a:event:like" has the same user key as user "a"'s like-event key |
| Preferences.ReadChannelRows | services/rate-limiter-service/preferences/service.go:90-97 | The row loop succeeds iff every row scans; the map is then the defaults overwritten by the rows in order |
| Preferences.ReadEventRows | services/rate-limiter-service/preferences/service.go:109-122 | The row loop succeeds iff every row scans; the matrix is then built from the rows in order, creating override maps on demand |
| Preferences.GetUserPreferences | services/rate-limiter-service/preferences/service.go:52-125 | Returns exactly Assemble of the three lookups' results |
| Preferences.MockPreferences | services/rate-limiter-service/preferences/service.go:136-172 | Echoes the user id, opts in, lists the five channels with SMS off, and overrides security_alert, message_received and like |
| Preferences.LastChannelIsLastRow | services/rate-limiter-service/preferences/service.go:90-97 | LastChannel is absent iff no row names the channel, and otherwise is the value of the highest-indexed row naming it |
| Preferences.ChannelRowsLastWins | services/rate-limiter-service/preferences/service.go:90-97 | A channel is in the result iff it was a default or some row names it; its value is the last such row's, else the default |
| Preferences.EventRowsLastWins | services/rate-limiter-service/preferences/service.go:109-122 | An event type appears iff some row names it; each (event, channel) override is the last row's value for that pair |
| Preferences.UnknownUserGetsDefaults | services/rate-limiter-service/preferences/service.go:54-74 | A user without a row gets the opted-in defaults and no overrides, whatever the other tables hold |
| Preferences.AssembledMatrix | services/rate-limiter-service/preferences/service.go:68-124 | A found user with readable tables gets the row's opt-in, the defaults overwritten by the channel rows, and the event overrides |
| Preferences.IterationErrorIsSilent | services/rate-limiter-service/preferences/service.go:90-124 | As written, a row iteration that breaks off after some rows still succeeds, with the matrix of the rows read so far |
| Preferences.FailureMeansNoMatrix | services/rate-limiter-service/preferences/service.go:81-122 | Once the user row is found, the call succeeds iff both queries succeed and every delivered row scans |
| DeliveryProcessor.DetermineDeliveryChannels | services/rate-limiter-service/kafka/processor.go:91-122 | Returns each channel at most once, and exactly the channels of ResolveChannels |
| DeliveryProcessor.Processor.ProcessMessage | services/rate-limiter-service/kafka/processor.go:34-88 | The error, the lookup log and the send log follow Pipeline: limiter, preferences, opt-out, channels, send |
| DeliveryProperties.LimiterErrorStopsEarly | services/rate-limiter-service/kafka/processor.go:41-45 | A limiter error is returned; preferences are not fetched and nothing is sent |
| DeliveryProperties.LimitedIsDropped | services/rate-limiter-service/kafka/processor.go:47-50 | A rate-limited record ends with no error, no lookup and no send |
| DeliveryProperties.RejectedByStoreIsDropped | services/rate-limiter-service/kafka/processor.go:41-50 | Whatever the store and its failures, a record Check limits is dropped silently |
| DeliveryProperties.PreferenceErrorStops | services/rate-limiter-service/kafka/processor.go:53-56 | A preference failure is returned and nothing is sent |
| DeliveryProperties.OptedOutReceivesNothing | services/rate-limiter-service/kafka/processor.go:59-62 | A globally opted-out user receives nothing, high priority included |
| DeliveryProperties.OverrideDecides | services/rate-limiter-service/kafka/processor.go:98-104 | With an override map for the event type, even an empty one, the global map plays no part |
| DeliveryProperties.GlobalMapDecides | services/rate-limiter-service/kafka/processor.go:105-111 | Without an override map, only the global map decides, whatever other event types hold |
| DeliveryProperties.HighPriorityFailsafe | services/rate-limiter-service/kafka/processor.go:116-119 | A high-priority record always gets a channel, and with nothing enabled that channel is in-app alone |
| DeliveryProperties.ChannelsAreEnabledOrFailsafe | services/rate-limiter-service/kafka/processor.go:91-122 | Every chosen channel is enabled in the applicable map, or is the high-priority in-app failsafe |
| DeliveryProperties.NoChannelNoSend | services/rate-limiter-service/kafka/processor.go:65-70 | A non-high record with no enabled channel is dropped without error or send |
| DeliveryProperties.AdmittedOptedInIsSent | services/rate-limiter-service/kafka/processor.go:73-81 | An admitted, opted-in record with somewhere to go is handed to the producer once, with its channels; a producer failure is returned |
| DeliveryProperties.SendOnlyAfterEveryGate | services/rate-limiter-service/kafka/processor.go:34-88 | A send happens only after a clean admission, a successful lookup, an opt-in and at least one channel |
| Consumer.Capacity | services/rate-limiter-service/kafka/consumer.go:106-108 | The buffer sizes are 1000 for high, 500 for medium and 100 for low |
| Consumer.CapacityFollowsRank | services/rate-limiter-service/kafka/consumer.go:104-108 | One band's buffer is larger than another's iff its priority is higher; all sizes are positive |
| Consumer.StagingBuffer.TrySend | services/rate-limiter-service/kafka/consumer.go:353 | A send is accepted iff the buffer has room, and then appends the record |
| Consumer.StagingBuffer.Receive | services/rate-limiter-service/kafka/consumer.go:212 | A receive yields the oldest record and removes it |
| Consumer.BandHandler.Setup | services/rate-limiter-service/kafka/consumer.go:317-329 | The ready signal is given on the first session only: at most once overall |
| Consumer.BandHandler.Ingest | services/rate-limiter-service/kafka/consumer.go:340-356 | An undecodable message is only marked; a decoded one is stamped with the band's priority, buffered, then marked, unless the buffer is full |
| Consumer.BandHandler.ConsumeClaim | services/rate-limiter-service/kafka/consumer.go:338-363 | The buffer gains the staged records of the consumed prefix in order, the marks are that prefix's offsets, and it stops early only on a full buffer |
| Consumer.PriorityConsumer.Consume | services/rate-limiter-service/kafka/consumer.go:338-363 | A handler sending to this consumer's buffer for its band appends the staged records to that band's queue only; every buffer keeps only records stamped with its band's priority (part of Valid), and stays within capacity |
| Consumer.PriorityConsumer.ReceiveFrom | services/rate-limiter-service/kafka/consumer.go:212 | Takes the head of the band's buffer, leaving the others alone |
| Consumer.PriorityConsumer.SchedulerStep | services/rate-limiter-service/kafka/consumer.go:205-264 | Returns Shutdown only when the context is done; Waiting only with all buffers empty; otherwise it makes an allowed move and hands its records on in order |
| Consumer.PriorityConsumer.HandleFrom | services/rate-limiter-service/kafka/consumer.go:218-264 | After the outer receive, the inner re-check takes a higher-band head first when one is ready, else handles the record alone |
| Consumer.PriorityConsumer.Close | services/rate-limiter-service/kafka/consumer.go:283-313 | All three groups are closed in band order, and the first error is returned |
| ConsumerProperties.StagedKeepsEventsInOrder | services/rate-limiter-service/kafka/consumer.go:338-363 | A handler stages exactly the decodable messages' events, in claim order, each with its band's priority |
| ConsumerProperties.DecodedEventsOfStaged | services/rate-limiter-service/kafka/consumer.go:340-353 | The staged events are the decoded events, in order |
| Consumer.StagedCarriesBand | services/rate-limiter-service/kafka/consumer.go:350 | Every staged record carries its band's priority |
| ConsumerProperties.PoisonNeverStaged | services/rate-limiter-service/kafka/consumer.go:343-347 | A message that does not decode adds nothing to the buffer, wherever it sits |
| ConsumerProperties.StepIsFifo | services/rate-limiter-service/kafka/consumer.go:205-264 | Each band a step touches loses exactly its head; the others are unchanged |
| ConsumerProperties.StepConserves | services/rate-limiter-service/kafka/consumer.go:205-264 | No record is lost or duplicated: the records handled plus those left equal those before; a step handles one or two |
| ConsumerProperties.StepKeepsStampedAndOrder | services/rate-limiter-service/kafka/consumer.go:218-264 | Buffers stay correctly stamped, and of two handled records the first has strictly higher priority |
| ConsumerProperties.AloneMeansHigherEmpty | services/rate-limiter-service/kafka/consumer.go:218-264 | A medium or low record is handled alone only when every higher buffer was empty |
| ConsumerProperties.AnyReadyBandCanStart | services/rate-limiter-service/kafka/consumer.go:206-215 | Any non-empty buffer can be the one the outer select picks |
| ConsumerProperties.LowCanPassWaitingHigh | services/rate-limiter-service/kafka/consumer.go:238-249 | A low record can be handled while high records still wait |
| ConsumerProperties.StepMakesProgress | services/rate-limiter-service/kafka/consumer.go:205-264 | With any record buffered, some move is possible |
| Prioritizer.Prioritize | services/prioritizer-service/prioritizers/prioritizer.go:41-54 | Keeps the event unchanged and always yields a known priority |
| Prioritizer.PriorityByEventType | services/prioritizer-service/prioritizers/prioritizer.go:15-33 | Priority is high iff the type is one of the listed high types, and medium iff it is one of the listed medium types |
| Prioritizer.UnlistedIsLow | services/prioritizer-service/prioritizers/prioritizer.go:47-51 | An event type not in the table is low |
| Validator.Validate | services/prioritizer-service/validators/validator.go:23-48 | Each error is returned iff its check is the first to fail: missing id, user id, event type, then a timestamp after now |
| Validator.TimestampBoundIsInclusive | services/prioritizer-service/validators/validator.go:38-40 | A timestamp equal to now is accepted, and one a second later is rejected |
| PriorityProducer.TopicTable | services/prioritizer-service/kafka/producer.go:52-56 | The topic map has exactly the three priorities as keys |
| PriorityProducer.KafkaProducer.SendMessage | services/prioritizer-service/kafka/producer.go:67-96 | An unknown priority is an error and nothing is sent; otherwise the message goes to the priority's topic, keyed by user id |
| PriorityProducer.RoutingByPriority | services/prioritizer-service/kafka/producer.go:52-72 | Each priority is routed to its configured topic, and an unknown priority to none |
| ClassifyProcessor.Processor.ProcessMessage | services/prioritizer-service/kafka/processor.go:31-49 | An invalid event is rejected unsent; a valid one is prioritized and sent, and a send failure is returned |
| ClassifyProcessor.ValidEventsAreRouted | services/prioritizer-service/kafka/processor.go:31-49 | A valid event always gets a known priority, so it always has a topic |
| TopicAdmin.ToInt32 | services/prioritizer-service/kafka/admin.go:81 | Go's int32 conversion: the result is in range, is congruent modulo 2^32, and is the identity in range |
| TopicAdmin.ToInt16 | services/prioritizer-service/kafka/admin.go:82 | Go's int16 conversion: the result is in range, is congruent modulo 2^16, and is the identity in range |
| TopicAdmin.ClusterAdmin.ListTopicDetails | services/prioritizer-service/kafka/admin.go:59-62 | Returns the cluster's topics, or nothing when listing fails |
| TopicAdmin.ClusterAdmin.CreateTopicWith | services/prioritizer-service/kafka/admin.go:86-89 | Succeeds iff the request does not fail and the topic is absent, and then adds the topic |
| TopicAdmin.ClusterAdmin.GrowPartitions | services/prioritizer-service/kafka/admin.go:109-112 | Succeeds iff the request does not fail and the topic exists, and then sets its partition count |
| TopicAdmin.TopicManager.EnsureTopicExists | services/prioritizer-service/kafka/admin.go:52-76 | The error, the cache, the cluster and the requests sent equal Provision; EnsureTopicExists in rate-limiter-service/kafka/admin.go:34-57 and enqueue-service/kafka/admin.go:34-57 has the same logic |
| TopicAdmin.TopicManager.CreateNewTopic | services/prioritizer-service/kafka/admin.go:79-97 | Creates the topic with the narrowed counts and caches it on success; on failure it returns an error and caches nothing (same logic at lines 60-78 of the other two services' admin.go) |
| TopicAdmin.TopicManager.UpdateExistingTopic | services/prioritizer-service/kafka/admin.go:100-126 | Grows the partitions only when the cluster has fewer than configured, never touches the replication factor, and caches on success (same logic at lines 81-107 of the other two services' admin.go) |
| TopicAdminProperties.CachedTopicSkipsCluster | services/prioritizer-service/kafka/admin.go:53-56 | A cached topic sends no request and changes nothing |
| TopicAdminProperties.AbsentTopicIsCreated | services/prioritizer-service/kafka/admin.go:67-71 | An absent topic is created with the narrowed counts, or the creation error is returned |
| TopicAdminProperties.CreatedWithConfiguredCounts | services/prioritizer-service/kafka/admin.go:79-97 | With counts that fit int32/int16, the created topic has exactly the configured counts |
| TopicAdminProperties.CachedExactlyOnSuccess | services/prioritizer-service/kafka/admin.go:52-126 | An uncached topic is cached iff its check succeeds; a failed check leaves the cache as it was |
| TopicAdminProperties.PartitionsOnlyGrow | services/prioritizer-service/kafka/admin.go:100-126 | Existing topics' partition counts never decrease and their replication factors never change |
| TopicAdminProperties.ExistingTopicGrowsOnlyWhenSmaller | services/prioritizer-service/kafka/admin.go:104-114 | An existing topic is grown to the configured count iff it had fewer partitions; otherwise it is left alone |
| TopicAdminProperties.SuccessMeansEnoughPartitions | services/prioritizer-service/kafka/admin.go:52-126 | After a successful check the topic exists with at least the configured (narrowed) partition count |
| TopicAdminProperties.OtherTopicsUntouched | services/prioritizer-service/kafka/admin.go:52-126 | Only the checked topic changes, in the cache and on the cluster |
| TopicAdminProperties.CacheStaysSound | services/prioritizer-service/kafka/admin.go:52-126 | Every cached topic stays on the cluster |
| PrioritizerTopics.EnsureTopicsExist | services/prioritizer-service/kafka/admin.go:34-49 | Checks the high, medium and low topics in order and stops at the first error; the outcome equals ProvisionAll |
| PrioritizerTopics.StopsAtFirstError | services/prioritizer-service/kafka/admin.go:36-38 | When the high topic's check fails, medium and low are not looked at |
| PrioritizerTopics.AllProvisionedOnSuccess | services/prioritizer-service/kafka/admin.go:34-49 | On success every listed topic is cached, exists on the cluster and keeps the cache sound |
| EnqueueTopics.GetTopicNames | services/enqueue-service/kafka/admin.go:110-116 | Lists each topic name exactly once, and only topic names |

## Left out

**Not modelled**
- JSON encoding and decoding, logging, goroutines, WaitGroups, mutexes, context plumbing and the 5 ms scheduler sleep. A message's decoding outcome is an input (`Message.decoded`), and the context's state is a boolean passed to `SchedulerStep`.
- The Kafka, Redis and SQL clients. Each is replaced by a value its callers observe: a sorted-set store, a cluster map, or a lookup result. Which requests fail is a fixed set given at construction. Error messages are not carried, only which step failed.
- `time.Now()` is a parameter (`now`). Expiry of Redis keys over time is not modelled, only the time-to-live that EXPIRE records.
- Sorted-set scores are integers. The source passes `float64(now)`, which is exact for Unix seconds.
- The producers of the rate-limiter and enqueue services, the enqueue HTTP server, configuration loading and the `main` wiring are not part of this model. Neither are the constructors `NewTopicManager`, `NewProducer` and `NewPriorityConsumer`, nor the `Close` of the producers, the admin and the preference service.
- `Consumer.PriorityConsumer.SchedulerStep` models one iteration of the scheduler loop, not the loop. Arrivals between the outer `select` and the inner re-check are not modelled. The message handler's errors are not modelled, because the source only logs them.
- `Consumer.BandHandler.ConsumeClaim` stops at the first send that would block on a full buffer, and reports how many messages it consumed. The Go send blocks until the scheduler frees room. Resuming after the block is not modelled.
- Two rate-limiter instances racing on the same keys are not modelled. Each call is atomic against the store.
- `DeliveryProcessor.Processor.ProcessMessage` records the message handed to the producer even when the producer fails. Delivery to the channels themselves happens downstream and is not modelled.
- `EnqueueTopics.GetTopicNames` only guarantees names without repeats, not an order, because Go map iteration order is unspecified.
- Preferences.GetUserPreferences: an error during row iteration (`rows.Err()`, never consulted by the source) is not a separate case; such an iteration is a query whose rows stop early, and the call then returns a partial matrix with a nil error, as `IterationErrorIsSilent` states.
- `Preferences.GetUserPreferences` holds channel sets as maps from names to booleans, as the source does. The order of rows is the order the query returns.
