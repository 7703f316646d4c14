# medi-stream event pipeline and query guards, in Dafny

medi-stream ingests patient events over HTTP and publishes them to Kafka.
An indexer consumes them into Elasticsearch. Two query services then search
them: one takes query-string parameters or raw DSL, the other takes
model-generated DSL. This project models the parts of that system that
decide what is accepted and what is delivered:

- **Delivery** (`delivery.dfy`):
  - what the producer and consumer share: broker messages, the dead-letter
    record `{originalMessage, error: {message}}`, and the three-attempt
    retry loop with its 300 ms × attempt backoff;
  - a run is an effect trace: broker calls with their scripted outcomes,
    delays and offset resolutions.
- **Event producer** (`producer.dfy`):
  - `assertValidEventMessage` and `buildMessage`;
  - the message-size limit;
  - `publishPatientEvent` as a function from the scripted broker outcomes
    to a result and a trace;
  - the `PatientEventProducer` class holding the `isConnected` flag that
    `connect` and `disconnect` update.
- **Indexer consumer** (`consumer.dfy`):
  - the `eachBatch` loop: the liveness check, parse, the index retry loop,
    dead-letter sends, then resolve, commit and heartbeat;
  - it is proved against a functional specification of the batch;
  - the `KafkaConsumerClient` class holds the `isRunning` flag that
    `startConsumer` and `shutdown` update.
- **Patient API validators** (`patientvalidators.dfy`):
  - `validateStringLength`;
  - the recursive `validateNoLongStringsInObject`;
  - `validatePatientEventPayload`, split into its stages in source order;
  - `validatePatientIdParam`.
- **Query-string search** (`search.dfy`):
  - `parseSearchParams`;
  - the imperative `buildSearchQuery`;
  - the two response formatters.
- **DSL search** (`dsl.dfy`): `parseDslPayload` and `formatDslSearchResponse`.
- **Generated-DSL guard** (`dslvalidator.dfy`):
  - `collectFieldRefs` as an ordered-set accumulator, with the set of
    references it collects;
  - `parseAndValidateDsl`.
- **AI search payload** (`aipayload.dfy`): `validateAiSearchPayload`.
- **JSON values** (`jsvalues.dfy`):
  - JSON values as JavaScript sees them: truthiness, property reads, `Object.keys`;
  - `String.prototype.trim`;
  - string length in UTF-16 code units.

Whatever the runtime supplies enters as a parameter:
- `JSON.parse`, `Date.parse`, `toISOString` and `Buffer.byteLength` of the
  serialized data;
- `Number` applied to a string;
- the current time.

Each broker, index or admin call has a scripted `Outcome`, and the liveness
probes of the consumer are scripted booleans. Every error is a structured
reason with its HTTP status, not the English message text.

## Model

| member | source | states |
|---|---|---|
| JsValues.LookupFinds | patient-api/src/validators.js:75 | a property read finds a value exactly when the key is among the object's keys, and the value is that of the first entry with the key |
| JsValues.WithoutMembers | patient-api/src/validators.js:68 | the unexpected-keys filter keeps exactly the keys outside the allow-list, never grows, and is empty exactly when every key is allowed |
| JsValues.TrimEmptyIffBlank | patient-api/src/validators.js:28 | `trim()` yields the empty string exactly when every character is JavaScript whitespace |
| JsValues.TrimShape | patient-api/src/validators.js:115 | a trimmed string is a contiguous slice of the original and neither starts nor ends with whitespace |
| JsValues.TrimShortens | patient-api/src/validators.js:115 | trimming never increases the UTF-16 length |
| JsValues.TrimIdempotent | patient-api/src/validators.js:126 | trimming twice is trimming once |
| JsValues.JsLengthAppend | patient-api/src/validators.js:32 | UTF-16 length is additive over concatenation |
| Delivery.DeadLetterPayload | indexer-service/src/kafka.js:17-25 | the dead-letter record carries the original message under `originalMessage` and the error message under `error.message` |
| Delivery.AttemptsMade | event-producer/src/producer.js:92-102 | the loop makes one to three attempts; every attempt before the last made failed; fewer than three are made only when the last one succeeded |
| Delivery.RetryOutcome | event-producer/src/producer.js:92-104 | the loop succeeds exactly when some attempt succeeds; on exhaustion it throws the third attempt's error |
| Delivery.RetryCalls | event-producer/src/producer.js:92-102 | the operation is called once per attempt made, seeing those attempts' outcomes in order |
| Delivery.RetryIndexCalls | indexer-service/src/kafka.js:70-84 | around an index write, the index calls are exactly the attempts made |
| Delivery.RetrySends | event-producer/src/producer.js:136-141 | around a send, the sends to that topic are the attempts made, each carrying the same message |
| Delivery.RetryResolvesNothing | indexer-service/src/kafka.js:70-84 | the retry loop resolves no offset |
| Delivery.RetryBackoff | event-producer/src/producer.js:98-100 | after failed attempt k the loop waits 300·k ms, except after the last attempt, and the trace ends with the last call |
| Delivery.WithRetries | event-producer/src/producer.js:89-105 | the loop method returns `RetryOutcome` and emits exactly `RetryTrace` for the attempts made |
| EventProducer.FirstMissing | event-producer/src/producer.js:25-29 | the position of the first required field the event lacks; every field before it is present |
| EventProducer.AllRequiredPresent | event-producer/src/producer.js:16-29 | all six required fields are present exactly when none is found missing |
| EventProducer.AssertValidEventMessage | event-producer/src/producer.js:11-55 | accepts exactly the valid events; each error means that check failed and every earlier check passed, in source order (object, required fields, patientId, eventType, severity, department, data, timestamp) |
| EventProducer.ResolveMaxMessageBytes | event-producer/src/producer.js:74-77 | defaults to 1000000 when unset or falsy; otherwise accepted exactly when `Number` gives a positive integer, which becomes the limit |
| EventProducer.PublishRejectsLocally | event-producer/src/producer.js:125-133 | an invalid event, or one whose message exceeds the byte limit, is refused before any broker call; a message exactly at the limit passes |
| EventProducer.PublishMainSendsShape | event-producer/src/producer.js:135-141 | the main-topic sends are one per attempt made, each with the built message |
| EventProducer.PublishMainSends | event-producer/src/producer.js:57-66 | each main send is keyed by patientId, carries the event and the `{source, version: '1'}` headers; at most three are made, all but the last failed, and publish succeeds exactly when one was delivered |
| EventProducer.DeliveredOfAttempts | event-producer/src/producer.js:92-102 | the attempts of a retried send deliver exactly one message when the loop succeeds and none otherwise |
| EventProducer.PublishSuccessSkipsDeadLetter | event-producer/src/producer.js:135-141 | a successful publish sends nothing to the dead-letter topic |
| EventProducer.PublishExhaustion | event-producer/src/producer.js:142-165 | after three failed sends, exactly one unretried dead-letter send follows, with the event and the last error; the publish error is rethrown unless the dead-letter send's own error replaces it |
| EventProducer.PublishAtMostOneDestination | event-producer/src/producer.js:135-166 | at most one of the two topics receives the event; exactly one does unless the dead-letter send also failed |
| EventProducer.ConnectedAfterSuccessfulConnect | event-producer/src/producer.js:108-122 | after a sequence of connects and disconnects, the producer is connected exactly when some connect succeeded and no disconnect followed it |
| EventProducer.PatientEventProducer.constructor | event-producer/src/producer.js:72-87 | creation needs a valid size limit, records the configuration and starts disconnected |
| EventProducer.PatientEventProducer.Connect | event-producer/src/producer.js:108-114 | connects with retries; the flag is set when the retries succeed and is otherwise left as it was |
| EventProducer.PatientEventProducer.Disconnect | event-producer/src/producer.js:116-122 | settles the producer and admin disconnects as one call whatever their outcome, and always clears the flag |
| EventProducer.PatientEventProducer.CheckHealth | event-producer/src/producer.js:169-176 | false, with no broker call, while disconnected; otherwise the metadata fetch decides between true and its error |
| EventProducer.PatientEventProducer.PublishPatientEvent | event-producer/src/producer.js:124-167 | the method's result and trace are those of the `Publish` specification |
| EventProducer.ReplayLifecycle | event-producer/src/producer.js:107-122 | driving a new producer through a call history leaves its flag equal to the specification's `ConnectedAfter` |
| IndexerConsumer.ParseMessageValue | indexer-service/src/kafka.js:9-15 | a null value is rejected with the empty-value error; anything else is handed to `JSON.parse` |
| IndexerConsumer.RunSteps | indexer-service/src/kafka.js:58-122 | a completed batch was live throughout and nothing escaped; a stop is at the first non-live message; a crash is at a live message whose handling escaped; every earlier message was handled cleanly |
| IndexerConsumer.HandleMessage | indexer-service/src/kafka.js:63-117 | the method's effects and escaping error are those of the `Handle` specification |
| IndexerConsumer.EachBatch | indexer-service/src/kafka.js:57-123 | the loop's trace and end are those of the `RunBatch` specification |
| IndexerConsumer.AcknowledgeResolves | indexer-service/src/kafka.js:119-121 | acknowledging a message resolves exactly its offset |
| IndexerConsumer.HandleResolvesNothing | indexer-service/src/kafka.js:63-117 | handling a message never resolves an offset by itself |
| IndexerConsumer.HandleSends | indexer-service/src/kafka.js:86-117 | the dead-letter sends of a message are exactly its dead-letter records, in order |
| IndexerConsumer.StepsResolveHandledPrefix | indexer-service/src/kafka.js:58-122 | the offsets resolved during a batch are exactly those of the messages handled before it ended, in order |
| IndexerConsumer.BatchResolvesHandledPrefix | indexer-service/src/kafka.js:58-122 | as above, for the real per-message handling |
| IndexerConsumer.BatchStopsAtFirstNotLive | indexer-service/src/kafka.js:58-61 | a batch stops at the first message failing the liveness check, and every earlier one was live |
| IndexerConsumer.BatchCrashesOnEscape | indexer-service/src/kafka.js:102-117 | a crashed batch ends at a live message whose handling let exactly that error escape |
| IndexerConsumer.HandleIndexing | indexer-service/src/kafka.js:66-84 | a parsed event is indexed once per attempt made, stopping after a success; an unparseable message is never indexed |
| IndexerConsumer.HandleBackoff | indexer-service/src/kafka.js:80-82 | the waits are 300, 600 ms before the second and third index attempts only; an unparseable message causes none |
| IndexerConsumer.HandleSuccessSkipsDeadLetter | indexer-service/src/kafka.js:70-101 | a successful index sends no dead-letter record and nothing escapes |
| IndexerConsumer.HandleExhaustion | indexer-service/src/kafka.js:86-101 | for an event other than `null`, after three failed index attempts, a dead-letter record holds the event and the last error, keyed by patientId or else the message key; a second record with the raw text follows only when that send fails |
| IndexerConsumer.HandleExhaustedNull | indexer-service/src/kafka.js:66-117 | for a message whose value is the JSON text `null`, three failed index attempts are followed by no dead-letter record of the event: reading its `patientId` throws, and the only send is the raw text with that error, keyed by the message key; it escapes exactly when that send fails |
| IndexerConsumer.HandleUnparseable | indexer-service/src/kafka.js:102-117 | an empty or unparseable message yields exactly one dead-letter send of its raw text, keyed by the message key; it escapes exactly when that send fails |
| IndexerConsumer.HandleExactlyOneOutcome | indexer-service/src/kafka.js:63-121 | a message that does not escape is either indexed once or dead-lettered once, never both; an escaping one is neither |
| IndexerConsumer.SuccessesOfAttempts | indexer-service/src/kafka.js:68-84 | the attempts made contain one success exactly when the retry loop succeeded |
| IndexerConsumer.KafkaConsumerClient.constructor | indexer-service/src/kafka.js:27-39 | records both topic names and starts not running |
| IndexerConsumer.KafkaConsumerClient.StartConsumer | indexer-service/src/kafka.js:46-52 | subscribes, then sets the running flag only when the subscription succeeded |
| IndexerConsumer.KafkaConsumerClient.Shutdown | indexer-service/src/kafka.js:138-151 | stops the consumer only while running and clears the flag when the stop succeeds; a stop that throws ends the shutdown with its error and the flag still set; otherwise the consumer, producer and admin disconnects are settled, also when it was not running |
| IndexerConsumer.KafkaConsumerClient.CheckHealth | indexer-service/src/kafka.js:131-136 | the metadata fetch decides: true, or its error |
| IndexerConsumer.ShutdownTwice | indexer-service/src/kafka.js:138-151 | after a successful shutdown, a second one makes no stop call and only settles the disconnects again; after a failed stop, the second shutdown stops again |
| PatientValidators.ValidateStringLength | patient-api/src/validators.js:27-35 | accepts exactly non-blank strings whose untrimmed UTF-16 length is within the bound; non-strings and blank strings are the non-empty error |
| PatientValidators.CheckTreeWithinLimits | patient-api/src/validators.js:37-61 | the recursive check accepts exactly the trees whose string leaves are at most 500 and whose keys are at most 100 code units, and reports only those two errors |
| PatientValidators.CheckItemsWithinLimits | patient-api/src/validators.js:48-51 | an array passes exactly when every item is within the limits |
| PatientValidators.CheckEntriesWithinLimits | patient-api/src/validators.js:53-60 | an object passes exactly when every key is at most 100 code units and every value is within the limits |
| PatientValidators.IsoPatternLength | patient-api/src/validators.js:20-21 | a timestamp matching the pattern is 20 to 29 characters, so the 40-character bound never rejects a matching string |
| PatientValidators.CheckShape | patient-api/src/validators.js:64-73 | accepts an object with no key outside the six allowed; otherwise a non-object error, or the list of unexpected keys in key order |
| PatientValidators.CheckStrings | patient-api/src/validators.js:77-79 | accepts exactly when patientId, department and timestamp satisfy their string rules with bounds 50, 100, 40; the error names the first failing field |
| PatientValidators.CheckEnums | patient-api/src/validators.js:81-87 | eventType, then severity, must be in their closed sets; each error means exactly that check failed |
| PatientValidators.CheckData | patient-api/src/validators.js:89-98 | data must be an object of at most 51200 serialized bytes and within the nested limits; each error means exactly its check failed after the earlier ones passed |
| PatientValidators.CheckTimestamp | patient-api/src/validators.js:100-112 | accepts exactly a pattern-matching, parseable timestamp at most 60000 ms after now, and returns the parsed instant; exactly now + 60000 passes |
| PatientValidators.FirstFailure | patient-api/src/validators.js:63-112 | the chained checks succeed exactly for valid payloads, giving the parsed timestamp |
| PatientValidators.ValidatePatientEventPayload | patient-api/src/validators.js:63-122 | every rejection is a 400 with the first failing check's reason; acceptance is exactly validity |
| PatientValidators.RejectsShapeFirst | patient-api/src/validators.js:64-73 | the non-object error is reported exactly for a non-object body; the unexpected-fields error lists every unexpected key |
| PatientValidators.RejectsStringsAfterShape | patient-api/src/validators.js:75-79 | a string error is reported only for a well-shaped body, and for the first failing string field |
| PatientValidators.RejectsEnumsAfterStrings | patient-api/src/validators.js:81-87 | an enum error is reported only once all three strings pass, eventType before severity |
| PatientValidators.RejectsDataAfterEnums | patient-api/src/validators.js:89-96 | a data error is reported only once both enums pass: object first, then size |
| PatientValidators.RejectsNestedAfterSize | patient-api/src/validators.js:93-98 | a nested too-long string or key is reported only for object data within the byte bound |
| PatientValidators.RejectsTimestampLast | patient-api/src/validators.js:100-112 | timestamp errors are reported only once data passes; a future timestamp is one beyond now + 60000 |
| PatientValidators.AcceptedPayload | patient-api/src/validators.js:114-121 | the accepted event has trimmed, non-blank, bounded patientId and department; eventType, severity and data as given; the timestamp re-rendered from its parsed instant |
| PatientValidators.ValidatePatientIdParam | patient-api/src/validators.js:124-127 | accepts exactly ids satisfying the patientId rule and returns them trimmed; a rejection is a 400 about patientId |
| PatientValidators.AcceptedPatientId | patient-api/src/validators.js:124-127 | an accepted id is non-empty, has no whitespace at either end, fits 50 code units and is its own trimmed form |
| SearchQuery.NormalizeSingleQueryParam | query-service/src/search.js:11-21 | a repeated (array-valued) parameter is the duplicate error; anything else passes unchanged |
| SearchQuery.NormalizeParams | query-service/src/search.js:50-59 | succeeds exactly when none of the eight parameters is repeated, giving each one's value |
| SearchQuery.CheckText | query-service/src/search.js:61-69 | an absent value passes; a present one passes exactly when it is a non-blank string within the bound on its untrimmed length, and comes back trimmed |
| SearchQuery.CheckMember | query-service/src/search.js:71-77 | an absent value passes; a present one passes exactly when it is in the closed set |
| SearchQuery.ValidateIsoDateOrThrow | query-service/src/search.js:36-47 | an absent date passes; a present one passes exactly when it parses, and comes back in ISO form |
| SearchQuery.CheckDateOrder | query-service/src/search.js:92-94 | rejected exactly when both dates are given and from is later than to |
| SearchQuery.ParsePositiveInteger | query-service/src/search.js:23-34 | the default when absent; otherwise accepted exactly when `Number` gives an integer of at least 1, which is returned |
| SearchQuery.CheckCount | query-service/src/search.js:96-104 | page and limit: accepted exactly when absent or an integer in 1..max, giving the default or that integer |
| SearchQuery.ParseFilters | query-service/src/search.js:61-87 | the text and enum checks in source order; accepted exactly when each passes |
| SearchQuery.ParseWindow | query-service/src/search.js:89-104 | the date, order and page/limit checks in source order; accepted exactly when each passes |
| SearchQuery.ParseSearchParams | query-service/src/search.js:49-116 | every rejection is a 400; acceptance is exactly `SearchAccepts`; duplicates are reported first; the result has trimmed text, enums as given, ISO dates, page in 1..100000 and limit in 1..100 with defaults 1 and 20 |
| SearchQuery.AcceptedTextTrimmed | query-service/src/search.js:106-115 | accepted q and department are non-empty after trimming and within their bounds |
| SearchQuery.BuildSearchQuery | query-service/src/search.js:118-162 | the method pushes into must and filter and returns `BoolQuery(MustClauses, FilterClauses)` |
| SearchQuery.MustIffQuery | query-service/src/search.js:122-130 | the must list holds at most one clause, a simple query string present exactly when q is truthy and searching for q |
| SearchQuery.FilterOrder | query-service/src/search.js:132-154 | filter clauses are in strictly ascending order: eventType, severity, department, timestamp |
| SearchQuery.FilterTargets | query-service/src/search.js:132-154 | the filter targets eventType, severity, department and timestamp, each exactly when its parameter is truthy (from or to for timestamp) |
| SearchQuery.RangeBoundsIff | query-service/src/search.js:144-153 | the range has `gte` exactly when from is truthy and `lte` exactly when to is, with those values |
| SearchQuery.AcceptedQueryClauses | query-service/src/search.js:106-115 | for accepted parameters, each text or enum filter is truthy exactly when its parameter was supplied |
| SearchQuery.EntriesOr | query-service/src/search.js:168 | an absent or falsy list maps as empty; a present one maps exactly when it is an array without null entries |
| SearchQuery.CeilDiv | query-service/src/search.js:178 | the ceiling of n / d for positive d |
| SearchQuery.TotalPages | query-service/src/search.js:178 | null exactly when the total is not numeric or the limit is 0; otherwise the ceiling of total / limit |
| SearchQuery.FormatSearchResponse | query-service/src/search.js:164-182 | fails exactly for a null response or a malformed hit list; meta echoes page and limit; total is the hit total or 0; one result per hit in order |
| SearchQuery.AggregationBuckets | query-service/src/search.js:187-190 | a missing aggregation gives no buckets; otherwise one `{key, count}` record per bucket in order |
| SearchQuery.FormatAggregationResponse | query-service/src/search.js:184-201 | fails exactly for a null response or a malformed bucket list; otherwise both aggregations' bucket records |
| SearchQuery.PutLookup | query-service/src/search.js:169-170 | setting a key makes it read back as the new value and leaves every other key alone |
| SearchQuery.SpreadLookup | query-service/src/search.js:169-170 | after a spread, each key of the spread object reads as its value there; any other key keeps its base value |
| SearchQuery.HitRecordFields | query-service/src/search.js:168-171 | each result carries every `_source` field; `id` is the hit's `_id` unless the source has its own `id` |
| DslSearch.ParseDslPayload | query-service/src/dsl.js:10-35 | every rejection is a 400 for the first failing check: body, dsl, dsl.query objects, then page ≥ 1 with no upper bound, then limit in 1..100; defaults 1 and 20; the dsl is returned unchanged |
| DslSearch.FormatDslSearchResponse | query-service/src/dsl.js:37-39 | the plain search formatter, echoing the requested page and limit |
| DslValidator.AddAllSpec | ai-query-service/src/dsl-validator.js:19-26 | adding names to the ordered set keeps what it held in front, adds exactly those names and never a duplicate |
| DslValidator.CollectSpec | ai-query-service/src/dsl-validator.js:8-39 | the collector adds exactly the tree's field references, keeps the bucket in front, and adds each name once |
| DslValidator.CollectItemsSpec | ai-query-service/src/dsl-validator.js:9-12 | as above, for the items of an array |
| DslValidator.CollectEntriesSpec | ai-query-service/src/dsl-validator.js:22-38 | as above, for an object's entries: term, match, match_phrase and range keys, sort-item keys, then each value |
| DslValidator.EntryRefsIncluded | ai-query-service/src/dsl-validator.js:22-38 | every entry's names and every value's references are among the object's references |
| DslValidator.Disallowed | ai-query-service/src/dsl-validator.js:68-73 | keeps exactly the fields that neither start with `data.` nor are mapped, without duplicates |
| DslValidator.DisallowedRefs | ai-query-service/src/dsl-validator.js:64-73 | the disallowed references, each once: empty exactly when every reference is mapped or under `data.` |
| DslValidator.ParseAndValidateDsl | ai-query-service/src/dsl-validator.js:41-82 | every rejection is a 422 for the first failing check: parse, object, root keys (all listed), query object, fields (all listed); acceptance returns the parsed value unchanged and implies every reference is allowed |
| DslValidator.UnmappedTermRejected | ai-query-service/src/dsl-validator.js:23-27 | a term query on an unmapped field outside `data.` is refused, naming that field |
| AiSearchPayload.ValidateAiSearchPayload | ai-query-service/src/validators.js:5-27 | every rejection is a 400: non-object, then all unexpected keys, then blank or non-string query, then trimmed length over 500; the result is the trimmed query |
| AiSearchPayload.AcceptedQueryTrimmed | ai-query-service/src/validators.js:19-26 | the returned query is non-empty, within 500 code units, has no whitespace at either end and is its own trimmed form |
| AiSearchPayload.PaddedQueryBoundsDiffer | ai-query-service/src/validators.js:19-22 | a padded query whose trimmed form fits is accepted here but refused by the query-string search, which bounds the untrimmed length |

## Left out

- HTTP routing, Express middleware, configuration loaders, logging, the
  Elasticsearch and LLM clients, and the scripts are not part of this model.
- Real time and concurrency are out of scope:
  - `setTimeout` delays are recorded as effects, not waited;
  - each `Promise.allSettled` group of disconnects (three in the consumer's
    `shutdown`, two in the producer's `disconnect`) is one `DisconnectClients`
    call with one scripted outcome, which changes neither result nor flag;
  - one attempt of the producer's `connect` (`producer.connect`, then
    `admin.connect`) is one `ConnectClients` call: a failure of either fails
    the attempt, and which of the two failed is not recorded;
  - the consumer's `runPromise` and its crash logging are left out.
- The consumer's `connect` is not modelled; it is one `Promise.all` of three connects.
- Failures of `commitOffsetsIfNecessary` and `heartbeat` are not modelled:
  acknowledging a message always succeeds.
- The dead-letter record's `at` timestamp is left out, because it is a clock reading.
- Numbers are integers. `Number` on an array or object is taken to be NaN,
  although JavaScript gives 0 for `[]` and the element for a one-element
  array. Fractional numbers and floating-point rounding are not modelled.
- JSON objects are entry sequences. A duplicate key reads as its first
  entry; JavaScript keeps the last. The key order that object spread and
  `Object.keys` give integer-like keys is not modelled.
- SearchQuery.HitRecord: a `_source` that is a string or an array spreads
  its indices in JavaScript. Here it adds nothing.
- The messages of thrown errors are structured reasons, not the English text.
- `Date.parse`, `toISOString`, `JSON.parse`, `Buffer.byteLength` and
  `Number` on strings are parameters. Nothing is assumed about them beyond
  what each function states.
