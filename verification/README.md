# kafka-worker in Dafny

A verified model of the core of `szemul/kafka-worker`, a PHP library that runs
a queue worker on top of a Kafka consumer group. Each call of the worker's
`work` method takes one record through a fixed cycle: consume it, classify it,
process it, commit it. The model covers:

- the cycle itself, with its per-consumer-id cache of consumer handles;
- the consumer factory, which registers consumers as static or dynamic group
  members and installs the rebalance callback;
- the message envelope handed to processors;
- the two exception constructors of the package;
- the command builder that wires a worker together.

The model has these modules:

| module | file | models |
|---|---|---|
| `Wrappers` | `wrappers.dfy` | `Option` and `Result` |
| `Decimal` | `decimal.dfy` | PHP's decimal rendering of integers (`(string)$n`, `%d`) and a parser that reads it back |
| `RdKafka` | `rdkafka.dfy` | the client's value types (record, topic-partition, consumer handle) and the librdkafka response codes used by the core |
| `Logging` | `logging.dfy` | a logger that records its lines |
| `Exceptions` | `exceptions.dfy` | the errors of the core and the two exception constructors |
| `Messages` | `message.dfy` | `KafkaMessage`, a class whose queue identifier can be overridden in place |
| `Kafka` | `factory.dfy` | the rebalance decision, the client configuration `Conf` and the `Factory` class |
| `Workers` | `worker.dfy` | `Cycle`, the cycle as a function, and the `KafkaWorker` class whose `Work` method is proved to follow it |
| `WorkerProperties` | `worker_properties.dfy` | what one cycle and a sequence of cycles promise |
| `Builders` | `builder.dfy` | `KafkaCommandBuilder` |

The worker records every collaborator call of a cycle as an `Action`, in
order. These calls are:

- the factory's `getConsumer`;
- `subscribe`, `consume` and `commit` on the consumer;
- the processor's `process`;
- the four event-handler hooks: received, processed, exception and finally.

The caller chooses the outcome of each collaborator call through a
`Collaborators` value; the two `commit` calls a cycle can make (the one after
processing, and the one in the committable catch block after that first one
threw) have separate outcomes. `Events` and `Commits` select the hooks and the commits
of a trace, so the properties can be stated over them.

The model follows the code in three places where a reader might expect
otherwise:

- **A payload that fails to decode fires the hooks.** The envelope is built
  inside the guarded block (src/Worker/KafkaWorker.php:156). A failure
  therefore goes through the catch and finally clauses: the exception hook and
  the finally hook fire. There is still no received event and no commit
  (`DecodeFailureReported`).
- **A failed subscribe leaves a handle cached.** The handle the factory
  returned is cached before `subscribe` runs
  (src/Worker/KafkaWorker.php:118-119). When `subscribe` throws, that handle
  stays in the cache as the factory returned it (unsubscribed, when the factory
  returned an unsubscribed one, as `Kafka.Factory.GetConsumer` does) and is
  polled as it is on the next call.
- **A committable failure with no event handler is not committed.** The
  committable catch block calls the event handler with `->`, not `?->`
  (src/Worker/KafkaWorker.php:164). With no handler installed, that call throws
  before the commit, and the cycle ends with that error (`NullMethodCall`).

The envelope's payload property is typed `array`, and the file uses
`strict_types`. So a null payload, or a valid JSON document that is not an
array or object, ends in a `TypeError` rather than in
`PayloadDecodingFailedException`.

## Model

| member | source | states |
|---|---|---|
| Decimal.IntToDecimal | src/Message/KafkaMessage.php:38 | the decimal rendering of an integer reads back as that integer; it is digits with a leading minus sign exactly for a negative number, and canonical: no leading zero except for 0 itself, and never "-0" |
| Decimal.IntToDecimalInjective | src/Message/KafkaMessage.php:38 | distinct integers have distinct decimal renderings |
| Exceptions.NewKafkaMessageException | src/Exception/KafkaMessageException.php:12-23 | the message is the fixed prefix followed by the record's error string; the code is the record's response code; the record and the previous error are kept as given |
| Exceptions.NewPayloadDecodingFailed | src/Exception/PayloadDecodingFailedException.php:12-24 | the message is the fixed prefix followed by the decoder error's message; the code is the decoder error's code; the previous error is the decoder error; the record is kept |
| Messages.DecodePayload | src/Message/KafkaMessage.php:17-24 | decoding succeeds iff the payload is present and decodes to an array, and then yields that document; it fails with PayloadDecodingFailed (carrying the record and the decoder error) iff the decoder rejects the text; every other failure is a TypeError |
| Messages.KafkaMessage.Create | src/Message/KafkaMessage.php:17-29 | construction succeeds iff decoding does, and holds the record, the decoded payload and no identifier override; otherwise it fails with the decoding error |
| Messages.KafkaMessage.JobName | src/Message/KafkaMessage.php:31-34 | the job name is the record's topic |
| Messages.KafkaMessage.QueueIdentifier | src/Message/KafkaMessage.php:36-39 | the identifier is the override when one is set, and otherwise the canonical decimal rendering of the record's offset, which reads back as that offset |
| Messages.KafkaMessage.SetQueueIdentifier | src/Message/KafkaMessage.php:41-46 | the setter returns the same envelope; the identifier becomes the value set; nothing else may change |
| Messages.KafkaMessage.View | src/Message/KafkaMessage.php:26-39 | what the getters return: the record, the payload and the current identifier |
| Messages.DefaultIdentifiersDistinct | src/Message/KafkaMessage.php:36-39 | without overrides, records at different offsets have different queue identifiers |
| Kafka.LabelRoundTrip | src/Kafka/Factory.php:26-31 | a partition's `topic/partition:offset` label reads back as that partition, whatever the topic contains |
| Kafka.PartitionLabelsRoundTrip | src/Kafka/Factory.php:24-33 | the logged list has one label per assigned partition, in input order, and each reads back as its partition |
| Kafka.Rebalance | src/Kafka/Factory.php:19-47 | on an assign code, exactly one assign call, with the given list, as the last call, preceded by the "Assigned to partitions: " line when a logger is set; on a revoke code, exactly one assign call without partitions, preceded by the revoked line when a logger is set; in both cases the callback throws exactly what `assign` throws; any other code makes no call and throws a rebalance error whose message is the canonical decimal rendering of the code |
| Kafka.Conf.Set | src/Kafka/Factory.php:73-81 | setting a property throws iff the configuration refuses the name, with a non-committable error and the settings unchanged; otherwise exactly that property is set |
| Kafka.Conf.SetRebalanceCb | src/Kafka/Factory.php:19 | the callback is installed and the install count goes up by one |
| Kafka.Factory.constructor | src/Kafka/Factory.php:15-49 | the factory keeps its configuration and logger, and installs into the configuration a rebalance callback that logs through its logger, exactly once |
| Kafka.Factory.GetConsumer | src/Kafka/Factory.php:70-87 | without an id: the dynamic-member line, no setting changed. With an id the configuration accepts: `group.instance.id` is set to it and the static-member line is logged. With an id it refuses: the notice is logged and the settings are unchanged. The callback is never reinstalled. Then the client constructor throws iff `group.id` is not configured (with the library's exception) or the client refuses the configuration (with the refusal); otherwise a new unsubscribed consumer over the configuration is returned |
| Workers.Classify | src/Worker/KafkaWorker.php:136-148 | a record proceeds iff its code is no-error; it is dropped quietly iff its code is partition-EOF or timed-out; every other code is a fault |
| Workers.KafkaWorker.Init | src/Worker/KafkaWorker.php:24-34 | for a non-empty topic list, the fields hold the arguments and the worker invariant (at least one topic) holds; there is no event handler and no cached consumer |
| Workers.KafkaWorker.Create | src/Worker/KafkaWorker.php:29-38 | construction fails with InvalidArgument iff the topic list is empty; otherwise the worker keeps the topics in order, the factory, the processor and the timeout, with no handler and an empty cache |
| Workers.KafkaWorker.SetEventHandler | src/Worker/KafkaWorker.php:62-67 | the setter returns the same worker and the handler becomes the one given; the worker invariant is kept |
| Workers.KafkaWorker.AcquireConsumer | src/Worker/KafkaWorker.php:116-122 | the cache update, the calls made and the handle obtained are those of `Acquire`; the worker invariant is kept |
| Workers.KafkaWorker.Fail | src/Worker/KafkaWorker.php:163-171 | the calls and outcome of the catch blocks are those of `OnFailure` |
| Workers.KafkaWorker.HandleRecord | src/Worker/KafkaWorker.php:155-171 | the calls and outcome of the processing block are those of `ProcessRecord` |
| Workers.KafkaWorker.DispatchRecord | src/Worker/KafkaWorker.php:131-174 | the calls and outcome for a polled record are those of `Dispatch` |
| Workers.KafkaWorker.ServeConsumer | src/Worker/KafkaWorker.php:124-174 | the calls and outcome after the consumer is acquired are those of `Serve` |
| Workers.KafkaWorker.Work | src/Worker/KafkaWorker.php:108-175 | the new cache, the trace and the outcome are those `Cycle` gives for the old cache; the worker invariant is kept |
| WorkerProperties.MissingConsumerIdFailsFast | src/Worker/KafkaWorker.php:110-114 | without a consumer id the cycle throws InvalidArgument, makes no call and leaves the cache as it was |
| WorkerProperties.ConsumerCacheInsertIfAbsent | src/Worker/KafkaWorker.php:117-122 | a cached handle is polled as it is and the cache is left unchanged; cached entries are never changed or removed; no other id is added; the id is cached iff it was already or the factory returned a handle; after a failed subscribe the handle the factory returned is cached as it was (so still unsubscribed when the factory returned it unsubscribed) and the subscribe error is the outcome |
| WorkerProperties.SubscribeOnlyWhenUncached | src/Worker/KafkaWorker.php:117-120 | the factory is asked iff the id is not cached; the id is subscribed once if it was not cached and the factory succeeded, and otherwise never |
| WorkerProperties.AcquireErrorNotifiedOnce | src/Worker/KafkaWorker.php:116-129 | an error from the factory, subscribe or consume is the outcome; the only event is one exception hook carrying that error; there is no commit |
| WorkerProperties.DiscardedWithoutEvents | src/Worker/KafkaWorker.php:131-144 | an interrupted cycle, or a record with the partition-EOF or timed-out code, ends normally after the poll, with no event and no commit |
| WorkerProperties.FaultyRecordReported | src/Worker/KafkaWorker.php:146-152 | any other non-zero code throws a KafkaMessageException carrying the record and its code; the only event is one exception hook with it; there is no commit |
| WorkerProperties.SuccessfulCycle | src/Worker/KafkaWorker.php:155-174 | on success the events are received, processed, finally; the record is committed exactly once; the cycle returns normally |
| WorkerProperties.SuccessfulCycleOrder | src/Worker/KafkaWorker.php:155-174 | on success the cycle's calls end with received, process, processed, commit, finally in that order (process then commit without a handler) |
| WorkerProperties.ProcessorFailureNotCommitted | src/Worker/KafkaWorker.php:168-174 | a non-committable processor error is rethrown; the events are received, exception, finally; there is no commit |
| WorkerProperties.CommittableFailureCommitted | src/Worker/KafkaWorker.php:163-174 | with a handler, a committable processor error gives the events received, exception, finally, and one commit; the calls end with the exception hook, the commit and the finally hook, in that order; the error (or the commit's own error) is rethrown |
| WorkerProperties.CommittableFailureWithoutHandler | src/Worker/KafkaWorker.php:163-165 | without a handler, a committable processor error ends in the null-call error, with no event and no commit |
| WorkerProperties.DecodeFailureReported | src/Worker/KafkaWorker.php:155-174 | a payload that does not decode: the decoding error is rethrown; the events are exception, finally, with no received event; there is no commit |
| WorkerProperties.CommitFailure | src/Worker/KafkaWorker.php:162-171 | a failing commit goes through the same catch blocks: the record is committed once, and a second time only for a committable commit error with a handler; the outcome is the commit error, the null-call error for a committable one without a handler, or the second commit's own error when that one throws too |
| WorkerProperties.RunCacheNeverShrinks | src/Worker/KafkaWorker.php:117-122 | over any sequence of calls, every cached handle stays cached and unchanged |
| WorkerProperties.RunSubscribesAtMostOnce | src/Worker/KafkaWorker.php:117-120 | over any sequence of calls, an id is subscribed at most once, and never if it was cached before the first call |
| Builders.KafkaCommandBuilder.constructor | src/Builder/KafkaCommandBuilder.php:20-27 | no optional handler is set; the timeout is the worker's default of 5000 ms |
| Builders.KafkaCommandBuilder.SetWorkerEventHandler | src/Builder/KafkaCommandBuilder.php:29-34 | the setter stores the handler and returns the same builder |
| Builders.KafkaCommandBuilder.SetCommandEventHandler | src/Builder/KafkaCommandBuilder.php:36-41 | the setter stores the handler and returns the same builder |
| Builders.KafkaCommandBuilder.SetCommandSignalHandler | src/Builder/KafkaCommandBuilder.php:43-48 | the setter stores the handler and returns the same builder |
| Builders.KafkaCommandBuilder.SetConsumeTimeoutMs | src/Builder/KafkaCommandBuilder.php:50-55 | the setter stores the timeout and returns the same builder |
| Builders.KafkaCommandBuilder.Build | src/Builder/KafkaCommandBuilder.php:57-75 | fails with InvalidArgument iff there are no topics, leaving the configuration untouched. Otherwise: a new factory holds the given configuration and logger, and has installed its callback once; a new worker holds the topics in order, the processor, and the builder's timeout and worker handler, with an empty cache; the command holds the name, the command handler and the signal handler |

## Left out

- Kafka client internals (`consume`, `subscribe`, `commit`, `assign`, the client constructor, offsets, group coordination): each call's outcome is chosen by the caller; the only client check modelled is the constructor's `group.id` requirement.
- `json_decode` is a `Decoder` parameter, and `json_encode` of the partition labels is an `encode` parameter; no JSON grammar is modelled.
- Logging goes to a `Logger` that only records its lines; PSR-3 log levels other than info and notice are not used by the core.
- Event-handler hooks that throw are not modelled: every hook returns normally.
- The processor changing the envelope (for example, overriding its identifier) during `process` is not modelled; the hooks see the envelope as constructed.
- A `consume` that returns null instead of a record is not modelled; `consume` either returns a record or throws.
- `getAdditionalInputDefinitions` (console option definitions): the consumer id is an `Option<string>` input of `Work`.
- `__debugInfo` of the worker and of the factory: debug output only.
- Getters that only return a field (`getEventHandler`, `getProcessor`, `getFactory`, `getTopics`, `getConsumeTimeoutMs`, `getConfig`, `getPayload`, `getKafkaMessage`): they are the fields of the classes and records.
- `Factory.getLogger` returning a nullable field under a non-null return type: a runtime type error, not modelled.
- `WorkerCommand`, `DateHelper`, `InterruptedValue` and the signal and command event handlers belong to the queue-worker library; they are opaque values here, and `work`'s interrupted flag is a boolean input.
- `CommittableMessageException` is a marker interface; it is the `committable` flag of a collaborator's error.
- Concurrency, blocking inside `consume` and its timeout.
- Workers.KafkaWorker.Work: the factory's `getConsumer` is an abstract call whose result the caller chooses, rather than a call of `Kafka.Factory.GetConsumer`.
- Kafka.Factory.GetConsumer: the consumer is a value holding a copy of the configuration's settings, not a live object.
