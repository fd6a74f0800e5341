/**
 * src/Worker/KafkaWorker.php: the worker that owns one consumer per consumer
 * id and runs one consume -> classify -> process -> commit cycle per call.
 *
 * Every collaborator call of a cycle (the factory's getConsumer, subscribe,
 * consume, the processor, commit and the event-handler hooks) is recorded as
 * an Action, in order; the outcomes of the factory, client and processor
 * calls are chosen by the caller through a Collaborators value.
 */
module Workers {
  import opened Wrappers
  import opened RdKafka
  import opened Exceptions
  import opened Messages
  import opened Kafka

  const DefaultConsumeTimeoutMs := 5000
  const NoTopicsMessage := "At least 1 topic must be defined"
  const NoConsumerIdMessage := "No consumer ID set for the kafka worker"

  /** Caller-supplied collaborators, known to the core only by identity. */
  datatype WorkerEventHandler = WorkerEventHandler(name: string)
  datatype MessageProcessor = MessageProcessor(name: string)

  /** One observable call made during a cycle. Received, Processed, Exception
      and Finally are the event-handler hooks. */
  datatype Action =
    | GetConsumer(consumerId: string)
    | Subscribe(consumerId: string, topics: seq<string>)
    | Consume(consumer: KafkaConsumer, timeoutMs: int)
    | Received(message: MessageView)
    | Process(message: MessageView)
    | Processed(message: MessageView)
    | Exception(error: Error)
    | Commit(record: Record)
    | Finally

  /** How a call ends: it returns, or it throws. */
  datatype Outcome = Normal | Throws(error: Error)

  /** What the factory, the consumer and the processor do when called in this
      cycle. `committed` is the first `commit` call; `recommitted` is the one
      the committable catch block makes after that first commit threw. */
  datatype Collaborators = Collaborators(
    created: Result<KafkaConsumer, Error>,
    subscribed: Outcome,
    consumed: Result<Record, Error>,
    processed: Outcome,
    committed: Outcome,
    recommitted: Outcome)

  datatype CycleResult = CycleResult(consumers: map<string, KafkaConsumer>, actions: seq<Action>, outcome: Outcome)

  /** A hook call, made only when an event handler is installed (`?->`). */
  function Notify(handler: Option<WorkerEventHandler>, a: Action): seq<Action> {
    if handler.Some? then [a] else []
  }

  // ---------------------------------------------------------------------------
  // The cycle as a function of the cache, the configuration and the inputs
  // ---------------------------------------------------------------------------

  /** The consumer-cache stage (KafkaWorker.php:117-122): the consumer to poll,
      or the error that the factory or subscribe raised. */
  datatype Acquired = Acquired(consumers: map<string, KafkaConsumer>, actions: seq<Action>, consumer: Result<KafkaConsumer, Error>)

  function Acquire(consumers: map<string, KafkaConsumer>, topics: seq<string>, id: string, calls: Collaborators): Acquired {
    if id in consumers then Acquired(consumers, [], Success(consumers[id]))
    else
      match calls.created
      case Failure(e) => Acquired(consumers, [GetConsumer(id)], Failure(e))
      case Success(c) =>
        match calls.subscribed
        case Throws(e) => Acquired(consumers[id := c], [GetConsumer(id), Subscribe(id, topics)], Failure(e))
        case Normal =>
          var subscribed := c.(subscription := Some(topics));
          Acquired(consumers[id := subscribed], [GetConsumer(id), Subscribe(id, topics)], Success(subscribed))
  }

  /** The three ways the switch on a record's code ends (KafkaWorker.php:136-148). */
  datatype Disposition = Proceed | NoMessage | Fault

  function Classify(err: ErrCode): (d: Disposition)
    ensures d == Proceed <==> err == ErrNoError
    ensures d == NoMessage <==> err == ErrPartitionEof || err == ErrTimedOut
  {
    if err == ErrNoError then Proceed
    else if err == ErrPartitionEof || err == ErrTimedOut then NoMessage
    else Fault
  }

  datatype Stage = Stage(actions: seq<Action>, outcome: Outcome)

  /** The two catch blocks of the processing stage (KafkaWorker.php:163-171).
      With no handler installed the committable branch's `->` call fails. */
  function OnFailure(e: Error, record: Record, handler: Option<WorkerEventHandler>, committed: Outcome): Stage {
    if IsCommittable(e) then
      if handler.None? then Stage([], Throws(NullMethodCall("handleWorkerException")))
      else Stage([Exception(e), Commit(record)], if committed.Throws? then committed else Throws(e))
    else Stage(Notify(handler, Exception(e)), Throws(e))
  }

  /** The try block of the processing stage and its catch blocks (KafkaWorker.php:155-171). */
  function ProcessRecord(record: Record, handler: Option<WorkerEventHandler>, calls: Collaborators, decode: Decoder): Stage {
    match DecodePayload(record, decode)
    case Failure(e) => OnFailure(e, record, handler, calls.committed)
    case Success(payload) =>
      var view := FreshView(record, payload);
      var started := Notify(handler, Received(view)) + [Process(view)];
      match calls.processed
      case Throws(e) =>
        var failed := OnFailure(e, record, handler, calls.committed);
        Stage(started + failed.actions, failed.outcome)
      case Normal =>
        var done := started + Notify(handler, Processed(view)) + [Commit(record)];
        match calls.committed
        case Throws(e) =>
          var failed := OnFailure(e, record, handler, calls.recommitted);
          Stage(done + failed.actions, failed.outcome)
        case Normal => Stage(done, Normal)
  }

  /** What `work` does with a polled record (KafkaWorker.php:131-174): drop it
      when interrupted or when there is no message, report a faulty one, and
      otherwise process it and fire the finally hook. */
  function Dispatch(
    record: Record, handler: Option<WorkerEventHandler>, interrupted: bool, calls: Collaborators, decode: Decoder): Stage
  {
    if interrupted then Stage([], Normal)
    else
      match Classify(record.err)
      case NoMessage => Stage([], Normal)
      case Fault =>
        var e := KafkaMessageError(NewKafkaMessageException(record, None));
        Stage(Notify(handler, Exception(e)), Throws(e))
      case Proceed =>
        var stage := ProcessRecord(record, handler, calls, decode);
        Stage(stage.actions + Notify(handler, Finally), stage.outcome)
  }

  /** Everything `work` does once the consumer is at hand or its acquisition
      has failed (KafkaWorker.php:118-174). */
  function Serve(
    consumer: Result<KafkaConsumer, Error>, handler: Option<WorkerEventHandler>, timeoutMs: int,
    interrupted: bool, calls: Collaborators, decode: Decoder): Stage
  {
    match consumer
    case Failure(e) => Stage(Notify(handler, Exception(e)), Throws(e))
    case Success(c) =>
      match calls.consumed
      case Failure(e) => Stage([Consume(c, timeoutMs)] + Notify(handler, Exception(e)), Throws(e))
      case Success(record) =>
        var dispatched := Dispatch(record, handler, interrupted, calls, decode);
        Stage([Consume(c, timeoutMs)] + dispatched.actions, dispatched.outcome)
  }

  /** One call of `work` (KafkaWorker.php:108-175). */
  function Cycle(
    consumers: map<string, KafkaConsumer>, handler: Option<WorkerEventHandler>, topics: seq<string>, timeoutMs: int,
    consumerId: Option<string>, interrupted: bool, calls: Collaborators, decode: Decoder): CycleResult
  {
    match consumerId
    case None => CycleResult(consumers, [], Throws(InvalidArgument(NoConsumerIdMessage)))
    case Some(id) =>
      var acquired := Acquire(consumers, topics, id, calls);
      var served := Serve(acquired.consumer, handler, timeoutMs, interrupted, calls, decode);
      CycleResult(acquired.consumers, acquired.actions + served.actions, served.outcome)
  }

  // ---------------------------------------------------------------------------
  // The worker object
  // ---------------------------------------------------------------------------

  class KafkaWorker {
    const factory: Factory
    const topics: seq<string>
    const processor: MessageProcessor
    const consumeTimeoutMs: int
    var eventHandler: Option<WorkerEventHandler>
    var consumers: map<string, KafkaConsumer>

    ghost predicate Valid()
      reads this
    {
      |topics| > 0
    }

    /** Field initialisation, for a topic list Create has checked. */
    constructor Init(factory: Factory, topics: seq<string>, processor: MessageProcessor, consumeTimeoutMs: int := DefaultConsumeTimeoutMs)
      requires topics != []
      ensures Valid()
      ensures this.factory == factory && this.topics == topics
      ensures this.processor == processor && this.consumeTimeoutMs == consumeTimeoutMs
      ensures eventHandler.None? && consumers == map[]
    {
      this.factory := factory;
      this.topics := topics;
      this.processor := processor;
      this.consumeTimeoutMs := consumeTimeoutMs;
      eventHandler := None;
      consumers := map[];
    }

    /** `new KafkaWorker(...)` (KafkaWorker.php:29-38): refuses an empty topic
        list, and otherwise keeps the topics as given, in order. */
    static method Create(factory: Factory, topics: seq<string>, processor: MessageProcessor, consumeTimeoutMs: int := DefaultConsumeTimeoutMs)
      returns (r: Result<KafkaWorker, Error>)
      ensures r.Failure? <==> topics == []
      ensures r.Failure? ==> r.error == InvalidArgument(NoTopicsMessage)
      ensures r.Success? ==> fresh(r.value) && r.value.Valid()
      ensures r.Success? ==> r.value.factory == factory && r.value.topics == topics
      ensures r.Success? ==> r.value.processor == processor && r.value.consumeTimeoutMs == consumeTimeoutMs
      ensures r.Success? ==> r.value.eventHandler.None? && r.value.consumers == map[]
    {
      if topics == [] {
        r := Failure(InvalidArgument(NoTopicsMessage));
      } else {
        var w := new KafkaWorker.Init(factory, topics, processor, consumeTimeoutMs);
        r := Success(w);
      }
    }

    /** `setEventHandler($handler)`: returns the worker itself. */
    method SetEventHandler(handler: Option<WorkerEventHandler>) returns (self: KafkaWorker)
      requires Valid()
      modifies this`eventHandler
      ensures Valid()
      ensures self == this && eventHandler == handler
    {
      eventHandler := handler;
      self := this;
    }

    /** The first guarded block (KafkaWorker.php:117-122): on first use of an
        id, ask the factory, cache the handle, then subscribe it. */
    method AcquireConsumer(id: string, calls: Collaborators) returns (actions: seq<Action>, consumer: Result<KafkaConsumer, Error>)
      requires Valid()
      modifies this`consumers
      ensures Valid()
      ensures Acquire(old(consumers), topics, id, calls) == Acquired(consumers, actions, consumer)
    {
      actions := [];
      if id in consumers {
        consumer := Success(consumers[id]);
        return;
      }
      actions := actions + [GetConsumer(id)];
      if calls.created.Failure? {
        consumer := Failure(calls.created.error);
        return;
      }
      consumers := consumers[id := calls.created.value];
      actions := actions + [Subscribe(id, topics)];
      if calls.subscribed.Throws? {
        consumer := Failure(calls.subscribed.error);
        return;
      }
      consumers := consumers[id := consumers[id].(subscription := Some(topics))];
      consumer := Success(consumers[id]);
    }

    /** The catch blocks of the processing stage (KafkaWorker.php:163-171). */
    method Fail(e: Error, record: Record, committed: Outcome) returns (stage: Stage)
      ensures stage == OnFailure(e, record, eventHandler, committed)
    {
      if !IsCommittable(e) {
        stage := Stage(if eventHandler.Some? then [Exception(e)] else [], Throws(e));
      } else if eventHandler.None? {
        // `$this->eventHandler->handleWorkerException($e)` on null throws.
        stage := Stage([], Throws(NullMethodCall("handleWorkerException")));
      } else {
        var outcome := if committed.Throws? then committed else Throws(e);
        stage := Stage([Exception(e), Commit(record)], outcome);
      }
    }

    /** The third guarded block without its finally clause (KafkaWorker.php:155-171):
        build the envelope, fire the hooks, process and commit. */
    method HandleRecord(record: Record, calls: Collaborators, decode: Decoder) returns (stage: Stage)
      ensures stage == ProcessRecord(record, eventHandler, calls, decode)
    {
      var created := KafkaMessage.Create(record, decode);
      if created.Failure? {
        stage := Fail(created.error, record, calls.committed);
        return;
      }
      var view := created.value.View();
      assert view == FreshView(record, DecodePayload(record, decode).value);
      var actions := Notify(eventHandler, Received(view)) + [Process(view)];
      if calls.processed.Throws? {
        var failed := Fail(calls.processed.error, record, calls.committed);
        stage := Stage(actions + failed.actions, failed.outcome);
        return;
      }
      actions := actions + Notify(eventHandler, Processed(view)) + [Commit(record)];
      if calls.committed.Throws? {
        var failed := Fail(calls.committed.error, record, calls.recommitted);
        stage := Stage(actions + failed.actions, failed.outcome);
        return;
      }
      stage := Stage(actions, Normal);
    }

    /** The second and third guarded blocks and the finally clause
        (KafkaWorker.php:131-174), for a polled record. */
    method DispatchRecord(record: Record, interrupted: bool, calls: Collaborators, decode: Decoder) returns (stage: Stage)
      ensures stage == Dispatch(record, eventHandler, interrupted, calls, decode)
    {
      if interrupted {
        return Stage([], Normal);
      }
      if record.err != ErrNoError {
        if record.err == ErrPartitionEof || record.err == ErrTimedOut {
          assert Classify(record.err) == NoMessage;
          return Stage([], Normal);
        }
        assert Classify(record.err) == Fault;
        var e := KafkaMessageError(NewKafkaMessageException(record, None));
        return Stage(if eventHandler.Some? then [Exception(e)] else [], Throws(e));
      }
      assert Classify(record.err) == Proceed;
      var handled := HandleRecord(record, calls, decode);
      var actions := handled.actions;
      if eventHandler.Some? {
        actions := actions + [Finally];
      }
      stage := Stage(actions, handled.outcome);
    }

    /** Everything after the consumer is acquired (KafkaWorker.php:124-174). */
    method ServeConsumer(consumer: Result<KafkaConsumer, Error>, interrupted: bool, calls: Collaborators, decode: Decoder)
      returns (stage: Stage)
      ensures stage == Serve(consumer, eventHandler, consumeTimeoutMs, interrupted, calls, decode)
    {
      if consumer.Failure? {
        return Stage(if eventHandler.Some? then [Exception(consumer.error)] else [], Throws(consumer.error));
      }
      var polled := [Consume(consumer.value, consumeTimeoutMs)];
      if calls.consumed.Failure? {
        var reported := if eventHandler.Some? then [Exception(calls.consumed.error)] else [];
        return Stage(polled + reported, Throws(calls.consumed.error));
      }
      var dispatched := DispatchRecord(calls.consumed.value, interrupted, calls, decode);
      stage := Stage(polled + dispatched.actions, dispatched.outcome);
    }

    /**
     * `work($interrupted, $input)`: one cycle. The only state it changes is the
     * consumer cache; what it calls and how it ends are those of Cycle.
     */
    method Work(interrupted: bool, consumerId: Option<string>, calls: Collaborators, decode: Decoder)
      returns (actions: seq<Action>, outcome: Outcome)
      requires Valid()
      modifies this`consumers
      ensures Valid()
      ensures CycleResult(consumers, actions, outcome)
        == Cycle(old(consumers), eventHandler, topics, consumeTimeoutMs, consumerId, interrupted, calls, decode)
    {
      if consumerId.None? {
        actions, outcome := [], Throws(InvalidArgument(NoConsumerIdMessage));
        return;
      }
      var consumer;
      actions, consumer := AcquireConsumer(consumerId.value, calls);
      var served := ServeConsumer(consumer, interrupted, calls, decode);
      actions := actions + served.actions;
      outcome := served.outcome;
    }
  }
}
