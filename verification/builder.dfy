/**
 * src/Builder/KafkaCommandBuilder.php: collects the optional parts of a worker
 * command with fluent setters and wires the Kafka factory, the worker and the
 * command together in `build`.
 */
module Builders {
  import opened Wrappers
  import opened Exceptions
  import opened Logging
  import opened Kafka
  import opened Workers

  /** Collaborators of the queue-worker library, known here only by identity. */
  datatype CommandEventHandler = CommandEventHandler(name: string)
  datatype SignalHandler = SignalHandler(name: string)
  datatype DateHelper = DateHelper(name: string)
  datatype InterruptedValue = InterruptedValue(name: string)

  /** The command `build` returns, as far as the builder sets it up. */
  datatype WorkerCommand = WorkerCommand(
    name: string,
    worker: KafkaWorker,
    dateHelper: DateHelper,
    interruptedValue: InterruptedValue,
    eventHandler: Option<CommandEventHandler>,
    signalHandler: Option<SignalHandler>)

  class KafkaCommandBuilder {
    const dateHelper: DateHelper
    const interruptedValue: InterruptedValue
    var workerEventHandler: Option<WorkerEventHandler>
    var commandEventHandler: Option<CommandEventHandler>
    var signalHandler: Option<SignalHandler>
    var consumeTimeoutMs: int

    /** Nothing optional is set; the consume timeout is the worker's default. */
    constructor (dateHelper: DateHelper, interruptedValue: InterruptedValue)
      ensures this.dateHelper == dateHelper && this.interruptedValue == interruptedValue
      ensures workerEventHandler.None? && commandEventHandler.None? && signalHandler.None?
      ensures consumeTimeoutMs == DefaultConsumeTimeoutMs
    {
      this.dateHelper := dateHelper;
      this.interruptedValue := interruptedValue;
      workerEventHandler := None;
      commandEventHandler := None;
      signalHandler := None;
      consumeTimeoutMs := DefaultConsumeTimeoutMs;
    }

    method SetWorkerEventHandler(handler: WorkerEventHandler) returns (self: KafkaCommandBuilder)
      modifies this`workerEventHandler
      ensures self == this && workerEventHandler == Some(handler)
    {
      workerEventHandler := Some(handler);
      self := this;
    }

    method SetCommandEventHandler(handler: CommandEventHandler) returns (self: KafkaCommandBuilder)
      modifies this`commandEventHandler
      ensures self == this && commandEventHandler == Some(handler)
    {
      commandEventHandler := Some(handler);
      self := this;
    }

    method SetCommandSignalHandler(handler: SignalHandler) returns (self: KafkaCommandBuilder)
      modifies this`signalHandler
      ensures self == this && signalHandler == Some(handler)
    {
      signalHandler := Some(handler);
      self := this;
    }

    method SetConsumeTimeoutMs(timeoutMs: int) returns (self: KafkaCommandBuilder)
      modifies this`consumeTimeoutMs
      ensures self == this && consumeTimeoutMs == timeoutMs
    {
      consumeTimeoutMs := timeoutMs;
      self := this;
    }

    /**
     * `build($name, $kafkaConfig, $processor, $logger, ...$topics)`: refuses an
     * empty topic list before touching the configuration; otherwise a new
     * factory installs its rebalance callback into the configuration, and a new
     * worker gets the topics in order, the processor, the builder's timeout and
     * worker event handler, inside a command that carries the command event
     * handler and signal handler.
     */
    method Build(name: string, kafkaConfig: Conf, processor: MessageProcessor, logger: Logger, topics: seq<string>)
      returns (r: Result<WorkerCommand, Error>)
      modifies kafkaConfig`rebalanceCb, kafkaConfig`rebalanceCbInstalls
      ensures r.Failure? <==> topics == []
      ensures r.Failure? ==> r.error == InvalidArgument(NoTopicsMessage)
      ensures r.Failure? ==> unchanged(kafkaConfig)
      ensures r.Success? ==>
        kafkaConfig.rebalanceCb == Some(RebalancePolicy(logger))
        && kafkaConfig.rebalanceCbInstalls == old(kafkaConfig.rebalanceCbInstalls) + 1
      ensures r.Success? ==> var command := r.value;
        && command.name == name
        && command.dateHelper == dateHelper && command.interruptedValue == interruptedValue
        && command.eventHandler == commandEventHandler && command.signalHandler == signalHandler
      ensures r.Success? ==> var worker := r.value.worker;
        && fresh(worker) && fresh(worker.factory)
        && worker.factory.config == kafkaConfig && worker.factory.logger == logger
        && worker.topics == topics && worker.processor == processor
        && worker.consumeTimeoutMs == consumeTimeoutMs
        && worker.eventHandler == workerEventHandler && worker.consumers == map[]
    {
      if topics == [] {
        return Failure(InvalidArgument(NoTopicsMessage));
      }
      var factory := new Factory(kafkaConfig, logger);
      var created := KafkaWorker.Create(factory, topics, processor, consumeTimeoutMs);
      var worker := created.value.SetEventHandler(workerEventHandler);
      r := Success(WorkerCommand(name, worker, dateHelper, interruptedValue, commandEventHandler, signalHandler));
    }
  }
}
