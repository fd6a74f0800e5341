/**
 * src/Kafka/Factory.php: the consumer factory, the client configuration it
 * mutates, and the rebalance callback it installs into that configuration.
 */
module Kafka {
  import opened Wrappers
  import opened Decimal
  import opened RdKafka
  import opened Logging
  import opened Exceptions

  // ---------------------------------------------------------------------------
  // The rebalance callback (Factory.php:19-48)
  // ---------------------------------------------------------------------------

  /** A call the rebalance callback makes on its collaborators, in order:
      a log line, or `assign` with a partition list (None: `assign()` without
      arguments, which drops every partition). */
  datatype ClientCall = Log(line: LogLine) | Assign(partitions: Option<seq<TopicPartition>>)

  /** What one invocation of the callback did, and what it threw, if anything. */
  datatype RebalanceResult = RebalanceResult(calls: seq<ClientCall>, thrown: Option<Error>)

  const AssignedPrefix := "Assigned to partitions: "
  const RevokedLine := "Revoked from all partitions"

  /** `sprintf('%s/%d:%d', topic, partition, offset)`. */
  function Label(tp: TopicPartition): string {
    tp.topic + "/" + IntToDecimal(tp.partition) + ":" + IntToDecimal(tp.offset)
  }

  /** The `array_map` over the assigned partitions, in input order. */
  function PartitionLabels(partitions: seq<TopicPartition>): seq<string> {
    seq(|partitions|, i requires 0 <= i < |partitions| => Label(partitions[i]))
  }

  /** Reads a label back: the offset follows the last ':', the partition the
      last '/' before it, and whatever precedes that is the topic. */
  function ParseLabel(s: string): Option<TopicPartition> {
    match LastIndexOf(s, ':')
    case None => None
    case Some(colon) =>
      var head := s[..colon];
      match LastIndexOf(head, '/')
      case None => None
      case Some(slash) =>
        match (ParseInt(head[slash + 1..]), ParseInt(s[colon + 1..]))
        case (Some(partition), Some(offset)) => Some(TopicPartition(head[..slash], partition, offset))
        case _ => None
  }

  lemma DecimalHasNoSeparator(n: int, c: char)
    requires c == '/' || c == ':'
    ensures c !in IntToDecimal(n)
  {
  }

  /** Every label names its partition unambiguously, whatever the topic holds. */
  lemma {:induction false} LabelRoundTrip(tp: TopicPartition)
    ensures ParseLabel(Label(tp)) == Some(tp)
  {
    var p, o := IntToDecimal(tp.partition), IntToDecimal(tp.offset);
    var head := tp.topic + "/" + p;
    var s := Label(tp);
    assert s == head + [':'] + o;
    DecimalHasNoSeparator(tp.offset, ':');
    LastIndexOfSplit(head, ':', o);
    assert s[..|head|] == head;
    assert s[|head| + 1..] == o;
    assert head == tp.topic + ['/'] + p;
    DecimalHasNoSeparator(tp.partition, '/');
    LastIndexOfSplit(tp.topic, '/', p);
    assert head[..|tp.topic|] == tp.topic;
    assert head[|tp.topic| + 1..] == p;
  }

  /** The logged list has one label per partition, in input order, and each
      label reads back as its partition. */
  lemma PartitionLabelsRoundTrip(partitions: seq<TopicPartition>)
    ensures |PartitionLabels(partitions)| == |partitions|
    ensures forall i :: 0 <= i < |partitions| ==> ParseLabel(PartitionLabels(partitions)[i]) == Some(partitions[i])
  {
    forall i | 0 <= i < |partitions|
      ensures ParseLabel(PartitionLabels(partitions)[i]) == Some(partitions[i])
    {
      LabelRoundTrip(partitions[i]);
    }
  }

  /** The `assign` calls among a callback's calls. */
  function Assignments(calls: seq<ClientCall>): seq<Option<seq<TopicPartition>>> {
    if calls == [] then []
    else (if calls[0].Assign? then [calls[0].partitions] else []) + Assignments(calls[1..])
  }

  /** The log lines among a callback's calls. */
  function LogLines(calls: seq<ClientCall>): seq<LogLine> {
    if calls == [] then []
    else (if calls[0].Log? then [calls[0].line] else []) + LogLines(calls[1..])
  }

  /**
   * The callback's case split on the response code. `logging` says whether a
   * logger is installed; `encode` is `json_encode(..., JSON_UNESCAPED_SLASHES)`,
   * a parameter of the model; `assignFailure` is what the client's `assign`
   * throws, if anything, chosen by the caller. A throwing `assign` ends the
   * callback with that error, after the call.
   */
  function Rebalance(
    logging: bool, err: ErrCode, partitions: seq<TopicPartition>, encode: seq<string> -> string,
    assignFailure: Option<Error>)
    : (r: RebalanceResult)
    ensures err == ErrAssignPartitions ==> r.thrown == assignFailure && Assignments(r.calls) == [Some(partitions)]
    ensures err == ErrRevokePartitions ==> r.thrown == assignFailure && Assignments(r.calls) == [None]
    ensures err != ErrAssignPartitions && err != ErrRevokePartitions ==>
      r.calls == [] && r.thrown.Some? && r.thrown.value.RebalanceError?
      && r.thrown.value.message == IntToDecimal(err) && ParseInt(r.thrown.value.message) == Some(err)
    ensures err == ErrAssignPartitions ==>
      LogLines(r.calls) == (if logging then [Info(AssignedPrefix + encode(PartitionLabels(partitions)))] else [])
    ensures err == ErrRevokePartitions ==>
      LogLines(r.calls) == (if logging then [Info(RevokedLine)] else [])
    ensures err == ErrAssignPartitions || err == ErrRevokePartitions ==>
      |r.calls| > 0 && r.calls[|r.calls| - 1].Assign?
  {
    if err == ErrAssignPartitions then
      var line := Info(AssignedPrefix + encode(PartitionLabels(partitions)));
      var assign := Assign(Some(partitions));
      var calls := if logging then [Log(line), assign] else [assign];
      assert Assignments([assign]) == [Some(partitions)] && LogLines([assign]) == [];
      assert logging ==> calls[1..] == [assign];
      RebalanceResult(calls, assignFailure)
    else if err == ErrRevokePartitions then
      var assign := Assign(None);
      var calls := if logging then [Log(Info(RevokedLine)), assign] else [assign];
      assert Assignments([assign]) == [None] && LogLines([assign]) == [];
      assert logging ==> calls[1..] == [assign];
      RebalanceResult(calls, assignFailure)
    else
      RebalanceResult([], Some(RebalanceError(IntToDecimal(err))))
  }

  /** The closure installed by the factory: it logs through the factory's logger. */
  datatype RebalancePolicy = RebalancePolicy(logger: Logger?) {
    function Invoke(
      err: ErrCode, partitions: seq<TopicPartition>, encode: seq<string> -> string, assignFailure: Option<Error>)
      : RebalanceResult
    {
      Rebalance(logger != null, err, partitions, encode, assignFailure)
    }
  }

  // ---------------------------------------------------------------------------
  // The client configuration (RdKafka\Conf)
  // ---------------------------------------------------------------------------

  /**
   * The configuration object shared by the factory and every consumer it
   * builds. `rejected` holds the property names this client build refuses
   * (the ones whose `set` throws); `rebalanceCbInstalls` counts calls of
   * `setRebalanceCb`.
   */
  class Conf {
    var settings: map<string, string>
    const rejected: set<string>
    var rebalanceCb: Option<RebalancePolicy>
    var rebalanceCbInstalls: nat

    constructor (rejected: set<string>)
      ensures settings == map[] && this.rejected == rejected
      ensures rebalanceCb.None? && rebalanceCbInstalls == 0
    {
      settings := map[];
      this.rejected := rejected;
      rebalanceCb := None;
      rebalanceCbInstalls := 0;
    }

    /** `set($name, $value)`: stores the property, or throws for a refused name. */
    method Set(name: string, value: string) returns (thrown: Option<Error>)
      modifies this`settings
      ensures thrown.Some? <==> name in rejected
      ensures thrown.Some? ==> settings == old(settings) && !IsCommittable(thrown.value)
      ensures thrown.None? ==> settings == old(settings)[name := value]
    {
      if name in rejected {
        thrown := Some(Thrown("RdKafka\\Exception: unsupported property " + name, false));
      } else {
        settings := settings[name := value];
        thrown := None;
      }
    }

    method SetRebalanceCb(cb: RebalancePolicy)
      modifies this`rebalanceCb, this`rebalanceCbInstalls
      ensures rebalanceCb == Some(cb) && rebalanceCbInstalls == old(rebalanceCbInstalls) + 1
    {
      rebalanceCb := Some(cb);
      rebalanceCbInstalls := rebalanceCbInstalls + 1;
    }
  }

  // ---------------------------------------------------------------------------
  // The factory (Factory.php:13-88)
  // ---------------------------------------------------------------------------

  const GroupInstanceId := "group.instance.id"
  const DynamicMemberLine := "No consumer ID specified. Registering as a dynamic member"
  const StaticMemberPrefix := "Registering as a static member with id "
  const StaticUnsupportedLine := "Kafka group.instance.id conf is not supported. Registering as a dynamic member"
  const GroupId := "group.id"
  const MissingGroupIdMessage := "RdKafka\\Exception: \"group.id\" must be configured"

  class Factory {
    const config: Conf
    const logger: Logger?

    /** Installs the rebalance callback into the configuration, once. */
    constructor (config: Conf, logger: Logger? := null)
      modifies config`rebalanceCb, config`rebalanceCbInstalls
      ensures this.config == config && this.logger == logger
      ensures config.rebalanceCb == Some(RebalancePolicy(logger))
      ensures config.rebalanceCbInstalls == old(config.rebalanceCbInstalls) + 1
    {
      this.config := config;
      this.logger := logger;
      new;
      config.SetRebalanceCb(RebalancePolicy(logger));
    }

    /**
     * `getConsumer($consumerId)`: with an id, tries to register as a static
     * member by setting `group.instance.id`, and falls back to a dynamic member
     * with a notice when the configuration refuses it. Then `new KafkaConsumer`
     * runs outside any try: it throws when `group.id` is not configured, or
     * with `clientFailure` when the client library refuses the configuration
     * (chosen by the caller); otherwise it returns a new, unsubscribed consumer
     * over the configuration. The rebalance callback is left as it is.
     */
    method GetConsumer(clientFailure: Option<Error>, consumerId: Option<string> := None) returns (r: Result<KafkaConsumer, Error>)
      modifies config`settings, logger
      ensures r.Failure? <==> GroupId !in config.settings || clientFailure.Some?
      ensures GroupId !in config.settings ==> r == Failure(Thrown(MissingGroupIdMessage, false))
      ensures GroupId in config.settings && clientFailure.Some? ==> r == Failure(clientFailure.value)
      ensures r.Success? ==> r.value == KafkaConsumer(config.settings, None)
      ensures config.rebalanceCb == old(config.rebalanceCb) && config.rebalanceCbInstalls == old(config.rebalanceCbInstalls)
      ensures consumerId.None? || GroupInstanceId in config.rejected ==> config.settings == old(config.settings)
      ensures consumerId.Some? && GroupInstanceId !in config.rejected ==>
        config.settings == old(config.settings)[GroupInstanceId := consumerId.value]
      ensures logger != null && consumerId.None? ==>
        logger.lines == old(logger.lines) + [Info(DynamicMemberLine)]
      ensures logger != null && consumerId.Some? && GroupInstanceId !in config.rejected ==>
        logger.lines == old(logger.lines) + [Info(StaticMemberPrefix + consumerId.value)]
      ensures logger != null && consumerId.Some? && GroupInstanceId in config.rejected ==>
        logger.lines == old(logger.lines) + [Notice(StaticUnsupportedLine)]
    {
      if consumerId.Some? {
        var thrown := config.Set(GroupInstanceId, consumerId.value);
        if thrown.None? {
          if logger != null {
            logger.Info(StaticMemberPrefix + consumerId.value);
          }
        } else {
          if logger != null {
            logger.Notice(StaticUnsupportedLine);
          }
        }
      } else {
        if logger != null {
          logger.Info(DynamicMemberLine);
        }
      }
      if GroupId !in config.settings {
        r := Failure(Thrown(MissingGroupIdMessage, false));
      } else if clientFailure.Some? {
        r := Failure(clientFailure.value);
      } else {
        r := Success(KafkaConsumer(config.settings, None));
      }
    }
  }
}
