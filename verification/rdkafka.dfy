/**
 * The parts of the Kafka client library (php-rdkafka over librdkafka) that
 * the worker touches, as plain values: response codes, delivered records,
 * topic/partition triples and consumer handles. The client's network
 * behaviour is not modelled.
 */
module RdKafka {
  import opened Wrappers

  /** A librdkafka response code (`rd_kafka_resp_err_t`). */
  type ErrCode = int

  /** The response codes the worker and the rebalance callback branch on,
      with librdkafka's values. */
  const ErrNoError: ErrCode := 0
  const ErrPartitionEof: ErrCode := -191
  const ErrTimedOut: ErrCode := -185
  const ErrAssignPartitions: ErrCode := -175
  const ErrRevokePartitions: ErrCode := -174

  /**
   * One record returned by `consume`: its response code and the client's
   * description of it, the topic, partition and offset, and the payload
   * (null for a record without a value).
   */
  datatype Record = Record(
    err: ErrCode,
    errstr: string,
    topic: string,
    partition: int,
    offset: int,
    payload: Option<string>)

  /** A (topic, partition, offset) triple handed to the rebalance callback. */
  datatype TopicPartition = TopicPartition(topic: string, partition: int, offset: int)

  /**
   * A consumer handle: the configuration it was built from, and the topic
   * list it has been subscribed to, if any.
   */
  datatype KafkaConsumer = KafkaConsumer(settings: map<string, string>, subscription: Option<seq<string>>)
}
