/**
 * The errors the core raises or lets through, and the two exception
 * constructors of the package, src/Exception/KafkaMessageException.php and
 * src/Exception/PayloadDecodingFailedException.php.
 */
module Exceptions {
  import opened Wrappers
  import opened RdKafka

  /** PHP's JsonException as thrown by `json_decode`: a message and a code. */
  datatype JsonException = JsonException(message: string, code: int)

  /** A record whose response code is neither success nor a benign no-message code. */
  datatype KafkaMessageException = KafkaMessageException(
    message: string,
    code: int,
    kafkaMessage: Record,
    previous: Option<Error>)

  /** A record whose payload `json_decode` rejected. */
  datatype PayloadDecodingFailedException = PayloadDecodingFailedException(
    message: string,
    code: int,
    kafkaMessage: Record,
    previous: JsonException)

  /**
   * Everything a step of the core can throw. `Thrown` stands for any error
   * raised by a collaborator (the Kafka client, the processor); `committable`
   * says whether it implements the CommittableMessageException marker.
   */
  datatype Error =
    | InvalidArgument(message: string)
    | KafkaMessageError(kafkaError: KafkaMessageException)
    | PayloadDecodingFailed(decodingError: PayloadDecodingFailedException)
    | RebalanceError(message: string)
    | TypeError(message: string)
    | NullMethodCall(methodName: string)
    | Thrown(name: string, committable: bool)

  /** Whether `catch (CommittableMessageException $e)` catches the error:
      none of the package's own exceptions implement the marker. */
  predicate IsCommittable(e: Error) {
    e.Thrown? && e.committable
  }

  const KafkaMessagePrefix := "Error received in kafka message: "
  const DecodingFailedPrefix := "Failed to decode message payload as JSON: "

  /** `new KafkaMessageException($record, $previous)`. */
  function NewKafkaMessageException(record: Record, previous: Option<Error> := None): (e: KafkaMessageException)
    ensures KafkaMessagePrefix <= e.message
    ensures e.message[|KafkaMessagePrefix|..] == record.errstr
    ensures e.code == record.err
    ensures e.kafkaMessage == record && e.previous == previous
  {
    var message := KafkaMessagePrefix + record.errstr;
    assert message[|KafkaMessagePrefix|..] == record.errstr;
    KafkaMessageException(message, record.err, record, previous)
  }

  /** `new PayloadDecodingFailedException($record, $jsonException)`. */
  function NewPayloadDecodingFailed(record: Record, inner: JsonException): (e: PayloadDecodingFailedException)
    ensures DecodingFailedPrefix <= e.message
    ensures e.message[|DecodingFailedPrefix|..] == inner.message
    ensures e.code == inner.code
    ensures e.previous == inner && e.kafkaMessage == record
  {
    var message := DecodingFailedPrefix + inner.message;
    assert message[|DecodingFailedPrefix|..] == inner.message;
    PayloadDecodingFailedException(message, inner.code, record, inner)
  }
}
