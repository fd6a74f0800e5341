/**
 * The message envelope of src/Message/KafkaMessage.php: a delivered record
 * whose payload has been decoded, exposing the payload, the job name and an
 * overridable queue identifier.
 */
module Messages {
  import opened Wrappers
  import opened Decimal
  import opened RdKafka
  import opened Exceptions

  /** A decoded JSON document. With `$assoc = true` objects and lists both
      become PHP arrays; everything else is a scalar or null. */
  datatype Json =
    | JNull
    | JBool(b: bool)
    | JNumber(literal: string)
    | JString(s: string)
    | JList(items: seq<Json>)
    | JObject(members: seq<(string, Json)>)

  predicate IsPhpArray(j: Json) {
    j.JList? || j.JObject?
  }

  /** What `json_decode(..., JSON_THROW_ON_ERROR)` does with one string. */
  datatype Decoded = Decoded(value: Json) | Malformed(error: JsonException)

  /** The JSON decoder, a parameter of the model: no JSON grammar is modelled. */
  type Decoder = string -> Decoded

  /**
   * The constructor's decoding step (KafkaMessage.php:17-24). Under
   * `strict_types` a null payload is a TypeError before decoding; a decoder
   * failure becomes PayloadDecodingFailed carrying the record; a valid document
   * that is not an array fails the `array` type of the payload property.
   */
  function DecodePayload(record: Record, decode: Decoder): (r: Result<Json, Error>)
    ensures r.Success? <==>
      record.payload.Some? && decode(record.payload.value).Decoded? && IsPhpArray(decode(record.payload.value).value)
    ensures r.Success? ==> r.value == decode(record.payload.value).value
    ensures (r.Failure? && r.error.PayloadDecodingFailed?) <==>
      (record.payload.Some? && decode(record.payload.value).Malformed?)
    ensures r.Failure? && r.error.PayloadDecodingFailed? ==>
      r.error.decodingError.kafkaMessage == record
      && r.error.decodingError.previous == decode(record.payload.value).error
    ensures r.Failure? ==> r.error.PayloadDecodingFailed? || r.error.TypeError?
  {
    match record.payload
    case None => Failure(TypeError("json_decode(): argument #1 must be of type string, null given"))
    case Some(text) =>
      match decode(text)
      case Malformed(e) => Failure(PayloadDecodingFailed(NewPayloadDecodingFailed(record, e)))
      case Decoded(v) =>
        if IsPhpArray(v) then Success(v)
        else Failure(TypeError("Cannot assign a non-array value to property KafkaMessage::$payload of type array"))
  }

  /** What an observer can read from an envelope through its getters. */
  datatype MessageView = MessageView(record: Record, payload: Json, queueIdentifier: string)

  /** The view of a freshly constructed envelope, before any identifier override. */
  function FreshView(record: Record, payload: Json): MessageView {
    MessageView(record, payload, IntToDecimal(record.offset))
  }

  class KafkaMessage {
    const record: Record
    const payload: Json
    var identifier: Option<string>

    /** Fills in an envelope whose payload has already been decoded. */
    constructor FromDecoded(record: Record, payload: Json)
      ensures this.record == record && this.payload == payload && identifier.None?
    {
      this.record := record;
      this.payload := payload;
      identifier := None;
    }

    /**
     * `new KafkaMessage($record)`: succeeds exactly when the payload decodes
     * to an array, and then holds that array and no identifier override.
     */
    static method Create(record: Record, decode: Decoder) returns (r: Result<KafkaMessage, Error>)
      ensures r.Success? <==> DecodePayload(record, decode).Success?
      ensures r.Failure? ==> r.error == DecodePayload(record, decode).error
      ensures r.Success? ==> fresh(r.value) && r.value.record == record
      ensures r.Success? ==> r.value.payload == DecodePayload(record, decode).value
      ensures r.Success? ==> r.value.identifier.None?
    {
      var decoded := DecodePayload(record, decode);
      if decoded.Failure? {
        r := Failure(decoded.error);
      } else {
        var m := new KafkaMessage.FromDecoded(record, decoded.value);
        r := Success(m);
      }
    }

    /** `getJobName()`: the topic the record came from. */
    function JobName(): (name: string)
      ensures name == record.topic
    {
      record.topic
    }

    /** `getQueueIdentifier()`: the override if one was set, else the offset in decimal. */
    function QueueIdentifier(): (id: string)
      reads this
      ensures identifier.Some? ==> id == identifier.value
      ensures identifier.None? ==> id == IntToDecimal(record.offset) && ParseInt(id) == Some(record.offset)
    {
      identifier.GetOr(IntToDecimal(record.offset))
    }

    /** `setQueueIdentifier($id)`: the last value set wins; nothing else changes. */
    method SetQueueIdentifier(id: string) returns (self: KafkaMessage)
      modifies this`identifier
      ensures self == this && identifier == Some(id)
      ensures QueueIdentifier() == id
    {
      identifier := Some(id);
      self := this;
    }

    function View(): (v: MessageView)
      reads this
      ensures v.record == record && v.payload == payload && v.queueIdentifier == QueueIdentifier()
    {
      MessageView(record, payload, QueueIdentifier())
    }
  }

  /** The default queue identifier of two records differs when their offsets do. */
  lemma DefaultIdentifiersDistinct(m1: KafkaMessage, m2: KafkaMessage)
    requires m1.identifier.None? && m2.identifier.None?
    requires m1.record.offset != m2.record.offset
    ensures m1.QueueIdentifier() != m2.QueueIdentifier()
  {
    if m1.QueueIdentifier() == m2.QueueIdentifier() {
      IntToDecimalInjective(m1.record.offset, m2.record.offset);
    }
  }
}
