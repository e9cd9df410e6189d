/**
 * What the two invalid-message producer interceptors share: the Spring Kafka
 * header names they read, the configuration entries they cast, the outcome
 * of `onSend`, and the header lookups with their defaults.
 */
module Interception {
  import opened Wrappers
  import opened Events
  import opened Records
  import opened Flags

  /** `KafkaHeaders.ORIGINAL_TOPIC`, `ORIGINAL_PARTITION`, `ORIGINAL_OFFSET` and `EXCEPTION_MESSAGE`. */
  const OriginalTopicHeader: string := "kafka_original-topic"
  const OriginalPartitionHeader: string := "kafka_original-partition"
  const OriginalOffsetHeader: string := "kafka_original-offset"
  const ExceptionMessageHeader: string := "kafka_exception-message"

  const MessageFlagsKey: string := "message.flags"
  const Unknown: string := "unknown"

  /** Why `new BigInteger(byte[])` rejects an empty array, and why `new ProducerRecord` rejects a null topic. */
  const ZeroLengthBigInteger: string := "Zero length BigInteger"
  const NullTopic: string := "Topic cannot be null."
  /**
   * A label of this model's own for the `NullPointerException` that
   * `messageFlags.isRetryable()` throws before `configure` has run; Java
   * gives that exception no message.
   */
  const NullFlags: string := "messageFlags is null"

  /** A value in the producer's configuration map, as the interceptors cast it. */
  datatype ConfigValue = FlagsValue(flags: MessageFlags) | TextValue(text: string)

  /**
   * `(MessageFlags) configs.get(key)`: an absent key reads as null, a value of
   * another type is a `ClassCastException` (`None`).
   */
  function FlagsEntry(configs: map<string, ConfigValue>, key: string): (r: Option<MessageFlags?>)
    ensures key !in configs ==> r == Some(null)
    ensures r.None? <==> key in configs && configs[key].TextValue?
    ensures key in configs && configs[key].FlagsValue? ==> r == Some(configs[key].flags)
  {
    if key !in configs then Some(null)
    else match configs[key]
      case FlagsValue(flags) => Some(flags)
      case TextValue(_) => None
  }

  /** `(String) configs.get(key)`: `Some(None)` is a null topic, `None` a `ClassCastException`. */
  function TextEntry(configs: map<string, ConfigValue>, key: string): (r: Option<Option<string>>)
    ensures key !in configs ==> r == Some(None)
    ensures r.None? <==> key in configs && configs[key].FlagsValue?
    ensures key in configs && configs[key].TextValue? ==> r == Some(Some(configs[key].text))
  {
    if key !in configs then Some(None)
    else match configs[key]
      case FlagsValue(_) => None
      case TextValue(text) => Some(Some(text))
  }

  /** What `onSend` hands to the producer, or the exception it raises. */
  datatype SendResult = Sent(record: ProducerRecord) | SendFailed(reason: string)

  /**
   * A partition or offset header: absent reads as -1, present is decoded as
   * a `BigInteger` (an empty value raises `NumberFormatException`).
   */
  function NumberOrDefault(headers: seq<Header>, key: string): (r: Result<int, string>)
    ensures LastHeader(headers, key).None? ==> r == Success(-1)
    ensures r.Failure? <==> LastHeader(headers, key) == Some([])
    ensures r.Failure? ==> r.error == ZeroLengthBigInteger
    ensures r.Success? && LastHeader(headers, key).Some? ==> BigIntegerOf(LastHeader(headers, key).value) == Some(r.value)
  {
    match LastHeader(headers, key)
    case None => Success(-1)
    case Some(bytes) =>
      match BigIntegerOf(bytes)
      case None => Failure(ZeroLengthBigInteger)
      case Some(v) => Success(v)
  }

  /** A text header decoded with the platform charset, or "unknown" when absent. */
  function TextOrUnknown(headers: seq<Header>, key: string, decodeText: seq<Byte> -> string): (r: string)
    ensures LastHeader(headers, key).None? ==> r == Unknown
    ensures LastHeader(headers, key).Some? ==> r == decodeText(LastHeader(headers, key).value)
  {
    match LastHeader(headers, key)
    case None => Unknown
    case Some(bytes) => decodeText(bytes)
  }

  /** How both interceptors' diagnostics open: `{ "invalid_message": "exception: [ `. */
  const DiagnosticOpening: string := "{ \"invalid_message\": \"exception: [ "

  /** What both diagnostics put between the topic and the partition. */
  const PartitionLead: string := ", partition: "

  /**
   * A string laid out as `opening + first + (lead + second + separator +
   * third) + closing` holds each part at its own offset and nothing else.
   */
  lemma LaidOut(opening: string, first: string, lead: string, second: string, separator: string, third: string,
                closing: string)
    ensures var s := opening + first + (lead + second + separator + third) + closing;
            var t := |opening| + |first| + |lead|;
            var p := t + |second| + |separator|;
            && |s| == p + |third| + |closing|
            && s[..|opening|] == opening && s[|opening|..|opening| + |first|] == first
            && s[|opening| + |first|..t] == lead && s[t..t + |second|] == second
            && s[t + |second|..p] == separator && s[p..p + |third|] == third
            && s[|s| - |closing|..] == closing
  {
  }

  /** The diagnostic event: every field empty except `data`, with an empty event record. */
  function InvalidData(message: string): (r: ResourceChangedData)
    ensures r.data == message
    ensures r.resourceKind == "" && r.resourceUri == Some("") && r.contextId == "" && r.resourceId == ""
    ensures r.event.publishedAt == "" && r.event.eventType == Some("") && r.event.fieldsChanged == []
  {
    ResourceChangedData("", Some(""), "", "", message, EventRecord("", Some(""), []))
  }
}
