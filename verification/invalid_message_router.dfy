/**
 * `InvalidMessageRouter` of the officers consumer: a producer interceptor
 * that lets a retry record through when the consumer flagged the failure as
 * retryable, and otherwise rewrites the outgoing record into a diagnostic
 * record for the configured invalid topic. The original topic is read from
 * the `ORIGINAL_TOPIC` header.
 */
module InvalidMessageRouter {
  import opened Wrappers
  import opened Events
  import opened Records
  import opened Flags
  import opened Interception

  const InvalidMessageTopicKey: string := "invalid.message.topic"

  /** What the diagnostic puts between the exception and the topic. */
  const TopicLead: string := " ] passed for topic: "

  /** `{ "invalid_message": "exception: [ E ] passed for topic: T, partition: P, offset: O" }`. */
  function DiagnosticMessage(exception: string, topic: string, partition: int, offset: int): (r: string)
    ensures |r| >= |DiagnosticOpening| + |exception|
    ensures r[..|DiagnosticOpening|] == DiagnosticOpening
    ensures r[|DiagnosticOpening|..|DiagnosticOpening| + |exception|] == exception
    ensures var closing := ", offset: " + IntToString(offset) + "\" }";
            |r| >= |closing| && r[|r| - |closing|..] == closing
  {
    var closing := ", offset: " + IntToString(offset) + "\" }";
    LaidOut(DiagnosticOpening, exception, TopicLead, topic, PartitionLead, IntToString(partition), closing);
    DiagnosticOpening + exception + (TopicLead + topic + PartitionLead + IntToString(partition)) + closing
  }

  /**
   * The whole layout of the diagnostic: each argument at its own offset,
   * between the fixed texts, and nothing else in the string.
   */
  lemma DiagnosticLayout(exception: string, topic: string, partition: int, offset: int)
    ensures var r := DiagnosticMessage(exception, topic, partition, offset);
            var t := |DiagnosticOpening| + |exception| + |TopicLead|;
            var p := t + |topic| + |PartitionLead|;
            var closing := ", offset: " + IntToString(offset) + "\" }";
            && |r| == p + |IntToString(partition)| + |closing|
            && r[..|DiagnosticOpening|] == DiagnosticOpening
            && r[|DiagnosticOpening|..|DiagnosticOpening| + |exception|] == exception
            && r[|DiagnosticOpening| + |exception|..t] == TopicLead
            && r[t..t + |topic|] == topic
            && r[t + |topic|..p] == PartitionLead
            && r[p..p + |IntToString(partition)|] == IntToString(partition)
            && r[|r| - |closing|..] == closing
  {
    var closing := ", offset: " + IntToString(offset) + "\" }";
    LaidOut(DiagnosticOpening, exception, TopicLead, topic, PartitionLead, IntToString(partition), closing);
  }

  /**
   * The non-retryable branch of `onSend`: the new record goes to the invalid
   * topic with the original key, no partition and no headers, and carries
   * only the diagnostic built from the last of each header. It fails when a
   * partition or offset header is empty, or when no invalid topic is set.
   */
  function Redirect(record: ProducerRecord, invalidTopic: Option<string>, decodeText: seq<Byte> -> string)
    : (r: SendResult)
    ensures r.Sent? <==> invalidTopic.Some? && LastHeader(record.headers, OriginalPartitionHeader) != Some([])
                         && LastHeader(record.headers, OriginalOffsetHeader) != Some([])
    ensures r.SendFailed? ==> r.reason in {ZeroLengthBigInteger, NullTopic}
    ensures r.Sent? ==> && r.record.topic == invalidTopic.value && r.record.key == record.key
                        && r.record.partition.None? && r.record.headers == []
                        && r.record.value == InvalidData(DiagnosticMessage(
                             TextOrUnknown(record.headers, ExceptionMessageHeader, decodeText),
                             TextOrUnknown(record.headers, OriginalTopicHeader, decodeText),
                             NumberOrDefault(record.headers, OriginalPartitionHeader).value,
                             NumberOrDefault(record.headers, OriginalOffsetHeader).value))
  {
    var topic := TextOrUnknown(record.headers, OriginalTopicHeader, decodeText);
    match NumberOrDefault(record.headers, OriginalPartitionHeader)
    case Failure(e) => SendFailed(e)
    case Success(partition) =>
      match NumberOrDefault(record.headers, OriginalOffsetHeader)
      case Failure(e) => SendFailed(e)
      case Success(offset) =>
        var exception := TextOrUnknown(record.headers, ExceptionMessageHeader, decodeText);
        var data := InvalidData(DiagnosticMessage(exception, topic, partition, offset));
        match invalidTopic
        case None => SendFailed(NullTopic)
        case Some(t) => Sent(NewRecord(t, record.key, data))
  }

  class InvalidMessageRouter {
    var messageFlags: MessageFlags?
    var invalidMessageTopic: Option<string>
    /** `new String(byte[])`: decoding with the platform's default charset. */
    const decodeText: seq<Byte> -> string

    /** Before `configure`, both fields are null. */
    constructor (decodeText: seq<Byte> -> string)
      ensures messageFlags == null && invalidMessageTopic.None? && this.decodeText == decodeText
    {
      messageFlags := null;
      invalidMessageTopic := None;
      this.decodeText := decodeText;
    }

    /**
     * `configure`: cast "message.flags" and then "invalid.message.topic";
     * an absent entry is null, and a wrongly typed one raises (`ok` false)
     * after the fields assigned before it.
     */
    method Configure(configs: map<string, ConfigValue>) returns (ok: bool)
      modifies this
      ensures ok <==> FlagsEntry(configs, MessageFlagsKey).Some? && TextEntry(configs, InvalidMessageTopicKey).Some?
      ensures FlagsEntry(configs, MessageFlagsKey).None? ==>
                messageFlags == old(messageFlags) && invalidMessageTopic == old(invalidMessageTopic)
      ensures FlagsEntry(configs, MessageFlagsKey).Some? ==> messageFlags == FlagsEntry(configs, MessageFlagsKey).value
      ensures FlagsEntry(configs, MessageFlagsKey).Some? && TextEntry(configs, InvalidMessageTopicKey).None? ==>
                invalidMessageTopic == old(invalidMessageTopic)
      ensures ok ==> invalidMessageTopic == TextEntry(configs, InvalidMessageTopicKey).value
    {
      match FlagsEntry(configs, MessageFlagsKey)
      case None =>
        ok := false;
      case Some(flags) =>
        messageFlags := flags;
        match TextEntry(configs, InvalidMessageTopicKey)
        case None =>
          ok := false;
        case Some(topic) =>
          invalidMessageTopic := topic;
          ok := true;
    }

    /**
     * `onSend`: a retryable flag is cleared and the record passes unchanged;
     * otherwise the flag is left as it is and the record is redirected. With
     * no flags configured the call raises.
     */
    method OnSend(record: ProducerRecord) returns (r: SendResult)
      modifies messageFlags
      ensures messageFlags == null ==> r == SendFailed(NullFlags)
      ensures messageFlags != null && old(messageFlags.retryable) ==> r == Sent(record) && !messageFlags.IsRetryable()
      ensures messageFlags != null && !old(messageFlags.retryable) ==>
                r == Redirect(record, invalidMessageTopic, decodeText) && !messageFlags.IsRetryable()
    {
      if messageFlags == null {
        r := SendFailed(NullFlags);
      } else if messageFlags.IsRetryable() {
        messageFlags.Destroy();
        r := Sent(record);
      } else {
        r := Redirect(record, invalidMessageTopic, decodeText);
      }
    }
  }

  /** Without headers the diagnostic reports an unknown exception and topic, partition -1 and offset -1. */
  lemma DefaultsWithoutHeaders(key: Option<string>, value: ResourceChangedData, topic: string,
                               decodeText: seq<Byte> -> string)
    ensures Redirect(ProducerRecord(topic, None, None, key, value, []), Some("invalid"), decodeText)
            == Sent(NewRecord("invalid", key, InvalidData(
                 DiagnosticOpening + "unknown" + (" ] passed for topic: " + "unknown" + ", partition: " + "-1")
                 + (", offset: " + "-1" + "\" }"))))
  {
    var headers: seq<Header> := [];
    assert NumberOrDefault(headers, OriginalPartitionHeader) == Success(-1);
    assert NumberOrDefault(headers, OriginalOffsetHeader) == Success(-1);
    assert TextOrUnknown(headers, OriginalTopicHeader, decodeText) == Unknown;
    assert TextOrUnknown(headers, ExceptionMessageHeader, decodeText) == Unknown;
    SmallIntStrings();
  }

  /**
   * The headers the dead-letter publisher stamps: partition 0, offset 1,
   * the original topic and the exception message, all named in the diagnostic.
   */
  lemma ReportsStampedHeaders(record: ProducerRecord, decodeText: seq<Byte> -> string, topicBytes: seq<Byte>,
                              exceptionBytes: seq<Byte>)
    requires record.headers == [Header(OriginalTopicHeader, topicBytes), Header(OriginalPartitionHeader, [0]),
                                Header(OriginalOffsetHeader, [1]), Header(ExceptionMessageHeader, exceptionBytes)]
    ensures Redirect(record, Some("invalid"), decodeText)
            == Sent(NewRecord("invalid", record.key, InvalidData(
                 DiagnosticOpening + decodeText(exceptionBytes)
                 + (" ] passed for topic: " + decodeText(topicBytes) + ", partition: " + "0")
                 + (", offset: " + "1" + "\" }"))))
  {
    var headers := record.headers;
    assert LastHeader(headers, OriginalTopicHeader) == Some(topicBytes) by {
      LastHeaderIsLast(headers, OriginalTopicHeader, 0);
    }
    assert LastHeader(headers, OriginalPartitionHeader) == Some([0]) by {
      LastHeaderIsLast(headers, OriginalPartitionHeader, 1);
    }
    assert LastHeader(headers, OriginalOffsetHeader) == Some([1]) by {
      LastHeaderIsLast(headers, OriginalOffsetHeader, 2);
    }
    assert LastHeader(headers, ExceptionMessageHeader) == Some(exceptionBytes) by {
      LastHeaderIsLast(headers, ExceptionMessageHeader, 3);
    }
    SingleByteValues();
    SmallIntStrings();
  }
}
