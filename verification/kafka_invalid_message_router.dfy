/**
 * `kafka.InvalidMessageRouter` of the company-profile consumer: the same
 * interceptor as the officers one, except that the diagnostic names the
 * outgoing record's own topic and the destination is configured under
 * "invalid.message.topic.profile".
 */
module KafkaInvalidMessageRouter {
  import opened Wrappers
  import opened Events
  import opened Records
  import opened Flags
  import opened Interception

  const ProfileInvalidTopicKey: string := "invalid.message.topic.profile"

  /** What the diagnostic puts between the exception and the topic. */
  const TopicLead: string := " ] redirecting message from topic: "

  /**
   * `{ "invalid_message": "exception: [ E ] redirecting message from topic: T,
   * partition: P, offset: O to invalid topic" }`.
   */
  function DiagnosticMessage(exception: string, topic: string, partition: int, offset: int): (r: string)
    ensures |r| >= |DiagnosticOpening| + |exception|
    ensures r[..|DiagnosticOpening|] == DiagnosticOpening
    ensures r[|DiagnosticOpening|..|DiagnosticOpening| + |exception|] == exception
    ensures var closing := ", offset: " + IntToString(offset) + " to invalid topic\" }";
            |r| >= |closing| && r[|r| - |closing|..] == closing
  {
    var closing := ", offset: " + IntToString(offset) + " to invalid topic\" }";
    LaidOut(DiagnosticOpening, exception, TopicLead, topic, PartitionLead, IntToString(partition), closing);
    DiagnosticOpening + exception + (TopicLead + topic + PartitionLead + IntToString(partition)) + closing
  }

  /**
   * The whole layout of the diagnostic: each argument at its own offset,
   * between the fixed texts, and nothing else in the string.
   */
  lemma DiagnosticLayout(exception: string, topic: string, partition: int, offset: int)
    ensures var r := DiagnosticMessage(exception, topic, partition, offset);
            var t := |DiagnosticOpening| + |exception| + |TopicLead|;
            var p := t + |topic| + |PartitionLead|;
            var closing := ", offset: " + IntToString(offset) + " to invalid topic\" }";
            && |r| == p + |IntToString(partition)| + |closing|
            && r[..|DiagnosticOpening|] == DiagnosticOpening
            && r[|DiagnosticOpening|..|DiagnosticOpening| + |exception|] == exception
            && r[|DiagnosticOpening| + |exception|..t] == TopicLead
            && r[t..t + |topic|] == topic
            && r[t + |topic|..p] == PartitionLead
            && r[p..p + |IntToString(partition)|] == IntToString(partition)
            && r[|r| - |closing|..] == closing
  {
    var closing := ", offset: " + IntToString(offset) + " to invalid topic\" }";
    LaidOut(DiagnosticOpening, exception, TopicLead, topic, PartitionLead, IntToString(partition), closing);
  }

  /**
   * The non-retryable branch of `onSend`: the diagnostic names the record's
   * topic and the last partition, offset and exception headers; the new
   * record goes to the profile invalid topic with the original key, no
   * partition and no headers. It fails when a partition or offset header is
   * empty, or when no invalid topic is set.
   */
  function Redirect(record: ProducerRecord, invalidTopic: Option<string>, decodeText: seq<Byte> -> string)
    : (r: SendResult)
    ensures r.Sent? <==> invalidTopic.Some? && LastHeader(record.headers, OriginalPartitionHeader) != Some([])
                         && LastHeader(record.headers, OriginalOffsetHeader) != Some([])
    ensures r.SendFailed? ==> r.reason in {ZeroLengthBigInteger, NullTopic}
    ensures r.Sent? ==> && r.record.topic == invalidTopic.value && r.record.key == record.key
                        && r.record.partition.None? && r.record.headers == []
                        && r.record.value == InvalidData(DiagnosticMessage(
                             TextOrUnknown(record.headers, ExceptionMessageHeader, decodeText),
                             record.topic,
                             NumberOrDefault(record.headers, OriginalPartitionHeader).value,
                             NumberOrDefault(record.headers, OriginalOffsetHeader).value))
  {
    match NumberOrDefault(record.headers, OriginalPartitionHeader)
    case Failure(e) => SendFailed(e)
    case Success(partition) =>
      match NumberOrDefault(record.headers, OriginalOffsetHeader)
      case Failure(e) => SendFailed(e)
      case Success(offset) =>
        var exception := TextOrUnknown(record.headers, ExceptionMessageHeader, decodeText);
        var data := InvalidData(DiagnosticMessage(exception, record.topic, partition, offset));
        match invalidTopic
        case None => SendFailed(NullTopic)
        case Some(t) => Sent(NewRecord(t, record.key, data))
  }

  class InvalidMessageRouter {
    var messageFlags: MessageFlags?
    var profileInvalidTopic: Option<string>
    /** `new String(byte[])`: decoding with the platform's default charset. */
    const decodeText: seq<Byte> -> string

    /** Before `configure`, both fields are null. */
    constructor (decodeText: seq<Byte> -> string)
      ensures messageFlags == null && profileInvalidTopic.None? && this.decodeText == decodeText
    {
      messageFlags := null;
      profileInvalidTopic := None;
      this.decodeText := decodeText;
    }

    /**
     * `configure`: cast "message.flags" and then
     * "invalid.message.topic.profile"; an absent entry is null, and a wrongly
     * typed one raises (`ok` false) after the fields assigned before it.
     */
    method Configure(configs: map<string, ConfigValue>) returns (ok: bool)
      modifies this
      ensures ok <==> FlagsEntry(configs, MessageFlagsKey).Some? && TextEntry(configs, ProfileInvalidTopicKey).Some?
      ensures FlagsEntry(configs, MessageFlagsKey).None? ==>
                messageFlags == old(messageFlags) && profileInvalidTopic == old(profileInvalidTopic)
      ensures FlagsEntry(configs, MessageFlagsKey).Some? ==> messageFlags == FlagsEntry(configs, MessageFlagsKey).value
      ensures FlagsEntry(configs, MessageFlagsKey).Some? && TextEntry(configs, ProfileInvalidTopicKey).None? ==>
                profileInvalidTopic == old(profileInvalidTopic)
      ensures ok ==> profileInvalidTopic == TextEntry(configs, ProfileInvalidTopicKey).value
    {
      match FlagsEntry(configs, MessageFlagsKey)
      case None =>
        ok := false;
      case Some(flags) =>
        messageFlags := flags;
        match TextEntry(configs, ProfileInvalidTopicKey)
        case None =>
          ok := false;
        case Some(topic) =>
          profileInvalidTopic := topic;
          ok := true;
    }

    /**
     * `onSend`: a retryable flag is cleared and the record passes unchanged;
     * otherwise the flag is left as it is and the record is redirected. With
     * no flags configured the call raises.
     */
    method OnSend(record: ProducerRecord) returns (r: SendResult)
      modifies messageFlags
      ensures messageFlags == null ==> r == SendFailed(NullFlags)
      ensures messageFlags != null && old(messageFlags.retryable) ==> r == Sent(record) && !messageFlags.IsRetryable()
      ensures messageFlags != null && !old(messageFlags.retryable) ==>
                r == Redirect(record, profileInvalidTopic, decodeText) && !messageFlags.IsRetryable()
    {
      if messageFlags == null {
        r := SendFailed(NullFlags);
      } else if messageFlags.IsRetryable() {
        messageFlags.Destroy();
        r := Sent(record);
      } else {
        r := Redirect(record, profileInvalidTopic, decodeText);
      }
    }
  }

  /**
   * A record sent to "profile-main" with partition header [0], offset header
   * [1] and an exception header is redirected to the profile invalid topic
   * with a diagnostic naming all four; the record's own partition is not used.
   */
  lemma ReportsOwnTopicAndHeaders(partition: Option<int>, key: Option<string>, value: ResourceChangedData,
                                  exceptionBytes: seq<Byte>, decodeText: seq<Byte> -> string)
    ensures var headers := [Header(OriginalPartitionHeader, [0]), Header(OriginalOffsetHeader, [1]),
                            Header(ExceptionMessageHeader, exceptionBytes)];
            Redirect(ProducerRecord("profile-main", partition, None, key, value, headers), Some("profile-invalid"),
                     decodeText)
            == Sent(NewRecord("profile-invalid", key, InvalidData(
                 DiagnosticOpening + decodeText(exceptionBytes)
                 + (" ] redirecting message from topic: " + "profile-main" + ", partition: " + "0")
                 + (", offset: " + "1" + " to invalid topic\" }"))))
  {
    var headers := [Header(OriginalPartitionHeader, [0]), Header(OriginalOffsetHeader, [1]),
                    Header(ExceptionMessageHeader, exceptionBytes)];
    LastHeaderIsLast(headers, OriginalPartitionHeader, 0);
    LastHeaderIsLast(headers, OriginalOffsetHeader, 1);
    LastHeaderIsLast(headers, ExceptionMessageHeader, 2);
    SingleByteValues();
    SmallIntStrings();
  }

  /** Without headers the diagnostic reports an unknown exception, partition -1 and offset -1. */
  lemma DefaultsWithoutHeaders(topic: string, key: Option<string>, value: ResourceChangedData,
                               decodeText: seq<Byte> -> string)
    ensures Redirect(ProducerRecord(topic, None, None, key, value, []), Some("profile-invalid"), decodeText)
            == Sent(NewRecord("profile-invalid", key, InvalidData(
                 DiagnosticOpening + "unknown" + (" ] redirecting message from topic: " + topic + ", partition: " + "-1")
                 + (", offset: " + "-1" + " to invalid topic\" }"))))
  {
    SmallIntStrings();
  }

  /** The destination does not depend on the topic the record came from. */
  lemma DestinationIgnoresOrigin(record: ProducerRecord, origin: string, invalidTopic: Option<string>,
                                 decodeText: seq<Byte> -> string)
    ensures Redirect(record, invalidTopic, decodeText).Sent?
            == Redirect(record.(topic := origin), invalidTopic, decodeText).Sent?
    ensures Redirect(record, invalidTopic, decodeText).Sent? ==>
              Redirect(record, invalidTopic, decodeText).record.topic
              == Redirect(record.(topic := origin), invalidTopic, decodeText).record.topic
  {
  }
}
