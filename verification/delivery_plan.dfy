/**
 * The records one message produces under the `@RetryableTopic` policy both
 * consumers declare, on values only: the topics the framework publishes to
 * and what reaches Kafka for each sink the plan prescribes. Which record
 * stands for the invalid topic depends on the interceptor in use, so it is
 * a parameter here.
 */
module DeliveryPlan {
  import opened Wrappers
  import opened Events
  import opened Records
  import opened Interception
  import opened RetryPolicy

  /** `retryTopicSuffix = "-${consumer.group_id}-retry"`. */
  function RetryTopicName(mainTopic: string, groupId: string): (r: string)
    ensures |r| == |mainTopic| + |groupId| + 7
    ensures r[..|mainTopic|] == mainTopic && r[|mainTopic|] == '-'
    ensures r[|mainTopic| + 1..|mainTopic| + 1 + |groupId|] == groupId && r[|r| - 6..] == "-retry"
  {
    mainTopic + "-" + groupId + "-retry"
  }

  /** `dltTopicSuffix = "-${consumer.group_id}-error"`. */
  function ErrorTopicName(mainTopic: string, groupId: string): (r: string)
    ensures |r| == |mainTopic| + |groupId| + 7
    ensures r[..|mainTopic|] == mainTopic && r[|mainTopic|] == '-'
    ensures r[|mainTopic| + 1..|mainTopic| + 1 + |groupId|] == groupId && r[|r| - 6..] == "-error"
  {
    mainTopic + "-" + groupId + "-error"
  }

  /**
   * The retry and error topics of one listener are distinct from each other
   * and from the main topic, and a different group gives different topics.
   */
  lemma TopicNamesDistinct(mainTopic: string, groupId: string, otherGroup: string)
    ensures RetryTopicName(mainTopic, groupId) != ErrorTopicName(mainTopic, groupId)
    ensures RetryTopicName(mainTopic, groupId) != mainTopic && ErrorTopicName(mainTopic, groupId) != mainTopic
    ensures groupId != otherGroup ==>
              RetryTopicName(mainTopic, groupId) != RetryTopicName(mainTopic, otherGroup)
              && ErrorTopicName(mainTopic, groupId) != ErrorTopicName(mainTopic, otherGroup)
  {
  }

  /**
   * Where the framework publishes after a failed attempt: the retry topic
   * for a `RetryableException` with attempts left, the error topic otherwise
   * (exhausted, or an exception outside `include`).
   */
  function FrameworkTopic(status: Status, made: nat, maxAttempts: nat, mainTopic: string, groupId: string): string {
    if IsRetryable(status) && made + 1 < maxAttempts then RetryTopicName(mainTopic, groupId)
    else ErrorTopicName(mainTopic, groupId)
  }

  /** The record the framework hands to the producer: the payload and key, with the headers it stamps. */
  function FrameworkRecord(topic: string, key: Option<string>, payload: ResourceChangedData, headers: seq<Header>)
    : ProducerRecord
  {
    ProducerRecord(topic, None, None, key, payload, headers)
  }

  /** The headers the framework stamps leave the partition and offset decodable. */
  predicate Decodable(headers: seq<Header>) {
    LastHeader(headers, OriginalPartitionHeader) != Some([]) && LastHeader(headers, OriginalOffsetHeader) != Some([])
  }

  /** The message the framework republishes after a failure: its key, payload and stamped headers. */
  datatype Message = Message(key: Option<string>, payload: ResourceChangedData, headers: seq<Header>)

  /** The consumer's main topic, its group id and the configured invalid topic. */
  datatype Topics = Topics(mainTopic: string, groupId: string, invalidTopic: string)

  /**
   * What reaches Kafka for each planned sink: the payload itself on the retry
   * and error topics, and the interceptor's diagnostic record `invalid` on the
   * invalid topic.
   */
  function Published(sink: Sink, m: Message, t: Topics, invalid: ProducerRecord): (r: ProducerRecord)
    ensures sink == RetryTopic ==> r.topic == RetryTopicName(t.mainTopic, t.groupId) && r.value == m.payload
    ensures sink == ErrorTopic ==> r.topic == ErrorTopicName(t.mainTopic, t.groupId) && r.value == m.payload
    ensures sink != InvalidTopic ==> r.key == m.key && r.headers == m.headers
    ensures sink == InvalidTopic ==> r == invalid
  {
    match sink
    case RetryTopic => FrameworkRecord(RetryTopicName(t.mainTopic, t.groupId), m.key, m.payload, m.headers)
    case ErrorTopic => FrameworkRecord(ErrorTopicName(t.mainTopic, t.groupId), m.key, m.payload, m.headers)
    case InvalidTopic => invalid
  }

  /** The records that reach Kafka for a sequence of sinks, in order. */
  function PublishedAll(sinks: seq<Sink>, m: Message, t: Topics, invalid: ProducerRecord): (r: seq<ProducerRecord>)
    ensures |r| == |sinks|
    ensures forall i :: 0 <= i < |sinks| ==> r[i] == Published(sinks[i], m, t, invalid)
  {
    if sinks == [] then [] else [Published(sinks[0], m, t, invalid)] + PublishedAll(sinks[1..], m, t, invalid)
  }

  /**
   * A plan that starts with a retry record: that record is published before
   * the rest of the plan, and costs one more handling attempt.
   */
  lemma RetryFirst(rest: seq<Sink>, m: Message, t: Topics, invalid: ProducerRecord)
    ensures PublishedAll([RetryTopic] + rest, m, t, invalid)
            == [Published(RetryTopic, m, t, invalid)] + PublishedAll(rest, m, t, invalid)
    ensures Attempts([RetryTopic] + rest) == 1 + Attempts(rest)
  {
    assert ([RetryTopic] + rest)[1..] == rest;
  }

  /** A plan that ends at once publishes its one record, and takes one attempt. */
  lemma SingleRecord(sink: Sink, m: Message, t: Topics, invalid: ProducerRecord)
    ensures PublishedAll([sink], m, t, invalid) == [Published(sink, m, t, invalid)]
    ensures Attempts([sink]) == 1 + (if sink == RetryTopic then 1 else 0)
  {
    assert [sink][1..] == [];
  }

  /**
   * One attempt followed by the rest of the delivery makes up the whole
   * plan: after a retry record, the records and attempts of the plan from
   * the next attempt on follow; any other outcome ends the plan.
   */
  lemma AttemptThenRest(outcomes: Outcomes, maxAttempts: nat, made: nat, sink: Option<Sink>,
                        record: Option<ProducerRecord>, rest: seq<ProducerRecord>, m: Message, t: Topics,
                        invalid: ProducerRecord)
    requires made < maxAttempts && sink == Publication(outcomes(made), made, maxAttempts)
    requires sink.None? ==> record.None?
    requires sink.Some? ==> record == Some(Published(sink.value, m, t, invalid))
    requires sink == Some(RetryTopic) ==> made + 1 < maxAttempts
                                          && rest == PublishedAll(Plan(outcomes, maxAttempts, made + 1), m, t, invalid)
    ensures sink == Some(RetryTopic) ==>
              && [record.value] + rest == PublishedAll(Plan(outcomes, maxAttempts, made), m, t, invalid)
              && Attempts(Plan(outcomes, maxAttempts, made)) == 1 + Attempts(Plan(outcomes, maxAttempts, made + 1))
    ensures sink.None? ==> [] == PublishedAll(Plan(outcomes, maxAttempts, made), m, t, invalid)
                           && Attempts(Plan(outcomes, maxAttempts, made)) == 1
    ensures sink.Some? && sink != Some(RetryTopic) ==>
              && [record.value] == PublishedAll(Plan(outcomes, maxAttempts, made), m, t, invalid)
              && Attempts(Plan(outcomes, maxAttempts, made)) == 1
  {
    PlanStep(outcomes, maxAttempts, made);
    if sink == Some(RetryTopic) {
      RetryFirst(Plan(outcomes, maxAttempts, made + 1), m, t, invalid);
    } else if sink.Some? {
      SingleRecord(sink.value, m, t, invalid);
    }
  }
}
