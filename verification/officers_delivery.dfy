/**
 * One message's journey through the officers consumer and its producer
 * interceptor, attempt by attempt, as the retry-topic framework drives
 * them. Each attempt is consumed from a topic, partition and offset of its
 * own (the main topic first, then the single retry topic), so each service
 * call carries its own `updatedBy`.
 */
module OfficersDelivery {
  import opened Wrappers
  import opened Events
  import opened Records
  import opened Flags
  import opened Interception
  import opened RetryPolicy
  import opened DeliveryPlan
  import Consumer
  import InvalidMessageRouter

  /** Where attempt `k + 1` was read from, as the listener receives it: topic, partition and offset. */
  datatype Position = Position(topic: string, partition: string, offset: string)

  /**
   * The positions of a message's attempts, as the broker reports them: the
   * main topic for the first, the single retry topic for every later one.
   */
  type Positions = nat -> Position

  /** The service call of attempt `k + 1`: the payload, stamped with where that attempt was read. */
  function AttemptParameters(payload: ResourceChangedData, positions: Positions, k: nat): ServiceParameters {
    ServiceParameters(payload, Consumer.UpdatedBy(positions(k).topic, positions(k).partition, positions(k).offset))
  }

  /** The attempt outcomes of a service that has already been called `base` times. */
  function ServiceOutcomes(service: Consumer.MessageService, payload: ResourceChangedData,
                           positions: Positions, base: nat): Outcomes
  {
    (k: nat) => service(AttemptParameters(payload, positions, k), base + k)
  }

  lemma ServiceOutcome(service: Consumer.MessageService, payload: ResourceChangedData,
                       positions: Positions, base: nat, k: nat)
    ensures ServiceOutcomes(service, payload, positions, base)(k)
            == service(AttemptParameters(payload, positions, k), base + k)
  {
  }

  /** The service calls of `n` attempts, from attempt `from + 1` on. */
  function Calls(payload: ResourceChangedData, positions: Positions, from: nat, n: nat)
    : (r: seq<ServiceParameters>)
    ensures |r| == n
    ensures forall i :: 0 <= i < n ==> r[i] == AttemptParameters(payload, positions, from + i)
    decreases n
  {
    if n == 0 then [] else [AttemptParameters(payload, positions, from)] + Calls(payload, positions, from + 1, n - 1)
  }

  lemma CallsOfOne(payload: ResourceChangedData, positions: Positions, from: nat)
    ensures Calls(payload, positions, from, 1) == [AttemptParameters(payload, positions, from)]
  {
  }

  lemma CallsAfterOne(before: seq<ServiceParameters>, payload: ResourceChangedData, positions: Positions,
                      from: nat, n: nat)
    ensures before + Calls(payload, positions, from, n + 1)
            == (before + [AttemptParameters(payload, positions, from)]) + Calls(payload, positions, from + 1, n)
  {
  }

  /**
   * The calls of one attempt followed by those of the rest of the delivery
   * are the calls the whole plan from attempt `made + 1` makes.
   */
  lemma CallsThenRest(before: seq<ServiceParameters>, payload: ResourceChangedData, positions: Positions,
                      outcomes: Outcomes, maxAttempts: nat, made: nat, after: seq<ServiceParameters>)
    requires made < maxAttempts
    requires Publication(outcomes(made), made, maxAttempts) == Some(RetryTopic) ==>
               && made + 1 < maxAttempts
               && after == (before + [AttemptParameters(payload, positions, made)])
                           + Calls(payload, positions, made + 1, Attempts(Plan(outcomes, maxAttempts, made + 1)))
    requires Publication(outcomes(made), made, maxAttempts) != Some(RetryTopic) ==>
               after == before + [AttemptParameters(payload, positions, made)]
    ensures after == before + Calls(payload, positions, made, Attempts(Plan(outcomes, maxAttempts, made)))
  {
    AttemptsStep(outcomes, maxAttempts, made);
    if Publication(outcomes(made), made, maxAttempts) == Some(RetryTopic) {
      CallsAfterOne(before, payload, positions, made, Attempts(Plan(outcomes, maxAttempts, made + 1)));
    } else {
      CallsOfOne(payload, positions, made);
    }
  }

  /**
   * The diagnostic record the officers interceptor publishes for the message
   * the framework sends to the error topic: on the invalid topic, with the
   * message's key and no headers.
   */
  function InvalidRecord(m: Message, t: Topics, decodeText: seq<Byte> -> string): (r: ProducerRecord)
    requires Decodable(m.headers)
    ensures r.topic == t.invalidTopic && r.key == m.key && r.partition.None? && r.headers == []
  {
    InvalidMessageRouter.Redirect(FrameworkRecord(ErrorTopicName(t.mainTopic, t.groupId), m.key, m.payload,
                                                  m.headers), Some(t.invalidTopic), decodeText).record
  }

  /**
   * One attempt: the consumer stamps and hands the payload to the service,
   * and after a failure the framework's record passes through the
   * interceptor. The sink reached is the one the policy prescribes, and the
   * flag is clear again afterwards.
   */
  method Attempt(consumer: Consumer.Consumer, interceptor: InvalidMessageRouter.InvalidMessageRouter,
                 m: Message, t: Topics, positions: Positions, maxAttempts: nat, made: nat, ghost base: nat,
                 ghost invalid: ProducerRecord)
    returns (status: Status, sink: Option<Sink>, record: Option<ProducerRecord>)
    requires made < maxAttempts && |consumer.processed| == base + made
    requires interceptor.messageFlags == consumer.messageFlags && !consumer.messageFlags.retryable
    requires interceptor.invalidMessageTopic == Some(t.invalidTopic)
    requires Decodable(m.headers) && invalid == InvalidRecord(m, t, interceptor.decodeText)
    modifies consumer, consumer.messageFlags
    ensures status == ServiceOutcomes(consumer.service, m.payload, positions, base)(made)
    ensures sink == Publication(status, made, maxAttempts)
    ensures sink.None? ==> record.None?
    ensures sink.Some? ==> record == Some(Published(sink.value, m, t, invalid))
    ensures consumer.processed == old(consumer.processed) + [AttemptParameters(m.payload, positions, made)]
    ensures !consumer.messageFlags.retryable
  {
    var at := positions(made);
    status := consumer.Consume(m.payload, at.topic, at.partition, at.offset);
    ServiceOutcome(consumer.service, m.payload, positions, base, made);
    sink := Publication(status, made, maxAttempts);
    if sink.None? {
      record := None;
    } else {
      var target := FrameworkTopic(status, made, maxAttempts, t.mainTopic, t.groupId);
      var sent := interceptor.OnSend(FrameworkRecord(target, m.key, m.payload, m.headers));
      record := Some(sent.record);
    }
  }

  /**
   * Delivers one message from attempt `made + 1` on, where `base` counts the
   * service's calls before the message's first attempt: the records that
   * reach Kafka are exactly those `Plan` prescribes, and the service is
   * called once per attempt with that attempt's `updatedBy`.
   */
  method DeliverFrom(consumer: Consumer.Consumer, interceptor: InvalidMessageRouter.InvalidMessageRouter,
                     m: Message, t: Topics, positions: Positions, maxAttempts: nat, made: nat, ghost base: nat,
                     ghost invalid: ProducerRecord)
    returns (published: seq<ProducerRecord>)
    requires made < maxAttempts && |consumer.processed| == base + made
    requires Decodable(m.headers) && invalid == InvalidRecord(m, t, interceptor.decodeText)
    requires interceptor.messageFlags == consumer.messageFlags && !consumer.messageFlags.retryable
    requires interceptor.invalidMessageTopic == Some(t.invalidTopic)
    modifies consumer, consumer.messageFlags
    ensures var plan := Plan(ServiceOutcomes(consumer.service, m.payload, positions, base), maxAttempts, made);
            && published == PublishedAll(plan, m, t, invalid)
            && consumer.processed == old(consumer.processed) + Calls(m.payload, positions, made, Attempts(plan))
    ensures !consumer.messageFlags.retryable
    decreases maxAttempts - made
  {
    ghost var outcomes := ServiceOutcomes(consumer.service, m.payload, positions, base);
    ghost var before := consumer.processed;
    var status, sink, record := Attempt(consumer, interceptor, m, t, positions, maxAttempts, made, base, invalid);
    if sink == Some(RetryTopic) {
      var rest := DeliverFrom(consumer, interceptor, m, t, positions, maxAttempts, made + 1, base, invalid);
      AttemptThenRest(outcomes, maxAttempts, made, sink, record, rest, m, t, invalid);
      published := [record.value] + rest;
    } else {
      AttemptThenRest(outcomes, maxAttempts, made, sink, record, [], m, t, invalid);
      published := if sink.None? then [] else [record.value];
    }
    CallsThenRest(before, m.payload, positions, outcomes, maxAttempts, made, consumer.processed);
  }

  /** Delivers one message from its first attempt. */
  method Deliver(consumer: Consumer.Consumer, interceptor: InvalidMessageRouter.InvalidMessageRouter,
                 m: Message, t: Topics, positions: Positions, maxAttempts: nat)
    returns (published: seq<ProducerRecord>)
    requires 1 <= maxAttempts
    requires interceptor.messageFlags == consumer.messageFlags && !consumer.messageFlags.retryable
    requires interceptor.invalidMessageTopic == Some(t.invalidTopic)
    requires Decodable(m.headers)
    modifies consumer, consumer.messageFlags
    ensures var plan := Plan(ServiceOutcomes(consumer.service, m.payload, positions, |old(consumer.processed)|),
                             maxAttempts, 0);
            && published == PublishedAll(plan, m, t, InvalidRecord(m, t, interceptor.decodeText))
            && consumer.processed == old(consumer.processed) + Calls(m.payload, positions, 0, Attempts(plan))
    ensures !consumer.messageFlags.retryable
  {
    published := DeliverFrom(consumer, interceptor, m, t, positions, maxAttempts, 0, |consumer.processed|,
                             InvalidRecord(m, t, interceptor.decodeText));
  }

  /**
   * A record whose value cannot be deserialised never reaches `consume`:
   * one invalid-topic record results, and the service is not called.
   */
  method DeliverUndecodable(consumer: Consumer.Consumer, interceptor: InvalidMessageRouter.InvalidMessageRouter,
                            m: Message, t: Topics)
    returns (published: seq<ProducerRecord>)
    requires interceptor.messageFlags == consumer.messageFlags && !consumer.messageFlags.retryable
    requires interceptor.invalidMessageTopic == Some(t.invalidTopic)
    requires Decodable(m.headers)
    modifies consumer.messageFlags
    ensures published == [InvalidRecord(m, t, interceptor.decodeText)]
    ensures consumer.processed == old(consumer.processed) && !consumer.messageFlags.retryable
  {
    var sent := interceptor.OnSend(FrameworkRecord(ErrorTopicName(t.mainTopic, t.groupId), m.key, m.payload,
                                                   m.headers));
    published := [sent.record];
  }
}
