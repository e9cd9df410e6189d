/**
 * One message's journey through the company-profile consumer and its
 * producer interceptor, attempt by attempt, as the retry-topic framework
 * drives them: the consumer's flag tells the interceptor whether the record
 * the framework publishes is a retry to let through or a failure to
 * redirect to the invalid topic.
 */
module ProfileDelivery {
  import opened Wrappers
  import opened Events
  import opened Records
  import opened Flags
  import opened Interception
  import opened RetryPolicy
  import opened DeliveryPlan
  import KafkaConsumer
  import KafkaInvalidMessageRouter

  /** The attempt outcomes of a router that has already been called `base` times. */
  function RouterOutcomes(router: KafkaConsumer.MessageRouter, payload: ResourceChangedData, base: nat): Outcomes {
    (k: nat) => router(payload, base + k)
  }

  lemma RouterOutcome(router: KafkaConsumer.MessageRouter, payload: ResourceChangedData, base: nat, k: nat)
    ensures RouterOutcomes(router, payload, base)(k) == router(payload, base + k)
  {
  }

  /** `n` copies of the payload: the router's calls for `n` attempts. */
  function Copies(payload: ResourceChangedData, n: nat): (r: seq<ResourceChangedData>)
    ensures |r| == n && forall i :: 0 <= i < n ==> r[i] == payload
  {
    if n == 0 then [] else [payload] + Copies(payload, n - 1)
  }

  lemma CopiesAfterOne(before: seq<ResourceChangedData>, payload: ResourceChangedData, n: nat)
    ensures before + Copies(payload, n + 1) == (before + [payload]) + Copies(payload, n)
  {
  }

  /**
   * The router calls of one attempt followed by those of the rest of the
   * delivery are the calls the whole plan from attempt `made + 1` makes.
   */
  lemma CopiesThenRest(before: seq<ResourceChangedData>, payload: ResourceChangedData, outcomes: Outcomes,
                       maxAttempts: nat, made: nat, after: seq<ResourceChangedData>)
    requires made < maxAttempts
    requires Publication(outcomes(made), made, maxAttempts) == Some(RetryTopic) ==>
               && made + 1 < maxAttempts
               && after == (before + [payload]) + Copies(payload, Attempts(Plan(outcomes, maxAttempts, made + 1)))
    requires Publication(outcomes(made), made, maxAttempts) != Some(RetryTopic) ==> after == before + [payload]
    ensures after == before + Copies(payload, Attempts(Plan(outcomes, maxAttempts, made)))
  {
    AttemptsStep(outcomes, maxAttempts, made);
    if Publication(outcomes(made), made, maxAttempts) == Some(RetryTopic) {
      CopiesAfterOne(before, payload, Attempts(Plan(outcomes, maxAttempts, made + 1)));
    } else {
      assert Copies(payload, 1) == [payload];
    }
  }

  /**
   * The diagnostic record the profile interceptor publishes for the message
   * the framework sends to the error topic: on the invalid topic, with the
   * message's key and no headers.
   */
  function InvalidRecord(m: Message, t: Topics, decodeText: seq<Byte> -> string): (r: ProducerRecord)
    requires Decodable(m.headers)
    ensures r.topic == t.invalidTopic && r.key == m.key && r.partition.None? && r.headers == []
  {
    KafkaInvalidMessageRouter.Redirect(FrameworkRecord(ErrorTopicName(t.mainTopic, t.groupId), m.key, m.payload,
                                                       m.headers), Some(t.invalidTopic), decodeText).record
  }

  /**
   * One attempt: the consumer handles the payload, and after a failure the
   * framework's record passes through the interceptor. The sink reached is
   * the one the policy prescribes, and the flag is clear again afterwards.
   */
  method Attempt(consumer: KafkaConsumer.Consumer, interceptor: KafkaInvalidMessageRouter.InvalidMessageRouter,
                 m: Message, t: Topics, maxAttempts: nat, made: nat, ghost invalid: ProducerRecord)
    returns (status: Status, sink: Option<Sink>, record: Option<ProducerRecord>)
    requires made < maxAttempts
    requires interceptor.messageFlags == consumer.messageFlags && !consumer.messageFlags.retryable
    requires interceptor.profileInvalidTopic == Some(t.invalidTopic)
    requires Decodable(m.headers) && invalid == InvalidRecord(m, t, interceptor.decodeText)
    modifies consumer, consumer.messageFlags
    ensures status == consumer.router(m.payload, |old(consumer.routed)|)
    ensures sink == Publication(status, made, maxAttempts)
    ensures sink.None? ==> record.None?
    ensures sink.Some? ==> record == Some(Published(sink.value, m, t, invalid))
    ensures consumer.routed == old(consumer.routed) + [m.payload]
    ensures !consumer.messageFlags.retryable
  {
    status := consumer.Consume(m.payload);
    sink := Publication(status, made, maxAttempts);
    if sink.None? {
      record := None;
    } else {
      var target := FrameworkTopic(status, made, maxAttempts, t.mainTopic, t.groupId);
      var sent := interceptor.OnSend(FrameworkRecord(target, m.key, m.payload, m.headers));
      record := Some(sent.record);
    }
  }

  /**
   * Delivers one message from attempt `made + 1` on, where `base` counts the
   * router's calls before the message's first attempt: the records that
   * reach Kafka are exactly those `Plan` prescribes, the consumer's flag and
   * the interceptor together turning a non-retryable failure into an
   * invalid-topic record. The router is called once per attempt, and the
   * flag is clear again at the end.
   */
  method DeliverFrom(consumer: KafkaConsumer.Consumer, interceptor: KafkaInvalidMessageRouter.InvalidMessageRouter,
                     m: Message, t: Topics, maxAttempts: nat, made: nat, ghost base: nat,
                     ghost invalid: ProducerRecord)
    returns (published: seq<ProducerRecord>)
    requires made < maxAttempts && |consumer.routed| == base + made
    requires interceptor.messageFlags == consumer.messageFlags && !consumer.messageFlags.retryable
    requires interceptor.profileInvalidTopic == Some(t.invalidTopic)
    requires Decodable(m.headers) && invalid == InvalidRecord(m, t, interceptor.decodeText)
    modifies consumer, consumer.messageFlags
    ensures var plan := Plan(RouterOutcomes(consumer.router, m.payload, base), maxAttempts, made);
            && published == PublishedAll(plan, m, t, invalid)
            && consumer.routed == old(consumer.routed) + Copies(m.payload, Attempts(plan))
    ensures !consumer.messageFlags.retryable
    decreases maxAttempts - made
  {
    ghost var outcomes := RouterOutcomes(consumer.router, m.payload, base);
    ghost var before := consumer.routed;
    var status, sink, record := Attempt(consumer, interceptor, m, t, maxAttempts, made, invalid);
    RouterOutcome(consumer.router, m.payload, base, made);
    if sink == Some(RetryTopic) {
      var rest := DeliverFrom(consumer, interceptor, m, t, maxAttempts, made + 1, base, invalid);
      AttemptThenRest(outcomes, maxAttempts, made, sink, record, rest, m, t, invalid);
      published := [record.value] + rest;
    } else {
      AttemptThenRest(outcomes, maxAttempts, made, sink, record, [], m, t, invalid);
      published := if sink.None? then [] else [record.value];
    }
    CopiesThenRest(before, m.payload, outcomes, maxAttempts, made, consumer.routed);
  }

  /** Delivers one message from its first attempt. */
  method Deliver(consumer: KafkaConsumer.Consumer, interceptor: KafkaInvalidMessageRouter.InvalidMessageRouter,
                 m: Message, t: Topics, maxAttempts: nat)
    returns (published: seq<ProducerRecord>)
    requires 1 <= maxAttempts
    requires interceptor.messageFlags == consumer.messageFlags && !consumer.messageFlags.retryable
    requires interceptor.profileInvalidTopic == Some(t.invalidTopic)
    requires Decodable(m.headers)
    modifies consumer, consumer.messageFlags
    ensures var plan := Plan(RouterOutcomes(consumer.router, m.payload, |old(consumer.routed)|), maxAttempts, 0);
            && published == PublishedAll(plan, m, t, InvalidRecord(m, t, interceptor.decodeText))
            && consumer.routed == old(consumer.routed) + Copies(m.payload, Attempts(plan))
    ensures !consumer.messageFlags.retryable
  {
    published := DeliverFrom(consumer, interceptor, m, t, maxAttempts, 0, |consumer.routed|,
                             InvalidRecord(m, t, interceptor.decodeText));
  }

  /**
   * A record whose value cannot be deserialised never reaches `consume`:
   * the framework sends it straight to the error topic, and since nothing
   * set the flag the interceptor redirects it. One invalid-topic record
   * results, no retry or error record, and the router is not called.
   */
  method DeliverUndecodable(consumer: KafkaConsumer.Consumer,
                            interceptor: KafkaInvalidMessageRouter.InvalidMessageRouter, m: Message, t: Topics)
    returns (published: seq<ProducerRecord>)
    requires interceptor.messageFlags == consumer.messageFlags && !consumer.messageFlags.retryable
    requires interceptor.profileInvalidTopic == Some(t.invalidTopic)
    requires Decodable(m.headers)
    modifies consumer.messageFlags
    ensures published == [InvalidRecord(m, t, interceptor.decodeText)]
    ensures consumer.routed == old(consumer.routed) && !consumer.messageFlags.retryable
  {
    var sent := interceptor.OnSend(FrameworkRecord(ErrorTopicName(t.mainTopic, t.groupId), m.key, m.payload,
                                                   m.headers));
    published := [sent.record];
  }
}
