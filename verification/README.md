# company-appointments-consumer, modelled in Dafny

This project models the core of the Companies House
`company-appointments-consumer`. The consumer reads resource-changed
events from two Kafka topics:

- the company-officers stream;
- the company-profile stream.

It patches the company name and status onto existing appointments through
the appointments API. Failures are sorted into three kinds:

- a `RetryableException` is retried on a single retry topic, up to the
  configured attempt budget, and then lands on the error topic;
- a `NonRetryableException` goes to an invalid-message topic;
- so does any other exception.

The move to the invalid topic is done by a producer interceptor, the
`InvalidMessageRouter`. It reads a shared `MessageFlags` cell that the
consumer sets when a retryable exception escapes.

The model covers each stage on its own terms:

- **Routing.** `ServiceRouter` applies the `"changed"` event-type filter and
  the officers-then-profile topic-prefix dispatch. The company-profile
  `ServiceRouter` applies the type filter alone.
- **Error classification.** `ResponseHandler` classifies downstream API
  failures.
- **Company-number extraction.** `CompanyNumberExtractor` finds the leftmost
  match of `(?<=company/)([a-zA-Z0-9]{6,10})(?=/.*)`. The regular expression
  is stated as a predicate; the engine's scan is a recursive function.
- **Handlers.** The four orchestrations: `CompanyAppointmentChangedService`,
  both `CompanyProfileChangedService`s and `AppointmentsChangeService`. Their
  collaborators (the profile fetch, the patch calls, the JSON reader) are
  function parameters. Each handler returns the calls it made, in order,
  and how it completed.
- **Consumers.** Both `Consumer`s are classes whose `Consume` method
  records the service or router call and sets the flag on a retryable
  failure.
- **Interceptors.** Both `InvalidMessageRouter`s are classes with
  `Configure` and `OnSend`. The diagnostic record is built from the last
  occurrence of each stamped header. Partition and offset headers are
  decoded as Java's `BigInteger(byte[])` does: big-endian two's complement,
  with an empty array rejected. Integers are rendered as `%d` renders them.
- **Retry policy.** The `@RetryableTopic` policy both consumers declare:
  - `attempts = max_attempts`;
  - `include = RetryableException`;
  - one retry topic `<topic>-<group>-retry`;
  - the error topic `<topic>-<group>-error`.
- **Delivery drivers.** Two drivers, one per consumer, run one message
  attempt by attempt. They compose a consumer object with its interceptor
  object through the shared flag. They are proved to publish exactly the
  records the policy prescribes and to call the service once per attempt.

Exceptions are modelled as `Status = Done | Raised(Error)`, with
`Error = Retryable | NonRetryable | Unexpected`.

Two points about error handling, where the model follows the code:

- **HTTP 404.** The service's design description treats a 404 on the
  profile fetch as "skip". That fetch goes through the top-level
  `ResponseHandler`, which is not part of this model. So how the fetch
  classifies a 404 is outside the model: the fetch is a parameter that
  returns a profile, nothing, or an error. The modelled `ResponseHandler`
  is the company-profile package's one. It serves only that package's
  patch client (`companyprofile/AppointmentsClient.java`), and it raises
  `RetryableException` for every status other than 400 and 409, 404
  included.
- **Unexpected exceptions.** The design description says they are retried.
  Both listeners declare `include = RetryableException`, so any other
  exception is not retried. It reaches the error topic without the flag
  set, and the interceptor redirects it to the invalid topic.

## Model

| member | source | states |
|---|---|---|
| ResponseHandler.Handle | src/main/java/uk/gov/companieshouse/appointments/subdelta/companyprofile/ResponseHandler.java:23-38 | never returns normally; the error carries the caller's message verbatim; NonRetryable exactly for a URI-validation failure or status 400/409, Retryable exactly for every other status |
| ResponseHandler.ServerErrorsAndNotFoundAreRetryable | src/main/java/uk/gov/companieshouse/appointments/subdelta/companyprofile/ResponseHandler.java:32-37 | 404 and every 5xx status raise Retryable with the given message |
| ServiceRouter.Decide | src/main/java/uk/gov/companieshouse/appointments/subdelta/ServiceRouter.java:32-44 | four if-and-only-if cases: a type other than "changed" (null included) is ignored; the officers prefix selects the appointment service; otherwise the profile prefix selects the profile service; otherwise NonRetryable "Invalid topic name: [topic]" |
| ServiceRouter.Route | src/main/java/uk/gov/companieshouse/appointments/subdelta/ServiceRouter.java:29-45 | at most one handler call, always with the unchanged payload; a call happens exactly when the decision invokes a handler; the handler's outcome escapes unchanged; with no call the result is the rejection or normal completion |
| ServiceRouter.OfficersPrefixWins | src/main/java/uk/gov/companieshouse/appointments/subdelta/ServiceRouter.java:35-38 | a topic that starts with both prefixes goes to the appointment service only |
| ServiceRouter.IgnoresOtherEventTypes | src/main/java/uk/gov/companieshouse/appointments/subdelta/ServiceRouter.java:32-44 | a non-"changed" event calls no handler and completes normally |
| ProfileServiceRouter.Route | src/main/java/uk/gov/companieshouse/appointments/subdelta/companyprofile/ServiceRouter.java:24-30 | a "changed" event is passed once, unchanged, to the profile service, whose outcome escapes; any other type calls nothing and completes; every raised error is the service's own |
| CompanyNumberExtractor.HasText | src/main/java/uk/gov/companieshouse/appointments/subdelta/CompanyNumberExtractor.java:21 | `StringUtils.hasText`: null and the empty string have no text, and a string whose first character is not whitespace has text |
| CompanyNumberExtractor.MatchAt | src/main/java/uk/gov/companieshouse/appointments/subdelta/CompanyNumberExtractor.java:13-14 | the pattern `(?<=company/)([a-zA-Z0-9]{6,10})(?=/.*)`: a match is 6 to 10 characters, contains no '/', is preceded by "company/" and followed by "/" |
| CompanyNumberExtractor.AlnumRun | src/main/java/uk/gov/companieshouse/appointments/subdelta/CompanyNumberExtractor.java:14 | the greedy `[a-zA-Z0-9]{..10}` run: every character in it is a letter or digit, and it stops at the limit, the end, or the first other character |
| CompanyNumberExtractor.MatchLengthUnique | src/main/java/uk/gov/companieshouse/appointments/subdelta/CompanyNumberExtractor.java:14 | at a given start, the only match length is the greedy run's length |
| CompanyNumberExtractor.MatchLengthAt | src/main/java/uk/gov/companieshouse/appointments/subdelta/CompanyNumberExtractor.java:14 | the attempt at one start position returns a match length exactly when the pattern matches there |
| CompanyNumberExtractor.FindFrom | src/main/java/uk/gov/companieshouse/appointments/subdelta/CompanyNumberExtractor.java:26-27 | `find()` returns a match with no match at an earlier start, and returns none only when no start position matches |
| CompanyNumberExtractor.ExtractFromUri | src/main/java/uk/gov/companieshouse/appointments/subdelta/CompanyNumberExtractor.java:20-33 | a null or blank URI raises NonRetryable "…empty or null resource uri"; a URI with no match raises NonRetryable "…resource URI: " + uri; success iff some match exists, and then the result is the leftmost match, 6 to 10 letters or digits |
| CompanyNumberExtractor.LeftmostMatchUnique | src/main/java/uk/gov/companieshouse/appointments/subdelta/CompanyNumberExtractor.java:26-28 | two leftmost matches coincide, so the extracted number is determined by the URI |
| CompanyNumberExtractor.ExtractsLeftmostNumber | src/main/java/uk/gov/companieshouse/appointments/subdelta/CompanyNumberExtractor.java:26-28 | any leftmost match is exactly what the extractor returns |
| CompanyNumberExtractor.ExtractsFromAppointmentUri | src/test/java/uk/gov/companieshouse/appointments/subdelta/CompanyNumberExtractorTest.java:24-28 | "company/OC305127/appointments/-0YatipCW4ZL295N9UVFo1TGyW8" yields "OC305127" |
| CompanyNumberExtractor.RejectsEmptySegment | src/test/java/uk/gov/companieshouse/appointments/subdelta/CompanyNumberExtractorTest.java:50-53 | "company//charges" raises the extraction error naming the URI |
| CompanyNumberExtractor.RejectsBlankUri | src/main/java/uk/gov/companieshouse/appointments/subdelta/CompanyNumberExtractor.java:21-24 | null, empty and whitespace-only URIs raise the "empty or null" error |
| CompanyAppointmentChangedService.ProcessMessage | src/main/java/uk/gov/companieshouse/appointments/subdelta/CompanyAppointmentChangedService.java:32-46 | an extraction failure makes no call and raises the extractor's error; otherwise the fetch comes first with (number, context id); a fetch failure escapes; an empty profile raises NonRetryable "Company profile not found for " + number; without a profile the fetch is the only call; with one the calls are exactly the fetch then one patch with (resource URI, its name, its status, context id), and the patch's outcome is the run's |
| AppointmentsChangeService.ProcessChangedCompanyAppointment | src/main/java/uk/gov/companieshouse/appointments/subdelta/AppointmentsChangeService.java:35-55 | a non-"changed" event calls nothing; on a "changed" one, an extraction failure raises the extractor's error with no call; otherwise the fetch of the extracted number comes first, a fetch failure escapes, an empty profile raises NonRetryable "Company profile not found for " + number, and without a profile the fetch is the only call; with one the calls are exactly the fetch then one patch with (resource URI, its name, its status, context id), and the patch's outcome is the run's |
| AppointmentsChangeService.ProcessChangedCompanyProfile | src/main/java/uk/gov/companieshouse/appointments/subdelta/AppointmentsChangeService.java:58-76 | a non-"changed" event calls nothing; a parse failure patches nothing and raises NonRetryable "Failed to deserialise company profile data: [" + uri + "]"; a parsed profile gives exactly one patch of uri + "/appointments" with its name, status and the context id, whose outcome escapes unchanged |
| CompanyProfileChangedService.ProcessMessage | src/main/java/uk/gov/companieshouse/appointments/subdelta/CompanyProfileChangedService.java:22-34 | a parse failure raises NonRetryable "Failed to deserialise company profile data: [" + uri + "]" with no call; otherwise exactly one patch of uri + "/appointments" with the parsed name and status and the context id, whose outcome is the run's; a patch happens iff parsing succeeds |
| CompanyProfileChangedService.PatchTargetExtendsResourceUri | src/main/java/uk/gov/companieshouse/appointments/subdelta/CompanyProfileChangedService.java:31 | the patched URI is the resource URI followed by exactly "/appointments" |
| ProfileCompanyProfileChangedService.ProcessMessage | src/main/java/uk/gov/companieshouse/appointments/subdelta/companyprofile/CompanyProfileChangedService.java:32-46 | the data string is read once first; a parse failure raises NonRetryable "Failed to deserialise company profile data" and patches nothing; otherwise exactly one patch-all call with (uri + "/appointments", name, status) and no context id, whose outcome is the run's |
| Flags.MessageFlags.constructor | src/main/java/uk/gov/companieshouse/appointments/subdelta/Consumer.java:21-25 | the flag cell a consumer and the interceptor share starts not retryable (an assumption: the class's own source is not part of this model) |
| Flags.MessageFlags.SetRetryable | src/main/java/uk/gov/companieshouse/appointments/subdelta/Consumer.java:58 | the cell holds the value set |
| Flags.MessageFlags.Destroy | src/main/java/uk/gov/companieshouse/appointments/subdelta/InvalidMessageRouter.java:35 | after `destroy`, `isRetryable` is false |
| Records.NewRecord | src/main/java/uk/gov/companieshouse/appointments/subdelta/InvalidMessageRouter.java:58-59 | `new ProducerRecord(topic, key, value)` has that topic, key and value, and no partition, timestamp or headers, so a header lookup on it finds nothing for any key: none of the original record's headers carry over |
| Records.LastHeader | src/main/java/uk/gov/companieshouse/appointments/subdelta/InvalidMessageRouter.java:39-48 | `lastHeader` is absent iff no header has the key, and otherwise is the value of the last header with the key |
| Records.LastHeaderIsLast | src/main/java/uk/gov/companieshouse/appointments/subdelta/InvalidMessageRouter.java:39-48 | the last header with the key is the one returned |
| Records.AppendedHeaderWins | src/main/java/uk/gov/companieshouse/appointments/subdelta/InvalidMessageRouter.java:39-48 | a header appended later hides every earlier header with the same key |
| Records.OtherKeysDoNotHide | src/main/java/uk/gov/companieshouse/appointments/subdelta/InvalidMessageRouter.java:39-48 | appending headers with other keys does not change the lookup |
| Records.Unsigned | src/main/java/uk/gov/companieshouse/appointments/subdelta/InvalidMessageRouter.java:43 | the big-endian magnitude of a byte array is bounded by its width and its leading byte |
| Records.BigIntegerOf | src/main/java/uk/gov/companieshouse/appointments/subdelta/InvalidMessageRouter.java:43 | `new BigInteger(byte[])` fails exactly on an empty array; the value is negative iff the leading byte's sign bit is set, and lies in the two's-complement range of its width |
| Records.TwosComplement | src/main/java/uk/gov/companieshouse/appointments/subdelta/InvalidMessageRouter.java:43 | the encoder partner of `BigIntegerOf`: a value in range has a two's-complement encoding of the given width |
| Records.UnsignedRoundTrip | src/main/java/uk/gov/companieshouse/appointments/subdelta/InvalidMessageRouter.java:43 | reading back the big-endian bytes of an unsigned value gives the value |
| Records.TwosComplementRoundTrip | src/main/java/uk/gov/companieshouse/appointments/subdelta/InvalidMessageRouter.java:41-46 | decoding the two's-complement encoding of any in-range value gives that value |
| Records.SingleByteValues | src/test/java/uk/gov/companieshouse/appointments/subdelta/InvalidMessageRouterTest.java:55-56 | the bytes [0], [1] and [255] decode to 0, 1 and -1 |
| Records.NatToString | src/main/java/uk/gov/companieshouse/appointments/subdelta/InvalidMessageRouter.java:54 | `%d` of a natural is a non-empty digit string without a leading zero |
| Records.NatToStringRoundTrip | src/main/java/uk/gov/companieshouse/appointments/subdelta/InvalidMessageRouter.java:54 | the digits `%d` prints denote the number |
| Records.IntToString | src/main/java/uk/gov/companieshouse/appointments/subdelta/InvalidMessageRouter.java:54 | `%d` of a negative number is "-" then the digits of its magnitude; otherwise the digits of the number; never empty and never with a leading zero |
| Records.CanonicalDigitsUnique | src/main/java/uk/gov/companieshouse/appointments/subdelta/InvalidMessageRouter.java:54 | a non-empty digit string without a leading zero is the `%d` rendering of the number it denotes |
| Records.IntToStringUnique | src/main/java/uk/gov/companieshouse/appointments/subdelta/InvalidMessageRouter.java:54 | the `%d` rendering is the only canonical rendering of an integer: any string of that shape denoting it equals it |
| Records.SmallIntStrings | src/main/java/uk/gov/companieshouse/appointments/subdelta/InvalidMessageRouter.java:54 | 0, 1 and -1 print as "0", "1" and "-1" |
| Interception.FlagsEntry | src/main/java/uk/gov/companieshouse/appointments/subdelta/InvalidMessageRouter.java:79 | the `(MessageFlags)` cast of a config entry: absent reads as null, a string value is a cast failure, a flags value is that cell |
| Interception.TextEntry | src/main/java/uk/gov/companieshouse/appointments/subdelta/InvalidMessageRouter.java:80 | the `(String)` cast of a config entry: absent reads as null, a flags value is a cast failure, a string is that string |
| Interception.NumberOrDefault | src/main/java/uk/gov/companieshouse/appointments/subdelta/InvalidMessageRouter.java:41-46 | a missing partition or offset header reads as -1; an empty one fails with "Zero length BigInteger"; otherwise the last header's `BigInteger` value |
| Interception.TextOrUnknown | src/main/java/uk/gov/companieshouse/appointments/subdelta/InvalidMessageRouter.java:39-50 | a missing topic or exception header reads as "unknown"; otherwise the decoded text of the last such header |
| Interception.InvalidData | src/main/java/uk/gov/companieshouse/appointments/subdelta/InvalidMessageRouter.java:52-56 | the diagnostic event carries the message as `data`, and every other field, including the event record's, is empty |
| InvalidMessageRouter.DiagnosticMessage | src/main/java/uk/gov/companieshouse/appointments/subdelta/InvalidMessageRouter.java:53-55 | the diagnostic opens with `{ "invalid_message": "exception: [ ` followed by the exception text verbatim, and closes with ", offset: " + the `%d` rendering of the offset + `" }` |
| InvalidMessageRouter.DiagnosticLayout | src/main/java/uk/gov/companieshouse/appointments/subdelta/InvalidMessageRouter.java:53-55 | the whole diagnostic, part by part: the opening, the exception, " ] passed for topic: ", the topic, ", partition: ", the `%d` partition, then ", offset: ", the `%d` offset and `" }`, each at its own offset and nothing else |
| InvalidMessageRouter.Redirect | src/main/java/uk/gov/companieshouse/appointments/subdelta/InvalidMessageRouter.java:37-63 | succeeds iff an invalid topic is set and neither partition nor offset header is empty; the new record goes to the invalid topic with the original key, no partition and no headers, and carries only the "passed for topic" diagnostic built from the last headers |
| InvalidMessageRouter.InvalidMessageRouter.constructor | src/main/java/uk/gov/companieshouse/appointments/subdelta/InvalidMessageRouter.java:28-29 | before `configure`, the flag cell and the invalid topic are null |
| InvalidMessageRouter.InvalidMessageRouter.Configure | src/main/java/uk/gov/companieshouse/appointments/subdelta/InvalidMessageRouter.java:78-81 | assigns `message.flags` then `invalid.message.topic`; a failing cast stops there, leaving the later field as it was |
| InvalidMessageRouter.InvalidMessageRouter.OnSend | src/main/java/uk/gov/companieshouse/appointments/subdelta/InvalidMessageRouter.java:31-65 | a set flag is cleared and the same record returned; an unset flag is left unset and the record is redirected; a null cell fails |
| InvalidMessageRouter.DefaultsWithoutHeaders | src/main/java/uk/gov/companieshouse/appointments/subdelta/InvalidMessageRouter.java:39-56 | with no headers the diagnostic reads exception "unknown", topic "unknown", partition -1, offset -1 |
| InvalidMessageRouter.ReportsStampedHeaders | src/main/java/uk/gov/companieshouse/appointments/subdelta/InvalidMessageRouter.java:39-56 | with stamped topic, partition [0], offset [1] and exception headers, the diagnostic names the decoded topic and exception, partition 0 and offset 1 |
| KafkaInvalidMessageRouter.DiagnosticMessage | src/main/java/uk/gov/companieshouse/appointments/subdelta/kafka/InvalidMessageRouter.java:51-54 | the diagnostic opens with `{ "invalid_message": "exception: [ ` followed by the exception text verbatim, and closes with ", offset: " + the `%d` rendering of the offset + ` to invalid topic" }` |
| KafkaInvalidMessageRouter.DiagnosticLayout | src/main/java/uk/gov/companieshouse/appointments/subdelta/kafka/InvalidMessageRouter.java:51-54 | the whole diagnostic, part by part: the opening, the exception, " ] redirecting message from topic: ", the topic, ", partition: ", the `%d` partition, then ", offset: ", the `%d` offset and ` to invalid topic" }`, each at its own offset and nothing else |
| KafkaInvalidMessageRouter.Redirect | src/main/java/uk/gov/companieshouse/appointments/subdelta/kafka/InvalidMessageRouter.java:37-61 | as the officers interceptor, but the diagnostic names the outgoing record's own topic and reads "redirecting message from topic … to invalid topic" |
| KafkaInvalidMessageRouter.InvalidMessageRouter.constructor | src/main/java/uk/gov/companieshouse/appointments/subdelta/kafka/InvalidMessageRouter.java:28-29 | before `configure`, the flag cell and the profile invalid topic are null |
| KafkaInvalidMessageRouter.InvalidMessageRouter.Configure | src/main/java/uk/gov/companieshouse/appointments/subdelta/kafka/InvalidMessageRouter.java:74-78 | assigns `message.flags` then `invalid.message.topic.profile`; a failing cast stops there |
| KafkaInvalidMessageRouter.InvalidMessageRouter.OnSend | src/main/java/uk/gov/companieshouse/appointments/subdelta/kafka/InvalidMessageRouter.java:31-62 | a set flag is cleared and the same record returned; an unset flag is left unset and the record is redirected; a null cell fails |
| KafkaInvalidMessageRouter.ReportsOwnTopicAndHeaders | src/test/java/uk/gov/companieshouse/appointments/subdelta/InvalidMessageRouterTest.java:70-88 | a "profile-main" record with partition [0], offset [1] and an exception header becomes the expected diagnostic on "profile-invalid" with the same key |
| KafkaInvalidMessageRouter.DefaultsWithoutHeaders | src/main/java/uk/gov/companieshouse/appointments/subdelta/kafka/InvalidMessageRouter.java:39-55 | with no headers the diagnostic reads exception "unknown", the record's own topic, partition -1, offset -1 |
| KafkaInvalidMessageRouter.DestinationIgnoresOrigin | src/main/java/uk/gov/companieshouse/appointments/subdelta/kafka/InvalidMessageRouter.java:60 | the destination, and whether the redirect succeeds, do not depend on the origin topic |
| Consumer.UpdatedBy | src/main/java/uk/gov/companieshouse/appointments/subdelta/Consumer.java:54 | `"%s-%s-%s"`: the topic, then '-', the partition, '-' and the offset, with nothing else in between |
| Consumer.ParseUpdatedBy | src/main/java/uk/gov/companieshouse/appointments/subdelta/Consumer.java:54 | the inverse of `updatedBy`: any parse it returns comes from a topic, a partition and an offset formatted as "%s-%s-%s" |
| Consumer.UpdatedByRoundTrip | src/main/java/uk/gov/companieshouse/appointments/subdelta/Consumer.java:54 | the topic, partition and offset are recovered from the `updatedBy` string, whatever dashes the topic holds |
| Consumer.Consumer.constructor | src/main/java/uk/gov/companieshouse/appointments/subdelta/Consumer.java:23-26 | keeps the service and the shared flag cell; no calls yet |
| Consumer.Consumer.Consume | src/main/java/uk/gov/companieshouse/appointments/subdelta/Consumer.java:49-61 | calls the service once with the payload and `topic-partition-offset`; its outcome is rethrown unchanged; a Retryable failure sets the flag, and any other outcome leaves it as it was |
| KafkaConsumer.Consumer.constructor | src/main/java/uk/gov/companieshouse/appointments/subdelta/kafka/Consumer.java:27-30 | keeps the router and the shared flag cell; no calls yet |
| KafkaConsumer.Consumer.Consume | src/main/java/uk/gov/companieshouse/appointments/subdelta/kafka/Consumer.java:53-65 | calls the router once with the payload; its outcome is rethrown unchanged; a Retryable failure sets the flag, and any other outcome leaves it as it was |
| RetryPolicy.Publication | src/main/java/uk/gov/companieshouse/appointments/subdelta/kafka/Consumer.java:43-52 | after one attempt: nothing on success; the retry topic iff Retryable with attempts left; the error topic iff Retryable on the last attempt; the invalid topic iff any other failure |
| RetryPolicy.Plan | src/main/java/uk/gov/companieshouse/appointments/subdelta/kafka/Consumer.java:43-52 | a message's records: record i is what attempt i's outcome prescribes; empty exactly when the first attempt succeeds; never more than the attempts left; every record but the last is a retry, and a plan ending in a retry stops only because the next attempt, within the budget, succeeds |
| RetryPolicy.PlanStep | src/main/java/uk/gov/companieshouse/appointments/subdelta/kafka/Consumer.java:43-52 | the plan is one attempt's record followed, after a retry only, by the plan of the next attempt |
| RetryPolicy.AttemptsStep | src/main/java/uk/gov/companieshouse/appointments/subdelta/kafka/Consumer.java:44 | a retry costs one more attempt than the rest of the plan; any other outcome is the last attempt |
| RetryPolicy.AtMostOneTerminalRecord | src/main/java/uk/gov/companieshouse/appointments/subdelta/kafka/Consumer.java:43-52 | a message produces at most one error-or-invalid record |
| RetryPolicy.AlwaysRetryableExhaustsAttempts | src/main/java/uk/gov/companieshouse/appointments/subdelta/kafka/Consumer.java:44-51 | failures that are retryable on each remaining attempt give max - 1 retry records then one error record |
| RetryPolicy.FiveRetryableAttempts | src/test/java/uk/gov/companieshouse/appointments/subdelta/kafka/ConsumerRetryableExceptionTest.java:91-98 | with 5 attempts and always-retryable failures: 5 attempts, 4 retry records, 1 error record, 0 invalid records |
| RetryPolicy.NonRetryableGoesStraightToInvalid | src/test/java/uk/gov/companieshouse/appointments/subdelta/ConsumerNonRetryableExceptionTest.java:87-98 | a first-attempt non-retryable failure gives exactly one invalid record and one attempt |
| RetryPolicy.SuccessPublishesNothing | src/test/java/uk/gov/companieshouse/appointments/subdelta/kafka/ConsumerPositiveTest.java:87-97 | a first-attempt success publishes no retry, error or invalid record |
| RetryPolicy.RecoveryAfterRetries | src/main/java/uk/gov/companieshouse/appointments/subdelta/kafka/Consumer.java:43-52 | n retryable failures followed by a success give exactly n retry records |
| RetryPolicy.RetriesThenInvalid | src/main/java/uk/gov/companieshouse/appointments/subdelta/kafka/Consumer.java:43-52 | n retryable failures then a non-retryable one within the budget give n retry records then one invalid record |
| DeliveryPlan.RetryTopicName | src/main/java/uk/gov/companieshouse/appointments/subdelta/kafka/Consumer.java:47 | the retry topic is the main topic, '-', the group id, then "-retry" |
| DeliveryPlan.ErrorTopicName | src/main/java/uk/gov/companieshouse/appointments/subdelta/kafka/Consumer.java:48 | the error topic is the main topic, '-', the group id, then "-error" |
| DeliveryPlan.TopicNamesDistinct | src/main/java/uk/gov/companieshouse/appointments/subdelta/kafka/Consumer.java:47-48 | a listener's retry topic, error topic and main topic are pairwise distinct, and different group ids give different retry and error topics |
| DeliveryPlan.Published | src/main/java/uk/gov/companieshouse/appointments/subdelta/kafka/Consumer.java:47-48 | retry and error records go to `<topic>-<group>-retry` and `<topic>-<group>-error` with the payload, key and headers; the invalid sink publishes the interceptor's diagnostic |
| DeliveryPlan.PublishedAll | src/main/java/uk/gov/companieshouse/appointments/subdelta/kafka/Consumer.java:43-52 | one published record per planned sink, in order |
| DeliveryPlan.AttemptThenRest | src/main/java/uk/gov/companieshouse/appointments/subdelta/kafka/Consumer.java:43-52 | one attempt's record, followed after a retry by the rest of the delivery, is the whole plan's records and attempt count |
| ProfileDelivery.Copies | src/test/java/uk/gov/companieshouse/appointments/subdelta/kafka/ConsumerRetryableExceptionTest.java:98 | n router calls, each with the same payload |
| ProfileDelivery.CopiesThenRest | src/main/java/uk/gov/companieshouse/appointments/subdelta/kafka/Consumer.java:53-65 | one attempt's router call followed by the rest makes one call per planned attempt |
| ProfileDelivery.InvalidRecord | src/main/java/uk/gov/companieshouse/appointments/subdelta/kafka/InvalidMessageRouter.java:37-61 | the redirected error-topic record goes to the invalid topic with the message's key and no partition or headers |
| ProfileDelivery.Attempt | src/main/java/uk/gov/companieshouse/appointments/subdelta/kafka/Consumer.java:53-65 | one attempt: the router's outcome, the sink the policy prescribes, the record the interceptor lets through for it, and the flag clear again |
| ProfileDelivery.DeliverFrom | src/main/java/uk/gov/companieshouse/appointments/subdelta/kafka/Consumer.java:43-65 | from any attempt on: the records that reach Kafka are exactly the plan's, the router is called once per attempt, and the flag ends clear |
| ProfileDelivery.Deliver | src/main/java/uk/gov/companieshouse/appointments/subdelta/kafka/Consumer.java:43-65 | a whole delivery: exactly the plan's records, one router call per attempt, the flag clear |
| ProfileDelivery.DeliverUndecodable | src/test/java/uk/gov/companieshouse/appointments/subdelta/kafka/ConsumerInvalidTopicTest.java:75-78 | an undecodable record yields exactly one invalid-topic record and no router call |
| OfficersDelivery.Calls | src/main/java/uk/gov/companieshouse/appointments/subdelta/Consumer.java:54-56 | n service calls, each with the payload and the `updatedBy` of its own attempt's position |
| OfficersDelivery.CallsThenRest | src/main/java/uk/gov/companieshouse/appointments/subdelta/Consumer.java:49-61 | one attempt's service call followed by the rest makes one call per planned attempt |
| OfficersDelivery.InvalidRecord | src/main/java/uk/gov/companieshouse/appointments/subdelta/InvalidMessageRouter.java:37-63 | the redirected error-topic record goes to the invalid topic with the message's key and no partition or headers |
| OfficersDelivery.Attempt | src/main/java/uk/gov/companieshouse/appointments/subdelta/Consumer.java:49-61 | one attempt: the service's outcome for that attempt's `updatedBy`, the sink the policy prescribes, the record the interceptor lets through, and the flag clear again |
| OfficersDelivery.DeliverFrom | src/main/java/uk/gov/companieshouse/appointments/subdelta/Consumer.java:39-61 | from any attempt on: the records that reach Kafka are exactly the plan's, the service is called once per attempt with that attempt's `updatedBy`, and the flag ends clear |
| OfficersDelivery.Deliver | src/main/java/uk/gov/companieshouse/appointments/subdelta/Consumer.java:39-61 | a whole delivery: exactly the plan's records, one service call per attempt, the flag clear |
| OfficersDelivery.DeliverUndecodable | src/test/java/uk/gov/companieshouse/appointments/subdelta/ConsumerInvalidTopicTest.java:68-75 | an undecodable record yields exactly one invalid-topic record and no service call |

## Left out

- Logging, the `DataMapHolder` log context and the logging aspect: they do not affect any outcome.
- The Avro deserialiser: a record either decodes to a `ResourceChangedData` (the `Deliver` methods) or does not (`DeliverUndecodable`).
- Jackson parsing and the API clients: they are function parameters.
  - A parse is `string -> Option<Profile>`.
  - A fetch returns a profile, nothing, or an error.
  - A patch returns a `Status`.
  - The clients' `IllegalArgumentException` path goes to a `handle` overload that the company-profile `ResponseHandler` does not have, so it is not given a classification.
- Collaborators are answered per call by the number of earlier calls (`MessageService`, `MessageRouter`). The service's own state between calls is not modelled.
- `MessageFlags.java` is not part of this model. The `Flags` module models only what its callers use (`setRetryable`, `isRetryable`, `destroy`): it assumes a single boolean cell that starts not retryable. Any thread affinity the class has is not modelled.
- Records.IntToString: renders `%d` with ASCII digits and a leading `-`. That assumes a locale whose digits and minus sign are ASCII, because `String.format` uses the default locale.
- Concurrency and the listener container's threads: one message is delivered at a time.
- Spring's retry-topic machinery is reduced to the `@RetryableTopic` attributes the consumers declare. The following are left out:
  - backoff delays;
  - topic creation;
  - the `FAIL_ON_ERROR` error-topic strategy;
  - the header stamping itself.
- The headers the framework stamps are one fixed list per message (`Message.headers`). They do not grow from attempt to attempt.
- OfficersDelivery.DeliverFrom: the topic, partition and offset of each attempt are a parameter (`Positions`). The broker's numbering of the retry-topic copies is not derived.
- ProfileDelivery.DeliverFrom: the attempts are driven by a recursive method, one attempt per call, rather than by the framework's loop over attempt numbers.
- `new String(byte[])` decodes with the platform charset. It is a parameter `decodeText` of each interceptor.
- Null header values, null keys other than the record key, and null payload fields other than the resource URI are not modelled. The event type and the resource URI are the nullable fields the code inspects.
- InvalidMessageRouter.InvalidMessageRouter.OnSend and KafkaInvalidMessageRouter.InvalidMessageRouter.OnSend: a null `messageFlags` gives `SendFailed(NullFlags)`. Java throws a `NullPointerException` there, with no message, so the reason text is the model's own label.
- The producer's handling of an exception thrown from `onSend` is not modelled. `OnSend` reports the failure as `SendFailed`; the delivery drivers require headers under which it cannot fail.
- InvalidMessageRouter.Redirect: a failure's reason is stated only as one of "Zero length BigInteger" and "Topic cannot be null.", not which one applies when both could.
- KafkaInvalidMessageRouter.Redirect: a failure's reason is stated only as one of the same two messages.
- `InvalidMessageRouterTest` expects officers/profile invalid-topic selection with an "unknown" fallback. Neither interceptor's code does this, so it is not modelled.
- `onAcknowledgement` and `close` do nothing and are not modelled.
