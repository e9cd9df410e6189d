/**
 * The decoded message shape (the Avro `ResourceChangedData` / `EventRecord`
 * records), the exception taxonomy of the consumer, and the small value
 * types that carry an event through the routers and services.
 */
module Events {
  import opened Wrappers

  /** `EventRecord(published_at, type, fields_changed)`; a null type is `None`. */
  datatype EventRecord = EventRecord(publishedAt: string, eventType: Option<string>, fieldsChanged: seq<string>)

  /**
   * `ResourceChangedData(resource_kind, resource_uri, context_id, resource_id, data, event)`.
   * Only the resource URI is modelled as nullable: the company-number extractor
   * handles a null URI explicitly.
   */
  datatype ResourceChangedData = ResourceChangedData(
    resourceKind: string,
    resourceUri: Option<string>,
    contextId: string,
    resourceId: string,
    data: string,
    event: EventRecord)

  /**
   * The exceptions a processing attempt can raise: `RetryableException`,
   * `NonRetryableException`, and any other runtime exception.
   */
  datatype Error =
    | Retryable(message: string)
    | NonRetryable(message: string)
    | Unexpected(message: string)

  /** The completion of a `void` Java method: it returns normally or raises. */
  datatype Status = Done | Raised(error: Error)

  /** `RouterParameters(resourceChangedData, topic)`. */
  datatype RouterParameters = RouterParameters(resourceChangedData: ResourceChangedData, topic: string)

  /**
   * `ServiceParameters`: the payload, and the `updatedBy` string that the
   * officers consumer passes alongside it.
   */
  datatype ServiceParameters = ServiceParameters(resourceChangedData: ResourceChangedData, updatedBy: string)

  const EventTypeChanged: string := "changed"

  /** `"changed".equals(type)`: constant-first, so a null type is never "changed". */
  predicate IsChanged(data: ResourceChangedData) {
    data.event.eventType == Some(EventTypeChanged)
  }

  /** `String.startsWith`. */
  predicate StartsWith(s: string, prefix: string) {
    |prefix| <= |s| && s[..|prefix|] == prefix
  }

  /** String concatenation with a possibly null reference, as Java's `+` and `%s` render it. */
  function JavaString(s: Option<string>): string {
    match s
    case None => "null"
    case Some(v) => v
  }
}
