/**
 * The company-profile consumer (`kafka.Consumer`): it hands the payload to
 * the profile router and on a `RetryableException` sets the shared flag
 * before rethrowing.
 */
module KafkaConsumer {
  import opened Events
  import opened Flags

  /**
   * The router behind the consumer, told how many calls came before this
   * one, since the downstream services may answer differently over time.
   */
  type MessageRouter = (ResourceChangedData, nat) -> Status

  class Consumer {
    const router: MessageRouter
    const messageFlags: MessageFlags
    /** The payload of every `route` call so far, in order. */
    var routed: seq<ResourceChangedData>

    constructor (router: MessageRouter, messageFlags: MessageFlags)
      ensures this.router == router && this.messageFlags == messageFlags && routed == []
    {
      this.router := router;
      this.messageFlags := messageFlags;
      routed := [];
    }

    /**
     * `consume`: exactly one `route` call with the payload; its outcome
     * escapes unchanged, and only a retryable failure sets the flag.
     */
    method Consume(payload: ResourceChangedData) returns (r: Status)
      modifies this, messageFlags
      ensures routed == old(routed) + [payload]
      ensures r == router(payload, |old(routed)|)
      ensures r.Raised? && r.error.Retryable? ==> messageFlags.retryable
      ensures !(r.Raised? && r.error.Retryable?) ==> messageFlags.retryable == old(messageFlags.retryable)
    {
      r := router(payload, |routed|);
      routed := routed + [payload];
      if r.Raised? && r.error.Retryable? {
        messageFlags.SetRetryable(true);
      }
    }
  }
}
