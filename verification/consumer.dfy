/**
 * The officers consumer (`subdelta.Consumer`): it stamps the event with
 * `updatedBy = topic-partition-offset`, hands it to the service, and on a
 * `RetryableException` sets the shared flag before rethrowing.
 */
module Consumer {
  import opened Wrappers
  import opened Events
  import opened Records
  import opened Flags

  /**
   * The service behind the consumer. Its answer may change from one call to
   * the next (a downstream outage ends, a profile appears), so it also
   * receives the number of calls made before this one.
   */
  type MessageService = (ServiceParameters, nat) -> Status

  /**
   * `String.format("%s-%s-%s", topic, partition, offset)`: the topic, the
   * partition and the offset in that order, each followed by one '-' except
   * the last.
   */
  function UpdatedBy(topic: string, partition: string, offset: string): (r: string)
    ensures |r| == |topic| + |partition| + |offset| + 2
    ensures r[..|topic|] == topic && r[|topic|] == '-'
    ensures r[|topic| + 1..|topic| + 1 + |partition|] == partition && r[|topic| + 1 + |partition|] == '-'
    ensures r[|r| - |offset|..] == offset
  {
    topic + "-" + partition + "-" + offset
  }

  /** The position of the last '-' in `s`. */
  function LastDash(s: string): (r: Option<nat>)
    ensures r.Some? ==> r.value < |s| && s[r.value] == '-' && forall k :: r.value < k < |s| ==> s[k] != '-'
    ensures r.None? ==> forall k :: 0 <= k < |s| ==> s[k] != '-'
  {
    if s == [] then None
    else if s[|s| - 1] == '-' then Some(|s| - 1)
    else
      var r := LastDash(s[..|s| - 1]);
      assert forall k :: 0 <= k < |s| - 1 ==> s[..|s| - 1][k] == s[k];
      r
  }

  /**
   * Reads an `updatedBy` back into topic, partition and offset: the last two
   * '-' separate the two decimal numbers from the topic, which may itself
   * contain '-'.
   */
  function ParseUpdatedBy(s: string): (r: Option<(string, nat, nat)>)
    ensures r.Some? ==> exists p, o :: s == UpdatedBy(r.value.0, p, o) && AllDigits(p) && AllDigits(o)
                                       && DecimalValue(p) == r.value.1 && DecimalValue(o) == r.value.2
  {
    match LastDash(s)
    case None => None
    case Some(j) =>
      match LastDash(s[..j])
      case None => None
      case Some(i) =>
        var topic, p, o := s[..i], s[i + 1..j], s[j + 1..];
        if AllDigits(p) && AllDigits(o) then
          assert s == UpdatedBy(topic, p, o);
          Some((topic, DecimalValue(p), DecimalValue(o)))
        else None
  }

  /** A '-' followed by decimal digits: the last '-' is the one before the digits. */
  lemma LastDashBeforeDigits(prefix: string, digits: string)
    requires AllDigits(digits)
    ensures LastDash(prefix + "-" + digits) == Some(|prefix|)
  {
    var s := prefix + "-" + digits;
    var r := LastDash(s);
    assert s[|prefix|] == '-';
    assert r.Some?;
    NoDashAfter(prefix, digits);
  }

  lemma NoDashAfter(prefix: string, digits: string)
    requires AllDigits(digits)
    ensures forall k :: |prefix| < k < |prefix + "-" + digits| ==> (prefix + "-" + digits)[k] != '-'
  {
    var s := prefix + "-" + digits;
    forall k | |prefix| < k < |s|
      ensures s[k] != '-'
    {
      assert s[k] == digits[k - |prefix| - 1];
    }
  }

  /**
   * For a partition and an offset rendered in decimal, as Kafka's integer
   * headers are, the topic, partition and offset can be read back out of
   * `updatedBy`.
   */
  lemma UpdatedByRoundTrip(topic: string, partition: nat, offset: nat)
    ensures ParseUpdatedBy(UpdatedBy(topic, NatToString(partition), NatToString(offset)))
            == Some((topic, partition, offset))
  {
    var p, o := NatToString(partition), NatToString(offset);
    var s := UpdatedBy(topic, p, o);
    assert s == (topic + "-" + p) + "-" + o;
    LastDashBeforeDigits(topic + "-" + p, o);
    var j := |topic + "-" + p|;
    assert s[..j] == topic + "-" + p;
    LastDashBeforeDigits(topic, p);
    assert s[..|topic|] == topic;
    assert s[|topic| + 1..j] == p;
    assert s[j + 1..] == o;
    NatToStringRoundTrip(partition);
    NatToStringRoundTrip(offset);
  }

  class Consumer {
    const service: MessageService
    const messageFlags: MessageFlags
    /** The parameters of every `processMessage` call so far, in order. */
    var processed: seq<ServiceParameters>

    constructor (service: MessageService, messageFlags: MessageFlags)
      ensures this.service == service && this.messageFlags == messageFlags && processed == []
    {
      this.service := service;
      this.messageFlags := messageFlags;
      processed := [];
    }

    /**
     * `consume`: one service call with the payload and `updatedBy`; its
     * outcome escapes unchanged, and only a retryable failure sets the flag.
     */
    method Consume(payload: ResourceChangedData, topic: string, partition: string, offset: string)
      returns (r: Status)
      modifies this, messageFlags
      ensures processed == old(processed) + [ServiceParameters(payload, UpdatedBy(topic, partition, offset))]
      ensures r == service(ServiceParameters(payload, UpdatedBy(topic, partition, offset)), |old(processed)|)
      ensures r.Raised? && r.error.Retryable? ==> messageFlags.retryable
      ensures !(r.Raised? && r.error.Retryable?) ==> messageFlags.retryable == old(messageFlags.retryable)
    {
      var parameters := ServiceParameters(payload, UpdatedBy(topic, partition, offset));
      r := service(parameters, |processed|);
      processed := processed + [parameters];
      if r.Raised? && r.error.Retryable? {
        messageFlags.SetRetryable(true);
      }
    }
  }
}
