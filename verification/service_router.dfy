/**
 * `ServiceRouter.route` of the officers/profile consumer: a changed event is
 * dispatched by the prefix of the topic it came from, the officers prefix
 * being checked first; any other event type is ignored.
 */
module ServiceRouter {
  import opened Wrappers
  import opened Events

  const InvalidTopicPrefix: string := "Invalid topic name: ["

  /** The handler a routed event is passed to. */
  datatype Handler = AppointmentService | ProfileService

  /** The decision `route` takes before calling anything. */
  datatype Dispatch = Ignore | Invoke(handler: Handler) | Reject(error: Error)

  /** One call of a handler's `processMessage`, with its argument. */
  datatype HandlerCall = HandlerCall(handler: Handler, data: ResourceChangedData)

  datatype Routed = Routed(calls: seq<HandlerCall>, status: Status)

  /** The dispatch decision: type filter, then the officers prefix, then the profile prefix. */
  function Decide(parameters: RouterParameters, officersTopic: string, profileTopic: string): (d: Dispatch)
    ensures !IsChanged(parameters.resourceChangedData) <==> d == Ignore
    ensures d == Invoke(AppointmentService) <==>
              IsChanged(parameters.resourceChangedData) && StartsWith(parameters.topic, officersTopic)
    ensures d == Invoke(ProfileService) <==>
              IsChanged(parameters.resourceChangedData) && !StartsWith(parameters.topic, officersTopic)
              && StartsWith(parameters.topic, profileTopic)
    ensures d.Reject? <==>
              IsChanged(parameters.resourceChangedData) && !StartsWith(parameters.topic, officersTopic)
              && !StartsWith(parameters.topic, profileTopic)
    ensures d.Reject? ==> d.error == NonRetryable(InvalidTopicPrefix + parameters.topic + "]")
  {
    if IsChanged(parameters.resourceChangedData) then
      if StartsWith(parameters.topic, officersTopic) then Invoke(AppointmentService)
      else if StartsWith(parameters.topic, profileTopic) then Invoke(ProfileService)
      else Reject(NonRetryable(InvalidTopicPrefix + parameters.topic + "]"))
    else Ignore
  }

  /**
   * `route(parameters)` with the two services' `processMessage` as
   * `appointments` and `profile`: at most one handler is called, with the
   * payload itself, and its outcome is the router's outcome, uncaught.
   */
  function Route(parameters: RouterParameters, officersTopic: string, profileTopic: string,
                 appointments: ResourceChangedData -> Status, profile: ResourceChangedData -> Status): (r: Routed)
    ensures |r.calls| <= 1
    ensures forall k :: 0 <= k < |r.calls| ==> r.calls[k].data == parameters.resourceChangedData
    ensures r.calls == [] <==> !Decide(parameters, officersTopic, profileTopic).Invoke?
    ensures r.calls != [] ==> r.calls[0].handler == Decide(parameters, officersTopic, profileTopic).handler
    ensures r.calls != [] && r.calls[0].handler == AppointmentService ==>
              r.status == appointments(parameters.resourceChangedData)
    ensures r.calls != [] && r.calls[0].handler == ProfileService ==>
              r.status == profile(parameters.resourceChangedData)
    ensures r.calls == [] ==>
              r.status == (match Decide(parameters, officersTopic, profileTopic)
                           case Reject(e) => Raised(e)
                           case _ => Done)
  {
    var data := parameters.resourceChangedData;
    match Decide(parameters, officersTopic, profileTopic)
    case Ignore => Routed([], Done)
    case Reject(e) => Routed([], Raised(e))
    case Invoke(AppointmentService) => Routed([HandlerCall(AppointmentService, data)], appointments(data))
    case Invoke(ProfileService) => Routed([HandlerCall(ProfileService, data)], profile(data))
  }

  /** A topic that starts with both prefixes goes to the appointment service. */
  lemma OfficersPrefixWins(parameters: RouterParameters, officersTopic: string, profileTopic: string,
                           appointments: ResourceChangedData -> Status, profile: ResourceChangedData -> Status)
    requires IsChanged(parameters.resourceChangedData)
    requires StartsWith(parameters.topic, officersTopic) && StartsWith(parameters.topic, profileTopic)
    ensures Route(parameters, officersTopic, profileTopic, appointments, profile)
            == Routed([HandlerCall(AppointmentService, parameters.resourceChangedData)],
                      appointments(parameters.resourceChangedData))
  {
  }

  /** An event that is not "changed" (a null type included) calls nothing and raises nothing. */
  lemma IgnoresOtherEventTypes(parameters: RouterParameters, officersTopic: string, profileTopic: string,
                               appointments: ResourceChangedData -> Status, profile: ResourceChangedData -> Status)
    requires parameters.resourceChangedData.event.eventType != Some(EventTypeChanged)
    ensures Route(parameters, officersTopic, profileTopic, appointments, profile) == Routed([], Done)
  {
  }
}
