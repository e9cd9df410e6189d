/**
 * `companyprofile.ServiceRouter.route`: the profile consumer's router has
 * only the event-type filter.
 */
module ProfileServiceRouter {
  import opened Events

  /** One call of the profile service's `processMessage`. */
  datatype Routed = Routed(calls: seq<ResourceChangedData>, status: Status)

  /**
   * `route(changedData)`: a "changed" event is passed once, unchanged, to the
   * profile service, whose outcome escapes unchanged; any other type is
   * ignored. The router raises nothing of its own.
   */
  function Route(changedData: ResourceChangedData, profile: ResourceChangedData -> Status): (r: Routed)
    ensures IsChanged(changedData) ==> r.calls == [changedData] && r.status == profile(changedData)
    ensures !IsChanged(changedData) ==> r.calls == [] && r.status == Done
    ensures r.status.Raised? ==> r.calls == [changedData] && r.status == profile(changedData)
  {
    if IsChanged(changedData) then Routed([changedData], profile(changedData))
    else Routed([], Done)
  }
}
