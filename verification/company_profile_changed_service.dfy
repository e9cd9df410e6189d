/**
 * `CompanyProfileChangedService.processMessage` of the officers consumer:
 * read the company profile from the event's JSON data, then patch the
 * appointments under `resourceUri + "/appointments"`. No event-type check.
 */
module CompanyProfileChangedService {
  import opened Wrappers
  import opened Events
  import opened Collaborators

  /**
   * A JSON failure raises NonRetryable naming the resource URI and patches
   * nothing; otherwise there is exactly one patch, of the appointments URI,
   * with the parsed name and status and the event's context id, and its
   * outcome is the run's outcome.
   */
  function ProcessMessage(changedData: ResourceChangedData, read: ProfileReader,
                          patch: AppointmentsPatcher): (r: Run)
    ensures read(changedData.data).None? ==>
              r == Run([], Raised(NonRetryable(DeserialiseFailedWithUri + JavaString(changedData.resourceUri) + "]")))
    ensures read(changedData.data).Some? ==>
              var profile := read(changedData.data).value;
              var uri := JavaString(changedData.resourceUri) + AppointmentsSuffix;
              && r.calls == [PatchCompanyNameAndStatus(uri, profile.companyName, profile.companyStatus,
                                                       changedData.contextId)]
              && r.status == patch(uri, profile.companyName, profile.companyStatus, changedData.contextId)
    ensures PatchCount(r.calls) == 1 <==> read(changedData.data).Some?
  {
    match read(changedData.data)
    case None =>
      Run([], Raised(NonRetryable(DeserialiseFailedWithUri + JavaString(changedData.resourceUri) + "]")))
    case Some(profile) =>
      var uri := JavaString(changedData.resourceUri) + AppointmentsSuffix;
      var patchCall := PatchCompanyNameAndStatus(uri, profile.companyName, profile.companyStatus,
                                                 changedData.contextId);
      assert [patchCall][1..] == [];
      Run([patchCall], patch(uri, profile.companyName, profile.companyStatus, changedData.contextId))
  }

  /** The patched URI is the resource URI with "/appointments" appended, so it starts with the resource URI. */
  lemma PatchTargetExtendsResourceUri(changedData: ResourceChangedData, read: ProfileReader,
                                      patch: AppointmentsPatcher)
    requires changedData.resourceUri.Some? && read(changedData.data).Some?
    ensures var r := ProcessMessage(changedData, read, patch);
            && StartsWith(r.calls[0].uri, changedData.resourceUri.value)
            && r.calls[0].uri[|changedData.resourceUri.value|..] == "/appointments"
  {
  }
}
