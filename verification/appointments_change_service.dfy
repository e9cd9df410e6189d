/**
 * `AppointmentsChangeService`: the combined service of the officers
 * consumer. Each entry point first checks that the event type is "changed";
 * the appointment path then extracts, fetches and patches, and the profile
 * path reads the profile JSON and patches `resourceUri + "/appointments"`.
 */
module AppointmentsChangeService {
  import opened Wrappers
  import opened Events
  import opened Collaborators
  import CompanyNumberExtractor
  import CompanyAppointmentChangedService
  import CompanyProfileChangedService

  /**
   * `processChangedCompanyAppointment`: an event that is not "changed" calls
   * nothing; otherwise it is `CompanyAppointmentChangedService.processMessage`:
   * extraction precedes the fetch, a failed fetch escapes, an absent profile
   * raises NonRetryable and skips the patch, and a present one is patched once.
   */
  function ProcessChangedCompanyAppointment(parameters: ServiceParameters, fetch: ProfileFetcher,
                                            patch: AppointmentsPatcher): (r: Run)
    ensures !IsChanged(parameters.resourceChangedData) ==> r == Run([], Done)
    ensures r.calls != [] ==> CompanyNumberExtractor.ExtractFromUri(parameters.resourceChangedData.resourceUri).Success?
    ensures r.calls != [] ==> r.calls[0] == FetchCompanyProfile(
              CompanyNumberExtractor.ExtractFromUri(parameters.resourceChangedData.resourceUri).value,
              parameters.resourceChangedData.contextId)
    ensures PatchCount(r.calls) <= 1
    ensures IsChanged(parameters.resourceChangedData) &&
            CompanyNumberExtractor.ExtractFromUri(parameters.resourceChangedData.resourceUri).Failure? ==>
              r == Run([], Raised(CompanyNumberExtractor.ExtractFromUri(parameters.resourceChangedData.resourceUri).error))
    ensures IsChanged(parameters.resourceChangedData) &&
            CompanyNumberExtractor.ExtractFromUri(parameters.resourceChangedData.resourceUri).Success? ==>
              var number := CompanyNumberExtractor.ExtractFromUri(parameters.resourceChangedData.resourceUri).value;
              var fetched := fetch(number, parameters.resourceChangedData.contextId);
              && r.calls != []
              && (fetched.FetchRaised? ==> r.status == Raised(fetched.error))
              && (fetched == Returned(None) ==> r.status == Raised(NonRetryable(ProfileNotFound + number)))
              && (PatchCount(r.calls) == 1 <==> fetched.Returned? && fetched.profile.Some?)
              && (!(fetched.Returned? && fetched.profile.Some?) ==>
                    r.calls == [FetchCompanyProfile(number, parameters.resourceChangedData.contextId)])
              && (fetched.Returned? && fetched.profile.Some? ==>
                    var changedData := parameters.resourceChangedData;
                    var profile := fetched.profile.value;
                    && changedData.resourceUri.Some?
                    && r.calls == [FetchCompanyProfile(number, changedData.contextId),
                                   PatchCompanyNameAndStatus(changedData.resourceUri.value, profile.companyName,
                                                             profile.companyStatus, changedData.contextId)]
                    && r.status == patch(changedData.resourceUri.value, profile.companyName,
                                         profile.companyStatus, changedData.contextId))
  {
    if IsChanged(parameters.resourceChangedData)
    then CompanyAppointmentChangedService.ProcessMessage(parameters.resourceChangedData, fetch, patch)
    else Run([], Done)
  }

  /**
   * `processChangedCompanyProfile`: an event that is not "changed" calls
   * nothing; otherwise it is `CompanyProfileChangedService.processMessage`:
   * an unreadable profile raises NonRetryable naming the resource URI and
   * patches nothing, and a readable one is patched once at `resourceUri +
   * "/appointments"` with the parsed name and status and the context id.
   */
  function ProcessChangedCompanyProfile(parameters: ServiceParameters, read: ProfileReader,
                                        patch: AppointmentsPatcher): (r: Run)
    ensures !IsChanged(parameters.resourceChangedData) ==> r == Run([], Done)
    ensures read(parameters.resourceChangedData.data).None? ==> PatchCount(r.calls) == 0
    ensures IsChanged(parameters.resourceChangedData) && read(parameters.resourceChangedData.data).None? ==>
              r == Run([], Raised(NonRetryable(DeserialiseFailedWithUri
                                               + JavaString(parameters.resourceChangedData.resourceUri) + "]")))
    ensures IsChanged(parameters.resourceChangedData) && read(parameters.resourceChangedData.data).Some? ==>
              var changedData := parameters.resourceChangedData;
              var profile := read(changedData.data).value;
              var uri := JavaString(changedData.resourceUri) + AppointmentsSuffix;
              && r.calls == [PatchCompanyNameAndStatus(uri, profile.companyName, profile.companyStatus,
                                                       changedData.contextId)]
              && r.status == patch(uri, profile.companyName, profile.companyStatus, changedData.contextId)
  {
    if IsChanged(parameters.resourceChangedData)
    then CompanyProfileChangedService.ProcessMessage(parameters.resourceChangedData, read, patch)
    else Run([], Done)
  }
}
