/**
 * `CompanyAppointmentChangedService.processMessage`: extract the company
 * number from the resource URI, fetch the company profile, fail if it is
 * absent, then patch the appointment with the profile's name and status.
 * There is no event-type check here.
 */
module CompanyAppointmentChangedService {
  import opened Wrappers
  import opened Events
  import opened Collaborators
  import CompanyNumberExtractor

  /**
   * Every run either stops at extraction with no collaborator call, or calls
   * the fetch first with (number, context id); the single patch, with
   * (resource URI, name, status, context id), happens exactly when a profile
   * was returned, and its outcome is the run's outcome.
   */
  function ProcessMessage(changedData: ResourceChangedData, fetch: ProfileFetcher,
                          patch: AppointmentsPatcher): (r: Run)
    ensures CompanyNumberExtractor.ExtractFromUri(changedData.resourceUri).Failure? ==>
              r == Run([], Raised(CompanyNumberExtractor.ExtractFromUri(changedData.resourceUri).error))
    ensures CompanyNumberExtractor.ExtractFromUri(changedData.resourceUri).Success? ==>
              var number := CompanyNumberExtractor.ExtractFromUri(changedData.resourceUri).value;
              && 1 <= |r.calls| <= 2
              && r.calls[0] == FetchCompanyProfile(number, changedData.contextId)
              && (fetch(number, changedData.contextId).FetchRaised? ==>
                    r.status == Raised(fetch(number, changedData.contextId).error))
              && (fetch(number, changedData.contextId) == Returned(None) ==>
                    r.status == Raised(NonRetryable(ProfileNotFound + number)))
              && (PatchCount(r.calls) == 1 <==> fetch(number, changedData.contextId).Returned?
                                                  && fetch(number, changedData.contextId).profile.Some?)
              && (!(fetch(number, changedData.contextId).Returned? && fetch(number, changedData.contextId).profile.Some?) ==>
                    r.calls == [FetchCompanyProfile(number, changedData.contextId)])
              && (fetch(number, changedData.contextId).Returned? && fetch(number, changedData.contextId).profile.Some? ==>
                    var profile := fetch(number, changedData.contextId).profile.value;
                    && changedData.resourceUri.Some?
                    && r.calls == [FetchCompanyProfile(number, changedData.contextId),
                                   PatchCompanyNameAndStatus(changedData.resourceUri.value, profile.companyName,
                                                             profile.companyStatus, changedData.contextId)]
                    && r.status == patch(changedData.resourceUri.value, profile.companyName,
                                         profile.companyStatus, changedData.contextId))
    ensures PatchCount(r.calls) <= 1
    ensures PatchCount(r.calls) == 1 ==>
              && |r.calls| == 2 && r.calls[0].FetchCompanyProfile? && r.calls[1].PatchCompanyNameAndStatus?
              && var p := r.calls[1];
              && changedData.resourceUri.Some?
              && p == PatchCompanyNameAndStatus(changedData.resourceUri.value, p.companyName, p.companyStatus,
                                                changedData.contextId)
              && fetch(r.calls[0].companyNumber, changedData.contextId)
                 == Returned(Some(Profile(p.companyName, p.companyStatus)))
              && r.status == patch(p.uri, p.companyName, p.companyStatus, p.contextId)
  {
    match CompanyNumberExtractor.ExtractFromUri(changedData.resourceUri)
    case Failure(e) => Run([], Raised(e))
    case Success(number) =>
      var fetchCall := FetchCompanyProfile(number, changedData.contextId);
      assert [fetchCall][1..] == [];
      match fetch(number, changedData.contextId)
      case FetchRaised(e) => Run([fetchCall], Raised(e))
      case Returned(None) => Run([fetchCall], Raised(NonRetryable(ProfileNotFound + number)))
      case Returned(Some(profile)) =>
        var uri := changedData.resourceUri.value;
        var patchCall := PatchCompanyNameAndStatus(uri, profile.companyName, profile.companyStatus,
                                                   changedData.contextId);
        assert [fetchCall, patchCall][1..] == [patchCall] && [patchCall][1..] == [];
        Run([fetchCall, patchCall], patch(uri, profile.companyName, profile.companyStatus, changedData.contextId))
  }
}
