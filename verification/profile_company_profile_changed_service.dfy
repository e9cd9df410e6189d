/**
 * `companyprofile.CompanyProfileChangedService.processMessage` of the
 * profile consumer: the injected JSON mapper reads the event's data, then
 * every appointment under `resourceUri + "/appointments"` is patched, without
 * a context id.
 */
module ProfileCompanyProfileChangedService {
  import opened Wrappers
  import opened Events
  import opened Collaborators

  const DeserialiseFailed: string := "Failed to deserialise company profile data"

  /**
   * The mapper is called once with the data string; a JSON failure raises
   * NonRetryable with the fixed message and patches nothing; otherwise
   * exactly one patch-all call follows, with the appointments URI and the
   * parsed name and status, and its outcome is the run's outcome.
   */
  function ProcessMessage(changedData: ResourceChangedData, read: ProfileReader,
                          patchAll: AllAppointmentsPatcher): (r: Run)
    ensures |r.calls| >= 1 && r.calls[0] == ReadProfile(changedData.data)
    ensures read(changedData.data).None? ==>
              r == Run([ReadProfile(changedData.data)], Raised(NonRetryable(DeserialiseFailed)))
    ensures read(changedData.data).Some? ==>
              var profile := read(changedData.data).value;
              var uri := JavaString(changedData.resourceUri) + AppointmentsSuffix;
              && r.calls == [ReadProfile(changedData.data),
                             PatchForAllAppointments(uri, profile.companyName, profile.companyStatus)]
              && r.status == patchAll(uri, profile.companyName, profile.companyStatus)
    ensures PatchCount(r.calls) == 1 <==> read(changedData.data).Some?
  {
    var readCall := ReadProfile(changedData.data);
    assert [readCall][1..] == [];
    match read(changedData.data)
    case None => Run([readCall], Raised(NonRetryable(DeserialiseFailed)))
    case Some(profile) =>
      var uri := JavaString(changedData.resourceUri) + AppointmentsSuffix;
      var patchCall := PatchForAllAppointments(uri, profile.companyName, profile.companyStatus);
      assert [readCall, patchCall][1..] == [patchCall] && [patchCall][1..] == [];
      Run([readCall, patchCall], patchAll(uri, profile.companyName, profile.companyStatus))
  }
}
