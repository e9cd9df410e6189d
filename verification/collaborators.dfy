/**
 * The downstream collaborators of the services, seen only through their
 * answers: the company-profile client, the appointments client and the JSON
 * mapper. A service run records, in order, every call it makes to them, the
 * way the unit tests verify interactions with their mocks.
 */
module Collaborators {
  import opened Wrappers
  import opened Events

  /** The two fields of the company-profile `Data` that the services use. */
  datatype Profile = Profile(companyName: string, companyStatus: string)

  /** One call to a collaborator, with its arguments. */
  datatype Call =
    | FetchCompanyProfile(companyNumber: string, contextId: string)
    | PatchCompanyNameAndStatus(uri: string, companyName: string, companyStatus: string, contextId: string)
    | PatchForAllAppointments(uri: string, companyName: string, companyStatus: string)
    | ReadProfile(json: string)

  /** What `fetchCompanyProfile` does: return an `Optional<Data>` or raise. */
  datatype Fetched = Returned(profile: Option<Profile>) | FetchRaised(error: Error)

  /** `CompanyProfileClient.fetchCompanyProfile(companyNumber, contextId)`. */
  type ProfileFetcher = (string, string) -> Fetched

  /** `AppointmentsClient.patchCompanyNameAndStatus(uri, name, status, contextId)`. */
  type AppointmentsPatcher = (string, string, string, string) -> Status

  /** `companyprofile.AppointmentsClient.patchCompanyNameAndStatusForAllAppointments(uri, name, status)`. */
  type AllAppointmentsPatcher = (string, string, string) -> Status

  /** `ObjectMapper.readValue(json, Data.class)`; `None` is a `JsonProcessingException`. */
  type ProfileReader = string -> Option<Profile>

  /** The collaborator calls a service made, in order, and how it completed. */
  datatype Run = Run(calls: seq<Call>, status: Status)

  /** The number of patch calls (of either client) in a run. */
  function PatchCount(calls: seq<Call>): nat {
    if calls == [] then 0
    else (if calls[0].PatchCompanyNameAndStatus? || calls[0].PatchForAllAppointments? then 1 else 0)
         + PatchCount(calls[1..])
  }

  const AppointmentsSuffix: string := "/appointments"
  const DeserialiseFailedWithUri: string := "Failed to deserialise company profile data: ["
  const ProfileNotFound: string := "Company profile not found for "
}
