/** `APIVersionView.get`: the `version` query parameter, defaulted when it is
    missing or empty, checked against the configured allow-list. */
module Versioning {
  import opened Common

  /** The two settings the view reads: `DEFAULT_VERSION` and `VALID_VERSIONS`. */
  datatype VersionSettings = VersionSettings(defaultVersion: string, validVersions: set<string>)

  const HTTP_200_OK: nat := 200
  const HTTP_404_NOT_FOUND: nat := 404
  const INVALID_VERSION: string := "Invalid version."

  datatype Body = VersionBody(version: string) | ErrorBody(error: string)

  datatype Response = Response(status: nat, body: Body)

  /** The version the view settles on before checking it: the query value,
      unless it is missing or empty. */
  function RequestedVersion(settings: VersionSettings, query: Option<string>): (v: string)
    ensures query.None? ==> v == settings.defaultVersion
    ensures query == Some("") ==> v == settings.defaultVersion
    ensures query.Some? && query.value != "" ==> v == query.value
  {
    var version := if query.Some? then query.value else settings.defaultVersion;
    if version == "" then settings.defaultVersion else version
  }

  /** `query` is the value of the `version` parameter, if the request has one. */
  function GetVersion(settings: VersionSettings, query: Option<string>): (r: Response)
    ensures r.status == HTTP_200_OK || r.status == HTTP_404_NOT_FOUND
    ensures r.status == HTTP_200_OK <==> r.body.VersionBody?
    ensures r.status == HTTP_200_OK ==> r.body.version in settings.validVersions
    ensures r.status == HTTP_404_NOT_FOUND ==> r.body == ErrorBody(INVALID_VERSION)
    ensures (query.None? || query == Some("")) ==>
      (r.status == HTTP_200_OK <==> settings.defaultVersion in settings.validVersions)
    ensures (query.None? || query == Some("")) && r.status == HTTP_200_OK ==>
      r.body.version == settings.defaultVersion
    ensures query.Some? && query.value != "" ==>
      (r.status == HTTP_200_OK <==> query.value in settings.validVersions)
    ensures query.Some? && query.value != "" && r.status == HTTP_200_OK ==>
      r.body.version == query.value
  {
    var version := RequestedVersion(settings, query);
    if version !in settings.validVersions then Response(HTTP_404_NOT_FOUND, ErrorBody(INVALID_VERSION))
    else Response(HTTP_200_OK, VersionBody(version))
  }

  /** Asking again for the version just returned gives the same answer. */
  lemma GetVersionIdempotent(settings: VersionSettings, query: Option<string>)
    requires GetVersion(settings, query).status == HTTP_200_OK
    ensures GetVersion(settings, Some(GetVersion(settings, query).body.version)) == GetVersion(settings, query)
  {
  }
}
