/** The two credential gates of src/api.py that the routes depend on: outside
    production both allow; in production a missing (or empty) header is 401,
    a header that differs from the configured secret is 403, a match allows. */
module Api {
  import opened Common
  import opened Config

  const MissingApiKey := HttpError(401, "Missing X-API-Key header")
  const InvalidApiKey := HttpError(403, "Invalid API key")
  const MissingAdminKey := HttpError(401, "Missing X-Admin-Key header")
  const InvalidAdminKey := HttpError(403, "Invalid Admin key")

  /** `require_api_key`: guards /query with `API_KEY`. */
  function RequireApiKey(settings: Settings, xApiKey: Option<string>): (r: Outcome<HttpError>)
    ensures settings.env != Prod ==> r == Pass
    ensures settings.env == Prod && !Present(xApiKey) ==> r == Fail(MissingApiKey)
    ensures settings.env == Prod && Present(xApiKey) && xApiKey.value != settings.apiKey ==> r == Fail(InvalidApiKey)
    ensures r == Pass <==> settings.env != Prod || (Present(xApiKey) && xApiKey.value == settings.apiKey)
  {
    if settings.env != Prod then Pass
    else if !Present(xApiKey) then Fail(MissingApiKey)
    else if xApiKey.value != settings.apiKey then Fail(InvalidApiKey)
    else Pass
  }

  /** `require_admin_key`: guards /ingest with `ADMIN_API_KEY`. */
  function RequireAdminKey(settings: Settings, xAdminKey: Option<string>): (r: Outcome<HttpError>)
    ensures settings.env != Prod ==> r == Pass
    ensures settings.env == Prod && !Present(xAdminKey) ==> r == Fail(MissingAdminKey)
    ensures settings.env == Prod && Present(xAdminKey) && xAdminKey.value != settings.adminApiKey ==> r == Fail(InvalidAdminKey)
    ensures r == Pass <==> settings.env != Prod || (Present(xAdminKey) && xAdminKey.value == settings.adminApiKey)
  {
    if settings.env != Prod then Pass
    else if !Present(xAdminKey) then Fail(MissingAdminKey)
    else if xAdminKey.value != settings.adminApiKey then Fail(InvalidAdminKey)
    else Pass
  }

  /** A gate only ever answers 401 or 403, and 401 exactly for a missing or
      empty header: the missing-header test wins over the mismatch test. */
  lemma GateStatuses(settings: Settings, header: Option<string>)
    ensures var r := RequireApiKey(settings, header);
      r.Fail? ==> (r.error.status == 401 <==> !Present(header)) && r.error.status in {401, 403}
    ensures var r := RequireAdminKey(settings, header);
      r.Fail? ==> (r.error.status == 401 <==> !Present(header)) && r.error.status in {401, 403}
  {
  }

  /** The query secret never opens the admin gate, nor the admin secret the
      query gate, unless the two configured secrets are equal. */
  lemma SecretsAreSeparate(settings: Settings, header: Option<string>)
    requires settings.env == Prod && settings.apiKey != settings.adminApiKey
    ensures !(RequireApiKey(settings, header) == Pass && RequireAdminKey(settings, header) == Pass)
  {
  }

  /** In production, a secret left at its default "" lets no request through:
      an empty header is 401 and any other header is 403. */
  lemma DefaultSecretLocksOut(settings: Settings, header: Option<string>)
    requires settings.env == Prod
    ensures settings.apiKey == "" ==> RequireApiKey(settings, header).Fail?
    ensures settings.adminApiKey == "" ==> RequireAdminKey(settings, header).Fail?
  {
  }
}
