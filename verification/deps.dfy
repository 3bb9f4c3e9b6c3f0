/** src/deps.py: a second copy of the two credential gates, and the
    production-only rate-limit dependency over the shared limiter. */
module Deps {
  import opened Common
  import opened Config
  import Api
  import opened RateLimit

  /** `require_api_key`, written out again in this file. */
  function RequireApiKey(settings: Settings, xApiKey: Option<string>): (r: Outcome<HttpError>)
    ensures r == Pass <==> settings.env != Prod || (Present(xApiKey) && xApiKey.value == settings.apiKey)
    ensures r.Fail? ==> r.error.status == (if Present(xApiKey) then 403 else 401)
  {
    if settings.env != Prod then Pass
    else if !Present(xApiKey) then Fail(HttpError(401, "Missing X-API-Key header"))
    else if xApiKey.value != settings.apiKey then Fail(HttpError(403, "Invalid API key"))
    else Pass
  }

  /** `require_admin_key`, written out again in this file. */
  function RequireAdminKey(settings: Settings, xAdminKey: Option<string>): (r: Outcome<HttpError>)
    ensures r == Pass <==> settings.env != Prod || (Present(xAdminKey) && xAdminKey.value == settings.adminApiKey)
    ensures r.Fail? ==> r.error.status == (if Present(xAdminKey) then 403 else 401)
  {
    if settings.env != Prod then Pass
    else if !Present(xAdminKey) then Fail(HttpError(401, "Missing X-Admin-Key header"))
    else if xAdminKey.value != settings.adminApiKey then Fail(HttpError(403, "Invalid Admin key"))
    else Pass
  }

  /** The copies in this file answer exactly as the gates the app uses,
      status and message alike, for every setting and header. */
  lemma GatesAgreeWithApi(settings: Settings, header: Option<string>)
    ensures RequireApiKey(settings, header) == Api.RequireApiKey(settings, header)
    ensures RequireAdminKey(settings, header) == Api.RequireAdminKey(settings, header)
  {
  }

  /** `check_rate_limit`: outside production it never touches the limiter;
      in production it is exactly `limiter.check(request)`. */
  method CheckRateLimit(settings: Settings, limiter: RateLimiter, request: Request, now: int)
    returns (r: Outcome<HttpError>)
    requires limiter.Valid()
    modifies limiter
    ensures limiter.Valid()
    ensures settings.env != Prod ==> r == Pass && limiter.requests == old(limiter.requests)
    ensures settings.env == Prod ==>
      var key := GetKey(request);
      var d := Decide(Bucket(old(limiter.requests), key), now, limiter.requestsPerMinute);
      && limiter.requests == old(limiter.requests)[key := d.kept]
      && (r == Pass <==> d.admitted)
      && (r.Fail? ==> r.error == limiter.Exceeded())
  {
    if settings.env != Prod {
      return Pass;
    }
    r := limiter.Check(request, now);
  }
}
