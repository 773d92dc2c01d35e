/** The HTTP interceptor: every request except those to the token endpoints
    carries the stored access token as a bearer credential (section 2.1 of
    RFC 6750). */
module BearerInterceptor {
  import opened Wrappers
  import opened Text
  import Session

  /** An outgoing request; the body is carried along untouched. Header
      names are case-insensitive, so the map is keyed by the lower-cased
      name, as Angular's `HttpHeaders` keys it; setting `Authorization`
      therefore replaces an `authorization` header of any spelling. */
  datatype HttpRequest = HttpRequest(url: string, headers: map<string, string>, body: string)

  /** The key of the `Authorization` header. */
  const AuthorizationKey := "authorization"

  /** authInterceptor: the request handed on, given the stored token. */
  function Intercept(req: HttpRequest, token: Option<string>): (out: HttpRequest)
    ensures out.url == req.url && out.body == req.body
    ensures Contains(req.url, "/token/") ==> out == req
    ensures !Session.Truthy(token) ==> out == req
    ensures !Contains(req.url, "/token/") && Session.Truthy(token) ==>
      out.headers == req.headers[AuthorizationKey := "Bearer " + token.value]
  {
    if Contains(req.url, "/token/") then req
    else if Session.Truthy(token) then req.(headers := req.headers[AuthorizationKey := "Bearer " + token.value])
    else req
  }

  /** Only the Authorization header may change. */
  lemma OnlyAuthorizationChanges(req: HttpRequest, token: Option<string>, name: string)
    requires name != AuthorizationKey
    ensures name in Intercept(req, token).headers <==> name in req.headers
    ensures name in req.headers ==> Intercept(req, token).headers[name] == req.headers[name]
  {
  }

  /** The renewal call, which contains "/token/", goes out without the
      (possibly expired) access token, even when one is stored. */
  lemma {:induction false} RenewalPassesThrough(req: HttpRequest, prefix: string, token: Option<string>)
    requires req.url == prefix + "/token/refresh/"
    ensures Intercept(req, token) == req
  {
    assert req.url[|prefix|..|prefix| + |"/token/"|] == "/token/";
    OccurrenceIsContained(req.url, "/token/", |prefix|);
  }
}
