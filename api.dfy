/**
 * The frontend's authenticated request builder (`backendRequest`). With no
 * session it refuses before any HTTP request; otherwise it addresses
 * API_BASE followed by the path and authenticates with the session's access
 * token as a bearer token. The HTTP call itself and the session lookup are
 * outside the model: the session is a parameter and the result is the
 * request that would be sent.
 */
module Api {
  import opened Wrappers

  /** The part of an auth-provider session the frontend reads. */
  datatype Session = Session(accessToken: string)

  /** What `backendRequest` hands to the HTTP client. */
  datatype HttpRequest<B> = HttpRequest(
    url: string,
    verb: string,
    body: Option<B>,
    authorization: string,
    contentType: string)

  const NotAuthenticated := "Not authenticated"
  const ApplicationJson := "application/json"

  /** The Authorization header value for an access token (line 21). */
  function AuthorizationHeader(token: string): (h: string)
    ensures |h| == 7 + |token|
    ensures h[..7] == "Bearer " && h[7..] == token
  {
    "Bearer " + token
  }

  /**
   * Lines 7-24: with no session, the request is refused with
   * "Not authenticated"; otherwise the URL is `apiBase` followed by `path`,
   * verb and body are passed through, and the headers carry the bearer
   * token and the JSON content type.
   */
  function BackendRequest<B>(apiBase: string, session: Option<Session>, path: string, verb: string, body: Option<B>)
    : (r: Result<HttpRequest<B>, string>)
    ensures r.Failure? <==> session.None?
    ensures r.Failure? ==> r.error == NotAuthenticated
    ensures r.Success? ==>
      && |r.value.url| == |apiBase| + |path|
      && r.value.url[..|apiBase|] == apiBase
      && r.value.url[|apiBase|..] == path
      && r.value.verb == verb
      && r.value.body == body
      && r.value.authorization == "Bearer " + session.value.accessToken
      && r.value.contentType == ApplicationJson
  {
    match session
    case None => Failure(NotAuthenticated)
    case Some(s) =>
      Success(HttpRequest(apiBase + path, verb, body, AuthorizationHeader(s.accessToken), ApplicationJson))
  }
}
