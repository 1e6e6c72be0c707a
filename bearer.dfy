/**
 * The contract between the frontend and the backend on the Authorization
 * header: whatever the access token (empty, or containing spaces), the
 * header `backendRequest` builds is accepted by `get_current_user`'s prefix
 * check and yields exactly that token, so the backend decodes the token the
 * session holds.
 */
module BearerRoundTrip {
  import opened Wrappers
  import Api
  import AuthUtils

  /** Parsing the built header gives back the token. */
  lemma HeaderRoundTrip(token: string)
    ensures AuthUtils.HasBearerPrefix(Some(Api.AuthorizationHeader(token)))
    ensures AuthUtils.ExtractToken(Some(Api.AuthorizationHeader(token))) == Success(token)
  {
  }

  /**
   * End to end: a request built from a session is authenticated by the
   * backend exactly as decoding the session's own access token dictates.
   */
  lemma RequestAuthenticatesSessionToken<B>(
    apiBase: string, session: Api.Session, path: string, verb: string, body: Option<B>,
    decode: string -> Option<AuthUtils.Payload>)
    ensures var r := Api.BackendRequest(apiBase, Some(session), path, verb, body);
      && r.Success?
      && var claims := decode(session.accessToken);
      && var user := AuthUtils.GetCurrentUser(Some(r.value.authorization), decode);
      && (claims.None? ==> user == Failure(AuthUtils.HttpError(AuthUtils.Unauthorized, AuthUtils.InvalidToken)))
      && (claims.Some? && (claims.value.sub.None? || claims.value.sub.value == "") ==>
            user == Failure(AuthUtils.HttpError(AuthUtils.Unauthorized, AuthUtils.InvalidTokenPayload)))
      && (claims.Some? && claims.value.sub.Some? && claims.value.sub.value != "" ==>
            user == Success(AuthUtils.CurrentUser(claims.value.sub.value, claims.value.email)))
  {
  }
}
