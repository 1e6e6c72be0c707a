/**
 * The backend's bearer-token check (`get_current_user`): the Authorization
 * header must be present and start with "Bearer ", the token is what
 * follows the first space, the token must decode, and the decoded claims
 * must carry a non-empty subject. JWT decoding (signature, expiry,
 * algorithm) is a parameter: `decode` maps a token to its claims, or to
 * None where the library would raise.
 */
module AuthUtils {
  import opened Wrappers
  import opened Strings

  /** An `HTTPException`: status code and detail text. */
  datatype HttpError = HttpError(status: nat, detail: string)

  const Unauthorized: nat := 401
  const NoTokenProvided := "no token provided"
  const InvalidToken := "invalid token"
  const InvalidTokenPayload := "invalid token payload"

  const BearerPrefix := "Bearer "

  /** The two claims the backend reads from a decoded token; either may be missing. */
  datatype Payload = Payload(sub: Option<string>, email: Option<string>)

  /** The authenticated caller. */
  datatype CurrentUser = CurrentUser(id: string, email: Option<string>)

  /** A header that passes the first check: present and starting with "Bearer " (so never empty). */
  predicate HasBearerPrefix(header: Option<string>) {
    header.Some? && StartsWith(header.value, BearerPrefix)
  }

  /** Index of the first occurrence of `c` in `s`, if any. */
  function FirstIndexOf(s: string, c: char): (r: Option<nat>)
    ensures r.Some? ==> r.value < |s| && s[r.value] == c
    ensures r.Some? ==> forall k :: 0 <= k < r.value ==> s[k] != c
    ensures r.None? ==> forall k :: 0 <= k < |s| ==> s[k] != c
  {
    if s == [] then None
    else if s[0] == c then Some(0)
    else match FirstIndexOf(s[1..], c)
      case None => None
      case Some(i) => Some(i + 1)
  }

  /** Python's `s.split(sep, 1)`: the whole string, or the parts before and after the first `sep`. */
  function SplitOnce(s: string, sep: char): (parts: seq<string>)
    ensures |parts| == 1 <==> sep !in s
    ensures |parts| == 1 ==> parts[0] == s
    ensures |parts| == 2 ==> s == parts[0] + [sep] + parts[1] && sep !in parts[0]
  {
    match FirstIndexOf(s, sep)
    case None => [s]
    case Some(i) =>
      assert s == s[..i] + [sep] + s[i + 1..];
      [s[..i], s[i + 1..]]
  }

  /**
   * Lines 27-31: the prefix check and the token extraction. The token is
   * the header with its seven-character prefix removed; it may be empty.
   */
  function ExtractToken(header: Option<string>): (r: Result<string, HttpError>)
    ensures r.Failure? <==> !HasBearerPrefix(header)
    ensures r.Failure? ==> r.error == HttpError(Unauthorized, NoTokenProvided)
    ensures r.Success? ==> header.value == BearerPrefix + r.value
  {
    if !HasBearerPrefix(header) then
      Failure(HttpError(Unauthorized, NoTokenProvided))
    else
      var h := header.value;
      assert h[6] == ' ' && forall k :: 0 <= k < 6 ==> h[k] != ' ';
      var parts := SplitOnce(h, ' ');
      assert |parts[0]| == 6;
      assert h == h[..7] + parts[1];
      Success(parts[1])
  }

  /**
   * Lines 24-46: the whole check. It fails with 401 "no token provided"
   * before any decoding, 401 "invalid token" when the token does not
   * decode, 401 "invalid token payload" when the subject is missing or
   * empty, and otherwise yields the subject and the (optional) email.
   */
  function GetCurrentUser(header: Option<string>, decode: string -> Option<Payload>): (r: Result<CurrentUser, HttpError>)
    ensures !HasBearerPrefix(header) ==> r == Failure(HttpError(Unauthorized, NoTokenProvided))
    ensures HasBearerPrefix(header) ==>
      var claims := decode(header.value[|BearerPrefix|..]);
      && (claims.None? ==> r == Failure(HttpError(Unauthorized, InvalidToken)))
      && (claims.Some? && (claims.value.sub.None? || claims.value.sub.value == "") ==>
            r == Failure(HttpError(Unauthorized, InvalidTokenPayload)))
      && (claims.Some? && claims.value.sub.Some? && claims.value.sub.value != "" ==>
            r == Success(CurrentUser(claims.value.sub.value, claims.value.email)))
    ensures r.Success? ==> r.value.id != ""
  {
    match ExtractToken(header)
    case Failure(e) => Failure(e)
    case Success(token) =>
      assert token == header.value[|BearerPrefix|..];
      match decode(token)
      case None => Failure(HttpError(Unauthorized, InvalidToken))
      case Some(payload) =>
        if payload.sub.None? || payload.sub.value == "" then
          Failure(HttpError(Unauthorized, InvalidTokenPayload))
        else
          Success(CurrentUser(payload.sub.value, payload.email))
  }
}
