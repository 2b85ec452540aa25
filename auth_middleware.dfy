// The access-token gate in front of every route (app/middleware/auth.ts):
// open routes pass, every other request needs `Authorization: Bearer <jwt>`
// with a token the access secret verifies, whose claims are then copied onto
// the request.
module AuthMiddleware {
  import opened Wrappers
  import opened Strings
  import opened CustomError
  import opened Crypto

  /** The nine auth routes under `prefix` that need no token. */
  function OpenRoutes(prefix: string): (routes: seq<string>)
    ensures |routes| == 9
    ensures forall i :: 0 <= i < |routes| ==> |routes[i]| > |prefix| + 6 && routes[i][..|prefix| + 6] == prefix + "/auth/"
  {
    [ prefix + "/auth/sign-in",
      prefix + "/auth/sign-up",
      prefix + "/auth/setup-pin",
      prefix + "/auth/refresh-token",
      prefix + "/auth/forgot-password",
      prefix + "/auth/verify-otp",
      prefix + "/auth/resend-otp",
      prefix + "/auth/reset-password",
      prefix + "/auth/logout" ]
  }

  /** A path the gate lets through without looking at the header. */
  predicate IsOpenRoute(prefix: string, path: string)
  {
    path in OpenRoutes(prefix) || Contains(path, "/files/images") || Contains(path, "/favicon.ico")
  }

  /** The token of a header whose split on single spaces is exactly `["Bearer", token]`. */
  function ParseBearer(header: string): Option<string>
  {
    var parts := Split(header, ' ');
    if |parts| == 2 && parts[0] == "Bearer" then Some(parts[1]) else None
  }

  /** A header parses exactly when it is "Bearer", one space, and a token without spaces. */
  lemma ParseBearerExact(header: string, token: string)
    ensures ParseBearer(header) == Some(token) <==> header == "Bearer " + token && ' ' !in token
  {
    if header == "Bearer " + token && ' ' !in token {
      assert "Bearer " + token == "Bearer" + [' '] + token;
      SplitJoin(["Bearer", token], ' ');
      assert Join(["Bearer", token], " ") == "Bearer" + " " + Join([token], " ");
    }
    if ParseBearer(header) == Some(token) {
      var parts := Split(header, ' ');
      JoinSplit(header, ' ');
      assert parts == ["Bearer", token];
      assert Join(parts, " ") == "Bearer" + " " + Join([token], " ");
    }
  }

  /** What the gate does with a request. */
  datatype Gate =
    | Pass
    | Authenticated(identity: TokenData)
    | Rejected(error: Thrown)

  /**
   * `VerifyJwtToken(prefix)` on a request for `path` carrying the
   * `Authorization` header `header` (`None` when it is missing).
   */
  function VerifyJwtToken(keys: JwtKeys, prefix: string, path: string, header: Option<string>): (g: Gate)
    ensures IsOpenRoute(prefix, path) ==> g == Pass
    ensures !IsOpenRoute(prefix, path) && (header.None? || header == Some("")) ==>
              g == Rejected(Throw("Authorization not found", 401))
    ensures !IsOpenRoute(prefix, path) && header.Some? && header.value != "" && ParseBearer(header.value).None? ==>
              g == Rejected(Throw("Invalid token", 401))
    ensures !IsOpenRoute(prefix, path) && header.Some? && ParseBearer(header.value).Some? ==>
              var verified := keys.verify(ParseBearer(header.value).value, false);
              && (verified.Verified? ==> g == Authenticated(verified.data))
              && (verified.VerifyFailed? ==> g.Rejected? && g.error.Http? && g.error.ex.code == 401)
  {
    if IsOpenRoute(prefix, path) then Pass
    else if header.None? || header.value == "" then Rejected(Throw("Authorization not found", 401))
    else match ParseBearer(header.value)
      case None => Rejected(Throw("Invalid token", 401))
      case Some(token) =>
        match TokenJwtVerification(keys, token, false)
        case Ok(metadata) =>
          Authenticated(TokenData(metadata.id, metadata.email, metadata.name, metadata.role,
                                  metadata.permissions, metadata.date, metadata.expired))
        case Fail(e) => Rejected(e)
  }
}
