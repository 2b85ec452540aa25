// The cryptographic collaborators of the auth flows, kept abstract: the RSA
// message codec behind signatures (lib/auth/signature.ts), the JWT signer and
// verifier (lib/auth/token.ts), and bcrypt. Each is a value of functions, so
// a flow is correct for every choice of keys; the only law assumed is the one
// a flow relies on, stated as a predicate its callers can require.
module Crypto {
  import opened Wrappers
  import opened Json
  import opened CustomError

  /** What `DecryptMessage` gives: the plain text, or the error `privateDecrypt` throws. */
  datatype DecryptResult = Decrypted(text: string) | DecryptFailed(cause: Cause)

  /** `EncryptMessage` / `DecryptMessage` under the server's RSA key pair. */
  datatype Codec = Codec(encrypt: string -> string, decrypt: string -> DecryptResult)

  /** Decrypting what was encrypted gives the message back. */
  ghost predicate RoundTrips(c: Codec)
  {
    forall m :: c.decrypt(c.encrypt(m)) == Decrypted(m)
  }

  /** `await DecryptMessage(s)`. */
  function DecryptMessage(c: Codec, s: string): (r: Outcome<string>)
    ensures r.Ok? <==> c.decrypt(s).Decrypted?
    ensures r.Ok? ==> r.value == c.decrypt(s).text
    ensures r.Fail? ==> r.error == Plain(c.decrypt(s).cause)
  {
    match c.decrypt(s)
    case Decrypted(t) => Ok(t)
    case DecryptFailed(e) => Fail(Plain(e))
  }

  /** A signature the server issued decrypts to the message it was issued for. */
  lemma DecryptIssued(c: Codec, m: string)
    requires RoundTrips(c)
    ensures DecryptMessage(c, c.encrypt(m)) == Ok(m)
  {
  }

  /** The claims `TokenJwtGenerator` signs (it adds the two locale-formatted dates itself). */
  datatype Claims = Claims(id: Json, email: Json, name: Json, role: Json, permissions: Json)

  /** `TokenData`: the seven claims `TokenJwtVerification` reads back out of a token. */
  datatype TokenData = TokenData(id: Json, email: Json, name: Json, role: Json, permissions: Json,
                                 date: Json, expired: Json)

  /** What `jwt.verify` gives: the decoded claims, or the error it throws. */
  datatype VerifyResult = Verified(data: TokenData) | VerifyFailed(cause: Cause)

  /**
   * `TokenJwtGenerator` and `jwt.verify` under the access secret
   * (`isRefresh` false) or the refresh secret (`isRefresh` true); each
   * secret comes with its own lifetime.
   */
  datatype JwtKeys = JwtKeys(sign: (Claims, bool) -> string, verify: (string, bool) -> VerifyResult)

  /** The claims of a decoded token, as `TokenJwtGenerator` picks them when it re-signs it. */
  function ClaimsOf(t: TokenData): (c: Claims)
    ensures c.id == t.id && c.email == t.email && c.name == t.name && c.role == t.role
    ensures c.permissions == t.permissions
  {
    Claims(t.id, t.email, t.name, t.role, t.permissions)
  }

  /**
   * `TokenJwtVerification(token, isRefresh)`: the claims of a token that
   * verifies; otherwise a 401 carrying the verifier's error.
   */
  function TokenJwtVerification(keys: JwtKeys, token: string, isRefresh: bool): (r: Outcome<TokenData>)
    ensures keys.verify(token, isRefresh).Verified? ==> r == Ok(keys.verify(token, isRefresh).data)
    ensures keys.verify(token, isRefresh).VerifyFailed? ==>
              && r.Fail? && r.error.Http?
              && r.error.ex.code == 401 && r.error.ex.customCode == 401
              && r.error.ex.message == "There is something wrong when verify token"
              && r.error.ex.detail == Some(keys.verify(token, isRefresh).cause)
  {
    match keys.verify(token, isRefresh)
    case Verified(d) => Ok(d)
    case VerifyFailed(e) => Fail(Http(NewHttpException("There is something wrong when verify token", 401, Some(e))))
  }

  /** bcrypt's `hash` (with a salt of ten rounds) and `compare`. */
  datatype Bcrypt = Bcrypt(hash: string -> string, compare: (string, string) -> bool)
}
