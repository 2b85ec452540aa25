// The helpers the auth flows share (lib/helper/authHandler.ts): generating
// and storing an OTP for a user, issuing the access/refresh token pair and
// persisting the refresh token, and the bcrypt wrappers. The clock reading,
// the random draw and the key material are parameters.
module AuthHandler {
  import opened Wrappers
  import opened Decimal
  import opened Strings
  import opened Json
  import opened CustomError
  import opened Common
  import opened Crypto
  import opened Tables
  import opened AuthService
  import Roles

  // ---------------------------------------------------------------- OTP generation

  /** What `HandleOtpGeneration` resolves to: the signed message and the code inside it. */
  datatype GeneratedOtp = GeneratedOtp(message: string, code: nat)

  /** `${user.email}|${timestamp}|${otpCode}`. */
  function OtpMessage(email: Json, timestamp: string, code: nat): string
  {
    ToText(email) + "|" + timestamp + "|" + NatToString(code)
  }

  /** The OTP generated for `user` at the wall-clock reading `wall` with the draw `random`. */
  function OtpFor(user: Json, wall: DateTime, random: real): (g: GeneratedOtp)
    requires 0.0 <= random < 1.0
    ensures 100000 <= g.code <= 999999
  {
    SixDigits();
    var code := GenerateRandomNumber(6, random);
    GeneratedOtp(OtpMessage(Member(user, "email"), GetTimestamp(wall), code), code)
  }

  lemma SixDigits()
    ensures Pow10(5) == 100000 && Pow10(6) == 1000000
  {
    Pow10Small();
    assert Pow10(5) == 10 * Pow10(4);
    assert Pow10(6) == 10 * Pow10(5);
  }

  /** The row `StoreOtp` is asked to keep for a generated OTP; `kind` is the `type` tag, if any. */
  function OtpRecord(user: Json, g: GeneratedOtp, kind: Option<string>): (dto: OtpDto)
    ensures dto.userId == Member(user, "id") && dto.data == g.message && dto.code == g.code && dto.kind == kind
  {
    OtpDto(Member(user, "id"), g.message, g.code, kind)
  }

  /**
   * The generated message reads back into its three fields: the e-mail that
   * `verifyOtp` and `resendOtp` look the user up by, the timestamp `resendOtp`
   * measures the cooldown from, and the six digits of the code.
   */
  lemma OtpMessageFields(user: Json, wall: DateTime, random: real)
    requires 0.0 <= random < 1.0
    requires '|' !in ToText(Member(user, "email"))
    ensures var g := OtpFor(user, wall, random);
            var fields := Split(g.message, '|');
            && fields == [ToText(Member(user, "email")), GetTimestamp(wall), NatToString(g.code)]
            && FirstField(g.message, '|') == ToText(Member(user, "email"))
            && |fields[2]| == 6 && AllDigits(fields[2])
            && (ValidDateTime(wall) ==> ConvertTimestampToDayjs(fields[1]) == Some(wall))
  {
    var g := OtpFor(user, wall, random);
    var email, timestamp, digits := ToText(Member(user, "email")), GetTimestamp(wall), NatToString(g.code);
    TimestampHasNoBar(wall);
    NoBarInDigits(digits);
    assert Join([email, timestamp, digits], "|") == email + "|" + Join([timestamp, digits], "|");
    assert Join([timestamp, digits], "|") == timestamp + "|" + Join([digits], "|");
    assert g.message == Join([email, timestamp, digits], ['|']);
    SplitJoin([email, timestamp, digits], '|');
    if ValidDateTime(wall) {
      TimestampRoundTrip(wall);
    }
  }

  lemma NoBarInDigits(s: string)
    requires AllDigits(s)
    ensures '|' !in s
  {
  }

  /**
   * `HandleOtpGeneration(user, authService, type)`: builds the message,
   * stores exactly one OTP for it (under the user's id, with the code and the
   * tag) and hands back what it stored.
   */
  method HandleOtpGeneration(user: Json, auth: AuthService, kind: string, wall: DateTime, now: int, random: real)
    returns (g: GeneratedOtp)
    requires 0.0 <= random < 1.0 && auth.db.Valid()
    modifies auth.db
    ensures auth.db.Valid()
    ensures g == OtpFor(user, wall, random)
    ensures auth.db.State() == StoreOtpStep(old(auth.db.State()), OtpRecord(user, g, Some(kind)), now)
  {
    var timestamp := GetTimestamp(wall);
    SixDigits();
    var code := GenerateRandomNumber(6, random);
    var message := OtpMessage(Member(user, "email"), timestamp, code);
    g := GeneratedOtp(message, code);
    auth.StoreOtp(OtpDto(Member(user, "id"), message, code, Some(kind)), now);
  }

  /**
   * The OTP just generated is the one the store keeps for its message: the
   * code handed back is the code `GetOtp` then accepts for it, and nothing
   * but the OTP table changes.
   */
  lemma GeneratedOtpStored(s: Snapshot, user: Json, wall: DateTime, random: real, kind: Option<string>, now: int)
    requires 0.0 <= random < 1.0 && ValidSnapshot(s)
    ensures var g := OtpFor(user, wall, random);
            var t := StoreOtpStep(s, OtpRecord(user, g, kind), now);
            var found := GetOtpResult(t.otps, g.message, Some(g.code));
            && ValidSnapshot(t)
            && t.users == s.users && t.userData == s.userData && t.roles == s.roles && t.tokens == s.tokens
            && found.Ok? && found.value.code == g.code && found.value.data == g.message && found.value.createdAt == now
            && (FindOtp(s.otps, g.message, None).None? ==>
                  t.otps == s.otps + [OtpRow(s.nextOtpId, Member(user, "id"), g.message, g.code, None, now)])
  {
    var g := OtpFor(user, wall, random);
    StoreOtpUpsert(s, OtpRecord(user, g, kind), now);
    StoreOtpThenGet(s, OtpRecord(user, g, kind), now);
  }

  // ---------------------------------------------------------------- tokens

  /** `null` or `undefined`: the values whose property reads throw. */
  predicate Nullish(j: Json)
  {
    j.JUndefined? || j.JNull?
  }

  /** The `TypeError` a property read on `null` or `undefined` throws. */
  function ReadOfNullish(j: Json, property: string): Thrown
  {
    Plain(Cause("TypeError", "Cannot read properties of " + (if j.JNull? then "null" else "undefined")
                             + " (reading '" + property + "')"))
  }

  /**
   * The claims `generateTokenJWT` signs: the user's id and e-mail, the
   * profile's name, the role's name and the role's permissions summarised by
   * `TransformPermissionsAsync`, which throws on permissions it cannot read.
   * The reads run in that order, so a missing user, profile or role throws
   * at the first of them.
   */
  function UserClaims(user: Json): (r: Outcome<Claims>)
    ensures r.Fail? <==>
              || Nullish(user) || Nullish(Member(user, "user_data")) || Nullish(Member(user, "role"))
              || Roles.TransformPermissions(Member(Member(user, "role"), "permissions")).None?
    ensures Nullish(user) ==> r == Fail(ReadOfNullish(user, "id"))
    ensures !Nullish(user) && Nullish(Member(user, "user_data")) ==>
              r == Fail(ReadOfNullish(Member(user, "user_data"), "name"))
    ensures r.Ok? ==>
              && r.value.id == Member(user, "id") && r.value.email == Member(user, "email")
              && r.value.name == Member(Member(user, "user_data"), "name")
              && r.value.role == Member(Member(user, "role"), "name")
              && r.value.permissions ==
                   Roles.PermissionToJson(Roles.TransformPermissions(Member(Member(user, "role"), "permissions")).value)
  {
    if Nullish(user) then Fail(ReadOfNullish(user, "id"))
    else if Nullish(Member(user, "user_data")) then Fail(ReadOfNullish(Member(user, "user_data"), "name"))
    else if Nullish(Member(user, "role")) then Fail(ReadOfNullish(Member(user, "role"), "name"))
    else
      match Roles.TransformPermissions(Member(Member(user, "role"), "permissions"))
      case None => Fail(Plain(Cause("TypeError", "Cannot convert undefined or null to object")))
      case Some(p) =>
        Ok(Claims(Member(user, "id"), Member(user, "email"), Member(Member(user, "user_data"), "name"),
                  Member(Member(user, "role"), "name"), Roles.PermissionToJson(p)))
  }

  /** The object `generateTokenJWT` resolves to. */
  function TokenUser(access: string, refresh: string, c: Claims, username: Json, accessTtl: int): Json
  {
    JObj([Prop("access_token", JStr(access)),
          Prop("refresh_token", JStr(refresh)),
          Prop("data", JObj([Prop("name", c.name), Prop("email", c.email), Prop("username", username)])),
          Prop("expired_in", JNum(accessTtl))])
  }

  /**
   * `generateTokenJWT(user, authService)`: both tokens signed over the same
   * claims, and the refresh token stored under the claims' id with no ip.
   */
  function GenerateTokenStep(s: Snapshot, keys: JwtKeys, accessTtl: int, user: Json): Effect<Json>
  {
    match UserClaims(user)
    case Fail(e) => Effect(Fail(e), s)
    case Ok(c) =>
      var access := keys.sign(c, false);
      var refresh := keys.sign(c, true);
      Effect(Ok(TokenUser(access, refresh, c, Member(user, "username"), accessTtl)),
             StoreRefreshTokenStep(s, c.id, refresh, None))
  }

  /**
   * Issuing tokens stores exactly one refresh row for the user's id, carrying
   * the refresh token and no ip, that the refresh lookup then finds; only the
   * token table changes. The result carries the access token, the refresh
   * token, the name, e-mail and username, and the access lifetime.
   */
  lemma GenerateTokenIssues(s: Snapshot, keys: JwtKeys, accessTtl: int, user: Json)
    requires ValidSnapshot(s)
    ensures var r := GenerateTokenStep(s, keys, accessTtl, user);
            && ValidSnapshot(r.state)
            && r.state.users == s.users && r.state.userData == s.userData && r.state.roles == s.roles
            && r.state.otps == s.otps && r.state.nextOtpId == s.nextOtpId
            && (r.result.Fail? <==> UserClaims(user).Fail?)
            && (r.result.Fail? ==> r.state == s)
            && (r.result.Ok? ==>
                  var c := UserClaims(user).value;
                  var refresh := keys.sign(c, true);
                  var t := r.state.tokens;
                  && r.result.value.JObj?
                  && Get(r.result.value.props, "access_token") == JStr(keys.sign(c, false))
                  && Get(r.result.value.props, "refresh_token") == JStr(refresh)
                  && Get(r.result.value.props, "expired_in") == JNum(accessTtl)
                  && Get(r.result.value.props, "data") ==
                       JObj([Prop("name", Member(Member(user, "user_data"), "name")),
                             Prop("email", Member(user, "email")), Prop("username", Member(user, "username"))])
                  && (forall j :: 0 <= j < |t| && SqlEquals(t[j].userId, Member(user, "id")) ==>
                        t[j].token == refresh && t[j].ip.None?)
                  && (forall j :: 0 <= j < |s.tokens| && !SqlEquals(s.tokens[j].userId, Member(user, "id")) ==>
                        t[j] == s.tokens[j])
                  && TokenLookup(t, refresh, None).Some?)
  {
    match UserClaims(user)
    case Fail(_) =>
    case Ok(c) =>
      StoreRefreshTokenOneRow(s, c.id, keys.sign(c, true), None);
      var o := TokenUser(keys.sign(c, false), keys.sign(c, true), c, Member(user, "username"), accessTtl);
      TokenUserFields(keys.sign(c, false), keys.sign(c, true), c, Member(user, "username"), accessTtl);
  }

  lemma TokenUserFields(access: string, refresh: string, c: Claims, username: Json, accessTtl: int)
    ensures var o := TokenUser(access, refresh, c, username, accessTtl).props;
            && Get(o, "access_token") == JStr(access) && Get(o, "refresh_token") == JStr(refresh)
            && Get(o, "data") == JObj([Prop("name", c.name), Prop("email", c.email), Prop("username", username)])
            && Get(o, "expired_in") == JNum(accessTtl)
  {
    var o := TokenUser(access, refresh, c, username, accessTtl).props;
    assert Get(o[1..], "refresh_token") == JStr(refresh);
    assert Get(o[2..], "data") == JObj([Prop("name", c.name), Prop("email", c.email), Prop("username", username)]);
    assert Get(o[3..], "expired_in") == JNum(accessTtl);
    assert Get(o[2..], "expired_in") == Get(o[3..], "expired_in");
    assert Get(o[1..], "expired_in") == Get(o[2..], "expired_in");
  }

  /** `generateTokenJWT(user, authService)`, over the service's tables. */
  method GenerateTokenJWT(user: Json, auth: AuthService, keys: JwtKeys, accessTtl: int)
    returns (r: Outcome<Json>)
    requires auth.db.Valid()
    modifies auth.db
    ensures auth.db.Valid()
    ensures r == GenerateTokenStep(old(auth.db.State()), keys, accessTtl, user).result
    ensures auth.db.State() == GenerateTokenStep(old(auth.db.State()), keys, accessTtl, user).state
  {
    var claims := UserClaims(user);
    if claims.Fail? {
      return Fail(claims.error);
    }
    var c := claims.value;
    var access := keys.sign(c, false);
    var refresh := keys.sign(c, true);
    auth.StoreRefreshToken(c.id, refresh, None);
    r := Ok(TokenUser(access, refresh, c, Member(user, "username"), accessTtl));
  }

  // ---------------------------------------------------------------- passwords

  /**
   * `VerifyPassword(plain, hashed)`: bcrypt's comparison; bcrypt throws on
   * anything but two strings, which surfaces as "Password verification failed".
   */
  function VerifyPassword(b: Bcrypt, plain: Json, hashed: Json): (r: Outcome<bool>)
    ensures r.Ok? <==> plain.JStr? && hashed.JStr?
    ensures r.Ok? ==> r.value == b.compare(plain.s, hashed.s)
    ensures r.Fail? ==> r.error == Plain(Cause("Error", "Password verification failed"))
  {
    if plain.JStr? && hashed.JStr? then Ok(b.compare(plain.s, hashed.s))
    else Fail(Plain(Cause("Error", "Password verification failed")))
  }
}
