// The nine auth routes (app/module/auth/auth.controller.ts). Each route is a
// step from the tables and the request to the answer handed to
// `ResponseSuccessBuilder` (or the error handed to `next`) and the tables it
// leaves; `AuthController` carries the steps out in place through the user
// and auth services. The codec, keys, bcrypt, lifetimes and clock are
// parameters; the request body is the parsed JSON the validator let through.
module AuthController {
  import opened Wrappers
  import opened Decimal
  import opened Strings
  import opened Json
  import opened CustomError
  import opened Common
  import opened Crypto
  import opened Response
  import opened Tables
  import opened AuthDto
  import opened AuthService
  import opened UsersService
  import opened RegisterHandler
  import opened AuthHandler

  /**
   * The process configuration: the RSA codec, the JWT keys, bcrypt,
   * `EXPIRY_OTP_IN_SECOND`, `JWT_ACCESS_TOKEN_EXP`, and `secondsAt`, the
   * instant (in seconds) at which dayjs places a parsed timestamp.
   */
  datatype Env = Env(codec: Codec, keys: JwtKeys, bcrypt: Bcrypt, otpTtl: int, accessTtl: int,
                     secondsAt: DateTime -> int)

  /**
   * What one request draws from the outside world: the wall-clock reading
   * `GetTimestamp` formats, the current instant in seconds, `Math.random()`,
   * and the uuid a new profile row would get.
   */
  datatype Moment = Moment(wall: DateTime, now: int, random: real, dataId: string)

  predicate ValidMoment(m: Moment)
  {
    0.0 <= m.random < 1.0
  }

  /** A body `express.json` produced: an object, whose keys `JSON.parse` never repeats. */
  predicate ParsedBody(body: Json)
  {
    body.JObj? && UniqueKeys(body.props)
  }

  const Unregistered: Thrown := Throw("Your email is not registered", 401)
  const NeedsPin: string := "You need to setup a PIN first before use your account"
  const OtpVerified: string := "Berhasil memverifikasi kode OTP"

  /** `GetUserByParams({email})`. */
  function EmailLookup(s: Snapshot, email: Json): Outcome<Option<Json>>
  {
    GetUserByParamsResult(s, JObj([Prop("email", email)]), false)
  }

  /** `{signature: EncryptMessage(message)}`. */
  function Signed(c: Codec, message: string): Json
  {
    JObj([Prop("signature", JStr(c.encrypt(message)))])
  }

  /** `${user.email}|${timestamp}`, the message of a sign-up or OTP signature. */
  function EmailStamp(user: Json, wall: DateTime): string
  {
    ToText(Member(user, "email")) + "|" + GetTimestamp(wall)
  }

  /** A token object answered with `code` and `message`, or the error that stopped it. */
  function Issued(e: Effect<Json>, code: nat, message: string): (r: Effect<Answer>)
    ensures r.state == e.state
    ensures e.result.Fail? ==> r.result == Fail(e.result.error)
    ensures e.result.Ok? ==> r.result == Ok(Answer(code, message, e.result.value))
  {
    match e.result
    case Fail(x) => Effect(Fail(x), e.state)
    case Ok(t) => Effect(Ok(Answer(code, message, t)), e.state)
  }

  // ---------------------------------------------------------------- signIn

  /** The type-0 password check of `signIn`. */
  function PasswordCheck(b: Bcrypt, body: Json, user: Json): Outcome<()>
  {
    if StrictEquals(Member(body, "type"), JNum(0)) then
      if !Truthy(Member(body, "password")) then Fail(Throw("Password is required for type 0 login", 400))
      else match VerifyPassword(b, Member(body, "password"), Member(user, "password"))
        case Fail(e) => Fail(e)
        case Ok(valid) => if valid then Ok(()) else Fail(Throw("Invalid password", 401))
    else Ok(())
  }

  function SignInStep(s: Snapshot, env: Env, body: Json): Effect<Answer>
  {
    SignInFound(s, env, body, EmailLookup(s, Member(body, "email")))
  }

  /** `signIn` once `GetUserByParams({email})` has given `found`. */
  function SignInFound(s: Snapshot, env: Env, body: Json, found: Outcome<Option<Json>>): Effect<Answer>
  {
    match found
    case Fail(e) => Effect(Fail(e), s)
    case Ok(None) => Effect(Fail(Unregistered), s)
    case Ok(Some(user)) =>
      match PasswordCheck(env.bcrypt, body, user)
      case Fail(e) => Effect(Fail(e), s)
      case Ok(_) =>
        if !Truthy(Member(user, "pin")) then
          Effect(Ok(Answer(202001, NeedsPin, Signed(env.codec, ToText(Member(user, "email"))))), s)
        else Issued(GenerateTokenStep(s, env.keys, env.accessTtl, user), 200, "Success")
  }

  /** An unknown e-mail is a 401 and changes nothing. */
  lemma SignInUnknown(s: Snapshot, env: Env, body: Json)
    requires !IsObjectLike(Member(body, "email"))
    requires FindRow(s.users, "email", Member(body, "email")).None?
    ensures SignInStep(s, env, body) == Effect(Fail(Unregistered), s)
  {
    LookupByEmail(s, Member(body, "email"));
  }

  /**
   * For a registered user, type 0 needs a password (400) that bcrypt accepts
   * against the stored hash (401); other types skip the check. Neither
   * error changes anything.
   */
  lemma SignInPasswordErrors(s: Snapshot, env: Env, body: Json, user: Json)
    ensures var r := SignInFound(s, env, body, Ok(Some(user)));
            && (StrictEquals(Member(body, "type"), JNum(0)) && !Truthy(Member(body, "password")) ==>
                  r == Effect(Fail(Throw("Password is required for type 0 login", 400)), s))
            && (StrictEquals(Member(body, "type"), JNum(0)) && Member(body, "password").JStr? &&
                Member(body, "password").s != "" && Member(user, "password").JStr? &&
                !env.bcrypt.compare(Member(body, "password").s, Member(user, "password").s) ==>
                  r == Effect(Fail(Throw("Invalid password", 401)), s))
            && (!StrictEquals(Member(body, "type"), JNum(0)) ==> PasswordCheck(env.bcrypt, body, user) == Ok(()))
  {
  }

  /**
   * A user without a PIN gets the 202001 answer carrying a signature of the
   * bare e-mail, which decrypts back to it; no token is issued and nothing
   * is stored.
   */
  lemma SignInNeedsPin(s: Snapshot, env: Env, body: Json, user: Json)
    requires PasswordCheck(env.bcrypt, body, user).Ok? && !Truthy(Member(user, "pin"))
    ensures var r := SignInFound(s, env, body, Ok(Some(user)));
            && r.state == s
            && r.result == Ok(Answer(202001, NeedsPin, Signed(env.codec, ToText(Member(user, "email")))))
            && (RoundTrips(env.codec) ==>
                  DecryptMessage(env.codec, env.codec.encrypt(ToText(Member(user, "email")))) == Ok(ToText(Member(user, "email"))))
  {
  }

  /**
   * `signIn` never touches the user, profile, role or OTP tables; a 200
   * answer has stored a refresh row for the user that the refresh lookup
   * finds, and any other outcome stores nothing.
   */
  lemma SignInOnlyStoresRefresh(s: Snapshot, env: Env, body: Json, found: Outcome<Option<Json>>)
    requires ValidSnapshot(s)
    ensures var r := SignInFound(s, env, body, found);
            && ValidSnapshot(r.state)
            && r.state.users == s.users && r.state.userData == s.userData && r.state.roles == s.roles
            && r.state.otps == s.otps
            && (r.result.Fail? || r.result.value.code != 200 ==> r.state == s)
            && (r.result.Ok? && r.result.value.code == 200 ==>
                  r.result.value.data.JObj? && Get(r.result.value.data.props, "refresh_token").JStr? &&
                  TokenLookup(r.state.tokens, Get(r.result.value.data.props, "refresh_token").s, None).Some?)
  {
    if found.Ok? && found.value.Some? {
      var user := found.value.value;
      if PasswordCheck(env.bcrypt, body, user).Ok? && Truthy(Member(user, "pin")) {
        var e := GenerateTokenStep(s, env.keys, env.accessTtl, user);
        GenerateTokenIssues(s, env.keys, env.accessTtl, user);
        assert SignInFound(s, env, body, found) == Issued(e, 200, "Success");
      }
    }
  }

  // ---------------------------------------------------------------- signUp

  /** `GetUserByParams({email, user_data: {phone}}, "OR")`. */
  function SignUpParams(body: Json): Json
  {
    JObj([Prop("email", Member(body, "email")), Prop("user_data", JObj([Prop("phone", Member(body, "phone"))]))])
  }

  /** `${registeredField}`: the field's name, or `null`. */
  function FieldText(f: Option<string>): string
  {
    match f
    case Some(k) => k
    case None => "null"
  }

  /** The first role whose `is_default` is set, as `GetDefaultRole` finds it. */
  function DefaultRole(roles: seq<Role>): (r: Option<nat>)
    ensures r.Some? ==> r.value < |roles| && roles[r.value].isDefault && forall j :: 0 <= j < r.value ==> !roles[j].isDefault
    ensures r.None? ==> forall j :: 0 <= j < |roles| ==> !roles[j].isDefault
  {
    if roles == [] then None
    else if roles[0].isDefault then Some(0)
    else match DefaultRole(roles[1..])
      case None => None
      case Some(i) => Some(i + 1)
  }

  /** `{...payload, role_id}`, with the password replaced by its hash for type 0. */
  function SignUpData(body: Json, hashed: Option<string>, roleId: Json): Object
    requires body.JObj?
  {
    var payload := if hashed.Some? then Set(body.props, "password", JStr(hashed.value)) else body.props;
    Set(payload, "role_id", roleId)
  }

  /**
   * The sign-up payload keeps the body's properties, carries the default
   * role's id and, for type 0, the hash in place of the password; its keys
   * stay unique.
   */
  lemma SignUpDataFields(body: Json, hashed: Option<string>, roleId: Json, k: string)
    requires ParsedBody(body)
    ensures var d := SignUpData(body, hashed, roleId);
            && UniqueKeys(d)
            && Get(d, k) == if k == "role_id" then roleId
                            else if k == "password" && hashed.Some? then JStr(hashed.value)
                            else Member(body, k)
  {
    var payload := if hashed.Some? then Set(body.props, "password", JStr(hashed.value)) else body.props;
    if hashed.Some? {
      SetUnique(body.props, "password", JStr(hashed.value));
      GetSet(body.props, "password", JStr(hashed.value), k);
    }
    SetUnique(payload, "role_id", roleId);
    GetSet(payload, "role_id", roleId, k);
  }

  function SignUpStep(s: Snapshot, env: Env, body: Json, wall: DateTime, g: CreateDraws): Effect<Answer>
    requires ParsedBody(body) && ValidSignIn(body) && ValidDraws(g)
  {
    if StrictEquals(Member(body, "type"), JNum(0)) && !Truthy(Member(body, "password")) then
      Effect(Fail(Throw("Password is required for type 0", 400)), s)
    else SignUpFound(s, env, body, wall, g, GetUserByParamsResult(s, SignUpParams(body), true))
  }

  /** `signUp` once the e-mail-or-phone lookup has given `taken`. */
  function SignUpFound(s: Snapshot, env: Env, body: Json, wall: DateTime, g: CreateDraws,
                       taken: Outcome<Option<Json>>): Effect<Answer>
    requires ParsedBody(body) && ValidSignIn(body) && ValidDraws(g)
    requires StrictEquals(Member(body, "type"), JNum(0)) ==> Truthy(Member(body, "password"))
  {
    match taken
    case Fail(e) => Effect(Fail(e), s)
    case Ok(Some(checkUser)) =>
      var field := RegisteredField(checkUser, body, ["email", "user_data.phone"]);
      Effect(Fail(Throw(FieldText(field) + " already registered", 400)), s)
    case Ok(None) =>
      match DefaultRole(s.roles)
      case None => Effect(Fail(Throw("Default role not found", 500)), s)
      case Some(i) =>
        var hashed := if StrictEquals(Member(body, "type"), JNum(0))
                      then Some(env.bcrypt.hash(Member(body, "password").s)) else None;
        SignUpDataFields(body, hashed, s.roles[i].id, "email");
        SignUpAnswer(env, wall, CreateStep(s, SignUpData(body, hashed, s.roles[i].id), g))
  }

  /** The sign-up answer once `Create` has returned the saved user (or `null`). */
  function SignUpAnswer(env: Env, wall: DateTime, created: Effect<Option<Json>>): (r: Effect<Answer>)
    ensures r.state == created.state
  {
    match created.result
    case Fail(e) => Effect(Fail(e), created.state)
    case Ok(None) => Effect(Fail(Plain(Cause("TypeError", "Cannot read properties of null (reading 'email')"))), created.state)
    case Ok(Some(user)) =>
      Effect(Ok(Answer(201, "Success register the user", Signed(env.codec, EmailStamp(user, wall)))), created.state)
  }

  /**
   * A user matching the e-mail OR the phone blocks the sign-up with a 400
   * naming the matching field, whatever that user's status, and nothing
   * changes.
   */
  lemma SignUpTaken(s: Snapshot, env: Env, body: Json, wall: DateTime, g: CreateDraws, i: nat)
    requires ParsedBody(body) && ValidSignIn(body) && ValidDraws(g)
    requires !IsObjectLike(Member(body, "phone"))
    requires !(StrictEquals(Member(body, "type"), JNum(0)) && !Truthy(Member(body, "password")))
    requires i < |s.users| && EmailOrPhone(s, s.users[i], Member(body, "email"), Member(body, "phone"))
    requires forall j :: 0 <= j < i ==> !EmailOrPhone(s, s.users[j], Member(body, "email"), Member(body, "phone"))
    ensures var r := SignUpStep(s, env, body, wall, g);
            && r.state == s && r.result.Fail?
            && (UserView(s, s.users[i]).Ok? ==>
                  r.result.error ==
                    Throw(FieldText(RegisteredField(UserView(s, s.users[i]).value, body, ["email", "user_data.phone"]))
                          + " already registered", 400))
  {
    SignUpLookup(s, Member(body, "email"), Member(body, "phone"));
  }

  /**
   * A sign-up stores no OTP and no refresh token: it only writes the user
   * and profile tables (through `Create`), and a success answers 201 with
   * a signature of `email|timestamp` for the saved user.
   */
  lemma SignUpNoOtp(s: Snapshot, env: Env, body: Json, wall: DateTime, g: CreateDraws, taken: Outcome<Option<Json>>)
    requires ParsedBody(body) && ValidSignIn(body) && ValidDraws(g)
    requires StrictEquals(Member(body, "type"), JNum(0)) ==> Truthy(Member(body, "password"))
    ensures var r := SignUpFound(s, env, body, wall, g, taken);
            && r.state.otps == s.otps && r.state.tokens == s.tokens && r.state.roles == s.roles
            && r.state.nextOtpId == s.nextOtpId
            && (r.result.Ok? ==>
                  && taken == Ok(None)
                  && DefaultRole(s.roles).Some?
                  && r.result.value.code == 201 && r.result.value.message == "Success register the user"
                  && exists user :: r.result.value.data == Signed(env.codec, EmailStamp(user, wall)))
  {
    if taken == Ok(None) && DefaultRole(s.roles).Some? {
      var i := DefaultRole(s.roles).value;
      var hashed := if StrictEquals(Member(body, "type"), JNum(0))
                    then Some(env.bcrypt.hash(Member(body, "password").s)) else None;
      SignUpDataFields(body, hashed, s.roles[i].id, "email");
      var data := SignUpData(body, hashed, s.roles[i].id);
      var created := CreateOnlyUsers(s, data, g);
      SignUpAnswered(env, wall, created);
      assert SignUpFound(s, env, body, wall, g, taken) == SignUpAnswer(env, wall, created);
    }
  }

  lemma SignUpAnswered(env: Env, wall: DateTime, created: Effect<Option<Json>>)
    ensures var r := SignUpAnswer(env, wall, created);
            r.result.Ok? ==> && created.result.Ok? && created.result.value.Some?
                             && r.result.value == Answer(201, "Success register the user",
                                                         Signed(env.codec, EmailStamp(created.result.value.value, wall)))
  {
  }

  /** The sign-up signature decrypts to `email|timestamp`, whose fields read back apart. */
  lemma SignUpSignature(env: Env, user: Json, wall: DateTime)
    requires RoundTrips(env.codec) && '|' !in ToText(Member(user, "email"))
    ensures DecryptMessage(env.codec, env.codec.encrypt(EmailStamp(user, wall))) == Ok(EmailStamp(user, wall))
    ensures Split(EmailStamp(user, wall), '|') == [ToText(Member(user, "email")), GetTimestamp(wall)]
  {
    TimestampHasNoBar(wall);
    assert EmailStamp(user, wall) == Join([ToText(Member(user, "email")), GetTimestamp(wall)], ['|']);
    SplitJoin([ToText(Member(user, "email")), GetTimestamp(wall)], '|');
  }

  // ---------------------------------------------------------------- setupPin

  function SetupPinStep(s: Snapshot, env: Env, body: Json, m: Moment): Effect<Answer>
    requires ValidSetupPin(body)
  {
    match DecryptMessage(env.codec, Member(body, "signature").s)
    case Fail(e) => Effect(Fail(e), s)
    case Ok(text) => SetupPinFound(s, env, body, m, EmailLookup(s, JStr(FirstField(text, '|'))))
  }

  /** `setupPin` once the lookup by the signed e-mail has given `found`. */
  function SetupPinFound(s: Snapshot, env: Env, body: Json, m: Moment, found: Outcome<Option<Json>>): Effect<Answer>
  {
    match found
    case Fail(e) => Effect(Fail(e), s)
    case Ok(None) => Effect(Fail(Unregistered), s)
    case Ok(Some(user)) => SetupPinIssued(env, body, m, user, GenerateTokenStep(s, env.keys, env.accessTtl, user))
  }

  /** `setupPin` once the tokens are issued: the PIN is written only when the user has none. */
  function SetupPinIssued(env: Env, body: Json, m: Moment, user: Json, issued: Effect<Json>): Effect<Answer>
  {
    match issued.result
    case Fail(e) => Effect(Fail(e), issued.state)
    case Ok(tokenUser) =>
      if Truthy(Member(user, "pin")) then
        Effect(Ok(Answer(200, "Your account already setup pin", tokenUser)), issued.state)
      else
        var patched := UpdateUserPatchStep(issued.state, Member(user, "id"), [Prop("pin", Member(body, "pin"))], m.dataId, m.now);
        match patched.result
        case Fail(e) => Effect(Fail(e), patched.state)
        case Ok(_) => Effect(Ok(Answer(200, OtpVerified, tokenUser)), patched.state)
  }

  /**
   * After the tokens are issued, a user with a PIN gets them at once and
   * nothing more changes; a user without one gets the submitted PIN
   * written onto its row, and the token table is left as issuing made it.
   */
  lemma SetupPinWrites(env: Env, body: Json, m: Moment, user: Json, issued: Effect<Json>)
    requires ValidSnapshot(issued.state) && issued.result.Ok?
    ensures var r := SetupPinIssued(env, body, m, user, issued);
            var t := issued.state;
            && ValidSnapshot(r.state)
            && r.state.tokens == t.tokens && r.state.otps == t.otps
            && (Truthy(Member(user, "pin")) ==>
                  r == Effect(Ok(Answer(200, "Your account already setup pin", issued.result.value)), t))
            && (!Truthy(Member(user, "pin")) ==>
                  && (r.result.Ok? ==> r.result == Ok(Answer(200, OtpVerified, issued.result.value)))
                  && |r.state.users| == |t.users|
                  && (FindRow(t.users, "id", Member(user, "id")).Some? && !Member(body, "pin").JUndefined? ==>
                        Get(r.state.users[FindRow(t.users, "id", Member(user, "id")).value], "pin") == Member(body, "pin")))
  {
    if !Truthy(Member(user, "pin")) {
      var patch := [Prop("pin", Member(body, "pin"))];
      UpdateUserPatchValid(issued.state, Member(user, "id"), patch, m.dataId, m.now);
      if FindRow(issued.state.users, "id", Member(user, "id")).Some? {
        BodyColumnsShape();
        UpdateUserPatchUserRow(issued.state, Member(user, "id"), patch, m.dataId, m.now, "pin");
      }
    }
  }

  /**
   * Tokens are issued before the PIN check, so a registered user whose
   * claims can be built gets a refresh row stored whether or not it already
   * had a PIN; the OTP table is never touched and the users only change
   * when the PIN is written.
   */
  lemma SetupPinIssuesBoth(s: Snapshot, env: Env, body: Json, m: Moment, user: Json)
    requires ValidSnapshot(s) && UserClaims(user).Ok?
    ensures var r := SetupPinFound(s, env, body, m, Ok(Some(user)));
            var issued := GenerateTokenStep(s, env.keys, env.accessTtl, user);
            && issued.result.Ok?
            && ValidSnapshot(r.state)
            && r.state.tokens == issued.state.tokens && r.state.otps == s.otps
            && Get(issued.result.value.props, "refresh_token").JStr?
            && TokenLookup(r.state.tokens, Get(issued.result.value.props, "refresh_token").s, None).Some?
            && (Truthy(Member(user, "pin")) ==> r.state.users == s.users)
  {
    var issued := GenerateTokenStep(s, env.keys, env.accessTtl, user);
    GenerateTokenIssues(s, env.keys, env.accessTtl, user);
    SetupPinWrites(env, body, m, user, issued);
  }

  // ---------------------------------------------------------------- forgotPassword

  function ForgotPasswordStep(s: Snapshot, env: Env, body: Json, m: Moment): Effect<Answer>
    requires ValidMoment(m)
  {
    ForgotPasswordFound(s, env, m, EmailLookup(s, Member(body, "email")))
  }

  /** `forgotPassword` once the lookup by e-mail has given `found`. */
  function ForgotPasswordFound(s: Snapshot, env: Env, m: Moment, found: Outcome<Option<Json>>): Effect<Answer>
    requires ValidMoment(m)
  {
    match found
    case Fail(e) => Effect(Fail(e), s)
    case Ok(None) => Effect(Fail(Unregistered), s)
    case Ok(Some(user)) =>
      var g := OtpFor(user, m.wall, m.random);
      Effect(Ok(Answer(200, "Berhasil mengirimkan kode OTP", Signed(env.codec, g.message))),
             StoreOtpStep(s, OtpRecord(user, g, Some("reset-password")), m.now))
  }

  /**
   * A registered user gets a fresh OTP stored under the message the
   * answer's signature encrypts (the "reset-password" tag reaches `StoreOtp`,
   * which drops it); `GetOtp` then accepts the
   * code generated for it, and no other table changes.
   */
  lemma ForgotPasswordIssuesOtp(s: Snapshot, env: Env, m: Moment, user: Json)
    requires ValidSnapshot(s) && ValidMoment(m)
    ensures var r := ForgotPasswordFound(s, env, m, Ok(Some(user)));
            var g := OtpFor(user, m.wall, m.random);
            && r.result == Ok(Answer(200, "Berhasil mengirimkan kode OTP", Signed(env.codec, g.message)))
            && ValidSnapshot(r.state)
            && r.state.users == s.users && r.state.tokens == s.tokens
            && GetOtpResult(r.state.otps, g.message, Some(g.code)).Ok?
            && (RoundTrips(env.codec) ==> DecryptMessage(env.codec, env.codec.encrypt(g.message)) == Ok(g.message))
  {
    GeneratedOtpStored(s, user, m.wall, m.random, Some("reset-password"), m.now);
  }

  // ---------------------------------------------------------------- verifyOtp

  /** The submitted code as `GetOtp` receives it. */
  function SubmittedCode(v: Json): Option<int>
  {
    if v.JNum? then Some(v.n) else None
  }

  function VerifyOtpFlow(s: Snapshot, env: Env, body: Json, m: Moment): Effect<Answer>
    requires ValidVerifyOtp(body)
  {
    match DecryptMessage(env.codec, Member(body, "signature").s)
    case Fail(e) => Effect(Fail(e), s)
    case Ok(text) => VerifyOtpFound(s, env, body, m, text, EmailLookup(s, JStr(FirstField(text, '|'))))
  }

  /** `verifyOtp` once the signature decrypted to `text` and the lookup by its e-mail gave `found`. */
  function VerifyOtpFound(s: Snapshot, env: Env, body: Json, m: Moment, text: string,
                          found: Outcome<Option<Json>>): Effect<Answer>
  {
    match found
    case Fail(e) => Effect(Fail(e), s)
    case Ok(None) => Effect(Fail(Throw("Invalid signature", 401)), s)
    case Ok(Some(user)) =>
      match GetOtpResult(s.otps, text, SubmittedCode(Member(body, "code")))
      case Fail(e) => Effect(Fail(e), s)
      case Ok(otp) =>
        match VerifyOtpStep(s, otp, m.now, env.otpTtl)
        case Fail(e) => Effect(Fail(e), s)
        case Ok(t) => Effect(Ok(Answer(200, OtpVerified, Signed(env.codec, EmailStamp(user, m.wall)))), t)
  }

  /**
   * `verifyOtp` looks the OTP up by the whole decrypted signature and the
   * submitted code; a success consumes it (it cannot be used again) and
   * answers a fresh `email|timestamp` signature and no tokens. Every
   * failure leaves the tables as they were.
   */
  lemma VerifyOtpFlowConsumes(s: Snapshot, env: Env, body: Json, m: Moment, text: string, user: Json)
    requires ValidSnapshot(s)
    ensures var r := VerifyOtpFound(s, env, body, m, text, Ok(Some(user)));
            var code := SubmittedCode(Member(body, "code"));
            && (r.result.Fail? ==> r.state == s)
            && (GetOtpResult(s.otps, text, code).Fail? ==> r.result == Fail(Throw("Invalid OTP Code", 401)))
            && (r.result.Ok? ==>
                  && GetOtpResult(s.otps, text, code).Ok?
                  && r.state == VerifyOtpStep(s, GetOtpResult(s.otps, text, code).value, m.now, env.otpTtl).value
                  && r.result.value == Answer(200, OtpVerified, Signed(env.codec, EmailStamp(user, m.wall)))
                  && ValidSnapshot(r.state)
                  && r.state.tokens == s.tokens
                  && forall c :: GetOtpResult(r.state.otps, text, c).Fail?)
  {
    var code := SubmittedCode(Member(body, "code"));
    var found := GetOtpResult(s.otps, text, code);
    if found.Ok? {
      var step := VerifyOtpStep(s, found.value, m.now, env.otpTtl);
      if step.Ok? {
        assert VerifyOtpFound(s, env, body, m, text, Ok(Some(user))) ==
               Effect(Ok(Answer(200, OtpVerified, Signed(env.codec, EmailStamp(user, m.wall)))), step.value);
        VerifyOtpValid(s, found.value, m.now, env.otpTtl);
        forall c ensures GetOtpResult(step.value.otps, text, c).Fail? {
          VerifyOtpSingleUse(s, text, code, c, m.now, env.otpTtl);
        }
      }
    }
  }

  /** A signature whose e-mail is not registered is a 401 "Invalid signature", with nothing changed. */
  lemma VerifyOtpFlowUnknown(s: Snapshot, env: Env, body: Json, m: Moment, text: string)
    requires ValidVerifyOtp(body)
    requires DecryptMessage(env.codec, Member(body, "signature").s) == Ok(text)
    requires FindRow(s.users, "email", JStr(FirstField(text, '|'))).None?
    ensures VerifyOtpFlow(s, env, body, m) == Effect(Fail(Throw("Invalid signature", 401)), s)
  {
    LookupByEmail(s, JStr(FirstField(text, '|')));
  }

  // ---------------------------------------------------------------- resendOtp

  /**
   * The words of "in M minute S second", or of "in S second" when less than
   * a minute remains, joined by single spaces: M is the whole minutes and S
   * the seconds left over.
   */
  function RemainingTime(r: nat): (t: string)
    ensures r >= 60 ==> Split(t, ' ') == ["in", NatToString(r / 60), "minute", NatToString(r % 60), "second"]
    ensures r < 60 ==> Split(t, ' ') == ["in", NatToString(r), "second"]
  {
    var minutes := r / 60;
    var seconds := r % 60;
    NoSpaceInDigits(NatToString(minutes));
    NoSpaceInDigits(NatToString(seconds));
    if minutes > 0 then
      MinutesSplit(NatToString(minutes), NatToString(seconds));
      Join(["in", NatToString(minutes), "minute", NatToString(seconds), "second"], " ")
    else
      assert seconds == r;
      SecondsSplit(NatToString(seconds));
      Join(["in", NatToString(seconds), "second"], " ")
  }

  /**
   * The remaining-time text reads back as the time it was written from: the
   * minutes times sixty plus the seconds (below sixty), or the seconds alone
   * when less than a minute remains.
   */
  lemma RemainingTimeWords(r: nat)
    ensures var w := Split(RemainingTime(r), ' ');
            r >= 60 ==> |w| == 5 && AllDigits(w[1]) && AllDigits(w[3])
                        && 60 * ParseDigits(w[1]) + ParseDigits(w[3]) == r && ParseDigits(w[3]) < 60
    ensures var w := Split(RemainingTime(r), ' ');
            r < 60 ==> |w| == 3 && AllDigits(w[1]) && ParseDigits(w[1]) == r
  {
    ParseNatToString(r / 60);
    ParseNatToString(r % 60);
    ParseNatToString(r);
  }

  lemma MinutesSplit(m: string, sec: string)
    requires ' ' !in m && ' ' !in sec
    ensures Split(Join(["in", m, "minute", sec, "second"], " "), ' ') == ["in", m, "minute", sec, "second"]
  {
    var words := ["in", m, "minute", sec, "second"];
    assert forall i :: 0 <= i < |words| ==> ' ' !in words[i];
    SplitJoin(words, ' ');
  }

  lemma SecondsSplit(sec: string)
    requires ' ' !in sec
    ensures Split(Join(["in", sec, "second"], " "), ' ') == ["in", sec, "second"]
  {
    var words := ["in", sec, "second"];
    assert forall i :: 0 <= i < |words| ==> ' ' !in words[i];
    SplitJoin(words, ' ');
  }

  lemma NoSpaceInDigits(s: string)
    requires AllDigits(s)
    ensures ' ' !in s
  {
  }

  /**
   * The seconds since the timestamp field of a decrypted signature, by
   * `now.diff(createdOn, "second")`. A text without a second field hands
   * `undefined` to dayjs, which reads it as the current time: no second has
   * passed. A field dayjs cannot parse gives `None`, whose difference is
   * `NaN`.
   */
  function Elapsed(env: Env, text: string, now: int): (r: Option<int>)
    ensures '|' !in text ==> r == Some(0)
    ensures r.None? <==> '|' in text && ConvertTimestampToDayjs(Split(text, '|')[1]).None?
  {
    var fields := Split(text, '|');
    if |fields| < 2 then Some(0)
    else match ConvertTimestampToDayjs(fields[1])
      case None => None
      case Some(d) => Some(now - env.secondsAt(d))
  }

  /**
   * A signature written as the e-mail, a bar and the timestamp of a valid
   * reading is exactly `secondsAt` of that reading old.
   */
  lemma ElapsedOfIssued(env: Env, email: string, d: DateTime, now: int)
    requires '|' !in email && ValidDateTime(d)
    ensures Elapsed(env, email + "|" + GetTimestamp(d), now) == Some(now - env.secondsAt(d))
  {
    TimestampHasNoBar(d);
    SplitJoin([email, GetTimestamp(d)], '|');
    assert Join([email, GetTimestamp(d)], "|") == email + "|" + GetTimestamp(d);
    TimestampRoundTrip(d);
  }

  /** `diffInSeconds < expiryInSeconds`; a `NaN` difference compares false. */
  predicate CoolingDown(elapsed: Option<int>, ttl: int)
  {
    elapsed.Some? && elapsed.value < ttl
  }

  function ResendOtpStep(s: Snapshot, env: Env, body: Json, m: Moment): Effect<Answer>
    requires ValidResendOtp(body) && ValidMoment(m)
  {
    match DecryptMessage(env.codec, Member(body, "signature").s)
    case Fail(e) => Effect(Fail(e), s)
    case Ok(text) =>
      var elapsed := Elapsed(env, text, m.now);
      if CoolingDown(elapsed, env.otpTtl) then
        Effect(Fail(Throw("You can send OTP " + RemainingTime(env.otpTtl - elapsed.value), 400)), s)
      else
        var email := FirstField(text, '|');
        if email == "" then Effect(Fail(Throw("Email not valid", 400)), s)
        else ResendOtpFound(s, env, m, EmailLookup(s, JStr(email)))
  }

  /** `resendOtp` once the lookup by the signed e-mail has given `found`. */
  function ResendOtpFound(s: Snapshot, env: Env, m: Moment, found: Outcome<Option<Json>>): Effect<Answer>
    requires ValidMoment(m)
  {
    match found
    case Fail(e) => Effect(Fail(e), s)
    case Ok(None) => Effect(Fail(Throw("User not found!", 400)), s)
    case Ok(Some(user)) =>
      var g := OtpFor(user, m.wall, m.random);
      Effect(Ok(Answer(200, "Success", Signed(env.codec, g.message))),
             StoreOtpStep(s, OtpRecord(user, g, Some("reset-password")), m.now))
  }

  /** Within the cooldown the resend is a 400 giving the time left, and nothing changes. */
  lemma ResendCooldown(s: Snapshot, env: Env, body: Json, m: Moment, text: string)
    requires ValidResendOtp(body) && ValidMoment(m)
    requires DecryptMessage(env.codec, Member(body, "signature").s) == Ok(text)
    requires CoolingDown(Elapsed(env, text, m.now), env.otpTtl)
    ensures var e := Elapsed(env, text, m.now).value;
            && env.otpTtl - e > 0
            && ResendOtpStep(s, env, body, m) ==
                 Effect(Fail(Throw("You can send OTP " + RemainingTime(env.otpTtl - e), 400)), s)
  {
  }

  /**
   * A signature without a `|`, such as the bare e-mail `signIn` signs for
   * a user without a PIN, has no timestamp: for a positive lifetime it is
   * always in its cooldown, and the resend is the 400 with the whole
   * lifetime left.
   */
  lemma ResendWithoutTimestamp(s: Snapshot, env: Env, body: Json, m: Moment, text: string)
    requires ValidResendOtp(body) && ValidMoment(m) && env.otpTtl > 0
    requires DecryptMessage(env.codec, Member(body, "signature").s) == Ok(text)
    requires '|' !in text
    ensures Elapsed(env, text, m.now) == Some(0)
    ensures ResendOtpStep(s, env, body, m) ==
              Effect(Fail(Throw("You can send OTP " + RemainingTime(env.otpTtl), 400)), s)
  {
    assert Split(text, '|') == [text];
  }

  /**
   * Once the cooldown is over (or the timestamp does not parse), a
   * signature with a registered e-mail gets a new OTP stored and its
   * message signed; an empty e-mail is a 400, and so is an unknown one.
   */
  lemma ResendIssuesOtp(s: Snapshot, env: Env, body: Json, m: Moment, text: string)
    requires ValidSnapshot(s) && ValidResendOtp(body) && ValidMoment(m)
    requires DecryptMessage(env.codec, Member(body, "signature").s) == Ok(text)
    requires !CoolingDown(Elapsed(env, text, m.now), env.otpTtl)
    ensures var r := ResendOtpStep(s, env, body, m);
            var email := FirstField(text, '|');
            && (email == "" ==> r == Effect(Fail(Throw("Email not valid", 400)), s))
            && (email != "" && FindRow(s.users, "email", JStr(email)).None? ==>
                  r == Effect(Fail(Throw("User not found!", 400)), s))
            && (email != "" && EmailLookup(s, JStr(email)).Ok? && EmailLookup(s, JStr(email)).value.Some? ==>
                  var user := EmailLookup(s, JStr(email)).value.value;
                  var g := OtpFor(user, m.wall, m.random);
                  && r.result == Ok(Answer(200, "Success", Signed(env.codec, g.message)))
                  && r.state == StoreOtpStep(s, OtpRecord(user, g, Some("reset-password")), m.now)
                  && ValidSnapshot(r.state)
                  && GetOtpResult(r.state.otps, g.message, Some(g.code)).Ok?)
  {
    var email := FirstField(text, '|');
    LookupByEmail(s, JStr(email));
    if email != "" && EmailLookup(s, JStr(email)).Ok? && EmailLookup(s, JStr(email)).value.Some? {
      GeneratedOtpStored(s, EmailLookup(s, JStr(email)).value.value, m.wall, m.random, Some("reset-password"), m.now);
    }
  }

  /**
   * The two clocks meet at the lifetime: an OTP exactly `ttl` seconds old is
   * not expired, and a resend exactly `ttl` seconds after is not blocked.
   * One second earlier the resend is blocked; one second later the OTP is
   * expired.
   */
  lemma TtlBoundary(s: Snapshot, row: OtpRow, ttl: int)
    ensures VerifyOtpStep(s, row, row.createdAt + ttl, ttl) != Fail(Throw("Expired OTP Code", 401))
    ensures !CoolingDown(Some(ttl), ttl)
    ensures VerifyOtpStep(s, row, row.createdAt + ttl + 1, ttl) == Fail(Throw("Expired OTP Code", 401))
    ensures CoolingDown(Some(ttl - 1), ttl)
  {
    VerifyOtpExpiry(s, row, row.createdAt + ttl, ttl);
    VerifyOtpExpiry(s, row, row.createdAt + ttl + 1, ttl);
  }

  // ---------------------------------------------------------------- resetPassword

  function ResetPasswordStep(s: Snapshot, env: Env, body: Json, m: Moment): Effect<Answer>
    requires ValidResetPassword(body)
  {
    match DecryptMessage(env.codec, Member(body, "signature").s)
    case Fail(e) => Effect(Fail(e), s)
    case Ok(text) => ResetPasswordFound(s, env, body, m, EmailLookup(s, JStr(FirstField(text, '|'))))
  }

  /** `resetPassword` once the lookup by the signed e-mail has given `found`. */
  function ResetPasswordFound(s: Snapshot, env: Env, body: Json, m: Moment, found: Outcome<Option<Json>>): Effect<Answer>
    requires ValidResetPassword(body)
  {
    match found
    case Fail(e) => Effect(Fail(e), s)
    case Ok(None) => Effect(Fail(Unregistered), s)
    case Ok(Some(user)) =>
      var hashed := env.bcrypt.hash(Member(body, "password").s);
      ResetPasswordIssued(env, user,
        UpdateUserPatchStep(s, Member(user, "id"), [Prop("password", JStr(hashed))], m.dataId, m.now))
  }

  /** Tokens for the user view read before the update, once the new password is saved. */
  function ResetPasswordIssued(env: Env, user: Json, patched: Effect<Json>): Effect<Answer>
  {
    match patched.result
    case Fail(e) => Effect(Fail(e), patched.state)
    case Ok(_) => Issued(GenerateTokenStep(patched.state, env.keys, env.accessTtl, user), 200, "Success")
  }

  /** Issuing the tokens after the update touches only the token table. */
  lemma ResetPasswordIssuedTokens(env: Env, user: Json, patched: Effect<Json>)
    requires ValidSnapshot(patched.state)
    ensures var r := ResetPasswordIssued(env, user, patched);
            && ValidSnapshot(r.state)
            && r.state.users == patched.state.users && r.state.otps == patched.state.otps
            && r.state.nextOtpId == patched.state.nextOtpId
  {
    GenerateTokenIssues(patched.state, env.keys, env.accessTtl, user);
  }

  /**
   * `resetPassword` checks no OTP: any decryptable signature whose first
   * field is a registered e-mail gets the user's password replaced by the
   * hash of the new one. The OTP table is never touched.
   */
  lemma ResetPasswordNoOtpCheck(s: Snapshot, env: Env, body: Json, m: Moment, user: Json)
    requires ValidSnapshot(s) && ValidResetPassword(body)
    ensures var r := ResetPasswordFound(s, env, body, m, Ok(Some(user)));
            var hashed := env.bcrypt.hash(Member(body, "password").s);
            && ValidSnapshot(r.state)
            && r.state.otps == s.otps && r.state.nextOtpId == s.nextOtpId
            && |r.state.users| == |s.users|
            && (FindRow(s.users, "id", Member(user, "id")).Some? ==>
                  Get(r.state.users[FindRow(s.users, "id", Member(user, "id")).value], "password") == JStr(hashed))
  {
    var hashed := env.bcrypt.hash(Member(body, "password").s);
    var patch := [Prop("password", JStr(hashed))];
    var patched := UpdateUserPatchStep(s, Member(user, "id"), patch, m.dataId, m.now);
    UpdateUserPatchValid(s, Member(user, "id"), patch, m.dataId, m.now);
    ResetPasswordIssuedTokens(env, user, patched);
    if FindRow(s.users, "id", Member(user, "id")).Some? {
      BodyColumnsShape();
      UpdateUserPatchUserRow(s, Member(user, "id"), patch, m.dataId, m.now, "password");
    }
  }

  // ---------------------------------------------------------------- refreshAccessToken

  function RefreshAccessTokenStep(s: Snapshot, env: Env, body: Json): Effect<Answer>
    requires ValidRefreshToken(body)
  {
    match TokenLookup(s.tokens, Member(body, "refresh_token").s, None)
    case None => Effect(Fail(Throw("Invalid token", 400)), s)
    case Some(row) =>
      match TokenJwtVerification(env.keys, row.token, true)
      case Fail(e) => Effect(Fail(e), s)
      case Ok(metadata) =>
        Effect(Ok(Answer(200, "Success", JObj([Prop("access_token", JStr(env.keys.sign(ClaimsOf(metadata), false)))]))), s)
  }

  /**
   * A refresh token the store does not hold is a 400 "Invalid token"; one it
   * holds and the refresh key verifies gets only a new access token over the
   * same claims. The refresh token is never rotated: nothing changes.
   */
  lemma RefreshNoRotation(s: Snapshot, env: Env, body: Json)
    requires ValidRefreshToken(body)
    ensures var r := RefreshAccessTokenStep(s, env, body);
            var token := Member(body, "refresh_token").s;
            && r.state == s
            && (TokenLookup(s.tokens, token, None).None? ==> r.result == Fail(Throw("Invalid token", 400)))
            && (TokenLookup(s.tokens, token, None).Some? && env.keys.verify(token, true).Verified? ==>
                  r.result == Ok(Answer(200, "Success", JObj([Prop("access_token",
                                JStr(env.keys.sign(ClaimsOf(env.keys.verify(token, true).data), false)))]))))
  {
  }

  // ---------------------------------------------------------------- logout

  function LogoutStep(s: Snapshot, env: Env, body: Json): Effect<Answer>
    requires ValidRefreshToken(body)
  {
    match TokenJwtVerification(env.keys, Member(body, "refresh_token").s, true)
    case Fail(e) => Effect(Fail(e), s)
    case Ok(metadata) => Effect(Ok(Answer(200, "Logout success", JNull)), DeleteRefreshTokenStep(s, metadata.id, None))
  }

  /**
   * A verified logout deletes every refresh row of the token's user, whatever
   * its ip, so no refresh token of that user is found afterwards; other
   * users keep theirs. A token that does not verify changes nothing.
   */
  lemma LogoutRevokesUser(s: Snapshot, env: Env, body: Json, token: string)
    requires ValidRefreshToken(body)
    ensures var r := LogoutStep(s, env, body);
            var v := env.keys.verify(Member(body, "refresh_token").s, true);
            && (v.VerifyFailed? ==> r.state == s && r.result.Fail?)
            && (v.Verified? ==>
                  && r.result == Ok(Answer(200, "Logout success", JNull))
                  && r.state == DeleteRefreshTokenStep(s, v.data.id, None)
                  && FindUserToken(r.state.tokens, v.data.id).None?
                  && (TokenLookup(r.state.tokens, token, None).Some? ==>
                        !SqlEquals(TokenLookup(r.state.tokens, token, None).value.userId, v.data.id))
                  && forall x :: x in s.tokens && !SqlEquals(x.userId, v.data.id) ==> x in r.state.tokens)
  {
    var v := env.keys.verify(Member(body, "refresh_token").s, true);
    if v.Verified? {
      LogoutRevokes(s, v.data.id);
      var t := DeleteRefreshTokenStep(s, v.data.id, None).tokens;
      match TokenLookup(t, token, None)
      case None =>
      case Some(x) =>
        var j :| 0 <= j < |t| && t[j] == x;
    }
  }

  // ---------------------------------------------------------------- the controller

  /**
   * `AuthController`, holding the user and auth services over one database.
   * Each route does what its step describes, in place.
   */
  class AuthController {
    const db: Database
    const auth: AuthService
    const users: UserService
    const env: Env

    predicate Valid()
      reads db
    {
      db.Valid() && auth.db == db && users.db == db && auth.otpTtl == env.otpTtl
    }

    constructor (db: Database, env: Env)
      requires db.Valid()
      ensures Valid() && this.db == db && this.env == env
    {
      this.db := db;
      this.env := env;
      this.auth := new AuthService(db, env.otpTtl);
      this.users := new UserService(db);
    }

    /** The lookup every route but sign-up and the token routes starts with. */
    method FindByEmail(email: Json) returns (r: Outcome<Option<Json>>)
      requires Valid()
      ensures r == EmailLookup(db.State(), email)
    {
      r := users.GetUserByParams(JObj([Prop("email", email)]), false);
    }

    method SignIn(body: Json) returns (r: Outcome<Answer>)
      requires Valid()
      modifies db
      ensures Valid()
      ensures r == SignInStep(old(db.State()), env, body).result
      ensures db.State() == SignInStep(old(db.State()), env, body).state
    {
      var found := FindByEmail(Member(body, "email"));
      r := SignInAfterLookup(body, found);
    }

    method SignInAfterLookup(body: Json, found: Outcome<Option<Json>>) returns (r: Outcome<Answer>)
      requires Valid()
      modifies db
      ensures Valid()
      ensures r == SignInFound(old(db.State()), env, body, found).result
      ensures db.State() == SignInFound(old(db.State()), env, body, found).state
    {
      if found.Fail? {
        return Fail(found.error);
      }
      if found.value.None? {
        return Fail(Unregistered);
      }
      var user := found.value.value;
      var checked := PasswordCheck(env.bcrypt, body, user);
      if checked.Fail? {
        return Fail(checked.error);
      }
      if !Truthy(Member(user, "pin")) {
        return Ok(Answer(202001, NeedsPin, Signed(env.codec, ToText(Member(user, "email")))));
      }
      var tokenUser := GenerateTokenJWT(user, auth, env.keys, env.accessTtl);
      if tokenUser.Fail? {
        return Fail(tokenUser.error);
      }
      r := Ok(Answer(200, "Success", tokenUser.value));
    }

    /** `g` holds the uuids, random draws and instant `Create` uses; `g.userId` is a fresh id. */
    method SignUp(body: Json, wall: DateTime, g: CreateDraws) returns (r: Outcome<Answer>)
      requires Valid() && ParsedBody(body) && ValidSignIn(body) && ValidDraws(g)
      requires forall j :: 0 <= j < |db.users| ==> Get(db.users[j], "id") != JStr(g.userId)
      modifies db
      ensures Valid()
      ensures r == SignUpStep(old(db.State()), env, body, wall, g).result
      ensures db.State() == SignUpStep(old(db.State()), env, body, wall, g).state
    {
      if StrictEquals(Member(body, "type"), JNum(0)) && !Truthy(Member(body, "password")) {
        return Fail(Throw("Password is required for type 0", 400));
      }
      var taken := users.GetUserByParams(SignUpParams(body), true);
      r := SignUpAfterLookup(body, wall, g, taken);
    }

    method SignUpAfterLookup(body: Json, wall: DateTime, g: CreateDraws, taken: Outcome<Option<Json>>)
      returns (r: Outcome<Answer>)
      requires Valid() && ParsedBody(body) && ValidSignIn(body) && ValidDraws(g)
      requires StrictEquals(Member(body, "type"), JNum(0)) ==> Truthy(Member(body, "password"))
      requires forall j :: 0 <= j < |db.users| ==> Get(db.users[j], "id") != JStr(g.userId)
      modifies db
      ensures Valid()
      ensures r == SignUpFound(old(db.State()), env, body, wall, g, taken).result
      ensures db.State() == SignUpFound(old(db.State()), env, body, wall, g, taken).state
    {
      if taken.Fail? {
        return Fail(taken.error);
      }
      if taken.value.Some? {
        var field := GetRegisteredField(taken.value.value, body, ["email", "user_data.phone"]);
        return Fail(Throw(FieldText(field) + " already registered", 400));
      }
      var role := DefaultRole(db.roles);
      if role.None? {
        return Fail(Throw("Default role not found", 500));
      }
      var hashed := if StrictEquals(Member(body, "type"), JNum(0))
                    then Some(env.bcrypt.hash(Member(body, "password").s)) else None;
      var data := SignUpData(body, hashed, db.roles[role.value].id);
      SignUpDataFields(body, hashed, db.roles[role.value].id, "email");
      CreateValid(db.State(), data, g);
      var created := users.Create(data, g);
      if created.Fail? {
        return Fail(created.error);
      }
      if created.value.None? {
        return Fail(Plain(Cause("TypeError", "Cannot read properties of null (reading 'email')")));
      }
      r := Ok(Answer(201, "Success register the user", Signed(env.codec, EmailStamp(created.value.value, wall))));
    }

    method SetupPin(body: Json, m: Moment) returns (r: Outcome<Answer>)
      requires Valid() && ValidSetupPin(body)
      modifies db
      ensures Valid()
      ensures r == SetupPinStep(old(db.State()), env, body, m).result
      ensures db.State() == SetupPinStep(old(db.State()), env, body, m).state
    {
      var text := DecryptMessage(env.codec, Member(body, "signature").s);
      if text.Fail? {
        return Fail(text.error);
      }
      var found := FindByEmail(JStr(FirstField(text.value, '|')));
      r := SetupPinAfterLookup(body, m, found);
    }

    method SetupPinAfterLookup(body: Json, m: Moment, found: Outcome<Option<Json>>) returns (r: Outcome<Answer>)
      requires Valid()
      modifies db
      ensures Valid()
      ensures r == SetupPinFound(old(db.State()), env, body, m, found).result
      ensures db.State() == SetupPinFound(old(db.State()), env, body, m, found).state
    {
      if found.Fail? {
        return Fail(found.error);
      }
      if found.value.None? {
        return Fail(Unregistered);
      }
      var user := found.value.value;
      var tokenUser := GenerateTokenJWT(user, auth, env.keys, env.accessTtl);
      if tokenUser.Fail? {
        return Fail(tokenUser.error);
      }
      if Truthy(Member(user, "pin")) {
        return Ok(Answer(200, "Your account already setup pin", tokenUser.value));
      }
      var patch := [Prop("pin", Member(body, "pin"))];
      UpdateUserPatchValid(db.State(), Member(user, "id"), patch, m.dataId, m.now);
      var patched := users.UpdateUserPatch(Member(user, "id"), patch, m.dataId, m.now);
      if patched.Fail? {
        return Fail(patched.error);
      }
      r := Ok(Answer(200, OtpVerified, tokenUser.value));
    }

    /** The reset-password mail is sent after the OTP is stored; sending is left out. */
    method ForgotPassword(body: Json, m: Moment) returns (r: Outcome<Answer>)
      requires Valid() && ValidForgotPassword(body) && ValidMoment(m)
      modifies db
      ensures Valid()
      ensures r == ForgotPasswordStep(old(db.State()), env, body, m).result
      ensures db.State() == ForgotPasswordStep(old(db.State()), env, body, m).state
    {
      var found := FindByEmail(Member(body, "email"));
      r := ForgotPasswordAfterLookup(m, found);
    }

    method ForgotPasswordAfterLookup(m: Moment, found: Outcome<Option<Json>>) returns (r: Outcome<Answer>)
      requires Valid() && ValidMoment(m)
      modifies db
      ensures Valid()
      ensures r == ForgotPasswordFound(old(db.State()), env, m, found).result
      ensures db.State() == ForgotPasswordFound(old(db.State()), env, m, found).state
    {
      if found.Fail? {
        return Fail(found.error);
      }
      if found.value.None? {
        return Fail(Unregistered);
      }
      var g := AuthHandler.HandleOtpGeneration(found.value.value, auth, "reset-password", m.wall, m.now, m.random);
      r := Ok(Answer(200, "Berhasil mengirimkan kode OTP", Signed(env.codec, g.message)));
    }

    method VerifyOtp(body: Json, m: Moment) returns (r: Outcome<Answer>)
      requires Valid() && ValidVerifyOtp(body)
      modifies db
      ensures Valid()
      ensures r == VerifyOtpFlow(old(db.State()), env, body, m).result
      ensures db.State() == VerifyOtpFlow(old(db.State()), env, body, m).state
    {
      var text := DecryptMessage(env.codec, Member(body, "signature").s);
      if text.Fail? {
        return Fail(text.error);
      }
      var found := FindByEmail(JStr(FirstField(text.value, '|')));
      r := VerifyOtpAfterLookup(body, m, text.value, found);
    }

    method VerifyOtpAfterLookup(body: Json, m: Moment, text: string, found: Outcome<Option<Json>>)
      returns (r: Outcome<Answer>)
      requires Valid()
      modifies db
      ensures Valid()
      ensures r == VerifyOtpFound(old(db.State()), env, body, m, text, found).result
      ensures db.State() == VerifyOtpFound(old(db.State()), env, body, m, text, found).state
    {
      if found.Fail? {
        return Fail(found.error);
      }
      if found.value.None? {
        return Fail(Throw("Invalid signature", 401));
      }
      var otp := auth.GetOtp(text, SubmittedCode(Member(body, "code")));
      if otp.Fail? {
        return Fail(otp.error);
      }
      var verified := auth.VerifyOtp(otp.value, m.now);
      if verified.Fail? {
        return Fail(verified.error);
      }
      r := Ok(Answer(200, OtpVerified, Signed(env.codec, EmailStamp(found.value.value, m.wall))));
    }

    method ResendOtp(body: Json, m: Moment) returns (r: Outcome<Answer>)
      requires Valid() && ValidResendOtp(body) && ValidMoment(m)
      modifies db
      ensures Valid()
      ensures r == ResendOtpStep(old(db.State()), env, body, m).result
      ensures db.State() == ResendOtpStep(old(db.State()), env, body, m).state
    {
      var text := DecryptMessage(env.codec, Member(body, "signature").s);
      if text.Fail? {
        return Fail(text.error);
      }
      var elapsed := Elapsed(env, text.value, m.now);
      if CoolingDown(elapsed, env.otpTtl) {
        return Fail(Throw("You can send OTP " + RemainingTime(env.otpTtl - elapsed.value), 400));
      }
      var email := FirstField(text.value, '|');
      if email == "" {
        return Fail(Throw("Email not valid", 400));
      }
      var found := FindByEmail(JStr(email));
      r := ResendOtpAfterLookup(m, found);
    }

    method ResendOtpAfterLookup(m: Moment, found: Outcome<Option<Json>>) returns (r: Outcome<Answer>)
      requires Valid() && ValidMoment(m)
      modifies db
      ensures Valid()
      ensures r == ResendOtpFound(old(db.State()), env, m, found).result
      ensures db.State() == ResendOtpFound(old(db.State()), env, m, found).state
    {
      if found.Fail? {
        return Fail(found.error);
      }
      if found.value.None? {
        return Fail(Throw("User not found!", 400));
      }
      var g := AuthHandler.HandleOtpGeneration(found.value.value, auth, "reset-password", m.wall, m.now, m.random);
      r := Ok(Answer(200, "Success", Signed(env.codec, g.message)));
    }

    method ResetPassword(body: Json, m: Moment) returns (r: Outcome<Answer>)
      requires Valid() && ValidResetPassword(body)
      modifies db
      ensures Valid()
      ensures r == ResetPasswordStep(old(db.State()), env, body, m).result
      ensures db.State() == ResetPasswordStep(old(db.State()), env, body, m).state
    {
      var text := DecryptMessage(env.codec, Member(body, "signature").s);
      if text.Fail? {
        return Fail(text.error);
      }
      var found := FindByEmail(JStr(FirstField(text.value, '|')));
      r := ResetPasswordAfterLookup(body, m, found);
    }

    method ResetPasswordAfterLookup(body: Json, m: Moment, found: Outcome<Option<Json>>) returns (r: Outcome<Answer>)
      requires Valid() && ValidResetPassword(body)
      modifies db
      ensures Valid()
      ensures r == ResetPasswordFound(old(db.State()), env, body, m, found).result
      ensures db.State() == ResetPasswordFound(old(db.State()), env, body, m, found).state
    {
      if found.Fail? {
        return Fail(found.error);
      }
      if found.value.None? {
        return Fail(Unregistered);
      }
      var user := found.value.value;
      var patch := [Prop("password", JStr(env.bcrypt.hash(Member(body, "password").s)))];
      UpdateUserPatchValid(db.State(), Member(user, "id"), patch, m.dataId, m.now);
      var patched := users.UpdateUserPatch(Member(user, "id"), patch, m.dataId, m.now);
      if patched.Fail? {
        return Fail(patched.error);
      }
      var tokenUser := GenerateTokenJWT(user, auth, env.keys, env.accessTtl);
      if tokenUser.Fail? {
        return Fail(tokenUser.error);
      }
      r := Ok(Answer(200, "Success", tokenUser.value));
    }

    /** Reads the token table only. */
    method RefreshAccessToken(body: Json) returns (r: Outcome<Answer>)
      requires Valid() && ValidRefreshToken(body)
      ensures r == RefreshAccessTokenStep(db.State(), env, body).result
    {
      var token := auth.GetRefreshToken(Member(body, "refresh_token").s, None);
      if token.None? {
        return Fail(Throw("Invalid token", 400));
      }
      var metadata := TokenJwtVerification(env.keys, token.value.token, true);
      if metadata.Fail? {
        return Fail(metadata.error);
      }
      r := Ok(Answer(200, "Success", JObj([Prop("access_token", JStr(env.keys.sign(ClaimsOf(metadata.value), false)))])));
    }

    method Logout(body: Json) returns (r: Outcome<Answer>)
      requires Valid() && ValidRefreshToken(body)
      modifies db
      ensures Valid()
      ensures r == LogoutStep(old(db.State()), env, body).result
      ensures db.State() == LogoutStep(old(db.State()), env, body).state
    {
      var metadata := TokenJwtVerification(env.keys, Member(body, "refresh_token").s, true);
      if metadata.Fail? {
        return Fail(metadata.error);
      }
      var _ := auth.DeleteRefreshToken(metadata.value.id, None);
      r := Ok(Answer(200, "Logout success", JNull));
    }
  }
}
