# Account service: OTP, refresh tokens, sign-in flows and user directory

This project models an Express/TypeORM account service in Dafny.

The model covers these parts of the service:
- the one-time-password (OTP) store;
- the refresh-token store;
- the nine authentication routes built on the two stores;
- the user-directory rules (the dynamic lookup, the upsert of `Create` and the column split of `UpdateUserPatch`);
- the pure helpers: formatting, status codes, pagination, permission shapes, validation.

**Tables.** The database is a set of in-memory tables, shared by all services through one `Tables.Database` object:
- `users` and `user_data` hold rows as ordered JavaScript objects, because the service edits them with `Object.assign`;
- `roles`, `otp` and `user_token` hold typed rows.

**State changes.** Every operation that changes the tables is an imperative method on a class: `AuthService.AuthService`, `UsersService.UserService` or `AuthController.AuthController`. Each such method is proved equal to a function of the old tables (`...Step`). The properties of the operation are lemmas about that function:
- what is written;
- what is left alone;
- which errors are thrown;
- which invariants are kept. The invariants are: one OTP row per `data` string, one refresh-token row per user, and distinct user ids.

**Outside collaborators.** These are parameters of the model:
- RSA encryption (`Crypto.Codec`, with an optional round-trip property `RoundTrips`);
- JWT signing and verification (`Crypto.JwtKeys`);
- bcrypt (`Crypto.Bcrypt`);
- the clock (`Common.DateTime` readings and whole seconds);
- `Math.random` (draws in [0, 1));
- the uuids TypeORM generates.

**Errors.** A thrown error is a value in the model. An operation returns `Outcome<T>`, which is either `Ok(value)` or `Fail(Thrown)`. A `Thrown` is either a `CustomHttpExceptionError` or a plain `Error` with a name and a message.

**Modules.** One module models each source file: `AuthService`, `AuthController`, `AuthHandler`, `OtpHandler`, `UsersService`, `Common`, `CustomError`, `Response`, `Pagination`, `RegisterHandler`, `Roles`, `PermissionHandler`, `AuthMiddleware`, `Uploader`, `AuthDto`, `UsersDto` and `Crypto`. Five more modules hold the shared values:
- `Json` holds JavaScript values, property reads and writes, `Object.assign` and truthiness;
- `Decimal` holds number-to-digit-string conversion;
- `Strings` holds split, join, trim and collapsing runs of characters;
- `Tables` holds the rows and the database;
- `Wrappers` holds `Option`.

## Model

| member | source | states |
|---|---|---|
| AuthService.FindToken | src/app/module/auth/auth.service.ts:24-31 | The row found matches both the token and the ip, and no earlier row does; `None` means no row matches. |
| AuthService.TokenLookup | src/app/module/auth/auth.service.ts:24-31 | The row returned is a stored row with that token and ip; `null` exactly when no row has both. |
| AuthService.FindUserToken | src/app/module/auth/auth.service.ts:43 | The row the `user_id` conflict lands on: the first row of that user, or none when the user has no row. |
| AuthService.UpsertToken | src/app/module/auth/auth.service.ts:34-45 | A user without a row gets one appended; otherwise that user's row gets the new token and ip in place. |
| AuthService.StoreRefreshTokenOneRow | src/app/module/auth/auth.service.ts:34-45 | After the upsert, every row of the user carries the new token and ip. Other users' rows are unchanged. At most one row is added, and the token is then found. The one-row-per-user invariant is kept. |
| AuthService.DeleteTokens | src/app/module/auth/auth.service.ts:142-149 | The rows kept are exactly the stored rows that do not match both `user_id` and ip. |
| AuthService.DeleteTokensKeyed | src/app/module/auth/auth.service.ts:142-149 | Deleting keeps at most one row per user. |
| AuthService.LogoutRevokes | src/app/module/auth/auth.service.ts:142-149 | A delete without an ip leaves no row of that user, and keeps every row of every other user. |
| AuthService.FindOtp | src/app/module/auth/auth.service.ts:55-61 | The first OTP row with that `data` and, for a truthy code, that code; `None` when no row matches. |
| AuthService.GetOtpResult | src/app/module/auth/auth.service.ts:47-67 | The row returned has the requested data and, for a truthy code, that code; it comes from the table, without its `type`. The call fails with 401 "Invalid OTP Code" exactly when no row matches. |
| AuthService.StoreOtpUpsert | src/app/module/auth/auth.service.ts:98-136 | An existing `data` has only its code and time rewritten, and no row is added. A new `data` gets exactly one row, with the next id and no type tag. Rows with other data are unchanged, and no other table changes. |
| AuthService.StoreOtpThenGet | src/app/module/auth/auth.service.ts:98-136 | The code just stored is the one `GetOtp` then accepts, with the new time. |
| AuthService.RemoveOtp | src/app/module/auth/auth.service.ts:138-140 | Removing by primary key keeps exactly the rows with another id. |
| AuthService.RemoveOtpWellFormed | src/app/module/auth/auth.service.ts:138-140 | Removal keeps the one-row-per-data and distinct-id invariants. |
| AuthService.RemovedDataGone | src/app/module/auth/auth.service.ts:88 | Removing a row by its id removes every row with its data. |
| AuthService.WellFormedTail | src/app/module/auth/auth.service.ts:98-136 | The rows after the first of a well-formed OTP table are well formed. |
| AuthService.ConsWellFormed | src/app/module/auth/auth.service.ts:138-140 | Putting the first row back in front of a well-formed subset of the other rows keeps the table well formed. |
| AuthService.ActivationPatchShape | src/app/module/auth/auth.service.ts:85 | The activation patch `{status: 1}` has unique keys and no `id`. |
| AuthService.VerifyOtpExpiry | src/app/module/auth/auth.service.ts:74-78 | An OTP is expired exactly when more than the TTL in seconds has passed since it was stored; at exactly the TTL it is still accepted. |
| AuthService.VerifyOtpUser | src/app/module/auth/auth.service.ts:80-82 | Within the TTL, the only failure is 404 "User not found": no user has the e-mail written before the first `\|` of the data. |
| AuthService.VerifyOtpActivates | src/app/module/auth/auth.service.ts:84-89 | A falsy status becomes 1 and any other status is kept. Only that user changes; profiles, roles and tokens are unchanged. |
| AuthService.UpdateById | src/app/module/auth/auth.service.ts:85 | With distinct ids, an update keyed by one user's id patches that user only. |
| AuthService.VerifyOtpSingleUse | src/app/module/auth/auth.service.ts:69-96 | After a successful verification, `GetOtp` for the same data fails whatever code is given. |
| AuthService.VerifyOtpValid | src/app/module/auth/auth.service.ts:69-96 | Verification keeps the table invariants. |
| AuthService.AuthService.GetRefreshToken | src/app/module/auth/auth.service.ts:24-31 | Returns a stored row matching token and ip, or `null` exactly when none does. |
| AuthService.AuthService.StoreRefreshToken | src/app/module/auth/auth.service.ts:34-45 | Leaves the documented upsert over the token table and keeps the invariants. |
| AuthService.AuthService.GetOtp | src/app/module/auth/auth.service.ts:47-67 | Its result is the lookup `GetOtpResult` over the OTP table. |
| AuthService.AuthService.VerifyOtp | src/app/module/auth/auth.service.ts:69-96 | On an error nothing changes: the transaction rolls back. On success the tables become the verification step's result. |
| AuthService.AuthService.StoreOtp | src/app/module/auth/auth.service.ts:98-136 | Leaves the OTP upsert and keeps the invariants. |
| AuthService.AuthService.DeleteOtp | src/app/module/auth/auth.service.ts:138-140 | Removes the row by id and changes nothing else. |
| AuthService.AuthService.DeleteRefreshToken | src/app/module/auth/auth.service.ts:142-149 | Deletes the matching rows, keeps the invariants, and returns how many rows went. |
| AuthService.AuthService.constructor | src/app/module/auth/auth.service.ts:17-22 | The service holds the shared database and the OTP TTL. |
| AuthHandler.OtpFor | src/lib/helper/authHandler.ts:17-19 | The generated code is a six-digit number, 100000 to 999999. |
| AuthHandler.OtpRecord | src/lib/helper/authHandler.ts:22-27 | The OTP handed to `StoreOtp` has the user's id, the message as data, the code and the given type tag. |
| AuthHandler.OtpMessageFields | src/lib/helper/authHandler.ts:17-19 | The message splits on `\|` into the e-mail, the 14-digit timestamp and the six-digit code. Its first field is the e-mail, and the timestamp parses back to the reading it was made from. |
| AuthHandler.SixDigits | src/lib/helper/authHandler.ts:18 | Six-digit codes lie between 10^5 and 10^6 - 1. |
| AuthHandler.HandleOtpGeneration | src/lib/helper/authHandler.ts:11-36 | Makes exactly one `StoreOtp` call, with the tagged record, and returns the message and code it stored. |
| AuthHandler.GeneratedOtpStored | src/lib/helper/authHandler.ts:22-35 | After the store, `GetOtp` with the returned message and code finds that code, stored at the call's time; only the OTP table changes. |
| AuthHandler.UserClaims | src/lib/helper/authHandler.ts:54-59 | The claims are `user.id`, `user.email`, `user.user_data.name` and `user.role.name`, and the transformed permissions. Building them fails exactly when the user, its profile or its role is `null` or `undefined`, or the permissions cannot be read. A missing user throws on `id` and a missing profile throws on `name`. |
| AuthHandler.TokenUserFields | src/lib/helper/authHandler.ts:71-80 | The result carries both tokens, `data` {name, email, username} and `expired_in`, which is the access TTL. |
| AuthHandler.GenerateTokenIssues | src/lib/helper/authHandler.ts:53-81 | Both tokens are signed from the claims, and the refresh token is stored under the user's id with a `null` ip. Other users' token rows are unchanged, and only the token table changes. A failure changes nothing. |
| AuthHandler.GenerateTokenJWT | src/lib/helper/authHandler.ts:53-81 | Its result and the tables it leaves are those of `GenerateTokenStep`. |
| AuthHandler.VerifyPassword | src/lib/helper/authHandler.ts:89-96 | bcrypt's verdict for two strings. Any other argument throws "Password verification failed". |
| OtpHandler.HandleOtpGeneration | src/lib/helper/otpHandler.ts:8-32 | Makes one `StoreOtp` call with the message `email\|timestamp\|code`, the code and the user's id, and no type; it returns the message and code it stored. |
| OtpHandler.TagNotStored | src/lib/helper/otpHandler.ts:19-23 | Leaving the type tag out changes nothing in the tables: a new row is untagged and carries the message, code and user id. |
| AuthController.Issued | src/app/module/auth/auth.controller.ts:89-91 | Issued tokens are answered with the given code and message; a failure to issue is passed on. |
| AuthController.SignInUnknown | src/app/module/auth/auth.controller.ts:66-69 | An unregistered e-mail gives 401 and changes nothing. |
| AuthController.SignInPasswordErrors | src/app/module/auth/auth.controller.ts:72-81 | For type 0, a missing password gives 400 and a wrong one gives 401, with nothing changed. Any other type skips the password check. |
| AuthController.SignInNeedsPin | src/app/module/auth/auth.controller.ts:84-87 | A user without a PIN gets code 202001 and a signature of the bare e-mail, which decrypts back. No token is issued. |
| AuthController.SignInOnlyStoresRefresh | src/app/module/auth/auth.controller.ts:61-95 | Sign-in touches only the token table. Anything but the 200 answer changes nothing, and a 200 answer stores the refresh token it returns. |
| AuthController.DefaultRole | src/app/module/auth/auth.controller.ts:119-122 | The default role is the first role with `is_default` set; there is none exactly when no role has it. |
| AuthController.SignUpDataFields | src/app/module/auth/auth.controller.ts:125-132 | `Create` gets the payload with `role_id` set and, for type 0, the password replaced by its hash. |
| AuthController.SignUpTaken | src/app/module/auth/auth.controller.ts:106-116 | When any user matches the e-mail or the phone, whatever that user's status, sign-up fails and nothing changes. The error is 400 "<field> already registered". |
| AuthController.SignUpNoOtp | src/app/module/auth/auth.controller.ts:129-140 | Sign-up writes no OTP, no token and no role. A success needed a free e-mail and phone and a default role, and answers 201 with a signature of `email\|timestamp`. |
| AuthController.SignUpAnswer | src/app/module/auth/auth.controller.ts:134-140 | The answer leaves the tables as `Create` left them. |
| AuthController.SignUpAnswered | src/app/module/auth/auth.controller.ts:134-140 | A successful answer is 201 with the signature of the saved user's `email\|timestamp`. |
| AuthController.SignUpSignature | src/app/module/auth/auth.controller.ts:134-138 | The sign-up signature decrypts to `email\|timestamp`, which splits back into the two fields. |
| AuthController.SetupPinWrites | src/app/module/auth/auth.controller.ts:164-175 | The tokens are issued before the PIN check. A user with a PIN gets them and nothing else changes. A user without one also has the submitted PIN written. |
| AuthController.SetupPinIssuesBoth | src/app/module/auth/auth.controller.ts:159-175 | Both branches store the issued refresh token, which is then found; users change only in the no-PIN branch. |
| AuthController.ForgotPasswordIssuesOtp | src/app/module/auth/auth.controller.ts:187-215 | It answers 200 with the signature of the new OTP message. The OTP is stored and accepted with its code. Users and tokens are unchanged. |
| AuthController.VerifyOtpFlowConsumes | src/app/module/auth/auth.controller.ts:224-239 | The OTP used is the one whose data is the whole decrypted signature and whose code is the submitted code. A wrong code gives 401, and any failure changes nothing. A success consumes the OTP and answers with a fresh `email\|timestamp` signature, not tokens. |
| AuthController.VerifyOtpFlowUnknown | src/app/module/auth/auth.controller.ts:224-229 | A signature whose e-mail is not registered gives 401 "Invalid signature" and changes nothing. |
| AuthController.RemainingTime | src/app/module/auth/auth.controller.ts:264-274 | The message splits into the words "in", the whole minutes r div 60, "minute", the leftover seconds r mod 60 and "second" when at least a minute remains. Otherwise it is "in", the seconds and "second". |
| AuthController.RemainingTimeWords | src/app/module/auth/auth.controller.ts:264-274 | The message reads back as the time it was made from: sixty times the minutes plus the seconds (below sixty), or the seconds alone under a minute. |
| AuthController.MinutesSplit | src/app/module/auth/auth.controller.ts:272-274 | The minutes message splits back into its five words. |
| AuthController.SecondsSplit | src/app/module/auth/auth.controller.ts:272-274 | The seconds-only message splits back into its three words. |
| AuthController.Elapsed | src/app/module/auth/auth.controller.ts:254-258 | A text without `\|` is 0 seconds old, since dayjs reads `undefined` as now. The elapsed time is missing (`NaN`) exactly when a second field is present and does not parse. |
| AuthController.ElapsedOfIssued | src/app/module/auth/auth.controller.ts:254-258 | For an e-mail without `\|`, a signature made of the e-mail, `\|` and a valid reading's timestamp is exactly as old as `secondsAt` gives for that reading. |
| AuthController.ResendCooldown | src/app/module/auth/auth.controller.ts:254-277 | While the elapsed time is below the TTL, a resend is a 400 giving the time left, and nothing changes. A signature without a timestamp field counts as 0 seconds elapsed. |
| AuthController.ResendWithoutTimestamp | src/app/module/auth/auth.controller.ts:254-276 | A signature without `\|`, such as the bare e-mail `signIn` signs, has no timestamp field; dayjs reads `undefined` as now, so no second has passed. For a positive TTL the resend is always the 400 with the whole TTL left, and nothing changes. |
| AuthController.ResendIssuesOtp | src/app/module/auth/auth.controller.ts:280-315 | After the cooldown: an empty e-mail gives "Email not valid" and an unknown one "User not found!". Otherwise an OTP is stored (the "reset-password" tag is passed to `StoreOtp` and dropped) and its signature returned. |
| AuthController.TtlBoundary | src/app/module/auth/auth.controller.ts:264 | At exactly the TTL, verification accepts and resend is allowed. One second later verification rejects; one second earlier resend is blocked. |
| AuthController.ResetPasswordIssuedTokens | src/app/module/auth/auth.controller.ts:341 | Issuing tokens after the update touches only the token table. |
| AuthController.ResetPasswordNoOtpCheck | src/app/module/auth/auth.controller.ts:326-343 | With no OTP check, a registered e-mail in the signature is enough: the stored password becomes the hash, and no OTP changes. |
| AuthController.RefreshNoRotation | src/app/module/auth/auth.controller.ts:350-370 | Nothing changes. An unknown token gives 400 "Invalid token"; a verified one gives only a new access token, re-signed from its claims, and the refresh token is not rotated. |
| AuthController.LogoutRevokesUser | src/app/module/auth/auth.controller.ts:372-381 | A failed verification changes nothing. A verified token deletes every row of its user and keeps every other user's rows; the answer is "Logout success". |
| AuthController.AuthController.constructor | src/app/module/auth/auth.controller.ts:41-47 | The controller holds the shared database and the collaborators. |
| AuthController.AuthController.FindByEmail | src/app/module/auth/auth.controller.ts:66 | The lookup `GetUserByParams({email})`. |
| AuthController.AuthController.SignIn | src/app/module/auth/auth.controller.ts:61-95 | Its result and new tables are those of `SignInStep`; the invariants are kept. |
| AuthController.AuthController.SignInAfterLookup | src/app/module/auth/auth.controller.ts:67-91 | The rest of `signIn` once the lookup has answered. |
| AuthController.AuthController.SignUp | src/app/module/auth/auth.controller.ts:97-145 | Its result and new tables are those of `SignUpStep`: type 0 without a password fails first with 400 and nothing changed, then the lookup decides. The invariants are kept. |
| AuthController.AuthController.SignUpAfterLookup | src/app/module/auth/auth.controller.ts:113-140 | The rest of `signUp` once the e-mail-or-phone lookup has answered. |
| AuthController.AuthController.SetupPin | src/app/module/auth/auth.controller.ts:148-179 | Its result and new tables are those of `SetupPinStep`; the invariants are kept. |
| AuthController.AuthController.SetupPinAfterLookup | src/app/module/auth/auth.controller.ts:160-175 | The rest of `setupPin` once the lookup has answered. |
| AuthController.AuthController.ForgotPassword | src/app/module/auth/auth.controller.ts:182-219 | Its result and new tables are those of `ForgotPasswordStep`; the invariants are kept. |
| AuthController.AuthController.ForgotPasswordAfterLookup | src/app/module/auth/auth.controller.ts:188-215 | The rest of `forgotPassword` once the lookup has answered. |
| AuthController.AuthController.VerifyOtp | src/app/module/auth/auth.controller.ts:221-243 | Its result and new tables are those of `VerifyOtpFlow`; the invariants are kept. |
| AuthController.AuthController.VerifyOtpAfterLookup | src/app/module/auth/auth.controller.ts:227-239 | The rest of `verifyOtp` once the lookup has answered. |
| AuthController.AuthController.ResendOtp | src/app/module/auth/auth.controller.ts:245-319 | Its result and new tables are those of `ResendOtpStep`, where a missing timestamp field means no time has elapsed (so the cooldown applies); the invariants are kept. |
| AuthController.AuthController.ResendOtpAfterLookup | src/app/module/auth/auth.controller.ts:288-315 | The rest of `resendOtp` once the lookup has answered. |
| AuthController.AuthController.ResetPassword | src/app/module/auth/auth.controller.ts:321-347 | Its result and new tables are those of `ResetPasswordStep`; the invariants are kept. |
| AuthController.AuthController.ResetPasswordAfterLookup | src/app/module/auth/auth.controller.ts:331-343 | The rest of `resetPassword` once the lookup has answered. |
| AuthController.AuthController.RefreshAccessToken | src/app/module/auth/auth.controller.ts:350-370 | Reads the token table only; its answer is that of `RefreshAccessTokenStep`. |
| AuthController.AuthController.Logout | src/app/module/auth/auth.controller.ts:372-381 | Its result and new tables are those of `LogoutStep`; the invariants are kept. |
| UsersService.Leaves | src/app/module/users/users.service.ts:93-104 | The leaves found depth first are never objects, and a nested leaf's path starts with its prefix and a dot. |
| UsersService.LeavesStep | src/app/module/users/users.service.ts:94-103 | One entry contributes its own leaves (recursing into an object, or itself under `prefix.key`), then come those of the entries after it. |
| UsersService.Conditions | src/app/module/users/users.service.ts:100 | One `path = :path` condition per leaf, in order. |
| UsersService.AssignConcat | src/app/module/users/users.service.ts:101 | Setting parameters leaf by leaf runs left to right. |
| UsersService.BuildStep | src/app/module/users/users.service.ts:94-103 | One turn of the loop appends its entry's conditions and parameters to what came before. |
| UsersService.ConditionsConcat | src/app/module/users/users.service.ts:100 | The conditions of two runs of leaves are those of the first run followed by those of the second. |
| UsersService.ConditionsAppend | src/app/module/users/users.service.ts:100 | Pushing a second run's conditions after the first's gives the conditions of both runs together. |
| UsersService.LeafStep | src/app/module/users/users.service.ts:100-101 | A single leaf pushes `path = :path` and sets `parameters[path]`. |
| UsersService.WhereBuilder.BuildWhereConditions | src/app/module/users/users.service.ts:93-104 | The builder appends one condition per leaf, in depth-first order, and sets `parameters[path] = value` for each. |
| UsersService.WhereBuilder.constructor | src/app/module/users/users.service.ts:89-90 | The builder starts with no condition and no parameter. |
| UsersService.ResolveColumn | src/app/module/users/users.service.ts:113-140 | A dotted field names an alias and one of its columns. A bare name unique to `users` names that column. Everything else is unknown or ambiguous. |
| UsersService.ResolveDotted | src/app/module/users/users.service.ts:113-140 | `alias.name` resolves exactly when the alias's table has the column. |
| UsersService.ResolveEmail | src/app/module/users/users.service.ts:140 | `email` names the `users` column. |
| UsersService.ResolvePhone | src/app/module/users/users.service.ts:140 | `user_data.phone` names the joined profile's phone. |
| UsersService.ConditionColumnOf | src/app/module/users/users.service.ts:100 | The column a condition `path = :path` compares is its path. |
| UsersService.ConditionsColumns | src/app/module/users/users.service.ts:100 | Each condition the builder writes compares the path of its own leaf. |
| UsersService.CriteriaCons | src/app/module/users/users.service.ts:140 | Reading the first condition, then the rest, gives a criterion for every condition, each compared with its parameter; none of them is unknown. |
| UsersService.Criteria | src/app/module/users/users.service.ts:140 | Each condition compares its column with the parameter of the same name. An unknown column fails the whole query. |
| UsersService.FirstUserWhere | src/app/module/users/users.service.ts:141 | `getOne` returns the first user, in table order, whose joined row passes the clause; `None` means none passes. |
| UsersService.FirstUserWhereAt | src/app/module/users/users.service.ts:141 | The user `getOne` returns is the first passing one: it passes, and every earlier user fails. |
| UsersService.JoinedData | src/app/module/users/users.service.ts:139 | The `LEFT JOIN` partner in `user_data` is a profile row. |
| UsersService.FindRole | src/app/module/users/users.service.ts:138 | The joined role is the first role whose id equals the user's `role_id`; `None` means no role matches. |
| UsersService.Stored | src/app/module/users/users.service.ts:114-137 | A column never written reads back as `NULL`; a written one reads back unchanged. |
| UsersService.Hydrate | src/app/module/users/users.service.ts:114-137 | The hydrated entity has exactly the selected columns, in order, each read back from the stored row. |
| UsersService.GetHydrate | src/app/module/users/users.service.ts:114-137 | Reading the hydrated entity gives the stored value for a selected column and `undefined` for anything else. |
| UsersService.LookupResult | src/app/module/users/users.service.ts:107-141 | Once the clause is read as criteria, the lookup is `null` without a passing user, and otherwise the view of the first one. |
| UsersService.EmailConditions | src/app/module/users/users.service.ts:93-110 | `{email}` gives the one leaf `email` and the clause `email = :email`. |
| UsersService.EmailCriteria | src/app/module/users/users.service.ts:140 | That clause compares the `users.email` column with the e-mail. |
| UsersService.SignUpConditions | src/app/module/users/users.service.ts:93-104 | `{email, user_data: {phone}}` gives the leaves `email` and `user_data.phone`. |
| UsersService.SignUpClause | src/app/module/users/users.service.ts:110 | With `"OR"` the two conditions are joined by ` OR `. |
| UsersService.SignUpCriteria | src/app/module/users/users.service.ts:140 | The sign-up clause compares `users.email` and the joined profile's `phone`. |
| UsersService.Query | src/app/module/users/users.service.ts:113-141 | The query fails exactly when the clause names a bad column; otherwise it returns the first passing user. |
| UsersService.CamelField | src/app/module/users/users.service.ts:150-152 | A falsy place name becomes `null`, a string is title-cased, and anything else throws. |
| UsersService.RoleView | src/app/module/users/users.service.ts:155-161 | The role of the result has exactly the keys permissions, access, is_default and the three dates. |
| UsersService.UserDataViewFields | src/app/module/users/users.service.ts:148-154 | The profile view exists exactly when the three place names are falsy or strings. It title-cases them and keeps every other column. |
| UsersService.UserViewFails | src/app/module/users/users.service.ts:148-161 | The view fails with no profile row, with an uncased place name, or with no role; otherwise it exists. |
| UsersService.UserViewFields | src/app/module/users/users.service.ts:146-163 | The view has every user column as stored, except `created_at`, which is made from `updated_at`; `role` is the role's view. |
| UsersService.UserViewPlaces | src/app/module/users/users.service.ts:150-152 | The view's `user_data` has the joined row's province, city and district title-cased. |
| UsersService.SetPlaces | src/app/module/users/users.service.ts:148-154 | After the three place assignments and the phone write-back, those keys read as written and every other key as before. |
| UsersService.RowPlaces | src/app/module/users/users.service.ts:150-152 | The viewed profile's place names are the stored ones, title-cased. |
| UsersService.UserViewShape | src/app/module/users/users.service.ts:143-163 | A view that exists was assembled from the joined profile's view and the joined role's view. |
| UsersService.Found | src/app/module/users/users.service.ts:143-163 | A built view is returned as a found user, and an error building it is thrown on. |
| UsersService.LookupByEmail | src/app/module/users/users.service.ts:85-163 | `GetUserByParams({email})` sends `email = :email` and returns the view of the first user with that e-mail, or `null`. |
| UsersService.SignUpLookup | src/app/module/users/users.service.ts:85-163 | The sign-up lookup, with `"OR"`, sends `email = :email OR user_data.phone = :user_data.phone`. It returns the first user matching either value, or `null` when none does. |
| UsersService.SignUpSatisfies | src/app/module/users/users.service.ts:110 | The OR clause passes a user exactly when its e-mail or its profile's phone matches. |
| UsersService.FirstUserWhereIsFindRow | src/app/module/users/users.service.ts:141 | When the clause passes exactly the rows with a column value, `getOne` is `findOne` on that column. |
| UsersService.UserService.GetUserByParams | src/app/module/users/users.service.ts:85-164 | The method's result is `GetUserByParamsResult` over the current tables. |
| UsersService.DefaultFields | src/app/module/users/users.service.ts:182-199 | A default fills in exactly its one property, and only when that property is falsy. |
| UsersService.DefaultUsername | src/app/module/users/users.service.ts:192-194 | The made-up username is a slug. |
| UsersService.ReferralCode | src/app/module/users/users.service.ts:197-199 | The referral code is the username's first four characters followed by two digits. A username that is not a string or an array throws `TypeError`. |
| UsersService.CreateDefaultsFields | src/app/module/users/users.service.ts:182-199 | type and status default to 0, username to the slug, and the referral code to its rule. Every other property is kept, and the defaults fail only through the referral code. |
| UsersService.NamedDefaultsField | src/app/module/users/users.service.ts:182-194 | After the type, status and username defaults, each key reads as its default or as the payload has it. |
| UsersService.NamedDefaultsUnique | src/app/module/users/users.service.ts:182-194 | The defaults keep keys unique. |
| UsersService.DefaultsKeep | src/app/module/users/users.service.ts:182-199 | Every column except the four defaults reads as the payload has it. |
| UsersService.BodyColumnsShape | src/app/module/users/users.service.ts:211-215 | The body columns are user columns, and `id` and the two timestamps are not among them. |
| UsersService.BodyField | src/app/module/users/users.service.ts:211-215 | The body written is the payload's defined body columns, with unique keys. |
| UsersService.SavedUserRowField | src/app/module/users/users.service.ts:208-215 | An overwritten row reads as `updated_at` = now, then the defined body columns, then the old row. |
| UsersService.NewUserRowFields | src/app/module/users/users.service.ts:211-215 | A new row has the generated id, both timestamps at now, and the payload's body columns. |
| UsersService.NewProfileRowFields | src/app/module/users/users.service.ts:220-226 | A new profile holds its id, the user's id, the default avatar, the phone and the name, and nothing else. |
| UsersService.ProfilePatchFields | src/app/module/users/users.service.ts:228-233 | An existing profile gets the name, and the phone only when it is defined. |
| UsersService.SavedProfile | src/app/module/users/users.service.ts:217-236 | The profile table after the save: one appended row when the user had none; otherwise the joined row patched and all others unchanged. |
| UsersService.CreateState | src/app/module/users/users.service.ts:167-252 | The tables `Create` leaves: unchanged when the defaults throw or the e-mail is active, otherwise the saved ones. |
| UsersService.KeyedOverwrite | src/app/module/users/users.service.ts:208-215 | Rewriting rows without changing ids keeps ids distinct. |
| UsersService.KeyedAppend | src/app/module/users/users.service.ts:211-215 | Appending a row with a fresh string id keeps ids distinct. |
| UsersService.SavedRowOverwritten | src/app/module/users/users.service.ts:208-215 | An overwritten user stays the first one with its e-mail. |
| UsersService.SavedRowAppended | src/app/module/users/users.service.ts:211-215 | An appended user is the first one with its e-mail. |
| UsersService.Committed | src/app/module/users/users.service.ts:239-247 | The lookup after the commit changes nothing. If it throws, the rollback in the catch finds no open transaction, and that is the error `Create` throws. |
| UsersService.CommittedAt | src/app/module/users/users.service.ts:243 | The final lookup returns the view of the user at the position found, or fails when the view fails. |
| UsersService.CreateRejects | src/app/module/users/users.service.ts:202-206 | A user with the e-mail whose status is 1 makes `Create` fail with 400 "Email already registered" and roll back. |
| UsersService.CreateOverwritesInactive | src/app/module/users/users.service.ts:202-215 | A user with the e-mail whose status is not 1 is overwritten in place. Its defined body columns and `updated_at` are written, and no other user row changes. |
| UsersService.CreateInsertsNew | src/app/module/users/users.service.ts:209-215 | A new e-mail appends one user with the generated id, both timestamps and the payload's body columns. |
| UsersService.CreateProfile | src/app/module/users/users.service.ts:217-236 | A missing profile is created with the default avatar, the phone and the name from the e-mail. An existing one gets only its phone and name overwritten. |
| UsersService.CreateOnlyUsers | src/app/module/users/users.service.ts:167-252 | `Create` writes the user and profile tables only. |
| UsersService.CreateKeepsKeyed | src/app/module/users/users.service.ts:209-215 | With a fresh id for a new user, every user's id stays a distinct string. |
| UsersService.CreateFindsSaved | src/app/module/users/users.service.ts:238-243 | The result is the view of the saved user, which is found first by its e-mail. |
| UsersService.SavedRowAt | src/app/module/users/users.service.ts:215-243 | After the upsert, the saved user is the first one with the e-mail. |
| UsersService.CreateValid | src/app/module/users/users.service.ts:167-252 | `Create` keeps the table invariants and touches only the two user tables. |
| UsersService.UserService.Create | src/app/module/users/users.service.ts:167-252 | Its result and new tables are those of `CreateStep`. |
| UsersService.UpdateUserPatchUnknown | src/app/module/users/users.service.ts:293-294 | An unknown id gives the 404 and changes nothing; a known id never does. |
| UsersService.PickEmpty | src/app/module/users/users.service.ts:310-318 | The picked columns are empty exactly when the patch has none of them. |
| UsersService.UpdateUserPatchState | src/app/module/users/users.service.ts:287-355 | For a known user, the patch's tables are the two saves over that user. |
| UsersService.PatchedProfile | src/app/module/users/users.service.ts:318-332 | The profile table after the patch: untouched without profile keys; otherwise the joined row patched and all others unchanged, or one new row. |
| UsersService.NewPatchedProfile | src/app/module/users/users.service.ts:322-328 | A profile created by a patch has the patch's columns, its id and the user's id, and nothing else. |
| UsersService.UpdateUserPatchUserRow | src/app/module/users/users.service.ts:306-335 | Only the user column keys of the patch reach the user row, together with `updated_at`; no other user changes. |
| UsersService.UpdateUserPatchProfile | src/app/module/users/users.service.ts:310-332 | With no profile keys, `user_data` is untouched. Otherwise the joined row gets the profile keys, or a new row is made with them, its id and the user's id. |
| UsersService.UpdateUserPatchKeepsKeyed | src/app/module/users/users.service.ts:306-315 | A patch never rewrites an id, so user ids stay distinct strings. |
| UsersService.UpdateUserPatchValid | src/app/module/users/users.service.ts:287-355 | A patch keeps the table invariants and touches only the two user tables. |
| UsersService.UserService.UpdateUserPatch | src/app/module/users/users.service.ts:287-355 | Its result and new tables are those of `UpdateUserPatchStep`. |
| UsersService.UserService.SavePatch | src/app/module/users/users.service.ts:318-335 | The two saves leave the tables `PatchSaved` describes. |
| UsersService.UserService.constructor | src/app/module/users/users.service.ts:28-32 | The service holds the shared database. |
| Tables.FindRow | src/app/module/users/users.service.ts:176-179 | `findOne` by one column gives the first row whose value equals the key under SQL `=`. |
| Tables.UpdateWhere | src/app/module/auth/auth.service.ts:85 | `update` patches exactly the rows matching the key and leaves the others. |
| Tables.FindRowAt | src/app/module/users/users.service.ts:176-179 | `findOne` returns the row that matches when every earlier row does not. |
| Tables.Defined | src/app/module/users/users.service.ts:215 | `save` writes no `undefined` column. |
| Tables.GetDefined | src/app/module/users/users.service.ts:215 | A column read after dropping undefined values is the column read before. |
| Tables.UpdateWhereKeepsIds | src/app/module/auth/auth.service.ts:85 | A patch without an `id` keeps every row's id. |
| Common.GenerateRandomNumber | src/lib/helper/common.ts:16-20 | The draw lies between 10^(n-1) and 10^n - 1, so it has exactly n digits. |
| Common.TitleCase | src/lib/helper/common.ts:23-28 | Title-casing keeps the length and the white space, and changes each other character only in case. |
| Common.ScaledDraw | src/lib/helper/common.ts:19 | A draw in [0, 1) scaled by the width and floored lies in [0, width). |
| Common.UpperAscii | src/lib/helper/common.ts:26 | Upper-casing keeps word characters and white space, and leaves no lower-case letter. |
| Common.LowerAscii | src/lib/helper/common.ts:26 | Lower-casing keeps word characters and white space, and leaves no upper-case letter. |
| Common.TitleChar | src/lib/helper/common.ts:25-27 | White space is kept, and any other character is only upper- or lower-cased. |
| Common.LowerAll | src/lib/helper/common.ts:26 | Lower-casing a whole string, character by character. |
| Common.TitleCaseInWord | src/lib/helper/common.ts:25-27 | Inside a word, every character is lower-cased. |
| Common.TitleCaseWord | src/lib/helper/common.ts:25-27 | A word starting with a word character gets its first letter upper-cased and the rest lower-cased. |
| Common.TitleCaseSpace | src/lib/helper/common.ts:25 | Words separated by white space are cased independently. |
| Common.TitleCaseIdempotent | src/lib/helper/common.ts:23-28 | Title-casing twice is title-casing once. |
| Common.ToCamelCase | src/lib/helper/common.ts:23-28 | `null` is returned as it is, and a string keeps its length. |
| Common.ToCamelCaseIdempotent | src/lib/helper/common.ts:23-28 | `ToCamelCase` is idempotent. |
| Common.CreateNameFromEmail | src/lib/helper/common.ts:31-36 | The name is as long as the local part, with each non-letter turned into a space. |
| Common.NameIgnoresDomain | src/lib/helper/common.ts:31-36 | The domain never shows in the name, and the name holds only letters and spaces. |
| Common.SplitHeadOf | src/lib/helper/common.ts:33 | The text before the first `@` is the local part. |
| Common.GetTimestamp | src/lib/helper/common.ts:39-49 | The timestamp is all digits, 14 of them for a four-digit year. |
| Common.Pad2 | src/lib/helper/common.ts:42-46 | Padding gives digits, and for a value below 100 exactly two digits reading back as the value. |
| Common.Pad2Facts | src/lib/helper/common.ts:42-46 | A one-digit value padded with `0` reads back as itself, and a two-digit one needs no padding. |
| Common.YearDigits | src/lib/helper/common.ts:41 | A valid year has four digits. |
| Common.ConvertTimestampToDayjs | src/lib/helper/common.ts:52-54 | A date results exactly when the text is fourteen digits, read as `YYYYMMDDHHmmss`. |
| Common.TimestampRoundTrip | src/lib/helper/common.ts:39-54 | Parsing a timestamp with `YYYYMMDDHHmmss` gives back the reading it was written from. |
| Common.TimestampHasNoBar | src/lib/helper/common.ts:48 | A timestamp never contains the `\|` separating signed fields. |
| Common.AnonymizeWord | src/lib/helper/common.ts:60-66 | A word keeps its length. One longer than two keeps its first and last characters and stars the rest; a shorter one is unchanged. |
| Common.AnonymizeString | src/lib/helper/common.ts:57-72 | The masked first word, one space, and the masked last word. |
| Common.Stars | src/lib/helper/common.ts:65 | `'*'.repeat(n)` is n stars. |
| Common.SplitEnds | src/lib/helper/common.ts:58-69 | The first and last pieces of the split are the text before the first space and after the last one. |
| Common.AnonymizeShape | src/lib/helper/common.ts:57-72 | Middle words are dropped, and a one-word name shows twice. |
| Common.CreateSlug | src/lib/helper/common.ts:75-86 | The slug holds only `[a-z0-9-]`, has no double dash, and is at most 255 long. A body within 255 characters is returned as it is; a longer one is cut to 255 and stripped of trailing dashes. |
| Common.SlugBodyShape | src/lib/helper/common.ts:78 | The uncut slug holds only slug characters, with no double dash. |
| Common.KeepSlugSource | src/lib/helper/common.ts:78 | Only slug characters and white space are kept, and a string of those alone is unchanged. |
| Common.StripTrailingDashes | src/lib/helper/common.ts:82 | Stripping keeps a prefix that does not end in a dash. |
| Common.CutSlug | src/lib/helper/common.ts:80-83 | A slug body cut to 255 characters and stripped of trailing dashes is a slug. |
| Common.SlugHasNoSpace | src/lib/helper/common.ts:78 | Slug characters are not white space and are already lower case. |
| Common.SlugFixedPoint | src/lib/helper/common.ts:75-86 | A slug is its own slug. |
| Common.SlugIdempotent | src/lib/helper/common.ts:75-86 | Slugging twice is slugging once. |
| Common.CalculateAge | src/lib/helper/common.ts:89-104 | The age is the number of birthdays that have come by today: the last birthday is not after today, and the next one is. |
| Common.SubstringNumber | src/lib/helper/common.ts:119-120 | An empty prefix gives `NaN` (`None`). n itself is returned when it has at most k digits; otherwise the result is the number its leading k digits spell, found by scaling n down by the dropped digits. |
| Common.LeadingDigits | src/lib/helper/common.ts:119-120 | The result's digits are the leading k digits of n's decimal text. |
| Decimal.ParseDigitsPositive | src/lib/helper/common.ts:120 | A numeral with a non-zero first digit is at least 1. |
| CustomError.NewHttpException | src/lib/helper/customError.ts:8-13 | The exception keeps the message and the cause. The custom code is the code, or 500 for 0. The HTTP code is the code's first three digits, or 500 for 0. |
| CustomError.LeadingThree | src/lib/helper/customError.ts:10 | A code of four digits or more gives a three-digit HTTP code. |
| CustomError.CustomCodeStatus | src/lib/helper/customError.ts:10 | The custom code 202001 goes with HTTP status 202. |
| CustomError.LeadingThreeDigits | src/lib/helper/customError.ts:10 | The first three digits of a code of at least four digits form a number from 100 to 999. |
| CustomError.Throw | src/lib/helper/customError.ts:8-13 | A thrown exception with no cause keeps a three-digit code as both codes. |
| Response.Build | src/lib/helper/response.ts:23-32 | The payload carries the status, code and message. An empty plain object is sent as `null`. The HTTP status is the code's leading three digits. |
| Response.SuccessReply | src/lib/helper/response.ts:7-10 | A success payload has status "Success" and the given code, message and data. |
| Response.ErrorReply | src/lib/helper/response.ts:12-21 | An error payload has status "Failed". An error with no code becomes 500 "Internal Server Error" carrying its message. Otherwise the custom code, the message and the cause's message are sent. |
| Response.ErrorStatusMatchesException | src/lib/helper/response.ts:12-21 | An exception is answered with the HTTP status its constructor derived. |
| Pagination.CeilDiv | src/lib/helper/pagination.ts:4 | `Math.ceil(total / limit)` is the least n with n·limit ≥ total. |
| Pagination.MetaPagination | src/lib/helper/pagination.ts:1-12 | The page and limit are echoed. `last_page` is the ceiling, and `from` = `offset` = (page-1)·limit+1. `to` = min(page·limit, total), and a full page holds `limit` items. |
| Pagination.LastPageCoversTotal | src/lib/helper/pagination.ts:4-5 | A page starts before the total exactly when it is at most the last page. |
| PermissionHandler.TransformActions | src/lib/helper/permissionHandler.ts:8-13 | One entry per action, in order, each boolean copied unchanged. |
| PermissionHandler.TransformEntities | src/lib/helper/permissionHandler.ts:19-22 | One entry per entity, in order, keyed by its name and holding its actions. |
| PermissionHandler.Put | src/lib/helper/permissionHandler.ts:19 | `permissions[platform] = ...` appends a new platform or overwrites an existing one in place. |
| PermissionHandler.ConvertPermissionsFromDatabase | src/lib/helper/permissionHandler.ts:16-25 | The loop gives exactly the input's platforms, in order, each with its entities converted. |
| PermissionHandler.Converted | src/lib/helper/permissionHandler.ts:18-23 | The same conversion, as a value. |
| Roles.TransformEntries | src/lib/helper/roles.ts:4-9 | One entry per key, in order; `access` is true exactly when every value is truthy (true for an empty object). |
| Roles.OrEmptyObject | src/lib/helper/roles.ts:12-13 | `x \|\| {}`. |
| Roles.TransformPermissions | src/lib/helper/roles.ts:3-14 | `null` or `undefined` permissions throw. A falsy platform maps to an empty list. |
| Roles.PermissionToJson | src/lib/helper/roles.ts:11-14 | The summary has exactly the keys `mobile` and `app`. |
| Roles.TransformPermissionsReadsTwoPlatforms | src/lib/helper/roles.ts:11-14 | Only `mobile` and `app` are read; every other platform is dropped. |
| Roles.TransformConvertedPermissions | src/lib/helper/roles.ts:4-14 | On converted permissions, the only kind the service feeds in, each platform has one entry per entity. The entries are keyed by index, with access exactly when the entity's name is not empty. |
| Roles.ConvertedAbsent | src/lib/helper/roles.ts:12-13 | A missing platform becomes an empty list. |
| Roles.ConvertedPlatform | src/lib/helper/roles.ts:12-13 | Any platform of converted permissions summarises to its entities, or to an empty list. |
| Roles.ConvertedPresent | src/lib/helper/roles.ts:12-13 | A platform the permissions hold is summarised entry by entry. |
| Roles.MemberOfPlatform | src/lib/helper/roles.ts:12-13 | Reading a platform out of the converted permissions gives its entity array. |
| Roles.EntitiesConverted | src/lib/helper/roles.ts:5-8 | An entity array becomes one entry per entity, keyed by its index, with access exactly when the entity is named. |
| RegisterHandler.LookupConcat | src/lib/helper/registerHandler.ts:21-23 | Following a path in two legs is following it in one. |
| RegisterHandler.NestedMissing | src/lib/helper/registerHandler.ts:21-23 | The nested read gives `undefined` as soon as an intermediate key is missing. |
| RegisterHandler.NestedFlat | src/lib/helper/registerHandler.ts:4 | A path without a dot is one flat read. |
| RegisterHandler.PayloadKey | src/lib/helper/registerHandler.ts:7 | The payload key is the last dotted segment of the field. |
| RegisterHandler.PayloadKeyIsLastPiece | src/lib/helper/registerHandler.ts:7 | The key is what `split('.').pop()` takes. |
| RegisterHandler.MatchFlags | src/lib/helper/registerHandler.ts:13 | For each field, in order, whether both values are defined and strictly equal. |
| RegisterHandler.FirstSet | src/lib/helper/registerHandler.ts:2-15 | The position of the first match, or past the end when there is none. |
| RegisterHandler.RegisteredField | src/lib/helper/registerHandler.ts:1-18 | `null` exactly when no field matches. |
| RegisterHandler.GetRegisteredField | src/lib/helper/registerHandler.ts:1-18 | Returns the payload key of the first field whose two values are defined and strictly equal, or `null` exactly when no field matches. |
| AuthMiddleware.OpenRoutes | src/app/middleware/auth.ts:24-34 | Nine routes, each under `prefix/auth/`. |
| AuthMiddleware.ParseBearerExact | src/app/middleware/auth.ts:47-53 | A header parses exactly when it is "Bearer", one space and a token without spaces. |
| AuthMiddleware.VerifyJwtToken | src/app/middleware/auth.ts:20-69 | Outcomes by case: open routes, and paths containing `/files/images` or `/favicon.ico`, pass; a missing header gives 401 "Authorization not found"; a malformed one gives 401 "Invalid token". Otherwise the bearer token is checked as an access token, and its claims authenticate the request. |
| Crypto.DecryptMessage | src/lib/auth/signature.ts:16-20 | Decryption gives the text, or throws the cause the private-key decryption gives. |
| Crypto.DecryptIssued | src/lib/auth/signature.ts:9-20 | A signature the server issued decrypts to its message. |
| Crypto.ClaimsOf | src/lib/auth/token.ts:13-19 | The signed claims carry the token data's id, e-mail, name, role and permissions. |
| Crypto.TokenJwtVerification | src/lib/auth/token.ts:35-59 | A verified token gives its claims. Any other gives 401 "There is something wrong when verify token", with the cause attached. |
| Uploader.NormalizePathNoBackslash | src/lib/storage/uploader.ts:16-18 | No backslash survives, and nothing but `/` is introduced. |
| Uploader.NormalizePathIdentity | src/lib/storage/uploader.ts:16-18 | A path without backslashes is already normal. |
| Uploader.NormalizePathIdempotent | src/lib/storage/uploader.ts:16-18 | Normalising twice is normalising once. |
| Uploader.NormalizePathRun | src/lib/storage/uploader.ts:17 | Each maximal run of backslashes becomes a single `/`. |
| Uploader.Backslashes | src/lib/storage/uploader.ts:17 | A run of n backslashes. |
| Uploader.RunThenRest | src/lib/storage/uploader.ts:17 | A leading run of backslashes becomes a single `/` before the rest is normalised. |
| Uploader.SkipRunAll | src/lib/storage/uploader.ts:17 | The regular expression's `+` takes the whole run. |
| Uploader.StoredFilename | src/lib/storage/uploader.ts:33-34 | The stored name is the timestamp, `_` and the original name. |
| Uploader.StorageDirectory | src/lib/storage/uploader.ts:13 | The configured directory, or `files/images` when it is unset or empty. |
| Uploader.UploadToLocal | src/lib/storage/uploader.ts:32-48 | The returned path is the normalised join of the directory and the stored name, with no backslash. |
| Uploader.UploadFile | src/lib/storage/uploader.ts:21-29 | Both branches of the storage switch upload locally. |
| AuthDto.PasswordPatternIsPolicy | src/app/module/auth/auth.dto.ts:11-16 | On one line, the pattern holds exactly when the password has 8 or more characters, including a lower-case letter, an upper-case letter, a digit and a non-alphanumeric character. |
| AuthDto.PasswordPatternAcrossLines | src/app/module/auth/auth.dto.ts:12 | At the first line break, the pattern holds exactly when the password has at least eight characters and a lower-case letter, an upper-case letter and a digit all occur before that break. The lookaheads find nothing past it, and the break itself is the special character. |
| AuthDto.PasswordOptionalOnlyAtSignIn | src/app/module/auth/auth.dto.ts:3-89 | A sign-in body may leave the password out; a reset body may not. |
| AuthDto.SignInPasswordChecked | src/app/module/auth/auth.dto.ts:8-17 | A password given at sign-in must match the pattern. |
| AuthDto.PinAndOtpShapes | src/app/module/auth/auth.dto.ts:24-67 | `SetupPinDto` needs a non-empty string signature and a number; `VerifyOtpDto` needs a non-empty string signature and a numeric code. |
| UsersDto.EnumFields | src/app/module/users/users.dto.ts:22-30 | A present type is 0, 1 or 2, and a present status is 0 to 3. |
| UsersDto.PinIsFourDigitString | src/app/module/users/users.dto.ts:32-35 | A present PIN is a string of exactly four digits, so a numeric PIN is refused. |
| UsersDto.EmailRequired | src/app/module/users/users.dto.ts:3-6 | A body without an e-mail is refused. |
| UsersDto.OnlyEmailValid | src/app/module/users/users.dto.ts:3-40 | A body holding only a valid address passes: every other field is optional. |

## Left out

- **TypeORM and the database:**
  - Hydration, column types and coercion, MySQL collation and the schema's constraints are not modelled. A value is compared as it was stored, under SQL `=` with `NULL` equal to nothing.
  - Transactions are all-or-nothing state updates.
  - A `save` that changes nothing is still a write.
- `users.service.ts` `Update`, `GetAll`, `UploadPhoto` and `Delete` are CRUD glue outside the modelled directory rules.
- **Duplicate `user_data` rows:** a user's profile is the first `user_data` row with its id, as the join finds it. The model does not forbid a second row.
- **Ids and timestamps in payloads:** `Create` and `UpdateUserPatch` write only the columns the body may set, where `id`, `created_at` and `updated_at` are generated. `updated_at` is stamped with the call's clock.
- **Body checks:** the request-body validator, `validator.ts`, is not part of this model. Bodies are taken as already parsed objects with unique keys, and the DTO rules are stated as predicates.
- **`JSON.parse`:** the model starts from the parsed `permissions` object of a role.
- **Crypto and hashing:** RSA, JWT and bcrypt are parameters. `HashPassword` has no member of its own: the hash is a parameter, and its failure path is not reachable in the model. The "Secret key not found" error, raised when a JWT secret is unset, is not modelled.
- **Dates:** the `toLocaleString` date claims are locale-formatted text and are left out. The dayjs difference between a timestamp and now is the parameter `secondsAt`. A signature without a second `|` field hands `undefined` to dayjs, which is the current time, so no time has elapsed. A field that is present but not fourteen digits parses to no date and gives no elapsed time (`Elapsed` is `None`), as `NaN` compares false; dayjs's lenient fallback parse of other date strings is not modelled.
- **Numbers:** JavaScript numbers are integers here (`JNum(n: int)`); fractions, `-0`, `NaN` and `Infinity` are not represented. `@IsNumber()` also accepts fractional values, such as the `pin` of `SetupPinDto`, the `code` of `VerifyOtpDto` and the `type` of `SignInDto`. These fields are modelled only for integral values.
- **I/O:** mail sending, logging, the rate limiter and the error middleware are not modelled.
- **Images and files:** `validateImageDimensions`, `encodeImage` and `GetFileFromLocal` are file and image I/O, left out. `UploadToLocal` writes no file in the model, and `path.join` is a parameter.
- **Error texts:** the `TypeError` messages for a property read on `undefined` are approximations of the engine's texts.
- **Lookups that do not throw:** the role and `user_data` relations, when missing, make the lookup's view fail (`UserViewFails`); this is how the reads on `undefined` throw.
- **Ids in `UpdateUserPatch`:**
  - Ids are compared under SQL `=`, so an undefined or `null` id finds no user and gives the 404.
  - TypeORM's handling of `where: {id: undefined}` is not modelled.
- AuthController.SignUp: its requires asks for a fresh uuid for the new user (`g.userId` is not an existing id), which the database's uuid column provides.
- The controller lemmas about `signIn`, `setupPin`, `forgotPassword`, `verifyOtp`, `resendOtp` and `resetPassword` are stated over the result the e-mail lookup gave (the `...Found` functions). `UsersService.LookupByEmail` states what that lookup returns.
- Pagination.MetaPagination: requires a positive limit, so the `Infinity` and `NaN` a zero limit gives are not modelled.
- Common.ToCamelCase, Common.CreateSlug and Common.CreateNameFromEmail: case mapping and the character classes cover ASCII only; other Unicode characters are not upper- or lower-cased.
- Common.CreateNameFromEmail: lengths and indexes count Unicode scalar values, where JavaScript counts UTF-16 code units. A character outside the Basic Multilingual Plane counts once here and twice in the source.
- Common.AnonymizeWord: lengths and indexes count Unicode scalar values, not UTF-16 code units. For a word with a character outside the Basic Multilingual Plane, the source's length test and the kept first and last units can differ from the model's.
- UsersService.ReferralCode: the username's prefix is cut by Unicode scalar values, not UTF-16 code units. The source's `slice` can split a surrogate pair where the model keeps the whole character.
- AuthDto.PasswordPattern: the length `{8,}` and the character tests count Unicode scalar values, not UTF-16 code units. A password with characters outside the Basic Multilingual Plane can reach eight units in the source with fewer characters here.
- AuthDto.PasswordPatternIsPolicy: states the policy over Unicode scalar values, not UTF-16 code units, for the same reason as `AuthDto.PasswordPattern`.
- AuthService.AuthService.DeleteOtp: the source does not await its `remove`, and the removal runs on the plain repository outside `VerifyOtp`'s transaction. The model deletes the row synchronously, as part of the same state update.
- AuthController.ResendCooldown, AuthController.ResendIssuesOtp and AuthController.AuthController.ResendOtp: a second field that is not fourteen digits gives no date, so the resend goes through. dayjs's lenient fallback parse of such a field is not modelled. Every signature the flows issue is a bare e-mail or `email|timestamp`, so such a field comes only from a signature made elsewhere.
- `OtpDto`'s `type` is accepted by `StoreOtp` but never stored, as the code does (`OtpHandler.TagNotStored`).
