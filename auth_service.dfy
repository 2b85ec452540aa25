// The OTP and refresh-token store (app/module/auth/auth.service.ts): OTP rows
// upserted by their `data` string and consumed once, refresh tokens upserted
// per user. Each operation is a pure step on a `Snapshot` of the tables,
// carried out in place by the `AuthService` methods; a transaction that
// throws leaves the tables as they were.
module AuthService {
  import opened Wrappers
  import opened Json
  import opened Strings
  import opened CustomError
  import opened Tables

  /** `OtpDto`: what a caller asks `StoreOtp` to keep. `kind` is the optional `type` tag. */
  datatype OtpDto = OtpDto(userId: Json, data: string, code: int, kind: Option<string>)

  // ---------------------------------------------------------------- refresh tokens

  /**
   * The `ip_address` criterion. TypeORM drops a criterion whose value is
   * `undefined` (`None`); a given ip must equal the stored one.
   */
  predicate IpMatches(stored: Option<string>, ip: Option<string>)
  {
    ip.None? || stored == ip
  }

  predicate TokenMatches(row: TokenRow, token: string, ip: Option<string>)
  {
    row.token == token && IpMatches(row.ip, ip)
  }

  /** The first row `findOneBy({token, ip_address: ip})` finds. */
  function FindToken(rows: seq<TokenRow>, token: string, ip: Option<string>): (r: Option<nat>)
    ensures r.Some? ==> && r.value < |rows| && TokenMatches(rows[r.value], token, ip)
                        && forall j :: 0 <= j < r.value ==> !TokenMatches(rows[j], token, ip)
    ensures r.None? ==> forall j :: 0 <= j < |rows| ==> !TokenMatches(rows[j], token, ip)
  {
    if rows == [] then None
    else if TokenMatches(rows[0], token, ip) then Some(0)
    else match FindToken(rows[1..], token, ip)
      case None => None
      case Some(i) => Some(i + 1)
  }

  /** The row `GetRefreshToken(token, ip)` resolves to, or `null`. */
  function TokenLookup(rows: seq<TokenRow>, token: string, ip: Option<string>): (r: Option<TokenRow>)
    ensures r.Some? ==> r.value in rows && TokenMatches(r.value, token, ip)
    ensures r.None? <==> forall j :: 0 <= j < |rows| ==> !TokenMatches(rows[j], token, ip)
  {
    match FindToken(rows, token, ip)
    case Some(i) => Some(rows[i])
    case None => None
  }

  /** The row the `user_id` conflict of the upsert lands on. */
  function FindUserToken(rows: seq<TokenRow>, userId: Json): (r: Option<nat>)
    ensures r.Some? ==> && r.value < |rows| && SqlEquals(rows[r.value].userId, userId)
                        && forall j :: 0 <= j < r.value ==> !SqlEquals(rows[j].userId, userId)
    ensures r.None? ==> forall j :: 0 <= j < |rows| ==> !SqlEquals(rows[j].userId, userId)
  {
    if rows == [] then None
    else if SqlEquals(rows[0].userId, userId) then Some(0)
    else match FindUserToken(rows[1..], userId)
      case None => None
      case Some(i) => Some(i + 1)
  }

  /**
   * `insert … orUpdate(['token', 'ip_address'], ['user_id'])`: the user's row
   * gets the new token and ip; a user without a row gets a new one at the end.
   */
  function UpsertToken(rows: seq<TokenRow>, userId: Json, token: string, ip: Option<string>): (r: seq<TokenRow>)
    ensures FindUserToken(rows, userId).None? ==> r == rows + [TokenRow(userId, token, ip)]
    ensures FindUserToken(rows, userId).Some? ==>
              var i := FindUserToken(rows, userId).value;
              r == rows[i := TokenRow(rows[i].userId, token, ip)]
  {
    if rows == [] then [TokenRow(userId, token, ip)]
    else if SqlEquals(rows[0].userId, userId) then [TokenRow(rows[0].userId, token, ip)] + rows[1..]
    else [rows[0]] + UpsertToken(rows[1..], userId, token, ip)
  }

  function StoreRefreshTokenStep(s: Snapshot, userId: Json, token: string, ip: Option<string>): Snapshot
  {
    s.(tokens := UpsertToken(s.tokens, userId, token, ip))
  }

  /**
   * After storing, the user has exactly one row and it carries the new token
   * and ip; every other user's row is as it was, and the token can be found.
   */
  lemma StoreRefreshTokenOneRow(s: Snapshot, userId: Json, token: string, ip: Option<string>)
    requires ValidSnapshot(s)
    ensures ValidSnapshot(StoreRefreshTokenStep(s, userId, token, ip))
    ensures var t := StoreRefreshTokenStep(s, userId, token, ip).tokens;
            && (forall j :: 0 <= j < |t| && SqlEquals(t[j].userId, userId) ==> t[j].token == token && t[j].ip == ip)
            && (forall j :: 0 <= j < |s.tokens| && !SqlEquals(s.tokens[j].userId, userId) ==> t[j] == s.tokens[j])
            && |t| == |s.tokens| + (if FindUserToken(s.tokens, userId).Some? then 0 else 1)
            && FindToken(t, token, ip).Some?
  {
    var t := UpsertToken(s.tokens, userId, token, ip);
    match FindUserToken(s.tokens, userId)
    case None =>
      assert TokenMatches(t[|s.tokens|], token, ip);
    case Some(i) =>
      assert TokenMatches(t[i], token, ip);
      forall j | 0 <= j < |t| && SqlEquals(t[j].userId, userId)
        ensures t[j].token == token && t[j].ip == ip
      {
        if j != i {
          assert false;
        }
      }
  }

  predicate DeleteMatches(row: TokenRow, userId: Json, ip: Option<string>)
  {
    SqlEquals(row.userId, userId) && IpMatches(row.ip, ip)
  }

  /** `delete({user_id, ip_address: ip})`: the rows that stay, in order. */
  function DeleteTokens(rows: seq<TokenRow>, userId: Json, ip: Option<string>): (r: seq<TokenRow>)
    ensures |r| <= |rows|
    ensures forall x :: x in r ==> x in rows && !DeleteMatches(x, userId, ip)
    ensures forall x :: x in rows && !DeleteMatches(x, userId, ip) ==> x in r
  {
    if rows == [] then []
    else if DeleteMatches(rows[0], userId, ip) then DeleteTokens(rows[1..], userId, ip)
    else [rows[0]] + DeleteTokens(rows[1..], userId, ip)
  }

  function DeleteRefreshTokenStep(s: Snapshot, userId: Json, ip: Option<string>): Snapshot
  {
    s.(tokens := DeleteTokens(s.tokens, userId, ip))
  }

  /** Deleting keeps at most one row per user. */
  lemma {:induction false} DeleteTokensKeyed(rows: seq<TokenRow>, userId: Json, ip: Option<string>)
    requires TokensKeyed(rows)
    ensures TokensKeyed(DeleteTokens(rows, userId, ip))
  {
    if rows != [] {
      var rest := DeleteTokens(rows[1..], userId, ip);
      assert TokensKeyed(rows[1..]) by {
        forall i, j | 0 <= i < j < |rows[1..]|
          ensures !SqlEquals(rows[1..][i].userId, rows[1..][j].userId)
        {
          assert rows[1..][i] == rows[i + 1] && rows[1..][j] == rows[j + 1];
        }
      }
      DeleteTokensKeyed(rows[1..], userId, ip);
      if !DeleteMatches(rows[0], userId, ip) {
        var r := [rows[0]] + rest;
        forall i, j | 0 <= i < j < |r|
          ensures !SqlEquals(r[i].userId, r[j].userId)
        {
          if i == 0 {
            assert r[j] in rows[1..];
            var k :| 0 <= k < |rows[1..]| && rows[1..][k] == r[j];
            assert rows[k + 1] == r[j];
          } else {
            assert r[i] == rest[i - 1] && r[j] == rest[j - 1];
          }
        }
      }
    }
  }

  /** After a logout with no ip, no row of that user is left, and every other user keeps its rows. */
  lemma LogoutRevokes(s: Snapshot, userId: Json)
    ensures FindUserToken(DeleteRefreshTokenStep(s, userId, None).tokens, userId).None?
    ensures forall x :: x in s.tokens && !SqlEquals(x.userId, userId) ==> x in DeleteRefreshTokenStep(s, userId, None).tokens
  {
    var t := DeleteTokens(s.tokens, userId, None);
    forall j | 0 <= j < |t| ensures !SqlEquals(t[j].userId, userId) {
      assert t[j] in t;
    }
  }

  // ---------------------------------------------------------------- OTP records

  /** A falsy code (absent or 0) adds no `code` condition; any other must equal the stored code. */
  predicate OtpMatches(row: OtpRow, data: string, code: Option<int>)
  {
    row.data == data && (code.Some? && code.value != 0 ==> row.code == code.value)
  }

  /** The first row of the `GetOtp` query (and, with no code, of `findOne({where: {data}})`). */
  function FindOtp(otps: seq<OtpRow>, data: string, code: Option<int>): (r: Option<nat>)
    ensures r.Some? ==> && r.value < |otps| && OtpMatches(otps[r.value], data, code)
                        && forall j :: 0 <= j < r.value ==> !OtpMatches(otps[j], data, code)
    ensures r.None? ==> forall j :: 0 <= j < |otps| ==> !OtpMatches(otps[j], data, code)
  {
    if otps == [] then None
    else if OtpMatches(otps[0], data, code) then Some(0)
    else match FindOtp(otps[1..], data, code)
      case None => None
      case Some(i) => Some(i + 1)
  }

  /**
   * What `GetOtp(data, code)` resolves to: a stored row for `data` (and for
   * `code` when it is truthy) read without its unselected `type`, or a 401.
   */
  function GetOtpResult(otps: seq<OtpRow>, data: string, code: Option<int>): (r: Outcome<OtpRow>)
    ensures r.Ok? ==> && r.value.data == data && r.value.kind.None?
                      && (code.Some? && code.value != 0 ==> r.value.code == code.value)
                      && exists i :: 0 <= i < |otps| && r.value == otps[i].(kind := None)
    ensures r.Fail? <==> forall i :: 0 <= i < |otps| ==> !OtpMatches(otps[i], data, code)
    ensures r.Fail? ==> r.error == Throw("Invalid OTP Code", 401)
  {
    match FindOtp(otps, data, code)
    case Some(i) => Ok(otps[i].(kind := None))
    case None => Fail(Throw("Invalid OTP Code", 401))
  }

  /**
   * `StoreOtp`: the row for `dto.data` gets the new code and creation time
   * (keeping its id, user and tag); without one, a new untagged row is added.
   */
  function StoreOtpStep(s: Snapshot, dto: OtpDto, now: int): Snapshot
  {
    match FindOtp(s.otps, dto.data, None)
    case Some(i) => s.(otps := s.otps[i := s.otps[i].(code := dto.code, createdAt := now)])
    case None => s.(otps := s.otps + [OtpRow(s.nextOtpId, dto.userId, dto.data, dto.code, None, now)],
                    nextOtpId := s.nextOtpId + 1)
  }

  /**
   * Storing keeps one row per `data`: an existing row is overwritten in place
   * and no row is added, otherwise exactly one is. That row then carries the
   * new code and time, and every row for other data is unchanged.
   */
  lemma StoreOtpUpsert(s: Snapshot, dto: OtpDto, now: int)
    requires ValidSnapshot(s)
    ensures var t := StoreOtpStep(s, dto, now);
            && ValidSnapshot(t)
            && t.users == s.users && t.userData == s.userData && t.roles == s.roles && t.tokens == s.tokens
            && |t.otps| == |s.otps| + (if FindOtp(s.otps, dto.data, None).Some? then 0 else 1)
            && (forall j :: 0 <= j < |s.otps| && s.otps[j].data != dto.data ==> t.otps[j] == s.otps[j])
            && (forall j :: 0 <= j < |t.otps| && t.otps[j].data == dto.data ==>
                  t.otps[j].code == dto.code && t.otps[j].createdAt == now)
            && (FindOtp(s.otps, dto.data, None).None? ==>
                  t.otps[|s.otps|] == OtpRow(s.nextOtpId, dto.userId, dto.data, dto.code, None, now))
  {
    match FindOtp(s.otps, dto.data, None)
    case None =>
    case Some(i) =>
      var t := StoreOtpStep(s, dto, now);
      forall j | 0 <= j < |t.otps| && t.otps[j].data == dto.data
        ensures t.otps[j].code == dto.code && t.otps[j].createdAt == now
      {
        if j != i {
          assert false;
        }
      }
  }

  /** The code just stored is the one `GetOtp` then accepts. */
  lemma StoreOtpThenGet(s: Snapshot, dto: OtpDto, now: int)
    requires ValidSnapshot(s)
    ensures var r := GetOtpResult(StoreOtpStep(s, dto, now).otps, dto.data, Some(dto.code));
            r.Ok? && r.value.code == dto.code && r.value.createdAt == now
  {
    StoreOtpUpsert(s, dto, now);
    var t := StoreOtpStep(s, dto, now);
    match FindOtp(s.otps, dto.data, None)
    case None =>
      assert OtpMatches(t.otps[|s.otps|], dto.data, Some(dto.code));
    case Some(i) =>
      assert OtpMatches(t.otps[i], dto.data, Some(dto.code));
  }

  /** `remove(otp)`: deletes by primary key. */
  function RemoveOtp(otps: seq<OtpRow>, id: nat): (r: seq<OtpRow>)
    ensures |r| <= |otps|
    ensures forall x :: x in r ==> x in otps && x.id != id
    ensures forall x :: x in otps && x.id != id ==> x in r
  {
    if otps == [] then []
    else if otps[0].id == id then RemoveOtp(otps[1..], id)
    else [otps[0]] + RemoveOtp(otps[1..], id)
  }

  lemma {:induction false} WellFormedTail(otps: seq<OtpRow>, next: nat)
    requires otps != [] && OtpsWellFormed(otps, next)
    ensures OtpsWellFormed(otps[1..], next)
  {
    forall i, j | 0 <= i < j < |otps[1..]|
      ensures otps[1..][i].data != otps[1..][j].data && otps[1..][i].id != otps[1..][j].id
    {
      assert otps[1..][i] == otps[i + 1] && otps[1..][j] == otps[j + 1];
    }
  }

  /** A row that is kept differs in data and id from every other kept row. */
  lemma {:induction false} RemoveOtpWellFormed(otps: seq<OtpRow>, next: nat, id: nat)
    requires OtpsWellFormed(otps, next)
    ensures OtpsWellFormed(RemoveOtp(otps, id), next)
  {
    if otps != [] {
      WellFormedTail(otps, next);
      RemoveOtpWellFormed(otps[1..], next, id);
      if otps[0].id != id {
        ConsWellFormed(otps[0], RemoveOtp(otps[1..], id), otps, next);
      }
    }
  }

  lemma ConsWellFormed(x: OtpRow, rest: seq<OtpRow>, otps: seq<OtpRow>, next: nat)
    requires otps != [] && x == otps[0] && OtpsWellFormed(otps, next) && OtpsWellFormed(rest, next)
    requires forall y :: y in rest ==> y in otps[1..]
    ensures OtpsWellFormed([x] + rest, next)
  {
    var r := [x] + rest;
    forall j | 0 < j < |r|
      ensures r[0].data != r[j].data && r[0].id != r[j].id
    {
      assert r[j] == rest[j - 1];
      assert r[j] in otps[1..];
      var k :| 0 <= k < |otps[1..]| && otps[1..][k] == r[j];
      assert otps[k + 1] == r[j];
    }
    forall i, j | 0 < i < j < |r|
      ensures r[i].data != r[j].data && r[i].id != r[j].id
    {
      assert r[i] == rest[i - 1] && r[j] == rest[j - 1];
    }
  }

  /** `{status: 1}` with the `updated_at` TypeORM stamps on every update. */
  function ActivationPatch(now: int): Object
  {
    [Prop("status", JNum(StatusActive)), Prop("updated_at", JNum(now))]
  }

  lemma ActivationPatchShape(now: int)
    ensures UniqueKeys(ActivationPatch(now)) && !HasKey(ActivationPatch(now), "id")
  {
    DistinctKeysUnique(ActivationPatch(now));
    if HasKey(ActivationPatch(now), "id") {
      HasKeyExists(ActivationPatch(now), "id");
    }
  }

  /**
   * `VerifyOtp(row)` at time `now` (seconds), all or nothing: a 401 when more
   * than `ttl` seconds have passed since the row was created; a 404 when no
   * user has the email before the first `|` of its data; otherwise a pending
   * (falsy-status) user becomes active and the row is removed.
   */
  function VerifyOtpStep(s: Snapshot, row: OtpRow, now: int, ttl: int): Outcome<Snapshot>
  {
    if now - row.createdAt > ttl then Fail(Throw("Expired OTP Code", 401))
    else match FindRow(s.users, "email", JStr(FirstField(row.data, '|')))
      case None => Fail(Throw("User not found", 404))
      case Some(i) =>
        var users := if Truthy(Get(s.users[i], "status")) then s.users
                     else UpdateWhere(s.users, "id", Get(s.users[i], "id"), ActivationPatch(now));
        Ok(s.(users := users, otps := RemoveOtp(s.otps, row.id)))
  }

  /** Expiry is exactly "more than `ttl` seconds": at `ttl` seconds the OTP is still accepted. */
  lemma VerifyOtpExpiry(s: Snapshot, row: OtpRow, now: int, ttl: int)
    ensures VerifyOtpStep(s, row, now, ttl) == Fail(Throw("Expired OTP Code", 401)) <==> now - row.createdAt > ttl
  {
  }

  /** Within the TTL, the only failure is a missing user, looked up by the text before the first `|`. */
  lemma VerifyOtpUser(s: Snapshot, row: OtpRow, now: int, ttl: int)
    requires now - row.createdAt <= ttl
    ensures VerifyOtpStep(s, row, now, ttl).Fail? <==>
              forall j :: 0 <= j < |s.users| ==> !SqlEquals(Get(s.users[j], "email"), JStr(FirstField(row.data, '|')))
    ensures VerifyOtpStep(s, row, now, ttl).Fail? ==> VerifyOtpStep(s, row, now, ttl).error == Throw("User not found", 404)
  {
  }

  /**
   * A successful verification activates the user only when its status is
   * falsy (0, pending): a status of 1, 2 or 3 is left alone. No other user
   * changes.
   */
  lemma VerifyOtpActivates(s: Snapshot, row: OtpRow, now: int, ttl: int)
    requires ValidSnapshot(s)
    requires VerifyOtpStep(s, row, now, ttl).Ok?
    ensures var i := FindRow(s.users, "email", JStr(FirstField(row.data, '|'))).value;
            var t := VerifyOtpStep(s, row, now, ttl).value;
            && t.userData == s.userData && t.roles == s.roles && t.tokens == s.tokens && t.nextOtpId == s.nextOtpId
            && |t.users| == |s.users|
            && Get(t.users[i], "status") == (if Truthy(Get(s.users[i], "status")) then Get(s.users[i], "status")
                                              else JNum(StatusActive))
            && forall j :: 0 <= j < |s.users| && j != i ==> t.users[j] == s.users[j]
  {
    var i := FindRow(s.users, "email", JStr(FirstField(row.data, '|'))).value;
    if !Truthy(Get(s.users[i], "status")) {
      var patch := ActivationPatch(now);
      DistinctKeysUnique(patch);
      GetAssign(s.users[i], patch, "status");
      UpdateById(s.users, i, patch);
    }
  }

  /** With distinct ids, an update keyed by one user's id patches that user only. */
  lemma UpdateById(users: seq<Object>, i: nat, patch: Object)
    requires UsersKeyed(users) && i < |users|
    ensures var r := UpdateWhere(users, "id", Get(users[i], "id"), patch);
            && |r| == |users| && r[i] == Assign(users[i], patch)
            && forall j :: 0 <= j < |users| && j != i ==> r[j] == users[j]
  {
    var r := UpdateWhere(users, "id", Get(users[i], "id"), patch);
    forall j | 0 <= j < |users| && j != i ensures r[j] == users[j] {
      assert !SqlEquals(Get(users[j], "id"), Get(users[i], "id"));
    }
  }

  /** An OTP is single use: once verified, `GetOtp` for its data fails whatever code is given. */
  lemma VerifyOtpSingleUse(s: Snapshot, data: string, code: Option<int>, code': Option<int>, now: int, ttl: int)
    requires ValidSnapshot(s)
    requires GetOtpResult(s.otps, data, code).Ok?
    requires VerifyOtpStep(s, GetOtpResult(s.otps, data, code).value, now, ttl).Ok?
    ensures ValidSnapshot(VerifyOtpStep(s, GetOtpResult(s.otps, data, code).value, now, ttl).value)
    ensures GetOtpResult(VerifyOtpStep(s, GetOtpResult(s.otps, data, code).value, now, ttl).value.otps, data, code').Fail?
  {
    var i := FindOtp(s.otps, data, code).value;
    var row := GetOtpResult(s.otps, data, code).value;
    VerifyOtpValid(s, row, now, ttl);
    RemovedDataGone(s.otps, s.nextOtpId, i);
    var t := RemoveOtp(s.otps, row.id);
    forall j | 0 <= j < |t| ensures !OtpMatches(t[j], data, code') {
      assert t[j] in t;
    }
  }

  /** Removing a row by id removes every row with its data. */
  lemma RemovedDataGone(otps: seq<OtpRow>, next: nat, i: nat)
    requires OtpsWellFormed(otps, next) && i < |otps|
    ensures forall x :: x in RemoveOtp(otps, otps[i].id) ==> x.data != otps[i].data
  {
    forall x | x in RemoveOtp(otps, otps[i].id) ensures x.data != otps[i].data {
      var k :| 0 <= k < |otps| && otps[k] == x;
      assert k != i;
    }
  }

  /** Verification keeps the one-row-per-data and one-row-per-user invariants. */
  lemma VerifyOtpValid(s: Snapshot, row: OtpRow, now: int, ttl: int)
    requires ValidSnapshot(s) && VerifyOtpStep(s, row, now, ttl).Ok?
    ensures ValidSnapshot(VerifyOtpStep(s, row, now, ttl).value)
  {
    RemoveOtpWellFormed(s.otps, s.nextOtpId, row.id);
    var i := FindRow(s.users, "email", JStr(FirstField(row.data, '|'))).value;
    if !Truthy(Get(s.users[i], "status")) {
      ActivationPatchShape(now);
      UpdateWhereKeepsIds(s.users, "id", Get(s.users[i], "id"), ActivationPatch(now));
    }
  }

  // ---------------------------------------------------------------- the service

  /** `AuthService`, over the shared database; `otpTtl` is `EXPIRY_OTP_IN_SECOND`. */
  class AuthService {
    const db: Database
    const otpTtl: int

    constructor (db: Database, otpTtl: int)
      ensures this.db == db && this.otpTtl == otpTtl
    {
      this.db := db;
      this.otpTtl := otpTtl;
    }

    method GetRefreshToken(token: string, ip: Option<string>) returns (r: Option<TokenRow>)
      ensures r.Some? ==> r.value in db.tokens && TokenMatches(r.value, token, ip)
      ensures r.None? <==> forall j :: 0 <= j < |db.tokens| ==> !TokenMatches(db.tokens[j], token, ip)
      ensures r == TokenLookup(db.tokens, token, ip)
    {
      var found := FindToken(db.tokens, token, ip);
      if found.Some? {
        r := Some(db.tokens[found.value]);
      } else {
        r := None;
      }
    }

    method StoreRefreshToken(userId: Json, token: string, ip: Option<string>)
      requires db.Valid()
      modifies db
      ensures db.Valid()
      ensures db.State() == StoreRefreshTokenStep(old(db.State()), userId, token, ip)
    {
      StoreRefreshTokenOneRow(db.State(), userId, token, ip);
      db.tokens := UpsertToken(db.tokens, userId, token, ip);
    }

    method GetOtp(data: string, code: Option<int>) returns (r: Outcome<OtpRow>)
      ensures r == GetOtpResult(db.otps, data, code)
    {
      var found := FindOtp(db.otps, data, code);
      if found.Some? {
        r := Ok(db.otps[found.value].(kind := None));
      } else {
        r := Fail(Throw("Invalid OTP Code", 401));
      }
    }

    method VerifyOtp(row: OtpRow, now: int) returns (r: Outcome<()>)
      requires db.Valid()
      modifies db
      ensures db.Valid()
      ensures var step := VerifyOtpStep(old(db.State()), row, now, otpTtl);
              && (step.Fail? ==> r == Fail(step.error) && db.State() == old(db.State()))
              && (step.Ok? ==> r == Ok(()) && db.State() == step.value)
    {
      if now - row.createdAt > otpTtl {
        return Fail(Throw("Expired OTP Code", 401));
      }
      var email := FirstField(row.data, '|');
      var found := FindRow(db.users, "email", JStr(email));
      if found.None? {
        return Fail(Throw("User not found", 404));
      }
      var user := db.users[found.value];
      VerifyOtpValid(db.State(), row, now, otpTtl);
      if !Truthy(Get(user, "status")) {
        db.users := UpdateWhere(db.users, "id", Get(user, "id"), ActivationPatch(now));
      }
      DeleteOtp(row);
      r := Ok(());
    }

    method StoreOtp(dto: OtpDto, now: int)
      requires db.Valid()
      modifies db
      ensures db.Valid()
      ensures db.State() == StoreOtpStep(old(db.State()), dto, now)
    {
      StoreOtpUpsert(db.State(), dto, now);
      var existing := FindOtp(db.otps, dto.data, None);
      if existing.Some? {
        var i := existing.value;
        db.otps := db.otps[i := db.otps[i].(code := dto.code, createdAt := now)];
      } else {
        db.otps := db.otps + [OtpRow(db.nextOtpId, dto.userId, dto.data, dto.code, None, now)];
        db.nextOtpId := db.nextOtpId + 1;
      }
    }

    method DeleteOtp(row: OtpRow)
      requires db.Valid()
      modifies db
      ensures db.Valid()
      ensures db.State() == old(db.State()).(otps := RemoveOtp(old(db.otps), row.id))
    {
      RemoveOtpWellFormed(db.otps, db.nextOtpId, row.id);
      db.otps := RemoveOtp(db.otps, row.id);
    }

    /** Returns the number of rows deleted (`affected`). */
    method DeleteRefreshToken(userId: Json, ip: Option<string>) returns (affected: nat)
      requires db.Valid()
      modifies db
      ensures db.Valid()
      ensures db.State() == DeleteRefreshTokenStep(old(db.State()), userId, ip)
      ensures affected == |old(db.tokens)| - |db.tokens|
    {
      DeleteTokensKeyed(db.tokens, userId, ip);
      var kept := DeleteTokens(db.tokens, userId, ip);
      affected := |db.tokens| - |kept|;
      db.tokens := kept;
    }
  }
}
