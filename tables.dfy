// The database the services share, as in-memory tables in insertion order:
// `users` and `user_data` rows as the JavaScript objects TypeORM hands back
// (they are updated with `Object.assign`), and typed rows for `roles`, `otp`
// and `user_token` (app/module/*/…model.ts).
module Tables {
  import opened Wrappers
  import opened Json
  import opened CustomError
  import PermissionHandler

  /** A row of `otp`. `id` stands for the generated uuid; `createdAt` is in seconds. */
  datatype OtpRow = OtpRow(id: nat, userId: Json, data: string, code: int, kind: Option<string>, createdAt: int)

  /** A row of `user_token`; an `ip` of `None` is SQL `NULL`. */
  datatype TokenRow = TokenRow(userId: Json, token: string, ip: Option<string>)

  /** The columns of a `roles` row that a user lookup selects, with the `permissions` text already parsed. */
  datatype Role = Role(id: Json, name: string, permissions: seq<PermissionHandler.DbPlatform>,
                       access: int, isDefault: bool)

  /** The user status codes. */
  const StatusPending: int := 0
  const StatusActive: int := 1
  const StatusSuspended: int := 2
  const StatusDeactivated: int := 3

  /** The columns of `users`, which is all TypeORM persists of a user entity. */
  const UserColumns: seq<string> :=
    ["id", "email", "username", "password", "pin", "role_id", "referral_code", "type", "status", "created_at", "updated_at"]

  /** The columns of `user_data`. */
  const UserDataColumns: seq<string> := ["id", "user_id", "profile", "phone", "name", "province", "city", "district"]

  /** SQL `a = b` on a bound parameter: `NULL` (and an unbound `undefined`) equals nothing. */
  predicate SqlEquals(a: Json, b: Json)
  {
    !a.JNull? && !a.JUndefined? && !b.JNull? && !b.JUndefined? && StrictEquals(a, b)
  }

  /** The first row whose column `col` equals `v`, as `findOne({where: {col: v}})` returns it. */
  function FindRow(rows: seq<Object>, col: string, v: Json): (r: Option<nat>)
    ensures r.Some? ==> && r.value < |rows| && SqlEquals(Get(rows[r.value], col), v)
                        && forall j :: 0 <= j < r.value ==> !SqlEquals(Get(rows[j], col), v)
    ensures r.None? ==> forall j :: 0 <= j < |rows| ==> !SqlEquals(Get(rows[j], col), v)
  {
    if rows == [] then None
    else if SqlEquals(Get(rows[0], col), v) then Some(0)
    else match FindRow(rows[1..], col, v)
      case None => None
      case Some(i) => Some(i + 1)
  }

  /** A row matches first exactly when it matches and no row before it does. */
  lemma FindRowAt(rows: seq<Object>, col: string, v: Json, p: nat)
    requires p < |rows| && SqlEquals(Get(rows[p], col), v)
    requires forall j :: 0 <= j < p ==> !SqlEquals(Get(rows[j], col), v)
    ensures FindRow(rows, col, v) == Some(p)
  {
  }

  /**
   * `update(target, {col: v}, patch)`: `patch` written onto every row whose
   * `col` equals `v`; every other row is left as it was.
   */
  function UpdateWhere(rows: seq<Object>, col: string, v: Json, patch: Object): (r: seq<Object>)
    ensures |r| == |rows|
    ensures forall j :: 0 <= j < |rows| && SqlEquals(Get(rows[j], col), v) ==> r[j] == Assign(rows[j], patch)
    ensures forall j :: 0 <= j < |rows| && !SqlEquals(Get(rows[j], col), v) ==> r[j] == rows[j]
  {
    if rows == [] then []
    else [if SqlEquals(Get(rows[0], col), v) then Assign(rows[0], patch) else rows[0]]
         + UpdateWhere(rows[1..], col, v, patch)
  }

  /** The properties `save` writes: TypeORM skips every column whose value is `undefined`. */
  function Defined(o: Object): (r: Object)
    ensures forall i :: 0 <= i < |r| ==> !r[i].value.JUndefined?
  {
    if o == [] then []
    else if o[0].value.JUndefined? then Defined(o[1..])
    else [o[0]] + Defined(o[1..])
  }

  lemma {:induction false} GetDefined(o: Object, k: string)
    requires UniqueKeys(o)
    ensures Get(Defined(o), k) == Get(o, k)
    ensures HasKey(Defined(o), k) <==> HasKey(o, k) && !Get(o, k).JUndefined?
  {
    if o != [] {
      GetDefined(o[1..], k);
      if o[0].key == k {
        GetMissing(o[1..], k);
        if HasKey(Defined(o[1..]), k) {
          assert false;
        }
        GetMissing(Defined(o[1..]), k);
      }
      if !o[0].value.JUndefined? {
        assert Defined(o)[1..] == Defined(o[1..]);
      }
    }
  }

  lemma {:induction false} DefinedUnique(o: Object)
    requires UniqueKeys(o)
    ensures UniqueKeys(Defined(o))
  {
    if o != [] {
      DefinedUnique(o[1..]);
      if !o[0].value.JUndefined? {
        GetDefined(o[1..], o[0].key);
        assert Defined(o)[1..] == Defined(o[1..]);
      }
    }
  }

  /** Patching rows leaves their ids as they were when the patch has no `id`. */
  lemma UpdateWhereKeepsIds(rows: seq<Object>, col: string, v: Json, patch: Object)
    requires UniqueKeys(patch) && !HasKey(patch, "id")
    ensures forall j :: 0 <= j < |rows| ==> Get(UpdateWhere(rows, col, v, patch)[j], "id") == Get(rows[j], "id")
  {
    forall j | 0 <= j < |rows| && SqlEquals(Get(rows[j], col), v)
      ensures Get(Assign(rows[j], patch), "id") == Get(rows[j], "id")
    {
      GetAssign(rows[j], patch, "id");
    }
  }

  /** Every user has a generated (string) id, and no two users share one. */
  predicate UsersKeyed(users: seq<Object>)
  {
    && (forall j :: 0 <= j < |users| ==> Get(users[j], "id").JStr?)
    && (forall i, j :: 0 <= i < j < |users| ==> Get(users[i], "id") != Get(users[j], "id"))
  }

  /** One `data` string per OTP row, distinct ids, all below the next id to hand out. */
  predicate OtpsWellFormed(otps: seq<OtpRow>, nextOtpId: nat)
  {
    && (forall i, j :: 0 <= i < j < |otps| ==> otps[i].data != otps[j].data && otps[i].id != otps[j].id)
    && (forall i :: 0 <= i < |otps| ==> otps[i].id < nextOtpId)
  }

  /** At most one refresh-token row per user, the key the upsert conflicts on. */
  predicate TokensKeyed(tokens: seq<TokenRow>)
  {
    forall i, j :: 0 <= i < j < |tokens| ==> !SqlEquals(tokens[i].userId, tokens[j].userId)
  }

  /** Every role's `permissions` text parsed to an object, which never repeats a platform. */
  predicate RolesParsed(roles: seq<Role>)
  {
    forall i :: 0 <= i < |roles| ==> PermissionHandler.UniquePlatforms(roles[i].permissions)
  }

  /** The contents of every table at one moment. */
  datatype Snapshot = Snapshot(users: seq<Object>, userData: seq<Object>, roles: seq<Role>,
                               otps: seq<OtpRow>, tokens: seq<TokenRow>, nextOtpId: nat)

  /** What an operation over the tables ends in: its result and the tables it leaves behind. */
  datatype Effect<T> = Effect(result: Outcome<T>, state: Snapshot)

  predicate ValidSnapshot(s: Snapshot)
  {
    OtpsWellFormed(s.otps, s.nextOtpId) && TokensKeyed(s.tokens) && UsersKeyed(s.users) && RolesParsed(s.roles)
  }

  /** The database connection every service holds. */
  class Database {
    var users: seq<Object>
    var userData: seq<Object>
    var roles: seq<Role>
    var otps: seq<OtpRow>
    var tokens: seq<TokenRow>
    var nextOtpId: nat

    function State(): Snapshot
      reads this
    {
      Snapshot(users, userData, roles, otps, tokens, nextOtpId)
    }

    predicate Valid()
      reads this
    {
      ValidSnapshot(State())
    }

    /** A database holding the given users, profiles and roles, and no OTP or refresh token. */
    constructor (users: seq<Object>, userData: seq<Object>, roles: seq<Role>)
      requires UsersKeyed(users) && RolesParsed(roles)
      ensures State() == Snapshot(users, userData, roles, [], [], 0)
      ensures Valid()
    {
      this.users := users;
      this.userData := userData;
      this.roles := roles;
      this.otps := [];
      this.tokens := [];
      this.nextOtpId := 0;
    }
  }
}
