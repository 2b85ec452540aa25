// The user directory (app/module/users/users.service.ts): the lookup by a
// nested parameter object, the user view it returns, the `Create` upsert with
// its defaults, and `UpdateUserPatch`, which splits a patch between `users`
// and `user_data` by their column lists.
module UsersService {
  import opened Wrappers
  import opened Decimal
  import opened Strings
  import opened Json
  import opened CustomError
  import Common
  import opened Tables
  import PermissionHandler

  // ---------------------------------------------------------------- the where clause

  /** `prefix ? `${prefix}.${key}` : key`. */
  function FieldName(prefix: string, key: string): string
  {
    if prefix != "" then prefix + "." + key else key
  }

  /**
   * The leaves `buildWhereConditions(obj, prefix)` visits from the `k`-th
   * entry on, depth first: every non-object value (`null` included) under its
   * dot-joined path. Array values are walked too, under their indices.
   */
  function Leaves(obj: Json, prefix: string, k: nat): (r: seq<Prop>)
    requires IsObjectLike(obj)
    ensures forall i :: 0 <= i < |r| ==> !IsObjectLike(r[i].value)
    ensures prefix != "" ==> forall i :: 0 <= i < |r| ==>
              |r[i].key| > |prefix| && r[i].key[..|prefix| + 1] == prefix + "."
    decreases obj, |Entries(obj).value| - k
  {
    var es := Entries(obj).value;
    if k >= |es| then []
    else
      var field := FieldName(prefix, es[k].key);
      var here :=
        if IsObjectLike(es[k].value) then
          assert es[k].value < obj by {
            if obj.JObj? {
              assert es[k] in obj.props;
            } else {
              assert es[k].value == obj.items[k];
            }
          }
          var sub := Leaves(es[k].value, field, 0);
          assert prefix != "" ==> forall i :: 0 <= i < |sub| ==> sub[i].key[..|prefix| + 1] == prefix + "." by {
            if prefix != "" {
              forall i | 0 <= i < |sub| ensures sub[i].key[..|prefix| + 1] == prefix + "." {
                assert sub[i].key[..|field| + 1][..|prefix| + 1] == sub[i].key[..|prefix| + 1];
                assert field[..|prefix| + 1] == prefix + ".";
              }
            }
          }
          sub
        else [Prop(field, es[k].value)];
      here + Leaves(obj, prefix, k + 1)
  }

  /** An entry's value is smaller than the object or array holding it. */
  lemma ChildSmaller(obj: Json, k: nat)
    requires IsObjectLike(obj) && k < |Entries(obj).value|
    ensures Entries(obj).value[k].value < obj
  {
    if obj.JObj? {
      assert Entries(obj).value[k] in obj.props;
    } else {
      assert Entries(obj).value[k].value == obj.items[k];
    }
  }

  /** The `k`-th entry contributes its own leaves, then come those of the entries after it. */
  lemma LeavesStep(obj: Json, prefix: string, k: nat)
    requires IsObjectLike(obj) && k < |Entries(obj).value|
    ensures var e := Entries(obj).value[k];
            Leaves(obj, prefix, k) ==
              (if IsObjectLike(e.value) then Leaves(e.value, FieldName(prefix, e.key), 0)
               else [Prop(FieldName(prefix, e.key), e.value)]) + Leaves(obj, prefix, k + 1)
  {
  }

  /** `${field} = :${field}` for every leaf. */
  function Conditions(leaves: seq<Prop>): (cs: seq<string>)
    ensures |cs| == |leaves|
    ensures forall i :: 0 <= i < |leaves| ==> cs[i] == leaves[i].key + " = :" + leaves[i].key
  {
    seq(|leaves|, i requires 0 <= i < |leaves| => leaves[i].key + " = :" + leaves[i].key)
  }

  lemma ConditionsConcat(a: seq<Prop>, b: seq<Prop>)
    ensures Conditions(a + b) == Conditions(a) + Conditions(b)
  {
  }

  /** `whereConditions.join(` ${matchType} `)`, where `matchOr` stands for `"OR"` and the default is `"AND"`. */
  function WhereClause(conditions: seq<string>, matchOr: bool): string
  {
    Join(conditions, if matchOr then " OR " else " AND ")
  }

  /** `Object.assign` over property lists runs left to right. */
  lemma {:induction false} AssignConcat(t: Object, a: Object, b: Object)
    ensures Assign(t, a + b) == Assign(Assign(t, a), b)
    decreases |a|
  {
    if a == [] {
      assert a + b == b;
    } else {
      assert (a + b)[0] == a[0] && (a + b)[1..] == a[1..] + b;
      var t' := Set(t, a[0].key, a[0].value);
      assert Assign(t, a + b) == Assign(t', a[1..] + b);
      assert Assign(t, a) == Assign(t', a[1..]);
      AssignConcat(t', a[1..], b);
    }
  }

  /** One entry's turn of `buildWhereConditions`: its leaves first, then the rest. */
  lemma BuildStep(cs: seq<string>, ps: Object, obj: Json, prefix: string, k: nat)
    requires IsObjectLike(obj) && k < |Entries(obj).value|
    ensures var e := Entries(obj).value[k];
            var field := FieldName(prefix, e.key);
            var here := if IsObjectLike(e.value) then Leaves(e.value, field, 0) else [Prop(field, e.value)];
            var rest := Leaves(obj, prefix, k + 1);
            && (cs + Conditions(here)) + Conditions(rest) == cs + Conditions(Leaves(obj, prefix, k))
            && Assign(Assign(ps, here), rest) == Assign(ps, Leaves(obj, prefix, k))
  {
    var e := Entries(obj).value[k];
    var field := FieldName(prefix, e.key);
    var here := if IsObjectLike(e.value) then Leaves(e.value, field, 0) else [Prop(field, e.value)];
    var rest := Leaves(obj, prefix, k + 1);
    LeavesStep(obj, prefix, k);
    assert Leaves(obj, prefix, k) == here + rest;
    ConditionsAppend(cs, here, rest);
    AssignConcat(ps, here, rest);
  }

  lemma ConditionsAppend(cs: seq<string>, a: seq<Prop>, b: seq<Prop>)
    ensures (cs + Conditions(a)) + Conditions(b) == cs + Conditions(a + b)
  {
    ConditionsConcat(a, b);
    assert (cs + Conditions(a)) + Conditions(b) == cs + (Conditions(a) + Conditions(b));
  }

  /** A single leaf adds one condition and sets one parameter. */
  lemma LeafStep(ps: Object, field: string, value: Json)
    ensures Conditions([Prop(field, value)]) == [field + " = :" + field]
    ensures Assign(ps, [Prop(field, value)]) == Set(ps, field, value)
  {
  }

  /** The builder state `buildWhereConditions` pushes into. */
  class WhereBuilder {
    var whereConditions: seq<string>
    var parameters: Object

    constructor ()
      ensures whereConditions == [] && parameters == []
    {
      whereConditions := [];
      parameters := [];
    }

    /**
     * `buildWhereConditions(obj, prefix)`: one condition per leaf, in order,
     * and `parameters[field] = value` for each.
     */
    method BuildWhereConditions(obj: Json, prefix: string)
      requires IsObjectLike(obj)
      modifies this
      ensures whereConditions == old(whereConditions) + Conditions(Leaves(obj, prefix, 0))
      ensures parameters == Assign(old(parameters), Leaves(obj, prefix, 0))
      decreases obj
    {
      var es := Entries(obj).value;
      ghost var all := Leaves(obj, prefix, 0);
      ghost var c0, p0 := whereConditions, parameters;
      for k := 0 to |es|
        invariant c0 + Conditions(all) == whereConditions + Conditions(Leaves(obj, prefix, k))
        invariant Assign(p0, all) == Assign(parameters, Leaves(obj, prefix, k))
      {
        var key, value := es[k].key, es[k].value;
        var field := FieldName(prefix, key);
        BuildStep(whereConditions, parameters, obj, prefix, k);
        if IsObjectLike(value) {
          ChildSmaller(obj, k);
          BuildWhereConditions(value, field);
        } else {
          LeafStep(parameters, field, value);
          whereConditions := whereConditions + [field + " = :" + field];
          parameters := Set(parameters, field, value);
        }
      }
      assert Leaves(obj, prefix, |es|) == [];
    }
  }

  // ---------------------------------------------------------------- the query

  /** The columns of `roles`. */
  const RoleColumns: seq<string> :=
    ["id", "name", "permissions", "access", "is_default", "parent_id", "created_at", "updated_at", "deleted_at"]

  /** The three tables the lookup joins, under their aliases `user`, `user_data` and `role`. */
  datatype Table = Users | UserData | Roles

  datatype Column = Column(table: Table, name: string)

  /** `column = :parameter`, with the parameter already bound. */
  datatype Criterion = Criterion(column: Column, value: Json)

  /**
   * The column a name in the where clause denotes: `alias.column`, or a bare
   * column name that exactly one of the joined tables has. Anything else is
   * an unknown or ambiguous column, which the database rejects.
   */
  function ResolveColumn(field: string): (r: Option<Column>)
    ensures r.Some? && r.value.table == Users ==> r.value.name in UserColumns
    ensures r.Some? && r.value.table == UserData ==> r.value.name in UserDataColumns
    ensures r.Some? && r.value.table == Roles ==> r.value.name in RoleColumns
    ensures '.' !in field && field in UserColumns && field !in UserDataColumns && field !in RoleColumns ==>
              r == Some(Column(Users, field))
  {
    if '.' !in field then
      var inUsers, inData, inRoles := field in UserColumns, field in UserDataColumns, field in RoleColumns;
      if inUsers && !inData && !inRoles then Some(Column(Users, field))
      else if inData && !inUsers && !inRoles then Some(Column(UserData, field))
      else if inRoles && !inUsers && !inData then Some(Column(Roles, field))
      else None
    else
      var dot := IndexOf(field, '.');
      var alias, name := field[..dot], field[dot + 1..];
      if '.' in name then None
      else if alias == "user" && name in UserColumns then Some(Column(Users, name))
      else if alias == "user_data" && name in UserDataColumns then Some(Column(UserData, name))
      else if alias == "role" && name in RoleColumns then Some(Column(Roles, name))
      else None
  }

  /** The column a `path = :path` condition compares: the text before ` = :`. */
  function ConditionColumn(c: string): string
  {
    if |c| >= 4 then c[..(|c| - 4) / 2] else c
  }

  lemma ConditionColumnOf(field: string)
    ensures ConditionColumn(field + " = :" + field) == field
  {
    assert (field + " = :" + field)[..|field|] == field;
  }

  /** Each condition the builder writes names its leaf's path. */
  lemma ConditionsColumns(leaves: seq<Prop>)
    ensures forall i :: 0 <= i < |leaves| ==> ConditionColumn(Conditions(leaves)[i]) == leaves[i].key
  {
    forall i | 0 <= i < |leaves| ensures ConditionColumn(Conditions(leaves)[i]) == leaves[i].key {
      ConditionColumnOf(leaves[i].key);
    }
  }

  /**
   * The conditions as the database reads them: each compares its column with
   * the parameter of the same name. The first unknown or ambiguous column
   * fails the whole query.
   */
  function Criteria(conditions: seq<string>, parameters: Object): (r: Outcome<seq<Criterion>>)
    ensures r.Ok? ==> |r.value| == |conditions| && forall i :: 0 <= i < |conditions| ==>
              && ResolveColumn(ConditionColumn(conditions[i])) == Some(r.value[i].column)
              && r.value[i].value == Get(parameters, ConditionColumn(conditions[i]))
    ensures r.Fail? <==> exists i :: 0 <= i < |conditions| && ResolveColumn(ConditionColumn(conditions[i])).None?
  {
    if conditions == [] then Ok([])
    else
      var field := ConditionColumn(conditions[0]);
      match ResolveColumn(field)
      case None => Fail(Plain(Cause("QueryFailedError", "Unknown or ambiguous column '" + field + "' in 'where clause'")))
      case Some(col) =>
        match Criteria(conditions[1..], parameters)
        case Fail(e) =>
          ghost var j :| 0 <= j < |conditions[1..]| && ResolveColumn(ConditionColumn(conditions[1..][j])).None?;
          assert conditions[j + 1] == conditions[1..][j];
          Fail(e)
        case Ok(rest) =>
          var r := [Criterion(col, Get(parameters, field))] + rest;
          CriteriaCons(conditions, parameters, col, rest, r);
          Ok(r)
  }

  /** The criteria of the remaining conditions, with the first one's in front, are those of all of them. */
  lemma CriteriaCons(conditions: seq<string>, parameters: Object, col: Column, rest: seq<Criterion>, r: seq<Criterion>)
    requires |conditions| > 0 && |rest| == |conditions| - 1
    requires forall i :: 0 <= i < |rest| ==>
               && ResolveColumn(ConditionColumn(conditions[1..][i])) == Some(rest[i].column)
               && rest[i].value == Get(parameters, ConditionColumn(conditions[1..][i]))
    requires r == [Criterion(col, Get(parameters, ConditionColumn(conditions[0])))] + rest
    requires ResolveColumn(ConditionColumn(conditions[0])) == Some(col)
    ensures |r| == |conditions| && forall i :: 0 <= i < |conditions| ==>
              && ResolveColumn(ConditionColumn(conditions[i])) == Some(r[i].column)
              && r[i].value == Get(parameters, ConditionColumn(conditions[i]))
    ensures !exists i :: 0 <= i < |conditions| && ResolveColumn(ConditionColumn(conditions[i])).None?
  {
    forall i | 1 <= i < |conditions|
      ensures ResolveColumn(ConditionColumn(conditions[i])) == Some(r[i].column)
    {
      assert conditions[i] == conditions[1..][i - 1] && r[i] == rest[i - 1];
    }
  }

  /** The first `user_data` row whose `user_id` is the user's id: the `LEFT JOIN` partner. */
  function JoinedData(s: Snapshot, user: Object): (r: Option<nat>)
    ensures r.Some? ==> r.value < |s.userData|
  {
    FindRow(s.userData, "user_id", Get(user, "id"))
  }

  /** The first role whose id is the user's `role_id`. */
  function FindRole(roles: seq<Role>, roleId: Json): (r: Option<nat>)
    ensures r.Some? ==> r.value < |roles| && SqlEquals(roles[r.value].id, roleId)
                        && forall j :: 0 <= j < r.value ==> !SqlEquals(roles[j].id, roleId)
    ensures r.None? ==> forall j :: 0 <= j < |roles| ==> !SqlEquals(roles[j].id, roleId)
  {
    if roles == [] then None
    else if SqlEquals(roles[0].id, roleId) then Some(0)
    else match FindRole(roles[1..], roleId)
      case None => None
      case Some(i) => Some(i + 1)
  }

  function JoinedRole(s: Snapshot, user: Object): (r: Option<nat>)
    ensures r.Some? ==> r.value < |s.roles|
  {
    FindRole(s.roles, Get(user, "role_id"))
  }

  /** A column read back from the database: one never written is `NULL`. */
  function Stored(v: Json): (r: Json)
    ensures !r.JUndefined?
    ensures !v.JUndefined? ==> r == v
  {
    if v.JUndefined? then JNull else v
  }

  /** The value a role column holds; the text and date columns are not part of the model and read as `NULL`. */
  function RoleValue(role: Role, name: string): Json
  {
    if name == "id" then role.id
    else if name == "name" then JStr(role.name)
    else if name == "access" then JNum(role.access)
    else if name == "is_default" then JBool(role.isDefault)
    else JNull
  }

  /** The value of a column in the joined row of `user`; a missing partner row reads as `NULL`. */
  function ColumnValue(s: Snapshot, user: Object, c: Column): Json
  {
    match c.table
    case Users => Stored(Get(user, c.name))
    case UserData =>
      (match JoinedData(s, user)
       case None => JNull
       case Some(d) => Stored(Get(s.userData[d], c.name)))
    case Roles =>
      (match JoinedRole(s, user)
       case None => JNull
       case Some(r) => RoleValue(s.roles[r], c.name))
  }

  predicate Holds(s: Snapshot, user: Object, c: Criterion)
  {
    SqlEquals(ColumnValue(s, user, c.column), c.value)
  }

  /**
   * Whether a user's joined row passes the where clause: any condition (OR)
   * or every condition (AND). No condition at all leaves no WHERE, and every
   * row passes.
   */
  predicate Satisfies(s: Snapshot, user: Object, cs: seq<Criterion>, matchOr: bool)
  {
    if matchOr then cs == [] || exists i :: 0 <= i < |cs| && Holds(s, user, cs[i])
    else forall i :: 0 <= i < |cs| ==> Holds(s, user, cs[i])
  }

  /** `getOne()`: the first user, in table order, whose joined row passes. */
  function FirstUserWhere(s: Snapshot, cs: seq<Criterion>, matchOr: bool, from: nat): (r: Option<nat>)
    requires from <= |s.users|
    ensures r.Some? ==> from <= r.value < |s.users| && Satisfies(s, s.users[r.value], cs, matchOr)
                        && forall j :: from <= j < r.value ==> !Satisfies(s, s.users[j], cs, matchOr)
    ensures r.None? ==> forall j :: from <= j < |s.users| ==> !Satisfies(s, s.users[j], cs, matchOr)
    decreases |s.users| - from
  {
    if from == |s.users| then None
    else if Satisfies(s, s.users[from], cs, matchOr) then Some(from)
    else FirstUserWhere(s, cs, matchOr, from + 1)
  }

  /** The query `GetUserByParams` sends: the index of the user it returns, if any. */
  function Query(s: Snapshot, conditions: seq<string>, parameters: Object, matchOr: bool): (r: Outcome<Option<nat>>)
    ensures r.Fail? <==> Criteria(conditions, parameters).Fail?
    ensures r.Ok? ==> r == Ok(FirstUserWhere(s, Criteria(conditions, parameters).value, matchOr, 0))
    ensures r.Ok? && r.value.Some? ==> r.value.value < |s.users|
  {
    match Criteria(conditions, parameters)
    case Fail(e) => Fail(e)
    case Ok(cs) => Ok(FirstUserWhere(s, cs, matchOr, 0))
  }

  // ---------------------------------------------------------------- the user it returns

  /** The `user_data` columns the lookup selects, in the entity's declaration order. */
  const UserDataSelected: seq<string> := ["id", "profile", "phone", "name", "province", "city", "district"]

  /** The entity TypeORM builds from a joined row: every selected column, in declaration order. */
  function Hydrate(row: Object, cols: seq<string>): (r: Object)
    ensures |r| == |cols|
    ensures forall i :: 0 <= i < |cols| ==> r[i] == Prop(cols[i], Stored(Get(row, cols[i])))
  {
    if cols == [] then [] else [Prop(cols[0], Stored(Get(row, cols[0])))] + Hydrate(row, cols[1..])
  }

  lemma {:induction false} GetHydrate(row: Object, cols: seq<string>, k: string)
    ensures Get(Hydrate(row, cols), k) == if k in cols then Stored(Get(row, k)) else JUndefined
    ensures HasKey(Hydrate(row, cols), k) <==> k in cols
  {
    if cols != [] {
      GetHydrate(row, cols[1..], k);
      assert Hydrate(row, cols)[1..] == Hydrate(row, cols[1..]);
    }
  }

  /** The `TypeError` a property read on `undefined` throws. */
  function ReadOfUndefined(property: string): Thrown
  {
    Plain(Cause("TypeError", "Cannot read properties of undefined (reading '" + property + "')"))
  }

  /** `await ToCamelCase(v || null)`: a falsy value becomes `null`; a string is title-cased. */
  function CamelField(v: Json): (r: Outcome<Json>)
    ensures !Truthy(v) ==> r == Ok(JNull)
    ensures Truthy(v) && v.JStr? ==> r == Ok(JStr(Common.ToCamelCase(Some(v.s)).value))
    ensures Truthy(v) && !v.JStr? ==> r.Fail?
  {
    if !Truthy(v) then Ok(JNull)
    else if v.JStr? then Ok(JStr(Common.ToCamelCase(Some(v.s)).value))
    else Fail(Plain(Cause("TypeError", "str.replace is not a function")))
  }

  /** `new Date(v)` of a stored timestamp (seconds): `null` is the epoch, `undefined` an Invalid Date. */
  function DateOf(v: Json): Json
  {
    match v
    case JNum(t) => JNum(t)
    case JNull => JNum(0)
    case _ => InvalidDate
  }

  /** An Invalid Date, which serialises as `null`. */
  const InvalidDate: Json := JNull

  /**
   * The `role` of the result: the selected entity columns (`name` is selected
   * under the raw alias `role_name`, not onto the entity), the permissions
   * converted, and three dates made from the unselected `updated_at`.
   */
  function RoleView(role: Role): (j: Json)
    ensures j.JObj? && Keys(j.props) == ["permissions", "access", "is_default", "created_at", "updated_at", "deleted_at"]
  {
    JObj([Prop("permissions", PermissionHandler.PermissionsToJson(PermissionHandler.Converted(role.permissions))),
          Prop("access", JNum(role.access)),
          Prop("is_default", JBool(role.isDefault)),
          Prop("created_at", InvalidDate),
          Prop("updated_at", InvalidDate),
          Prop("deleted_at", InvalidDate)])
  }

  /** `user.user_data` with the three place names title-cased; the cause of the first failure otherwise. */
  function UserDataView(ud: Object): Outcome<Object>
  {
    match CamelField(Get(ud, "province"))
    case Fail(e) => Fail(e)
    case Ok(province) =>
      match CamelField(Get(ud, "city"))
      case Fail(e) => Fail(e)
      case Ok(city) =>
        match CamelField(Get(ud, "district"))
        case Fail(e) => Fail(e)
        case Ok(district) =>
          Ok(Set(Set(Set(Set(ud, "province", province), "city", city), "district", district), "phone", Get(ud, "phone")))
  }

  /** The object `GetUserByParams` builds from the user it found. */
  function UserView(s: Snapshot, user: Object): Outcome<Json>
  {
    match JoinedData(s, user)
    case None => Fail(ReadOfUndefined("province"))
    case Some(d) =>
      match UserDataView(Hydrate(s.userData[d], UserDataSelected))
      case Fail(e) => Fail(e)
      case Ok(userData) =>
        match JoinedRole(s, user)
        case None => Fail(ReadOfUndefined("permissions"))
        case Some(r) => Ok(JObj(Assemble(user, UserColumns, RoleView(s.roles[r]), userData)))
  }

  /** `{...user, user_data, role, created_at: new Date(user.updated_at)}` over the user hydrated with `cols`. */
  function Assemble(user: Object, cols: seq<string>, role: Json, userData: Object): Object
  {
    var u := Hydrate(user, cols);
    Set(u, "created_at", DateOf(Get(u, "updated_at"))) + [Prop("role", role), Prop("user_data", JObj(userData))]
  }

  lemma AssembleFields(user: Object, cols: seq<string>, role: Json, userData: Object, c: string)
    requires "updated_at" in cols && "role" !in cols && "user_data" !in cols
    ensures Get(Assemble(user, cols, role, userData), "created_at") == DateOf(Stored(Get(user, "updated_at")))
    ensures c in cols && c != "created_at" ==> Get(Assemble(user, cols, role, userData), c) == Stored(Get(user, c))
    ensures Get(Assemble(user, cols, role, userData), "role") == role
    ensures Get(Assemble(user, cols, role, userData), "user_data") == JObj(userData)
  {
    var u := Hydrate(user, cols);
    var d := DateOf(Get(u, "updated_at"));
    var top := Set(u, "created_at", d);
    var tail := [Prop("role", role), Prop("user_data", JObj(userData))];
    assert Assemble(user, cols, role, userData) == top + tail;
    GetHydrate(user, cols, "updated_at");
    AppendedField(u, "created_at", d, tail, "created_at");
    if c in cols {
      GetHydrate(user, cols, c);
      AppendedField(u, "created_at", d, tail, c);
    }
    GetHydrate(user, cols, "role");
    GetHydrate(user, cols, "user_data");
    TailField(u, "created_at", d, "role", role, "user_data", JObj(userData));
  }

  /** A property read on `Set(u, k, v) + tail` for a key `Set` wrote or `u` had. */
  lemma AppendedField(u: Object, k: string, v: Json, tail: Object, k': string)
    requires k' == k || HasKey(u, k')
    ensures Get(Set(u, k, v) + tail, k') == if k' == k then v else Get(u, k')
  {
    GetSet(u, k, v, k');
    GetAppend(Set(u, k, v), tail, k');
  }

  /** The two appended relations read back, when `u` has neither key. */
  lemma TailField(u: Object, k: string, v: Json, k1: string, v1: Json, k2: string, v2: Json)
    requires !HasKey(u, k1) && !HasKey(u, k2) && k1 != k && k2 != k && k1 != k2
    ensures Get(Set(u, k, v) + [Prop(k1, v1), Prop(k2, v2)], k1) == v1
    ensures Get(Set(u, k, v) + [Prop(k1, v1), Prop(k2, v2)], k2) == v2
  {
    GetSet(u, k, v, k1);
    GetSet(u, k, v, k2);
    GetAppend(Set(u, k, v), [Prop(k1, v1), Prop(k2, v2)], k1);
    GetAppend(Set(u, k, v), [Prop(k1, v1), Prop(k2, v2)], k2);
  }

  /** `GetUserByParams(params, matchType)`: the first matching user's view, or `null`. */
  function GetUserByParamsResult(s: Snapshot, params: Json, matchOr: bool): Outcome<Option<Json>>
    requires IsObjectLike(params)
  {
    var leaves := Leaves(params, "", 0);
    match Query(s, Conditions(leaves), Assign([], leaves), matchOr)
    case Fail(e) => Fail(e)
    case Ok(None) => Ok(None)
    case Ok(Some(i)) => Found(UserView(s, s.users[i]))
  }

  /** A found user's view, or the error building it threw. */
  function Found(view: Outcome<Json>): (r: Outcome<Option<Json>>)
    ensures view.Ok? <==> r.Ok?
    ensures view.Ok? ==> r.value == Some(view.value)
    ensures view.Fail? ==> r.error == view.error
  {
    match view
    case Fail(e) => Fail(e)
    case Ok(v) => Ok(Some(v))
  }

  /** A place name the view can title-case: a falsy value or a string. */
  predicate PlaceName(v: Json)
  {
    !Truthy(v) || v.JStr?
  }

  /**
   * The view of `user_data` exists exactly when its three place names are
   * falsy or strings; it has them title-cased (a falsy one as `null`), and
   * every other column as it was.
   */
  lemma UserDataViewFields(ud: Object, k: string)
    ensures UserDataView(ud).Ok? <==>
              PlaceName(Get(ud, "province")) && PlaceName(Get(ud, "city")) && PlaceName(Get(ud, "district"))
    ensures UserDataView(ud).Ok? ==>
              && Get(UserDataView(ud).value, "province") == CamelField(Get(ud, "province")).value
              && Get(UserDataView(ud).value, "city") == CamelField(Get(ud, "city")).value
              && Get(UserDataView(ud).value, "district") == CamelField(Get(ud, "district")).value
              && (k !in ["province", "city", "district"] ==> Get(UserDataView(ud).value, k) == Get(ud, k))
  {
    if UserDataView(ud).Ok? {
      var province, city, district := CamelField(Get(ud, "province")).value, CamelField(Get(ud, "city")).value,
                                      CamelField(Get(ud, "district")).value;
      var v := UserDataView(ud).value;
      assert v == Set(Set(Set(Set(ud, "province", province), "city", city), "district", district), "phone", Get(ud, "phone"));
      SetPlaces(ud, province, city, district, "province");
      SetPlaces(ud, province, city, district, "city");
      SetPlaces(ud, province, city, district, "district");
      SetPlaces(ud, province, city, district, k);
    }
  }

  /** The three place names written over `ud`, and its phone written back, read as written. */
  lemma SetPlaces(ud: Object, province: Json, city: Json, district: Json, k: string)
    ensures Get(Set(Set(Set(Set(ud, "province", province), "city", city), "district", district), "phone", Get(ud, "phone")), k) ==
              if k == "province" then province else if k == "city" then city
              else if k == "district" then district else Get(ud, k)
  {
    var o1 := Set(ud, "province", province);
    var o2 := Set(o1, "city", city);
    var o3 := Set(o2, "district", district);
    GetSet(ud, "province", province, k);
    GetSet(o1, "city", city, k);
    GetSet(o2, "district", district, k);
    GetSet(o3, "phone", Get(ud, "phone"), k);
    GetSet(o2, "district", district, "phone");
    GetSet(o1, "city", city, "phone");
    GetSet(ud, "province", province, "phone");
  }

  /**
   * The view fails when the user has no `user_data` row, when a place name
   * cannot be title-cased, or when the user has no role; otherwise it exists.
   */
  lemma UserViewFails(s: Snapshot, user: Object)
    ensures JoinedData(s, user).None? ==> UserView(s, user) == Fail(ReadOfUndefined("province"))
    ensures JoinedData(s, user).Some? ==>
              var row := s.userData[JoinedData(s, user).value];
              var places := PlaceName(Stored(Get(row, "province"))) && PlaceName(Stored(Get(row, "city")))
                            && PlaceName(Stored(Get(row, "district")));
              && (!places ==> UserView(s, user).Fail?)
              && (places && JoinedRole(s, user).None? ==> UserView(s, user) == Fail(ReadOfUndefined("permissions")))
              && (places && JoinedRole(s, user).Some? ==> UserView(s, user).Ok?)
  {
    if JoinedData(s, user).Some? {
      var row := s.userData[JoinedData(s, user).value];
      GetHydrate(row, UserDataSelected, "province");
      GetHydrate(row, UserDataSelected, "city");
      GetHydrate(row, UserDataSelected, "district");
      UserDataViewFields(Hydrate(row, UserDataSelected), "");
    }
  }

  /**
   * The view has every user column as stored, except that `created_at` is
   * made from `updated_at`, and its `role` is the role's view.
   */
  lemma UserViewFields(s: Snapshot, user: Object, c: string)
    requires UserView(s, user).Ok?
    ensures var v := UserView(s, user).value;
            && v.JObj?
            && Get(v.props, "created_at") == DateOf(Stored(Get(user, "updated_at")))
            && (c in UserColumns && c != "created_at" ==> Get(v.props, c) == Stored(Get(user, c)))
            && Get(v.props, "role") == RoleView(s.roles[JoinedRole(s, user).value])
  {
    UserViewShape(s, user);
    var ud := Hydrate(s.userData[JoinedData(s, user).value], UserDataSelected);
    var role := RoleView(s.roles[JoinedRole(s, user).value]);
    UserColumnsShape();
    AssembleFields(user, UserColumns, role, UserDataView(ud).value, c);
  }

  /** A view that exists was assembled from the joined row's view and the joined role's view. */
  lemma UserViewShape(s: Snapshot, user: Object)
    requires UserView(s, user).Ok?
    ensures JoinedData(s, user).Some? && JoinedRole(s, user).Some?
    ensures var ud := Hydrate(s.userData[JoinedData(s, user).value], UserDataSelected);
            && UserDataView(ud).Ok?
            && UserView(s, user) ==
                 Ok(JObj(Assemble(user, UserColumns, RoleView(s.roles[JoinedRole(s, user).value]), UserDataView(ud).value)))
  {
  }

  lemma UserColumnsShape()
    ensures "updated_at" in UserColumns && "role" !in UserColumns && "user_data" !in UserColumns
  {
    assert UserColumns[10] == "updated_at";
  }

  /** The hydrated `user_data` row, viewed, has the row's place names title-cased. */
  lemma RowPlaces(row: Object)
    requires UserDataView(Hydrate(row, UserDataSelected)).Ok?
    ensures var view := UserDataView(Hydrate(row, UserDataSelected)).value;
            && CamelField(Stored(Get(row, "province"))) == Ok(Get(view, "province"))
            && CamelField(Stored(Get(row, "city"))) == Ok(Get(view, "city"))
            && CamelField(Stored(Get(row, "district"))) == Ok(Get(view, "district"))
  {
    var ud := Hydrate(row, UserDataSelected);
    GetHydrate(row, UserDataSelected, "province");
    GetHydrate(row, UserDataSelected, "city");
    GetHydrate(row, UserDataSelected, "district");
    UserDataViewFields(ud, "");
  }

  /** The `user_data` of the view has the three place names of the joined row title-cased. */
  lemma UserViewPlaces(s: Snapshot, user: Object)
    requires UserView(s, user).Ok?
    ensures var v := UserView(s, user).value;
            var row := s.userData[JoinedData(s, user).value];
            && v.JObj?
            && CamelField(Stored(Get(row, "province"))) == Ok(Member(Get(v.props, "user_data"), "province"))
            && CamelField(Stored(Get(row, "city"))) == Ok(Member(Get(v.props, "user_data"), "city"))
            && CamelField(Stored(Get(row, "district"))) == Ok(Member(Get(v.props, "user_data"), "district"))
  {
    UserViewShape(s, user);
    var row := s.userData[JoinedData(s, user).value];
    RowPlaces(row);
    var role := RoleView(s.roles[JoinedRole(s, user).value]);
    var view := UserDataView(Hydrate(row, UserDataSelected)).value;
    UserColumnsShape();
    AssembleFields(user, UserColumns, role, view, "");
    var ud := Get(UserView(s, user).value.props, "user_data");
    assert ud == JObj(view);
    MemberOfObject(view, "province");
    MemberOfObject(view, "city");
    MemberOfObject(view, "district");
  }

  lemma MemberOfObject(o: Object, k: string)
    ensures Member(JObj(o), k) == Get(o, k)
  {
  }

  // ---------------------------------------------------------------- the two lookups the flows send

  /** When the where clause passes exactly the rows whose `col` equals `v`, `getOne` is `findOne`. */
  lemma FirstUserWhereIsFindRow(s: Snapshot, cs: seq<Criterion>, matchOr: bool, col: string, v: Json)
    requires forall j :: 0 <= j < |s.users| ==> (Satisfies(s, s.users[j], cs, matchOr) <==> SqlEquals(Get(s.users[j], col), v))
    ensures FirstUserWhere(s, cs, matchOr, 0) == FindRow(s.users, col, v)
  {
    var b := FindRow(s.users, col, v);
    if b.Some? {
      FirstUserWhereAt(s, cs, matchOr, b.value);
    }
  }

  /** The first user passing the where clause is the one every earlier user fails. */
  lemma FirstUserWhereAt(s: Snapshot, cs: seq<Criterion>, matchOr: bool, i: nat)
    requires i < |s.users| && Satisfies(s, s.users[i], cs, matchOr)
    requires forall j :: 0 <= j < i ==> !Satisfies(s, s.users[j], cs, matchOr)
    ensures FirstUserWhere(s, cs, matchOr, 0) == Some(i)
  {
    var f := FirstUserWhere(s, cs, matchOr, 0);
    assert f.Some?;
    assert !(f.value < i) && !(i < f.value);
  }

  /** The lookup's result once the where clause has been read back as criteria. */
  lemma LookupResult(s: Snapshot, params: Json, matchOr: bool, leaves: seq<Prop>, cs: seq<Criterion>)
    requires IsObjectLike(params) && Leaves(params, "", 0) == leaves && Assign([], leaves) == leaves
    requires Criteria(Conditions(leaves), leaves) == Ok(cs)
    ensures GetUserByParamsResult(s, params, matchOr) ==
              match FirstUserWhere(s, cs, matchOr, 0)
              case None => Ok(None)
              case Some(i) => Found(UserView(s, s.users[i]))
  {
  }

  /** The single leaf of a one-property object. */
  lemma LeavesOfOne(key: string, v: Json, prefix: string)
    requires !IsObjectLike(v)
    ensures Leaves(JObj([Prop(key, v)]), prefix, 0) == [Prop(FieldName(prefix, key), v)]
  {
    LeavesStep(JObj([Prop(key, v)]), prefix, 0);
  }

  /**
   * The conditions the builder writes for leaves whose paths all resolve
   * read back as those columns compared with the leaves' parameters.
   */
  lemma CriteriaOfLeaves(leaves: seq<Prop>, ps: Object, cs: seq<Criterion>)
    requires |cs| == |leaves|
    requires forall i :: 0 <= i < |leaves| ==>
               ResolveColumn(leaves[i].key) == Some(cs[i].column) && cs[i].value == Get(ps, leaves[i].key)
    ensures Criteria(Conditions(leaves), ps) == Ok(cs)
  {
    ConditionsColumns(leaves);
    var r := Criteria(Conditions(leaves), ps);
    assert r.Ok?;
    var v := r.value;
    assert |v| == |cs| && forall i :: 0 <= i < |cs| ==> v[i] == cs[i];
    assert v == cs;
    assert r == Ok(cs);
  }

  /** What the builder makes of `{email}`. */
  lemma EmailConditions(email: Json)
    requires !IsObjectLike(email)
    ensures Leaves(JObj([Prop("email", email)]), "", 0) == [Prop("email", email)]
    ensures Assign([], [Prop("email", email)]) == [Prop("email", email)]
    ensures WhereClause(Conditions([Prop("email", email)]), false) == "email = :email"
  {
    LeavesOfOne("email", email, "");
    assert Conditions([Prop("email", email)]) == ["email" + " = :" + "email"];
    assert Assign([], [Prop("email", email)]) == Assign([Prop("email", email)], []);
  }

  lemma EmailCriteria(email: Json)
    ensures Criteria(Conditions([Prop("email", email)]), [Prop("email", email)]) ==
              Ok([Criterion(Column(Users, "email"), email)])
  {
    var leaves, cs := [Prop("email", email)], [Criterion(Column(Users, "email"), email)];
    assert ResolveColumn(leaves[0].key) == Some(cs[0].column) by { ResolveEmail(); }
    CriteriaOfLeaves(leaves, leaves, cs);
  }

  /**
   * `GetUserByParams({email})`: the view of the first user whose email
   * equals `email`, or `null` when there is none.
   */
  lemma LookupByEmail(s: Snapshot, email: Json)
    requires !IsObjectLike(email)
    ensures WhereClause(Conditions(Leaves(JObj([Prop("email", email)]), "", 0)), false) == "email = :email"
    ensures GetUserByParamsResult(s, JObj([Prop("email", email)]), false) ==
              match FindRow(s.users, "email", email)
              case None => Ok(None)
              case Some(i) => Found(UserView(s, s.users[i]))
  {
    EmailConditions(email);
    EmailCriteria(email);
    var cs := [Criterion(Column(Users, "email"), email)];
    forall j | 0 <= j < |s.users|
      ensures Satisfies(s, s.users[j], cs, false) <==> SqlEquals(Get(s.users[j], "email"), email)
    {
      assert Satisfies(s, s.users[j], cs, false) <==> Holds(s, s.users[j], cs[0]);
    }
    FirstUserWhereIsFindRow(s, cs, false, "email", email);
  }

  /** The user matches sign-up's lookup by its email, or by the phone of its `user_data` row. */
  predicate EmailOrPhone(s: Snapshot, user: Object, email: Json, phone: Json)
  {
    || SqlEquals(Get(user, "email"), email)
    || (JoinedData(s, user).Some? && SqlEquals(Get(s.userData[JoinedData(s, user).value], "phone"), phone))
  }

  /** A field `alias.name` resolves to column `name` of the table `alias` stands for. */
  lemma ResolveDotted(alias: string, name: string)
    requires '.' !in alias && '.' !in name
    ensures ResolveColumn(alias + "." + name) ==
              if alias == "user" && name in UserColumns then Some(Column(Users, name))
              else if alias == "user_data" && name in UserDataColumns then Some(Column(UserData, name))
              else if alias == "role" && name in RoleColumns then Some(Column(Roles, name))
              else None
  {
    var field := alias + "." + name;
    IndexOfAfter(alias, '.', name);
    assert field == alias + ['.'] + name;
    assert field[..|alias|] == alias && field[|alias| + 1..] == name;
  }

  /** `email` is a column of `users` only. */
  lemma ResolveEmail()
    ensures ResolveColumn("email") == Some(Column(Users, "email"))
  {
  }

  /** `user_data.phone` names the phone of the joined profile. */
  lemma ResolvePhone()
    ensures ResolveColumn("user_data.phone") == Some(Column(UserData, "phone"))
  {
    assert "user_data.phone" == "user_data" + "." + "phone";
    assert "phone" == UserDataColumns[3];
    ResolveDotted("user_data", "phone");
  }

  /** What the builder makes of `{email, user_data: {phone}}`. */
  lemma SignUpConditions(email: Json, phone: Json)
    requires !IsObjectLike(email) && !IsObjectLike(phone)
    ensures var params := JObj([Prop("email", email), Prop("user_data", JObj([Prop("phone", phone)]))]);
            Leaves(params, "", 0) == [Prop("email", email), Prop("user_data.phone", phone)]
    ensures Assign([], [Prop("email", email), Prop("user_data.phone", phone)]) ==
              [Prop("email", email), Prop("user_data.phone", phone)]
  {
    var params := JObj([Prop("email", email), Prop("user_data", JObj([Prop("phone", phone)]))]);
    LeavesStep(params, "", 0);
    LeavesStep(params, "", 1);
    LeavesOfOne("phone", phone, "user_data");
    assert FieldName("user_data", "phone") == "user_data.phone";
    assert Leaves(params, "", 2) == [];
    var leaves := [Prop("email", email), Prop("user_data.phone", phone)];
    assert Assign([], leaves) == Assign([Prop("email", email)], [Prop("user_data.phone", phone)]);
    assert "email" != "user_data.phone";
    assert Set([Prop("email", email)], "user_data.phone", phone) == leaves;
    assert Assign([Prop("email", email)], [Prop("user_data.phone", phone)]) == Assign(leaves, []);
  }

  /** The clause sign-up's lookup sends: `email = :email OR user_data.phone = :user_data.phone`. */
  lemma SignUpClause(email: Json, phone: Json)
    ensures WhereClause(Conditions([Prop("email", email), Prop("user_data.phone", phone)]), true) ==
              "email" + " = :" + "email" + " OR " + "user_data.phone" + " = :" + "user_data.phone"
  {
    var e, p := "email" + " = :" + "email", "user_data.phone" + " = :" + "user_data.phone";
    assert Conditions([Prop("email", email), Prop("user_data.phone", phone)]) == [e, p];
    assert Join([e, p], " OR ") == e + " OR " + p;
  }

  lemma SignUpCriteria(email: Json, phone: Json)
    ensures var leaves := [Prop("email", email), Prop("user_data.phone", phone)];
            Criteria(Conditions(leaves), leaves) ==
              Ok([Criterion(Column(Users, "email"), email), Criterion(Column(UserData, "phone"), phone)])
  {
    var leaves := [Prop("email", email), Prop("user_data.phone", phone)];
    var cs := [Criterion(Column(Users, "email"), email), Criterion(Column(UserData, "phone"), phone)];
    forall i | 0 <= i < |leaves|
      ensures ResolveColumn(leaves[i].key) == Some(cs[i].column) && cs[i].value == Get(leaves, leaves[i].key)
    {
      if i == 0 {
        ResolveEmail();
      } else {
        ResolvePhone();
        assert Get(leaves, leaves[1].key) == phone;
      }
    }
    CriteriaOfLeaves(leaves, leaves, cs);
  }

  /**
   * Sign-up's `GetUserByParams({email, user_data: {phone}}, "OR")`: the
   * clause is `email = :email OR user_data.phone = :user_data.phone`, and
   * the result is the view of the first user matching either, or `null`.
   */
  lemma SignUpLookup(s: Snapshot, email: Json, phone: Json)
    requires !IsObjectLike(email) && !IsObjectLike(phone)
    ensures var params := JObj([Prop("email", email), Prop("user_data", JObj([Prop("phone", phone)]))]);
            WhereClause(Conditions(Leaves(params, "", 0)), true) ==
              "email" + " = :" + "email" + " OR " + "user_data.phone" + " = :" + "user_data.phone"
    ensures var params := JObj([Prop("email", email), Prop("user_data", JObj([Prop("phone", phone)]))]);
            var r := GetUserByParamsResult(s, params, true);
            && ((forall j :: 0 <= j < |s.users| ==> !EmailOrPhone(s, s.users[j], email, phone)) ==> r == Ok(None))
            && forall i :: (0 <= i < |s.users| && EmailOrPhone(s, s.users[i], email, phone) &&
                            (forall j :: 0 <= j < i ==> !EmailOrPhone(s, s.users[j], email, phone))) ==>
                   r == Found(UserView(s, s.users[i]))
  {
    SignUpConditions(email, phone);
    SignUpClause(email, phone);
    SignUpCriteria(email, phone);
    var params := JObj([Prop("email", email), Prop("user_data", JObj([Prop("phone", phone)]))]);
    var leaves := [Prop("email", email), Prop("user_data.phone", phone)];
    var cs := [Criterion(Column(Users, "email"), email), Criterion(Column(UserData, "phone"), phone)];
    LookupResult(s, params, true, leaves, cs);
    forall j | 0 <= j < |s.users|
      ensures Satisfies(s, s.users[j], cs, true) <==> EmailOrPhone(s, s.users[j], email, phone)
    {
      SignUpSatisfies(s, s.users[j], email, phone);
    }
    forall i | 0 <= i < |s.users| && EmailOrPhone(s, s.users[i], email, phone) &&
               (forall j :: 0 <= j < i ==> !EmailOrPhone(s, s.users[j], email, phone))
      ensures FirstUserWhere(s, cs, true, 0) == Some(i)
    {
      FirstUserWhereAt(s, cs, true, i);
    }
  }

  lemma SignUpSatisfies(s: Snapshot, user: Object, email: Json, phone: Json)
    ensures var cs := [Criterion(Column(Users, "email"), email), Criterion(Column(UserData, "phone"), phone)];
            Satisfies(s, user, cs, true) <==> EmailOrPhone(s, user, email, phone)
  {
    var cs := [Criterion(Column(Users, "email"), email), Criterion(Column(UserData, "phone"), phone)];
    assert Satisfies(s, user, cs, true) <==> Holds(s, user, cs[0]) || Holds(s, user, cs[1]);
  }

  // ---------------------------------------------------------------- Create

  /**
   * The user columns a payload can write. TypeORM generates `id` and stamps
   * `created_at` and `updated_at` itself.
   */
  const UserBodyColumns: seq<string> :=
    ["email", "username", "password", "pin", "role_id", "referral_code", "type", "status"]

  lemma BodyColumnsShape()
    ensures "id" !in UserBodyColumns && "created_at" !in UserBodyColumns && "updated_at" !in UserBodyColumns
    ensures forall k :: k in UserBodyColumns ==> k in UserColumns
  {
  }

  /** The avatar every new profile starts with. */
  const DefaultProfile: string := "https://ui-avatars.com/api/?background=random&name=N"

  /** What `Create` throws on an e-mail that already belongs to an active user. */
  const EmailRegistered: Thrown := Throw("Email already registered", 400)

  /**
   * What the `catch` of `Create` and `UpdateUserPatch` ends in when the work
   * after the commit throws: rolling back a committed transaction throws this
   * instead of the original error, and the committed rows stay.
   */
  const TransactionNotStarted: Thrown :=
    Plain(Cause("TransactionNotStartedError",
                "Transaction is not started yet, start transaction before committing or rolling it back."))

  /** `if (!data[k]) data[k] = v`. */
  function Default(data: Object, k: string, v: Json): Object
  {
    if Truthy(Get(data, k)) then data else Set(data, k, v)
  }

  /** A default fills in exactly the one property, and only when it is falsy. */
  lemma DefaultFields(data: Object, k: string, v: Json, k': string)
    ensures Get(Default(data, k, v), k') == if k' == k && !Truthy(Get(data, k)) then v else Get(data, k')
    ensures UniqueKeys(data) ==> UniqueKeys(Default(data, k, v))
  {
    GetSet(data, k, v, k');
    if UniqueKeys(data) {
      SetUnique(data, k, v);
    }
  }

  /** The username `Create` makes up: the slug of the e-mail's name, a dash and a four-digit draw. */
  function DefaultUsername(email: string, random: real): (u: string)
    requires 0.0 <= random < 1.0
    ensures Common.IsSlug(u)
  {
    Common.CreateSlug(Common.CreateNameFromEmail(email) + "-" + NatToString(Common.GenerateRandomNumber(4, random)))
  }

  function Min(a: nat, b: nat): nat
  {
    if a < b then a else b
  }

  /**
   * `username.slice(0, 4) + GenerateRandomNumber(2)`: a string keeps its
   * first four characters and gets two digits; an array is sliced and
   * rendered first; any other value has no `slice` and throws.
   */
  function ReferralCode(username: Json, random: real): (r: Outcome<Json>)
    requires 0.0 <= random < 1.0
    ensures r.Ok? <==> username.JStr? || username.JArr?
    ensures r.Ok? ==> r.value.JStr?
    ensures username.JStr? ==>
              var n := Min(4, |username.s|);
              && |r.value.s| == n + 2 && r.value.s[..n] == username.s[..n] && AllDigits(r.value.s[n..])
    ensures r.Fail? ==> r.error == Plain(Cause("TypeError", "data.username.slice is not a function"))
  {
    var digits := NatToString(Common.GenerateRandomNumber(2, random));
    match username
    case JStr(u) =>
      var n := Min(4, |u|);
      assert (u[..n] + digits)[n..] == digits;
      Ok(JStr(u[..n] + digits))
    case JArr(items) => Ok(JStr(ToText(JArr(items[..Min(4, |items|)])) + digits))
    case _ => Fail(Plain(Cause("TypeError", "data.username.slice is not a function")))
  }

  /** The payload after the defaults of `Create` for `type`, `status` and `username`. */
  function NamedDefaults(data: Object, random4: real): Object
    requires Get(data, "email").JStr? && 0.0 <= random4 < 1.0
  {
    var withType := Default(data, "type", JNum(0));
    var withStatus := Default(withType, "status", JNum(0));
    Default(withStatus, "username", JStr(DefaultUsername(Get(data, "email").s, random4)))
  }

  /**
   * The payload after the defaults of `Create`: `type` and `status` 0, a
   * made-up username and a referral code, each only where the payload's
   * value is falsy.
   */
  function CreateDefaults(data: Object, random4: real, random2: real): Outcome<Object>
    requires Get(data, "email").JStr? && 0.0 <= random4 < 1.0 && 0.0 <= random2 < 1.0
  {
    var withName := NamedDefaults(data, random4);
    if Truthy(Get(withName, "referral_code")) then Ok(withName)
    else match ReferralCode(Get(withName, "username"), random2)
      case Fail(e) => Fail(e)
      case Ok(code) => Ok(Set(withName, "referral_code", code))
  }

  /** The username `Create` saves: the payload's, unless it is falsy. */
  function UsernameAfterDefaults(data: Object, random4: real): Json
    requires Get(data, "email").JStr? && 0.0 <= random4 < 1.0
  {
    if Truthy(Get(data, "username")) then Get(data, "username")
    else JStr(DefaultUsername(Get(data, "email").s, random4))
  }

  /**
   * The defaults: each of `type`, `status`, `username` and `referral_code`
   * keeps a truthy value and is filled in otherwise; nothing else changes.
   * They fail only when a code has to be made from a username that is
   * neither a string nor an array.
   */
  lemma CreateDefaultsFields(data: Object, random4: real, random2: real, k: string)
    requires Get(data, "email").JStr? && 0.0 <= random4 < 1.0 && 0.0 <= random2 < 1.0
    ensures var u := UsernameAfterDefaults(data, random4);
            CreateDefaults(data, random4, random2).Fail? <==>
              !Truthy(Get(data, "referral_code")) && !u.JStr? && !u.JArr?
    ensures var r := CreateDefaults(data, random4, random2);
            var u := UsernameAfterDefaults(data, random4);
            r.Ok? ==>
              && Get(r.value, "type") == (if Truthy(Get(data, "type")) then Get(data, "type") else JNum(0))
              && Get(r.value, "status") == (if Truthy(Get(data, "status")) then Get(data, "status") else JNum(0))
              && Get(r.value, "username") == u
              && Get(r.value, "referral_code") ==
                   (if Truthy(Get(data, "referral_code")) then Get(data, "referral_code")
                    else ReferralCode(u, random2).value)
              && (k != "type" && k != "status" && k != "username" && k != "referral_code" ==>
                    Get(r.value, k) == Get(data, k))
              && (UniqueKeys(data) ==> UniqueKeys(r.value))
  {
    NamedDefaultsField(data, random4, k);
    NamedDefaultsField(data, random4, "type");
    NamedDefaultsField(data, random4, "status");
    NamedDefaultsField(data, random4, "username");
    NamedDefaultsField(data, random4, "referral_code");
    var withName := NamedDefaults(data, random4);
    if UniqueKeys(data) {
      NamedDefaultsUnique(data, random4);
    }
    if !Truthy(Get(withName, "referral_code")) && ReferralCode(Get(withName, "username"), random2).Ok? {
      var code := ReferralCode(Get(withName, "username"), random2).value;
      GetSet(withName, "referral_code", code, k);
      GetSet(withName, "referral_code", code, "type");
      GetSet(withName, "referral_code", code, "status");
      GetSet(withName, "referral_code", code, "username");
      GetSet(withName, "referral_code", code, "referral_code");
      if UniqueKeys(data) {
        SetUnique(withName, "referral_code", code);
      }
    }
  }

  lemma NamedDefaultsField(data: Object, random4: real, k: string)
    requires Get(data, "email").JStr? && 0.0 <= random4 < 1.0
    ensures Get(NamedDefaults(data, random4), k) ==
              if k == "username" then UsernameAfterDefaults(data, random4)
              else if k == "type" && !Truthy(Get(data, "type")) then JNum(0)
              else if k == "status" && !Truthy(Get(data, "status")) then JNum(0)
              else Get(data, k)
  {
    var withType := Default(data, "type", JNum(0));
    var withStatus := Default(withType, "status", JNum(0));
    var name := JStr(DefaultUsername(Get(data, "email").s, random4));
    DefaultFields(data, "type", JNum(0), k);
    DefaultFields(withType, "status", JNum(0), k);
    DefaultFields(withStatus, "username", name, k);
    DefaultFields(data, "type", JNum(0), "status");
    DefaultFields(data, "type", JNum(0), "username");
    DefaultFields(withType, "status", JNum(0), "username");
  }

  lemma NamedDefaultsUnique(data: Object, random4: real)
    requires Get(data, "email").JStr? && 0.0 <= random4 < 1.0 && UniqueKeys(data)
    ensures UniqueKeys(NamedDefaults(data, random4))
  {
    var withType := Default(data, "type", JNum(0));
    var withStatus := Default(withType, "status", JNum(0));
    DefaultFields(data, "type", JNum(0), "");
    DefaultFields(withType, "status", JNum(0), "");
    DefaultFields(withStatus, "username", JStr(DefaultUsername(Get(data, "email").s, random4)), "");
  }

  /** What `Create` draws from outside: the uuids TypeORM generates, the two `Math.random()` values and the clock. */
  datatype CreateDraws = CreateDraws(userId: string, dataId: string, random4: real, random2: real, now: int)

  predicate ValidDraws(g: CreateDraws)
  {
    0.0 <= g.random4 < 1.0 && 0.0 <= g.random2 < 1.0
  }

  /** A new user as `save` inserts it: the generated id, the payload's columns and both timestamps. */
  function NewUserRow(body: Object, id: string, now: int): Object
  {
    [Prop("id", JStr(id))] + body + [Prop("created_at", JNum(now)), Prop("updated_at", JNum(now))]
  }

  /** An existing user after `Object.assign(user, data)` and `save`, which stamps `updated_at`. */
  function SavedUserRow(row: Object, body: Object, now: int): Object
  {
    Set(Assign(row, body), "updated_at", JNum(now))
  }

  /** A new profile as `save` inserts it; an undefined phone is not written. */
  function NewProfileRow(id: string, userId: Json, phone: Json, name: string): Object
  {
    Defined([Prop("id", JStr(id)), Prop("user_id", userId), Prop("profile", JStr(DefaultProfile)),
             Prop("phone", phone), Prop("name", JStr(name))])
  }

  /** The columns of `user_data` that `Create` overwrites on an existing profile. */
  function ProfilePatch(phone: Json, name: string): Object
  {
    Defined([Prop("phone", phone), Prop("name", JStr(name))])
  }

  /**
   * The tables after `Create` saved the defaulted payload `d`: over the
   * existing user `existing` with its profile, or as a new user and profile.
   */
  function CreateSaved(s: Snapshot, existing: Option<nat>, d: Object, email: string, g: CreateDraws): Snapshot
    requires existing.Some? ==> existing.value < |s.users|
  {
    var body := Defined(Pick(d, UserBodyColumns));
    var name := Common.CreateNameFromEmail(email);
    var phone := Get(d, "phone");
    match existing
    case None =>
      s.(users := s.users + [NewUserRow(body, g.userId, g.now)],
         userData := s.userData + [NewProfileRow(g.dataId, JStr(g.userId), phone, name)])
    case Some(i) =>
      var userData :=
        match JoinedData(s, s.users[i])
        case None => s.userData + [NewProfileRow(g.dataId, Get(s.users[i], "id"), phone, name)]
        case Some(k) => s.userData[k := Assign(s.userData[k], ProfilePatch(phone, name))];
      s.(users := s.users[i := SavedUserRow(s.users[i], body, g.now)], userData := userData)
  }

  /** The e-mail's user looked up on the committed tables, as `Create` and `UpdateUserPatch` return it. */
  function Committed(t: Snapshot, email: Json): (r: Effect<Option<Json>>)
    ensures r.state == t
    ensures r.result.Fail? ==> r.result.error == TransactionNotStarted
  {
    match GetUserByParamsResult(t, JObj([Prop("email", email)]), false)
    case Fail(_) => Effect(Fail(TransactionNotStarted), t)
    case Ok(v) => Effect(Ok(v), t)
  }

  /**
   * `Create(data)` on an e-mail the sign-up route has validated: the
   * defaults, then the upsert keyed by e-mail, then the saved user's view.
   */
  function CreateStep(s: Snapshot, data: Object, g: CreateDraws): Effect<Option<Json>>
    requires Get(data, "email").JStr? && ValidDraws(g)
  {
    var email := Get(data, "email");
    var existing := FindRow(s.users, "email", email);
    match CreateDefaults(data, g.random4, g.random2)
    case Fail(e) => Effect(Fail(e), s)
    case Ok(d) =>
      if existing.Some? && StrictEquals(Get(s.users[existing.value], "status"), JNum(StatusActive)) then
        Effect(Fail(EmailRegistered), s)
      else
        Committed(CreateSaved(s, existing, d, email.s, g), email)
  }

  /** `Create` is blocked by an active user with the e-mail. */
  predicate ActiveEmail(s: Snapshot, email: Json)
  {
    var e := FindRow(s.users, "email", email);
    e.Some? && StrictEquals(Get(s.users[e.value], "status"), JNum(StatusActive))
  }

  /**
   * `Create` changes nothing when its defaults throw or the e-mail belongs
   * to an active user; it throws "Email already registered" exactly in the
   * second case.
   */
  lemma CreateRejects(s: Snapshot, data: Object, g: CreateDraws)
    requires Get(data, "email").JStr? && ValidDraws(g)
    ensures var r := CreateStep(s, data, g);
            var defaults := CreateDefaults(data, g.random4, g.random2);
            && (defaults.Fail? ==> r == Effect(Fail(defaults.error), s))
            && (r.result == Fail(EmailRegistered) <==> defaults.Ok? && ActiveEmail(s, Get(data, "email")))
            && (r.result == Fail(EmailRegistered) ==> r.state == s)
  {
    var defaults := CreateDefaults(data, g.random4, g.random2);
    if defaults.Fail? {
      var withName := NamedDefaults(data, g.random4);
      assert defaults.error == ReferralCode(Get(withName, "username"), g.random2).error;
    }
  }

  /** The columns of the payload a saved user row gets. */
  lemma BodyField(d: Object, k: string)
    requires UniqueKeys(d)
    ensures UniqueKeys(Defined(Pick(d, UserBodyColumns)))
    ensures Get(Defined(Pick(d, UserBodyColumns)), k) == if k in UserBodyColumns then Get(d, k) else JUndefined
    ensures HasKey(Defined(Pick(d, UserBodyColumns)), k) <==> k in UserBodyColumns && !Get(d, k).JUndefined? && HasKey(d, k)
  {
    PickUnique(d, UserBodyColumns);
    DefinedUnique(Pick(d, UserBodyColumns));
    GetPick(d, UserBodyColumns, k);
    GetDefined(Pick(d, UserBodyColumns), k);
  }

  /**
   * An existing user without status 1 is overwritten in place: every
   * defined payload column replaces the stored one, `updated_at` is stamped,
   * every other column and every other user stays, and no row is added.
   */
  lemma CreateOverwritesInactive(s: Snapshot, data: Object, g: CreateDraws, k: string)
    requires Get(data, "email").JStr? && ValidDraws(g) && UniqueKeys(data)
    requires CreateDefaults(data, g.random4, g.random2).Ok? && !ActiveEmail(s, Get(data, "email"))
    requires FindRow(s.users, "email", Get(data, "email")).Some?
    ensures var i := FindRow(s.users, "email", Get(data, "email")).value;
            var d := CreateDefaults(data, g.random4, g.random2).value;
            var t := CreateStep(s, data, g).state;
            && |t.users| == |s.users|
            && (forall j :: 0 <= j < |s.users| && j != i ==> t.users[j] == s.users[j])
            && Get(t.users[i], k) ==
                 if k == "updated_at" then JNum(g.now)
                 else if k in UserBodyColumns && !Get(d, k).JUndefined? then Get(d, k)
                 else Get(s.users[i], k)
  {
    var i := FindRow(s.users, "email", Get(data, "email")).value;
    DefaultsKeep(data, g.random4, g.random2, "email");
    var t := CreateState(s, data, g);
    SavedUserRowField(s.users[i], CreateDefaults(data, g.random4, g.random2).value, g.now, k);
  }

  /** An existing row saved with the payload `d`: its defined body columns, then `updated_at`. */
  lemma SavedUserRowField(row: Object, d: Object, now: int, k: string)
    requires UniqueKeys(d)
    ensures Get(SavedUserRow(row, Defined(Pick(d, UserBodyColumns)), now), k) ==
              if k == "updated_at" then JNum(now)
              else if k in UserBodyColumns && !Get(d, k).JUndefined? then Get(d, k)
              else Get(row, k)
  {
    var body := Defined(Pick(d, UserBodyColumns));
    BodyField(d, k);
    GetAssign(row, body, k);
    GetSet(Assign(row, body), "updated_at", JNum(now), k);
    if !HasKey(body, k) && k in UserBodyColumns {
      GetMissing(body, k);
    }
  }

  /**
   * A new e-mail is inserted as one new row after all the others, with the
   * generated id, the payload's columns and both timestamps set to now.
   */
  lemma CreateInsertsNew(s: Snapshot, data: Object, g: CreateDraws, k: string)
    requires Get(data, "email").JStr? && ValidDraws(g) && UniqueKeys(data)
    requires CreateDefaults(data, g.random4, g.random2).Ok?
    requires FindRow(s.users, "email", Get(data, "email")).None?
    ensures var d := CreateDefaults(data, g.random4, g.random2).value;
            var t := CreateStep(s, data, g).state;
            && |t.users| == |s.users| + 1 && t.users[..|s.users|] == s.users
            && Get(t.users[|s.users|], "id") == JStr(g.userId)
            && Get(t.users[|s.users|], "created_at") == JNum(g.now)
            && Get(t.users[|s.users|], "updated_at") == JNum(g.now)
            && (k in UserBodyColumns ==> Get(t.users[|s.users|], k) == Get(d, k))
  {
    DefaultsKeep(data, g.random4, g.random2, "email");
    var t := CreateState(s, data, g);
    NewUserRowFields(CreateDefaults(data, g.random4, g.random2).value, g.userId, g.now, k);
  }

  lemma NewUserRowFields(d: Object, id: string, now: int, k: string)
    requires UniqueKeys(d)
    ensures var row := NewUserRow(Defined(Pick(d, UserBodyColumns)), id, now);
            && Get(row, "id") == JStr(id)
            && Get(row, "created_at") == JNum(now) && Get(row, "updated_at") == JNum(now)
            && (k in UserBodyColumns ==> Get(row, k) == Get(d, k))
  {
    var body := Defined(Pick(d, UserBodyColumns));
    var created, updated := Prop("created_at", JNum(now)), Prop("updated_at", JNum(now));
    BodyColumnsShape();
    BodyField(d, k);
    BodyField(d, "created_at");
    BodyField(d, "updated_at");
    BetweenField(Prop("id", JStr(id)), body, created, updated, k);
    BetweenField(Prop("id", JStr(id)), body, created, updated, "created_at");
    BetweenField(Prop("id", JStr(id)), body, created, updated, "updated_at");
    if !HasKey(body, k) && k in UserBodyColumns && HasKey(d, k) {
      GetMissing(body, k);
    } else if !HasKey(d, k) {
      GetMissing(d, k);
    }
  }

  /** A property read on a row of one leading property, a body and two trailing ones. */
  lemma BetweenField(head: Prop, body: Object, a: Prop, b: Prop, k: string)
    ensures Get([head] + body + [a, b], k) ==
              if k == head.key then head.value
              else if HasKey(body, k) then Get(body, k)
              else if k == a.key then a.value
              else if k == b.key then b.value
              else JUndefined
  {
    var row := [head] + body + [a, b];
    assert row[0] == head && row[1..] == body + [a, b];
    GetAppend(body, [a, b], k);
    assert [a, b][1..] == [b] && [b][1..] == [];
    assert Get([b], k) == if k == b.key then b.value else JUndefined;
    assert Get([a, b], k) == if k == a.key then a.value else if k == b.key then b.value else JUndefined;
  }

  /** A property read on an object of one property followed by others. */
  lemma GetCons(p: Prop, rest: Object, k: string)
    ensures Get([p] + rest, k) == if p.key == k then p.value else Get(rest, k)
    ensures HasKey([p] + rest, k) <==> p.key == k || HasKey(rest, k)
  {
    assert ([p] + rest)[1..] == rest;
  }

  /** A new profile holds its id, the user's id, the default avatar, the phone and the name, and nothing else. */
  lemma NewProfileRowFields(id: string, userId: Json, phone: Json, name: string, k: string)
    ensures Get(NewProfileRow(id, userId, phone, name), k) ==
              if k == "id" then JStr(id)
              else if k == "user_id" then userId
              else if k == "profile" then JStr(DefaultProfile)
              else if k == "phone" then phone
              else if k == "name" then JStr(name)
              else JUndefined
  {
    var p0, p1, p2 := Prop("id", JStr(id)), Prop("user_id", userId), Prop("profile", JStr(DefaultProfile));
    var p3, p4 := Prop("phone", phone), Prop("name", JStr(name));
    var row := [p0, p1, p2, p3, p4];
    assert row == [p0] + ([p1] + ([p2] + ([p3] + ([p4] + []))));
    DistinctKeysUnique(row);
    GetDefined(row, k);
    GetCons(p4, [], k);
    GetCons(p3, [p4] + [], k);
    GetCons(p2, [p3] + ([p4] + []), k);
    GetCons(p1, [p2] + ([p3] + ([p4] + [])), k);
    GetCons(p0, [p1] + ([p2] + ([p3] + ([p4] + []))), k);
  }

  /** The two columns `Create` writes over an existing profile; an undefined phone is left alone. */
  lemma ProfilePatchFields(row: Object, phone: Json, name: string, k: string)
    ensures Get(Assign(row, ProfilePatch(phone, name)), k) ==
              if k == "name" then JStr(name)
              else if k == "phone" && !phone.JUndefined? then phone
              else Get(row, k)
  {
    var p0, p1 := Prop("phone", phone), Prop("name", JStr(name));
    var patch := [p0, p1];
    assert patch == [p0] + ([p1] + []);
    DistinctKeysUnique(patch);
    GetDefined(patch, k);
    DefinedUnique(patch);
    GetAssign(row, ProfilePatch(phone, name), k);
    GetCons(p1, [], k);
    GetCons(p0, [p1] + [], k);
    if !HasKey(ProfilePatch(phone, name), k) && (k == "phone" || k == "name") {
      GetMissing(ProfilePatch(phone, name), k);
    }
  }
  /**
   * The profile `Create` saves: a user without one (a new user, or an
   * existing user with no joined row) gets a new row with the default
   * avatar, the phone and the name made from the e-mail; an existing
   * profile has only its phone and name overwritten.
   */
  lemma CreateProfile(s: Snapshot, data: Object, g: CreateDraws, k: string)
    requires Get(data, "email").JStr? && ValidDraws(g) && UniqueKeys(data)
    requires CreateDefaults(data, g.random4, g.random2).Ok? && !ActiveEmail(s, Get(data, "email"))
    ensures var e := FindRow(s.users, "email", Get(data, "email"));
            var joined := if e.Some? then JoinedData(s, s.users[e.value]) else None;
            var uid := if e.Some? then Get(s.users[e.value], "id") else JStr(g.userId);
            var name := Common.CreateNameFromEmail(Get(data, "email").s);
            var t := CreateStep(s, data, g).state;
            && (joined.None? ==>
                  t.userData == s.userData + [NewProfileRow(g.dataId, uid, Get(data, "phone"), name)])
            && (joined.Some? ==>
                  && |t.userData| == |s.userData|
                  && (forall j :: 0 <= j < |s.userData| && j != joined.value ==> t.userData[j] == s.userData[j])
                  && Get(t.userData[joined.value], k) ==
                       if k == "name" then JStr(name)
                       else if k == "phone" && !Get(data, "phone").JUndefined? then Get(data, "phone")
                       else Get(s.userData[joined.value], k))
  {
    var e := FindRow(s.users, "email", Get(data, "email"));
    DefaultsKeep(data, g.random4, g.random2, "phone");
    var t := CreateState(s, data, g);
    SavedProfile(s, e, CreateDefaults(data, g.random4, g.random2).value, Get(data, "email").s, g, k);
  }

  /** The profile table after the upsert saved the defaulted payload `d`. */
  lemma SavedProfile(s: Snapshot, e: Option<nat>, d: Object, email: string, g: CreateDraws, k: string)
    requires e.Some? ==> e.value < |s.users|
    ensures var joined := if e.Some? then JoinedData(s, s.users[e.value]) else None;
            var uid := if e.Some? then Get(s.users[e.value], "id") else JStr(g.userId);
            var t := CreateSaved(s, e, d, email, g);
            && (joined.None? ==>
                  t.userData == s.userData + [NewProfileRow(g.dataId, uid, Get(d, "phone"), Common.CreateNameFromEmail(email))])
            && (joined.Some? ==>
                  && |t.userData| == |s.userData|
                  && (forall j :: 0 <= j < |s.userData| && j != joined.value ==> t.userData[j] == s.userData[j])
                  && Get(t.userData[joined.value], k) ==
                       if k == "name" then JStr(Common.CreateNameFromEmail(email))
                       else if k == "phone" && !Get(d, "phone").JUndefined? then Get(d, "phone")
                       else Get(s.userData[joined.value], k))
  {
    if e.Some? && JoinedData(s, s.users[e.value]).Some? {
      var m := JoinedData(s, s.users[e.value]).value;
      ProfilePatchFields(s.userData[m], Get(d, "phone"), Common.CreateNameFromEmail(email), k);
    }
  }

  /** The tables `Create` leaves: unchanged when it throws before saving, the saved ones otherwise. */
  lemma CreateState(s: Snapshot, data: Object, g: CreateDraws) returns (t: Snapshot)
    requires Get(data, "email").JStr? && ValidDraws(g)
    ensures t == CreateStep(s, data, g).state
    ensures CreateDefaults(data, g.random4, g.random2).Fail? || ActiveEmail(s, Get(data, "email")) ==> t == s
    ensures CreateDefaults(data, g.random4, g.random2).Ok? && !ActiveEmail(s, Get(data, "email")) ==>
              t == CreateSaved(s, FindRow(s.users, "email", Get(data, "email")),
                               CreateDefaults(data, g.random4, g.random2).value, Get(data, "email").s, g)
  {
    t := CreateStep(s, data, g).state;
  }

  /** `Create` writes the user and profile tables only. */
  lemma CreateOnlyUsers(s: Snapshot, data: Object, g: CreateDraws) returns (created: Effect<Option<Json>>)
    requires Get(data, "email").JStr? && ValidDraws(g)
    ensures created == CreateStep(s, data, g)
    ensures var t := created.state;
            t.roles == s.roles && t.otps == s.otps && t.tokens == s.tokens && t.nextOtpId == s.nextOtpId
  {
    var t := CreateState(s, data, g);
    created := CreateStep(s, data, g);
  }

  lemma KeyedOverwrite(users: seq<Object>, users': seq<Object>)
    requires UsersKeyed(users) && |users'| == |users|
    requires forall j :: 0 <= j < |users| ==> Get(users'[j], "id") == Get(users[j], "id")
    ensures UsersKeyed(users')
  {
  }

  lemma KeyedAppend(users: seq<Object>, row: Object)
    requires UsersKeyed(users) && Get(row, "id").JStr?
    requires forall j :: 0 <= j < |users| ==> Get(users[j], "id") != Get(row, "id")
    ensures UsersKeyed(users + [row])
  {
    var r := users + [row];
    assert forall j :: 0 <= j < |users| ==> r[j] == users[j];
  }

  /** With a fresh id for a new user, `Create` keeps every user's id a distinct string. */
  lemma CreateKeepsKeyed(s: Snapshot, data: Object, g: CreateDraws)
    requires Get(data, "email").JStr? && ValidDraws(g) && UniqueKeys(data) && UsersKeyed(s.users)
    requires forall j :: 0 <= j < |s.users| ==> Get(s.users[j], "id") != JStr(g.userId)
    ensures UsersKeyed(CreateStep(s, data, g).state.users)
  {
    var t := CreateState(s, data, g);
    var e := FindRow(s.users, "email", Get(data, "email"));
    if CreateDefaults(data, g.random4, g.random2).Ok? && !ActiveEmail(s, Get(data, "email")) {
      BodyColumnsShape();
      if e.Some? {
        CreateOverwritesInactive(s, data, g, "id");
        forall j | 0 <= j < |s.users| ensures Get(t.users[j], "id") == Get(s.users[j], "id") {
          if j != e.value {
            assert t.users[j] == s.users[j];
          }
        }
        KeyedOverwrite(s.users, t.users);
      } else {
        CreateInsertsNew(s, data, g, "id");
        assert t.users == s.users + [t.users[|s.users|]];
        KeyedAppend(s.users, t.users[|s.users|]);
      }
    }
  }

  /**
   * What `Create` returns: the view of the user it saved (the row it
   * overwrote, or the one it appended), or the rollback error when building
   * that view throws.
   */
  lemma CreateFindsSaved(s: Snapshot, data: Object, g: CreateDraws)
    requires Get(data, "email").JStr? && ValidDraws(g) && UniqueKeys(data)
    requires CreateDefaults(data, g.random4, g.random2).Ok? && !ActiveEmail(s, Get(data, "email"))
    ensures var e := FindRow(s.users, "email", Get(data, "email"));
            var t := CreateStep(s, data, g).state;
            var p := if e.Some? then e.value else |s.users|;
            && p < |t.users|
            && CreateStep(s, data, g).result ==
                 match UserView(t, t.users[p])
                 case Fail(_) => Fail(TransactionNotStarted)
                 case Ok(v) => Ok(Some(v))
  {
    var email := Get(data, "email");
    var t := CreateState(s, data, g);
    var p := SavedRowAt(s, data, g);
    assert CreateStep(s, data, g) == Committed(t, email);
    CommittedAt(t, email, p);
  }

  /** After the upsert, the saved user is the first one with the e-mail. */
  lemma SavedRowAt(s: Snapshot, data: Object, g: CreateDraws) returns (p: nat)
    requires Get(data, "email").JStr? && ValidDraws(g) && UniqueKeys(data)
    requires CreateDefaults(data, g.random4, g.random2).Ok? && !ActiveEmail(s, Get(data, "email"))
    ensures var e := FindRow(s.users, "email", Get(data, "email"));
            p == if e.Some? then e.value else |s.users|
    ensures FindRow(CreateStep(s, data, g).state.users, "email", Get(data, "email")) == Some(p)
  {
    var e := FindRow(s.users, "email", Get(data, "email"));
    if e.Some? {
      p := e.value;
      SavedRowOverwritten(s, data, g);
    } else {
      p := |s.users|;
      var t := CreateState(s, data, g);
      SavedRowAppended(s, data, g);
    }
  }

  lemma SavedRowOverwritten(s: Snapshot, data: Object, g: CreateDraws)
    requires Get(data, "email").JStr? && ValidDraws(g) && UniqueKeys(data)
    requires CreateDefaults(data, g.random4, g.random2).Ok? && !ActiveEmail(s, Get(data, "email"))
    requires FindRow(s.users, "email", Get(data, "email")).Some?
    ensures FindRow(CreateStep(s, data, g).state.users, "email", Get(data, "email")) ==
              FindRow(s.users, "email", Get(data, "email"))
  {
    var email := Get(data, "email");
    var p := FindRow(s.users, "email", email).value;
    var t := CreateStep(s, data, g).state;
    CreateDefaultsFields(data, g.random4, g.random2, "email");
    CreateOverwritesInactive(s, data, g, "email");
    assert SqlEquals(Get(t.users[p], "email"), email);
    forall j | 0 <= j < p ensures !SqlEquals(Get(t.users[j], "email"), email) {
      assert t.users[j] == s.users[j];
    }
    FindRowAt(t.users, "email", email, p);
  }

  lemma SavedRowAppended(s: Snapshot, data: Object, g: CreateDraws)
    requires Get(data, "email").JStr? && ValidDraws(g) && UniqueKeys(data)
    requires CreateDefaults(data, g.random4, g.random2).Ok?
    requires FindRow(s.users, "email", Get(data, "email")).None?
    ensures var d := CreateDefaults(data, g.random4, g.random2).value;
            FindRow(CreateSaved(s, None, d, Get(data, "email").s, g).users, "email", Get(data, "email")) == Some(|s.users|)
  {
    DefaultsKeep(data, g.random4, g.random2, "email");
    AppendedFirst(s.users, CreateDefaults(data, g.random4, g.random2).value, g.userId, g.now, Get(data, "email"));
  }

  /** The defaults leave every column but the four they fill in as the payload has it. */
  lemma DefaultsKeep(data: Object, random4: real, random2: real, k: string)
    requires Get(data, "email").JStr? && 0.0 <= random4 < 1.0 && 0.0 <= random2 < 1.0 && UniqueKeys(data)
    requires CreateDefaults(data, random4, random2).Ok?
    requires k != "type" && k != "status" && k != "username" && k != "referral_code"
    ensures UniqueKeys(CreateDefaults(data, random4, random2).value)
    ensures Get(CreateDefaults(data, random4, random2).value, k) == Get(data, k)
  {
    CreateDefaultsFields(data, random4, random2, k);
  }

  lemma AppendedFirst(users: seq<Object>, d: Object, id: string, now: int, email: Json)
    requires UniqueKeys(d) && FindRow(users, "email", email).None? && SqlEquals(Get(d, "email"), email)
    ensures FindRow(users + [NewUserRow(Defined(Pick(d, UserBodyColumns)), id, now)], "email", email) == Some(|users|)
  {
    var users' := users + [NewUserRow(Defined(Pick(d, UserBodyColumns)), id, now)];
    NewUserRowFields(d, id, now, "email");
    assert "email" in UserBodyColumns;
    forall j | 0 <= j < |users| ensures !SqlEquals(Get(users'[j], "email"), email) {
      assert users'[j] == users[j];
    }
    FindRowAt(users', "email", email, |users|);
  }

  /** The lookup after a commit finds the user at `p`. */
  lemma CommittedAt(t: Snapshot, email: Json, p: nat)
    requires !IsObjectLike(email) && FindRow(t.users, "email", email) == Some(p)
    ensures Committed(t, email).result ==
              match UserView(t, t.users[p])
              case Fail(_) => Fail(TransactionNotStarted)
              case Ok(v) => Ok(Some(v))
  {
    LookupByEmail(t, email);
  }

  // ---------------------------------------------------------------- UpdateUserPatch

  const PatchedMessage: string := "User profile updated successfully"

  /** The payload has at least one `user_data` column, so the profile is saved. */
  predicate HasProfileKeys(data: Object)
  {
    exists c :: c in UserDataColumns && HasKey(data, c)
  }

  /** Picking finds nothing exactly when the object has none of the keys. */
  lemma PickEmpty(o: Object, cols: seq<string>)
    ensures Pick(o, cols) == [] <==> forall c :: c in cols ==> !HasKey(o, c)
  {
    if Pick(o, cols) != [] {
      var c := Pick(o, cols)[0].key;
      HasKeyIndex(Pick(o, cols), 0);
      GetPick(o, cols, c);
    }
    forall c | c in cols && HasKey(o, c) ensures Pick(o, cols) != [] {
      GetPick(o, cols, c);
    }
  }

  /** The profile a patch with `user_data` columns saves: over the joined row, or as a new row for the user. */
  function PatchProfile(userData: seq<Object>, joined: Option<nat>, userId: Json, updates: Object,
                        dataId: string): seq<Object>
    requires joined.Some? ==> joined.value < |userData|
  {
    match joined
    case None => userData + [Defined(Assign([Prop("id", JStr(dataId)), Prop("user_id", userId)], updates))]
    case Some(k) => userData[k := Assign(userData[k], Defined(updates))]
  }

  /** The user columns of a patch that are written. */
  function UserPatch(data: Object): Object
  {
    Defined(Pick(Pick(data, UserColumns), UserBodyColumns))
  }

  /** The tables after `UpdateUserPatch` saved its patch over the user at `i`. */
  function PatchSaved(s: Snapshot, i: nat, data: Object, dataId: string, now: int): Snapshot
    requires i < |s.users|
  {
    var user := s.users[i];
    var userDataUpdates := Pick(data, UserDataColumns);
    var userData :=
      if userDataUpdates == [] then s.userData
      else PatchProfile(s.userData, JoinedData(s, user), Get(user, "id"), userDataUpdates, dataId);
    s.(users := s.users[i := SavedUserRow(user, UserPatch(data), now)], userData := userData)
  }

  /**
   * `UpdateUserPatch(id, data)`: the user's columns of the patch go to
   * `users`, its `user_data` columns to the profile, and the answer carries
   * the user's view looked up again by its (possibly new) e-mail.
   */
  function UpdateUserPatchStep(s: Snapshot, id: Json, data: Object, dataId: string, now: int): Effect<Json>
  {
    match FindRow(s.users, "id", id)
    case None => Effect(Fail(Throw("User not found with id " + ToText(id), 404)), s)
    case Some(i) =>
      var t := PatchSaved(s, i, data, dataId, now);
      match Committed(t, Get(t.users[i], "email")).result
      case Fail(e) => Effect(Fail(e), t)
      case Ok(v) => Effect(Ok(JObj([Prop("data", if v.Some? then v.value else JNull),
                                    Prop("message", JStr(PatchedMessage))])), t)
  }

  /** An unknown id is exactly what gives the 404, and it changes nothing. */
  lemma UpdateUserPatchUnknown(s: Snapshot, id: Json, data: Object, dataId: string, now: int)
    ensures var r := UpdateUserPatchStep(s, id, data, dataId, now);
            && (FindRow(s.users, "id", id).None? <==> r.result == Fail(Throw("User not found with id " + ToText(id), 404)))
            && (FindRow(s.users, "id", id).None? ==> r.state == s)
  {
    var r := UpdateUserPatchStep(s, id, data, dataId, now);
    if FindRow(s.users, "id", id).Some? {
      assert r.result.Fail? ==> r.result.error == TransactionNotStarted;
    }
  }

  /**
   * The user row after a patch: every defined user column of the patch is
   * written, `updated_at` is stamped, and other keys, the other columns and
   * the other users are left alone.
   */
  lemma UpdateUserPatchUserRow(s: Snapshot, id: Json, data: Object, dataId: string, now: int, k: string)
    requires UniqueKeys(data) && FindRow(s.users, "id", id).Some?
    ensures var i := FindRow(s.users, "id", id).value;
            var t := UpdateUserPatchStep(s, id, data, dataId, now).state;
            && |t.users| == |s.users|
            && (forall j :: 0 <= j < |s.users| && j != i ==> t.users[j] == s.users[j])
            && Get(t.users[i], k) ==
                 if k == "updated_at" then JNum(now)
                 else if k in UserBodyColumns && !Get(data, k).JUndefined? then Get(data, k)
                 else Get(s.users[i], k)
  {
    var i := FindRow(s.users, "id", id).value;
    var t := UpdateUserPatchState(s, id, data, dataId, now);
    BodyColumnsShape();
    PickUnique(data, UserColumns);
    GetPick(data, UserColumns, k);
    SavedUserRowField(s.users[i], Pick(data, UserColumns), now, k);
  }

  /** The tables a patch of a known user leaves. */
  lemma UpdateUserPatchState(s: Snapshot, id: Json, data: Object, dataId: string, now: int) returns (t: Snapshot)
    requires FindRow(s.users, "id", id).Some?
    ensures t == UpdateUserPatchStep(s, id, data, dataId, now).state
    ensures t == PatchSaved(s, FindRow(s.users, "id", id).value, data, dataId, now)
  {
    t := UpdateUserPatchStep(s, id, data, dataId, now).state;
  }

  /**
   * The profile after a patch: without `user_data` columns it is neither
   * created nor saved; otherwise the joined row gets every defined one of
   * them, or the user gets a new row holding them.
   */
  lemma UpdateUserPatchProfile(s: Snapshot, id: Json, data: Object, dataId: string, now: int, k: string)
    requires UniqueKeys(data) && FindRow(s.users, "id", id).Some?
    ensures var i := FindRow(s.users, "id", id).value;
            var joined := JoinedData(s, s.users[i]);
            var t := UpdateUserPatchStep(s, id, data, dataId, now).state;
            && (!HasProfileKeys(data) ==> t.userData == s.userData)
            && (HasProfileKeys(data) && joined.Some? ==>
                  && |t.userData| == |s.userData|
                  && (forall j :: 0 <= j < |s.userData| && j != joined.value ==> t.userData[j] == s.userData[j])
                  && Get(t.userData[joined.value], k) ==
                       if k in UserDataColumns && !Get(data, k).JUndefined? then Get(data, k)
                       else Get(s.userData[joined.value], k))
            && (HasProfileKeys(data) && joined.None? ==>
                  && |t.userData| == |s.userData| + 1 && t.userData[..|s.userData|] == s.userData
                  && Get(t.userData[|s.userData|], k) ==
                       if k in UserDataColumns && HasKey(data, k) then Get(data, k)
                       else if k == "id" then JStr(dataId)
                       else if k == "user_id" then Get(s.users[i], "id")
                       else JUndefined)
  {
    var t := UpdateUserPatchState(s, id, data, dataId, now);
    PatchedProfile(s, FindRow(s.users, "id", id).value, data, dataId, now, k);
  }

  /** The profile table after the patch was saved over the user at `i`. */
  lemma PatchedProfile(s: Snapshot, i: nat, data: Object, dataId: string, now: int, k: string)
    requires UniqueKeys(data) && i < |s.users|
    ensures var joined := JoinedData(s, s.users[i]);
            var t := PatchSaved(s, i, data, dataId, now);
            && (!HasProfileKeys(data) ==> t.userData == s.userData)
            && (HasProfileKeys(data) && joined.Some? ==>
                  && |t.userData| == |s.userData|
                  && (forall j :: 0 <= j < |s.userData| && j != joined.value ==> t.userData[j] == s.userData[j])
                  && Get(t.userData[joined.value], k) ==
                       if k in UserDataColumns && !Get(data, k).JUndefined? then Get(data, k)
                       else Get(s.userData[joined.value], k))
            && (HasProfileKeys(data) && joined.None? ==>
                  && |t.userData| == |s.userData| + 1 && t.userData[..|s.userData|] == s.userData
                  && Get(t.userData[|s.userData|], k) ==
                       if k in UserDataColumns && HasKey(data, k) then Get(data, k)
                       else if k == "id" then JStr(dataId)
                       else if k == "user_id" then Get(s.users[i], "id")
                       else JUndefined)
  {
    var updates := Pick(data, UserDataColumns);
    PickEmpty(data, UserDataColumns);
    if updates != [] {
      PickUnique(data, UserDataColumns);
      GetPick(data, UserDataColumns, k);
      match JoinedData(s, s.users[i])
      case Some(m) =>
        DefinedUnique(updates);
        GetDefined(updates, k);
        GetAssign(s.userData[m], Defined(updates), k);
        if !HasKey(updates, k) {
          GetMissing(updates, k);
        }
      case None =>
        NewPatchedProfile(dataId, Get(s.users[i], "id"), updates, k);
    }
  }

  /** A profile created by a patch: its id and the user's id, under the patch's own columns. */
  lemma NewPatchedProfile(dataId: string, userId: Json, updates: Object, k: string)
    requires UniqueKeys(updates)
    ensures Get(Defined(Assign([Prop("id", JStr(dataId)), Prop("user_id", userId)], updates)), k) ==
              if HasKey(updates, k) then Get(updates, k)
              else if k == "id" then JStr(dataId)
              else if k == "user_id" then userId
              else JUndefined
  {
    var p0, p1 := Prop("id", JStr(dataId)), Prop("user_id", userId);
    var base := [p0, p1];
    assert base == [p0] + ([p1] + []);
    DistinctKeysUnique(base);
    AssignUnique(base, updates);
    GetDefined(Assign(base, updates), k);
    GetAssign(base, updates, k);
    GetCons(p1, [], k);
    GetCons(p0, [p1] + [], k);
  }

  /** A patch never rewrites a user's id, so every user's id stays a distinct string. */
  lemma UpdateUserPatchKeepsKeyed(s: Snapshot, id: Json, data: Object, dataId: string, now: int)
    requires UniqueKeys(data) && UsersKeyed(s.users)
    ensures UsersKeyed(UpdateUserPatchStep(s, id, data, dataId, now).state.users)
  {
    var t := UpdateUserPatchStep(s, id, data, dataId, now).state;
    UpdateUserPatchUnknown(s, id, data, dataId, now);
    if FindRow(s.users, "id", id).Some? {
      var i := FindRow(s.users, "id", id).value;
      BodyColumnsShape();
      UpdateUserPatchUserRow(s, id, data, dataId, now, "id");
      forall j | 0 <= j < |s.users| ensures Get(t.users[j], "id") == Get(s.users[j], "id") {
        if j != i {
          assert t.users[j] == s.users[j];
        }
      }
      KeyedOverwrite(s.users, t.users);
    }
  }

  /** A patch touches only the two user tables and keeps the database's invariants. */
  lemma UpdateUserPatchValid(s: Snapshot, id: Json, data: Object, dataId: string, now: int)
    requires UniqueKeys(data) && ValidSnapshot(s)
    ensures var t := UpdateUserPatchStep(s, id, data, dataId, now).state;
            && ValidSnapshot(t)
            && t.roles == s.roles && t.otps == s.otps && t.tokens == s.tokens && t.nextOtpId == s.nextOtpId
  {
    UpdateUserPatchKeepsKeyed(s, id, data, dataId, now);
    if FindRow(s.users, "id", id).Some? {
      var t := UpdateUserPatchState(s, id, data, dataId, now);
    } else {
      UpdateUserPatchUnknown(s, id, data, dataId, now);
    }
  }

  /** `Create` touches only the two user tables and, with a fresh id, keeps the database's invariants. */
  lemma CreateValid(s: Snapshot, data: Object, g: CreateDraws)
    requires Get(data, "email").JStr? && ValidDraws(g) && UniqueKeys(data) && ValidSnapshot(s)
    requires forall j :: 0 <= j < |s.users| ==> Get(s.users[j], "id") != JStr(g.userId)
    ensures var t := CreateStep(s, data, g).state;
            && ValidSnapshot(t)
            && t.roles == s.roles && t.otps == s.otps && t.tokens == s.tokens && t.nextOtpId == s.nextOtpId
  {
    CreateKeepsKeyed(s, data, g);
    var t := CreateState(s, data, g);
  }

  // ---------------------------------------------------------------- the service

  /** `UserService` over the shared connection. */
  class UserService {
    const db: Database

    constructor (db: Database)
      ensures this.db == db
    {
      this.db := db;
    }

    /**
     * `GetUserByParams(params, matchType)`: the where clause built by
     * `buildWhereConditions`, the first user it selects, and that user's view.
     */
    method GetUserByParams(params: Json, matchOr: bool) returns (r: Outcome<Option<Json>>)
      requires IsObjectLike(params)
      ensures r == GetUserByParamsResult(db.State(), params, matchOr)
    {
      var builder := new WhereBuilder();
      builder.BuildWhereConditions(params, "");
      assert builder.whereConditions == Conditions(Leaves(params, "", 0));
      var found := Query(db.State(), builder.whereConditions, builder.parameters, matchOr);
      match found
      case Fail(e) =>
        r := Fail(e);
      case Ok(None) =>
        r := Ok(None);
      case Ok(Some(i)) =>
        r := Found(UserView(db.State(), db.users[i]));
    }

    /** `Create(data)`: the defaults, the upsert by e-mail in one transaction, and the saved user's view. */
    method Create(data: Object, g: CreateDraws) returns (r: Outcome<Option<Json>>)
      requires Get(data, "email").JStr? && ValidDraws(g)
      modifies db
      ensures r == CreateStep(old(db.State()), data, g).result
      ensures db.State() == CreateStep(old(db.State()), data, g).state
    {
      var s := db.State();
      var email := Get(data, "email");
      var existing := FindRow(db.users, "email", email);
      var defaults := CreateDefaults(data, g.random4, g.random2);
      if defaults.Fail? {
        return Fail(defaults.error);
      }
      var d := defaults.value;
      if existing.Some? && StrictEquals(Get(db.users[existing.value], "status"), JNum(StatusActive)) {
        return Fail(EmailRegistered);
      }
      var body := Defined(Pick(d, UserBodyColumns));
      var name := Common.CreateNameFromEmail(email.s);
      var phone := Get(d, "phone");
      if existing.Some? {
        var i := existing.value;
        var user := db.users[i];
        db.users := db.users[i := SavedUserRow(user, body, g.now)];
        match JoinedData(s, user)
        case None =>
          db.userData := db.userData + [NewProfileRow(g.dataId, Get(user, "id"), phone, name)];
        case Some(k) =>
          db.userData := db.userData[k := Assign(db.userData[k], ProfilePatch(phone, name))];
      } else {
        db.users := db.users + [NewUserRow(body, g.userId, g.now)];
        db.userData := db.userData + [NewProfileRow(g.dataId, JStr(g.userId), phone, name)];
      }
      assert db.State() == CreateSaved(s, existing, d, email.s, g);
      r := GetUserByParams(JObj([Prop("email", email)]), false);
      if r.Fail? {
        r := Fail(TransactionNotStarted);
      }
    }

    /** `UpdateUserPatch(id, data)`: the patch split between the two tables in one transaction. */
    method UpdateUserPatch(id: Json, data: Object, dataId: string, now: int) returns (r: Outcome<Json>)
      modifies db
      ensures r == UpdateUserPatchStep(old(db.State()), id, data, dataId, now).result
      ensures db.State() == UpdateUserPatchStep(old(db.State()), id, data, dataId, now).state
    {
      var found := FindRow(db.users, "id", id);
      if found.None? {
        return Fail(Throw("User not found with id " + ToText(id), 404));
      }
      var i := found.value;
      SavePatch(i, data, dataId, now);
      var view := GetUserByParams(JObj([Prop("email", Get(db.users[i], "email"))]), false);
      match view
      case Fail(_) =>
        r := Fail(TransactionNotStarted);
      case Ok(v) =>
        r := Ok(JObj([Prop("data", if v.Some? then v.value else JNull), Prop("message", JStr(PatchedMessage))]));
    }

    /** The two saves of `UpdateUserPatch`: the profile when the patch has `user_data` columns, then the user. */
    method SavePatch(i: nat, data: Object, dataId: string, now: int)
      requires i < |db.users|
      modifies db
      ensures db.State() == PatchSaved(old(db.State()), i, data, dataId, now)
    {
      var s := db.State();
      var user := db.users[i];
      var userUpdates := Pick(data, UserColumns);
      var userDataUpdates := Pick(data, UserDataColumns);
      if userDataUpdates != [] {
        match JoinedData(s, user)
        case None =>
          var created := Assign([Prop("id", JStr(dataId)), Prop("user_id", Get(user, "id"))], userDataUpdates);
          db.userData := db.userData + [Defined(created)];
        case Some(k) =>
          db.userData := db.userData[k := Assign(db.userData[k], Defined(userDataUpdates))];
      }
      db.users := db.users[i := SavedUserRow(user, Defined(Pick(userUpdates, UserBodyColumns)), now)];
    }
  }
}
