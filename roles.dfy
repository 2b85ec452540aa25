// The permission summary put into a token: for the `mobile` and `app`
// platforms, one entry per property of the platform value, whose access is
// true when every value inside that property is truthy.
module Roles {
  import opened Wrappers
  import opened Decimal
  import opened Json
  import PermissionHandler

  datatype PermissionAccess = PermissionAccess(key: string, access: bool)

  /** The `Permission` shape of a token: only the two platforms a client reads. */
  datatype Permission = Permission(mobile: seq<PermissionAccess>, app: seq<PermissionAccess>)

  /** `Object.values(v).every(Boolean)` over the entries of `v`. */
  predicate AllTruthy(vs: seq<Prop>)
  {
    forall i :: 0 <= i < |vs| ==> Truthy(vs[i].value)
  }

  /**
   * The `map` of `transformAccess` over the entries of a platform value.
   * `None` where `Object.values` throws, on a `null` or `undefined` entry.
   */
  function TransformEntries(es: seq<Prop>): (r: Option<seq<PermissionAccess>>)
    ensures r.Some? <==> forall i :: 0 <= i < |es| ==> Entries(es[i].value).Some?
    ensures r.Some? ==>
              && |r.value| == |es|
              && forall i :: 0 <= i < |es| ==>
                   r.value[i].key == es[i].key && (r.value[i].access <==> AllTruthy(Entries(es[i].value).value))
  {
    if es == [] then Some([])
    else match (Entries(es[0].value), TransformEntries(es[1..]))
      case (Some(vs), Some(rest)) => Some([PermissionAccess(es[0].key, AllTruthy(vs))] + rest)
      case _ => None
  }

  /** `transformAccess(accessObj)`. */
  function TransformAccess(accessObj: Json): Option<seq<PermissionAccess>>
  {
    match Entries(accessObj)
    case None => None
    case Some(es) => TransformEntries(es)
  }

  /** `x || {}`. */
  function OrEmptyObject(x: Json): (r: Json)
    ensures Truthy(x) ==> r == x
    ensures !Truthy(x) ==> r == JObj([])
  {
    if Truthy(x) then x else JObj([])
  }

  /**
   * `TransformPermissionsAsync(permissions)`: `None` where reading
   * `permissions.mobile` or `permissions.app`, or converting one of them, throws.
   */
  function TransformPermissions(permissions: Json): (r: Option<Permission>)
    ensures permissions.JNull? || permissions.JUndefined? ==> r.None?
    ensures r.Some? ==> !Truthy(Member(permissions, "mobile")) ==> r.value.mobile == []
    ensures r.Some? ==> !Truthy(Member(permissions, "app")) ==> r.value.app == []
  {
    if permissions.JNull? || permissions.JUndefined? then None
    else
      match (TransformAccess(OrEmptyObject(Member(permissions, "mobile"))),
             TransformAccess(OrEmptyObject(Member(permissions, "app"))))
      case (Some(m), Some(a)) => Some(Permission(m, a))
      case _ => None
  }

  /** A permission summary as the JavaScript value put into the token claims. */
  function PermissionToJson(p: Permission): (j: Json)
    ensures j.JObj? && Keys(j.props) == ["mobile", "app"]
  {
    JObj([Prop("mobile", AccessListToJson(p.mobile)), Prop("app", AccessListToJson(p.app))])
  }

  function AccessListToJson(es: seq<PermissionAccess>): Json
  {
    JArr(seq(|es|, i requires 0 <= i < |es| => JObj([Prop("key", JStr(es[i].key)), Prop("access", JBool(es[i].access))])))
  }

  /** Only `mobile` and `app` are read: every other platform is dropped. */
  lemma TransformPermissionsReadsTwoPlatforms(p: Json, q: Json)
    requires !p.JNull? && !p.JUndefined? && !q.JNull? && !q.JUndefined?
    requires Member(p, "mobile") == Member(q, "mobile") && Member(p, "app") == Member(q, "app")
    ensures TransformPermissions(p) == TransformPermissions(q)
  {
  }

  /** The entry list a converted platform turns into, or `[]` for a platform that is absent. */
  predicate SummarisesPlatform(r: seq<PermissionAccess>, p: PermissionHandler.Permissions, name: string)
  {
    && (forall i :: 0 <= i < |p| && p[i].platform == name ==>
          && |r| == |p[i].entities|
          && forall j :: 0 <= j < |r| ==> r[j] == PermissionAccess(NatToString(j), p[i].entities[j].key != ""))
    && ((forall i :: 0 <= i < |p| ==> p[i].platform != name) ==> r == [])
  }

  predicate DistinctPlatforms(p: PermissionHandler.Permissions)
  {
    forall i, j :: 0 <= i < j < |p| ==> p[i].platform != p[j].platform
  }

  /**
   * Fed the converted permissions, each platform's entities are read as an
   * array: keys become the indices "0", "1", ..., and the access of an entry
   * is true exactly when its entity name is non-empty (its action list, an
   * array, is always truthy).
   */
  lemma TransformConvertedPermissions(p: PermissionHandler.Permissions)
    requires DistinctPlatforms(p)
    ensures TransformPermissions(PermissionHandler.PermissionsToJson(p)).Some?
    ensures SummarisesPlatform(TransformPermissions(PermissionHandler.PermissionsToJson(p)).value.mobile, p, "mobile")
    ensures SummarisesPlatform(TransformPermissions(PermissionHandler.PermissionsToJson(p)).value.app, p, "app")
  {
    ConvertedPlatform(p, "mobile");
    ConvertedPlatform(p, "app");
  }

  lemma ConvertedPlatform(p: PermissionHandler.Permissions, name: string)
    requires DistinctPlatforms(p)
    ensures TransformAccess(OrEmptyObject(Member(PermissionHandler.PermissionsToJson(p), name))).Some?
    ensures SummarisesPlatform(TransformAccess(OrEmptyObject(Member(PermissionHandler.PermissionsToJson(p), name))).value, p, name)
  {
    if i :| 0 <= i < |p| && p[i].platform == name {
      ConvertedPresent(p, name, i);
    } else {
      ConvertedAbsent(p, name);
    }
  }

  /** A platform the permissions hold is read back entry by entry. */
  lemma ConvertedPresent(p: PermissionHandler.Permissions, name: string, i: nat)
    requires DistinctPlatforms(p) && i < |p| && p[i].platform == name
    ensures TransformAccess(OrEmptyObject(Member(PermissionHandler.PermissionsToJson(p), name))).Some?
    ensures SummarisesPlatform(TransformAccess(OrEmptyObject(Member(PermissionHandler.PermissionsToJson(p), name))).value, p, name)
  {
    var es := p[i].entities;
    MemberOfPlatform(p, i);
    EntitiesConverted(es);
    var r := TransformAccess(PermissionHandler.EntitiesToJson(es)).value;
    forall i' | 0 <= i' < |p| && p[i'].platform == name
      ensures |r| == |p[i'].entities|
      ensures forall j :: 0 <= j < |r| ==> r[j] == PermissionAccess(NatToString(j), p[i'].entities[j].key != "")
    {
      assert i' == i;
    }
  }

  /** Reading a platform's property out of the converted permissions gives its entity array. */
  lemma MemberOfPlatform(p: PermissionHandler.Permissions, i: nat)
    requires DistinctPlatforms(p) && i < |p|
    ensures OrEmptyObject(Member(PermissionHandler.PermissionsToJson(p), p[i].platform)) ==
              PermissionHandler.EntitiesToJson(p[i].entities)
  {
    var props := PermissionHandler.PermissionsToJson(p).props;
    assert forall i :: 0 <= i < |p| ==> props[i].key == p[i].platform;
    DistinctKeysUnique(props);
    GetAt(props, i);
  }

  /** An entity array converts to one entry per entity, indexed, with access for a named entity. */
  lemma EntitiesConverted(es: seq<PermissionHandler.EntityAccess>)
    ensures TransformAccess(PermissionHandler.EntitiesToJson(es)).Some?
    ensures var r := TransformAccess(PermissionHandler.EntitiesToJson(es)).value;
            && |r| == |es|
            && forall j :: 0 <= j < |r| ==> r[j] == PermissionAccess(NatToString(j), es[j].key != "")
  {
    var entries := Entries(PermissionHandler.EntitiesToJson(es)).value;
    forall j | 0 <= j < |es|
      ensures Entries(entries[j].value).Some?
      ensures AllTruthy(Entries(entries[j].value).value) == (es[j].key != "")
    {
      assert entries[j].value == PermissionHandler.EntityToJson(es[j]);
      var vs := Entries(entries[j].value).value;
      assert |vs| == 2 && vs[0].value == JStr(es[j].key) && vs[1].value.JArr?;
    }
  }

  /** A platform the permissions lack reads as an empty object, and converts to no entries. */
  lemma ConvertedAbsent(p: PermissionHandler.Permissions, name: string)
    requires forall i :: 0 <= i < |p| ==> p[i].platform != name
    ensures TransformAccess(OrEmptyObject(Member(PermissionHandler.PermissionsToJson(p), name))) == Some([])
  {
    var props := PermissionHandler.PermissionsToJson(p).props;
    assert forall i :: 0 <= i < |p| ==> props[i].key == p[i].platform;
    assert !HasKey(props, name) by {
      if HasKey(props, name) {
        HasKeyExists(props, name);
      }
    }
    GetMissing(props, name);
  }
}
