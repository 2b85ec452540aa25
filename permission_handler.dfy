// The role permissions as the `roles.permissions` column stores them, once
// parsed: platform -> entity -> action -> allowed. The conversion gives each
// platform the list of its entities, and each entity the list of its action
// flags, in the stored order.
module PermissionHandler {
  import opened Json

  /** One stored action flag of an entity, such as `"create": true`. */
  datatype DbAction = DbAction(action: string, allowed: bool)

  /** One stored entity with its action flags, in stored order. */
  datatype DbEntity = DbEntity(entity: string, actions: seq<DbAction>)

  /** One stored platform with its entities, in stored order. */
  datatype DbPlatform = DbPlatform(platform: string, entities: seq<DbEntity>)

  datatype ActionAccess = ActionAccess(key: string, access: bool)

  datatype EntityAccess = EntityAccess(key: string, access: seq<ActionAccess>)

  datatype PlatformAccess = PlatformAccess(platform: string, entities: seq<EntityAccess>)

  /** A `Permission` object: one property per platform, in insertion order. */
  type Permissions = seq<PlatformAccess>

  /** A parsed JSON object never repeats a key. */
  predicate UniquePlatforms(db: seq<DbPlatform>)
  {
    forall i, j :: 0 <= i < j < |db| ==> db[i].platform != db[j].platform
  }

  predicate HasPlatform(p: Permissions, platform: string)
  {
    exists i :: 0 <= i < |p| && p[i].platform == platform
  }

  /** `transformActions`: the action flags, in order, each copied unchanged. */
  function TransformActions(actions: seq<DbAction>): (r: seq<ActionAccess>)
    ensures |r| == |actions|
    ensures forall i :: 0 <= i < |actions| ==> r[i].key == actions[i].action && r[i].access == actions[i].allowed
  {
    if actions == [] then []
    else [ActionAccess(actions[0].action, actions[0].allowed)] + TransformActions(actions[1..])
  }

  /** The `Object.entries(entities).map(...)` of one platform: one entry per entity, keyed by its name. */
  function TransformEntities(entities: seq<DbEntity>): (r: seq<EntityAccess>)
    ensures |r| == |entities|
    ensures forall i :: 0 <= i < |entities| ==>
              r[i].key == entities[i].entity && r[i].access == TransformActions(entities[i].actions)
  {
    if entities == [] then []
    else [EntityAccess(entities[0].entity, TransformActions(entities[0].actions))] + TransformEntities(entities[1..])
  }

  /** `permissions[platform] = entities`: overwrites an existing platform in place, appends a new one. */
  function Put(p: Permissions, platform: string, entities: seq<EntityAccess>): (r: Permissions)
    ensures !HasPlatform(p, platform) ==> r == p + [PlatformAccess(platform, entities)]
    ensures HasPlatform(p, platform) ==> |r| == |p|
  {
    if p == [] then [PlatformAccess(platform, entities)]
    else if p[0].platform == platform then [PlatformAccess(platform, entities)] + p[1..]
    else
      assert HasPlatform(p[1..], platform) ==> HasPlatform(p, platform) by {
        if HasPlatform(p[1..], platform) {
          var i :| 0 <= i < |p[1..]| && p[1..][i].platform == platform;
          assert p[i + 1].platform == platform;
        }
      }
      [p[0]] + Put(p[1..], platform, entities)
  }

  /**
   * The loop over the parsed platforms: the result has exactly the parsed
   * platforms, in order, each with its entities converted.
   */
  method ConvertPermissionsFromDatabase(db: seq<DbPlatform>) returns (p: Permissions)
    requires UniquePlatforms(db)
    ensures |p| == |db|
    ensures forall i :: 0 <= i < |db| ==>
              p[i].platform == db[i].platform && p[i].entities == TransformEntities(db[i].entities)
    ensures p == Converted(db)
  {
    p := [];
    for k := 0 to |db|
      invariant |p| == k
      invariant forall i :: 0 <= i < k ==>
                  p[i].platform == db[i].platform && p[i].entities == TransformEntities(db[i].entities)
    {
      assert !HasPlatform(p, db[k].platform);
      p := Put(p, db[k].platform, TransformEntities(db[k].entities));
    }
  }

  /** What the conversion loop computes, as a value for the functions that cannot call it. */
  function Converted(db: seq<DbPlatform>): (p: Permissions)
    ensures |p| == |db|
    ensures forall i :: 0 <= i < |db| ==>
              p[i].platform == db[i].platform && p[i].entities == TransformEntities(db[i].entities)
  {
    seq(|db|, i requires 0 <= i < |db| => PlatformAccess(db[i].platform, TransformEntities(db[i].entities)))
  }

  /** The converted permissions as the JavaScript value the rest of the program passes around. */
  function PermissionsToJson(p: Permissions): Json
  {
    JObj(seq(|p|, i requires 0 <= i < |p| => Prop(p[i].platform, EntitiesToJson(p[i].entities))))
  }

  function EntitiesToJson(es: seq<EntityAccess>): Json
  {
    JArr(seq(|es|, i requires 0 <= i < |es| => EntityToJson(es[i])))
  }

  function EntityToJson(e: EntityAccess): Json
  {
    JObj([Prop("key", JStr(e.key)),
          Prop("access", JArr(seq(|e.access|, i requires 0 <= i < |e.access| => ActionToJson(e.access[i]))))])
  }

  function ActionToJson(a: ActionAccess): Json
  {
    JObj([Prop("key", JStr(a.key)), Prop("access", JBool(a.access))])
  }
}
