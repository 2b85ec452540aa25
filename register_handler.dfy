// Which identifying field of a registration payload is already taken by an
// existing user: the user side can be read through a dotted path, the payload
// side is always read flat under the path's last segment.
module RegisterHandler {
  import opened Wrappers
  import opened Strings
  import opened Json

  /** The reduce of `getNestedValue`: each key read with `?.[key]` from the value reached so far. */
  function Lookup(obj: Json, keys: seq<string>): Json
    decreases |keys|
  {
    if keys == [] then obj else Lookup(Member(obj, keys[0]), keys[1..])
  }

  /** `getNestedValue(obj, path)`. */
  function GetNestedValue(obj: Json, path: string): Json
  {
    Lookup(obj, Split(path, '.'))
  }

  /** Following a path in two legs is following it in one. */
  lemma {:induction false} LookupConcat(obj: Json, a: seq<string>, b: seq<string>)
    ensures Lookup(obj, a + b) == Lookup(Lookup(obj, a), b)
    decreases |a|
  {
    if a == [] {
      assert a + b == b;
    } else {
      assert (a + b)[0] == a[0] && (a + b)[1..] == a[1..] + b;
      LookupConcat(Member(obj, a[0]), a[1..], b);
    }
  }

  /** Nothing can be read out of `undefined`. */
  lemma {:induction false} LookupUndefined(keys: seq<string>)
    ensures Lookup(JUndefined, keys) == JUndefined
    decreases |keys|
  {
    if keys != [] {
      LookupUndefined(keys[1..]);
    }
  }

  /** As soon as an intermediate key is missing, the nested read gives `undefined`. */
  lemma NestedMissing(obj: Json, path: string, i: nat)
    requires i <= |Split(path, '.')|
    requires Lookup(obj, Split(path, '.')[..i]) == JUndefined
    ensures GetNestedValue(obj, path) == JUndefined
  {
    var keys := Split(path, '.');
    assert keys == keys[..i] + keys[i..];
    LookupConcat(obj, keys[..i], keys[i..]);
    LookupUndefined(keys[i..]);
  }

  /** A path without a dot is a single flat read. */
  lemma NestedFlat(obj: Json, field: string)
    requires '.' !in field
    ensures GetNestedValue(obj, field) == Member(obj, field)
  {
    assert Split(field, '.') == [field];
    assert Lookup(obj, [field]) == Lookup(Member(obj, field), []);
  }

  /** The value of `field` on the existing user. */
  function UserValue(checkUser: Json, field: string): Json
  {
    if '.' in field then GetNestedValue(checkUser, field) else Member(checkUser, field)
  }

  /** The payload key of `field`: its last dotted segment. */
  function PayloadKey(field: string): (k: string)
    ensures '.' !in k
    ensures |k| <= |field| && k == field[|field| - |k|..]
    ensures k == field || field[|field| - |k| - 1] == '.'
  {
    if '.' in field then
      LastFieldSuffix(field, '.');
      LastField(field, '.')
    else field
  }

  /** `PayloadKey` is the last piece of `field.split('.')`, which `pop()` takes. */
  lemma PayloadKeyIsLastPiece(field: string)
    ensures PayloadKey(field) == Split(field, '.')[|Split(field, '.')| - 1]
  {
    LastOfSplit(field, '.');
  }

  /** Both sides are defined and strictly equal. */
  predicate FieldMatches(checkUser: Json, payload: Json, field: string)
  {
    var u := UserValue(checkUser, field);
    var p := Member(payload, PayloadKey(field));
    !u.JUndefined? && !p.JUndefined? && StrictEquals(u, p)
  }

  /** For each field, in order, whether it matches. */
  function MatchFlags(checkUser: Json, payload: Json, fields: seq<string>): (flags: seq<bool>)
    ensures |flags| == |fields|
    ensures forall i :: 0 <= i < |fields| ==> flags[i] == FieldMatches(checkUser, payload, fields[i])
  {
    seq(|fields|, i requires 0 <= i < |fields| => FieldMatches(checkUser, payload, fields[i]))
  }

  /** The position of the first set flag from `k` on, or `|flags|` when there is none. */
  function FirstSet(flags: seq<bool>, k: nat): (i: nat)
    requires k <= |flags|
    ensures k <= i <= |flags|
    ensures i < |flags| ==> flags[i]
    ensures forall j :: k <= j < i ==> !flags[j]
    decreases |flags| - k
  {
    if k == |flags| || flags[k] then k else FirstSet(flags, k + 1)
  }

  /** What `GetRegisteredField` returns, for the functions that cannot call it. */
  function RegisteredField(checkUser: Json, payload: Json, fields: seq<string>): (r: Option<string>)
    ensures r.None? <==> forall i :: 0 <= i < |fields| ==> !FieldMatches(checkUser, payload, fields[i])
  {
    var flags := MatchFlags(checkUser, payload, fields);
    var i := FirstSet(flags, 0);
    if i < |fields| then Some(PayloadKey(fields[i])) else None
  }

  /**
   * `GetRegisteredField`: the payload key of the first field, in list order,
   * that matches; `None` (`null`) when none does.
   */
  method GetRegisteredField(checkUser: Json, payload: Json, fields: seq<string>) returns (r: Option<string>)
    ensures r.None? <==> forall i :: 0 <= i < |fields| ==> !FieldMatches(checkUser, payload, fields[i])
    ensures r.Some? ==>
              exists i :: && 0 <= i < |fields|
                          && FieldMatches(checkUser, payload, fields[i])
                          && r.value == PayloadKey(fields[i])
                          && forall j :: 0 <= j < i ==> !FieldMatches(checkUser, payload, fields[j])
    ensures r == RegisteredField(checkUser, payload, fields)
  {
    ghost var flags := MatchFlags(checkUser, payload, fields);
    r := None;
    for k := 0 to |fields|
      invariant r == None
      invariant forall j :: 0 <= j < k ==> !flags[j]
      invariant FirstSet(flags, 0) == FirstSet(flags, k)
    {
      var field := fields[k];
      if FieldMatches(checkUser, payload, field) {
        assert flags[k];
        r := Some(PayloadKey(field));
        assert 0 <= k < |fields| && FieldMatches(checkUser, payload, fields[k]) && r.value == PayloadKey(fields[k]);
        return;
      }
      assert !flags[k];
    }
  }
}
