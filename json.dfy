// JavaScript values as the core handles them at run time: request bodies,
// entity objects, query parameters and response data. An object is its list
// of own properties in insertion order, which is the order `Object.entries`,
// `Object.keys` and `Object.assign` follow.
module Json {
  import opened Wrappers
  import opened Decimal

  /** A JavaScript value. Numbers are integers here (NaN, Infinity and fractions are not modelled). */
  datatype Json =
    | JUndefined
    | JNull
    | JBool(b: bool)
    | JNum(n: int)
    | JStr(s: string)
    | JArr(items: seq<Json>)
    | JObj(props: seq<Prop>)

  datatype Prop = Prop(key: string, value: Json)

  /** The own properties of a plain object. */
  type Object = seq<Prop>

  predicate HasKey(o: Object, k: string)
  {
    o != [] && (o[0].key == k || HasKey(o[1..], k))
  }

  /** A JavaScript object never has the same key twice. */
  predicate UniqueKeys(o: Object)
  {
    o == [] || (!HasKey(o[1..], o[0].key) && UniqueKeys(o[1..]))
  }

  lemma {:induction false} HasKeyIndex(o: Object, i: nat)
    requires i < |o|
    ensures HasKey(o, o[i].key)
  {
    if i > 0 {
      HasKeyIndex(o[1..], i - 1);
    }
  }

  lemma {:induction false} HasKeyExists(o: Object, k: string)
    requires HasKey(o, k)
    ensures exists i :: 0 <= i < |o| && o[i].key == k
  {
    if o[0].key != k {
      HasKeyExists(o[1..], k);
      var i :| 0 <= i < |o[1..]| && o[1..][i].key == k;
      assert o[i + 1].key == k;
    }
  }

  /** Pairwise distinct keys are what `UniqueKeys` asks for. */
  lemma {:induction false} DistinctKeysUnique(o: Object)
    requires forall i, j :: 0 <= i < j < |o| ==> o[i].key != o[j].key
    ensures UniqueKeys(o)
  {
    if o != [] {
      assert forall i :: 0 <= i < |o[1..]| ==> o[1..][i].key != o[0].key by {
        forall i | 0 <= i < |o[1..]| ensures o[1..][i].key != o[0].key {
          assert o[1..][i] == o[i + 1];
        }
      }
      if HasKey(o[1..], o[0].key) {
        HasKeyExists(o[1..], o[0].key);
      }
      DistinctKeysUnique(o[1..]);
    }
  }

  function Keys(o: Object): (ks: seq<string>)
    ensures |ks| == |o| && forall i :: 0 <= i < |o| ==> ks[i] == o[i].key
  {
    if o == [] then [] else [o[0].key] + Keys(o[1..])
  }

  /** `o[k]`: the value stored under `k`, or `undefined`. */
  function Get(o: Object, k: string): Json
  {
    if o == [] then JUndefined
    else if o[0].key == k then o[0].value
    else Get(o[1..], k)
  }

  lemma {:induction false} GetMissing(o: Object, k: string)
    requires !HasKey(o, k)
    ensures Get(o, k) == JUndefined
  {
    if o != [] {
      GetMissing(o[1..], k);
    }
  }

  lemma {:induction false} GetAt(o: Object, i: nat)
    requires UniqueKeys(o) && i < |o|
    ensures Get(o, o[i].key) == o[i].value
  {
    if i > 0 {
      HasKeyIndex(o[1..], i - 1);
      GetAt(o[1..], i - 1);
    }
  }

  /** A key of the first part reads from there; any other key reads from the second part. */
  lemma {:induction false} GetAppend(a: Object, b: Object, k: string)
    ensures Get(a + b, k) == if HasKey(a, k) then Get(a, k) else Get(b, k)
    ensures HasKey(a + b, k) <==> HasKey(a, k) || HasKey(b, k)
  {
    if a == [] {
      assert a + b == b;
    } else {
      assert (a + b)[0] == a[0] && (a + b)[1..] == a[1..] + b;
      GetAppend(a[1..], b, k);
    }
  }

  /** `o[k] = v`: overwrites the value in place when `k` is present, appends the property otherwise. */
  function Set(o: Object, k: string, v: Json): (r: Object)
    ensures HasKey(o, k) ==> |r| == |o|
    ensures !HasKey(o, k) ==> r == o + [Prop(k, v)]
  {
    if o == [] then [Prop(k, v)]
    else if o[0].key == k then [Prop(k, v)] + o[1..]
    else [o[0]] + Set(o[1..], k, v)
  }

  /** Writing a property and reading it back gives the value written and leaves every other property alone. */
  lemma {:induction false} GetSet(o: Object, k: string, v: Json, k': string)
    ensures Get(Set(o, k, v), k') == if k' == k then v else Get(o, k')
    ensures HasKey(Set(o, k, v), k') <==> k' == k || HasKey(o, k')
  {
    if o == [] {
    } else if o[0].key == k {
      assert Set(o, k, v)[1..] == o[1..];
    } else {
      GetSet(o[1..], k, v, k');
      assert Set(o, k, v)[1..] == Set(o[1..], k, v);
    }
  }

  lemma {:induction false} SetUnique(o: Object, k: string, v: Json)
    requires UniqueKeys(o)
    ensures UniqueKeys(Set(o, k, v))
    ensures Keys(Set(o, k, v)) == if HasKey(o, k) then Keys(o) else Keys(o) + [k]
  {
    if o == [] {
    } else if o[0].key == k {
      assert Set(o, k, v)[1..] == o[1..];
    } else {
      SetUnique(o[1..], k, v);
      GetSet(o[1..], k, v, o[0].key);
      assert Set(o, k, v)[1..] == Set(o[1..], k, v);
    }
  }

  /** `Object.assign(t, s)`: the properties of `s`, in order, written onto `t`. */
  function Assign(t: Object, s: Object): Object
    decreases |s|
  {
    if s == [] then t else Assign(Set(t, s[0].key, s[0].value), s[1..])
  }

  /** After `Object.assign`, a key of the source reads as the source's value; any other key is as it was. */
  lemma {:induction false} GetAssign(t: Object, s: Object, k: string)
    requires UniqueKeys(s)
    ensures Get(Assign(t, s), k) == if HasKey(s, k) then Get(s, k) else Get(t, k)
    ensures HasKey(Assign(t, s), k) <==> HasKey(s, k) || HasKey(t, k)
    decreases |s|
  {
    if s != [] {
      var t' := Set(t, s[0].key, s[0].value);
      GetAssign(t', s[1..], k);
      GetSet(t, s[0].key, s[0].value, k);
    }
  }

  lemma {:induction false} AssignUnique(t: Object, s: Object)
    requires UniqueKeys(t)
    ensures UniqueKeys(Assign(t, s))
    decreases |s|
  {
    if s != [] {
      SetUnique(t, s[0].key, s[0].value);
      AssignUnique(Set(t, s[0].key, s[0].value), s[1..]);
    }
  }

  /** The properties of `o` whose keys are listed in `cols`, in order. */
  function Pick(o: Object, cols: seq<string>): (r: Object)
    ensures |r| <= |o|
    ensures forall i :: 0 <= i < |r| ==> r[i].key in cols
  {
    if o == [] then []
    else if o[0].key in cols then [o[0]] + Pick(o[1..], cols)
    else Pick(o[1..], cols)
  }

  /** Picking keeps exactly the listed keys, with their values. */
  lemma {:induction false} GetPick(o: Object, cols: seq<string>, k: string)
    ensures Get(Pick(o, cols), k) == if k in cols then Get(o, k) else JUndefined
    ensures HasKey(Pick(o, cols), k) <==> HasKey(o, k) && k in cols
  {
    if o != [] {
      GetPick(o[1..], cols, k);
      if o[0].key in cols {
        assert Pick(o, cols)[1..] == Pick(o[1..], cols);
      }
    }
  }

  lemma {:induction false} PickUnique(o: Object, cols: seq<string>)
    requires UniqueKeys(o)
    ensures UniqueKeys(Pick(o, cols))
  {
    if o != [] {
      PickUnique(o[1..], cols);
      if o[0].key in cols {
        GetPick(o[1..], cols, o[0].key);
        assert Pick(o, cols)[1..] == Pick(o[1..], cols);
      }
    }
  }

  /** The array index a property key denotes: a numeral without leading zeros. */
  function ParseIndex(k: string): (r: Option<nat>)
    ensures r.Some? ==> k == NatToString(r.value)
  {
    if |k| >= 1 && AllDigits(k) && (|k| == 1 || k[0] != '0') then
      CanonicalNumeral(k);
      Some(ParseDigits(k))
    else None
  }

  lemma {:induction false} CanonicalNumeral(k: string)
    requires |k| >= 1 && AllDigits(k) && (|k| == 1 || k[0] != '0')
    ensures NatToString(ParseDigits(k)) == k
  {
    if |k| > 1 {
      var p := k[..|k| - 1];
      assert p[0] == k[0];
      CanonicalNumeral(p);
      var n := ParseDigits(k);
      assert n / 10 == ParseDigits(p) && n % 10 == DigitValue(k[|k| - 1]);
      assert n >= 10 by {
        ParseDigitsPositive(p);
      }
      assert k == p + [k[|k| - 1]];
    }
  }

  /** `j?.[k]`: a property read that gives `undefined` on `null`, `undefined` and primitives without that property. */
  function Member(j: Json, k: string): Json
  {
    match j
    case JObj(props) => Get(props, k)
    case JArr(items) =>
      if k == "length" then JNum(|items|)
      else (match ParseIndex(k)
            case Some(i) => if i < |items| then items[i] else JUndefined
            case None => JUndefined)
    case JStr(s) =>
      if k == "length" then JNum(|s|)
      else (match ParseIndex(k)
            case Some(i) => if i < |s| then JStr([s[i]]) else JUndefined
            case None => JUndefined)
    case _ => JUndefined
  }

  /** `Object.entries(j)`: `None` where JavaScript throws a TypeError (`null`, `undefined`). */
  function Entries(j: Json): (r: Option<seq<Prop>>)
    ensures r.None? <==> j.JNull? || j.JUndefined?
    ensures j.JObj? ==> r == Some(j.props)
    ensures j.JArr? ==>
              && r.Some? && |r.value| == |j.items|
              && forall i :: 0 <= i < |j.items| ==> r.value[i] == Prop(NatToString(i), j.items[i])
  {
    match j
    case JNull => None
    case JUndefined => None
    case JObj(props) => Some(props)
    case JArr(items) => Some(seq(|items|, i requires 0 <= i < |items| => Prop(NatToString(i), items[i])))
    case JStr(s) => Some(seq(|s|, i requires 0 <= i < |s| => Prop(NatToString(i), JStr([s[i]]))))
    case _ => Some([])
  }

  /** JavaScript truthiness (`!!j`). */
  predicate Truthy(j: Json)
  {
    match j
    case JUndefined => false
    case JNull => false
    case JBool(b) => b
    case JNum(n) => n != 0
    case JStr(s) => s != ""
    case _ => true
  }

  /** `typeof j === 'object' && j !== null`. */
  predicate IsObjectLike(j: Json)
  {
    j.JObj? || j.JArr?
  }

  /** `a === b`. Two object or array values are never the same reference here. */
  predicate StrictEquals(a: Json, b: Json)
  {
    match a
    case JUndefined => b.JUndefined?
    case JNull => b.JNull?
    case JBool(x) => b == JBool(x)
    case JNum(x) => b == JNum(x)
    case JStr(x) => b == JStr(x)
    case _ => false
  }

  /** `String(j)`, as a template literal renders a value. */
  function ToText(j: Json): string
  {
    match j
    case JUndefined => "undefined"
    case JNull => "null"
    case JBool(b) => if b then "true" else "false"
    case JNum(n) => IntToString(n)
    case JStr(s) => s
    case JArr(items) => JoinTexts(seq(|items|, i requires 0 <= i < |items| =>
                          if items[i].JNull? || items[i].JUndefined? then "" else ToText(items[i])))
    case JObj(_) => "[object Object]"
  }

  function JoinTexts(parts: seq<string>): string
  {
    if parts == [] then "" else if |parts| == 1 then parts[0] else parts[0] + "," + JoinTexts(parts[1..])
  }
}
