/**
 * The decoded JSON payloads the bot receives (Telegram updates, provider replies),
 * and the field readers that pydantic's validation applies to them.
 *
 * Validation is modelled in pydantic's strict sense: an `int` field takes an
 * integer, a `float` field an integer or a real, a `str` field a string and a
 * `bool` field a boolean; unknown keys are ignored.
 */
module Json {
  import opened Wrappers

  datatype Json =
    | JNull
    | JBool(b: bool)
    | JInt(i: int)
    | JReal(r: real)
    | JStr(s: string)
    | JArray(items: seq<Json>)
    | JObject(fields: map<string, Json>)

  /** A JSON object as a Python dict. */
  type Object = map<string, Json>

  /** `v` is an object whose key `key` holds `value`. */
  predicate HasField(v: Json, key: string, value: Json)
  {
    v.JObject? && key in v.fields && v.fields[key] == value
  }

  /** Python truthiness of a decoded JSON value. */
  predicate Truthy(v: Json)
  {
    match v
    case JNull => false
    case JBool(b) => b
    case JInt(i) => i != 0
    case JReal(r) => r != 0.0
    case JStr(s) => s != ""
    case JArray(items) => items != []
    case JObject(fields) => fields != map[]
  }

  /** Python's falsy values among decoded JSON: `None`, `False`, `0`, `0.0`, `""`, `[]`, `{}`. */
  const FalsyValues: set<Json> := {JNull, JBool(false), JInt(0), JReal(0.0), JStr(""), JArray([]), JObject(map[])}

  /** A value is truthy exactly when it is not one of the falsy values. */
  lemma TruthyIff(v: Json)
    ensures Truthy(v) <==> v !in FalsyValues
  {
  }

  /** One step of a pydantic `AliasPath`: a dict key or a list position. */
  datatype PathItem = Key(key: string) | Index(index: nat)

  /** Follows an alias path; `None` when some step finds nothing. */
  function LookupPath(v: Json, path: seq<PathItem>): (r: Option<Json>)
    ensures path == [] ==> r == Some(v)
    decreases |path|
  {
    if path == [] then Some(v)
    else
      match path[0]
      case Key(k) =>
        if v.JObject? && k in v.fields then LookupPath(v.fields[k], path[1..]) else None
      case Index(n) =>
        if v.JArray? && n < |v.items| then LookupPath(v.items[n], path[1..]) else None
  }

  /** Following `p + q` is following `p`, then `q` from where `p` led. */
  lemma {:induction false} LookupPathAppend(v: Json, p: seq<PathItem>, q: seq<PathItem>)
    ensures LookupPath(v, p + q) == if LookupPath(v, p).Some? then LookupPath(LookupPath(v, p).value, q) else None
    decreases |p|
  {
    if p != [] {
      assert (p + q)[0] == p[0] && (p + q)[1..] == p[1..] + q;
      match p[0]
      case Key(k) =>
        if v.JObject? && k in v.fields { LookupPathAppend(v.fields[k], p[1..], q); }
      case Index(n) =>
        if v.JArray? && n < |v.items| { LookupPathAppend(v.items[n], p[1..], q); }
    } else {
      assert p + q == q;
    }
  }

  /** The value found under the first alias that is present, as `AliasChoices` picks it. */
  function FirstPresent(obj: Object, aliases: seq<string>): (r: Option<Json>)
    ensures r.Some? <==> exists k :: k in aliases && k in obj
    ensures r.Some? ==> exists i :: 0 <= i < |aliases| && aliases[i] in obj && r.value == obj[aliases[i]]
                          && forall j :: 0 <= j < i ==> aliases[j] !in obj
  {
    if aliases == [] then None
    else if aliases[0] in obj then Some(obj[aliases[0]])
    else
      var r := FirstPresent(obj, aliases[1..]);
      assert forall k :: k in aliases[1..] ==> k in aliases;
      assert forall k :: k in aliases && k != aliases[0] ==> k in aliases[1..];
      if r.Some? then
        var i :| 0 <= i < |aliases[1..]| && aliases[1..][i] in obj && r.value == obj[aliases[1..][i]]
                  && forall j :: 0 <= j < i ==> aliases[1..][j] !in obj;
        assert aliases[i + 1] in obj && forall j :: 0 <= j < i + 1 ==> aliases[j] !in obj;
        r
      else r
  }

  /** `o` and `o'` hold the same keys, with the same values, among `keys`; they may differ elsewhere. */
  predicate AgreeOn(o: Object, o': Object, keys: set<string>)
  {
    forall k :: k in keys ==> (k in o <==> k in o') && (k in o ==> o[k] == o'[k])
  }

  /** An alias choice looks only at its aliases. */
  lemma {:induction false} FirstPresentAgree(o: Object, o': Object, aliases: seq<string>, keys: set<string>)
    requires forall i :: 0 <= i < |aliases| ==> aliases[i] in keys
    requires AgreeOn(o, o', keys)
    ensures FirstPresent(o, aliases) == FirstPresent(o', aliases)
    decreases |aliases|
  {
    if aliases != [] {
      assert aliases[0] in keys;
      FirstPresentAgree(o, o', aliases[1..], keys);
    }
  }

  function AsInt(v: Json): Option<int>
  {
    if v.JInt? then Some(v.i) else None
  }

  function AsStr(v: Json): Option<string>
  {
    if v.JStr? then Some(v.s) else None
  }

  function AsBool(v: Json): Option<bool>
  {
    if v.JBool? then Some(v.b) else None
  }

  /** A `float` field: integers are widened, reals kept. */
  function AsFloat(v: Json): Option<real>
  {
    match v
    case JInt(i) => Some(i as real)
    case JReal(r) => Some(r)
    case _ => None
  }

  /** A required `int` field. */
  function RequiredInt(obj: Object, key: string): (r: Option<int>)
    ensures r.Some? <==> key in obj && obj[key].JInt?
    ensures r.Some? ==> obj[key] == JInt(r.value)
  {
    if key in obj then AsInt(obj[key]) else None
  }

  /** A required `str` field. */
  function RequiredStr(obj: Object, key: string): (r: Option<string>)
    ensures r.Some? <==> key in obj && obj[key].JStr?
    ensures r.Some? ==> obj[key] == JStr(r.value)
  {
    if key in obj then AsStr(obj[key]) else None
  }

  /** A required `bool` field. */
  function RequiredBool(obj: Object, key: string): (r: Option<bool>)
    ensures r.Some? <==> key in obj && obj[key].JBool?
    ensures r.Some? ==> obj[key] == JBool(r.value)
  {
    if key in obj then AsBool(obj[key]) else None
  }

  /**
   * A field declared `T | None = None`: absent or `null` gives `Some(None)`, a value of
   * the right type gives `Some(Some(x))`, anything else fails validation (`None`).
   */
  function OptionalInt(obj: Object, key: string): (r: Option<Option<int>>)
    ensures key !in obj ==> r == Some(None)
    ensures key in obj && obj[key] == JNull ==> r == Some(None)
    ensures key in obj && obj[key].JInt? ==> r == Some(Some(obj[key].i))
    ensures r.None? <==> key in obj && obj[key] != JNull && !obj[key].JInt?
  {
    if key !in obj || obj[key] == JNull then Some(None)
    else if obj[key].JInt? then Some(Some(obj[key].i))
    else None
  }

  function OptionalStr(obj: Object, key: string): (r: Option<Option<string>>)
    ensures key !in obj ==> r == Some(None)
    ensures key in obj && obj[key] == JNull ==> r == Some(None)
    ensures key in obj && obj[key].JStr? ==> r == Some(Some(obj[key].s))
    ensures r.None? <==> key in obj && obj[key] != JNull && !obj[key].JStr?
  {
    if key !in obj || obj[key] == JNull then Some(None)
    else if obj[key].JStr? then Some(Some(obj[key].s))
    else None
  }

  /** A `bool` field with a default: absent gives the default; present must be a boolean. */
  function BoolOrDefault(obj: Object, key: string, default: bool): (r: Option<bool>)
    ensures key !in obj ==> r == Some(default)
    ensures key in obj ==> (r.Some? <==> obj[key].JBool?)
    ensures key in obj && r.Some? ==> obj[key] == JBool(r.value)
  {
    if key !in obj then Some(default) else AsBool(obj[key])
  }
}
