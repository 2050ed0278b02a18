/**
 * JSON-like values as the service handles them: decoded LLM replies, JSONB
 * columns and response bodies, with the few Python operations the code applies
 * to them — truthiness, `len`, `in`, `dict.get` — including the TypeError each
 * raises on a value of the wrong kind.
 */
module Json {
  import opened Wrappers
  import Text

  /** A float is kept as its literal text; the only fact the code ever asks of one is whether it is zero. */
  datatype JsonValue =
    | JNull
    | JBool(b: bool)
    | JInt(i: int)
    | JFloat(literal: string, isZero: bool)
    | JStr(s: string)
    | JArr(items: seq<JsonValue>)
    | JObj(fields: map<string, JsonValue>)

  /** A JSON object, Python's `dict`. */
  type Object = map<string, JsonValue>

  /** Python `bool(v)`. */
  predicate Truthy(v: JsonValue) {
    match v
    case JNull => false
    case JBool(b) => b
    case JInt(i) => i != 0
    case JFloat(_, zero) => !zero
    case JStr(s) => s != []
    case JArr(xs) => xs != []
    case JObj(m) => m != map[]
  }

  /** Python `type(v).__name__`. */
  function TypeName(v: JsonValue): string {
    match v
    case JNull => "NoneType"
    case JBool(_) => "bool"
    case JInt(_) => "int"
    case JFloat(_, _) => "float"
    case JStr(_) => "str"
    case JArr(_) => "list"
    case JObj(_) => "dict"
  }

  /** Python `len(v or [])`: 0 for every falsy value, the size of a string, list or dict, and a TypeError
      for a true boolean or a non-zero number. */
  function LenOrEmpty(v: JsonValue): (r: Result<nat, string>)
    ensures !Truthy(v) ==> r == Ok(0)
    ensures r.Err? <==> Truthy(v) && (v.JBool? || v.JInt? || v.JFloat?)
    ensures r.Err? ==> r.error == "object of type '" + TypeName(v) + "' has no len()"
    ensures v.JStr? ==> r == Ok(|v.s|)
    ensures v.JArr? ==> r == Ok(|v.items|)
    ensures v.JObj? ==> r == Ok(|v.fields|)
  {
    var noLen: Result<nat, string> := Err("object of type '" + TypeName(v) + "' has no len()");
    match v
    case JNull => Ok(0)
    case JBool(b) => if b then noLen else Ok(0)
    case JInt(i) => if i != 0 then noLen else Ok(0)
    case JFloat(_, zero) => if zero then Ok(0) else noLen
    case JStr(s) => Ok(|s|)
    case JArr(xs) => Ok(|xs|)
    case JObj(m) => Ok(|m|)
  }

  /** Python `key in v`: key of a dict, element of a list, substring of a string; any other value raises. */
  function Has(v: JsonValue, key: string): (r: Result<bool, string>)
    ensures v.JObj? ==> r == Ok(key in v.fields)
    ensures v.JArr? ==> r == Ok(JStr(key) in v.items)
    ensures v.JStr? ==> r == Ok(Text.Contains(v.s, key))
    ensures r.Err? <==> v.JNull? || v.JBool? || v.JInt? || v.JFloat?
  {
    match v
    case JObj(m) => Ok(key in m)
    case JArr(xs) => Ok(JStr(key) in xs)
    case JStr(s) => Ok(Text.Contains(s, key))
    case _ => Err("argument of type '" + TypeName(v) + "' is not iterable")
  }

  /** Python `d.get(key, default)`. */
  function Get(d: Object, key: string, default: JsonValue): JsonValue {
    if key in d then d[key] else default
  }

  /** Python `v.get(key, default)` on a value that may not be a dict (AttributeError otherwise). */
  function GetAttr(v: JsonValue, key: string, default: JsonValue): (r: Result<JsonValue, string>)
    ensures r.Ok? <==> v.JObj?
    ensures v.JObj? ==> r.value == Get(v.fields, key, default)
    ensures !v.JObj? ==> r.error == "'" + TypeName(v) + "' object has no attribute 'get'"
  {
    if v.JObj? then Ok(Get(v.fields, key, default))
    else Err("'" + TypeName(v) + "' object has no attribute 'get'")
  }

  /** Python `{**base, k1: v1, ...}`: the later keys overwrite, every other key of `base` is kept. */
  function Merge(base: Option<Object>, extra: Object): (r: Result<Object, string>)
    ensures r.Ok? <==> base.Some?
    ensures base.Some? ==> r.value.Keys == base.value.Keys + extra.Keys
    ensures base.Some? ==> forall k :: k in base.value && k !in extra ==> r.value[k] == base.value[k]
    ensures base.Some? ==> forall k :: k in extra ==> r.value[k] == extra[k]
    ensures base.None? ==> r.error == "'NoneType' object is not a mapping"
  {
    match base
    case Some(m) => Ok(m + extra)
    case None => Err("'NoneType' object is not a mapping")
  }
}
