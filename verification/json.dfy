/**
 The JSON values a request body can carry once parsed into Python objects,
 and Python's truthiness of them, which is what the endpoint's `if not
 query` test decides on.
 */
module JsonValues {

  /**
   A parsed JSON value: `null` is Python's `None`, integers and fractions
   become `int` and `float`, arrays become lists and objects become dicts.
   */
  datatype Value =
    | JNull
    | JBool(b: bool)
    | JInt(i: int)
    | JReal(r: real)
    | JString(s: string)
    | JArray(items: seq<Value>)
    | JObject(fields: map<string, Value>)

  /**
   Python's `bool(v)`: zero, empty and `None` are false, everything else is
   true. Each listed falsy value is false; `FalsyExactly` shows they are all.
   */
  predicate Truthy(v: Value)
    ensures v in FalsyValues ==> !Truthy(v)
  {
    match v
    case JNull => false
    case JBool(b) => b
    case JInt(i) => i != 0
    case JReal(r) => r != 0.0
    case JString(s) => |s| > 0
    case JArray(items) => |items| > 0
    case JObject(fields) => |fields| > 0
  }

  /** The seven values Python treats as false, listed one by one. */
  const FalsyValues: set<Value> :=
    {JNull, JBool(false), JInt(0), JReal(0.0), JString(""), JArray([]), JObject(map[])}

  /** A value is falsy exactly when it is one of the seven listed falsy values. */
  lemma FalsyExactly(v: Value)
    ensures !Truthy(v) <==> v in FalsyValues
  {
    match v
    case JObject(fields) =>
      if |fields| == 0 {
        assert fields == map[];
      }
    case _ =>
  }

  /** Python's `d.get(key)`: the stored value, or `None` when the key is absent. */
  function Get(d: map<string, Value>, key: string): (v: Value)
    ensures Truthy(v) ==> key in d && d[key] == v
    ensures key !in d ==> v == JNull && !Truthy(v)
    ensures key in d ==> v == d[key]
  {
    if key in d then d[key] else JNull
  }
}
