/** The JSON values a response body decodes to, with the Python operations the
    client applies to them: truthiness (`not x`) and `dict.get(key, default)`. */
module JsonValue {

  /** Numbers are modelled as integers; floating point is not modelled. */
  datatype Json =
    | Null
    | Bool(b: bool)
    | Number(n: int)
    | Str(s: string)
    | Array(items: seq<Json>)
    | Object(fields: map<string, Json>)

  /** Python truthiness of a decoded JSON value: `None`, `False`, `0`, `""`,
      `[]` and `{}` are false, everything else is true. */
  predicate Truthy(j: Json) {
    match j
    case Null => false
    case Bool(b) => b
    case Number(n) => n != 0
    case Str(s) => s != ""
    case Array(items) => |items| != 0
    case Object(fields) => |fields| != 0
  }

  /** The falsy values are exactly `None`, `False`, `0`, `""`, `[]` and `{}`. */
  lemma FalsyValues(j: Json)
    ensures !Truthy(j) <==> j == Null || j == Bool(false) || j == Number(0) || j == Str("")
                            || j == Array([]) || j == Object(map[])
  {
    if j.Object? && |j.fields| == 0 {
      assert j.fields == map[];
    }
  }

  /** `d.get(key, default)` on a dict. */
  function Get(fields: map<string, Json>, key: string, default: Json): Json {
    if key in fields then fields[key] else default
  }

  /** The name Python gives the type of a decoded value, as it appears in an
      `AttributeError` message. */
  function TypeName(j: Json): string {
    match j
    case Null => "NoneType"
    case Bool(_) => "bool"
    case Number(_) => "int"
    case Str(_) => "str"
    case Array(_) => "list"
    case Object(_) => "dict"
  }
}
