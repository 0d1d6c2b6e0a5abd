/** A decoded JSON document as the Python backend sees it (`dict`, `list`, `str`, `int`,
    `float`, `bool`, `None`), with the few Python operations the parser applies to it:
    truthiness, `dict.get` and `float()`. */
module JsonTree {
  import opened Wrappers

  /** Python `None` is `JNull`; `JReal` stands for a Python `float`. */
  datatype Json =
    | JNull
    | JBool(b: bool)
    | JInt(i: int)
    | JReal(r: real)
    | JString(s: string)
    | JList(items: seq<Json>)
    | JDict(fields: map<string, Json>)

  /** Python truthiness: `None`, `False`, zero and empty containers are false. */
  predicate Truthy(j: Json) {
    match j
    case JNull => false
    case JBool(b) => b
    case JInt(i) => i != 0
    case JReal(r) => r != 0.0
    case JString(s) => s != ""
    case JList(items) => items != []
    case JDict(fields) => fields != map[]
  }

  /** `fields.get(key, default)` on a dictionary. */
  function GetOr(fields: map<string, Json>, key: string, default: Json): Json {
    if key in fields then fields[key] else default
  }

  /** The conversions Python and pydantic apply to strings, which the model takes as given:
      `float(s)` and the lax integer parse of a numeric string (`None` where they raise). */
  datatype Coercions = Coercions(toFloat: string -> Option<real>, toInt: string -> Option<int>)

  /** Python's `float(x)` on a value that is not `None`: numbers and booleans convert,
      strings convert when they spell a number, containers raise (`None`). */
  function PyFloat(x: Json, conv: Coercions): (r: Option<real>)
    ensures x.JInt? ==> r == Some(x.i as real)
    ensures x.JReal? ==> r == Some(x.r)
    ensures x.JList? || x.JDict? || x.JNull? ==> r == None
  {
    match x
    case JNull => None
    case JBool(b) => Some(if b then 1.0 else 0.0)
    case JInt(i) => Some(i as real)
    case JReal(r) => Some(r)
    case JString(s) => conv.toFloat(s)
    case JList(_) => None
    case JDict(_) => None
  }
}
