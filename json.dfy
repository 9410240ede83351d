/** Decoded JSON values as Python's `json.loads` hands them to the scripts,
    and the Python operations the scripts apply to them: truthiness,
    `dict.get`, `int(value)` and `float(value)`. */
module Json {
  import opened Common

  /** A JSON number with no fraction or exponent decodes to a Python
      `int`, any other number to a `float` (modelled as an exact real). */
  datatype Json =
    | JNull
    | JBool(b: bool)
    | JInt(i: int)
    | JReal(r: real)
    | JStr(s: string)
    | JArray(items: seq<Json>)
    | JObject(fields: map<string, Json>)

  /** `d.get(key)`: a missing key and a JSON null both read as None. */
  function Get(obj: map<string, Json>, key: string): (r: Json)
    ensures key !in obj ==> r == JNull
    ensures key in obj ==> r == obj[key]
  {
    if key in obj then obj[key] else JNull
  }

  /** Python truthiness (`if value:`) of a decoded value. */
  predicate Truthy(j: Json) {
    match j
    case JNull => false
    case JBool(b) => b
    case JInt(i) => i != 0
    case JReal(r) => r != 0.0
    case JStr(s) => s != ""
    case JArray(a) => a != []
    case JObject(o) => o != map[]
  }

  /** `int(value)`; `None` stands for the TypeError or ValueError it raises. */
  function PyInt(j: Json): (r: Option<int>)
    ensures j.JInt? ==> r == Some(j.i)
    ensures j.JNull? || j.JArray? || j.JObject? ==> r == None
    ensures j.JStr? ==> r == ParseIntText(j.s)
    ensures j.JReal? ==> r == Some(Trunc(j.r))
    ensures j.JBool? ==> r == Some(if j.b then 1 else 0)
  {
    match j
    case JNull => None
    case JBool(b) => Some(if b then 1 else 0)
    case JInt(i) => Some(i)
    case JReal(x) => Some(Trunc(x))
    case JStr(s) => ParseIntText(s)
    case JArray(_) => None
    case JObject(_) => None
  }

  /** `float(value)`; `None` stands for the TypeError or ValueError. */
  function PyFloat(j: Json): (r: Option<real>)
    ensures j.JInt? ==> r == Some(j.i as real)
    ensures j.JReal? ==> r == Some(j.r)
    ensures j.JNull? || j.JArray? || j.JObject? ==> r == None
    ensures j.JStr? ==> r == ParseFloatText(j.s)
  {
    match j
    case JNull => None
    case JBool(b) => Some(if b then 1.0 else 0.0)
    case JInt(i) => Some(i as real)
    case JReal(x) => Some(x)
    case JStr(s) => ParseFloatText(s)
    case JArray(_) => None
    case JObject(_) => None
  }

  /** Whatever `int()` accepts, `float()` accepts with the same value. */
  lemma PyIntIsPyFloat(j: Json)
    requires PyInt(j).Some? && !j.JReal?
    ensures PyFloat(j) == Some(PyInt(j).value as real)
  {
    if j.JStr? {
      IntTextIsFloatText(j.s);
    }
  }
}
