/** The Python values the pipeline passes around: what `json.loads` and
    `yaml.safe_load` produce, and the dicts and lists built from them. */
module Json {
  import opened Wrappers

  datatype JValue =
    | JNull
    | JBool(b: bool)
    | JInt(i: int)
    | JReal(r: real)
    | JStr(s: string)
    | JList(items: seq<JValue>)
    | JObj(fields: map<string, JValue>)

  /** Python truthiness (`if v:` and the operands of `or`). */
  predicate Truthy(v: JValue) {
    match v
    case JNull => false
    case JBool(b) => b
    case JInt(i) => i != 0
    case JReal(r) => r != 0.0
    case JStr(s) => s != []
    case JList(xs) => xs != []
    case JObj(m) => m != map[]
  }

  /** `type(v).__name__`. */
  function TypeName(v: JValue): string {
    match v
    case JNull => "NoneType"
    case JBool(_) => "bool"
    case JInt(_) => "int"
    case JReal(_) => "float"
    case JStr(_) => "str"
    case JList(_) => "list"
    case JObj(_) => "dict"
  }

  /** `str(e)` of the AttributeError raised by `v.attr` on a value lacking `attr`. */
  function NoAttribute(v: JValue, attr: string): string {
    "'" + TypeName(v) + "' object has no attribute '" + attr + "'"
  }

  /** `str(e)` of the KeyError raised by `d[key]` on a dict lacking `key`. */
  function KeyErrorMessage(key: string): string {
    "'" + key + "'"
  }

  /** `d.get(key, default)` on a dict. */
  function Lookup(m: map<string, JValue>, key: string, default: JValue): (r: JValue)
    ensures key in m ==> r == m[key]
    ensures key !in m ==> r == default
  {
    if key in m then m[key] else default
  }

  /** `v.get(key, default)` on a value of any type: only a dict has `get`. */
  function GetOr(v: JValue, key: string, default: JValue): (r: Outcome<JValue>)
    ensures r.Ok? <==> v.JObj?
    ensures v.JObj? ==> r.value == Lookup(v.fields, key, default)
  {
    match v
    case JObj(m) => Ok(Lookup(m, key, default))
    case _ => Raise(NoAttribute(v, "get"))
  }

  /** `v[key]` on a value of any type. */
  function Index(v: JValue, key: string): (r: Outcome<JValue>)
    ensures r.Ok? <==> v.JObj? && key in v.fields
    ensures r.Ok? ==> r.value == v.fields[key]
  {
    match v
    case JObj(m) => if key in m then Ok(m[key]) else Raise(KeyErrorMessage(key))
    case JStr(_) => Raise("string indices must be integers, not 'str'")
    case JList(_) => Raise("list indices must be integers or slices, not str")
    case _ => Raise("'" + TypeName(v) + "' object is not subscriptable")
  }
}
