/**
 * The dynamically typed values that flow through configuration dicts, YAML
 * documents, template contexts and JSON bodies.
 */
module Values {
  import opened Dicts

  datatype Value =
    | VNone
    | VBool(b: bool)
    | VInt(i: int)
    | VFloat(f: real)
    | VStr(s: string)
    | VList(items: seq<Value>)
    | VDict(entries: Dict<Value>)
    | VObject(tag: string)   // any other Python object (a Path, a datetime, ...)

  /** Python truthiness (bool(v)). */
  predicate Truthy(v: Value)
  {
    match v
    case VNone => false
    case VBool(b) => b
    case VInt(i) => i != 0
    case VFloat(f) => f != 0.0
    case VStr(s) => s != ""
    case VList(items) => items != []
    case VDict(entries) => entries != []
    case VObject(_) => true
  }

  /** Lookup of a key in a value that may or may not be a dict (d.get(k) on a dict, else absent). */
  function Field(v: Value, k: string): Value
  {
    if v.VDict? then
      match Get(v.entries, k)
      case Some(x) => x
      case None => VNone
    else VNone
  }

  /** type(v).__name__ */
  function TypeName(v: Value): string
  {
    match v
    case VNone => "NoneType"
    case VBool(_) => "bool"
    case VInt(_) => "int"
    case VFloat(_) => "float"
    case VStr(_) => "str"
    case VList(_) => "list"
    case VDict(_) => "dict"
    case VObject(tag) => tag
  }
}
