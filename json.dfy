/**
 * The dynamic Python values the agent passes around: state dicts, intent and
 * routing dicts, roadmap dicts, decoded LLM replies and client payloads.
 * Dict key order is not represented.
 */
module Json {
  import opened Wrappers
  import Text

  datatype Json =
    | JNull
    | JBool(b: bool)
    | JInt(i: int)
    | JReal(r: real)
    | JStr(s: string)
    | JArr(items: seq<Json>)
    | JObj(fields: map<string, Json>)

  /** A string-to-value decoder in the role of `json.loads`; `None` is a decode error. */
  type Decoder = string -> Option<Json>

  /** Python truthiness: None, False, 0, 0.0, "", [] and {} are false. */
  predicate Truthy(v: Json) {
    match v
    case JNull => false
    case JBool(b) => b
    case JInt(i) => i != 0
    case JReal(r) => r != 0.0
    case JStr(s) => s != ""
    case JArr(a) => a != []
    case JObj(m) => m != map[]
  }

  /** `a or b` */
  function Or(a: Json, b: Json): Json {
    if Truthy(a) then a else b
  }

  /** `m.get(k, dflt)` on a dict given by its map: the default applies only to an absent key. */
  function Lookup(m: map<string, Json>, k: string, dflt: Json): Json {
    if k in m then m[k] else dflt
  }

  /**
   * `d.get(k, dflt)` where `d` is a dict. Every call site routes only dicts
   * here; where the source can reach `.get` on something else, the caller
   * models the AttributeError itself (see `IsDict`).
   */
  function Get(d: Json, k: string, dflt: Json): Json {
    if d.JObj? then Lookup(d.fields, k, dflt) else dflt
  }

  predicate IsDict(d: Json) {
    d.JObj?
  }

  function FieldsOf(d: Json): map<string, Json> {
    if d.JObj? then d.fields else map[]
  }

  /** `str(v)` for None, booleans, integers and strings; other values get a fixed stand-in. */
  function PyStr(v: Json): string {
    match v
    case JNull => "None"
    case JBool(b) => if b then "True" else "False"
    case JInt(i) => Text.IntToDecimal(i)
    case JStr(s) => s
    case _ => "<value>"
  }

  /** The text of a value that the schemas declare as a string; anything else reads as "". */
  function TextOf(v: Json): string {
    if v.JStr? then v.s else ""
  }

  const EmptyObj: Json := JObj(map[])
  const EmptyArr: Json := JArr([])

  /** `type(v).__name__` */
  function TypeName(v: Json): string {
    match v
    case JNull => "NoneType"
    case JBool(_) => "bool"
    case JInt(_) => "int"
    case JReal(_) => "float"
    case JStr(_) => "str"
    case JArr(_) => "list"
    case JObj(_) => "dict"
  }

  /** The text of the AttributeError raised by `v.attr` on a value without that attribute. */
  function NoAttribute(v: Json, attr: string): string {
    "'" + TypeName(v) + "' object has no attribute '" + attr + "'"
  }

  /** Does `len(v)` succeed? Only strings, lists and dicts have a length. */
  predicate Sized(v: Json) {
    v.JStr? || v.JArr? || v.JObj?
  }

  /** The text of the TypeError `len(v)` raises on a value without a length. */
  function NoLen(v: Json): string {
    "object of type '" + TypeName(v) + "' has no len()"
  }

  /** `v + 1`: `None` where Python raises a TypeError. */
  function PlusOne(v: Json): Option<Json> {
    match v
    case JInt(i) => Some(JInt(i + 1))
    case JReal(r) => Some(JReal(r + 1.0))
    case JBool(b) => Some(JInt(if b then 2 else 1))
    case _ => None
  }

  /** The text of the TypeError `v + 1` raises when `PlusOne(v)` is `None`. */
  function PlusOneError(v: Json): string {
    if v.JStr? then "can only concatenate str (not \"int\") to str"
    else if v.JArr? then "can only concatenate list (not \"int\") to list"
    else "unsupported operand type(s) for +: '" + TypeName(v) + "' and 'int'"
  }
}
