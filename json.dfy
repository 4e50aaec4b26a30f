/**
 * JSON-like values as the Python code sees them after `json.loads`, plus the two
 * truthiness rules in play: Python's (`if detail:`) and JavaScript's (`if (!data)`
 * inside the scripts handed to `page.evaluate`).
 */
module Json {
  import opened Wrappers

  /** `Null` stands for Python's `None` as well as JSON `null`. */
  datatype Value =
    | Null
    | Bool(b: bool)
    | Num(n: int)
    | Str(s: string)
    | Arr(items: seq<Value>)
    | Obj(fields: map<string, Value>)

  /** Python truthiness: None, False, 0, "", [] and {} are false. */
  predicate Truthy(v: Value)
  {
    match v
    case Null => false
    case Bool(b) => b
    case Num(n) => n != 0
    case Str(s) => s != ""
    case Arr(items) => items != []
    case Obj(fields) => fields != map[]
  }

  /** Python truthiness of an optional value. */
  predicate Present(d: Option<Value>)
  {
    d.Some? && Truthy(d.value)
  }

  /** JavaScript truthiness: arrays and objects are always true. */
  predicate JsTruthy(v: Value)
  {
    match v
    case Null => false
    case Bool(b) => b
    case Num(n) => n != 0
    case Str(s) => s != ""
    case Arr(_) => true
    case Obj(_) => true
  }

  /**
   * What `page.evaluate` hands back to Python for the scripts that answer with
   * `JSON.stringify(...)` or `''`: nothing, text `json.loads` rejects, or a value.
   */
  datatype EvalResult = Empty | Malformed | Decoded(v: Value)

  /** `if not result: return None; try: return json.loads(result) except: return None`. */
  function Loads(e: EvalResult): Option<Value>
  {
    match e
    case Decoded(v) => Some(v)
    case _ => None
  }

  /**
   * A reactive wrapper's payload: a mapping exposing `value` yields it, else one
   * exposing `_value` yields that, anything else is returned as it is.
   */
  function Unwrap(v: Value): Value
  {
    if v.Obj? && "value" in v.fields then v.fields["value"]
    else if v.Obj? && "_value" in v.fields then v.fields["_value"]
    else v
  }

  /** `d.get(key)` on a mapping: the missing key reads as None. */
  function Get(fields: map<string, Value>, key: string): Value
  {
    if key in fields then fields[key] else Null
  }

  /** What a page script that answers with `JSON.stringify` of an array hands back. */
  datatype ListProbe = NoList | BadList | Items(items: seq<Value>)

  /** `json.loads` of such an answer, with the empty and the malformed answer read as []. */
  function LoadList(p: ListProbe): (r: seq<Value>)
    ensures p.Items? ==> r == p.items
    ensures !p.Items? ==> r == []
  {
    if p.Items? then p.items else []
  }
}
