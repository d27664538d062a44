/**
 * A decoded JSON document as Python's `json` module hands it back: `None`,
 * `bool`, `int`, `str`, `list` and `dict` (later keys win, so a map).
 */
module Json {
  import opened Wrappers
  import PyText

  datatype Json =
    | Null
    | Bool(b: bool)
    | Int(i: int)
    | Str(s: string)
    | Arr(elems: seq<Json>)
    | Obj(fields: map<string, Json>)

  /** Python truthiness: `None`, `False`, `0`, `""`, `[]` and `{}` are false. */
  predicate Truthy(j: Json)
  {
    match j
    case Null => false
    case Bool(b) => b
    case Int(i) => i != 0
    case Str(s) => s != []
    case Arr(xs) => xs != []
    case Obj(m) => m != map[]
  }

  /** `d.get(key)` on a dict: the value, or `None` when the key is absent. */
  function Get(m: map<string, Json>, key: string): (r: Json)
    ensures key !in m ==> r == Null
    ensures key in m ==> r == m[key]
  {
    if key in m then m[key] else Null
  }

  /**
   * `str(v)` (the text an f-string substitutes) for the scalar values;
   * `None` for lists and dicts, whose `repr` is not part of this model.
   */
  function Show(j: Json): (r: Option<string>)
    ensures r.None? <==> j.Arr? || j.Obj?
    ensures j.Str? ==> r == Some(j.s)
  {
    match j
    case Null => Some("None")
    case Bool(b) => Some(if b then "True" else "False")
    case Int(i) => Some(PyText.IntToDecimal(i))
    case Str(s) => Some(s)
    case Arr(_) => None
    case Obj(_) => None
  }

  /**
   * The integer `format(v, ",")` renders, or `None` when it raises: `bool`
   * is a subclass of `int`, everything else is refused.
   */
  function AsInteger(j: Json): (r: Option<int>)
    ensures r.Some? <==> j.Int? || j.Bool?
    ensures j.Int? ==> r == Some(j.i)
  {
    match j
    case Int(i) => Some(i)
    case Bool(b) => Some(if b then 1 else 0)
    case _ => None
  }
}
