/// JSON-like Python values as they flow through the workflow: the state
/// dicts, manifests, form events and step outputs. Python `None` is `Null`;
/// a dict is an order-insensitive map from string keys (Python dict equality
/// ignores order too).
module Values {
  import opened Py

  datatype Value =
    | Null
    | Bool(b: bool)
    | Int(i: int)
    | Real(x: real)
    | Str(s: string)
    | List(items: seq<Value>)
    | Dict(fields: map<string, Value>)

  type Dict = map<string, Value>

  /** Python truthiness: `None`, `False`, `0`, `""`, `[]` and `{}` are false. */
  predicate Truthy(v: Value) {
    match v
    case Null => false
    case Bool(b) => b
    case Int(i) => i != 0
    case Real(x) => x != 0.0
    case Str(s) => s != []
    case List(items) => items != []
    case Dict(fields) => fields != map[]
  }

  /** `a or b` */
  function Or(a: Value, b: Value): (r: Value)
    ensures Truthy(a) ==> r == a
    ensures !Truthy(a) ==> r == b
  {
    if Truthy(a) then a else b
  }

  /** `str(v)`. A string is itself, `None`, `True` and `False` are their
      names, an int is its decimal numeral, and a float with an integral
      value below 10^16 in magnitude is that numeral with `.0`. Other floats
      and the reprs of lists and dicts are not modelled: they give the fixed
      placeholders `"<float>"`, `"[...]"` and `"{...}"`. */
  function PyStr(v: Value): (r: string)
    ensures v.Str? ==> r == v.s
    ensures v.Null? ==> r == "None"
    ensures v.Bool? ==> r == if v.b then "True" else "False"
    ensures v.Int? ==> IsNumeral(r) && (r[0] == '-' <==> v.i < 0)
    ensures v.Real? && v.x == v.x.Floor as real && -1e16 < v.x < 1e16 ==>
      |r| >= 3 && IsNumeral(r[..|r| - 2]) && r[|r| - 2..] == ".0"
  {
    match v
    case Null => "None"
    case Bool(b) => if b then "True" else "False"
    case Int(i) => IntToString(i)
    case Real(x) =>
      if x == x.Floor as real && -1e16 < x < 1e16 then IntToString(x.Floor) + ".0" else "<float>"
    case Str(s) => s
    case List(_) => "[...]"
    case Dict(_) => "{...}"
  }

  /** The digits `str` writes for a number read back as that number: an
      int's digits are its magnitude, and the digits in front of `.0` are
      an integral float's. */
  lemma PyStrDigits(v: Value)
    requires v.Int? || (v.Real? && v.x == v.x.Floor as real && -1e16 < v.x < 1e16)
    ensures v.Int? && v.i >= 0 ==>
      DigitsValue(PyStr(v)) == v.i && (|PyStr(v)| > 1 ==> PyStr(v)[0] != '0')
    ensures v.Int? && v.i < 0 ==>
      DigitsValue(PyStr(v)[1..]) == -v.i && PyStr(v)[1] != '0'
    ensures v.Real? ==> var r := PyStr(v);
      |r| >= 3 && r[|r| - 2..] == ".0"
      && (r[0] == '-' <==> v.x < 0.0)
      && (v.x >= 0.0 ==> DigitsValue(r[..|r| - 2]) == v.x.Floor)
      && (v.x < 0.0 ==> DigitsValue(r[1..|r| - 2]) == -v.x.Floor)
      && (v.x >= 0.0 && |r| > 3 ==> r[0] != '0')
      && (v.x < 0.0 ==> |r| >= 4 && r[1] != '0')
  {
    if v.Real? {
      var d := IntToString(v.x.Floor);
      assert PyStr(v) == d + ".0";
      assert (d + ".0")[..|d|] == d;
      assert (d + ".0")[1..|d|] == d[1..];
    }
  }

  /** `d.get(k, default)` */
  function Get(d: Dict, k: string, default: Value): (r: Value)
    ensures k in d ==> r == d[k]
    ensures k !in d ==> r == default
  {
    if k in d then d[k] else default
  }

  /** `dict(a)` updated with `b` (also `a | b`): every key of either; on a
      clash the value from `b` wins. */
  function Merged(a: Dict, b: Dict): (r: Dict)
    ensures forall k :: k in r <==> k in a || k in b
    ensures forall k :: k in b ==> r[k] == b[k]
    ensures forall k :: k in a && k !in b ==> r[k] == a[k]
  {
    a + b
  }

  /** `v.get(k, default)` on a value that may not be a dict: only a dict has
      a `get` method. */
  function MethodGet(v: Value, k: string, default: Value): (r: Result<Value>)
    ensures v.Dict? ==> r == Ok(Get(v.fields, k, default))
    ensures !v.Dict? ==> r.Err? && r.error.AttributeError?
  {
    if v.Dict? then Ok(Get(v.fields, k, default))
    else Err(AttributeError("'" + TypeName(v) + "' object has no attribute 'get'"))
  }

  /** `d[k]` on a dict given as a map. */
  function Lookup(d: Dict, k: string): (r: Result<Value>)
    ensures r.Ok? <==> k in d
    ensures r.Ok? ==> r.value == d[k]
    ensures r.Err? ==> r.error == KeyError(k)
  {
    if k in d then Ok(d[k]) else Err(KeyError(k))
  }

  /** The text-input form field built from a field name:
      `{"name": name, "widget": "text_input", "label": <label of name>}`. */
  function FieldSpec(name: string): Value {
    Dict(map["name" := Str(name), "widget" := Str("text_input"), "label" := Str(Label(name))])
  }

  /** Python's name for the type of a value, as exception messages show it. */
  function TypeName(v: Value): string {
    match v
    case Null => "NoneType"
    case Bool(_) => "bool"
    case Int(_) => "int"
    case Real(_) => "float"
    case Str(_) => "str"
    case List(_) => "list"
    case Dict(_) => "dict"
  }

  /** `v[key]` with a string key. */
  function Subscript(v: Value, key: string): (r: Result<Value>)
    ensures v.Dict? && key in v.fields <==> r.Ok?
    ensures r.Ok? ==> r.value == v.fields[key]
    ensures v.Dict? && key !in v.fields ==> r == Err(KeyError(key))
    ensures !v.Dict? ==> r.Err? && r.error.TypeError?
  {
    match v
    case Dict(m) => if key in m then Ok(m[key]) else Err(KeyError(key))
    case Str(_) => Err(TypeError("string indices must be integers"))
    case List(_) => Err(TypeError("list indices must be integers or slices, not str"))
    case _ => Err(TypeError("'" + TypeName(v) + "' object is not subscriptable"))
  }

  /** `x in c`: key membership for a dict (whose keys are strings here),
      element membership for a list, substring test for a string. */
  function In(x: Value, c: Value): (r: Result<bool>)
    ensures c.Dict? && x.Str? ==> r == Ok(x.s in c.fields)
    ensures c.List? ==> r == Ok(x in c.items)
    ensures (c.Null? || c.Int? || c.Real? || c.Bool?) ==> r.Err?
  {
    match c
    case Dict(m) =>
      (match x
       case Str(s) => Ok(s in m)
       case List(_) => Err(TypeError("unhashable type: 'list'"))
       case Dict(_) => Err(TypeError("unhashable type: 'dict'"))
       case _ => Ok(false))
    case List(items) => Ok(x in items)
    case Str(s) =>
      if x.Str? then Ok(Contains(s, x.s))
      else Err(TypeError("'in <string>' requires string as left operand, not " + TypeName(x)))
    case _ => Err(TypeError("argument of type '" + TypeName(c) + "' is not iterable"))
  }

  /** `for f in v`: the elements a list yields, the one-character strings a
      string yields; an empty dict yields nothing. */
  function Iterate(v: Value): (r: Result<seq<Value>>)
    ensures v.List? ==> r == Ok(v.items)
    ensures r.Ok? && v.Str? ==> |r.value| == |v.s|
  {
    match v
    case List(items) => Ok(items)
    case Str(s) => Ok(seq(|s|, k requires 0 <= k < |s| => Str([s[k]])))
    case Dict(m) =>
      if m == map[] then Ok([])
      else Err(TypeError("iterating over a dict is not modelled"))
    case _ => Err(TypeError("'" + TypeName(v) + "' object is not iterable"))
  }
}
