/**
 The Python values a decoded JSON response can hold, and the few Python
 operations the product lookup applies to them: truth testing, `dict.get`
 with a default, indexing with `[0]` and floor division by 100. Each
 operation either yields a value or raises one of Python's built-in
 exceptions, exactly as the interpreter would on that value.
 */
module PyJson {

  datatype Option<+T> = None | Some(value: T)

  /** A decoded JSON value as Python holds it (`None`, `bool`, `int`, `str`, `list`, `dict`).
      Numbers Python decodes as `float` (written with a fraction or an exponent) are not
      part of this model. */
  datatype Json =
    | JNull
    | JBool(b: bool)
    | JInt(i: int)
    | JStr(s: string)
    | JArr(elems: seq<Json>)
    | JObj(fields: map<string, Json>)

  /** The built-in exceptions the lookup can raise on an unexpected shape. */
  datatype PyError = AttributeError | IndexError | KeyError | TypeError

  /** The value of a Python expression, or the exception it raised. */
  datatype PyResult<+T> = Ok(value: T) | Raise(error: PyError) {
    predicate IsFailure() {
      Raise?
    }

    function PropagateFailure<U>(): PyResult<U>
      requires Raise?
    {
      Raise(error)
    }

    function Extract(): T
      requires Ok?
    {
      value
    }
  }

  /** Python's `bool(v)`: `None`, `False`, `0` and empty containers are false. */
  predicate Truthy(v: Json) {
    match v
    case JNull => false
    case JBool(b) => b
    case JInt(n) => n != 0
    case JStr(s) => |s| > 0
    case JArr(elems) => |elems| > 0
    case JObj(fields) => |fields| > 0
  }

  /** `v.get(key, default)`: only a `dict` has `get`. */
  function Get(v: Json, key: string, default: Json): PyResult<Json> {
    match v
    case JObj(fields) => Ok(if key in fields then fields[key] else default)
    case _ => Raise(AttributeError)
  }

  /** `v[0]`. A decoded JSON object has only string keys, so the integer key 0 is never
      present; `None`, `bool` and `int` are not subscriptable. */
  function First(v: Json): PyResult<Json> {
    match v
    case JArr(elems) => if |elems| > 0 then Ok(elems[0]) else Raise(IndexError)
    case JStr(s) => if |s| > 0 then Ok(JStr([s[0]])) else Raise(IndexError)
    case JObj(_) => Raise(KeyError)
    case _ => Raise(TypeError)
  }

  /** The values `//` accepts: `int`, and `bool`, which Python treats as the integers 0 and 1. */
  predicate IsNumber(v: Json) {
    v.JInt? || v.JBool?
  }

  function NumberOf(v: Json): int
    requires IsNumber(v)
  {
    if v.JInt? then v.i else if v.b then 1 else 0
  }

  /** `v // 100`: floor division, defined on numbers only. */
  function FloorDiv100(v: Json): (r: PyResult<int>)
    ensures r.Ok? <==> IsNumber(v)
    ensures r.Ok? ==> r.value * 100 <= NumberOf(v) < r.value * 100 + 100
    ensures r.Raise? ==> r.error == TypeError
  {
    if IsNumber(v) then Ok(NumberOf(v) / 100) else Raise(TypeError)
  }

  /** The quotient is the unique integer whose hundredfold lies within 100 below the dividend. */
  lemma FloorDiv100Unique(v: Json, q: int)
    requires IsNumber(v)
    requires q * 100 <= NumberOf(v) < q * 100 + 100
    ensures FloorDiv100(v) == Ok(q)
  {
  }

  /** The six falsy JSON values. */
  lemma FalsyValues(v: Json)
    ensures !Truthy(v) <==>
      v == JNull || v == JBool(false) || v == JInt(0) || v == JStr("") || v == JArr([]) || v == JObj(map[])
  {
  }

  /** Floor division rounds towards negative infinity, not towards zero. */
  lemma FloorDiv100Examples()
    ensures FloorDiv100(JInt(19999)) == Ok(199)
    ensures FloorDiv100(JInt(12345)) == Ok(123)
    ensures FloorDiv100(JInt(100)) == Ok(1)
    ensures FloorDiv100(JInt(99)) == Ok(0)
    ensures FloorDiv100(JInt(0)) == Ok(0)
    ensures FloorDiv100(JInt(-1)) == Ok(-1)
    ensures FloorDiv100(JInt(-101)) == Ok(-2)
    ensures FloorDiv100(JBool(true)) == Ok(0)
    ensures FloorDiv100(JStr("")) == Raise(TypeError)
  {
  }
}
