/** The Python values `json.loads` produces, and the two operations the aiming
    parser applies to them: `dict.get` and `int()`. Decoding JSON text itself
    is not modelled; callers receive it as a function parameter. */
module Json {
  import opened Py
  import PyInt

  /** A Python float: a finite value, or one of the non-finite values that
      `json.loads` accepts as `Infinity`, `-Infinity` and `NaN`. */
  datatype Float = Finite(value: real) | PosInfinity | NegInfinity | NaN

  /** A decoded JSON value; `Null` is Python's `None`. Objects are `dict`s
      with string keys. */
  datatype Json =
    | Null
    | Bool(b: bool)
    | Int(i: int)
    | Float(f: Float)
    | Str(s: string)
    | Array(items: seq<Json>)
    | Object(fields: map<string, Json>)

  /** `json.loads` as seen by the core: the decoded value, or `None` where
      it raises `JSONDecodeError`. */
  type Decoder = string -> Option<Json>

  /** Truncation of a real toward zero, as `int(float)` does. */
  function Truncate(r: real): (n: int)
    ensures 0.0 <= r ==> n as real <= r < n as real + 1.0
    ensures r < 0.0 ==> n as real - 1.0 < r <= n as real
  {
    if r >= 0.0 then r.Floor else -((-r).Floor)
  }

  /** Python's `int(v)` on a decoded value: integers as they are, booleans
      as 1 and 0, finite floats truncated toward zero, strings exactly when
      `int()` parses them. */
  function IntOf(v: Json): (r: Outcome<int>)
    ensures v.Int? ==> r == Returned(v.i)
    ensures v.Bool? ==> r.Returned? && (r.value == 1 <==> v.b) && (r.value == 0 <==> !v.b)
    ensures v.Float? && v.f.Finite? && 0.0 <= v.f.value ==>
              r.Returned? && r.value as real <= v.f.value < r.value as real + 1.0
    ensures v.Float? && v.f.Finite? && v.f.value < 0.0 ==>
              r.Returned? && r.value as real - 1.0 < v.f.value <= r.value as real
    ensures v.Float? && v.f.NaN? ==> r == Raised(ValueError)
    ensures v.Float? && (v.f.PosInfinity? || v.f.NegInfinity?) ==> r == Raised(OverflowError)
    ensures v.Str? ==> (r.Returned? <==> PyInt.ParseInt(v.s).Some?)
    ensures v.Str? && r.Returned? ==> PyInt.ParseInt(v.s) == Some(r.value)
    ensures v.Str? && r.Raised? ==> r.error == ValueError
    ensures v.Null? || v.Array? || v.Object? ==> r == Raised(TypeError)
  {
    match v
    case Null => Raised(TypeError)
    case Bool(b) => Returned(if b then 1 else 0)
    case Int(i) => Returned(i)
    case Float(Finite(x)) => Returned(Truncate(x))
    case Float(NaN) => Raised(ValueError)
    case Float(_) => Raised(OverflowError)
    case Str(s) =>
      (match PyInt.ParseInt(s)
       case Some(n) => Returned(n)
       case None => Raised(ValueError))
    case Array(_) => Raised(TypeError)
    case Object(_) => Raised(TypeError)
  }

  /** `d.get(key, default)`: only a `dict` has `get`. */
  function Get(d: Json, key: string, default: Json): (r: Outcome<Json>)
    ensures r.Raised? <==> !d.Object?
    ensures r.Raised? ==> r.error == AttributeError
    ensures d.Object? && key in d.fields ==> r == Returned(d.fields[key])
    ensures d.Object? && key !in d.fields ==> r == Returned(default)
  {
    if !d.Object? then Raised(AttributeError)
    else if key in d.fields then Returned(d.fields[key])
    else Returned(default)
  }

  /** `int()` accepts exactly the strings that `str()` of an integer (with
      optional padding) produces, among others: `int(str(n)) == n`. */
  lemma IntOfStr(n: int)
    ensures IntOf(Str(PyInt.Str(n))) == Returned(n)
  {
    PyInt.ParseStr(n);
    IntOfNumeral(PyInt.Str(n), n);
  }

  /** A string holding a character that is neither whitespace nor part of a
      numeral (`"12px"`, `"3.5"`) makes `int()` raise `ValueError`. */
  lemma IntOfRejectsNonNumeral(s: string, k: int)
    requires 0 <= k < |s| && !PyInt.IsNumeralChar(s[k]) && !PyInt.IsIntSpace(s[k])
    ensures IntOf(Str(s)) == Raised(ValueError)
  {
  }

  /** A string `int()` parses converts to that number. */
  lemma IntOfNumeral(s: string, n: int)
    requires PyInt.ParseInt(s) == Some(n)
    ensures IntOf(Str(s)) == Returned(n)
  {
  }
}
