/** The Python values the cohort SDK receives as arguments, and the three things it asks of
    them: `isinstance` tests, `type(x)` as printed by `format`, and `str(x)`. */
module PyValues {
  import PyText

  /** A Python value. A float is kept only as its `repr` text (no arithmetic is ever done on
      it); any object that is not one of the builtins below is `PyObject`, carrying the
      qualified name of its class and its `str()` text. */
  datatype PyValue =
    | PyNone
    | PyBool(b: bool)
    | PyInt(i: int)
    | PyFloat(repr: string)
    | PyStr(s: string)
    | PyList(items: seq<PyValue>)
    | PyObject(typeName: string, text: string)

  /** `isinstance(v, int)`: `bool` is a subclass of `int`, so `True` and `False` pass. */
  predicate IsInt(v: PyValue)
  {
    v.PyInt? || v.PyBool?
  }

  /** `isinstance(v, float)`. */
  predicate IsFloat(v: PyValue)
  {
    v.PyFloat?
  }

  /** The "int or float" test the filter validator applies to numeric arguments. */
  predicate IsNumber(v: PyValue)
  {
    IsInt(v) || IsFloat(v)
  }

  /** The unqualified or qualified class name Python reports for `type(v)`. */
  function TypeName(v: PyValue): (name: string)
  {
    match v
    case PyNone => "NoneType"
    case PyBool(_) => "bool"
    case PyInt(_) => "int"
    case PyFloat(_) => "float"
    case PyStr(_) => "str"
    case PyList(_) => "list"
    case PyObject(t, _) => t
  }

  /** `"{0}".format(type(v))`, for example `<class 'int'>`. */
  function TypeRepr(v: PyValue): (text: string)
  {
    "<class '" + TypeName(v) + "'>"
  }

  /** `repr(v)`, used for the elements when a list is rendered. */
  function Repr(v: PyValue): (text: string)
    decreases v
  {
    match v
    case PyStr(s) => "'" + s + "'"
    case _ => Str(v)
  }

  /** `str(v)`, which is what `"{0}".format(v)` inserts. A list renders as its elements'
      `repr` joined by ", " between brackets. */
  function Str(v: PyValue): (text: string)
    decreases v, 1
  {
    match v
    case PyNone => "None"
    case PyBool(b) => if b then "True" else "False"
    case PyInt(i) => PyText.IntToDecimal(i)
    case PyFloat(r) => r
    case PyStr(s) => s
    case PyList(items) =>
      "[" + PyText.Join(", ", seq(|items|, k requires 0 <= k < |items| => Repr(items[k]))) + "]"
    case PyObject(_, text) => text
  }

  /** Formatting a string inserts it unchanged; formatting an int inserts its decimal
      digits, read back exactly by `int()`. */
  lemma StrOfStrAndInt(s: string, i: int)
    ensures Str(PyStr(s)) == s
    ensures PyText.ParseDecimal(Str(PyInt(i))) == i
  {
    PyText.IntToDecimalRoundTrip(i);
  }
}
