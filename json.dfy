/** Decoded JSON values as the Python side sees them (dict, list, str, int,
    bool, None, plus references to Python objects such as editor widgets),
    and the few pieces of Python semantics the client relies on when it
    inspects them: `isinstance(x, int)`, truth tests, `len(x)` and `x[i]`. */
module Json {

  datatype Option<+T> = None | Some(value: T)

  /** A decoded JSON value. `Obj` is a Python dict with string keys; `Ref`
      is any other Python object, known only by its identity `id(x)`. */
  datatype Value =
    | Null
    | Bool(b: bool)
    | Int(i: int)
    | Str(s: string)
    | Arr(items: seq<Value>)
    | Obj(fields: map<string, Value>)
    | Ref(obj: nat)

  /** The parameters of an outgoing message are always a dict. */
  type Params = map<string, Value>

  /** Python's truth test `if v:`; an object reference is always true. */
  predicate PyTruthy(v: Value) {
    match v
    case Null => false
    case Bool(b) => b
    case Int(i) => i != 0
    case Str(s) => s != []
    case Arr(xs) => xs != []
    case Obj(m) => m != map[]
    case Ref(_) => true
  }

  /** `isinstance(v, int)`: in Python `bool` is a subclass of `int`. */
  predicate IsPyInt(v: Value) {
    v.Int? || v.Bool?
  }

  /** The integer a Python int or bool stands for. */
  function PyIntValue(v: Value): int
    requires IsPyInt(v)
  {
    if v.Int? then v.i else if v.b then 1 else 0
  }

  /** Python list indexing `xs[i]`, where a negative index counts from the
      end; None is the IndexError. */
  function PyIndex<T>(xs: seq<T>, i: int): (r: Option<T>)
    ensures r.Some? <==> -|xs| <= i < |xs|
    ensures 0 <= i < |xs| ==> r == Some(xs[i])
    ensures -|xs| <= i < 0 ==> r == Some(xs[|xs| + i])
  {
    if 0 <= i < |xs| then Some(xs[i])
    else if -|xs| <= i < 0 then Some(xs[|xs| + i])
    else None
  }

  /** `len(v)`; None is the TypeError of a value that has no length. */
  function PyLen(v: Value): Option<nat> {
    match v
    case Arr(xs) => Some(|xs|)
    case Str(s) => Some(|s|)
    case Obj(m) => Some(|m|)
    case _ => None
  }

  /** `v[k]`; None is the KeyError, IndexError or TypeError Python raises. */
  function PyGetItem(v: Value, k: Value): (r: Option<Value>)
    ensures v.Arr? && IsPyInt(k) ==> r == PyIndex(v.items, PyIntValue(k))
    ensures v.Obj? && k.Str? ==> (r.Some? <==> k.s in v.fields)
    ensures v.Obj? && k.Str? && k.s in v.fields ==> r == Some(v.fields[k.s])
  {
    match v
    case Arr(xs) =>
      if IsPyInt(k) then PyIndex(xs, PyIntValue(k)) else None
    case Str(s) =>
      if IsPyInt(k) then
        match PyIndex(s, PyIntValue(k))
        case Some(c) => Some(Str([c]))
        case None => None
      else None
    case Obj(m) =>
      if k.Str? && k.s in m then Some(m[k.s]) else None
    case _ => None
  }

  /** `d[key]` on a value that must be a dict. */
  function Field(v: Value, key: string): (r: Option<Value>)
    ensures r.Some? <==> v.Obj? && key in v.fields
    ensures r.Some? ==> r.value == v.fields[key]
  {
    if v.Obj? && key in v.fields then Some(v.fields[key]) else None
  }
}
