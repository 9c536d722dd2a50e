/** Python values as the optimizer layer handles them, the exceptions it
    raises, and the small failure-compatible wrappers used to model them. */
module PyValues {

  /** A Python value. Floats are kept exact as `real`: the modelled code only
      stores, copies and compares them. Lists, tuples and NumPy arrays are all
      `ListV`; dicts with string keys are `MapV`; a function or other callable
      is known by its name. */
  datatype Value =
    | NoneV
    | BoolV(b: bool)
    | IntV(i: int)
    | RealV(r: real)
    | StrV(s: string)
    | ListV(items: seq<Value>)
    | MapV(entries: map<string, Value>)
    | FuncV(name: string)

  /** Python truthiness of a value. */
  predicate Truthy(v: Value) {
    match v
    case NoneV => false
    case BoolV(b) => b
    case IntV(i) => i != 0
    case RealV(r) => r != 0.0
    case StrV(s) => |s| > 0
    case ListV(items) => |items| > 0
    case MapV(m) => |m| > 0
    case FuncV(_) => true
  }

  /** The exceptions the modelled code raises or lets through. */
  datatype Error =
    | AssertionError(msg: string)
    | KeyError(key: string)
    | ValueError(msg: string)
    | TypeError(msg: string)
    | AttributeError(attr: string)
    | IndexError
    | NotImplementedError
    | JSONDecodeError
    | LoaderError(code: nat)    // any other error raised inside a serialisation loader
    | BackendError(code: nat)   // any error raised inside a numerical backend
    | UserCodeError             // a user-registered class ran its own constructor

  datatype Option<+T> = None | Some(value: T)

  datatype Result<+T> = Ok(value: T) | Err(error: Error) {
    predicate IsFailure() { Err? }

    function PropagateFailure<U>(): Result<U>
      requires Err?
    {
      Err(error)
    }

    function Extract(): T
      requires Ok?
    {
      value
    }
  }

  /** The outcome of a statement that returns nothing but may raise. */
  datatype Outcome = Pass | Fail(error: Error)

  /** `d.get(key, default)` */
  function Get(d: map<string, Value>, key: string, default: Value): (v: Value)
    ensures key in d ==> v == d[key]
    ensures key !in d ==> v == default
  {
    if key in d then d[key] else default
  }

  /** The elements of a sequence are pairwise distinct. */
  ghost predicate Distinct<T>(s: seq<T>) {
    forall i, j :: 0 <= i < j < |s| ==> s[i] != s[j]
  }

  /** A list of strings as a Python list value. */
  function StrList(s: seq<string>): (v: Value)
    ensures v.ListV? && |v.items| == |s|
    ensures forall i :: 0 <= i < |s| ==> v.items[i] == StrV(s[i])
  {
    ListV(seq(|s|, i requires 0 <= i < |s| => StrV(s[i])))
  }
}
