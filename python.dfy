/** Python-level values the managers handle: keyword arguments, truthiness,
    the `x or default` idiom, and the exceptions that reach a caller. */
module Python {

  /** A Python value as it reaches a manager method. A float is modelled as a
      real; `PyObj` is a saved model instance, known by its primary key. */
  datatype Value =
    | PyNone
    | PyBool(b: bool)
    | PyInt(i: int)
    | PyFloat(r: real)
    | PyStr(s: string)
    | PyObj(key: int)

  /** Python truthiness: None, False, 0, 0.0 and '' are falsy; a model
      instance is always truthy. */
  predicate Truthy(v: Value) {
    match v
    case PyNone => false
    case PyBool(b) => b
    case PyInt(i) => i != 0
    case PyFloat(r) => r != 0.0
    case PyStr(s) => s != ""
    case PyObj(_) => true
  }

  /** Python's `a or b`: `a` when it is truthy, otherwise `b`. */
  function Or(a: Value, b: Value): (r: Value)
    ensures Truthy(a) ==> r == a
    ensures !Truthy(a) ==> r == b
    ensures Truthy(b) ==> Truthy(r)
  {
    if Truthy(a) then a else b
  }

  /** Keyword arguments of a call (`**kwargs`). */
  type Kwargs = map<string, Value>

  /** The value a keyword parameter receives: the supplied one, or its default. */
  function Arg(kw: Kwargs, name: string, default: Value): (v: Value)
    ensures name in kw ==> v == kw[name]
    ensures name !in kw ==> v == default
  {
    if name in kw then kw[name] else default
  }

  /** What is left in `**kwargs` once the named parameters are bound. */
  function Without(kw: Kwargs, names: set<string>): (rest: Kwargs)
    ensures rest.Keys == kw.Keys - names
    ensures forall k :: k in rest ==> rest[k] == kw[k]
  {
    kw - names
  }

  datatype Option<+T> = None | Some(value: T)

  /** The exceptions a manager call can raise. */
  datatype Error =
    | ValueError(message: string)
    | TypeError(message: string)
    | AttributeError(message: string)
    | IntegrityError(message: string)
    | ConversionError(message: string)

  /** Either a returned value or a raised exception. */
  datatype Result<+T> = Ok(value: T) | Err(error: Error) {

    predicate IsFailure() {
      Err?
    }

    function PropagateFailure<U>(): Result<U>
      requires Err?
    {
      Err(error)
    }

    function Extract(): T
      requires Ok?
    {
      value
    }
  }
}
