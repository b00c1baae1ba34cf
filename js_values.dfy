/** The slice of JavaScript's value model that the login pipeline can observe:
    the values a request body may hold, thrown faults, and the completion
    (normal return or throw) of a call into an injected collaborator. */
module JsValues {

  /** A JavaScript value. Objects are open maps from property name to value. */
  datatype Value =
    | Undefined
    | Null
    | Bool(b: bool)
    | Num(n: int)
    | Str(s: string)
    | Obj(props: map<string, Value>)

  /** Something thrown. `TypeError` is what the engine raises when a property
      is read from `undefined` or `null`; `Raised` is any fault thrown by a
      collaborator, known only by its description. */
  datatype Fault = TypeError(property: string) | Raised(description: string)

  /** How a call ended: it returned a value or it threw a fault. */
  datatype Completion<+T> = Normal(value: T) | Throw(fault: Fault)

  /** "Nothing returned" (`undefined`) versus a returned value. */
  datatype Option<+T> = None | Some(value: T)

  /** JavaScript truthiness, as used by `if (x)` and `if (!x)`. */
  predicate Truthy(v: Value)
  {
    match v
    case Undefined => false
    case Null => false
    case Bool(b) => b
    case Num(n) => n != 0
    case Str(s) => s != ""
    case Obj(_) => true
  }

  /** An own property of an object, `undefined` when it is absent. */
  function Lookup(props: map<string, Value>, key: string): Value
  {
    if key in props then props[key] else Undefined
  }

  /** The property access `v[key]` (also `v.key` and destructuring). */
  function GetProperty(v: Value, key: string): (r: Completion<Value>)
    ensures r.Throw? <==> v.Undefined? || v.Null?
    ensures r.Throw? ==> r.fault == TypeError(key)
    ensures v.Obj? ==> r == Normal(Lookup(v.props, key))
    ensures r.Normal? && r.value != Undefined ==> v.Obj? && key in v.props && r.value == v.props[key]
  {
    match v
    case Undefined => Throw(TypeError(key))
    case Null => Throw(TypeError(key))
    case Obj(props) => Normal(Lookup(props, key))
    case _ => Normal(Undefined)
  }

  /** The three falsy values an authenticator can plausibly hand back. */
  lemma NullUndefinedAndEmptyStringAreFalsy()
    ensures !Truthy(Undefined) && !Truthy(Null) && !Truthy(Str(""))
    ensures forall s: string :: s != [] ==> Truthy(Str(s))
  {
  }
}
