/**
 * The data the fixture-data resolver works on: Python values as the resolver
 * sees them, attribute tables of the objects it reads from, the fixture
 * `request`, and the errors it raises.
 */
module Values {

  /** A Python value stored in an attribute or in a dict. Only the dict and
      the list-of-dicts shapes matter to the resolver; every other Python
      value is represented by an integer or a string. */
  datatype Value =
    | Dict(entries: map<string, Value>)
    | List(items: seq<map<string, Value>>)
    | Int(i: int)
    | Str(s: string)

  /** A Python dict with string keys. */
  type Mapping = map<string, Value>

  /** The attributes of a module, class or function object (or of the request). */
  type Attrs = map<string, Value>

  datatype Option<+T> = None | Some(value: T)

  /** The two shapes a `default_data` may have: `dict` and `list`. */
  datatype Shape = DictShape | ListShape

  /** The object an attribute is read from, named in a type error. */
  datatype Role = Module | Cls | Function | Param

  datatype Error =
      /** `ValueError`: `<target>.<attribute> should be <type>`. */
    | WrongType(target: Role, attribute: string, expected: Shape)
      /** `ValueError`: `<type> is not supported` (the default is neither a dict nor a list). */
    | Unsupported
      /** `AttributeError` raised by reading `request.<target>`. */
    | MissingTarget(target: Role)

  datatype Result<+T> = Ok(value: T) | Err(error: Error) {
    predicate IsFailure() { Err? }

    function PropagateFailure<U>(): Result<U>
      requires Err?
    {
      Err(error)
    }

    function Extract(): T
      requires Ok?
    {
      value
    }
  }

  /** The fixture request. `moduleObj`, `classObj` and `functionObj` are the
      attributes of `request.module`, `request.cls` and `request.function`, or
      `None` when reading that property raises `AttributeError`; `attrs` holds
      the request's own attributes, where a parametrized fixture finds `param`. */
  datatype Request = Request(
    moduleObj: Option<Attrs>,
    classObj: Option<Attrs>,
    functionObj: Option<Attrs>,
    attrs: Attrs)

  /** `isinstance(value, dict)` or `isinstance(value, list)`. */
  predicate IsInstance(v: Value, shape: Shape) {
    match shape
    case DictShape => v.Dict?
    case ListShape => v.List?
  }

  /** The fresh `{}` or `[]` a getter falls back to. */
  function Empty(shape: Shape): (v: Value)
    ensures IsInstance(v, shape)
  {
    match shape
    case DictShape => Dict(map[])
    case ListShape => List([])
  }

  /** `getattr(target, name, default)`: the attribute when the target has
      one under that name, the default otherwise. */
  function GetAttr(target: Attrs, name: string, default: Value): (v: Value)
    ensures name in target ==> v == target[name]
    ensures name !in target ==> v == default
  {
    if name in target then target[name] else default
  }

  /** Python truthiness: an empty dict or list, `0` and `""` are falsy. */
  predicate IsTruthy(v: Value) {
    match v
    case Dict(entries) => entries != map[]
    case List(items) => items != []
    case Int(i) => i != 0
    case Str(s) => s != ""
  }
}
