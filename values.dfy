/** Python values as the decorator engine observes them: their runtime class
    (what `type(v)` returns) and their truthiness (what `not v` tests). */
module Values {

  datatype Option<+T> = None | Some(value: T)

  /** A class object. `AnyType` stands for `typing.Any`: the descriptor's type
      check lets it match every class, and it is never the class of a value. */
  datatype TypeTag =
    | NoneType
    | BoolType
    | IntType
    | StrType
    | ClassType(name: string)
    | AnyType

  /** The values an option, a call argument or a result can hold.  An
      `Instance` is any other object (a float, a container, an instance of a
      user class), of class `cls`; `truthy` is what its `__bool__` or
      `__len__` says, so `0.0`, `[]` and `{}` are falsy instances. */
  datatype Value =
    | NoneValue
    | Bool(b: bool)
    | Int(i: int)
    | Str(s: string)
    | Instance(cls: string, id: nat, truthy: bool)

  /** Keyword arguments of a call. */
  type Kwargs = map<string, Value>

  /** `type(v)`: the exact class, so `type(True)` is `bool` and not `int`. */
  function TypeOf(v: Value): (t: TypeTag)
    ensures t != AnyType
  {
    match v
    case NoneValue => NoneType
    case Bool(_) => BoolType
    case Int(_) => IntType
    case Str(_) => StrType
    case Instance(c, _, _) => ClassType(c)
  }

  /** Python truthiness: `None`, `False`, `0` and `""` are falsy. */
  predicate Truthy(v: Value): (truthy: bool)
    ensures !truthy <==>
      v == NoneValue || v == Bool(false) || v == Int(0) || v == Str("") || (v.Instance? && !v.truthy)
  {
    match v
    case NoneValue => false
    case Bool(b) => b
    case Int(i) => i != 0
    case Str(s) => s != ""
    case Instance(_, _, t) => t
  }

  /** A name is falsy when it is `None` or the empty string. */
  predicate NameTruthy(n: Option<string>)
  {
    n.Some? && n.value != ""
  }

  /** Every class object is truthy, so the only falsy type is `None`. */
  predicate TypeTruthy(t: Option<TypeTag>)
  {
    t.Some?
  }
}
