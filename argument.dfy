/** One configurable option of a template (`DecoratorArgument`): a value, a
    declared type, and a name that the template scanner fills in. */
module Argument {
  import opened Values
  import opened Errors

  /** The set-once rule of the `arg_name` and `type` setters: a write takes
      effect only while the current value is falsy. */
  function SetOnce<T>(truthy: T -> bool, current: T, written: T): T
  {
    if truthy(current) then current else written
  }

  /** The field after a series of writes through a set-once setter. */
  function SetOnceAll<T>(truthy: T -> bool, current: T, writes: seq<T>): T
  {
    if writes == [] then current
    else SetOnceAll(truthy, SetOnce(truthy, current, writes[0]), writes[1..])
  }

  /** Reference definition: the first truthy element, or the last element
      when none is truthy. */
  function FirstTruthy<T>(truthy: T -> bool, values: seq<T>): T
    requires values != []
  {
    if truthy(values[0]) || |values| == 1 then values[0]
    else FirstTruthy(truthy, values[1..])
  }

  /** A set-once field ends up holding the first truthy value among its
      initial value and the writes; while none is truthy, the last write
      sticks (a falsy write replaces a falsy value). */
  lemma {:induction false} SetOnceAllIsFirstTruthy<T>(truthy: T -> bool, current: T, writes: seq<T>)
    ensures SetOnceAll(truthy, current, writes) == FirstTruthy(truthy, [current] + writes)
  {
    if writes != [] {
      var next := SetOnce(truthy, current, writes[0]);
      SetOnceAllIsFirstTruthy(truthy, next, writes[1..]);
      if truthy(current) {
        assert FirstTruthy(truthy, [current] + writes) == current;
        assert FirstTruthy(truthy, [next] + writes[1..]) == current;
      } else {
        assert ([current] + writes)[1..] == writes == [next] + writes[1..];
      }
    }
  }

  /** Once a set-once field is truthy, no later write changes it. */
  lemma {:induction false} SetOnceSticks<T>(truthy: T -> bool, current: T, writes: seq<T>)
    requires truthy(current)
    ensures SetOnceAll(truthy, current, writes) == current
  {
    if writes != [] {
      SetOnceSticks(truthy, current, writes[1..]);
    }
  }

  /** The observable state of one descriptor. */
  datatype Desc = Desc(name: Option<string>, typ: Option<TypeTag>, value: Value, validateType: bool)

  /** The `arg_name` setter. */
  function WithName(d: Desc, name: Option<string>): (r: Desc)
    ensures r.(name := d.name) == d
    ensures NameTruthy(d.name) ==> r == d
    ensures !NameTruthy(d.name) ==> r.name == name
  {
    d.(name := SetOnce(NameTruthy, d.name, name))
  }

  /** The `type` setter. */
  function WithType(d: Desc, typ: Option<TypeTag>): (r: Desc)
    ensures r.(typ := d.typ) == d
    ensures TypeTruthy(d.typ) ==> r == d
    ensures !TypeTruthy(d.typ) ==> r.typ == typ
  {
    d.(typ := SetOnce(TypeTruthy, d.typ, typ))
  }

  /** `_is_same_type`: exact equality, or either side is `Any`. */
  function IsSameType(a: TypeTag, b: TypeTag): (same: bool)
    ensures a == AnyType || b == AnyType ==> same
    ensures a != AnyType && b != AnyType ==> (same <==> a == b)
  {
    a == b || a == AnyType || b == AnyType
  }

  /** `type_validator`: the check runs only when `validate_type`, the value
      and the declared type are all truthy. */
  function Validate(d: Desc): (o: Outcome)
    ensures o.Fail? <==>
      d.validateType && Truthy(d.value) && d.typ.Some? &&
      TypeOf(d.value) != d.typ.value && d.typ.value != AnyType
    ensures o.Fail? ==> o.error == TypeMismatch(TypeOf(d.value), d.typ.value, d.name)
  {
    if d.validateType && Truthy(d.value) && d.typ.Some? && !IsSameType(TypeOf(d.value), d.typ.value)
    then Fail(TypeMismatch(TypeOf(d.value), d.typ.value, d.name))
    else Pass
  }

  /** The `value` setter: store first, validate afterwards. */
  function WriteValue(d: Desc, v: Value): (r: (Desc, Outcome))
    ensures r.0.value == v
    ensures r.0.(value := d.value) == d
    ensures !Truthy(v) ==> r.1 == Pass
    ensures r.1 == Pass <==>
      !d.validateType || d.typ.None? || !Truthy(v) || TypeOf(v) == d.typ.value || d.typ.value == AnyType
  {
    var stored := d.(value := v);
    (stored, Validate(stored))
  }

  class DecoratorArgument {
    const defaultValue: Value
    const validateType: bool
    var argName: Option<string>
    var typ: Option<TypeTag>
    var value: Value

    function View(): Desc
      reads this
    {
      Desc(argName, typ, value, validateType)
    }

    /** The default is stored as the value without any type check. */
    constructor (defaultValue: Value, typ: Option<TypeTag>, validateType: bool)
      ensures this.defaultValue == defaultValue
      ensures View() == Desc(None, typ, defaultValue, validateType)
    {
      this.defaultValue := defaultValue;
      this.validateType := validateType;
      this.value := defaultValue;
      this.argName := None;
      this.typ := typ;
    }

    method SetArgName(name: Option<string>)
      modifies this`argName
      ensures View() == WithName(old(View()), name)
    {
      if !NameTruthy(argName) {
        argName := name;
      }
    }

    method SetType(t: Option<TypeTag>)
      modifies this`typ
      ensures View() == WithType(old(View()), t)
    {
      if !TypeTruthy(typ) {
        typ := t;
      }
    }

    method SetValue(v: Value) returns (o: Outcome)
      modifies this`value
      ensures (View(), o) == WriteValue(old(View()), v)
    {
      value := v;
      o := TypeValidator();
    }

    method TypeValidator() returns (o: Outcome)
      ensures o == Validate(View())
    {
      if validateType && Truthy(value) && typ.Some? {
        var valueType := TypeOf(value);
        if !IsSameType(valueType, typ.value) {
          return Fail(TypeMismatch(valueType, typ.value, argName));
        }
      }
      return Pass;
    }
  }
}
