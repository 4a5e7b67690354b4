/** The function proxy (`DecoratedFunction`): the template's stand-in for
    the decorated function, holding the target, the pending call arguments
    and the last result. */
module Proxy {
  import opened Values
  import opened Errors

  /** A decorated (target) function; its body is code this model does not see. */
  type Target = (seq<Value>, Kwargs) -> Value

  /** One invocation of the target, with the arguments it received. */
  datatype Invocation = Invocation(args: seq<Value>, kwargs: Kwargs)

  /** The proxy's state apart from the target; `log` records every
      invocation of the target, in order. */
  datatype ProxyState = ProxyState(args: seq<Value>, kwargs: Kwargs, result: Value, log: seq<Invocation>)

  /** `__call__`: invoke the target with the call's positional arguments
      followed by the stored ones, and the call's keywords together with the
      stored ones; record and return the result. Colliding keywords, and a
      target that is still None, raise TypeError. */
  function Invoke(func: Option<Target>, ps: ProxyState, args: seq<Value>, kwargs: Kwargs): (r: (Result<Value>, ProxyState))
    ensures r.0.Ok? <==> func.Some? && kwargs.Keys !! ps.kwargs.Keys
    ensures r.0.Err? ==> r.1 == ps
    ensures r.0.Err? && !(kwargs.Keys !! ps.kwargs.Keys) ==> r.0.error == DuplicateKeyword(kwargs.Keys * ps.kwargs.Keys)
    ensures func.None? && kwargs.Keys !! ps.kwargs.Keys ==> r.0 == Err(UnboundProxy)
    ensures r.0.Ok? ==>
      var call := Invocation(args + ps.args, kwargs + ps.kwargs);
      && call.args[..|args|] == args && call.args[|args|..] == ps.args
      && call.kwargs.Keys == kwargs.Keys + ps.kwargs.Keys
      && (forall k | k in kwargs :: call.kwargs[k] == kwargs[k])
      && (forall k | k in ps.kwargs :: call.kwargs[k] == ps.kwargs[k])
      && r.0.value == func.value(call.args, call.kwargs)
      && r.1 == ps.(result := r.0.value, log := ps.log + [call])
  {
    if !(kwargs.Keys !! ps.kwargs.Keys) then (Err(DuplicateKeyword(kwargs.Keys * ps.kwargs.Keys)), ps)
    else if func.None? then (Err(UnboundProxy), ps)
    else
      var call := Invocation(args + ps.args, kwargs + ps.kwargs);
      var v := func.value(call.args, call.kwargs);
      (Ok(v), ps.(result := v, log := ps.log + [call]))
  }

  class DecoratedFunction {
    var args: seq<Value>
    var kwargs: Kwargs
    var result: Value
    var func: Option<Target>
    ghost var log: seq<Invocation>

    ghost function State(): ProxyState
      reads this
    {
      ProxyState(args, kwargs, result, log)
    }

    /** A proxy is created with its fixed arguments, no target and no result. */
    constructor (args: seq<Value>, kwargs: Kwargs)
      ensures State() == ProxyState(args, kwargs, NoneValue, [])
      ensures func == None
    {
      this.args := args;
      this.kwargs := kwargs;
      this.result := NoneValue;
      this.func := None;
      this.log := [];
    }

    /** The `func` setter overwrites the target unconditionally. */
    method SetFunc(f: Option<Target>)
      modifies this`func
      ensures func == f
    {
      func := f;
    }

    method Call(args: seq<Value>, kwargs: Kwargs) returns (r: Result<Value>)
      modifies this`result, this`log
      ensures (r, State()) == Invoke(func, old(State()), args, kwargs)
    {
      if !(kwargs.Keys !! this.kwargs.Keys) {
        return Err(DuplicateKeyword(kwargs.Keys * this.kwargs.Keys));
      }
      if func.None? {
        return Err(UnboundProxy);
      }
      var call := Invocation(args + this.args, kwargs + this.kwargs);
      result := func.value(call.args, call.kwargs);
      log := log + [call];
      return Ok(result);
    }
  }
}
