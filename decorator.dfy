/** The manufactured decorator (`DecoratorFactory`): a curried phase that
    only records overrides, a bound phase that rebinds the shared proxy and
    resolves the options once, and the wrapper it returns. */
module Decorator {
  import opened Values
  import opened Errors
  import opened Argument
  import opened ArgumentSet
  import opened Proxy
  import opened Template

  /** The wrapper's call on value-level state: overwrite the proxy's
      pending arguments, run the template with the options resolved at
      application time, and answer the template's value or, under
      `auto_return`, the proxy's result. */
  function WrapperRun(autoReturn: bool, body: Body, options: Options, func: Option<Target>,
                      ps: ProxyState, args: seq<Value>, kwargs: Kwargs): (r: (Result<Value>, ProxyState))
    ensures r.1.args == args && r.1.kwargs == kwargs
    ensures ps.log <= r.1.log
    ensures r.0.Err? ==> r.1 == ps.(args := args, kwargs := kwargs)
    ensures autoReturn && r.0.Ok? ==> r.0.value == r.1.result
  {
    var (r, ps') := Run(body, options, func, ps.(args := args, kwargs := kwargs));
    if autoReturn && r.Ok? then (Ok(ps'.result), ps') else (r, ps')
  }

  /** A wrapper call on a bound target whose keywords do not collide with
      the body's: the target runs exactly `n` times on the body's arguments
      followed by the caller's; the pending arguments are the caller's; the
      answer is the proxy's result under `auto_return` and the template's
      own return value otherwise. */
  lemma WrapperRunEffect(autoReturn: bool, body: Body, options: Options, f: Target,
                         ps: ProxyState, args: seq<Value>, kwargs: Kwargs, n: nat)
    requires Iterations(body.count, options) == Ok(n)
    requires body.kwargs.Keys !! kwargs.Keys
    ensures var (r, ps') := WrapperRun(autoReturn, body, options, Some(f), ps, args, kwargs);
      var call := Invocation(body.args + args, body.kwargs + kwargs);
      && ps'.args == args && ps'.kwargs == kwargs
      && ps'.log == ps.log + Repeat(call, n)
      && ps'.result == (if n == 0 then ps.result else f(call.args, call.kwargs))
      && (autoReturn ==>
            r == if body.ret.ReturnLastCall? && n == 0 then Err(TemplateFailure) else Ok(ps'.result))
      && (!autoReturn ==>
            r == match body.ret
                 case ReturnConst(v) => Ok(v)
                 case ReturnLastCall => if n == 0 then Err(TemplateFailure) else Ok(f(call.args, call.kwargs)))
  {
    CallRepeatedlyEffect(Some(f), ps.(args := args, kwargs := kwargs), body.args, body.kwargs, n);
  }

  /** Under `auto_return`, a body that does not call the proxy answers the
      result stored by an earlier call: the result is never reset. */
  lemma AutoReturnAnswersStaleResult(body: Body, options: Options, func: Option<Target>,
                                     ps: ProxyState, args: seq<Value>, kwargs: Kwargs)
    requires Iterations(body.count, options) == Ok(0)
    requires body.ret.ReturnConst?
    ensures WrapperRun(true, body, options, func, ps, args, kwargs) ==
      (Ok(ps.result), ps.(args := args, kwargs := kwargs))
  {
  }

  /** Before any target is bound, a wrapper whose body calls the proxy
      fails, and nothing is recorded as invoked. */
  lemma UnboundWrapperFails(autoReturn: bool, body: Body, options: Options,
                            ps: ProxyState, args: seq<Value>, kwargs: Kwargs, n: nat)
    requires Iterations(body.count, options) == Ok(n) && n > 0
    requires body.kwargs.Keys !! kwargs.Keys
    ensures WrapperRun(autoReturn, body, options, None, ps, args, kwargs) ==
      (Err(UnboundProxy), ps.(args := args, kwargs := kwargs))
  {
    CallRepeatedlyEffect(None, ps.(args := args, kwargs := kwargs), body.args, body.kwargs, n);
  }

  /** A curried application: the overrides waiting for the target. */
  datatype Curried = Curried(overrides: seq<(string, Value)>)

  /** What calling the decorator returns: a curried callable, or a wrapper. */
  datatype Applied = Partial(curried: Curried) | Bound(wrapper: Wrapper)

  class DecoratorFactory {
    const arguments: DecoratorArguments
    const decorated: DecoratedFunction
    const decorator: TemplateFn
    const autoReturn: bool

    ghost predicate Valid()
    {
      arguments.Valid()
    }

    constructor (arguments: DecoratorArguments, decorated: DecoratedFunction, decorator: TemplateFn, autoReturn: bool)
      requires arguments.Valid()
      ensures this.arguments == arguments && this.decorated == decorated
      ensures this.decorator == decorator && this.autoReturn == autoReturn
      ensures Valid()
    {
      this.arguments := arguments;
      this.decorated := decorated;
      this.decorator := decorator;
      this.autoReturn := autoReturn;
    }

    /** `__call__`. Without a target it returns a curried callable holding
        the overrides and changes nothing. With one it rebinds the shared
        proxy, then writes the overrides into the descriptors and, when
        they are all accepted, returns a wrapper holding the snapshot of
        every option; a failed write leaves the proxy rebound. */
    method Call(func: Option<Target>, overrides: seq<(string, Value)>) returns (r: Result<Applied>)
      requires Valid()
      modifies decorated`func, Objects(arguments.arguments)
      ensures TableIn(arguments.argGetter, old(StoreOf(Objects(arguments.arguments))))
      ensures func.None? ==>
        && r == Ok(Partial(Curried(overrides)))
        && decorated.func == old(decorated.func)
        && StoreOf(Objects(arguments.arguments)) == old(StoreOf(Objects(arguments.arguments)))
      ensures func.Some? ==>
        var (o, st) := ApplyOverrides(arguments.argGetter, old(StoreOf(Objects(arguments.arguments))), overrides);
        && decorated.func == func
        && StoreOf(Objects(arguments.arguments)) == st
        && (o.Fail? ==> r == Err(o.error))
        && (o.Pass? ==>
              && r.Ok? && r.value.Bound? && fresh(r.value.wrapper)
              && r.value.wrapper.owner == this
              && r.value.wrapper.updatedParameters == Snapshot(arguments.arguments, st))
      ensures old(arguments.InSync()) ==> arguments.InSync()
      ensures old(arguments.InSync()) && func.Some? && r.Ok? ==>
        forall i | LastOverride(overrides, i) ::
          && Some(overrides[i].0) in r.value.wrapper.updatedParameters
          && r.value.wrapper.updatedParameters[Some(overrides[i].0)] == overrides[i].1
    {
      if func.None? {
        return Ok(Partial(Curried(overrides)));
      }
      decorated.SetFunc(func);
      var resolved := arguments.GetDecoratedArgs(overrides);
      if resolved.Err? {
        return Err(resolved.error);
      }
      var w := new Wrapper(this, resolved.value);
      return Ok(Bound(w));
    }

    /** Calling the curried callable with a target is the direct call with
        that target and the recorded overrides. */
    method ApplyCurried(c: Curried, f: Target) returns (r: Result<Applied>)
      requires Valid()
      modifies decorated`func, Objects(arguments.arguments)
      ensures TableIn(arguments.argGetter, old(StoreOf(Objects(arguments.arguments))))
      ensures
        var (o, st) := ApplyOverrides(arguments.argGetter, old(StoreOf(Objects(arguments.arguments))), c.overrides);
        && decorated.func == Some(f)
        && StoreOf(Objects(arguments.arguments)) == st
        && (o.Fail? ==> r == Err(o.error))
        && (o.Pass? ==>
              && r.Ok? && r.value.Bound? && fresh(r.value.wrapper)
              && r.value.wrapper.owner == this
              && r.value.wrapper.updatedParameters == Snapshot(arguments.arguments, st))
    {
      r := Call(Some(f), c.overrides);
    }
  }

  /** The function `__call__` returns in its bound phase. It holds the
      options resolved at application time and, through its owner, the
      proxy that every wrapper of the same decorator shares. */
  class Wrapper {
    const owner: DecoratorFactory
    const updatedParameters: Options

    constructor (owner: DecoratorFactory, updatedParameters: Options)
      ensures this.owner == owner && this.updatedParameters == updatedParameters
    {
      this.owner := owner;
      this.updatedParameters := updatedParameters;
    }

    /** The call runs on whatever target the shared proxy holds now, which
        is the one bound most recently by any application. */
    method Call(args: seq<Value>, kwargs: Kwargs) returns (r: Result<Value>)
      modifies owner.decorated`args, owner.decorated`kwargs, owner.decorated`result, owner.decorated`log
      ensures owner.decorated.func == old(owner.decorated.func)
      ensures (r, owner.decorated.State()) ==
        WrapperRun(owner.autoReturn, owner.decorator.body, updatedParameters,
                   owner.decorated.func, old(owner.decorated.State()), args, kwargs)
    {
      var proxy := owner.decorated;
      proxy.args := args;
      proxy.kwargs := kwargs;
      if owner.autoReturn {
        r := Execute(owner.decorator.body, updatedParameters, proxy);
        if r.Ok? {
          r := Ok(proxy.result);
        }
      } else {
        r := Execute(owner.decorator.body, updatedParameters, proxy);
      }
    }
  }

  /** The proxy is shared: after the same decorator is applied to `f` and
      then to `g`, calling the wrapper made for `f` runs `g`. */
  method LastBindingWins(factory: DecoratorFactory, f: Target, g: Target, args: seq<Value>, kwargs: Kwargs)
      returns (r: Result<Value>)
    requires factory.Valid()
    requires factory.decorator.body.count == Times(1)
    requires factory.decorator.body.kwargs.Keys !! kwargs.Keys
    modifies factory.decorated, Objects(factory.arguments.arguments)
    ensures var body := factory.decorator.body;
      && factory.decorated.func == Some(g)
      && factory.decorated.result == g(body.args + args, body.kwargs + kwargs)
      && r.Ok?
  {
    var first := factory.Call(Some(f), []);
    var second := factory.Call(Some(g), []);
    var w := first.value.wrapper;
    ghost var ps := factory.decorated.State();
    r := w.Call(args, kwargs);
    WrapperRunEffect(factory.autoReturn, factory.decorator.body, w.updatedParameters, g, ps, args, kwargs, 1);
  }

  /** Overrides persist in the descriptors: after the decorator is applied
      with overrides, a later bare application resolves to the overridden
      values rather than the defaults. */
  method LaterBareApplicationSeesOverrides(factory: DecoratorFactory, f: Target, g: Target,
                                           overrides: seq<(string, Value)>, i: nat)
      returns (first: Result<Applied>, second: Result<Applied>)
    requires factory.Valid() && factory.arguments.InSync()
    requires LastOverride(overrides, i)
    modifies factory.decorated, Objects(factory.arguments.arguments)
    ensures first.Ok? ==>
      && second.Ok? && second.value.Bound?
      && Some(overrides[i].0) in second.value.wrapper.updatedParameters
      && second.value.wrapper.updatedParameters[Some(overrides[i].0)] == overrides[i].1
  {
    first := factory.Call(Some(f), overrides);
    second := factory.Call(Some(g), []);
  }
}
