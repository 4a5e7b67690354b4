/** The template function: its signature as parameter records, and a
    scripted body that calls the proxy a number of times and returns. */
module Template {
  import opened Values
  import opened Errors
  import opened Argument
  import opened Proxy

  /** What a parameter's default value is. */
  datatype Default =
    | OptionDefault(arg: DecoratorArgument)
    | ProxyDefault(proxy: DecoratedFunction)
    | PlainDefault(v: Value)
    | NoDefault

  /** One parameter of the template's signature; `annotation` is None when
      the parameter has none (`inspect.Signature.empty`). */
  datatype Param = Param(name: string, annotation: Option<TypeTag>, default: Default)

  /** How many times the body calls the proxy: a constant, or `range` of
      the value the template receives for an option. */
  datatype Count = Times(n: nat) | OptionTimes(option: string)

  /** What the body returns: a constant, or the value of its last proxy call. */
  datatype Return = ReturnConst(v: Value) | ReturnLastCall

  /** A scripted template body:
      `for _ in range(count): ret = func(*args, **kwargs)` followed by a return. */
  datatype Body = Body(count: Count, args: seq<Value>, kwargs: Kwargs, ret: Return)

  datatype TemplateFn = TemplateFn(name: string, params: seq<Param>, body: Body)

  /** The option values the template is called with, by option name. */
  type Options = map<Option<string>, Value>

  /** `range(n)` of the count: an int or a bool counts (a negative int as
      zero); a missing option or any other value raises. */
  function Iterations(c: Count, options: Options): (r: Result<nat>)
    ensures c.Times? ==> r == Ok(c.n)
    ensures r.Err? ==> c.OptionTimes? && r.error == TemplateFailure
    ensures c.OptionTimes? && r.Ok? ==>
      Some(c.option) in options && (options[Some(c.option)].Int? || options[Some(c.option)].Bool?)
    ensures c.OptionTimes? && Some(c.option) in options && options[Some(c.option)].Int? ==>
      r == Ok(if options[Some(c.option)].i < 0 then 0 else options[Some(c.option)].i)
    ensures c.OptionTimes? && Some(c.option) in options && options[Some(c.option)].Bool? ==>
      r == Ok(if options[Some(c.option)].b then 1 else 0)
  {
    match c
    case Times(n) => Ok(n)
    case OptionTimes(name) =>
      if Some(name) !in options then Err(TemplateFailure)
      else
        match options[Some(name)]
        case Int(i) => Ok(if i < 0 then 0 else i)
        case Bool(b) => Ok(if b then 1 else 0)
        case _ => Err(TemplateFailure)
  }

  /** `n` copies of `x`. */
  function Repeat<T>(x: T, n: nat): (s: seq<T>)
    ensures |s| == n
    ensures forall i | 0 <= i < n :: s[i] == x
  {
    if n == 0 then [] else [x] + Repeat(x, n - 1)
  }

  /** The body's loop: call the proxy `n` times with the same arguments;
      the first failing call stops it. */
  function CallRepeatedly(func: Option<Target>, ps: ProxyState, args: seq<Value>, kwargs: Kwargs, n: nat): (r: (Outcome, ProxyState))
    ensures r.1.args == ps.args && r.1.kwargs == ps.kwargs
    ensures ps.log <= r.1.log && |r.1.log| <= |ps.log| + n
    decreases n
  {
    if n == 0 then (Pass, ps)
    else
      var (r, next) := Invoke(func, ps, args, kwargs);
      if r.Err? then (Fail(r.error), next)
      else CallRepeatedly(func, next, args, kwargs, n - 1)
  }

  /** Calling the proxy `n` times either invokes the target exactly `n`
      times with the joined arguments, leaving its result as the last
      result, or fails on the first call and changes nothing. */
  lemma {:induction false} CallRepeatedlyEffect(func: Option<Target>, ps: ProxyState, args: seq<Value>, kwargs: Kwargs, n: nat)
    ensures var (o, ps') := CallRepeatedly(func, ps, args, kwargs, n);
      && (o == Pass <==> n == 0 || (func.Some? && kwargs.Keys !! ps.kwargs.Keys))
      && (o.Fail? ==> ps' == ps && o.error == Invoke(func, ps, args, kwargs).0.error)
      && (o == Pass ==>
            && ps'.args == ps.args && ps'.kwargs == ps.kwargs
            && ps'.log == ps.log + Repeat(Invocation(args + ps.args, kwargs + ps.kwargs), n)
            && ps'.result == if n == 0 then ps.result else func.value(args + ps.args, kwargs + ps.kwargs))
    decreases n
  {
    if n > 0 {
      var (r, next) := Invoke(func, ps, args, kwargs);
      if r.Ok? {
        CallRepeatedlyEffect(func, next, args, kwargs, n - 1);
        var call := Invocation(args + ps.args, kwargs + ps.kwargs);
        assert Repeat(call, n) == [call] + Repeat(call, n - 1);
        assert ps.log + Repeat(call, n) == ps.log + [call] + Repeat(call, n - 1);
      }
    }
  }

  /** The template called with `options`: run the loop, then return. A
      body that returns its last call's value after zero calls raises
      (its local is unbound). */
  function Run(body: Body, options: Options, func: Option<Target>, ps: ProxyState): (r: (Result<Value>, ProxyState))
    ensures r.1.args == ps.args && r.1.kwargs == ps.kwargs
    ensures ps.log <= r.1.log
    ensures r.0.Err? ==> r.1 == ps
    ensures r.0.Ok? && body.ret.ReturnLastCall? ==> r.0.value == r.1.result
  {
    match Iterations(body.count, options)
    case Err(e) => (Err(e), ps)
    case Ok(n) =>
      CallRepeatedlyEffect(func, ps, body.args, body.kwargs, n);
      var (o, ps') := CallRepeatedly(func, ps, body.args, body.kwargs, n);
      if o.Fail? then (Err(o.error), ps')
      else
        match body.ret
        case ReturnConst(v) => (Ok(v), ps')
        case ReturnLastCall => if n == 0 then (Err(TemplateFailure), ps') else (Ok(ps'.result), ps')
  }

  /** Executes the scripted body against the proxy it was declared with. */
  method Execute(body: Body, options: Options, proxy: DecoratedFunction) returns (r: Result<Value>)
    modifies proxy`result, proxy`log
    ensures (r, proxy.State()) == Run(body, options, proxy.func, old(proxy.State()))
  {
    var count := Iterations(body.count, options);
    if count.Err? {
      return Err(count.error);
    }
    var n := count.value;
    var i := 0;
    while i < n
      invariant 0 <= i <= n
      invariant CallRepeatedly(proxy.func, proxy.State(), body.args, body.kwargs, n - i) ==
        CallRepeatedly(proxy.func, old(proxy.State()), body.args, body.kwargs, n)
    {
      var c := proxy.Call(body.args, body.kwargs);
      if c.Err? {
        return Err(c.error);
      }
      i := i + 1;
    }
    match body.ret
    case ReturnConst(v) =>
      r := Ok(v);
    case ReturnLastCall =>
      if n == 0 {
        r := Err(TemplateFailure);
      } else {
        r := Ok(proxy.result);
      }
  }
}
