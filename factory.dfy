/** The template scanner (`decorator_factory` and its `inner`): walk the
    template's parameters in order, name and type each option, find the
    proxy, and assemble the decorator. */
module Factory {
  import opened Values
  import opened Errors
  import opened Argument
  import opened ArgumentSet
  import opened Proxy
  import opened Template
  import opened Decorator

  /** The scan's progress: the options collected so far, the proxy found
      last, and the state of every option descriptor. */
  datatype ScanState = ScanState(options: seq<DecoratorArgument>, decorated: Option<DecoratedFunction>, store: Store)

  /** The descriptors that are defaults of parameters. */
  function OptionArgs(params: seq<Param>): set<DecoratorArgument>
  {
    set p | p in params && p.default.OptionDefault? :: p.default.arg
  }

  /** Every option descriptor of `params` has a state in `st`. */
  ghost predicate Describes(params: seq<Param>, st: Store)
  {
    forall p | p in params && p.default.OptionDefault? :: p.default.arg in st
  }

  /** One iteration of the scan. An option parameter with no annotation
      whose descriptor has no type raises before anything is written; any
      other option gets the parameter's name and annotation through the
      set-once setters and is appended. A proxy default replaces the one
      found before; every other parameter is ignored. */
  function ScanParam(p: Param, s: ScanState): (r: (Outcome, ScanState))
    requires p.default.OptionDefault? ==> p.default.arg in s.store
    ensures r.1.store.Keys == s.store.Keys
  {
    match p.default
    case OptionDefault(a) =>
      var d := s.store[a];
      if p.annotation.None? && !TypeTruthy(d.typ) then (Fail(MissingType(d.name)), s)
      else
        var named := WithName(d, Some(p.name));
        // With no annotation the type is already truthy, so writing
        // `inspect.Signature.empty` through the setter changes nothing.
        var typed := if p.annotation.Some? then WithType(named, p.annotation) else named;
        (Pass, s.(options := s.options + [a], store := s.store[a := typed]))
    case ProxyDefault(x) => (Pass, s.(decorated := Some(x)))
    case PlainDefault(_) => (Pass, s)
    case NoDefault => (Pass, s)
  }

  /** The scanning loop; the first failure stops it. */
  function ScanParams(params: seq<Param>, s: ScanState): (r: (Outcome, ScanState))
    requires Describes(params, s.store)
    ensures r.1.store.Keys == s.store.Keys
  {
    if params == [] then (Pass, s)
    else
      var (o, next) := ScanParam(params[0], s);
      if o.Fail? then (o, next)
      else ScanParams(params[1..], next)
  }

  /** `inner`: the loop, then the demand for a proxy. */
  function Scan(t: TemplateFn, st: Store): (r: (Outcome, ScanState))
    requires Describes(t.params, st)
    ensures r.0.Pass? <==> ScanParams(t.params, ScanState([], None, st)).0 == Pass && LastProxy(t.params).Some?
    ensures r.0.Pass? ==> r.1.decorated == LastProxy(t.params)
    ensures r.0.Fail? && ScanParams(t.params, ScanState([], None, st)).0 == Pass ==> r.0.error == NoFunction(t.name)
  {
    var (o, s) := ScanParams(t.params, ScanState([], None, st));
    if o.Fail? then (o, s)
    else
      ScanKeepsLastProxy(t.params, ScanState([], None, st));
      if s.decorated.None? then (Fail(NoFunction(t.name)), s)
      else (Pass, s)
  }

  /** The option descriptors of `params`, in parameter order. */
  function OptionsOf(params: seq<Param>): seq<DecoratorArgument>
  {
    if params == [] then []
    else (if params[0].default.OptionDefault? then [params[0].default.arg] else []) + OptionsOf(params[1..])
  }

  /** The proxy of the last proxy parameter, if any. */
  function LastProxy(params: seq<Param>): (r: Option<DecoratedFunction>)
    ensures r.Some? <==> exists i :: 0 <= i < |params| && params[i].default.ProxyDefault?
    ensures r.Some? ==> exists i :: 0 <= i < |params| && params[i].default == ProxyDefault(r.value) &&
                                    (forall j | i < j < |params| :: !params[j].default.ProxyDefault?)
  {
    if params == [] then None
    else
      var later := LastProxy(params[1..]);
      if later.Some? then
        assert exists i :: 0 <= i < |params| && params[i].default == ProxyDefault(later.value) &&
                           (forall j | i < j < |params| :: !params[j].default.ProxyDefault?) by {
          var i :| 0 <= i < |params[1..]| && params[1..][i].default == ProxyDefault(later.value) &&
            forall j | i < j < |params[1..]| :: !params[1..][j].default.ProxyDefault?;
          assert params[i + 1] == params[1..][i];
          forall j | i + 1 < j < |params| ensures !params[j].default.ProxyDefault? {
            assert params[j] == params[1..][j - 1];
          }
        }
        later
      else if params[0].default.ProxyDefault? then Some(params[0].default.proxy)
      else
        assert forall i | 1 <= i < |params| :: params[i] == params[1..][i - 1];
        None
  }

  /** A successful scan appends the option descriptors in parameter order. */
  lemma {:induction false} ScanOptionsInOrder(params: seq<Param>, s: ScanState)
    requires Describes(params, s.store)
    requires ScanParams(params, s).0 == Pass
    ensures ScanParams(params, s).1.options == s.options + OptionsOf(params)
  {
    if params != [] {
      var next := ScanParam(params[0], s).1;
      assert ScanParams(params, s) == ScanParams(params[1..], next);
      ScanOptionsInOrder(params[1..], next);
      var head := if params[0].default.OptionDefault? then [params[0].default.arg] else [];
      assert OptionsOf(params) == head + OptionsOf(params[1..]);
      assert next.options == s.options + head;
      assert s.options + OptionsOf(params) == (s.options + head) + OptionsOf(params[1..]);
    }
  }

  /** A successful scan keeps the last proxy it meets. */
  lemma {:induction false} ScanKeepsLastProxy(params: seq<Param>, s: ScanState)
    requires Describes(params, s.store)
    requires ScanParams(params, s).0 == Pass
    ensures ScanParams(params, s).1.decorated == if LastProxy(params).Some? then LastProxy(params) else s.decorated
  {
    if params != [] {
      var next := ScanParam(params[0], s).1;
      ScanKeepsLastProxy(params[1..], next);
      if params[0].default.ProxyDefault? {
        assert next.decorated == Some(params[0].default.proxy);
      } else {
        assert next.decorated == s.decorated;
      }
    }
  }

  /** Parameter `i` is the first one whose default is `a`. */
  ghost predicate FirstUse(params: seq<Param>, i: int, a: DecoratorArgument)
  {
    0 <= i < |params| && params[i].default == OptionDefault(a) &&
    forall j | 0 <= j < i :: params[j].default != OptionDefault(a)
  }

  /** Parameter `i` makes the scan raise: an option with no annotation
      whose descriptor had no type and was not met earlier. */
  ghost predicate Untyped(params: seq<Param>, i: int, st: Store)
    requires Describes(params, st)
  {
    0 <= i < |params| && params[i].default.OptionDefault? && params[i].annotation.None? &&
    FirstUse(params, i, params[i].default.arg) && st[params[i].default.arg].typ.None?
  }

  lemma FirstUseShift(params: seq<Param>, i: int, a: DecoratorArgument)
    requires params != [] && params[0].default != OptionDefault(a)
    ensures FirstUse(params, i + 1, a) <==> FirstUse(params[1..], i, a)
  {
    if FirstUse(params[1..], i, a) {
      forall j | 0 <= j < i + 1 ensures params[j].default != OptionDefault(a) {
        if j > 0 { assert params[j] == params[1..][j - 1]; }
      }
    }
  }

  /** The loop raises MissingType exactly when some option parameter has
      no annotation and its descriptor had no declared type when first met. */
  lemma {:induction false} ScanFailsIff(params: seq<Param>, s: ScanState)
    requires Describes(params, s.store)
    ensures ScanParams(params, s).0.Fail? <==> exists i :: Untyped(params, i, s.store)
    ensures ScanParams(params, s).0.Fail? ==> ScanParams(params, s).0.error.MissingType?
  {
    if params != [] {
      var (o, next) := ScanParam(params[0], s);
      if o.Fail? {
        assert Untyped(params, 0, s.store);
      } else {
        var rest := params[1..];
        ScanFailsIff(rest, next);
        assert !Untyped(params, 0, s.store);
        forall i ensures Untyped(params, i + 1, s.store) <==> Untyped(rest, i, next.store) {
          if 0 <= i < |rest| {
            assert params[i + 1] == rest[i];
            if rest[i].default.OptionDefault? {
              var b := rest[i].default.arg;
              if params[0].default == OptionDefault(b) {
                assert !FirstUse(params, i + 1, b);
                assert next.store[b].typ.Some?;
              } else {
                FirstUseShift(params, i, b);
                assert next.store[b] == s.store[b];
              }
            }
          }
        }
        if exists i :: Untyped(params, i, s.store) {
          var i :| Untyped(params, i, s.store);
          assert Untyped(rest, i - 1, next.store);
        }
        if exists i :: Untyped(rest, i, next.store) {
          var i :| Untyped(rest, i, next.store);
          assert Untyped(params, i + 1, s.store);
        }
      }
    }
  }

  /** Scanning `p + q` is scanning `p` and then, unless that raised, `q`. */
  lemma {:induction false} ScanParamsAppend(p: seq<Param>, q: seq<Param>, s: ScanState)
    requires Describes(p + q, s.store)
    ensures Describes(p, s.store)
    ensures var (o, s1) := ScanParams(p, s);
      && Describes(q, s1.store)
      && ScanParams(p + q, s) == if o.Fail? then (o, s1) else ScanParams(q, s1)
  {
    if p == [] {
      assert p + q == q;
    } else {
      assert (p + q)[0] == p[0] && (p + q)[1..] == p[1..] + q;
      var (o0, next) := ScanParam(p[0], s);
      if o0.Pass? {
        ScanParamsAppend(p[1..], q, next);
      }
    }
  }

  /** The raise stops the scan where it happens: the options before
      parameter `i` keep the names and types the scan gave them, nothing
      after it is touched, and the error carries the descriptor's name at
      that moment. */
  lemma ScanStopsAt(params: seq<Param>, s: ScanState, i: nat)
    requires Describes(params, s.store)
    requires i < |params| && params[i].default.OptionDefault? && params[i].annotation.None?
    requires ScanParams(params[..i], s).0 == Pass
    requires !TypeTruthy(ScanParams(params[..i], s).1.store[params[i].default.arg].typ)
    ensures var s0 := ScanParams(params[..i], s).1;
      ScanParams(params, s) == (Fail(MissingType(s0.store[params[i].default.arg].name)), s0)
  {
    assert params == params[..i] + params[i..];
    ScanParamsAppend(params[..i], params[i..], s);
    assert params[i..][0] == params[i];
  }

  /** Parameter names are Python identifiers, never empty. */
  ghost predicate NamedParams(params: seq<Param>)
  {
    forall p | p in params :: p.name != ""
  }

  /** A successful scan never replaces a name or a type that is already
      set, never changes a value, and leaves alone every descriptor no
      parameter uses. */
  lemma {:induction false} ScanKeepsSetFields(params: seq<Param>, s: ScanState)
    requires Describes(params, s.store)
    requires NamedParams(params)
    requires ScanParams(params, s).0 == Pass
    ensures var st' := ScanParams(params, s).1.store;
      && (forall a | a in s.store && NameTruthy(s.store[a].name) :: st'[a].name == s.store[a].name)
      && (forall a | a in s.store && TypeTruthy(s.store[a].typ) :: st'[a].typ == s.store[a].typ)
      && (forall a | a in s.store ::
            st'[a].value == s.store[a].value && st'[a].validateType == s.store[a].validateType)
      && (forall a | a in s.store && (forall j | 0 <= j < |params| :: params[j].default != OptionDefault(a)) ::
            st'[a] == s.store[a])
  {
    if params != [] {
      var p := params[0];
      var next := ScanParam(p, s).1;
      var rest := params[1..];
      assert ScanParams(params, s) == ScanParams(rest, next);
      ScanKeepsSetFields(rest, next);
      var st' := ScanParams(rest, next).1.store;
      forall a | a in s.store && (forall j | 0 <= j < |params| :: params[j].default != OptionDefault(a))
        ensures st'[a] == s.store[a]
      {
        assert p.default != OptionDefault(a);
        assert next.store[a] == s.store[a];
        forall j | 0 <= j < |rest| ensures rest[j].default != OptionDefault(a) {
          assert rest[j] == params[j + 1];
        }
      }
    }
  }

  /** A successful scan gives a descriptor without a name the name of the
      first parameter it is the default of, and a descriptor without a type
      that parameter's annotation. */
  lemma {:induction false} ScanNamesAndTypes(params: seq<Param>, s: ScanState)
    requires Describes(params, s.store)
    requires NamedParams(params)
    requires ScanParams(params, s).0 == Pass
    ensures var st' := ScanParams(params, s).1.store;
      && (forall i, a | FirstUse(params, i, a) && !NameTruthy(s.store[a].name) ::
            st'[a].name == Some(params[i].name))
      && (forall i, a | FirstUse(params, i, a) && !TypeTruthy(s.store[a].typ) ::
            st'[a].typ == params[i].annotation)
  {
    if params != [] {
      var p := params[0];
      var next := ScanParam(p, s).1;
      var rest := params[1..];
      assert ScanParams(params, s) == ScanParams(rest, next);
      ScanNamesAndTypes(rest, next);
      ScanKeepsSetFields(rest, next);
      var st' := ScanParams(rest, next).1.store;
      forall i, a | FirstUse(params, i, a) && !NameTruthy(s.store[a].name)
        ensures st'[a].name == Some(params[i].name)
      {
        if i == 0 {
          assert NameTruthy(next.store[a].name);
        } else {
          FirstUseShift(params, i - 1, a);
          assert rest[i - 1] == params[i];
          assert next.store[a] == s.store[a];
        }
      }
      forall i, a | FirstUse(params, i, a) && !TypeTruthy(s.store[a].typ)
        ensures st'[a].typ == params[i].annotation
      {
        if i == 0 {
          assert TypeTruthy(next.store[a].typ);
        } else {
          FirstUseShift(params, i - 1, a);
          assert rest[i - 1] == params[i];
          assert next.store[a] == s.store[a];
        }
      }
    }
  }

  /** After a successful scan every collected option has a name and a type,
      so every key of the option snapshot is a string and every option is
      type-checked. */
  lemma {:induction false} ScanOptionsReady(params: seq<Param>, s: ScanState)
    requires Describes(params, s.store)
    requires NamedParams(params)
    requires forall a | a in s.options :: a in s.store && NameTruthy(s.store[a].name) && TypeTruthy(s.store[a].typ)
    requires ScanParams(params, s).0 == Pass
    ensures var r := ScanParams(params, s).1;
      forall a | a in r.options :: a in r.store && NameTruthy(r.store[a].name) && TypeTruthy(r.store[a].typ)
  {
    if params != [] {
      var next := ScanParam(params[0], s).1;
      assert ScanParams(params, s) == ScanParams(params[1..], next);
      ScanOptionsReady(params[1..], next);
    }
  }

  /** One iteration of `inner`'s loop, writing through the descriptor's
      setters. */
  method ScanOne(p: Param, ghost objs: set<DecoratorArgument>, options: seq<DecoratorArgument>,
                 decorated: Option<DecoratedFunction>)
    returns (o: Outcome, options': seq<DecoratorArgument>, decorated': Option<DecoratedFunction>)
    requires p.default.OptionDefault? ==> p.default.arg in objs
    modifies objs
    ensures (o, ScanState(options', decorated', StoreOf(objs))) ==
      ScanParam(p, ScanState(options, decorated, old(StoreOf(objs))))
  {
    o, options', decorated' := Pass, options, decorated;
    match p.default {
      case OptionDefault(a) =>
        if p.annotation.None? && !TypeTruthy(a.typ) {
          o := Fail(MissingType(a.argName));
          return;
        }
        a.SetArgName(Some(p.name));
        // With no annotation the setter would be handed a falsy type and
        // keep the current one, so the call is skipped.
        if p.annotation.Some? {
          a.SetType(p.annotation);
        }
        assert StoreOf(objs) == old(StoreOf(objs))[a := a.View()];
        options' := options + [a];
      case ProxyDefault(x) =>
        decorated' := Some(x);
      case PlainDefault(_) =>
      case NoDefault =>
    }
  }

  lemma ScanParamsStep(params: seq<Param>, i: int, s: ScanState)
    requires 0 <= i < |params| && Describes(params[i..], s.store)
    ensures Describes(params[i + 1..], ScanParam(params[i], s).1.store)
    ensures ScanParams(params[i..], s) ==
      var (o, next) := ScanParam(params[i], s);
      if o.Fail? then (o, next) else ScanParams(params[i + 1..], next)
  {
    assert params[i..][0] == params[i] && params[i..][1..] == params[i + 1..];
  }

  /** `decorator_factory(auto_return)` applied to a template: scan the
      parameters in order, mutating each option descriptor in place, then
      build the decorator from the collected options, the last proxy, the
      template and the flag. */
  method Build(autoReturn: bool, t: TemplateFn) returns (r: Result<DecoratorFactory>)
    modifies OptionArgs(t.params)
    ensures Describes(t.params, old(StoreOf(OptionArgs(t.params))))
    ensures var (o, s) := Scan(t, old(StoreOf(OptionArgs(t.params))));
      && StoreOf(OptionArgs(t.params)) == s.store
      && (o.Fail? ==> r == Err(o.error))
      && (o.Pass? ==>
            && r.Ok? && fresh(r.value) && fresh(r.value.arguments)
            && r.value.Valid()
            && r.value.arguments.arguments == s.options
            && Covers(s.options, s.store)
            && r.value.arguments.argGetter == Table(s.options, s.store)
            && r.value.arguments.InSync()
            && Some(r.value.decorated) == s.decorated
            && r.value.decorator == t
            && r.value.autoReturn == autoReturn)
  {
    ghost var objs := OptionArgs(t.params);
    var arguments: seq<DecoratorArgument> := [];
    var decorated: Option<DecoratedFunction> := None;
    var i := 0;
    while i < |t.params|
      invariant 0 <= i <= |t.params|
      invariant forall a | a in arguments :: a in objs
      invariant ScanParams(t.params[i..], ScanState(arguments, decorated, StoreOf(objs))) ==
        ScanParams(t.params, ScanState([], None, old(StoreOf(objs))))
    {
      ghost var s := ScanState(arguments, decorated, StoreOf(objs));
      ScanParamsStep(t.params, i, s);
      var o;
      o, arguments, decorated := ScanOne(t.params[i], objs, arguments, decorated);
      if o.Fail? {
        return Err(o.error);
      }
      i := i + 1;
    }
    if decorated.None? {
      return Err(NoFunction(t.name));
    }
    var options := new DecoratorArguments(arguments);
    TableDependsOnNames(arguments, StoreOf(Objects(arguments)), StoreOf(objs));
    var factory := new DecoratorFactory(options, decorated.value, t, autoReturn);
    return Ok(factory);
  }
}
