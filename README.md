# decorator_factory in Dafny

This project models `decorator_factory`, a small Python library that turns a
*template* function into a reusable, configurable decorator. The template
declares three kinds of parameters. An *option* has a `DecoratorArgument` as
its default. A *proxy slot* has a `DecoratedFunction` as its default, and it
stands for the function being decorated. All other parameters are ignored.
`decorator_factory(auto_return)` returns `inner`, which scans the template
and returns the `__call__` of a `DecoratorFactory`. That call is used bare
(`@deco`, the target given directly), directly with overrides
(`deco(f, nb=3)`), or curried (`@deco(nb=3)`: no target yet, so it returns a
callable that holds the overrides until the target arrives).

The model follows the library's own objects and their mutable state:

- `Argument` models the option descriptor, `DecoratorArgument`.
  - `arg_name` and `type` are set-once fields, both handled by one rule, `SetOnce`.
  - The value setter stores the value first and type-checks it afterwards.
  - The type check is the exact-class-or-`Any` rule, and falsy values skip it.
  - The class `DecoratorArgument` mutates its fields. Each method is proved
    against a pure function on the descriptor's observable state, `Desc`.
- `ArgumentSet` models the option set, `DecoratorArguments`.
  - The name table is built once.
  - The override loop writes values into the descriptors and stops at an
    unknown name or a rejected value.
  - The snapshot maps each name to its current value.
  - The state of several descriptors is a map from descriptor object to
    `Desc`. This keeps aliasing faithful: one descriptor can be the default
    of several parameters.
- `Proxy` models the function proxy, `DecoratedFunction`.
  - It holds the target, the pending `args`/`kwargs`, and the last `result`.
  - Its call appends the stored arguments to the caller's and records the
    result.
  - A ghost `log` records every invocation of the target, so the model can
    state how often the target ran and with which arguments.
- `Template` holds the template's signature as parameter records, and one
  scripted body in the style of the library's `repeat` example: call the
  proxy a constant number of times, or as many times as an option says, then
  return a constant or the last call's value.
- `Decorator` models `DecoratorFactory.__call__`.
  - The curried phase returns a `Curried` value that holds the overrides.
  - The bound phase rebinds the shared proxy, resolves the options once, and
    returns a `Wrapper`.
  - A wrapper call overwrites the proxy's pending arguments and runs the
    template. It answers either the template's value or, under
    `auto_return`, the proxy's `result`.
- `Factory` models `decorator_factory` / `inner`.
  - It scans the parameters in order and names and types each option
    through the set-once setters.
  - It keeps the last proxy slot.
  - It raises when an option has no type, or when the template has no proxy slot.
- `Values` and `Errors` hold Python values and their classes and
  truthiness, and the raised exceptions as values.

Python exceptions are modelled as `Err`/`Fail` values. A raise inside a loop
stops the loop, and every write made before it stays in place.

## Model

| member | source | states |
|---|---|---|
| Values.TypeOf | decorator_factory/models.py:80 | the runtime class of a value is never the wildcard `Any` |
| Values.Truthy | decorator_factory/models.py:79 | the falsy values are exactly None, False, 0, the empty string, and the objects whose `__bool__`/`__len__` says so (such as `0.0` or `[]`); every other value is truthy |
| Argument.SetOnceAllIsFirstTruthy | decorator_factory/models.py:51-63 | after any series of writes, a set-once field holds the first truthy value among its initial value and the writes; while none is truthy, the last write sticks |
| Argument.SetOnceSticks | decorator_factory/models.py:51-63 | once a set-once field is truthy, no later write changes it |
| Argument.WithName | decorator_factory/models.py:51-54 | the `arg_name` setter leaves a truthy name alone and otherwise stores the written name; no other field changes |
| Argument.WithType | decorator_factory/models.py:60-63 | the `type` setter leaves a declared type alone and otherwise stores the written type; no other field changes |
| Argument.IsSameType | decorator_factory/models.py:74-76 | `Any` on either side matches everything; otherwise two classes match only when equal |
| Argument.Validate | decorator_factory/models.py:74-82 | the check fails iff `validate_type` is set, the value is truthy, a type is declared, the runtime class differs from it, and neither is `Any`; the TypeError names the runtime class, the declared type and the `arg_name` |
| Argument.WriteValue | decorator_factory/models.py:69-72 | the written value is stored even when rejected; no other field changes; a falsy value is never rejected; the write passes iff validation is off, no type is declared, the value is falsy, or the classes match up to `Any` |
| Argument.DecoratorArgument.constructor | decorator_factory/models.py:27-43 | the default is stored as the value with no check; the name starts as None; the type is the declared one |
| Argument.DecoratorArgument.SetArgName | decorator_factory/models.py:51-54 | the name changes only while it is None or empty; nothing else changes |
| Argument.DecoratorArgument.SetType | decorator_factory/models.py:60-63 | the type changes only while it is None; nothing else changes |
| Argument.DecoratorArgument.SetValue | decorator_factory/models.py:69-72 | stores the value, then returns the type check of the new state |
| Argument.DecoratorArgument.TypeValidator | decorator_factory/models.py:78-82 | returns the type check of the current state and changes nothing |
| ArgumentSet.Table | decorator_factory/models.py:91-92 | every table entry is one of the set's descriptors, stored under that descriptor's own name |
| ArgumentSet.TableKeys | decorator_factory/models.py:91-92 | a name is a key of the table iff some descriptor carries it |
| ArgumentSet.TableLastWins | decorator_factory/models.py:91-92 | when names repeat, the later descriptor in the list owns the name |
| ArgumentSet.Snapshot | decorator_factory/models.py:94-95 | every entry of the snapshot is the value of some descriptor that carries that entry's name |
| ArgumentSet.SnapshotAgreesWithTable | decorator_factory/models.py:94-95 | the snapshot has the table's names, and under each name the value of the descriptor the table holds |
| ArgumentSet.TableDependsOnNames | decorator_factory/models.py:89-92 | the table depends on the names only, so the table built once stays right while values change |
| ArgumentSet.ApplyOverrides | decorator_factory/models.py:97-99 | override writes keep the same descriptors and change nothing but values |
| ArgumentSet.ApplyOverridesPassIff | decorator_factory/models.py:97-99 | resolution succeeds iff every override names a known option and passes that option's type check |
| ArgumentSet.ApplyOverridesAppend | decorator_factory/models.py:97-99 | two override lists run one after the other behave as their concatenation; a failure in the first stops before the second |
| ArgumentSet.UnknownOverrideStops | decorator_factory/models.py:97-99 | an unknown name fails with UnknownOption, and every earlier write persists |
| ArgumentSet.RejectedOverrideStays | decorator_factory/models.py:97-99 | a rejected override fails with TypeMismatch, and its value stays in the descriptor |
| ArgumentSet.ApplyOverridesFinalValues | decorator_factory/models.py:97-99 | after success, each descriptor holds the last value written to it, or its old value when nothing was written |
| ArgumentSet.OverridesVisibleInSnapshot | decorator_factory/models.py:101-103 | after resolution, the snapshot holds under an overridden name the last value given for it |
| ArgumentSet.SnapshotKeepsOtherNames | decorator_factory/models.py:101-103 | resolution keeps the snapshot's names, and a name no override mentions keeps its value |
| ArgumentSet.DecoratorArguments.constructor | decorator_factory/models.py:87-89 | the table is built once, from the names the descriptors carry at construction |
| ArgumentSet.DecoratorArguments.SetArgs | decorator_factory/models.py:97-99 | the loop writes the overrides through the value setter, in order, and its outcome and final state are those of `ApplyOverrides` |
| ArgumentSet.DecoratorArguments.GetDecoratedArgs | decorator_factory/models.py:101-103 | writes the overrides, then returns the snapshot, or the error that stopped the writes; the name table keeps matching the descriptors' names, and the snapshot holds under each overridden name the last value given for it |
| Proxy.Invoke | decorator_factory/models.py:21-23 | the call succeeds iff a target is bound and no keyword collides. The target gets the caller's positional arguments followed by the stored ones, and the union of both keyword maps. Its value becomes `result` and is returned. On failure nothing changes: colliding keywords give DuplicateKeyword, and an unbound target gives UnboundProxy |
| Proxy.DecoratedFunction.constructor | decorator_factory/models.py:7-11 | stores the fixed arguments; there is no target and `result` is None |
| Proxy.DecoratedFunction.SetFunc | decorator_factory/models.py:17-19 | the target is overwritten unconditionally |
| Proxy.DecoratedFunction.Call | decorator_factory/models.py:21-23 | result and new state are those of `Invoke` |
| Template.Iterations | main.py:23 | a constant count is taken as is; an int option gives its value, or zero when negative; a bool option gives one for True and zero for False; a missing option or one of any other class makes the template raise |
| Template.CallRepeatedly | main.py:23-24 | the loop never changes the proxy's pending arguments, and adds at most `n` invocations to the end of the log |
| Template.Run | main.py:23-26 | a template run keeps the pending arguments and only appends to the log; a failing run changes nothing; a body returning its last call answers the proxy's `result` |
| Template.CallRepeatedlyEffect | main.py:23-24 | calling the proxy `n` times either invokes the target exactly `n` times with the joined arguments, leaving the last value as `result`, or fails on the first call and changes nothing |
| Template.Execute | main.py:23-26 | running the scripted body on the proxy gives the result and state of `Run` |
| Decorator.WrapperRun | decorator_factory/models.py:132-140 | a wrapper call leaves the caller's arguments pending on the proxy and only appends to the log; a failing call changes nothing else; under `auto_return` a successful call answers the proxy's `result` |
| Decorator.WrapperRunEffect | decorator_factory/models.py:132-140 | a wrapper call replaces the pending arguments and invokes the target exactly `n` times; it answers the template's return value without `auto_return`, and the proxy's `result` with it |
| Decorator.AutoReturnAnswersStaleResult | decorator_factory/models.py:136-138 | under `auto_return`, a body that does not call the proxy answers the result an earlier call left behind |
| Decorator.UnboundWrapperFails | decorator_factory/models.py:21-23 | a template run on a proxy with no target fails with UnboundProxy and records no invocation |
| Decorator.LaterBareApplicationSeesOverrides | decorator_factory/models.py:129 | after the decorator is applied with overrides, a later application without overrides returns a wrapper holding the overridden values |
| Decorator.DecoratorFactory.constructor | decorator_factory/models.py:107-118 | holds the option set, the proxy, the template and the flag |
| Decorator.DecoratorFactory.Call | decorator_factory/models.py:120-142 | Without a target, returns the curried overrides and changes nothing. With one, rebinds the proxy first, then resolves the overrides. A failure is returned with earlier writes kept. Success returns a fresh wrapper that holds the snapshot, in which each overridden name holds the last value given for it; the name table keeps matching the descriptors' names |
| Decorator.DecoratorFactory.ApplyCurried | decorator_factory/models.py:124-125 | applying the curried callable to `f` is the direct call with `f` and the recorded overrides |
| Decorator.Wrapper.constructor | decorator_factory/models.py:131-142 | the wrapper captures its decorator and the options resolved at application time |
| Decorator.Wrapper.Call | decorator_factory/models.py:132-140 | the call does not touch the target; result and proxy state are those of `WrapperRun` on the proxy's current target |
| Decorator.LastBindingWins | decorator_factory/models.py:124-127 | after the decorator is applied to `f` and then `g`, the wrapper made for `f` runs `g` |
| Factory.ScanParam | decorator_factory/factory.py:13-24 | one iteration of the scan keeps the same descriptors |
| Factory.ScanParams | decorator_factory/factory.py:12-24 | the scanning loop keeps the same descriptors |
| Factory.LastProxy | decorator_factory/factory.py:23-24 | there is a proxy iff some parameter's default is a proxy, and it is the default of the last such parameter |
| Factory.ScanOptionsInOrder | decorator_factory/factory.py:12-21 | a successful scan appends the option descriptors in parameter order and ignores every other parameter |
| Factory.ScanKeepsLastProxy | decorator_factory/factory.py:23-24 | a successful scan keeps the last proxy slot it meets |
| Factory.ScanFailsIff | decorator_factory/factory.py:16-17 | the scan raises iff some option parameter has no annotation and its descriptor had no type when first met; the error is MissingType |
| Factory.ScanParamsAppend | decorator_factory/factory.py:12-24 | scanning two parameter lists in a row is scanning them one after the other, and a raise in the first stops before the second |
| Factory.ScanStopsAt | decorator_factory/factory.py:16-17 | when the scan raises at parameter `i`, the state is exactly what the parameters before `i` left (earlier options named and typed, nothing later touched), and the error carries the descriptor's `arg_name` at that moment |
| Factory.Scan | decorator_factory/factory.py:26-27 | after the loop the scan succeeds iff the loop did and some parameter is a proxy slot; it then keeps the last proxy, and a loop that passed without a proxy raises NoFunctionError with the template's name |
| Factory.ScanKeepsSetFields | decorator_factory/factory.py:19-20 | a successful scan never replaces a name or a type that is already set, never changes a value, and leaves every unused descriptor untouched |
| Factory.ScanNamesAndTypes | decorator_factory/factory.py:19-20 | after a successful scan, an unnamed descriptor carries the name of the first parameter it is the default of, and an untyped one that parameter's annotation |
| Factory.ScanOptionsReady | decorator_factory/factory.py:16-21 | after a successful scan every collected option has a name and a type |
| Factory.ScanOne | decorator_factory/factory.py:13-24 | one iteration through the descriptor's setters has the outcome and state of `ScanParam` |
| Factory.Build | decorator_factory/factory.py:6-34 | The scan mutates the descriptors as `Scan` says. A missing type or a missing proxy slot returns its error. Success returns a fresh decorator holding, in parameter order, the collected options with their name table, the last proxy, the template and the flag, with the name table matching the descriptors' names |

## Left out

- main.py's driver and its `DecoratorFolder` registry. The registry is not part of this model; main.py serves only as the shape of the scripted template.
- errors.py is modelled as constructors of `Errors.Error` only. `ArgumentValidationError` and `ValidationError` are never raised, so they are absent.
- models.py imports `ConflictNameError`, which errors.py does not define. The import is not modelled.
- The descriptor's `validator` field is stored but never invoked, so it is not modelled.
- `inspect.signature` is replaced by an explicit sequence of parameter records. Annotations given as strings and an annotation of literal `None` are not modelled.
- Metadata copied by `functools.wraps` is not modelled.
- Extra positional arguments to `__call__` and `functools.partial` are not modelled. Extra keyword arguments given to the curried callable when it is applied are not modelled either.
- A falsy `func` other than None is not modelled: the curried phase is taken exactly when no target is given.
- User template bodies are arbitrary code. The model has one scripted body that always calls the decorator's own proxy, so a template that calls a different proxy slot is not modelled.
- Calling the template with an option name that is not one of its parameters is not modelled.
- Target functions are pure functions of their arguments. Their own exceptions and side effects are not modelled.
- The keyword arguments passed to the proxy and to the target are maps, so their order is not modelled. The overrides passed to the decorator are kept as an ordered list.
- The proxy's `log` is instrumentation added so that the number of calls can be stated; the library has no such field.
- Concurrent or reentrant use of the shared descriptors and proxy is not modelled.
- Decorator.UnboundWrapperFails: a wrapper exists only after a binding, so this lemma describes a template run on an unbound proxy rather than a reachable wrapper call.
