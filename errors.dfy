/** The exceptions the engine raises, as values, and the result types that
    carry them. */
module Errors {
  import opened Values

  datatype Error =
      /** NoFunctionError: the template has no proxy parameter. */
    | NoFunction(template: string)
      /** ValueError: an option parameter has neither an annotation nor a
          declared type; it names the descriptor's arg_name at that moment. */
    | MissingType(argName: Option<string>)
      /** TypeError from the descriptor's type check. */
    | TypeMismatch(actual: TypeTag, declared: TypeTag, argName: Option<string>)
      /** An override names no option: `arg_getter.get(key)` is None, and
          writing `.value` on it raises AttributeError. */
    | UnknownOption(name: string)
      /** TypeError: the proxy is called while its `func` is still None. */
    | UnboundProxy
      /** TypeError: the call's keywords and the proxy's stored keywords share
          these names ("got multiple values for keyword argument"). */
    | DuplicateKeyword(names: set<string>)
      /** An exception raised inside the scripted template body itself. */
    | TemplateFailure

  datatype Result<+T> = Ok(value: T) | Err(error: Error)

  datatype Outcome = Pass | Fail(error: Error)
}
