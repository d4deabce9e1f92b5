/** Failure values raised by the domain mapper, and the wrappers that carry them. */
module Errors {

  datatype Option<+T> = None | Some(value: T)

  /** Why a `MappingError` was raised; one variant per kind of failure. */
  datatype Reason =
    | EmptyList                            // a list attribute with no element to infer a type from
    | HeterogeneousList                    // a list element that is not an instance of the first element's type
    | UnknownType(typeName: string)        // neither a primitive name nor a registered class name
    | MultipleInheritance(bases: seq<string>)
    | FlaskSchemaNotFound(name: string)
    | MarshmallowSchemaNotFound(name: string)

  /** Everything an operation of the mapper can raise. */
  datatype Error =
    | MappingError(reason: Reason)
    | KeyError(key: string)                // a plain dictionary lookup of an unregistered parent
    | HttpAbort(code: int, messages: seq<string>)

  datatype Result<+T> = Ok(value: T) | Err(error: Error)

  /** The outcome of an operation that returns nothing when it succeeds. */
  datatype Outcome = Pass | Fail(error: Error)
}
