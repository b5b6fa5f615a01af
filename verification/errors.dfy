/** Failure values shared by the whole model store.

    Almost every failure the store, the registry and the model variants
    report is a Python `ValueError` carrying a fixed message; the request
    handlers turn a
    `ValueError` into a client error and anything else into status 500, so the
    class of the exception is kept apart from its message. */
module Errors {

  datatype Option<+T> = None | Some(value: T)

  datatype Error =
    | ValueError(message: string)
    | OtherError(message: string)

  /** The value of an operation that returns something or raises. */
  datatype Result<+T> = Ok(value: T) | Err(error: Error)

  /** The outcome of an operation that returns nothing or raises. */
  datatype Outcome = Pass | Fail(error: Error)

  function AlreadyExistsMessage(name: string): string {
    "Model with name '" + name + "' already exists"
  }

  function NotFoundMessage(name: string): string {
    "Model '" + name + "' not found"
  }

  const NotTrainedMessage: string := "Model must be trained before making predictions"

  /** The message of the `AttributeError` Python raises when a method is
      called on an attribute that is still `None`. */
  function NoneAttributeMessage(attribute: string): string {
    "'NoneType' object has no attribute '" + attribute + "'"
  }

  /** The message of the `TypeError` Python raises when a keyword argument
      collides with a named parameter of the called method. */
  function MultipleValuesMessage(callee: string, argument: string): string {
    callee + "() got multiple values for argument '" + argument + "'"
  }

  /** Python's `repr` of a list of strings free of quotes: `['a', 'b']`. */
  function ListRepr(items: seq<string>): string {
    "[" + QuotedItems(items) + "]"
  }

  function QuotedItems(items: seq<string>): string {
    if |items| == 0 then ""
    else if |items| == 1 then "'" + items[0] + "'"
    else "'" + items[0] + "', " + QuotedItems(items[1..])
  }

  function UnknownTypeMessage(modelType: string, available: seq<string>): string {
    "Unknown model type: " + modelType + ". Available types: " + ListRepr(available)
  }
}
