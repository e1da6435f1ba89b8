/** Failure values of the export and the Result type that carries them.
    Every failure of the exporter is fatal: a request that comes back with a
    non-success status, or a Python lookup on a JSON value of the wrong shape,
    ends the whole run. */
module Errors {

  datatype Option<+T> = None | Some(value: T)

  /** The exceptions the exporter can raise, one constructor per kind. */
  datatype Error =
    | HttpError(status: int)          // raise_for_status on a non-2xx response
    | KeyError(key: string)           // d[key] on a dict without that key
    | IndexError                      // x[0] on an empty list or string
    | TypeError                       // subscripting or iterating a value that does not support it
    | AttributeError(name: string)    // .get or .replace on a value without that method
    | ReprNotModelled                 // str() of a list or dict inside a path (see README)

  datatype Result<+T> = Ok(value: T) | Err(error: Error) {
    predicate IsFailure() { Err? }

    function PropagateFailure<U>(): Result<U>
      requires Err?
    {
      Err(error)
    }

    function Extract(): T
      requires Ok?
    {
      value
    }
  }
}
