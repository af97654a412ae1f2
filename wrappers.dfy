/** Optional values, Python exception kinds and results that may carry one. */
module Wrappers {

  datatype Option<+T> = None | Some(value: T) {
    function UnwrapOr(default: T): T { if Some? then value else default }
  }

  /** The exception classes the modelled code raises or catches. */
  datatype PyError =
    | ValueError
    | TypeError
    | KeyError
    | IndexError
    | AttributeError
    | ZeroDivisionError
    | ValidationError          // pydantic rejected a field
    | ServiceError(what: string) // an external service or library call failed
    | HttpException(status: int) // FastAPI's HTTPException with its status code
  {
    /** `except ValueError` catches it: pydantic's `ValidationError` is a subclass of `ValueError`. */
    predicate IsValueError() {
      this == ValueError || this == ValidationError
    }
  }

  datatype Result<+T> = Ok(value: T) | Err(error: PyError)
}
