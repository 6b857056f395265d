/** Shared vocabulary: optional values, outcomes that may carry a raised
    exception, bytes, and the exceptions the modelled Python code raises,
    catches or lets through. */
module Common {

  datatype Option<+T> = None | Some(value: T)

  /** The outcome of a Python call: a returned value or a raised exception. */
  datatype Result<+T, +E> = Success(value: T) | Failure(error: E)

  newtype byte = b: int | 0 <= b < 256

  /** Identifier of a file stored at the provider. */
  type FileId = string

  /** The Python exceptions that matter to the modelled code. */
  datatype Exception =
    | BadRequestError(message: string)     // openai.BadRequestError: the only error create_batch retries
    | ApiError(message: string)            // any other openai.APIError
    | ValidationError(fields: seq<string>) // pydantic, naming every field that failed validation
    | ValueError(message: string)
    | JsonDecodeError(document: string)    // json.loads on text that is not JSON
    | KeyError(key: string)
    | IndexError(message: string)
    | TypeError(message: string)
    | HttpStatusError                      // httpx raise_for_status
    | OtherError(message: string)          // anything else, e.g. raised by a user callback
  {
    predicate IsBadRequest() { BadRequestError? }
  }
}
