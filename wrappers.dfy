/** Option and the HTTP-style error results shared by every layer of the model. */
module Wrappers {

  datatype Option<+T> = None | Some(value: T)

  /** The status codes the Python layers raise through `HTTPException`. */
  datatype HttpError =
    | NotFound(detail: string)        // 404
    | BadRequest(detail: string)      // 400
    | ServerError(detail: string)     // 500: an exception the handler does not catch on purpose

  datatype Result<+T> = Ok(value: T) | Err(error: HttpError)

  /** Python truthiness of an optional string: `None` and `""` are both falsy. */
  predicate Truthy(s: Option<string>)
  {
    s.Some? && s.value != ""
  }
}
