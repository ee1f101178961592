/** The application's error classes; a thrown error is an `Err` result. */
module Errors {

  datatype ErrorCode = Validation | Unauthorized | Forbidden | NotFound | Conflict | RateLimited
                     | ExternalService | Internal

  datatype Result<+T> = Ok(value: T) | Err(code: ErrorCode)
}
