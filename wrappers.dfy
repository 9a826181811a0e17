/** Optional values and results, used wherever the source has `null`,
    `undefined` or an HTTP error. */
module Wrappers {

  datatype Option<T> = None | Some(value: T)

  /** An error a backend route raises as an HTTP exception. */
  datatype HttpError = HttpError(status: nat, detail: string)

  datatype Result<T> = Ok(value: T) | Err(error: HttpError)
}
