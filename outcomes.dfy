/** Success-or-error values standing in for JavaScript promises that
    resolve or reject, and for try/catch around synchronous calls.
    An error carries the `message` of the JavaScript `Error` object. */
module Outcomes {

  datatype Result<+T> = Ok(value: T) | Err(message: string)

  datatype Option<+T> = None | Some(value: T)
}
