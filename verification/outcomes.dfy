/** Failure-carrying results shared by every module of the model.

    The Rust code returns `Result<_, actix_web::Error>` and, in several places,
    calls `unwrap()` on a value that may be absent. An `unwrap()` that fails
    aborts the request with a panic; it is modelled as the distinct outcome
    `Panic`, never as an error value. */
module Outcomes {

  datatype Option<+T> = None | Some(value: T)

  /** The two kinds of `actix_web::Error` the code produces: a transport or
      body-decoding failure propagated by `?`, and an explicit
      `error::ErrorBadRequest(message)`. */
  datatype Error =
    | Transport(detail: string)
    | BadRequest(message: string)

  datatype Outcome<+T> =
    | Ok(value: T)
    | Err(error: Error)
    | Panic

  /** Messages of the explicit `ErrorBadRequest` values, spelled as in the code. */
  const ServiceNotFound: string := "Service not found."
  const AuthorizationFailed: string := "Authorization failed."
  const InstallationRejected: string := "Installaton rejected."
}
