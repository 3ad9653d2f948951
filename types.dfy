/** Values shared by every part of the worker: optional values, results,
    the exceptions it throws and the HTTP responses it builds. */
module Types {

  /** A JavaScript value that is either a string or absent (`undefined` or
      `null`; which of the two is said where it matters). */
  datatype Option<+T> = None | Some(value: T) {
    function GetOr(default: T): T {
      match this
      case Some(v) => v
      case None => default
    }
  }

  /** The outcome of a call that may throw. */
  datatype Result<+T> = Ok(value: T) | Err(error: Failure)

  /** What can be thrown out of `handleRequest`. */
  datatype Failure =
    | BadRequest(reason: string)  // BadRequestException: status 400
    | ApiError(reason: string)    // CloudflareApiException: status 500
    | HostError(name: string)     // an error of the JavaScript host (TypeError, DOMException): no status

  /** A response body: `null`, a text, or the diagnostic text of a caught error
      (its stack trace), whose contents the model does not describe. */
  datatype Body = NullBody | Text(text: string) | Diagnostic

  datatype Response = Response(status: nat, statusText: Option<string>, body: Body, headers: map<string, string>)

  /** The canonical update request produced by the protocol normaliser. */
  datatype UpdateRequest = UpdateRequest(hostnames: seq<string>, ip: string, proxied: bool)
}
