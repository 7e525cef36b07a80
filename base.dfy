/** Values shared by every page of the client: optional values, the outcome
    of a REST call, and JavaScript's `||` on strings. */
module Base {

  /** Server-side identifiers (`_id`) are opaque strings. */
  type Id = string

  datatype Option<T> = None | Some(value: T)

  /** The body the server sends with an error (`err.response.data`). */
  datatype ErrorBody = ErrorBody(error: Option<string>, message: Option<string>)

  /** A rejected request. `status` is None when no response arrived at all
      (a network failure or an error thrown before the request was sent). */
  datatype HttpError = HttpError(status: Option<int>, body: ErrorBody)

  /** The outcome of one REST call, supplied to the model as an input. */
  datatype Response<T> = Ok(data: T) | Failed(failure: HttpError)

  /** A rejection that carried no response. */
  const NoResponse := HttpError(None, ErrorBody(None, None))

  /** A file the user picked: its name, size in bytes and MIME type. */
  datatype File = File(name: string, size: int, mimeType: string)

  /** JavaScript truthiness of an optional string: missing and '' are falsy. */
  predicate Truthy(o: Option<string>) {
    o.Some? && o.value != ""
  }

  /** `o || d` for an optional string `o`. */
  function OrDefault(o: Option<string>, d: string): (r: string)
    ensures Truthy(o) ==> r == o.value
    ensures !Truthy(o) ==> r == d
    ensures r != "" <== d != ""
  {
    if Truthy(o) then o.value else d
  }

  /** Whether a failure is an HTTP 401 response. */
  predicate IsUnauthorized(e: HttpError) {
    e.status == Some(401)
  }
}
