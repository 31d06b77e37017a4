/** HTTP as the endpoints and the scripts see it: an endpoint's error answer, and an answer a client receives. */
module Http {
  import opened Wrappers

  /** The error an endpoint answers with instead of a body: an HTTP status code and its detail text. */
  datatype HttpError = HttpError(status: int, detail: string)

  /** The status the framework answers with when a query or body parameter fails its declared bounds. */
  const ValidationFailed: int := 422

  /** An answer a client receives: its status, its body decoded as JSON (or the decoding error) and its raw text. */
  datatype Response<B> = Response(status: int, body: Result<B, string>, text: string)
}
