/**
 * The slice of HTTP the handlers need: the query parameters they read, the
 * Authorization header, the body, and the status/content-type/body they write.
 * A missing query parameter or header reads as "" (Go's url.Values.Get).
 * Strings stand for Go's byte strings: each char is one byte, so lengths and
 * slices count bytes as the source's do.
 */
module Http {

  datatype Request = Request(
    verb: string,          // HTTP method
    mail: string,          // ?mail=
    center: string,        // ?center=
    callback: string,      // ?callback= (JSONP)
    authorization: string, // Authorization header
    body: string)

  datatype Response = Response(status: int, contentType: string, body: string)

  const StatusOK := 200
  const StatusCreated := 201
  const StatusUnauthorized := 401
  const StatusNotFound := 404

  const TextPlain := "text/plain; charset=utf-8"

  /** serve404 (src/gopush/server.go:9-13): the response every 404 path writes. */
  function NotFound(): Response
  {
    Response(StatusNotFound, TextPlain, "Not Found")
  }

  /** serve401 (src/gopush/server.go:15-19); the header value keeps the source's spelling ("chatset"). */
  function Unauthorized(): Response
  {
    Response(StatusUnauthorized, "text/plain; chatset=utf-8", "Unauthorized")
  }
}
