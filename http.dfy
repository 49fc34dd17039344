/** The slice of `net/http` the handler writes its answers through. */
module Http {

  const StatusOK := 200
  const StatusBadRequest := 400
  const StatusNotFound := 404
  const StatusMethodNotAllowed := 405
  const StatusRequestEntityTooLarge := 413
  const StatusUnsupportedMediaType := 415
  const StatusInternalServerError := 500
  const StatusServiceUnavailable := 503

  /** What the handler writes: the status, the header fields it sets (before
      net/http's own rewriting on the wire), and the body. */
  datatype Response = Response(status: int, header: map<string, string>, body: string)

  /** `http.Error(w, msg, code)`: a plain-text body holding the message and a
      line break, marked as not to be content-sniffed. */
  function Error(msg: string, code: int): Response
  {
    Response(code,
             map["Content-Type" := "text/plain; charset=utf-8", "X-Content-Type-Options" := "nosniff"],
             msg + "\n")
  }

  /** `http.NotFound(w, r)`. */
  function NotFound(): Response
  {
    Error("404 page not found", StatusNotFound)
  }
}
