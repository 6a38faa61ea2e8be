/** The few pieces of Go's net/http that the dispatcher's behaviour depends on. */
module Http {

  /** An incoming request. Only its method (`verb`, as `r.Method`) is read by
      the gates; the path is kept for the scenarios, since matching it to a
      route is the multiplexer's work, which is not modelled. */
  datatype Request = Request(verb: string, path: string)

  const StatusOK: int := 200
  const StatusBadRequest: int := 400

  /** `http.StatusText` for the status codes the dispatcher produces. */
  function StatusText(code: int): (text: string)
  {
    if code == StatusOK then "OK"
    else if code == StatusBadRequest then "Bad Request"
    else ""
  }

  /** The body `http.Error(w, msg, code)` writes: the message followed by a newline. */
  function ErrorBody(msg: string): (body: string)
  {
    msg + "\n"
  }
}
