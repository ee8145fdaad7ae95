/** What a handler leaves on its `http.ResponseWriter`. */
module Http {
  import opened GoText

  const StatusFound := 302
  const StatusNotFound := 404
  const StatusInternalServerError := 500

  /** Runtime panics a handler can raise. The server recovers from them and
      drops the connection without a response of the handler's own. */
  datatype PanicKind = NilPointerDereference

  datatype Response =
      /** Status 200 with these bytes as the body (`fmt.Fprintf`, a template). */
    | Written(content: seq<byte>)
      /** `http.Redirect(w, r, location, code)`. */
    | Redirect(code: int, location: string)
      /** `http.Error(w, message, code)`. */
    | Error(code: int, message: string)
      /** The handler panicked before writing anything. */
    | Panic(kind: PanicKind)

  /** `http.NotFound(w, r)` is `http.Error(w, "404 page not found", 404)`. */
  const NotFound: Response := Error(StatusNotFound, "404 page not found")

  /** An `http.ResponseWriter`: the responses written to it, in order. */
  class ResponseWriter {
    var written: seq<Response>

    constructor ()
      ensures written == []
    {
      written := [];
    }

    method Write(r: Response)
      modifies this
      ensures written == old(written) + [r]
    {
      written := written + [r];
    }
  }
}
