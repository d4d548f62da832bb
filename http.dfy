/** HTTP responses as the handlers write them: a status code, an optional Content-Type and a body. */
module Http {
  import opened Wrappers

  const StatusOK := 200
  const StatusAccepted := 202
  const StatusBadRequest := 400
  const StatusUnauthorized := 401
  const StatusNotFound := 404
  const StatusInternalServerError := 500

  const JsonContentType := "application/json"
  /** The Content-Type `http.Error` sets. */
  const PlainTextContentType := "text/plain; charset=utf-8"

  /** What a handler writes after the header: nothing, raw text, or a JSON encoding of a `J`. */
  datatype Body<J> = NoBody | Text(text: string) | Json(value: J)

  /**
   * `contentType` is the Content-Type the handler sets itself; `None` means
   * it sets none. For a raw `w.Write`, net/http then sniffs the body and
   * sends `text/plain; charset=utf-8` for the error texts written here;
   * that sniffing is not modelled.
   */
  datatype Response<J> = Response(code: int, contentType: Option<string>, body: Body<J>)

  /** `http.Error(w, msg, code)`: plain text, the message followed by a newline. */
  function Error<J>(msg: string, code: int): (r: Response<J>)
    ensures r.code == code && r.contentType == Some(PlainTextContentType)
    ensures r.body.Text? && |r.body.text| == |msg| + 1
    ensures r.body.text[..|msg|] == msg && r.body.text[|msg|] == '\n'
  {
    Response(code, Some(PlainTextContentType), Text(msg + "\n"))
  }

  /** `w.WriteHeader(code)` followed by `w.Write([]byte(text))`. */
  function WriteText<J>(code: int, text: string): Response<J>
  {
    Response(code, None, Text(text))
  }
}
