/** HTTP values the handlers produce: outbound requests (what httpx would post)
    and the responses FastAPI would send. */
module Web {
  import opened Wrappers
  import opened Json

  /** An outbound POST: its URL, its headers in order, and its JSON body. */
  datatype HttpRequest = HttpRequest(url: string, headers: seq<(string, string)>, json: Json)

  /** A response body: plain text (PlainTextResponse), `{"detail": ...}` (HTTPException),
      JSON (a returned dict / JSONResponse) or a redirect (RedirectResponse). */
  datatype Body =
    | PlainText(text: string)
    | Detail(detail: string)
    | JsonBody(json: Json)
    | Redirect(location: string)

  datatype Response = Response(status: int, body: Body)

  /** An HTTPException raised with this status and detail. */
  datatype HttpError = HttpError(status: int, detail: string)

  /** An HTTPException renders as `{"detail": ...}`; the 500 for any other exception
      is Starlette's plain-text "Internal Server Error". */
  function ErrorResponse(e: HttpError): Response
  {
    if e == InternalError then Response(500, PlainText(e.detail)) else Response(e.status, Detail(e.detail))
  }

  /** What the server answers when a handler raises something that is not an HTTPException. */
  const InternalError := HttpError(500, "Internal Server Error")

  /** The value of the first header with this name. */
  function HeaderValue(headers: seq<(string, string)>, name: string): Option<string>
  {
    if |headers| == 0 then None
    else if headers[0].0 == name then Some(headers[0].1)
    else HeaderValue(headers[1..], name)
  }
}
