/**
 * What `call` returns once the transport answered (lines 479-506): a status
 * handler, the raw response of a stream, the wrapped HTTP error, or the body
 * decoded by its content type.
 */
module Routing {
  import opened Wrappers
  import opened PyValues

  /** The response, as far as `call` looks at it. */
  datatype Response = Response(
    status: int,                   // status_code
    failed: bool,                  // raise_for_status() raises
    text: string,                  // text
    contentType: Option<string>,   // headers.get('content-type')
    json: PyVal,                   // json()
    content: PyVal)                // content, the raw bytes

  /** The value `call` returns. */
  datatype Reply =
    | Handled(value: PyVal)        // what the status handler returned
    | Raw(response: Response)      // the response object itself
    | Decoded(value: PyVal)        // result.json()
    | Bytes(value: PyVal)          // result.content
    | Text(text: string)           // result.text
    | NoContent                    // None

  /** Lines 497-504: a non-empty body is decoded by its content type. */
  function Decode(resp: Response): Reply {
    if resp.contentType == Some("application/json") then Decoded(resp.json)
    else if resp.contentType == Some("application/octet-stream") then Bytes(resp.content)
    else Text(resp.text)
  }

  /** Lines 479-484: the handler that applies to `resp`: for its exact status, else the catch-all. */
  function HandlerFor(handlers: PyVal, status: int): Option<PyVal> {
    if Truthy(handlers) && MHas(handlers, PInt(status)) then MGet(handlers, PInt(status))
    else if Truthy(handlers) && MHas(handlers, PAnyStatus) then MGet(handlers, PAnyStatus)
    else None
  }

  /**
   * Lines 479-506. `invoke(h, resp)` is the call `h(resp)` of a status
   * handler, code outside this model.
   */
  function Route(resp: Response, handlers: PyVal, stream: PyVal,
                 invoke: (PyVal, Response) -> Fallible<PyVal>): Fallible<Reply>
  {
    match HandlerFor(handlers, resp.status)
    case Some(h) =>
      var v :- invoke(h, resp);
      Ok(Handled(v))
    case None =>
      if Truthy(stream) then Ok(Raw(resp))
      else if resp.failed then Err(HTTPErrorWrapper(StatusFailure(resp.status)))
      else if resp.text != [] then Ok(Decode(resp))
      else Ok(NoContent)
  }

  // ---------------------------------------------------------------------
  // Properties
  // ---------------------------------------------------------------------

  /** A handler registered for the exact status wins over the catch-all and over everything else. */
  lemma ExactHandlerWins(resp: Response, handlers: PyVal, stream: PyVal,
                         invoke: (PyVal, Response) -> Fallible<PyVal>)
    requires Truthy(handlers) && MHas(handlers, PInt(resp.status))
    ensures var h := MGet(handlers, PInt(resp.status)).value;
      Route(resp, handlers, stream, invoke) ==
        (if invoke(h, resp).Ok? then Ok(Handled(invoke(h, resp).value)) else Err(invoke(h, resp).error))
  {
  }

  /** Without an exact handler the `HttpStatus.ANY` handler answers, whatever the status and stream flag. */
  lemma CatchAllHandler(resp: Response, handlers: PyVal, stream: PyVal,
                        invoke: (PyVal, Response) -> Fallible<PyVal>)
    requires Truthy(handlers) && !MHas(handlers, PInt(resp.status)) && MHas(handlers, PAnyStatus)
    ensures var h := MGet(handlers, PAnyStatus).value;
      Route(resp, handlers, stream, invoke) ==
        (if invoke(h, resp).Ok? then Ok(Handled(invoke(h, resp).value)) else Err(invoke(h, resp).error))
  {
  }

  /** A handler is consulted exactly when the handlers are truthy and hold the status or `ANY`. */
  lemma HandledOnlyByHandlers(resp: Response, handlers: PyVal, stream: PyVal,
                              invoke: (PyVal, Response) -> Fallible<PyVal>)
    ensures HandlerFor(handlers, resp.status).Some? <==>
      Truthy(handlers) && (MHas(handlers, PInt(resp.status)) || MHas(handlers, PAnyStatus))
    ensures Route(resp, handlers, stream, invoke).Ok? && Route(resp, handlers, stream, invoke).value.Handled? ==>
      HandlerFor(handlers, resp.status).Some?
  {
  }

  /** With no handler a streamed response is returned as it is, even with an error status. */
  lemma StreamPassesThrough(resp: Response, handlers: PyVal, stream: PyVal,
                            invoke: (PyVal, Response) -> Fallible<PyVal>)
    requires HandlerFor(handlers, resp.status).None? && Truthy(stream)
    ensures Route(resp, handlers, stream, invoke) == Ok(Raw(resp))
  {
  }

  /**
   * Default handling: the call fails with the wrapped HTTP error exactly when
   * `raise_for_status` raises; otherwise an empty body gives None and any other
   * is decoded.
   */
  lemma DefaultHandling(resp: Response, handlers: PyVal, stream: PyVal,
                        invoke: (PyVal, Response) -> Fallible<PyVal>)
    requires HandlerFor(handlers, resp.status).None? && !Truthy(stream)
    ensures Route(resp, handlers, stream, invoke).Err? <==> resp.failed
    ensures resp.failed ==> Route(resp, handlers, stream, invoke) == Err(HTTPErrorWrapper(StatusFailure(resp.status)))
    ensures !resp.failed ==> (Route(resp, handlers, stream, invoke) == Ok(NoContent) <==> resp.text == [])
    ensures !resp.failed && resp.text != [] ==> Route(resp, handlers, stream, invoke) == Ok(Decode(resp))
  {
  }

  /** A decoded body comes only from a successful response that had one. */
  lemma DecodedOnlyOnSuccess(resp: Response, handlers: PyVal, stream: PyVal,
                             invoke: (PyVal, Response) -> Fallible<PyVal>)
    requires Route(resp, handlers, stream, invoke).Ok?
    requires var reply := Route(resp, handlers, stream, invoke).value;
      reply.Decoded? || reply.Bytes? || reply.Text?
    ensures !resp.failed && resp.text != [] && !Truthy(stream) && HandlerFor(handlers, resp.status).None?
  {
  }

  /** The content type decides the decoding: JSON, raw bytes, or the text. */
  lemma DecodeByContentType(resp: Response)
    ensures Decode(resp).Decoded? <==> resp.contentType == Some("application/json")
    ensures Decode(resp).Bytes? <==> resp.contentType == Some("application/octet-stream")
    ensures Decode(resp).Decoded? ==> Decode(resp).value == resp.json
    ensures Decode(resp).Bytes? ==> Decode(resp).value == resp.content
    ensures Decode(resp).Text? ==> Decode(resp).text == resp.text
  {
  }
}
