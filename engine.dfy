/**
 * `HttpMethodDecorator.call` as a whole (lines 268-506): synthesis, the verb
 * check, the transport call and the routing of its response, first as the
 * function `CallSpec`, then as the method `Call` that runs the loops of the
 * source and is proved to compute it.
 */
module Engine {
  import opened Wrappers
  import opened PyValues
  import opened Store
  import opened Synthesis
  import opened Overriding
  import opened Resolution
  import opened Dispatch
  import opened Routing
  import Precedence

  /**
   * The transport: the invocation made on the execution context either
   * returns a response or raises (an exception told apart by a number).
   */
  type Transport = Invocation -> Result<Response, nat>

  /** Lines 463-477: whatever the transport raises reaches the caller wrapped in `HTTPErrorWrapper`. */
  function Transmit(send: Transport, inv: Invocation): (r: Fallible<Response>)
    ensures r.Ok? <==> send(inv).Ok?
    ensures send(inv).Ok? ==> r.value == send(inv).value
    ensures send(inv).Err? ==> r.error == HTTPErrorWrapper(TransportFailure(send(inv).error))
  {
    match send(inv)
    case Ok(resp) => Ok(resp)
    case Err(e) => Err(HTTPErrorWrapper(TransportFailure(e)))
  }

  /** Lines 268-506: what a call of a decorated method returns or raises. */
  function CallSpec(cls: map<string, PyVal>, fn: map<string, PyVal>, args: map<string, PyVal>,
                    kwargs: map<string, PyVal>, rt: Runtime, send: Transport,
                    invoke: (PyVal, Response) -> Fallible<PyVal>): Fallible<Reply>
  {
    var r :- Resolve(cls, fn, args, kwargs, rt);
    var inv :- Prepare(r, rt, Read(fn, "http_method"));
    var resp :- Transmit(send, inv);
    Route(resp, r.handlers, r.stream, invoke)
  }

  // ---------------------------------------------------------------------
  // The order of the failures
  // ---------------------------------------------------------------------

  /** A failure of the synthesis (a mistyped reserved argument, say) is raised before the verb is looked at. */
  lemma SynthesisFailsFirst(cls: map<string, PyVal>, fn: map<string, PyVal>, args: map<string, PyVal>,
                            kwargs: map<string, PyVal>, rt: Runtime, send: Transport,
                            invoke: (PyVal, Response) -> Fallible<PyVal>)
    requires Resolve(cls, fn, args, kwargs, rt).Err?
    ensures CallSpec(cls, fn, args, kwargs, rt, send, invoke) == Err(Resolve(cls, fn, args, kwargs, rt).error)
  {
  }

  /**
   * A verb outside the seven raises `ValueError` once the request is
   * synthesized, and the transport is never reached: the outcome is the same
   * whatever the transport would do.
   */
  lemma UnsupportedVerbFails(cls: map<string, PyVal>, fn: map<string, PyVal>, args: map<string, PyVal>,
                             kwargs: map<string, PyVal>, rt: Runtime, send: Transport, send': Transport,
                             invoke: (PyVal, Response) -> Fallible<PyVal>)
    requires Resolve(cls, fn, args, kwargs, rt).Ok? && !Supported(Read(fn, "http_method"))
    ensures CallSpec(cls, fn, args, kwargs, rt, send, invoke) ==
      Err(ValueError("Unsupported HTTP method: " + Describe(Read(fn, "http_method"))))
    ensures CallSpec(cls, fn, args, kwargs, rt, send, invoke) == CallSpec(cls, fn, args, kwargs, rt, send', invoke)
  {
  }

  /** An exception of the transport is raised as `HTTPErrorWrapper`. */
  lemma TransportFailureWrapped(cls: map<string, PyVal>, fn: map<string, PyVal>, args: map<string, PyVal>,
                                kwargs: map<string, PyVal>, rt: Runtime, send: Transport,
                                invoke: (PyVal, Response) -> Fallible<PyVal>)
    requires Resolve(cls, fn, args, kwargs, rt).Ok?
    requires Prepare(Resolve(cls, fn, args, kwargs, rt).value, rt, Read(fn, "http_method")).Ok?
    requires send(Prepare(Resolve(cls, fn, args, kwargs, rt).value, rt, Read(fn, "http_method")).value).Err?
    ensures CallSpec(cls, fn, args, kwargs, rt, send, invoke) ==
      Err(HTTPErrorWrapper(TransportFailure(
        send(Prepare(Resolve(cls, fn, args, kwargs, rt).value, rt, Read(fn, "http_method")).value).error)))
  {
  }

  // ---------------------------------------------------------------------
  // Handlers end to end
  // ---------------------------------------------------------------------

  /** A mapping that holds a key is truthy. */
  lemma HoldingIsTruthy(m: PyVal, k: PyVal)
    requires MHas(m, k)
    ensures Truthy(m)
  {
  }

  /** The status handler `call` uses for `status`: call-time, then method, then class. */
  function ChosenHandler(cls: map<string, PyVal>, fn: map<string, PyVal>, kwargs: map<string, PyVal>,
                         status: PyVal): Option<PyVal>
  {
    if "on" in kwargs && MHas(kwargs["on"], status) then MGet(kwargs["on"], status)
    else if MHas(Read(fn, "on"), status) then MGet(Read(fn, "on"), status)
    else MGet(Read(cls, "on"), status)
  }

  /**
   * When any layer has a handler for the returned status, that handler (by
   * the precedence call-time, method, class) answers the call, whether or
   * not the request streams and whatever the status.
   */
  lemma CallUsesStatusHandler(cls: map<string, PyVal>, fn: map<string, PyVal>, args: map<string, PyVal>,
                              kwargs: map<string, PyVal>, rt: Runtime, send: Transport,
                              invoke: (PyVal, Response) -> Fallible<PyVal>, resp: Response)
    requires Resolve(cls, fn, args, kwargs, rt).Ok?
    requires Prepare(Resolve(cls, fn, args, kwargs, rt).value, rt, Read(fn, "http_method")).Ok?
    requires send(Prepare(Resolve(cls, fn, args, kwargs, rt).value, rt, Read(fn, "http_method")).value) == Ok(resp)
    requires Read(cls, "on") == PNone || Read(cls, "on").PDict?
    requires Read(fn, "on") == PNone || Read(fn, "on").PDict?
    requires ChosenHandler(cls, fn, kwargs, PInt(resp.status)).Some?
    ensures var h := ChosenHandler(cls, fn, kwargs, PInt(resp.status)).value;
      CallSpec(cls, fn, args, kwargs, rt, send, invoke) ==
        (if invoke(h, resp).Ok? then Ok(Handled(invoke(h, resp).value)) else Err(invoke(h, resp).error))
  {
    var r := Resolve(cls, fn, args, kwargs, rt).value;
    Precedence.ResolveHandlers(cls, fn, args, kwargs, rt, PInt(resp.status));
    HoldingIsTruthy(r.handlers, PInt(resp.status));
    ExactHandlerWins(resp, r.handlers, r.stream, invoke);
  }

  // ---------------------------------------------------------------------
  // `call` as the source runs it
  // ---------------------------------------------------------------------

  /** Lines 286-297 as statements: the header map, with the loops over captures and literals. */
  method DeclareHeaders(client: Declaration, func: Declaration, args: map<string, PyVal>) returns (r: Fallible<PyVal>)
    ensures r == DeclaredHeaders(client.Entries(), func.Entries(), args)
  {
    var captures :- MergeArgs(args, func, "header");
    var headers :- MergeDicts(client.GetDecor("header"), captures);
    var literals := func.GetDecor("header");
    if Truthy(literals) {
      if !IsMapping(literals) {
        return Err(AttributeError("object has no attribute 'keys'"));
      }
      headers :- ApplyLiterals(headers, MItems(literals), args);
    }
    r := Ok(headers);
  }

  /** Lines 283-325 as statements: the draft from the declarations and the bound arguments. */
  method Declare(client: Declaration, func: Declaration, args: map<string, PyVal>,
                 kwargs: map<string, PyVal>, rt: Runtime) returns (r: Fallible<Draft>)
    ensures r == Declared(client.Entries(), func.Entries(), args, kwargs, rt)
  {
    var query :- MergeArgs(args, func, "query");
    var form :- MergeArgs(args, func, "form");
    var multipart :- MergeArgs(args, func, "multipart");
    var headers :- DeclareHeaders(client, func, args);
    var body :- BodyContent(func.Entries(), args, rt);
    var handlers :- MergeDicts(client.GetDecor("on"), func.GetDecor("on"));
    var timeout := client.GetDecor("timeout");
    if Truthy(func.GetDecor("timeout")) {
      timeout := func.GetDecor("timeout");
    }
    var stream := func.GetDecor("stream");
    if stream == PNone {
      stream := client.GetDecor("stream");
    }
    assert timeout == DeclaredTimeout(client.Entries(), func.Entries());
    assert stream == DeclaredStream(client.Entries(), func.Entries());
    r := Ok(Draft(query, form, multipart, headers, body, handlers, timeout, stream, kwargs));
  }

  /** Lines 270-438: the request synthesis of `call`, with the loops of the source. */
  method Synthesize(client: Declaration, func: Declaration, args: map<string, PyVal>,
                    kwargs: map<string, PyVal>, rt: Runtime) returns (r: Fallible<Resolved>)
    ensures r == Resolve(client.Entries(), func.Entries(), args, kwargs, rt)
  {
    var session := PNone;
    var rest := kwargs;
    if "__session" in kwargs {
      session := kwargs["__session"];
      rest := kwargs - {"__session"};
    }
    assert rest == kwargs - {"__session"} && session == SessionOf(kwargs);
    var declared :- Declare(client, func, args, rest, rt);
    var draft := declared;
    if |declared.kwargs| > 0 {
      draft :- ApplyOverrides(declared);
    }
    assert CallTime(declared) == Ok(draft);
    r := Finish(draft, rt, session);
  }

  /** Lines 268-506: a call of the decorated method on `client`. */
  method Call(client: Declaration, func: Declaration, args: map<string, PyVal>,
              kwargs: map<string, PyVal>, rt: Runtime, send: Transport,
              invoke: (PyVal, Response) -> Fallible<PyVal>) returns (r: Fallible<Reply>)
    ensures r == CallSpec(client.Entries(), func.Entries(), args, kwargs, rt, send, invoke)
  {
    var verb := func.GetDecor("http_method");
    var resolved :- Synthesize(client, func, args, kwargs, rt);
    var inv :- Prepare(resolved, rt, verb);
    var resp :- Transmit(send, inv);
    r := Route(resp, resolved.handlers, resolved.stream, invoke);
  }
}
