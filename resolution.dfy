/**
 * The end of `HttpMethodDecorator.call`: header defaults, the multipart
 * judgement, body encoding and the keyword arguments handed to the transport,
 * and the whole synthesis `Resolve`.
 */
module Resolution {
  import opened Wrappers
  import opened Dicts
  import opened PyValues
  import opened Store
  import opened Synthesis
  import opened Overriding

  // ---------------------------------------------------------------------
  // Defaults and the transport keyword arguments (lines 382-441)
  // ---------------------------------------------------------------------

  /** The request `call` hands to the transport, with the values routing still needs. */
  datatype Resolved = Resolved(
    headers: PyVal,                // header_parameters, final
    query: PyVal,                  // query_parameters, final
    form: PyVal,                   // form_parameters, final
    multipart: PyVal,              // multipart_parameters, final
    body: PyVal,                   // body_content, before JSON serialization
    timeout: PyVal,                // request_timeout, final
    handlers: PyVal,               // on_handlers, final
    stream: PyVal,                 // is_stream, final
    isMultipart: bool,             // is_multipart_request
    session: PyVal,                // the `__session` keyword argument, or None
    kwargs: map<string, PyVal>)    // what is passed on to the transport

  /** Lines 387-395: is this a multipart request, judged on the keyword arguments left after the overrides. */
  function IsMultipartRequest(d: Draft, rt: Runtime): bool {
    if Truthy(d.multipart) then true
    else if rt.backend == Requests then "data" in d.kwargs && !rt.isEncoder(d.kwargs["data"])
    else "files" in d.kwargs
  }

  /** Lines 415-418: a dict body is sent as its JSON text when the content type is JSON. */
  function Payload(body: PyVal, h: PyVal, rt: Runtime): PyVal {
    if MGet(h, PStr("content-type")) == Some(PStr(JsonType)) && body.PDict? then PStr(rt.dumps(body)) else body
  }

  /** Lines 420-426: the keyword the body travels under. */
  function PayloadKey(payload: PyVal, rt: Runtime): string {
    if rt.backend == Httpx && !payload.PDict? then "content" else "data"
  }

  /** Lines 397-404: JSON content type unless present or multipart, then JSON accept unless present. */
  function DefaultHeaders(h: PyVal, isMultipart: bool): Fallible<PyVal> {
    var h1 :- if !MHas(h, PStr("content-type")) && !isMultipart
              then MSet(h, PStr("content-type"), PStr(JsonType)) else Ok(h);
    if !MHas(h1, PStr("accept")) then MSet(h1, PStr("accept"), PStr(JsonType)) else Ok(h1)
  }

  /** Lines 431-435: form parameters override the content type. */
  function FormHeaders(h: PyVal, form: PyVal): Fallible<PyVal> {
    if Truthy(form) then MSet(h, PStr("content-type"), PStr(FormType)) else Ok(h)
  }

  /** Lines 389, 409-413: files, authentication and timeout, set before the body is encoded. */
  function Early(d: Draft, rt: Runtime): map<string, PyVal> {
    var a0 := if Truthy(d.multipart) then map["files" := d.multipart] else map[];
    var a1 := if Truthy(rt.auth) then a0["auth" := rt.auth] else a0;
    if Truthy(d.timeout) then a1["timeout" := d.timeout] else a1
  }

  /**
   * Lines 414-438: the body (as encoded, `payload`), query parameters, form,
   * stream flag and the final headers; a later assignment to the same keyword
   * wins.
   */
  function Late(d: Draft, rt: Runtime, payload: PyVal, final: PyVal): map<string, PyVal> {
    var a3 := if Truthy(d.body) then map[PayloadKey(payload, rt) := payload] else map[];
    var a4 := if Truthy(d.query) then a3["params" := d.query] else a3;
    var a5 := if Truthy(d.form) then a4["data" := d.form] else a4;
    var a6 := if Truthy(d.stream) then a5["stream" := d.stream] else a5;
    if Truthy(final) then a6["headers" := PDict(MItems(final))] else a6
  }

  /** The keyword arguments `call` sets for the transport, in the order it sets them. */
  function Added(d: Draft, rt: Runtime, h: PyVal, final: PyVal): map<string, PyVal> {
    Early(d, rt) + Late(d, rt, Payload(d.body, h, rt), final)
  }

  /** The caller's remaining keyword arguments, with the ones `call` sets assigned over them. */
  function TransportKwargs(d: Draft, rt: Runtime, h: PyVal, final: PyVal): map<string, PyVal> {
    d.kwargs + Added(d, rt, h, final)
  }

  /** Lines 385-438: defaults, authentication, and the transport keyword arguments. */
  function Finish(d: Draft, rt: Runtime, session: PyVal): Fallible<Resolved> {
    var isMultipart := IsMultipartRequest(d, rt);
    var h :- DefaultHeaders(d.headers, isMultipart);
    var final :- FormHeaders(h, d.form);
    Ok(Resolved(final, d.query, d.form, d.multipart, d.body, d.timeout, d.handlers, d.stream,
                isMultipart, session, TransportKwargs(d, rt, h, final)))
  }

  /** The `__session` keyword argument, which `call` removes before anything else. */
  function SessionOf(kwargs: map<string, PyVal>): PyVal {
    if "__session" in kwargs then kwargs["__session"] else PNone
  }

  /** Line 333: the override loop runs only when keyword arguments are left. */
  function CallTime(d: Draft): Fallible<Draft> {
    if |d.kwargs| > 0 then Overrides(d, DecorList) else Ok(d)
  }

  /** Lines 270-438: the whole request synthesis of `call`. */
  function Resolve(cls: map<string, PyVal>, fn: map<string, PyVal>, args: map<string, PyVal>,
                   kwargs: map<string, PyVal>, rt: Runtime): Fallible<Resolved>
  {
    var declared :- Declared(cls, fn, args, kwargs - {"__session"}, rt);
    var overridden :- CallTime(declared);
    Finish(overridden, rt, SessionOf(kwargs))
  }

  // ---------------------------------------------------------------------
  // Properties of the defaults (lines 385-438)
  // ---------------------------------------------------------------------

  /** The keyword arguments `call` itself may add for the transport. */
  const EngineKeys: set<string> := {"files", "auth", "timeout", "data", "content", "params", "stream", "headers"}

  /** `content-type` and `accept` never address the same header, in either kind of mapping. */
  lemma ContentTypeIsNotAccept(m: PyVal)
    ensures !SameKey(m, PStr("content-type"), PStr("accept"))
  {
    if m.PCIDict? {
      assert |Lower("content-type")| != |Lower("accept")|;
    }
  }

  /** `q` names the content type or the accept header, in any letter case. */
  predicate Defaulted(q: PyVal) {
    q.PStr? && (Lower(q.s) == Lower("content-type") || Lower(q.s) == Lower("accept"))
  }

  /** A header other than those two addresses neither of them, in either kind of mapping. */
  lemma NotDefaulted(m: PyVal, q: PyVal)
    requires !Defaulted(q)
    ensures !SameKey(m, PStr("content-type"), q) && !SameKey(m, PStr("accept"), q)
  {
  }

  /**
   * Header defaults: `accept` is always present and keeps a value already
   * set; the content type defaults to JSON only when absent and the request
   * is not multipart; form parameters force the form content type.
   */
  lemma DefaultHeadersGet(h: PyVal, isMultipart: bool)
    requires DefaultHeaders(h, isMultipart).Ok?
    ensures var r := DefaultHeaders(h, isMultipart).value;
      && MHas(r, PStr("accept"))
      && (MHas(h, PStr("accept")) ==> MGet(r, PStr("accept")) == MGet(h, PStr("accept")))
      && (MHas(h, PStr("content-type")) ==> MGet(r, PStr("content-type")) == MGet(h, PStr("content-type")))
      && (!MHas(h, PStr("content-type")) ==>
            MGet(r, PStr("content-type")) == if isMultipart then None else Some(PStr(JsonType)))
  {
    var ct, ac := PStr("content-type"), PStr("accept");
    ContentTypeIsNotAccept(h);
    var h1 := h;
    if !MHas(h, ct) && !isMultipart {
      MSetGet(h, ct, PStr(JsonType), ct);
      MSetGet(h, ct, PStr(JsonType), ac);
      h1 := MSet(h, ct, PStr(JsonType)).value;
    }
    if !MHas(h1, ac) {
      MSetGet(h1, ac, PStr(JsonType), ct);
      MSetGet(h1, ac, PStr(JsonType), ac);
    }
  }

  /** The keywords set after the body is encoded. */
  const LateKeys: set<string> := {"data", "content", "params", "stream", "headers"}

  lemma LateKeysOnly(d: Draft, rt: Runtime, payload: PyVal, final: PyVal)
    ensures forall k :: k in Late(d, rt, payload, final) ==> k in LateKeys
  {
    assert PayloadKey(payload, rt) in LateKeys;
  }

  /** `call` sets only keywords of its own. */
  lemma AddedKeys(d: Draft, rt: Runtime, h: PyVal, final: PyVal)
    ensures forall k :: k in Added(d, rt, h, final) ==> k in EngineKeys
  {
    LateKeysOnly(d, rt, Payload(d.body, h, rt), final);
  }

  /** Where the form, the body and the headers end up among the keywords set last. */
  lemma LateSlots(d: Draft, rt: Runtime, payload: PyVal, final: PyVal)
    ensures var kw := Late(d, rt, payload, final);
      && (Truthy(final) ==> "headers" in kw && kw["headers"] == PDict(MItems(final)))
      && (Truthy(d.form) ==> "data" in kw && kw["data"] == d.form)
      && (Truthy(d.body) && !Truthy(d.form) ==> PayloadKey(payload, rt) in kw && kw[PayloadKey(payload, rt)] == payload)
  {
    var key := PayloadKey(payload, rt);
    assert key == "data" || key == "content";
  }

  /** Query parameters and the stream flag are set exactly when truthy. */
  lemma LateScalars(d: Draft, rt: Runtime, payload: PyVal, final: PyVal)
    ensures var kw := Late(d, rt, payload, final);
      && ("params" in kw <==> Truthy(d.query)) && (Truthy(d.query) ==> kw["params"] == d.query)
      && ("stream" in kw <==> Truthy(d.stream)) && (Truthy(d.stream) ==> kw["stream"] == d.stream)
  {
    var key := PayloadKey(payload, rt);
    assert key == "data" || key == "content";
  }

  /** Where the form, the body and the headers end up among the keywords `call` sets. */
  lemma AddedSlots(d: Draft, rt: Runtime, h: PyVal, final: PyVal)
    ensures var kw := Added(d, rt, h, final);
      && (Truthy(final) ==> "headers" in kw && kw["headers"] == PDict(MItems(final)))
      && (Truthy(d.form) ==> "data" in kw && kw["data"] == d.form)
      && (Truthy(d.body) && !Truthy(d.form) ==>
            var payload := Payload(d.body, h, rt);
            PayloadKey(payload, rt) in kw && kw[PayloadKey(payload, rt)] == payload)
  {
    LateSlots(d, rt, Payload(d.body, h, rt), final);
  }

  /** Files, authentication, timeout, query parameters and the stream flag are set exactly when truthy. */
  lemma AddedScalars(d: Draft, rt: Runtime, h: PyVal, final: PyVal)
    ensures var kw := Added(d, rt, h, final);
      && ("files" in kw <==> Truthy(d.multipart)) && (Truthy(d.multipart) ==> kw["files"] == d.multipart)
      && ("auth" in kw <==> Truthy(rt.auth)) && (Truthy(rt.auth) ==> kw["auth"] == rt.auth)
      && ("timeout" in kw <==> Truthy(d.timeout)) && (Truthy(d.timeout) ==> kw["timeout"] == d.timeout)
      && ("params" in kw <==> Truthy(d.query)) && (Truthy(d.query) ==> kw["params"] == d.query)
      && ("stream" in kw <==> Truthy(d.stream)) && (Truthy(d.stream) ==> kw["stream"] == d.stream)
  {
    var payload := Payload(d.body, h, rt);
    LateKeysOnly(d, rt, payload, final);
    LateScalars(d, rt, payload, final);
    assert "files" !in LateKeys && "auth" !in LateKeys && "timeout" !in LateKeys;
    assert "params" !in Early(d, rt) && "stream" !in Early(d, rt);
  }

  /** `Finish` keeps the parameters, body, timeout, handlers and stream flag the overrides left. */
  lemma FinishKeeps(d: Draft, rt: Runtime, session: PyVal)
    requires Finish(d, rt, session).Ok?
    ensures var r := Finish(d, rt, session).value;
      && r.query == d.query && r.form == d.form && r.multipart == d.multipart && r.body == d.body
      && r.timeout == d.timeout && r.handlers == d.handlers && r.stream == d.stream && r.session == session
  {
  }

  lemma FinishHeaders(d: Draft, rt: Runtime, session: PyVal)
    requires Finish(d, rt, session).Ok?
    ensures var r := Finish(d, rt, session).value;
      && MHas(r.headers, PStr("accept"))
      && (MHas(d.headers, PStr("accept")) ==> MGet(r.headers, PStr("accept")) == MGet(d.headers, PStr("accept")))
      && (!r.isMultipart ==> MHas(r.headers, PStr("content-type")))
      && (Truthy(d.form) ==> MGet(r.headers, PStr("content-type")) == Some(PStr(FormType)) && "data" in r.kwargs && r.kwargs["data"] == d.form)
      && (!Truthy(d.form) && MHas(d.headers, PStr("content-type")) ==>
            MGet(r.headers, PStr("content-type")) == MGet(d.headers, PStr("content-type")))
      && (!Truthy(d.form) && !MHas(d.headers, PStr("content-type")) ==>
            MGet(r.headers, PStr("content-type")) == if r.isMultipart then None else Some(PStr(JsonType)))
      && "headers" in r.kwargs && r.kwargs["headers"] == PDict(MItems(r.headers))
  {
    var isMultipart := IsMultipartRequest(d, rt);
    DefaultHeadersGet(d.headers, isMultipart);
    var h := DefaultHeaders(d.headers, isMultipart).value;
    AddedSlots(d, rt, h, FormHeaders(h, d.form).value);
    ContentTypeIsNotAccept(h);
    if Truthy(d.form) {
      MSetGet(h, PStr("content-type"), PStr(FormType), PStr("content-type"));
      MSetGet(h, PStr("content-type"), PStr(FormType), PStr("accept"));
    }
  }

  /** Headers other than the content type and `accept` reach the transport as the overrides left them. */
  lemma FinishOtherHeaders(d: Draft, rt: Runtime, session: PyVal, q: PyVal)
    requires Finish(d, rt, session).Ok?
    requires !SameKey(d.headers, PStr("content-type"), q) && !SameKey(d.headers, PStr("accept"), q)
    ensures MGet(Finish(d, rt, session).value.headers, q) == MGet(d.headers, q)
  {
    var ct, ac := PStr("content-type"), PStr("accept");
    var isMultipart := IsMultipartRequest(d, rt);
    var h0 := d.headers;
    var h1 := h0;
    if !MHas(h0, ct) && !isMultipart {
      MSetGet(h0, ct, PStr(JsonType), q);
      h1 := MSet(h0, ct, PStr(JsonType)).value;
    }
    var h2 := h1;
    if !MHas(h1, ac) {
      MSetGet(h1, ac, PStr(JsonType), q);
      h2 := MSet(h1, ac, PStr(JsonType)).value;
    }
    assert DefaultHeaders(h0, isMultipart) == Ok(h2);
    if Truthy(d.form) {
      MSetGet(h2, ct, PStr(FormType), q);
    }
  }

  /**
   * Without form parameters a truthy body is sent: a dict as JSON text when
   * the content type is JSON, under `content` for httpx unless it is a dict,
   * under `data` otherwise.
   */
  lemma FinishBody(d: Draft, rt: Runtime, session: PyVal)
    requires Finish(d, rt, session).Ok? && Truthy(d.body) && !Truthy(d.form)
    ensures var r := Finish(d, rt, session).value;
      && (MGet(r.headers, PStr("content-type")) == Some(PStr(JsonType)) && d.body.PDict? ==>
            var key := if rt.backend == Httpx then "content" else "data";
            key in r.kwargs && r.kwargs[key] == PStr(rt.dumps(d.body)))
      && (!(MGet(r.headers, PStr("content-type")) == Some(PStr(JsonType)) && d.body.PDict?) ==>
            var key := if rt.backend == Httpx && !d.body.PDict? then "content" else "data";
            key in r.kwargs && r.kwargs[key] == d.body)
  {
    FinishParts(d, rt, session);
    var h := DefaultHeaders(d.headers, IsMultipartRequest(d, rt)).value;
    BodyEncoding(d, rt, h, h);
  }

  /** `Finish` in terms of its parts. */
  lemma FinishParts(d: Draft, rt: Runtime, session: PyVal)
    requires Finish(d, rt, session).Ok?
    ensures DefaultHeaders(d.headers, IsMultipartRequest(d, rt)).Ok?
    ensures var h := DefaultHeaders(d.headers, IsMultipartRequest(d, rt)).value;
      && FormHeaders(h, d.form).Ok?
      && Finish(d, rt, session).value.headers == FormHeaders(h, d.form).value
      && Finish(d, rt, session).value.kwargs == TransportKwargs(d, rt, h, FormHeaders(h, d.form).value)
  {
  }

  lemma BodyEncoding(d: Draft, rt: Runtime, h: PyVal, final: PyVal)
    requires Truthy(d.body) && !Truthy(d.form)
    ensures var kw := TransportKwargs(d, rt, h, final);
      && (MGet(h, PStr("content-type")) == Some(PStr(JsonType)) && d.body.PDict? ==>
            var key := if rt.backend == Httpx then "content" else "data";
            key in kw && kw[key] == PStr(rt.dumps(d.body)))
      && (!(MGet(h, PStr("content-type")) == Some(PStr(JsonType)) && d.body.PDict?) ==>
            var key := if rt.backend == Httpx && !d.body.PDict? then "content" else "data";
            key in kw && kw[key] == d.body)
  {
    AddedSlots(d, rt, h, final);
    var payload := Payload(d.body, h, rt);
    if MGet(h, PStr("content-type")) == Some(PStr(JsonType)) && d.body.PDict? {
      assert PayloadKey(payload, rt) == if rt.backend == Httpx then "content" else "data";
    } else {
      assert PayloadKey(payload, rt) == if rt.backend == Httpx && !d.body.PDict? then "content" else "data";
    }
  }

  /**
   * The transport receives the caller's remaining keyword arguments
   * unchanged, plus only the keys `call` adds.
   */
  lemma FinishForwards(d: Draft, rt: Runtime, session: PyVal)
    requires Finish(d, rt, session).Ok?
    ensures var r := Finish(d, rt, session).value;
      && (forall k :: k in r.kwargs ==> k in d.kwargs || k in EngineKeys)
      && (forall k :: k in d.kwargs && k !in EngineKeys ==> k in r.kwargs && r.kwargs[k] == d.kwargs[k])
      && r.session == session
  {
    FinishParts(d, rt, session);
    var h := DefaultHeaders(d.headers, IsMultipartRequest(d, rt)).value;
    AddedKeys(d, rt, h, FormHeaders(h, d.form).value);
  }

  /**
   * Files, authentication, a truthy timeout and stream flag and the query
   * parameters are added to the transport keyword arguments.
   */
  lemma FinishKwargs(d: Draft, rt: Runtime, session: PyVal)
    requires Finish(d, rt, session).Ok?
    ensures var r := Finish(d, rt, session).value;
      && (Truthy(d.multipart) ==> r.isMultipart && "files" in r.kwargs && r.kwargs["files"] == d.multipart)
      && (Truthy(rt.auth) ==> "auth" in r.kwargs && r.kwargs["auth"] == rt.auth)
      && (Truthy(d.timeout) ==> "timeout" in r.kwargs && r.kwargs["timeout"] == d.timeout)
      && (!Truthy(d.timeout) && "timeout" !in d.kwargs ==> "timeout" !in r.kwargs)
      && (Truthy(d.stream) ==> "stream" in r.kwargs && r.kwargs["stream"] == d.stream)
      && (!Truthy(d.stream) && "stream" !in d.kwargs ==> "stream" !in r.kwargs)
      && (Truthy(d.query) ==> "params" in r.kwargs && r.kwargs["params"] == d.query)
  {
    FinishParts(d, rt, session);
    var h := DefaultHeaders(d.headers, IsMultipartRequest(d, rt)).value;
    AddedScalars(d, rt, h, FormHeaders(h, d.form).value);
  }

  // ---------------------------------------------------------------------
  // Properties of the whole synthesis
  // ---------------------------------------------------------------------

  /** The `if kwargs:` guard changes nothing: without keyword arguments the loop leaves the draft as it is. */
  lemma CallTimeIsLoop(d: Draft)
    ensures CallTime(d) == Overrides(d, DecorList)
  {
    if |d.kwargs| == 0 {
      assert d.kwargs == map[];
      OverridesSkipAbsent(d, DecorList);
    }
  }

  /** The draft keeps the keyword arguments it is given and the declared timeout and stream flag. */
  lemma DeclaredParts(cls: map<string, PyVal>, fn: map<string, PyVal>, args: map<string, PyVal>,
                      kwargs: map<string, PyVal>, rt: Runtime)
    requires Declared(cls, fn, args, kwargs, rt).Ok?
    ensures var d := Declared(cls, fn, args, kwargs, rt).value;
      && d.kwargs == kwargs
      && d.timeout == DeclaredTimeout(cls, fn)
      && d.stream == DeclaredStream(cls, fn)
  {
  }

  /** Removing `__session` leaves every reserved argument as the caller passed it. */
  lemma SessionNotReserved(kwargs: map<string, PyVal>)
    ensures forall k: Decor :: Name(k) in kwargs - {"__session"} <==> Name(k) in kwargs
    ensures forall k: Decor :: Name(k) in kwargs ==> (kwargs - {"__session"})[Name(k)] == kwargs[Name(k)]
  {
    forall k: Decor
      ensures Name(k) != "__session"
    {
      assert Name(k)[0] != '_';
    }
  }

  /** The draft `Resolve` builds from the declarations, and the draft the overrides leave. */
  lemma ResolveStages(cls: map<string, PyVal>, fn: map<string, PyVal>, args: map<string, PyVal>,
                      kwargs: map<string, PyVal>, rt: Runtime) returns (d0: Draft, d1: Draft)
    requires Resolve(cls, fn, args, kwargs, rt).Ok?
    ensures Declared(cls, fn, args, kwargs - {"__session"}, rt) == Ok(d0)
    ensures Overrides(d0, DecorList) == Ok(d1)
    ensures Resolve(cls, fn, args, kwargs, rt) == Finish(d1, rt, SessionOf(kwargs))
    ensures d0.kwargs == kwargs - {"__session"}
  {
    ResolveParts(cls, fn, args, kwargs, rt);
    DeclaredParts(cls, fn, args, kwargs - {"__session"}, rt);
    d0 := Declared(cls, fn, args, kwargs - {"__session"}, rt).value;
    d1 := Overrides(d0, DecorList).value;
  }

  /** `Resolve` in terms of its three stages. */
  lemma ResolveParts(cls: map<string, PyVal>, fn: map<string, PyVal>, args: map<string, PyVal>,
                     kwargs: map<string, PyVal>, rt: Runtime)
    requires Resolve(cls, fn, args, kwargs, rt).Ok?
    ensures Declared(cls, fn, args, kwargs - {"__session"}, rt).Ok?
    ensures var d0 := Declared(cls, fn, args, kwargs - {"__session"}, rt).value;
      && Overrides(d0, DecorList).Ok?
      && Resolve(cls, fn, args, kwargs, rt) == Finish(Overrides(d0, DecorList).value, rt, SessionOf(kwargs))
  {
    CallTimeIsLoop(Declared(cls, fn, args, kwargs - {"__session"}, rt).value);
  }
}
