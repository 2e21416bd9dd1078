/**
 * What the request synthesis of `call` guarantees end to end, stated on
 * `Resolution.Resolve`: which source wins for each part of the request.
 */
module Precedence {
  import opened Wrappers
  import opened Dicts
  import opened PyValues
  import opened Store
  import opened Synthesis
  import opened Overriding
  import opened Resolution

  /** Timeout precedence: a call-time `timeout` wins, then a truthy method timeout, then the class timeout. */
  lemma ResolveTimeout(cls: map<string, PyVal>, fn: map<string, PyVal>, args: map<string, PyVal>,
                       kwargs: map<string, PyVal>, rt: Runtime)
    requires Resolve(cls, fn, args, kwargs, rt).Ok?
    ensures Resolve(cls, fn, args, kwargs, rt).value.timeout ==
      if "timeout" in kwargs then kwargs["timeout"] else DeclaredTimeout(cls, fn)
  {
    ResolveParts(cls, fn, args, kwargs, rt);
    DeclaredParts(cls, fn, args, kwargs - {"__session"}, rt);
    var d0 := Declared(cls, fn, args, kwargs - {"__session"}, rt).value;
    SessionNotReserved(kwargs);
    OverridesScalars(d0);
    FinishKeeps(Overrides(d0, DecorList).value, rt, SessionOf(kwargs));
  }

  /** Stream precedence: a call-time `stream` wins, then the method's flag unless absent, then the class flag. */
  lemma ResolveStream(cls: map<string, PyVal>, fn: map<string, PyVal>, args: map<string, PyVal>,
                      kwargs: map<string, PyVal>, rt: Runtime)
    requires Resolve(cls, fn, args, kwargs, rt).Ok?
    ensures Resolve(cls, fn, args, kwargs, rt).value.stream ==
      if "stream" in kwargs then kwargs["stream"] else DeclaredStream(cls, fn)
  {
    ResolveParts(cls, fn, args, kwargs, rt);
    DeclaredParts(cls, fn, args, kwargs - {"__session"}, rt);
    var d0 := Declared(cls, fn, args, kwargs - {"__session"}, rt).value;
    SessionNotReserved(kwargs);
    OverridesScalars(d0);
    FinishKeeps(Overrides(d0, DecorList).value, rt, SessionOf(kwargs));
  }

  /** The resolved timeout and stream flag reach the transport exactly when they are truthy. */
  lemma ResolveSendsTimeoutAndStream(cls: map<string, PyVal>, fn: map<string, PyVal>, args: map<string, PyVal>,
                                     kwargs: map<string, PyVal>, rt: Runtime)
    requires Resolve(cls, fn, args, kwargs, rt).Ok?
    ensures var r := Resolve(cls, fn, args, kwargs, rt).value;
      && ("timeout" in r.kwargs <==> Truthy(r.timeout))
      && (Truthy(r.timeout) ==> r.kwargs["timeout"] == r.timeout)
      && ("stream" in r.kwargs <==> Truthy(r.stream))
      && (Truthy(r.stream) ==> r.kwargs["stream"] == r.stream)
  {
    ResolveParts(cls, fn, args, kwargs, rt);
    var d1 := Overrides(Declared(cls, fn, args, kwargs - {"__session"}, rt).value, DecorList).value;
    OverridesScalars(Declared(cls, fn, args, kwargs - {"__session"}, rt).value);
    FinishKwargs(d1, rt, SessionOf(kwargs));
  }

  /** Query parameters: a call-time `query` entry wins over the parameter bound from the call arguments. */
  lemma ResolveQuery(cls: map<string, PyVal>, fn: map<string, PyVal>, args: map<string, PyVal>,
                     kwargs: map<string, PyVal>, rt: Runtime, q: PyVal)
    requires Resolve(cls, fn, args, kwargs, rt).Ok?
    ensures MergedArgs(fn, "query", args).Ok?
    ensures MGet(Resolve(cls, fn, args, kwargs, rt).value.query, q) ==
      if "query" in kwargs && MHas(kwargs["query"], q) then MGet(kwargs["query"], q)
      else MGet(MergedArgs(fn, "query", args).value, q)
  {
    var d0, d1 := ResolveStages(cls, fn, args, kwargs, rt);
    DeclaredSlots(cls, fn, args, kwargs - {"__session"}, rt);
    SessionNotReserved(kwargs);
    OverridesQuery(d0, d1, q);
    FinishKeeps(d1, rt, SessionOf(kwargs));
  }

  /** Form parameters: a call-time `form` entry wins over the parameter bound from the call arguments. */
  lemma ResolveForm(cls: map<string, PyVal>, fn: map<string, PyVal>, args: map<string, PyVal>,
                    kwargs: map<string, PyVal>, rt: Runtime, q: PyVal)
    requires Resolve(cls, fn, args, kwargs, rt).Ok?
    ensures MergedArgs(fn, "form", args).Ok?
    ensures MGet(Resolve(cls, fn, args, kwargs, rt).value.form, q) ==
      if "form" in kwargs && MHas(kwargs["form"], q) then MGet(kwargs["form"], q)
      else MGet(MergedArgs(fn, "form", args).value, q)
  {
    var d0, d1 := ResolveStages(cls, fn, args, kwargs, rt);
    DeclaredSlots(cls, fn, args, kwargs - {"__session"}, rt);
    SessionNotReserved(kwargs);
    OverridesForm(d0, d1, q);
    FinishKeeps(d1, rt, SessionOf(kwargs));
  }

  /** Multipart parameters: a call-time `multipart` entry wins over the parameter bound from the call arguments. */
  lemma ResolveMultipart(cls: map<string, PyVal>, fn: map<string, PyVal>, args: map<string, PyVal>,
                         kwargs: map<string, PyVal>, rt: Runtime, q: PyVal)
    requires Resolve(cls, fn, args, kwargs, rt).Ok?
    ensures MergedArgs(fn, "multipart", args).Ok?
    ensures MGet(Resolve(cls, fn, args, kwargs, rt).value.multipart, q) ==
      if "multipart" in kwargs && MHas(kwargs["multipart"], q) then MGet(kwargs["multipart"], q)
      else MGet(MergedArgs(fn, "multipart", args).value, q)
  {
    var d0, d1 := ResolveStages(cls, fn, args, kwargs, rt);
    DeclaredSlots(cls, fn, args, kwargs - {"__session"}, rt);
    SessionNotReserved(kwargs);
    OverridesMultipart(d0, d1, q);
    FinishKeeps(d1, rt, SessionOf(kwargs));
  }

  /**
   * Status handlers: a call-time `on` entry wins, then the method's handler,
   * then the class handler, when the declarations hold plain dicts (as `@on`
   * stores them).
   */
  lemma ResolveHandlers(cls: map<string, PyVal>, fn: map<string, PyVal>, args: map<string, PyVal>,
                        kwargs: map<string, PyVal>, rt: Runtime, status: PyVal)
    requires Resolve(cls, fn, args, kwargs, rt).Ok?
    requires Read(cls, "on") == PNone || Read(cls, "on").PDict?
    requires Read(fn, "on") == PNone || Read(fn, "on").PDict?
    ensures MGet(Resolve(cls, fn, args, kwargs, rt).value.handlers, status) ==
      if "on" in kwargs && MHas(kwargs["on"], status) then MGet(kwargs["on"], status)
      else if MHas(Read(fn, "on"), status) then MGet(Read(fn, "on"), status)
      else MGet(Read(cls, "on"), status)
  {
    var d0, d1 := ResolveStages(cls, fn, args, kwargs, rt);
    DeclaredHandlers(cls, fn, args, kwargs - {"__session"}, rt, d0, status);
    OverridesHandlers(d0, d1, status);
    FinishKeeps(d1, rt, SessionOf(kwargs));
  }

  /** The accept header is always sent, and a call-time `accept` is the one sent. */
  lemma ResolveAccept(cls: map<string, PyVal>, fn: map<string, PyVal>, args: map<string, PyVal>,
                      kwargs: map<string, PyVal>, rt: Runtime)
    requires Resolve(cls, fn, args, kwargs, rt).Ok?
    ensures var r := Resolve(cls, fn, args, kwargs, rt).value;
      && MHas(r.headers, PStr("accept"))
      && ("accept" in kwargs ==> MGet(r.headers, PStr("accept")) == Some(kwargs["accept"]))
  {
    var d0, d1 := ResolveStages(cls, fn, args, kwargs, rt);
    ContentTypeIsNotAccept(d1.headers);
    OverridesHeaders(d0, PStr("accept"));
    FinishHeaders(d1, rt, SessionOf(kwargs));
  }

  /**
   * The content type: present unless the request is multipart; form
   * parameters force the form content type and travel as `data`; otherwise a
   * call-time `content` is the content type sent. The final headers are what
   * the transport receives.
   */
  lemma ResolveContentType(cls: map<string, PyVal>, fn: map<string, PyVal>, args: map<string, PyVal>,
                           kwargs: map<string, PyVal>, rt: Runtime)
    requires Resolve(cls, fn, args, kwargs, rt).Ok?
    ensures var r := Resolve(cls, fn, args, kwargs, rt).value;
      && (!r.isMultipart ==> MHas(r.headers, PStr("content-type")))
      && (Truthy(r.form) ==> MGet(r.headers, PStr("content-type")) == Some(PStr(FormType))
                              && "data" in r.kwargs && r.kwargs["data"] == r.form)
      && (!Truthy(r.form) && "content" in kwargs ==> MGet(r.headers, PStr("content-type")) == Some(kwargs["content"]))
      && "headers" in r.kwargs && r.kwargs["headers"] == PDict(MItems(r.headers))
  {
    var d0, d1 := ResolveStages(cls, fn, args, kwargs, rt);
    OverridesHeaders(d0, PStr("content-type"));
    FinishHeaders(d1, rt, SessionOf(kwargs));
    FinishKeeps(d1, rt, SessionOf(kwargs));
  }

  /**
   * Any other header reads as the declared headers with a call-time `header`
   * dict merged over them (`Synthesis.DeclaredHeaderLayers` says how the
   * declared headers are layered).
   */
  lemma ResolveOtherHeaders(cls: map<string, PyVal>, fn: map<string, PyVal>, args: map<string, PyVal>,
                            kwargs: map<string, PyVal>, rt: Runtime, q: PyVal)
    requires Resolve(cls, fn, args, kwargs, rt).Ok? && !Defaulted(q)
    ensures Declared(cls, fn, args, kwargs - {"__session"}, rt).Ok?
    ensures var declared := Declared(cls, fn, args, kwargs - {"__session"}, rt).value.headers;
      && ("header" in kwargs ==> MergeDicts(declared, kwargs["header"]).Ok?)
      && MGet(Resolve(cls, fn, args, kwargs, rt).value.headers, q) ==
           MGet(if "header" in kwargs then MergeDicts(declared, kwargs["header"]).value else declared, q)
  {
    var d0, d1 := ResolveStages(cls, fn, args, kwargs, rt);
    NotDefaulted(d1.headers, q);
    OverridesHeaders(d0, q);
    FinishOtherHeaders(d1, rt, SessionOf(kwargs), q);
  }

  /** The body: a call-time `body` replaces the declared body argument (after its serializer). */
  lemma ResolveBody(cls: map<string, PyVal>, fn: map<string, PyVal>, args: map<string, PyVal>,
                    kwargs: map<string, PyVal>, rt: Runtime)
    requires Resolve(cls, fn, args, kwargs, rt).Ok?
    ensures BodyContent(fn, args, rt).Ok?
    ensures Resolve(cls, fn, args, kwargs, rt).value.body ==
      if "body" in kwargs then kwargs["body"] else BodyContent(fn, args, rt).value
  {
    ResolveParts(cls, fn, args, kwargs, rt);
    DeclaredParts(cls, fn, args, kwargs - {"__session"}, rt);
    DeclaredSlots(cls, fn, args, kwargs - {"__session"}, rt);
    var d0 := Declared(cls, fn, args, kwargs - {"__session"}, rt).value;
    SessionNotReserved(kwargs);
    OverridesScalars(d0);
    FinishKeeps(Overrides(d0, DecorList).value, rt, SessionOf(kwargs));
  }

  /**
   * Keyword arguments: `__session` becomes the session, every reserved
   * argument is consumed (it reaches the transport only as a keyword `call`
   * sets itself), and every other argument is forwarded unchanged unless
   * `call` sets that keyword itself.
   */
  lemma ResolveForwarding(cls: map<string, PyVal>, fn: map<string, PyVal>, args: map<string, PyVal>,
                          kwargs: map<string, PyVal>, rt: Runtime)
    requires Resolve(cls, fn, args, kwargs, rt).Ok?
    ensures var r := Resolve(cls, fn, args, kwargs, rt).value;
      && r.session == SessionOf(kwargs)
      && (forall k: Decor :: Name(k) in r.kwargs ==> Name(k) in EngineKeys)
      && (forall s :: s in r.kwargs && s !in EngineKeys ==> s in kwargs && s != "__session" && r.kwargs[s] == kwargs[s])
      && (forall s :: s in kwargs && s != "__session" && s !in ReservedNames && s !in EngineKeys ==>
            s in r.kwargs && r.kwargs[s] == kwargs[s])
  {
    ResolveParts(cls, fn, args, kwargs, rt);
    DeclaredParts(cls, fn, args, kwargs - {"__session"}, rt);
    var d0 := Declared(cls, fn, args, kwargs - {"__session"}, rt).value;
    OverridesConsumeAll(d0);
    FinishForwards(Overrides(d0, DecorList).value, rt, SessionOf(kwargs));
  }

  /** A reserved argument whose value is not of the expected class makes the call fail. */
  lemma ResolveRejectsIllTyped(cls: map<string, PyVal>, fn: map<string, PyVal>, args: map<string, PyVal>,
                               kwargs: map<string, PyVal>, rt: Runtime, k: Decor)
    requires Name(k) in kwargs && !IsInstance(kwargs[Name(k)], Expected(k))
    ensures Resolve(cls, fn, args, kwargs, rt).Err?
  {
    if Resolve(cls, fn, args, kwargs, rt).Ok? {
      ResolveParts(cls, fn, args, kwargs, rt);
      DeclaredParts(cls, fn, args, kwargs - {"__session"}, rt);
      var d0 := Declared(cls, fn, args, kwargs - {"__session"}, rt).value;
      OverridesConsumeAll(d0);
      SessionNotReserved(kwargs);
      assert false;
    }
  }

  // ---------------------------------------------------------------------
  // Plain header maps
  // ---------------------------------------------------------------------

  /** A method declaring `@content('text/plain')` and `@accept('text/xml')` on a class without headers. */
  const PlainClient: map<string, PyVal> := map[]
  const TextMethod: map<string, PyVal> :=
    map["header" := PCIDict([("content-type", ("Content-Type", PStr("text/plain"))),
                             ("accept", ("Accept", PStr("text/xml")))])]

  /** The method's header entries, copied into a plain dict with their letter case. */
  const TextHeaders: PyVal := PDict([(PStr("Content-Type"), PStr("text/plain")), (PStr("Accept"), PStr("text/xml"))])

  /** The items of `TextMethod`'s header declaration, keys in their written case. */
  lemma TextItems()
    ensures MItems(TextMethod["header"]) == TextHeaders.items
  {
  }

  /** No header entry of `TextMethod` names a bound argument, so nothing is captured. */
  lemma TextCaptures(fn: map<string, PyVal>, args: map<string, PyVal>)
    requires "header" in fn && fn["header"] == TextMethod["header"]
    requires "Content-Type" !in args && "Accept" !in args
    ensures MergedArgs(fn, "header", args) == Ok(PDict([]))
  {
    var items := TextHeaders.items;
    TextItems();
    assert !Bound(args, items[0].0) && !Bound(args, items[1].0);
    assert HashesAll(items, args);
    assert items[..1][..0] == [];
    assert BindArgs(items[..1], args) == [];
    assert items[..2] == items;
  }

  /** The first literal of `TextMethod` set into the empty plain dict. */
  lemma TextFirstLiteral(args: map<string, PyVal>)
    requires "text/plain" !in args
    ensures Literals(PDict([]), TextHeaders.items[..1], args) == Ok(PDict(TextHeaders.items[..1]))
  {
    var decl := TextHeaders.items[..1];
    assert decl[..0] == [];
    assert Put(decl[..0], decl[0].0, decl[0].1) == decl;
  }

  /** Both literal values are set, in order, into the empty plain dict. */
  lemma TextLiterals(args: map<string, PyVal>)
    requires "text/plain" !in args && "text/xml" !in args
    ensures Literals(PDict([]), TextHeaders.items, args) == Ok(TextHeaders)
  {
    var items := TextHeaders.items;
    TextFirstLiteral(args);
    assert items[..|items| - 1] == items[..1];
    assert PStr("Accept") != PStr("Content-Type") by { assert "Accept"[0] != "Content-Type"[0]; }
    assert !Has(items[..1], PStr("Accept"));
    assert items[..1] + [items[1]] == items;
  }

  /** The declared header map of `TextMethod`: no class headers, no captures, the two literals. */
  lemma TextMethodHeaders(fn: map<string, PyVal>, args: map<string, PyVal>)
    requires "header" in fn && fn["header"] == TextMethod["header"]
    requires "Content-Type" !in args && "Accept" !in args
    requires "text/plain" !in args && "text/xml" !in args
    ensures DeclaredHeaders(PlainClient, fn, args) == Ok(TextHeaders)
  {
    TextCaptures(fn, args);
    TextItems();
    TextLiterals(args);
    assert MergeDicts(Read(PlainClient, "header"), PDict([])) == Ok(PDict([]));
    assert Truthy(fn["header"]) && IsMapping(fn["header"]);
  }

  /** The defaults of `call` on `TextHeaders`: both default keys are new to the plain dict. */
  lemma TextHeadersDefaults()
    ensures DefaultHeaders(TextHeaders, false) ==
      Ok(PDict(TextHeaders.items + [(PStr("content-type"), PStr(JsonType)), (PStr("accept"), PStr(JsonType))]))
  {
    var ct, ac := PStr("content-type"), PStr("accept");
    assert ct != PStr("Content-Type") by { assert "content-type"[0] != "Content-Type"[0]; }
    assert ct != PStr("Accept") by { assert "content-type"[0] != "Accept"[0]; }
    assert ac != PStr("Content-Type") by { assert "accept"[0] != "Content-Type"[0]; }
    assert ac != PStr("Accept") by { assert "accept"[0] != "Accept"[0]; }
    assert ac != ct by { assert "accept"[0] != "content-type"[0]; }
    var h1 := PDict(TextHeaders.items + [(ct, PStr(JsonType))]);
    assert !MHas(TextHeaders, ct);
    assert MSet(TextHeaders, ct, PStr(JsonType)) == Ok(h1);
    assert !MHas(h1, ac);
    assert MSet(h1, ac, PStr(JsonType)) == Ok(PDict(h1.items + [(ac, PStr(JsonType))]));
    assert h1.items + [(ac, PStr(JsonType))] == TextHeaders.items + [(ct, PStr(JsonType)), (ac, PStr(JsonType))];
  }

  /** Without keyword arguments `call` finishes the declared draft unchanged. */
  lemma ResolveWithoutKeywords(cls: map<string, PyVal>, fn: map<string, PyVal>, args: map<string, PyVal>, rt: Runtime)
    requires Declared(cls, fn, args, map[], rt).Ok?
    ensures Resolve(cls, fn, args, map[], rt) == Finish(Declared(cls, fn, args, map[], rt).value, rt, PNone)
  {
    var none: map<string, PyVal> := map[];
    assert none - {"__session"} == none;
    DeclaredParts(cls, fn, args, none, rt);
  }

  /** The draft of a method declaring only `TextMethod`'s headers and perhaps a body. */
  lemma TextDraft(fn: map<string, PyVal>, args: map<string, PyVal>, rt: Runtime)
    requires "header" in fn && fn["header"] == TextMethod["header"]
    requires "query" !in fn && "form" !in fn && "multipart" !in fn && "on" !in fn
    requires "Content-Type" !in args && "Accept" !in args
    requires "text/plain" !in args && "text/xml" !in args
    requires BodyContent(fn, args, rt).Ok?
    ensures Declared(PlainClient, fn, args, map[], rt) ==
      Ok(Draft(PDict([]), PDict([]), PDict([]), TextHeaders, BodyContent(fn, args, rt).value, PNone,
               DeclaredTimeout(PlainClient, fn), DeclaredStream(PlainClient, fn), map[]))
  {
    TextMethodHeaders(fn, args);
    assert MergedArgs(fn, "query", args) == Ok(PDict([]));
    assert MergedArgs(fn, "form", args) == Ok(PDict([]));
    assert MergedArgs(fn, "multipart", args) == Ok(PDict([]));
    assert MergeDicts(Read(PlainClient, "on"), Read(fn, "on")) == Ok(PNone);
  }

  /** `call` finishing a draft with `TextMethod`'s headers, no form, no files and no keyword arguments. */
  lemma TextFinish(d: Draft, rt: Runtime, session: PyVal)
    requires d.headers == TextHeaders && d.form == PDict([]) && d.multipart == PDict([]) && d.kwargs == map[]
    ensures Finish(d, rt, session).Ok?
    ensures var h := DefaultHeaders(TextHeaders, false).value;
      && Finish(d, rt, session).value.headers == h
      && Finish(d, rt, session).value.kwargs == TransportKwargs(d, rt, h, h)
  {
    TextHeadersDefaults();
    assert !IsMultipartRequest(d, rt);
  }

  /** After the defaults, the exact key `content-type` holds the JSON type. */
  lemma TextDefaultsJson()
    ensures DefaultHeaders(TextHeaders, false).Ok?
    ensures MGet(DefaultHeaders(TextHeaders, false).value, PStr("content-type")) == Some(PStr(JsonType))
  {
    TextHeadersDefaults();
    var e := TextHeaders.items + [(PStr("content-type"), PStr(JsonType)), (PStr("accept"), PStr(JsonType))];
    assert PStr("accept") != PStr("content-type") by { assert "accept"[0] != "content-type"[0]; }
    assert e[..|e| - 1] == TextHeaders.items + [(PStr("content-type"), PStr(JsonType))];
  }

  /** A dict bound to the `payload` argument is the body, and names none of `TextMethod`'s headers. */
  lemma PayloadArgument(body: Items<PyVal, PyVal>, rt: Runtime)
    requires body != []
    ensures var fn := TextMethod["body" := PTuple([PStr("payload"), PNone])];
      var args := map["payload" := PDict(body)];
      && "Content-Type" !in args && "Accept" !in args && "text/plain" !in args && "text/xml" !in args
      && BodyContent(fn, args, rt) == Ok(PDict(body))
  {
    assert "Content-Type"[0] != "payload"[0] && "Accept"[0] != "payload"[0];
    assert "text/plain"[0] != "payload"[0] && "text/xml"[0] != "payload"[0];
  }

  /**
   * Without class headers the header map is `merge_dicts(None, {})`, a plain
   * dict whose keys compare exactly. The method's `Content-Type` and
   * `Accept` entries are copied in with their letter case, and the defaults
   * are added beside them under `content-type` and `accept`, so each header
   * reaches the transport twice.
   */
  lemma PlainHeadersDuplicateDefaults(rt: Runtime)
    ensures Resolve(PlainClient, TextMethod, map[], map[], rt).Ok?
    ensures Resolve(PlainClient, TextMethod, map[], map[], rt).value.headers ==
      PDict([(PStr("Content-Type"), PStr("text/plain")), (PStr("Accept"), PStr("text/xml")),
             (PStr("content-type"), PStr(JsonType)), (PStr("accept"), PStr(JsonType))])
  {
    TextDraft(TextMethod, map[], rt);
    ResolveWithoutKeywords(PlainClient, TextMethod, map[], rt);
    TextFinish(Declared(PlainClient, TextMethod, map[], map[], rt).value, rt, PNone);
    TextHeadersDefaults();
  }

  /**
   * The JSON encoding of a dict body looks at the exact key `content-type`,
   * so with the method's `Content-Type: text/plain` beside the default a
   * dict body is still sent as JSON text.
   */
  lemma PlainHeadersEncodeJson(rt: Runtime, body: Items<PyVal, PyVal>)
    requires body != []
    ensures var fn := TextMethod["body" := PTuple([PStr("payload"), PNone])];
      var args := map["payload" := PDict(body)];
      var key := if rt.backend == Httpx then "content" else "data";
      && Resolve(PlainClient, fn, args, map[], rt).Ok?
      && key in Resolve(PlainClient, fn, args, map[], rt).value.kwargs
      && Resolve(PlainClient, fn, args, map[], rt).value.kwargs[key] == PStr(rt.dumps(PDict(body)))
  {
    var fn := TextMethod["body" := PTuple([PStr("payload"), PNone])];
    var args := map["payload" := PDict(body)];
    PayloadArgument(body, rt);
    TextDraft(fn, args, rt);
    ResolveWithoutKeywords(PlainClient, fn, args, rt);
    var d := Declared(PlainClient, fn, args, map[], rt).value;
    TextFinish(d, rt, PNone);
    TextDefaultsJson();
    var h := DefaultHeaders(TextHeaders, false).value;
    BodyEncoding(d, rt, h, h);
  }
}
