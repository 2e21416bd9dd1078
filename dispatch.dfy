/**
 * From the resolved request to the transport call: the verb check, the
 * execution context, the httpx streaming path, the multipart content-type
 * removal for POST (lines 448-477 of `call`) and `__dispatch` (lines 508-525).
 */
module Dispatch {
  import opened Wrappers
  import opened Dicts
  import opened PyValues
  import opened Synthesis
  import opened Resolution

  /** The seven `HttpMethod` members `call` accepts. */
  const SupportedVerbs: set<string> := {"GET", "POST", "PUT", "PATCH", "DELETE", "HEAD", "OPTIONS"}

  /** The attribute names `__dispatch` calls for them. */
  const Attributes: set<string> := {"get", "post", "put", "patch", "delete", "head", "options"}

  /** `http_method in (HttpMethod.GET, ..., HttpMethod.OPTIONS)` */
  predicate Supported(verb: PyVal) {
    verb.PMethod? && verb.name in SupportedVerbs
  }

  /** `str(v)` for what a verb decoration can hold: an `HttpMethod` member, a string or nothing. */
  function Describe(v: PyVal): string {
    match v
    case PMethod(n) => "HttpMethod." + n
    case PStr(s) => s
    case PNone => "None"
    case _ => "<object>"
  }

  /** Lines 448-455: the session passed as `__session` if truthy, else the backend's module. */
  datatype Context = SessionContext(session: PyVal) | RequestsModule | HttpxModule

  function ContextOf(session: PyVal, backend: Backend): (c: Context)
    ensures c.SessionContext? <==> Truthy(session)
    ensures !Truthy(session) ==> (c == RequestsModule <==> backend == Requests)
  {
    if Truthy(session) then SessionContext(session)
    else if backend == Requests then RequestsModule
    else HttpxModule
  }

  /**
   * The call made on the context: `ctx.stream("GET", req, **kwargs)` when
   * `streaming`, `ctx.<verb>(req, **kwargs)` otherwise.
   */
  datatype Invocation = Invocation(ctx: Context, streaming: bool, verb: string, req: PyVal, kwargs: map<string, PyVal>)

  /** Lines 520-523 (`__dispatch`): a string is the attribute itself, a member its name lower-cased. */
  function Attribute(verb: PyVal): string
    requires verb.PStr? || verb.PMethod?
  {
    if verb.PStr? then verb.s else Lower(verb.name)
  }

  /** Lines 471-473: `kwargs['headers'].pop('content-type', None)`, on the plain dict of final headers. */
  function WithoutContentType(h: PyVal): PyVal {
    if h.PDict? then PDict(Remove(h.items, PStr("content-type"))) else h
  }

  /** Lines 457-477 up to the transport: the verb check, then the call to make. */
  function Prepare(r: Resolved, rt: Runtime, verb: PyVal): Fallible<Invocation> {
    if !Supported(verb) then Err(ValueError("Unsupported HTTP method: " + Describe(verb)))
    else
      var ctx := ContextOf(r.session, rt.backend);
      if rt.backend == Httpx && verb == PMethod("GET") && Truthy(r.stream) then
        Ok(Invocation(ctx, true, "GET", rt.request, r.kwargs - {"stream"}))
      else
        var kwargs := if verb == PMethod("POST") && r.isMultipart && "headers" in r.kwargs
                      then r.kwargs["headers" := WithoutContentType(r.kwargs["headers"])]
                      else r.kwargs;
        Ok(Invocation(ctx, false, Attribute(verb), rt.request, kwargs))
  }

  // ---------------------------------------------------------------------
  // Properties
  // ---------------------------------------------------------------------

  /** Each supported member is called through its lower-case attribute. */
  lemma AttributeOfSupported(verb: PyVal)
    requires Supported(verb)
    ensures Attribute(verb) in Attributes
  {
    var n := verb.name;
    if n == "GET" { assert Lower(n) == "get"; }
    else if n == "POST" { assert Lower(n) == "post"; }
    else if n == "PUT" { assert Lower(n) == "put"; }
    else if n == "PATCH" { assert Lower(n) == "patch"; }
    else if n == "DELETE" { assert Lower(n) == "delete"; }
    else if n == "HEAD" { assert Lower(n) == "head"; }
    else { assert Lower(n) == "options"; }
  }

  /** Any verb outside the seven is refused with `ValueError`, and only such a verb is. */
  lemma PrepareChecksVerb(r: Resolved, rt: Runtime, verb: PyVal)
    ensures Prepare(r, rt, verb).Err? <==> !Supported(verb)
    ensures !Supported(verb) ==> Prepare(r, rt, verb) == Err(ValueError("Unsupported HTTP method: " + Describe(verb)))
  {
  }

  /** Lines 464-467: a streaming httpx GET goes through `stream("GET", ...)` without the `stream` keyword. */
  lemma PrepareStreamsHttpxGet(r: Resolved, rt: Runtime)
    requires rt.backend == Httpx && Truthy(r.stream)
    ensures Prepare(r, rt, PMethod("GET")).Ok?
    ensures var inv := Prepare(r, rt, PMethod("GET")).value;
      && inv.streaming && inv.verb == "GET" && inv.req == rt.request
      && "stream" !in inv.kwargs
      && forall k :: k in r.kwargs && k != "stream" ==> k in inv.kwargs && inv.kwargs[k] == r.kwargs[k]
  {
  }

  /**
   * Every other supported call goes through the member's attribute with the
   * resolved keyword arguments; only a multipart POST loses the exact
   * `content-type` key of its headers, every other header staying as it was.
   */
  lemma PrepareDispatches(r: Resolved, rt: Runtime, verb: PyVal)
    requires Supported(verb) && !(rt.backend == Httpx && verb == PMethod("GET") && Truthy(r.stream))
    ensures Prepare(r, rt, verb).Ok?
    ensures var inv := Prepare(r, rt, verb).value;
      && !inv.streaming && inv.verb == Lower(verb.name) && inv.verb in Attributes
      && inv.ctx == ContextOf(r.session, rt.backend) && inv.req == rt.request
      && inv.kwargs.Keys == r.kwargs.Keys
      && (forall k :: k in r.kwargs && k != "headers" ==> inv.kwargs[k] == r.kwargs[k])
      && (!(verb == PMethod("POST") && r.isMultipart) ==> inv.kwargs == r.kwargs)
      && (verb == PMethod("POST") && r.isMultipart && "headers" in r.kwargs && r.kwargs["headers"].PDict? ==>
            forall q :: MGet(inv.kwargs["headers"], q) ==
              if q == PStr("content-type") then None else MGet(r.kwargs["headers"], q))
  {
    AttributeOfSupported(verb);
    if verb == PMethod("POST") && r.isMultipart && "headers" in r.kwargs && r.kwargs["headers"].PDict? {
      var h := r.kwargs["headers"];
      forall q ensures MGet(WithoutContentType(h), q) == if q == PStr("content-type") then None else MGet(h, q) {
        GetRemove(h.items, PStr("content-type"), q);
      }
    }
  }

  /** The removal is by exact key: a content type written in another letter case stays. */
  lemma WithoutContentTypeIsExact(v: PyVal)
    ensures WithoutContentType(PDict([(PStr("Content-Type"), v)])) == PDict([(PStr("Content-Type"), v)])
  {
    var items := [(PStr("Content-Type"), v)];
    assert PStr("Content-Type") != PStr("content-type") by {
      assert "Content-Type"[0] != "content-type"[0];
    }
    assert Remove(items[..0], PStr("content-type")) == [];
  }
}
