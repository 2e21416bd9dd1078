/**
 * Request synthesis in `HttpMethodDecorator.call`: the class declarations,
 * the method declarations, the bound call arguments and the reserved
 * call-time keyword arguments are combined into one resolved request.
 */
module Synthesis {
  import opened Wrappers
  import opened Dicts
  import opened PyValues
  import opened Store

  const JsonType := "application/json"
  const FormType := "application/x-www-form-urlencoded"

  datatype Backend = Requests | Httpx

  /** What `call` obtains from code outside this model. */
  datatype Runtime = Runtime(
    backend: Backend,                      // rest_client._backend()
    auth: PyVal,                           // rest_client._auth()
    request: PyVal,                        // rest_client.build_request(path.split('/'))
    serialize: (PyVal, PyVal) -> PyVal,    // a @body serializer applied to the body
    dumps: PyVal -> string,                // json.dumps
    isEncoder: PyVal -> bool)              // isinstance(_, MultipartEncoder)

  // ---------------------------------------------------------------------
  // Binding arguments to declared parameters (`__merge_args`)
  // ---------------------------------------------------------------------

  /** `args_dict.get(arg)` is truthy. */
  predicate Bound(args: map<string, PyVal>, arg: PyVal) {
    arg.PStr? && arg.s in args && Truthy(args[arg.s])
  }

  /** The loop of `__merge_args` over the declared (argument, parameter) pairs, in declaration order. */
  function BindArgs(decl: Items<PyVal, PyVal>, args: map<string, PyVal>): Items<PyVal, PyVal>
    decreases |decl|
  {
    if decl == [] then []
    else
      var rest := BindArgs(decl[..|decl| - 1], args);
      var arg := decl[|decl| - 1].0;
      if Bound(args, arg) then Put(rest, decl[|decl| - 1].1, args[arg.s]) else rest
  }

  /**
   * The loop of `__merge_args` can hash what it must: every declared argument
   * name (looked up in the call arguments) and the parameter name of every
   * bound one (stored as a key).
   */
  predicate HashesAll(decl: Items<PyVal, PyVal>, args: map<string, PyVal>) {
    forall i :: 0 <= i < |decl| ==> Hashable(decl[i].0) && (Bound(args, decl[i].0) ==> Hashable(decl[i].1))
  }

  /** `__merge_args(args_dict, func, decor)` over the function's entries. */
  function MergedArgs(fn: map<string, PyVal>, decor: string, args: map<string, PyVal>): Fallible<PyVal> {
    var declared := Read(fn, decor);
    if !Truthy(declared) then Ok(PDict([]))
    else if !IsMapping(declared) then Err(AttributeError("object has no attribute 'items'"))
    else if !HashesAll(MItems(declared), args) then Err(TypeError(UnhashableMessage))
    else Ok(PDict(BindArgs(MItems(declared), args)))
  }

  /**
   * `__merge_args` fails exactly when the declaration is a truthy non-mapping
   * or holds a name the loop cannot hash; otherwise it yields a plain dict.
   */
  lemma MergedArgsOutcome(fn: map<string, PyVal>, decor: string, args: map<string, PyVal>)
    ensures var declared := Read(fn, decor);
      MergedArgs(fn, decor, args).Err? <==>
        Truthy(declared) && (!IsMapping(declared) || !HashesAll(MItems(declared), args))
    ensures var declared := Read(fn, decor);
      Truthy(declared) && IsMapping(declared) && !HashesAll(MItems(declared), args) ==>
        MergedArgs(fn, decor, args) == Err(TypeError(UnhashableMessage))
    ensures MergedArgs(fn, decor, args).Ok? ==> MergedArgs(fn, decor, args).value.PDict?
  {
  }

  /**
   * A parameter is bound exactly when some declared argument for it is truthy,
   * and it is bound to the value of the last such argument.
   */
  lemma {:induction false} BindArgsBinds(decl: Items<PyVal, PyVal>, args: map<string, PyVal>, p: PyVal)
    ensures Has(BindArgs(decl, args), p) <==>
      exists i :: 0 <= i < |decl| && decl[i].1 == p && Bound(args, decl[i].0)
    ensures Has(BindArgs(decl, args), p) ==>
      exists i :: 0 <= i < |decl| && decl[i].1 == p && Bound(args, decl[i].0)
        && Get(BindArgs(decl, args), p) == Some(args[decl[i].0.s])
        && forall j :: i < j < |decl| && decl[j].1 == p ==> !Bound(args, decl[j].0)
  {
    if decl != [] {
      var n := |decl| - 1;
      var pre := decl[..n];
      var rest := BindArgs(pre, args);
      BindArgsBinds(pre, args, p);
      assert forall i :: 0 <= i < n ==> pre[i] == decl[i];
      if Bound(args, decl[n].0) {
        GetPut(rest, decl[n].1, args[decl[n].0.s], p);
      }
      if Bound(args, decl[n].0) && decl[n].1 == p {
        assert Get(BindArgs(decl, args), p) == Some(args[decl[n].0.s]);
      } else {
        assert Get(BindArgs(decl, args), p) == Get(rest, p);
      }
    }
  }

  /** `__merge_args` as the loop it is. */
  method MergeArgs(args: map<string, PyVal>, func: Declaration, decor: string) returns (r: Fallible<PyVal>)
    ensures r == MergedArgs(func.Entries(), decor, args)
  {
    var declared := func.GetDecor(decor);
    if !Truthy(declared) {
      return Ok(PDict([]));
    }
    if !IsMapping(declared) {
      return Err(AttributeError("object has no attribute 'items'"));
    }
    var items := MItems(declared);
    var parameters: Items<PyVal, PyVal> := [];
    for i := 0 to |items|
      invariant HashesAll(items[..i], args)
      invariant parameters == BindArgs(items[..i], args)
    {
      var (arg, param) := items[i];
      if !Hashable(arg) {
        assert !HashesAll(items, args) by { assert items[i].0 == arg; }
        return Err(TypeError(UnhashableMessage));
      }
      if arg.PStr? && arg.s in args && Truthy(args[arg.s]) {
        if !Hashable(param) {
          assert !HashesAll(items, args) by { assert items[i] == (arg, param); }
          return Err(TypeError(UnhashableMessage));
        }
        parameters := Put(parameters, param, args[arg.s]);
      }
      assert items[..i + 1][..i] == items[..i];
    }
    assert items[..|items|] == items;
    r := Ok(PDict(parameters));
  }

  // ---------------------------------------------------------------------
  // Method-level header literals (lines 293-297)
  // ---------------------------------------------------------------------

  /** The declared header value is the name of a call argument (`value in args_dict`). */
  predicate NamesArgument(v: PyVal, args: map<string, PyVal>) {
    v.PStr? && v.s in args
  }

  /** Each declared header whose value does not name an argument is set as a literal, in order. */
  function Literals(h: PyVal, decl: Items<PyVal, PyVal>, args: map<string, PyVal>): Fallible<PyVal>
    decreases |decl|
  {
    if decl == [] then Ok(h)
    else
      var h' :- Literals(h, decl[..|decl| - 1], args);
      var (k, v) := decl[|decl| - 1];
      if !Hashable(v) then Err(TypeError(UnhashableMessage))
      else if NamesArgument(v, args) then Ok(h')
      else MSet(h', k, v)
  }

  /** The value of the last literal (non-argument) declaration addressing `k` in a mapping like `m`. */
  function LastLiteral(m: PyVal, decl: Items<PyVal, PyVal>, args: map<string, PyVal>, k: PyVal): Option<PyVal>
    decreases |decl|
  {
    if decl == [] then None
    else
      var (k', v) := decl[|decl| - 1];
      if SameKey(m, k', k) && !NamesArgument(v, args) then Some(v)
      else LastLiteral(m, decl[..|decl| - 1], args, k)
  }

  /** A literal declaration overrides what the header map held; argument captures leave it alone. */
  lemma {:induction false} LiteralsGet(h: PyVal, decl: Items<PyVal, PyVal>, args: map<string, PyVal>, k: PyVal)
    requires Literals(h, decl, args).Ok?
    ensures var r := Literals(h, decl, args).value;
      && r.PDict? == h.PDict? && r.PCIDict? == h.PCIDict?
      && MGet(r, k) == if LastLiteral(h, decl, args, k).Some? then LastLiteral(h, decl, args, k) else MGet(h, k)
  {
    if decl != [] {
      var pre := decl[..|decl| - 1];
      LiteralsGet(h, pre, args, k);
      var mid := Literals(h, pre, args).value;
      var (k', v) := decl[|decl| - 1];
      if !NamesArgument(v, args) {
        MSetGet(mid, k', v, k);
      }
    }
  }

  /** Once a literal cannot be stored, the rest of the declarations do not matter. */
  lemma {:induction false} LiteralsStopAtError(h: PyVal, decl: Items<PyVal, PyVal>, args: map<string, PyVal>, j: nat)
    requires j <= |decl| && Literals(h, decl[..j], args).Err?
    ensures Literals(h, decl, args) == Literals(h, decl[..j], args)
    decreases |decl| - j
  {
    if j < |decl| {
      assert decl[..j + 1][..j] == decl[..j];
      LiteralsStopAtError(h, decl, args, j + 1);
    } else {
      assert decl[..j] == decl;
    }
  }

  /** A declared header value that cannot be hashed (`value in args_dict`) makes the loop raise `TypeError`. */
  lemma LiteralsRejectUnhashable(h: PyVal, decl: Items<PyVal, PyVal>, args: map<string, PyVal>, i: nat)
    requires i < |decl| && Literals(h, decl[..i], args).Ok? && !Hashable(decl[i].1)
    ensures Literals(h, decl, args) == Err(TypeError(UnhashableMessage))
  {
    assert decl[..i + 1][..i] == decl[..i];
    LiteralsStopAtError(h, decl, args, i + 1);
  }

  /** The header-literal loop of `call`. */
  method ApplyLiterals(h: PyVal, decl: Items<PyVal, PyVal>, args: map<string, PyVal>) returns (r: Fallible<PyVal>)
    ensures r == Literals(h, decl, args)
  {
    var headers := h;
    for i := 0 to |decl|
      invariant Literals(h, decl[..i], args) == Ok(headers)
    {
      assert decl[..i + 1][..i] == decl[..i];
      var (k, v) := decl[i];
      if !Hashable(v) {
        LiteralsStopAtError(h, decl, args, i + 1);
        return Err(TypeError(UnhashableMessage));
      }
      if !(v.PStr? && v.s in args) {
        var next := MSet(headers, k, v);
        if next.Err? {
          LiteralsStopAtError(h, decl, args, i + 1);
          return Err(next.error);
        }
        headers := next.value;
      }
    }
    assert decl[..|decl|] == decl;
    r := Ok(headers);
  }

  // ---------------------------------------------------------------------
  // What the declarations contribute (lines 270-325)
  // ---------------------------------------------------------------------

  /** The request being assembled, as the local variables of `call` hold it. */
  datatype Draft = Draft(
    query: PyVal,                  // query_parameters
    form: PyVal,                   // form_parameters
    multipart: PyVal,              // multipart_parameters
    headers: PyVal,                // header_parameters
    body: PyVal,                   // body_content
    handlers: PyVal,               // on_handlers
    timeout: PyVal,                // request_timeout
    stream: PyVal,                 // is_stream
    kwargs: map<string, PyVal>)    // the keyword arguments still to forward

  /** Lines 301-308: the @body argument, passed through its serializer when both are truthy. */
  function BodyContent(fn: map<string, PyVal>, args: map<string, PyVal>, rt: Runtime): Fallible<PyVal> {
    var binding := Read(fn, "body");
    if !Truthy(binding) then Ok(PNone)
    else if (binding.PTuple? || binding.PList?) && |binding.elems| >= 2 then
      var name := binding.elems[0];
      var content := if name.PStr? && name.s in args then args[name.s] else PNone;
      Ok(if Truthy(content) && Truthy(binding.elems[1]) then rt.serialize(binding.elems[1], content) else content)
    else Err(TypeError("body binding is not a (name, serializer) pair"))
  }

  /** Lines 293-297: the method's header declarations on top of the merged header map. */
  function DeclaredLiterals(h: PyVal, fnHeaders: PyVal, args: map<string, PyVal>): Fallible<PyVal> {
    if !Truthy(fnHeaders) then Ok(h)
    else if IsMapping(fnHeaders) then Literals(h, MItems(fnHeaders), args)
    else Err(AttributeError("object has no attribute 'keys'"))
  }

  /** Lines 318-320: a truthy method timeout replaces the class timeout. */
  function DeclaredTimeout(cls: map<string, PyVal>, fn: map<string, PyVal>): (t: PyVal)
    ensures Truthy(Read(fn, "timeout")) ==> t == Read(fn, "timeout")
    ensures !Truthy(Read(fn, "timeout")) ==> t == Read(cls, "timeout")
  {
    if Truthy(Read(fn, "timeout")) then Read(fn, "timeout") else Read(cls, "timeout")
  }

  /** Lines 323-325: the method's stream flag unless it is absent (None). */
  function DeclaredStream(cls: map<string, PyVal>, fn: map<string, PyVal>): (s: PyVal)
    ensures Read(fn, "stream") != PNone ==> s == Read(fn, "stream")
    ensures Read(fn, "stream") == PNone ==> s == Read(cls, "stream")
  {
    if Read(fn, "stream") != PNone then Read(fn, "stream") else Read(cls, "stream")
  }

  /** Lines 286-297: class headers, then argument captures, then the method's literal headers. */
  function DeclaredHeaders(cls: map<string, PyVal>, fn: map<string, PyVal>, args: map<string, PyVal>): Fallible<PyVal> {
    var captures :- MergedArgs(fn, "header", args);
    var merged :- MergeDicts(Read(cls, "header"), captures);
    DeclaredLiterals(merged, Read(fn, "header"), args)
  }

  /** Lines 283-325: the draft built from the declarations and the bound arguments. */
  function Declared(cls: map<string, PyVal>, fn: map<string, PyVal>, args: map<string, PyVal>,
                    kwargs: map<string, PyVal>, rt: Runtime): Fallible<Draft>
  {
    var query :- MergedArgs(fn, "query", args);
    var form :- MergedArgs(fn, "form", args);
    var multipart :- MergedArgs(fn, "multipart", args);
    var headers :- DeclaredHeaders(cls, fn, args);
    var body :- BodyContent(fn, args, rt);
    var handlers :- MergeDicts(Read(cls, "on"), Read(fn, "on"));
    Ok(Draft(query, form, multipart, headers, body, handlers,
             DeclaredTimeout(cls, fn), DeclaredStream(cls, fn), kwargs))
  }

  /** The parameter maps, body and handlers of the draft, each as its own declarations give it. */
  lemma DeclaredSlots(cls: map<string, PyVal>, fn: map<string, PyVal>, args: map<string, PyVal>,
                      kwargs: map<string, PyVal>, rt: Runtime)
    requires Declared(cls, fn, args, kwargs, rt).Ok?
    ensures MergedArgs(fn, "query", args).Ok? && MergedArgs(fn, "form", args).Ok?
    ensures MergedArgs(fn, "multipart", args).Ok? && BodyContent(fn, args, rt).Ok?
    ensures MergeDicts(Read(cls, "on"), Read(fn, "on")).Ok?
    ensures var d := Declared(cls, fn, args, kwargs, rt).value;
      && d.query == MergedArgs(fn, "query", args).value && d.query.PDict?
      && d.form == MergedArgs(fn, "form", args).value && d.form.PDict?
      && d.multipart == MergedArgs(fn, "multipart", args).value && d.multipart.PDict?
      && d.body == BodyContent(fn, args, rt).value
      && d.handlers == MergeDicts(Read(cls, "on"), Read(fn, "on")).value
  {
  }

  /**
   * Header layering of the declarations: a literal method header wins over an
   * argument capture, which wins over a class header; the class header map
   * decides whether keys compare case-insensitively.
   */
  lemma DeclaredHeaderLayers(cls: map<string, PyVal>, fn: map<string, PyVal>, args: map<string, PyVal>,
                             kwargs: map<string, PyVal>, rt: Runtime, q: PyVal)
    requires Declared(cls, fn, args, kwargs, rt).Ok?
    ensures MergedArgs(fn, "header", args).Ok?
    ensures MergeDicts(Read(cls, "header"), MergedArgs(fn, "header", args).value).Ok?
    ensures var c := Read(cls, "header");
      var captures := MergedArgs(fn, "header", args).value;
      var merged := MergeDicts(c, captures).value;
      var literals := Read(fn, "header");
      && MGet(Declared(cls, fn, args, kwargs, rt).value.headers, q) ==
           (if Truthy(literals) && LastLiteral(merged, MItems(literals), args, q).Some?
            then LastLiteral(merged, MItems(literals), args, q) else MGet(merged, q))
      && MGet(merged, q) ==
           (if c == PNone then MGet(captures, q)
            else if LastMatch(c, MItems(captures), q).Some? then LastMatch(c, MItems(captures), q)
            else MGet(c, q))
  {
    var c := Read(cls, "header");
    var captures := MergedArgs(fn, "header", args).value;
    var merged := MergeDicts(c, captures).value;
    var literals := Read(fn, "header");
    if Truthy(literals) {
      LiteralsGet(merged, MItems(literals), args, q);
    }
    CapturesOverClass(c, captures, q);
  }

  /** Captured header arguments are assigned over the class headers, one by one. */
  lemma CapturesOverClass(c: PyVal, captures: PyVal, q: PyVal)
    requires captures.PDict? && MergeDicts(c, captures).Ok?
    ensures MGet(MergeDicts(c, captures).value, q) ==
      (if c == PNone then MGet(captures, q)
       else if LastMatch(c, MItems(captures), q).Some? then LastMatch(c, MItems(captures), q)
       else MGet(c, q))
  {
    if c != PNone {
      MSetAllGet(c, MItems(captures), q);
    }
  }

  /**
   * Declared status handlers: a method handler wins over a class handler for
   * the same status, when both declarations hold plain dicts or nothing.
   */
  lemma DeclaredHandlers(cls: map<string, PyVal>, fn: map<string, PyVal>, args: map<string, PyVal>,
                         kwargs: map<string, PyVal>, rt: Runtime, d: Draft, status: PyVal)
    requires Declared(cls, fn, args, kwargs, rt) == Ok(d)
    requires Read(cls, "on") == PNone || Read(cls, "on").PDict?
    requires Read(fn, "on") == PNone || Read(fn, "on").PDict?
    ensures d.handlers == PNone || d.handlers.PDict?
    ensures MGet(d.handlers, status) ==
      if MHas(Read(fn, "on"), status) then MGet(Read(fn, "on"), status) else MGet(Read(cls, "on"), status)
  {
    DeclaredSlots(cls, fn, args, kwargs, rt);
    MergeDictsPlain(Read(cls, "on"), Read(fn, "on"), status);
  }
}
