/**
 * The decorator factories: each one validates its arguments and records one
 * value in the declaration's metadata through `set_decor`.
 */
module Decorators {
  import opened Wrappers
  import opened PyValues
  import opened Store

  const OnStatusMessage := "Status in @on decorator must be integer or '...'"

  /** `isinstance(v, numbers.Integral)`; Python's bool is an integral type. */
  predicate IsIntegral(v: PyVal) {
    v.PInt? || v.PBool?
  }

  /** The handler-table key `on` files a status under. */
  function StatusKey(status: PyVal): PyVal {
    if status == PEllipsis then PAnyStatus else status
  }

  /** A falsy parameter value falls back to the parameter's name. */
  function OrName(value: PyVal, name: string): (r: PyVal)
    ensures Truthy(value) ==> r == value
    ensures !Truthy(value) ==> r == PStr(name)
  {
    if Truthy(value) then value else PStr(name)
  }

  /** A one-entry case-insensitive dict, `CaseInsensitiveDict({name: value})`. */
  function CIEntry(name: string, value: PyVal): PyVal {
    PCIDict([(Lower(name), (name, value))])
  }

  /** The error `@query`, `@form` and `@multipart` raise when applied to a class. */
  function MethodsOnly(kind: string): PyError {
    TypeError("@" + kind + " decorator can only be applied to methods.")
  }

  /** `@on(status, handler)`: `...` files the handler under HttpStatus.ANY, an integer under itself. */
  method On(t: Declaration, status: PyVal, handler: PyVal) returns (r: Fallible<()>)
    modifies t, t.Target()
    ensures status != PEllipsis && !IsIntegral(status) ==> r == Err(TypeError(OnStatusMessage)) && Untouched(t)
    ensures status == PEllipsis || IsIntegral(status) ==> Stored(t, "on", PDict([(StatusKey(status), handler)]), r)
    ensures r.Ok? ==> "on" in t.Entries() && MGet(t.Entries()["on"], StatusKey(status)) == Some(handler)
  {
    if status == PEllipsis || IsIntegral(status) {
      var value := PDict([(StatusKey(status), handler)]);
      ghost var before := t.TargetEntries();
      r := t.SetDecor("on", value);
      if r.Ok? {
        SingletonReadBack(before, "on", StatusKey(status), handler, value);
      }
    } else {
      r := Err(TypeError(OnStatusMessage));
    }
  }

  /** The shared body of `@query`, `@form` and `@multipart`: methods only, name as the default value. */
  method Parameter(kind: string, t: Declaration, name: string, value: PyVal) returns (r: Fallible<()>)
    modifies t, t.Target()
    ensures t.isClass ==> r == Err(MethodsOnly(kind)) && Untouched(t)
    ensures !t.isClass ==> Stored(t, kind, PDict([(PStr(name), OrName(value, name))]), r)
    ensures r.Ok? ==> kind in t.Entries() && MGet(t.Entries()[kind], PStr(name)) == Some(OrName(value, name))
  {
    if t.isClass {
      r := Err(MethodsOnly(kind));
    } else {
      var entry := PDict([(PStr(name), OrName(value, name))]);
      ghost var before := t.TargetEntries();
      r := t.SetDecor(kind, entry);
      if r.Ok? {
        SingletonReadBack(before, kind, PStr(name), OrName(value, name), entry);
      }
    }
  }

  /** `@query(name, value)`: the argument `name` is sent as query parameter `value` (default `name`). */
  method Query(t: Declaration, name: string, value: PyVal) returns (r: Fallible<()>)
    modifies t, t.Target()
    ensures t.isClass ==> r == Err(MethodsOnly("query")) && Untouched(t)
    ensures !t.isClass ==> Stored(t, "query", PDict([(PStr(name), OrName(value, name))]), r)
    ensures r.Ok? ==> "query" in t.Entries() && MGet(t.Entries()["query"], PStr(name)) == Some(OrName(value, name))
  {
    r := Parameter("query", t, name, value);
  }

  /** `@form(name, value)`: the argument `name` is sent as form field `value` (default `name`). */
  method Form(t: Declaration, name: string, value: PyVal) returns (r: Fallible<()>)
    modifies t, t.Target()
    ensures t.isClass ==> r == Err(MethodsOnly("form")) && Untouched(t)
    ensures !t.isClass ==> Stored(t, "form", PDict([(PStr(name), OrName(value, name))]), r)
    ensures r.Ok? ==> "form" in t.Entries() && MGet(t.Entries()["form"], PStr(name)) == Some(OrName(value, name))
  {
    r := Parameter("form", t, name, value);
  }

  /** `@multipart(name, value)`: the argument `name` is sent as file part `value` (default `name`). */
  method Multipart(t: Declaration, name: string, value: PyVal) returns (r: Fallible<()>)
    modifies t, t.Target()
    ensures t.isClass ==> r == Err(MethodsOnly("multipart")) && Untouched(t)
    ensures !t.isClass ==> Stored(t, "multipart", PDict([(PStr(name), OrName(value, name))]), r)
    ensures r.Ok? ==> "multipart" in t.Entries() && MGet(t.Entries()["multipart"], PStr(name)) == Some(OrName(value, name))
  {
    r := Parameter("multipart", t, name, value);
  }

  /** `@header(name, value)`: a case-insensitive header entry, the name as the default value. */
  method Header(t: Declaration, name: string, value: PyVal) returns (r: Fallible<()>)
    modifies t, t.Target()
    ensures Stored(t, "header", CIEntry(name, OrName(value, name)), r)
    ensures r.Ok? ==> "header" in t.Entries() && MGet(t.Entries()["header"], PStr(name)) == Some(OrName(value, name))
  {
    var entry := CIEntry(name, OrName(value, name));
    ghost var before := t.TargetEntries();
    r := t.SetDecor("header", entry);
    if r.Ok? {
      SingletonReadBack(before, "header", PStr(name), OrName(value, name), entry);
    }
  }

  /** A header entry with a fixed name and the value as given (no default). */
  method FixedHeader(t: Declaration, name: string, value: PyVal) returns (r: Fallible<()>)
    modifies t, t.Target()
    ensures Stored(t, "header", CIEntry(name, value), r)
    ensures r.Ok? ==> "header" in t.Entries() && MGet(t.Entries()["header"], PStr(name)) == Some(value)
  {
    var entry := CIEntry(name, value);
    ghost var before := t.TargetEntries();
    r := t.SetDecor("header", entry);
    if r.Ok? {
      SingletonReadBack(before, "header", PStr(name), value, entry);
    }
  }

  /** `@content(value)`: the `Content-Type` header. */
  method Content(t: Declaration, value: PyVal) returns (r: Fallible<()>)
    modifies t, t.Target()
    ensures Stored(t, "header", CIEntry("Content-Type", value), r)
    ensures r.Ok? ==> "header" in t.Entries() && MGet(t.Entries()["header"], PStr("Content-Type")) == Some(value)
  {
    r := FixedHeader(t, "Content-Type", value);
  }

  /** `@accept(value)`: the `Accept` header. */
  method Accept(t: Declaration, value: PyVal) returns (r: Fallible<()>)
    modifies t, t.Target()
    ensures Stored(t, "header", CIEntry("Accept", value), r)
    ensures r.Ok? ==> "header" in t.Entries() && MGet(t.Entries()["header"], PStr("Accept")) == Some(value)
  {
    r := FixedHeader(t, "Accept", value);
  }

  /** `@endpoint(value)`: the endpoint path, replacing any earlier one. */
  method Endpoint(t: Declaration, value: string) returns (r: Fallible<()>)
    modifies t, t.Target()
    ensures r.Ok? && Stored(t, "endpoint", PStr(value), r)
    ensures t.Entries() == old(t.TargetEntries())["endpoint" := PStr(value)]
  {
    r := t.SetDecor("endpoint", PStr(value));
  }

  /** `@body(name, serializer)`: which argument supplies the body, and its optional serializer. */
  method Body(t: Declaration, name: string, serializer: PyVal) returns (r: Fallible<()>)
    modifies t, t.Target()
    ensures r.Ok? && Stored(t, "body", PTuple([PStr(name), serializer]), r)
    ensures t.Entries() == old(t.TargetEntries())["body" := PTuple([PStr(name), serializer])]
    ensures t.GetDecor("body") == PTuple([PStr(name), serializer])
  {
    r := t.SetDecor("body", PTuple([PStr(name), serializer]));
  }

  /** `@timeout(value)`: the default timeout, replacing any earlier one. */
  method Timeout(t: Declaration, value: real) returns (r: Fallible<()>)
    modifies t, t.Target()
    ensures r.Ok? && Stored(t, "timeout", PFloat(value), r)
    ensures t.Entries() == old(t.TargetEntries())["timeout" := PFloat(value)]
    ensures value != 0.0 ==> t.GetDecor("timeout") == PFloat(value)
    ensures value == 0.0 ==> t.GetDecor("timeout") == PNone
  {
    r := t.SetDecor("timeout", PFloat(value));
  }

  /** `@stream`: responses are returned unconsumed. */
  method Stream(t: Declaration) returns (r: Fallible<()>)
    modifies t, t.Target()
    ensures r.Ok? && Stored(t, "stream", PBool(true), r)
    ensures t.GetDecor("stream") == PBool(true)
  {
    r := t.SetDecor("stream", PBool(true));
  }
}
