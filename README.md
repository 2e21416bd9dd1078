# decorest request engine in Dafny

decorest turns decorated Python classes into REST clients. Decorators such as
`@query`, `@header`, `@on`, `@timeout` or `@body` record metadata on a class or
method in a `__decorest__` dictionary. When a decorated method is called,
`HttpMethodDecorator.call` does the following:

1. It merges the class declarations, the method declarations, the bound call
   arguments and the reserved call-time keyword arguments into one request.
2. It adds default headers and checks the HTTP verb.
3. It hands the request to `requests`, `httpx` or a session.
4. It routes the response to a status handler, returns it raw, raises the
   wrapped HTTP error, or decodes the body by its content type.

This project models that engine (`decorest/decorators.py`) and proves what it
guarantees.

Modules, in dependency order:

- `Wrappers` and `Dicts`: `Option`/`Result`, and insertion-ordered
  association lists. Python dicts become these lists because
  `__merge_args` and `dict.update` are order-sensitive.
- `PyValues`: the Python values the engine handles. It covers truthiness,
  plain `dict` and requests' `CaseInsensitiveDict` (keyed by the lower-cased
  key, keeping the key as last written), item assignment, `update` and
  `merge_dicts`.
- `Store`: the `__decorest__` dictionary as a class `DecorDict`, and a
  decorated class or function as a class `Declaration`. A declaration may
  have its own dictionary or inherit one: `hasattr`/`getattr` find the
  dictionary of the first base class in method resolution order that has
  one. `functools.wraps` copies the wrapped function's attributes, so a
  wrapper shares the wrapped function's dictionary from the start.
  - `SetDecor` is `set_decor`. It adopts the dictionary of `__wrapped__`,
    creates one only when none is found, merges mappings, extends lists and
    replaces anything else. A subclass without a dictionary of its own
    therefore writes into its base class's dictionary.
  - `GetDecor` / `Read` is `get_decor`. A falsy stored value reads as absent.
- `Decorators`: the factories `on`, `query`, `form`, `multipart`, `header`,
  `endpoint`, `content`, `accept`, `body`, `timeout`, `stream`, as methods
  that update a `Declaration`.
- `Synthesis`: `__merge_args` (the function `MergedArgs` and the loop
  `MergeArgs`), the method-level header literals, and the draft request
  built from the declarations (`Declared`).
- `Overriding`: the loop over `DECOR_LIST` with `__validate_decor`, as the
  function `Overrides` and the loop `ApplyOverrides`.
- `Resolution`: header defaults, the multipart judgement, body encoding,
  the transport keyword arguments, and the whole synthesis `Resolve`.
- `Precedence`: end-to-end precedence theorems on `Resolve`.
- `Dispatch`: the execution context, the verb check, the streaming httpx
  GET, the multipart POST `content-type` removal and `__dispatch`.
- `Routing`: what `call` does with the response.
- `Engine`: the whole `call`, first as the function `CallSpec`, then as the
  method `Call`. `Call` runs the loops of the source and is proved to equal
  `CallSpec`.

The model follows what the code does, including where that differs from what
the library's users might expect:

- `get_decor` returns None for a stored falsy value (0, `False`, `""`, an
  empty mapping). An absent entry and a falsy one are therefore
  indistinguishable.
- `set_decor` accepts any name.
- The method's stream flag wins over the class flag only when it reads as
  present. A falsy flag therefore falls back to the class flag.
- Form parameters, a body and multipart files are not mutually exclusive.
  Form parameters overwrite the body's `data` keyword. They also force the
  form content type even on a multipart request.
- Without class headers, the header map is `merge_dicts(None, {})`: a plain
  dict whose keys compare exactly. `@content('text/plain')` and `@accept`
  on the method store `Content-Type` and `Accept`, and `call` adds the
  defaults `content-type` and `accept` beside them, so each header is sent
  twice (`Precedence.PlainHeadersDuplicateDefaults`). The JSON encoding of a
  dict body looks only at the exact key `content-type`, so a dict body is
  sent as JSON text despite `text/plain` (`Precedence.PlainHeadersEncodeJson`).
- `__merge_args` and the header literal loop hash argument names, parameter
  names and header values. An unhashable one (a list or a dict) raises
  `TypeError`.

The multipart POST path removes only the exact lower-case key
`content-type` from the plain dict of final headers
(`Dispatch.WithoutContentTypeIsExact`). A `Content-Type` set by `@content`
keeps its letter case in that dict and is not removed.

## Model

| member | source | states |
|---|---|---|
| Store.Read | decorest/decorators.py:72-87 | The read value is truthy exactly when the name is stored with a truthy value; otherwise it is None. |
| Store.Declaration.GetDecor | decorest/decorators.py:72-87 | `get_decor` on a declaration: the truthy entry of the dictionary found (its own, else the first base class's in resolution order), or None. |
| Store.FirstDecor | decorest/decorators.py:84-85 | No dictionary is found exactly when no base class has one; a found one belongs to a base class. |
| Store.InheritedLookup | decorest/decorators.py:84-85 | The dictionary found is that of the first base class in resolution order that has one. |
| Store.InheritedRead | decorest/decorators.py:84-85 | A class without its own dictionary reads the entries of the first base class that has one. |
| Store.AfterSet | decorest/decorators.py:46-69 | `set_decor` adds the name to the keys and leaves every other entry as it was. |
| Store.Declaration.SetDecor | decorest/decorators.py:46-69 | Adopts the `__wrapped__` dictionary when there is one. Otherwise writes into the dictionary found, a base class's included, and creates an empty one of its own only when none is found. Afterwards the dictionary found holds the merged entry; on failure it keeps its entries. |
| Store.FalsyReadsAsAbsent | decorest/decorators.py:84-87 | A stored falsy value reads exactly like a missing entry: None. |
| Store.SetDecorMergesMappings | decorest/decorators.py:56-63 | Storing a mapping into a missing, falsy or same-kind entry gives a mapping of the value's kind. Keys of the value read as in the value; other keys read as before. |
| Store.SetDecorExtendsLists | decorest/decorators.py:64-67 | A list succeeds exactly on a missing, falsy or list entry, and the entry becomes the old elements followed by the new. |
| Store.SetDecorReplacesScalars | decorest/decorators.py:68-69 | Any other value replaces the entry. |
| Store.SingletonReadBack | decorest/decorators.py:56-63 | A one-entry mapping stored successfully reads back its entry under its key. |
| PyValues.MergeDictsLaterWins | decorest/decorators.py:286-288 | `merge_dicts` of two mappings of the same kind: a key of the second reads as there, any other as in the first. |
| PyValues.MergeDictsPlain | decorest/decorators.py:314-315 | `merge_dicts` of plain dicts or None gives a plain dict or None with later-wins lookups. |
| PyValues.MergeDictsNone | decorest/decorators.py:286-288 | A None argument of `merge_dicts` is skipped. |
| Decorators.On | decorest/decorators.py:90-110 | `...` files the handler under `HttpStatus.ANY` and an integer under itself. Anything else raises `TypeError` and leaves the declaration untouched. On success the handler reads back under its key. |
| Decorators.Parameter | decorest/decorators.py:117-126 | On a class it raises `TypeError` without storing. Otherwise it stores `{name: value or name}`, which reads back. |
| Decorators.Query | decorest/decorators.py:113-128 | `@query`: methods only; the parameter name defaults to the argument name and reads back. |
| Decorators.Form | decorest/decorators.py:131-146 | `@form`: methods only; the field name defaults to the argument name and reads back. |
| Decorators.Multipart | decorest/decorators.py:149-164 | `@multipart`: methods only; the part name defaults to the argument name and reads back. |
| Decorators.Header | decorest/decorators.py:167-179 | `@header`: a case-insensitive entry whose value defaults to the name, readable under the name. |
| Decorators.FixedHeader | decorest/decorators.py:193-214 | A case-insensitive header entry with a fixed name, readable under that name. |
| Decorators.Content | decorest/decorators.py:193-202 | `@content`: the `Content-Type` header entry. |
| Decorators.Accept | decorest/decorators.py:205-214 | `@accept`: the `Accept` header entry. |
| Decorators.Endpoint | decorest/decorators.py:182-190 | `@endpoint` replaces the endpoint and nothing else. |
| Decorators.Body | decorest/decorators.py:217-231 | `@body` replaces the (name, serializer) binding, which `get_decor` then returns. |
| Decorators.Timeout | decorest/decorators.py:234-246 | `@timeout` replaces the timeout; a zero timeout reads as absent. |
| Decorators.Stream | decorest/decorators.py:249-258 | `@stream` stores `True`, which reads back. |
| Synthesis.BindArgsBinds | decorest/decorators.py:556-562 | A parameter is bound exactly when a declared argument for it is truthy in the call. It is bound to the last such argument's value. |
| Synthesis.MergedArgsOutcome | decorest/decorators.py:556-562 | `__merge_args` fails exactly on a truthy non-mapping declaration (`AttributeError`) or on an unhashable argument name or bound parameter name (`TypeError`). Otherwise it yields a plain dict. |
| Synthesis.MergeArgs | decorest/decorators.py:542-562 | The loop of `__merge_args` computes `MergedArgs`, raising `TypeError` at the first unhashable argument name or bound parameter name. |
| Synthesis.LiteralsGet | decorest/decorators.py:293-297 | A method header whose value does not name an argument overrides the header map (the last such wins); captures leave it alone. |
| Synthesis.LiteralsStopAtError | decorest/decorators.py:295-297 | After a failing assignment the remaining declarations do not change the outcome. |
| Synthesis.LiteralsRejectUnhashable | decorest/decorators.py:293-297 | An unhashable header value raises `TypeError` when the loop reaches it. |
| Synthesis.ApplyLiterals | decorest/decorators.py:293-297 | The literal loop computes `Literals`. It stops at the first failing assignment or unhashable value. |
| Synthesis.DeclaredHeaderLayers | decorest/decorators.py:286-297 | Declared headers: a literal method header wins over an argument capture, which wins over a class header. |
| Synthesis.CapturesOverClass | decorest/decorators.py:286-288 | Captured header arguments are assigned over the class headers one by one. |
| Synthesis.DeclaredHandlers | decorest/decorators.py:314-315 | A method status handler wins over a class handler for the same status. |
| Overriding.NameInjective | decorest/decorators.py:40-43 | Each reserved argument has its own keyword, and that keyword is reserved. |
| Overriding.DecorListComplete | decorest/decorators.py:40-43 | Every reserved argument is in `DECOR_LIST`. |
| Overriding.DecorListDistinct | decorest/decorators.py:40-43 | No reserved argument occurs twice in `DECOR_LIST`. |
| Overriding.ApplyOverrides | decorest/decorators.py:333-380 | The `for decor in DECOR_LIST` loop computes `Overrides`, stopping at the first error. |
| Overriding.StepConsumes | decorest/decorators.py:335-378 | One step removes its own keyword, keeps every other keyword with its value, and lets only a well-typed value through. |
| Overriding.OverridesConsume | decorest/decorators.py:334-380 | The loop consumes exactly the reserved arguments it visits, passes the rest through unchanged, and accepts only well-typed values. |
| Overriding.OverridesConsumeAll | decorest/decorators.py:334-380 | After the loop no reserved keyword remains, and every other keyword is as passed. |
| Overriding.StepSlot | decorest/decorators.py:341-378 | One step changes only the slot of its own argument. |
| Overriding.OverridesSlot | decorest/decorators.py:334-380 | A slot ends as its call-time override made it, or as declared when not passed. |
| Overriding.OverridesSlotFinal | decorest/decorators.py:334-380 | The same as `OverridesSlot`, for the whole `DECOR_LIST`. |
| Overriding.OverridesKeepHeaders | decorest/decorators.py:341-378 | Arguments other than `header`, `accept` and `content` leave the header map alone. |
| Overriding.OverridesAppend | decorest/decorators.py:334-335 | Running the loop over `a + b` is running it over `a`, then over `b`. |
| Overriding.OverridesFront | decorest/decorators.py:334-335 | The loop is its first five arguments followed by its last five. |
| Overriding.FrontHeaders | decorest/decorators.py:336-359 | Among the first five arguments only `header` changes the header map, by `merge_dicts`. |
| Overriding.FrontKeeps | decorest/decorators.py:336-359 | The first five arguments leave `accept` and `content` as passed. |
| Overriding.StepAssigns | decorest/decorators.py:360-367 | `accept` / `content` assign their header and leave every header they do not address. |
| Overriding.BackSteps | decorest/decorators.py:360-378 | Of the last five arguments only `accept` and `content` change the header map. |
| Overriding.OverridesBack | decorest/decorators.py:360-378 | After the last five, a passed `content` is the content type and a passed `accept` the accept header. Other headers are untouched. |
| Overriding.OverridesHeaders | decorest/decorators.py:336-367 | Call-time `content` and `accept` set their headers. Any other header reads as the call-time `header` dict merged over the declared ones. |
| Overriding.OverridesScalars | decorest/decorators.py:368-378 | A passed `timeout`, `stream` or `body` replaces the declared one and is consumed. |
| Overriding.OverridesSkipAbsent | decorest/decorators.py:335 | Arguments the caller did not pass are skipped. |
| Overriding.OverridesMerged | decorest/decorators.py:341-359 | A call-time mapping is merged over its slot: a passed key reads as passed, any other as declared. |
| Overriding.OverridesHandlers | decorest/decorators.py:356-359 | Call-time `on` handlers win over the declared ones, key by key. |
| Overriding.OverridesQuery | decorest/decorators.py:341-345 | Call-time `query` entries win over the declared ones, key by key. |
| Overriding.OverridesForm | decorest/decorators.py:346-350 | Call-time `form` entries win over the declared ones, key by key. |
| Overriding.OverridesMultipart | decorest/decorators.py:351-355 | Call-time `multipart` entries win over the declared ones, key by key. |
| Overriding.OverridesRejects | decorest/decorators.py:527-540 | The first ill-typed reserved argument stops the loop with `TypeError("<name> value must be an instance of <class>")`. |
| Resolution.ContentTypeIsNotAccept | decorest/decorators.py:398-404 | `content-type` and `accept` never address the same header. |
| Resolution.DefaultHeadersGet | decorest/decorators.py:397-404 | The key `accept` (exactly, or case-insensitively in a `CaseInsensitiveDict`) is always present and keeps a value already set. The key `content-type` keeps a present value and defaults to JSON exactly when absent on a non-multipart request. |
| Resolution.LateKeysOnly | decorest/decorators.py:414-441 | The body, parameters, form, stream and headers are set under their five keywords only. |
| Resolution.AddedKeys | decorest/decorators.py:387-441 | `call` sets only `files`, `auth`, `timeout`, `data`, `content`, `params`, `stream`, `headers`. |
| Resolution.LateSlots | decorest/decorators.py:414-441 | Final headers travel as a plain dict and form parameters as `data`. Without a form, the encoded body travels under its keyword. |
| Resolution.LateScalars | decorest/decorators.py:428-438 | `params` and `stream` are set exactly when truthy. |
| Resolution.AddedSlots | decorest/decorators.py:387-441 | The same placement holds among all keywords `call` sets. |
| Resolution.AddedScalars | decorest/decorators.py:387-438 | `files`, `auth`, `timeout`, `params` and `stream` are set exactly when truthy, with their values. |
| Resolution.FinishHeaders | decorest/decorators.py:397-441 | `accept` is present; the content type is present unless multipart. Form parameters force the form type and travel as `data`. The transport gets the final headers. |
| Resolution.FinishOtherHeaders | decorest/decorators.py:397-441 | Headers other than content type and accept reach the transport as the overrides left them. |
| Resolution.FinishBody | decorest/decorators.py:414-426 | Without a form, a dict body under a JSON content type is sent as JSON text, and any other body as it is. It goes under `content` for httpx non-dicts, else `data`. |
| Resolution.BodyEncoding | decorest/decorators.py:414-426 | The same body encoding, stated on the transport keyword arguments. |
| Resolution.FinishForwards | decorest/decorators.py:382-441 | The transport gets the caller's remaining keyword arguments unchanged, plus only `call`'s own keys. |
| Resolution.FinishKwargs | decorest/decorators.py:387-438 | Files, auth, a truthy timeout, stream flag and query are added. A falsy timeout or stream flag is not sent. |
| Resolution.CallTimeIsLoop | decorest/decorators.py:333 | The `if kwargs:` guard changes nothing. |
| Resolution.SessionNotReserved | decorest/decorators.py:275-278 | Removing `__session` leaves every reserved argument as passed. |
| Precedence.ResolveTimeout | decorest/decorators.py:318-320 | Call-time `timeout` wins, then a truthy method timeout, then the class timeout. |
| Precedence.ResolveStream | decorest/decorators.py:323-325 | Call-time `stream` wins, then the method flag unless absent, then the class flag. |
| Precedence.ResolveSendsTimeoutAndStream | decorest/decorators.py:412-438 | The resolved timeout and stream flag reach the transport exactly when truthy. |
| Precedence.ResolveQuery | decorest/decorators.py:283 | A call-time `query` entry wins over the bound argument. |
| Precedence.ResolveForm | decorest/decorators.py:284 | A call-time `form` entry wins over the bound argument. |
| Precedence.ResolveMultipart | decorest/decorators.py:285 | A call-time `multipart` entry wins over the bound argument. |
| Precedence.ResolveHandlers | decorest/decorators.py:314-315 | Status handlers: call-time wins, then the method, then the class. |
| Precedence.ResolveAccept | decorest/decorators.py:360-404 | The header map always addresses the key `accept` (exactly, or case-insensitively in a `CaseInsensitiveDict`), and a call-time `accept` is what it holds. |
| Precedence.ResolveContentType | decorest/decorators.py:364-435 | The header map addresses the key `content-type` (exactly, or case-insensitively in a `CaseInsensitiveDict`) unless multipart. A form forces the form type there; otherwise a call-time `content` is what it holds. |
| Precedence.PlainHeadersDuplicateDefaults | decorest/decorators.py:286-404 | Without class headers, a method's `Content-Type: text/plain` and `Accept: text/xml` are sent beside the defaults `content-type` and `accept` (JSON). |
| Precedence.PlainHeadersEncodeJson | decorest/decorators.py:415-418 | In that situation a non-empty dict body is still sent as its JSON text. |
| Precedence.ResolveOtherHeaders | decorest/decorators.py:336-340 | Any other header reads as the call-time `header` dict merged over the declared headers. |
| Precedence.ResolveBody | decorest/decorators.py:376-378 | A call-time `body` replaces the declared (serialized) body argument. |
| Precedence.ResolveForwarding | decorest/decorators.py:275-278 | `__session` becomes the session and reserved arguments are consumed. Every other keyword is forwarded unchanged unless `call` sets it. |
| Precedence.ResolveRejectsIllTyped | decorest/decorators.py:537-540 | An ill-typed reserved argument makes the call fail. |
| Dispatch.ContextOf | decorest/decorators.py:448-455 | A truthy session is the context; otherwise the `requests` or `httpx` module by backend. |
| Dispatch.AttributeOfSupported | decorest/decorators.py:520-523 | Each supported member is called through its lower-case attribute. |
| Dispatch.PrepareChecksVerb | decorest/decorators.py:457-461 | Exactly the verbs outside the seven raise `ValueError("Unsupported HTTP method: …")`. |
| Dispatch.PrepareStreamsHttpxGet | decorest/decorators.py:464-467 | A streaming httpx GET calls `stream("GET", req, …)` without the `stream` keyword. |
| Dispatch.PrepareDispatches | decorest/decorators.py:468-475 | Other calls go through the verb's attribute with the resolved keywords. A multipart POST loses only the `content-type` header. |
| Dispatch.WithoutContentTypeIsExact | decorest/decorators.py:469-472 | The removal is by exact key: `Content-Type` stays. |
| Routing.ExactHandlerWins | decorest/decorators.py:479-481 | A handler for the exact status answers the call. |
| Routing.CatchAllHandler | decorest/decorators.py:482-484 | Without one, the `HttpStatus.ANY` handler answers. |
| Routing.HandledOnlyByHandlers | decorest/decorators.py:479-485 | A handler is consulted exactly when the handlers are truthy and hold the status or `ANY`. |
| Routing.StreamPassesThrough | decorest/decorators.py:486-489 | With no handler, a streamed response is returned raw, even on an error status. |
| Routing.DefaultHandling | decorest/decorators.py:491-506 | Fails with the wrapped HTTP error exactly when `raise_for_status` raises. Otherwise an empty body gives None and any other is decoded. |
| Routing.DecodedOnlyOnSuccess | decorest/decorators.py:488-506 | A decoded body comes only from an unhandled, non-streamed, successful response with a body. |
| Routing.DecodeByContentType | decorest/decorators.py:497-504 | JSON for `application/json`, bytes for `application/octet-stream`, text otherwise. |
| Engine.Transmit | decorest/decorators.py:463-477 | A transport exception is raised as `HTTPErrorWrapper`; a response passes through. |
| Engine.SynthesisFailsFirst | decorest/decorators.py:270-461 | A synthesis failure is raised before the verb is checked. |
| Engine.UnsupportedVerbFails | decorest/decorators.py:457-461 | An unsupported verb raises `ValueError`, whatever the transport would do. |
| Engine.TransportFailureWrapped | decorest/decorators.py:463-477 | A transport exception reaches the caller as `HTTPErrorWrapper`. |
| Engine.CallUsesStatusHandler | decorest/decorators.py:479-484 | A handler for the returned status (call-time, then method, then class) answers the call. |
| Engine.DeclareHeaders | decorest/decorators.py:286-297 | The header statements compute `DeclaredHeaders`. |
| Engine.Declare | decorest/decorators.py:283-325 | The declaration statements compute `Declared`. |
| Engine.Synthesize | decorest/decorators.py:270-441 | The synthesis statements, loops included, compute `Resolve`. |
| Engine.Call | decorest/decorators.py:268-506 | A call computes `CallSpec`: synthesis, verb check, transport, routing. |

## Left out

- `decorest/session.py` and the verb wrappers `DELETE.py`, `POST.py`, `PUT.py` are not part of this model. The verb is read from the method's `http_method` entry.
- These are parameters of the model (`Synthesis.Runtime`, `Engine.Transport`, the `invoke` function): the transport, `_auth`, `_backend`, `build_request`, `json.dumps`, body serializers, the call of a status handler, and the `isinstance(_, MultipartEncoder)` test.
- `dict_from_args` and `render_path` are parameters too. The bound arguments are given as a map, and the path is inside `build_request`'s result.
- Logging is not modelled.
- `decorest/types.py` is not part of this model. `HttpMethod` members are assumed to be plain enum values whose value is `(NAME,)`, and `HttpStatus.ANY` is a key distinct from every integer.
- `decorest/utils.py` is not part of this model. `merge_dicts` is assumed to skip None arguments, copy the first remaining one and `update` it with the next.
- Dispatch.Describe: `str()` of a verb that is neither an `HttpMethod` member, a string nor None is a placeholder.
- The `str` branch of `__dispatch` (lines 520-521) is not reachable after the verb check, so only the member branch is exercised.
- Routing.Route: `raise_for_status` is a `failed` flag of the response, and a failing `json()` decode is not modelled.
- Synthesis.MergedArgs, Synthesis.Literals: the `TypeError` for an unhashable value carries the fixed message "unhashable type"; Python's message also names the value's type.
- Python's equality of `True` with `1` (and `1.0`) as dictionary keys is not modelled; those keys are distinct.
- PyValues.Lower: lower-cases ASCII letters only; case-insensitive header keys compare under that lower-casing.
- Decorators.Timeout: takes a real number; an integer timeout is not distinguished from the equal float.
- Concurrency (the session's async paths) and the identity of the objects returned to the caller are not modelled.
