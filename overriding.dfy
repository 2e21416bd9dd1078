/**
 * The call-time override loop of `HttpMethodDecorator.call` (lines 333-380)
 * and `__validate_decor` (lines 527-540): reserved keyword arguments of the
 * call replace or extend what the declarations resolved to.
 */
module Overriding {
  import opened Wrappers
  import opened PyValues
  import opened Synthesis

  /** The reserved call-time keyword arguments (`DECOR_LIST`). */
  datatype Decor = Header | Query | Form | Multipart | On | Accept | Content | Timeout | Stream | Body

  /** The keyword a reserved argument is passed under. */
  function Name(k: Decor): string {
    match k
    case Header => "header"
    case Query => "query"
    case Form => "form"
    case Multipart => "multipart"
    case On => "on"
    case Accept => "accept"
    case Content => "content"
    case Timeout => "timeout"
    case Stream => "stream"
    case Body => "body"
  }

  /** The reserved keywords as a set. */
  const ReservedNames: set<string> :=
    {"header", "query", "form", "multipart", "on", "accept", "content", "timeout", "stream", "body"}

  /** `DECOR_LIST`: the order in which `call` applies the reserved arguments. */
  const DecorList: seq<Decor> := [Header, Query, Form, Multipart, On, Accept, Content, Timeout, Stream, Body]

  /** Each reserved argument has a keyword of its own, and that keyword is reserved. */
  lemma NameInjective()
    ensures forall a: Decor, b: Decor {:trigger Name(a), Name(b)} :: Name(a) == Name(b) ==> a == b
    ensures forall k: Decor :: Name(k) in ReservedNames
  {
    forall a: Decor, b: Decor | Name(a) == Name(b)
      ensures a == b
    {
      assert Name(a)[0] == Name(b)[0];
      if Name(a)[0] == 'c' || Name(a)[0] == 'f' {
        assert Name(a)[1] == Name(b)[1];
      }
    }
  }

  /** The classes `__validate_decor` is asked to check against. */
  datatype Expectation = ADict | AStr | ANumber | ABool | Anything

  function Expected(k: Decor): Expectation {
    match k
    case Header | Query | Form | Multipart | On => ADict
    case Accept | Content => AStr
    case Timeout => ANumber
    case Stream => ABool
    case Body => Anything
  }

  /** `cls.__name__` of the expected class. */
  function ClassName(e: Expectation): string {
    match e
    case ADict => "dict"
    case AStr => "str"
    case ANumber => "Number"
    case ABool => "bool"
    case Anything => "object"
  }

  /** `isinstance(v, cls)`; a CaseInsensitiveDict is not a `dict`, a `bool` is a `Number`. */
  predicate IsInstance(v: PyVal, e: Expectation) {
    match e
    case ADict => v.PDict?
    case AStr => v.PStr?
    case ANumber => v.PBool? || v.PInt? || v.PFloat?
    case ABool => v.PBool?
    case Anything => true
  }

  /** The message of the `TypeError` raised by `__validate_decor`. */
  function TypeMessage(k: Decor): string {
    Name(k) + " value must be an instance of " + ClassName(Expected(k))
  }

  /** One pass of the override loop for a reserved argument the caller passed. */
  function Override(d: Draft, k: Decor): Fallible<Draft>
    requires Name(k) in d.kwargs
  {
    var v := d.kwargs[Name(k)];
    var rest := d.kwargs - {Name(k)};
    if !IsInstance(v, Expected(k)) then Err(TypeError(TypeMessage(k)))
    else match k
      case Header => var h :- MergeDicts(d.headers, v); Ok(d.(headers := h, kwargs := rest))
      case Query => var q :- MergeDicts(d.query, v); Ok(d.(query := q, kwargs := rest))
      case Form => var f :- MergeDicts(d.form, v); Ok(d.(form := f, kwargs := rest))
      case Multipart => var m :- MergeDicts(d.multipart, v); Ok(d.(multipart := m, kwargs := rest))
      case On => var o :- MergeDicts(d.handlers, v); Ok(d.(handlers := o, kwargs := rest))
      case Accept => var h :- MSet(d.headers, PStr("accept"), v); Ok(d.(headers := h, kwargs := rest))
      case Content => var h :- MSet(d.headers, PStr("content-type"), v); Ok(d.(headers := h, kwargs := rest))
      case Timeout => Ok(d.(timeout := v, kwargs := rest))
      case Stream => Ok(d.(stream := v, kwargs := rest))
      case Body => Ok(d.(body := v, kwargs := rest))
  }

  /** The loop body: arguments the caller did not pass are skipped. */
  function Step(d: Draft, k: Decor): Fallible<Draft> {
    if Name(k) in d.kwargs then Override(d, k) else Ok(d)
  }

  /** The override loop over `keys`, in order, stopping at the first error. */
  function Overrides(d: Draft, keys: seq<Decor>): Fallible<Draft>
    decreases |keys|
  {
    if keys == [] then Ok(d)
    else
      var d' :- Step(d, keys[0]);
      Overrides(d', keys[1..])
  }

  /** The `for decor in DECOR_LIST` loop of `call`. */
  method ApplyOverrides(d: Draft) returns (r: Fallible<Draft>)
    ensures r == Overrides(d, DecorList)
  {
    var draft := d;
    for i := 0 to |DecorList|
      invariant Overrides(d, DecorList) == Overrides(draft, DecorList[i..])
    {
      assert DecorList[i..][1..] == DecorList[i + 1..];
      var next := Step(draft, DecorList[i]);
      if next.Err? {
        return Err(next.error);
      }
      draft := next.value;
    }
    r := Ok(draft);
  }

  /** The override loop is the ten steps in `DECOR_LIST` order. */
  lemma OverridesUnrolled(d: Draft)
    ensures Overrides(d, DecorList) ==
      (var d1 :- Step(d, Header); var d2 :- Step(d1, Query); var d3 :- Step(d2, Form);
       var d4 :- Step(d3, Multipart); var d5 :- Step(d4, On); var d6 :- Step(d5, Accept);
       var d7 :- Step(d6, Content); var d8 :- Step(d7, Timeout); var d9 :- Step(d8, Stream);
       Step(d9, Body))
  {
    var L := DecorList;
    assert L[1..][1..] == L[2..];
    assert L[2..][1..] == L[3..];
    assert L[3..][1..] == L[4..];
    assert L[4..][1..] == L[5..];
    assert L[5..][1..] == L[6..];
    assert L[6..][1..] == L[7..];
    assert L[7..][1..] == L[8..];
    assert L[8..][1..] == L[9..];
    assert L[9..][1..] == [];
  }

  /** The reserved arguments that fill a slot of their own: all but the three header arguments. */
  predicate FillsSlot(k: Decor) {
    !(k.Header? || k.Accept? || k.Content?)
  }

  /** The slot of the draft that a slot-filling argument fills. */
  function Slot(d: Draft, k: Decor): PyVal {
    match k
    case Query => d.query
    case Form => d.form
    case Multipart => d.multipart
    case On => d.handlers
    case Timeout => d.timeout
    case Stream => d.stream
    case Body => d.body
    case _ => d.headers
  }

  /** Each slot and the reserved name it is filled from. */
  lemma SlotFields(d: Draft)
    ensures Slot(d, Query) == d.query && Slot(d, Form) == d.form && Slot(d, Multipart) == d.multipart
    ensures Slot(d, On) == d.handlers
    ensures Slot(d, Timeout) == d.timeout && Slot(d, Stream) == d.stream && Slot(d, Body) == d.body
    ensures Name(Query) == "query" && Name(Form) == "form" && Name(Multipart) == "multipart" && Name(On) == "on"
    ensures Name(Timeout) == "timeout" && Name(Stream) == "stream" && Name(Body) == "body"
  {
  }

  /** The mapping slots are merged with the call-time value; the others are replaced by it. */
  function Overridden(d: Draft, k: Decor): Fallible<PyVal>
    requires Name(k) in d.kwargs
  {
    if Expected(k) == ADict then MergeDicts(Slot(d, k), d.kwargs[Name(k)])
    else Ok(d.kwargs[Name(k)])
  }

  /** The timeout, stream flag and body are replaced by the call-time value. */
  lemma OverriddenScalars(d: Draft)
    ensures "timeout" in d.kwargs ==> Overridden(d, Timeout) == Ok(d.kwargs["timeout"])
    ensures "stream" in d.kwargs ==> Overridden(d, Stream) == Ok(d.kwargs["stream"])
    ensures "body" in d.kwargs ==> Overridden(d, Body) == Ok(d.kwargs["body"])
  {
  }

  /** No reserved argument occurs twice, as in `DECOR_LIST`. */
  predicate Distinct(keys: seq<Decor>) {
    forall i, j :: 0 <= i < j < |keys| ==> keys[i] != keys[j]
  }

  lemma DistinctTail(keys: seq<Decor>)
    requires keys != [] && Distinct(keys)
    ensures Distinct(keys[1..]) && keys[0] !in keys[1..]
  {
    assert forall i :: 0 <= i < |keys| - 1 ==> keys[1..][i] == keys[i + 1];
  }

  /** One step removes its own keyword, keeps every other one with its value, and lets only a well-typed value through. */
  lemma StepConsumes(d: Draft, k: Decor)
    requires Step(d, k).Ok?
    ensures Name(k) !in Step(d, k).value.kwargs
    ensures forall s :: s in Step(d, k).value.kwargs <==> s in d.kwargs && s != Name(k)
    ensures forall s :: s in Step(d, k).value.kwargs ==> Step(d, k).value.kwargs[s] == d.kwargs[s]
    ensures Name(k) in d.kwargs ==> IsInstance(d.kwargs[Name(k)], Expected(k))
  {
  }

  /**
   * The loop consumes exactly the reserved arguments it visits, passes every
   * other keyword argument through unchanged, and lets only values of the
   * expected class through.
   */
  lemma {:induction false} OverridesConsume(d: Draft, keys: seq<Decor>)
    requires Overrides(d, keys).Ok?
    ensures forall k :: k in keys ==> Name(k) !in Overrides(d, keys).value.kwargs
    ensures forall s :: s in Overrides(d, keys).value.kwargs ==>
      s in d.kwargs && Overrides(d, keys).value.kwargs[s] == d.kwargs[s]
    ensures forall s :: s in d.kwargs && s !in ReservedNames ==> s in Overrides(d, keys).value.kwargs
    ensures forall k :: k !in keys && Name(k) in d.kwargs ==> Name(k) in Overrides(d, keys).value.kwargs
    ensures forall k :: k in keys && Name(k) in d.kwargs ==> IsInstance(d.kwargs[Name(k)], Expected(k))
    decreases |keys|
  {
    if keys != [] {
      NameInjective();
      var d' := Step(d, keys[0]).value;
      StepConsumes(d, keys[0]);
      OverridesConsume(d', keys[1..]);
      assert forall k :: k in keys ==> k == keys[0] || k in keys[1..];
    }
  }

  /**
   * After the whole loop no reserved argument is left, every value that got
   * through was of the expected class, and every other keyword argument is
   * passed on unchanged.
   */
  lemma OverridesConsumeAll(d: Draft)
    requires Overrides(d, DecorList).Ok?
    ensures forall k: Decor :: Name(k) !in Overrides(d, DecorList).value.kwargs
    ensures forall k: Decor :: Name(k) in d.kwargs ==> IsInstance(d.kwargs[Name(k)], Expected(k))
    ensures forall s :: s in Overrides(d, DecorList).value.kwargs ==>
      s in d.kwargs && Overrides(d, DecorList).value.kwargs[s] == d.kwargs[s]
    ensures forall s :: s in d.kwargs && s !in ReservedNames ==> s in Overrides(d, DecorList).value.kwargs
  {
    OverridesConsume(d, DecorList);
    DecorListComplete();
  }

  /** Every reserved argument is in `DECOR_LIST`. */
  lemma DecorListComplete()
    ensures forall k: Decor :: k in DecorList
  {
    forall k: Decor
      ensures k in DecorList
    {
      var i := match k
        case Header => 0 case Query => 1 case Form => 2 case Multipart => 3 case On => 4
        case Accept => 5 case Content => 6 case Timeout => 7 case Stream => 8 case Body => 9;
      assert DecorList[i] == k;
    }
  }

  lemma DecorListDistinct()
    ensures Distinct(DecorList)
  {
  }

  /** One step touches only the slot of its own argument, and only its own keyword. */
  lemma StepSlot(d: Draft, k: Decor, j: Decor)
    requires Step(d, k).Ok? && FillsSlot(j)
    ensures k == j && Name(k) in d.kwargs ==> Overridden(d, j) == Ok(Slot(Step(d, k).value, j))
    ensures !(k == j && Name(k) in d.kwargs) ==> Slot(Step(d, k).value, j) == Slot(d, j)
    ensures k != j ==> (Name(j) in Step(d, k).value.kwargs <==> Name(j) in d.kwargs)
    ensures k != j && Name(j) in d.kwargs ==> Step(d, k).value.kwargs[Name(j)] == d.kwargs[Name(j)]
  {
    NameInjective();
  }

  /** A slot ends as the call-time override made it, or as declared when the caller did not pass its argument. */
  lemma {:induction false} OverridesSlot(d: Draft, keys: seq<Decor>, j: Decor)
    requires Overrides(d, keys).Ok? && Distinct(keys) && FillsSlot(j)
    ensures j in keys && Name(j) in d.kwargs ==> Overridden(d, j) == Ok(Slot(Overrides(d, keys).value, j))
    ensures !(j in keys && Name(j) in d.kwargs) ==> Slot(Overrides(d, keys).value, j) == Slot(d, j)
    decreases |keys|
  {
    if keys != [] {
      DistinctTail(keys);
      StepSlot(d, keys[0], j);
      OverridesSlot(Step(d, keys[0]).value, keys[1..], j);
    }
  }

  /** Arguments other than `header`, `accept` and `content` leave the header map alone. */
  lemma {:induction false} OverridesKeepHeaders(d: Draft, keys: seq<Decor>)
    requires Overrides(d, keys).Ok?
    requires Header !in keys && Accept !in keys && Content !in keys
    ensures Overrides(d, keys).value.headers == d.headers
    decreases |keys|
  {
    if keys != [] {
      assert keys[0] != Header && keys[0] != Accept && keys[0] != Content;
      OverridesKeepHeaders(Step(d, keys[0]).value, keys[1..]);
    }
  }

  /** Running the loop over `a + b` is running it over `a`, then over `b`. */
  lemma {:induction false} OverridesAppend(d: Draft, a: seq<Decor>, b: seq<Decor>)
    ensures Overrides(d, a + b) == (var x :- Overrides(d, a); Overrides(x, b))
    decreases |a|
  {
    if a == [] {
      assert a + b == b;
    } else {
      assert (a + b)[0] == a[0];
      assert (a + b)[1..] == a[1..] + b;
      if Step(d, a[0]).Ok? {
        OverridesAppend(Step(d, a[0]).value, a[1..], b);
      }
    }
  }

  /** Among the first five arguments of the loop only `header` touches the header map. */
  lemma FrontHeaders(d: Draft)
    requires Overrides(d, DecorList[..5]).Ok?
    ensures var d5 := Overrides(d, DecorList[..5]).value;
      && ("header" in d.kwargs ==> MergeDicts(d.headers, d.kwargs["header"]) == Ok(d5.headers))
      && ("header" !in d.kwargs ==> d5.headers == d.headers)
  {
    var front := DecorList[..5];
    assert front == [Header] + front[1..];
    OverridesAppend(d, [Header], front[1..]);
    OverridesKeepHeaders(Step(d, Header).value, front[1..]);
  }

  /** The first five arguments of the loop leave `accept` and `content` for the rest of it. */
  lemma FrontKeeps(d: Draft)
    requires Overrides(d, DecorList[..5]).Ok?
    ensures var d5 := Overrides(d, DecorList[..5]).value;
      && ("accept" in d5.kwargs <==> "accept" in d.kwargs)
      && ("accept" in d.kwargs ==> d5.kwargs["accept"] == d.kwargs["accept"])
      && ("content" in d5.kwargs <==> "content" in d.kwargs)
      && ("content" in d.kwargs ==> d5.kwargs["content"] == d.kwargs["content"])
  {
    var front := DecorList[..5];
    OverridesConsume(d, front);
    assert Accept !in front && Name(Accept) == "accept";
    assert Content !in front && Name(Content) == "content";
  }

  /** The loop is its first five arguments followed by its last five. */
  lemma OverridesFront(d: Draft)
    requires Overrides(d, DecorList).Ok?
    ensures Overrides(d, DecorList[..5]).Ok?
    ensures Overrides(d, DecorList) == Overrides(Overrides(d, DecorList[..5]).value, DecorList[5..])
  {
    assert DecorList == DecorList[..5] + DecorList[5..];
    OverridesAppend(d, DecorList[..5], DecorList[5..]);
  }

  /** The header `accept` and `content` assign. */
  function HeaderKey(k: Decor): PyVal {
    if k == Accept then PStr("accept") else PStr("content-type")
  }

  /** A step of `accept` or `content` assigns its header and leaves every header it does not address alone. */
  lemma StepAssigns(d: Draft, k: Decor, q: PyVal)
    requires Step(d, k).Ok? && (k == Accept || k == Content)
    ensures var r := Step(d, k).value;
      && r.headers.PCIDict? == d.headers.PCIDict?
      && MGet(r.headers, q) ==
           if Name(k) in d.kwargs && SameKey(d.headers, HeaderKey(k), q) then Some(d.kwargs[Name(k)])
           else MGet(d.headers, q)
  {
    if Name(k) in d.kwargs {
      MSetGet(d.headers, HeaderKey(k), d.kwargs[Name(k)], q);
    }
  }

  /** The last five arguments of the loop are `accept`, `content`, and three that leave the header map alone. */
  lemma BackSteps(d5: Draft)
    requires Overrides(d5, DecorList[5..]).Ok?
    ensures Step(d5, Accept).Ok? && Step(Step(d5, Accept).value, Content).Ok?
    ensures Overrides(d5, DecorList[5..]).value.headers == Step(Step(d5, Accept).value, Content).value.headers
    ensures "content" in Step(d5, Accept).value.kwargs <==> "content" in d5.kwargs
    ensures "content" in d5.kwargs ==> Step(d5, Accept).value.kwargs["content"] == d5.kwargs["content"]
  {
    var back := DecorList[5..];
    assert back == [Accept, Content] + back[2..];
    OverridesAppend(d5, [Accept, Content], back[2..]);
    var d6 := Step(d5, Accept).value;
    var d7 := Step(d6, Content).value;
    assert Overrides(d5, [Accept, Content]) == Ok(d7);
    OverridesKeepHeaders(d7, back[2..]);
    StepConsumes(d5, Accept);
  }

  /** The last five arguments of the loop: `accept`, then `content`, are assigned into the header map. */
  lemma OverridesBack(d5: Draft, q: PyVal)
    requires Overrides(d5, DecorList[5..]).Ok?
    ensures var r := Overrides(d5, DecorList[5..]).value;
      && r.headers.PCIDict? == d5.headers.PCIDict?
      && ("content" in d5.kwargs ==> MGet(r.headers, PStr("content-type")) == Some(d5.kwargs["content"]))
      && ("accept" in d5.kwargs && !SameKey(r.headers, PStr("content-type"), PStr("accept")) ==>
            MGet(r.headers, PStr("accept")) == Some(d5.kwargs["accept"]))
      && (!SameKey(r.headers, PStr("content-type"), q) && !SameKey(r.headers, PStr("accept"), q) ==>
            MGet(r.headers, q) == MGet(d5.headers, q))
  {
    BackSteps(d5);
    var d6 := Step(d5, Accept).value;
    StepAssigns(d5, Accept, q);
    StepAssigns(d5, Accept, PStr("accept"));
    StepAssigns(d6, Content, q);
    StepAssigns(d6, Content, PStr("content-type"));
    StepAssigns(d6, Content, PStr("accept"));
  }

  /**
   * The header map after the loop: the call-time `content` is the content
   * type, the call-time `accept` the accept header, and every other key reads
   * as the call-time `header` map merged over the declared headers says.
   */
  lemma OverridesHeaders(d: Draft, q: PyVal)
    requires Overrides(d, DecorList).Ok?
    ensures var r := Overrides(d, DecorList).value;
      && ("header" in d.kwargs ==> MergeDicts(d.headers, d.kwargs["header"]).Ok?)
      && ("content" in d.kwargs ==> MGet(r.headers, PStr("content-type")) == Some(d.kwargs["content"]))
      && ("accept" in d.kwargs && !SameKey(r.headers, PStr("content-type"), PStr("accept")) ==>
            MGet(r.headers, PStr("accept")) == Some(d.kwargs["accept"]))
      && (!SameKey(r.headers, PStr("content-type"), q) && !SameKey(r.headers, PStr("accept"), q) ==>
            MGet(r.headers, q) == MGet(if "header" in d.kwargs then MergeDicts(d.headers, d.kwargs["header"]).value else d.headers, q))
  {
    OverridesFront(d);
    FrontHeaders(d);
    FrontKeeps(d);
    OverridesBack(Overrides(d, DecorList[..5]).value, q);
  }

  /** After the whole loop a slot-filling argument is consumed and its slot holds the override, if any. */
  lemma OverridesSlotFinal(d: Draft, j: Decor)
    requires Overrides(d, DecorList).Ok? && FillsSlot(j)
    ensures Name(j) !in Overrides(d, DecorList).value.kwargs
    ensures Name(j) in d.kwargs ==> Overridden(d, j) == Ok(Slot(Overrides(d, DecorList).value, j))
    ensures Name(j) !in d.kwargs ==> Slot(Overrides(d, DecorList).value, j) == Slot(d, j)
  {
    DecorListDistinct();
    assert j in DecorList;
    OverridesSlot(d, DecorList, j);
    OverridesConsume(d, DecorList);
  }

  /**
   * After the whole loop `timeout`, `stream` and `body` are consumed, and each
   * holds the call-time value when the caller passed one, the draft's otherwise.
   */
  lemma OverridesScalars(d: Draft)
    requires Overrides(d, DecorList).Ok?
    ensures var r := Overrides(d, DecorList).value;
      && "timeout" !in r.kwargs && "stream" !in r.kwargs && "body" !in r.kwargs
      && r.timeout == (if "timeout" in d.kwargs then d.kwargs["timeout"] else d.timeout)
      && r.stream == (if "stream" in d.kwargs then d.kwargs["stream"] else d.stream)
      && r.body == (if "body" in d.kwargs then d.kwargs["body"] else d.body)
  {
    SlotFields(d);
    SlotFields(Overrides(d, DecorList).value);
    OverriddenScalars(d);
    OverridesSlotFinal(d, Timeout);
    OverridesSlotFinal(d, Stream);
    OverridesSlotFinal(d, Body);
  }

  /** Arguments the caller did not pass are skipped by the loop. */
  lemma {:induction false} OverridesSkipAbsent(d: Draft, keys: seq<Decor>)
    requires forall i :: 0 <= i < |keys| ==> Name(keys[i]) !in d.kwargs
    ensures Overrides(d, keys) == Ok(d)
    decreases |keys|
  {
    if keys != [] {
      OverridesSkipAbsent(d, keys[1..]);
    }
  }

  /**
   * A mapping slot holding a plain dict or None ends as the call-time dict
   * merged over it: a key the caller passed reads as passed, any other as
   * declared.
   */
  lemma OverridesMerged(d: Draft, r: Draft, j: Decor, q: PyVal)
    requires Overrides(d, DecorList) == Ok(r) && FillsSlot(j) && Expected(j) == ADict
    requires Slot(d, j) == PNone || Slot(d, j).PDict?
    ensures Slot(r, j) == PNone || Slot(r, j).PDict?
    ensures MGet(Slot(r, j), q) ==
           if Name(j) in d.kwargs && MHas(d.kwargs[Name(j)], q) then MGet(d.kwargs[Name(j)], q)
           else MGet(Slot(d, j), q)
  {
    OverridesSlotFinal(d, j);
    OverridesConsume(d, DecorList);
    assert j in DecorList;
    if Name(j) in d.kwargs {
      MergeDictsPlain(Slot(d, j), d.kwargs[Name(j)], q);
    }
  }

  /** `OverridesMerged` for the status handlers. */
  lemma OverridesHandlers(d: Draft, r: Draft, status: PyVal)
    requires Overrides(d, DecorList) == Ok(r)
    requires d.handlers == PNone || d.handlers.PDict?
    ensures MGet(r.handlers, status) ==
      if "on" in d.kwargs && MHas(d.kwargs["on"], status) then MGet(d.kwargs["on"], status)
      else MGet(d.handlers, status)
  {
    SlotFields(d);
    SlotFields(r);
    OverridesMerged(d, r, On, status);
  }

  /** `OverridesMerged` for the query parameters. */
  lemma OverridesQuery(d: Draft, r: Draft, q: PyVal)
    requires Overrides(d, DecorList) == Ok(r)
    requires d.query == PNone || d.query.PDict?
    ensures MGet(r.query, q) ==
      if "query" in d.kwargs && MHas(d.kwargs["query"], q) then MGet(d.kwargs["query"], q)
      else MGet(d.query, q)
  {
    SlotFields(d);
    SlotFields(r);
    OverridesMerged(d, r, Query, q);
  }

  /** `OverridesMerged` for the form fields. */
  lemma OverridesForm(d: Draft, r: Draft, q: PyVal)
    requires Overrides(d, DecorList) == Ok(r)
    requires d.form == PNone || d.form.PDict?
    ensures MGet(r.form, q) ==
      if "form" in d.kwargs && MHas(d.kwargs["form"], q) then MGet(d.kwargs["form"], q)
      else MGet(d.form, q)
  {
    SlotFields(d);
    SlotFields(r);
    OverridesMerged(d, r, Form, q);
  }

  /** `OverridesMerged` for the multipart fields. */
  lemma OverridesMultipart(d: Draft, r: Draft, q: PyVal)
    requires Overrides(d, DecorList) == Ok(r)
    requires d.multipart == PNone || d.multipart.PDict?
    ensures MGet(r.multipart, q) ==
      if "multipart" in d.kwargs && MHas(d.kwargs["multipart"], q) then MGet(d.kwargs["multipart"], q)
      else MGet(d.multipart, q)
  {
    SlotFields(d);
    SlotFields(r);
    OverridesMerged(d, r, Multipart, q);
  }

  /**
   * The first reserved argument, in `DECOR_LIST` order, whose value is not of
   * the expected class stops the loop with the `TypeError` naming it.
   */
  lemma OverridesRejects(d: Draft, i: nat)
    requires i < |DecorList| && Overrides(d, DecorList[..i]).Ok?
    requires Name(DecorList[i]) in d.kwargs && !IsInstance(d.kwargs[Name(DecorList[i])], Expected(DecorList[i]))
    ensures Overrides(d, DecorList) == Err(TypeError(TypeMessage(DecorList[i])))
  {
    var k := DecorList[i];
    assert DecorList == DecorList[..i] + ([k] + DecorList[i + 1..]);
    OverridesAppend(d, DecorList[..i], [k] + DecorList[i + 1..]);
    DecorListDistinct();
    assert k !in DecorList[..i];
    OverridesConsume(d, DecorList[..i]);
    var di := Overrides(d, DecorList[..i]).value;
    assert ([k] + DecorList[i + 1..])[0] == k;
    assert Step(di, k) == Err(TypeError(TypeMessage(k)));
  }
}
