/**
 * The Python values the decorator engine stores, compares and forwards, with
 * the two mapping kinds it distinguishes (`dict` and requests'
 * `CaseInsensitiveDict`), Python truthiness, and `merge_dicts`.
 */
module PyValues {
  import opened Wrappers
  import opened Dicts

  datatype PyVal =
    | PNone
    | PBool(b: bool)
    | PInt(i: int)
    | PFloat(r: real)
    | PStr(s: string)
    | PEllipsis                                  // the literal `...`
    | PAnyStatus                                 // HttpStatus.ANY, the catch-all status key
    | PMethod(name: string)                      // a member of the HttpMethod enumeration
    | PFunc(id: nat)                             // a callable: status handler, body serializer
    | PTuple(elems: seq<PyVal>)
    | PList(elems: seq<PyVal>)
    | PDict(items: Items<PyVal, PyVal>)
    | PCIDict(store: Items<string, (string, PyVal)>)  // lower-cased key -> (last key as written, value)
    | PObj(id: nat, truthy: bool)                // any other object, with its truth value

  datatype Cause = TransportFailure(id: nat) | StatusFailure(status: int)

  datatype PyError =
    | TypeError(msg: string)
    | AttributeError(msg: string)
    | ValueError(msg: string)
    | HTTPErrorWrapper(cause: Cause)

  type Fallible<T> = Result<T, PyError>

  /** Python's truth value of `v` (`bool(v)`). */
  predicate Truthy(v: PyVal) {
    match v
    case PNone => false
    case PBool(b) => b
    case PInt(i) => i != 0
    case PFloat(r) => r != 0.0
    case PStr(s) => s != []
    case PTuple(e) => e != []
    case PList(e) => e != []
    case PDict(d) => d != []
    case PCIDict(c) => c != []
    case PObj(_, t) => t
    case _ => true
  }

  function LowerChar(c: char): char {
    if 'A' <= c <= 'Z' then (c as int + 32) as char else c
  }

  /** `s.lower()` restricted to ASCII letters. */
  function Lower(s: string): (r: string)
    ensures |r| == |s|
    ensures forall i :: 0 <= i < |s| ==> r[i] == LowerChar(s[i])
  {
    seq(|s|, i requires 0 <= i < |s| => LowerChar(s[i]))
  }

  predicate IsMapping(m: PyVal) {
    m.PDict? || m.PCIDict?
  }

  /** The keys `k` and `k'` address the same entry of the mapping `m`. */
  predicate SameKey(m: PyVal, k: PyVal, k': PyVal) {
    if m.PCIDict? then k.PStr? && k'.PStr? && Lower(k.s) == Lower(k'.s) else k == k'
  }

  /** `m[k]` when `k in m`; `None` otherwise. */
  function MGet(m: PyVal, k: PyVal): Option<PyVal> {
    match m
    case PDict(d) => Get(d, k)
    case PCIDict(c) =>
      if k.PStr? then
        match Get(c, Lower(k.s))
        case Some(e) => Some(e.1)
        case None => None
      else None
    case _ => None
  }

  /** `k in m` */
  predicate MHas(m: PyVal, k: PyVal) {
    MGet(m, k).Some?
  }

  /** `m[k] = v`; a case-insensitive dict lower-cases `k` and so needs a string. */
  function MSet(m: PyVal, k: PyVal, v: PyVal): Fallible<PyVal> {
    match m
    case PDict(d) => Ok(PDict(Put(d, k, v)))
    case PCIDict(c) =>
      if k.PStr? then Ok(PCIDict(Put(c, Lower(k.s), (k.s, v))))
      else Err(AttributeError("key has no attribute 'lower'"))
    case _ => Err(TypeError("object does not support item assignment"))
  }

  /** `m.items()`; a case-insensitive dict yields each key as last written. */
  function MItems(m: PyVal): (r: Items<PyVal, PyVal>)
    ensures m.PDict? ==> r == m.items
    ensures m.PCIDict? ==> |r| == |m.store|
    ensures m.PCIDict? ==> forall i :: 0 <= i < |r| ==> r[i] == (PStr(m.store[i].1.0), m.store[i].1.1)
  {
    match m
    case PDict(d) => d
    case PCIDict(c) => seq(|c|, i requires 0 <= i < |c| => (PStr(c[i].1.0), c[i].1.1))
    case _ => []
  }

  /** Assigns the entries `e`, in order, into the mapping `m`. */
  function MSetAll(m: PyVal, e: Items<PyVal, PyVal>): Fallible<PyVal>
    decreases |e|
  {
    if e == [] then Ok(m)
    else
      var m' :- MSetAll(m, e[..|e| - 1]);
      MSet(m', e[|e| - 1].0, e[|e| - 1].1)
  }

  /** `m.update(e)` */
  function MUpdate(m: PyVal, e: PyVal): Fallible<PyVal> {
    if !IsMapping(m) then Err(AttributeError("object has no attribute 'update'"))
    else if !IsMapping(e) then Err(TypeError("update argument is not a mapping"))
    else MSetAll(m, MItems(e))
  }

  /**
   * `utils.merge_dicts(a, b)`: None arguments are skipped, the first remaining
   * one is copied and the copy updated with the next.
   */
  function MergeDicts(a: PyVal, b: PyVal): Fallible<PyVal> {
    if a == PNone then Ok(b)
    else if b == PNone then Ok(a)
    else MUpdate(a, b)
  }

  /** The value of the last entry of `e` that addresses the same entry of `m` as `k`. */
  function LastMatch(m: PyVal, e: Items<PyVal, PyVal>, k: PyVal): Option<PyVal>
    decreases |e|
  {
    if e == [] then None
    else if SameKey(m, e[|e| - 1].0, k) then Some(e[|e| - 1].1)
    else LastMatch(m, e[..|e| - 1], k)
  }

  /** `hash(v)` succeeds: lists and mappings are unhashable, a tuple is hashable when its elements are. */
  predicate Hashable(v: PyVal) {
    match v
    case PList(_) => false
    case PDict(_) => false
    case PCIDict(_) => false
    case PTuple(e) => forall i :: 0 <= i < |e| ==> Hashable(e[i])
    case _ => true
  }

  /** The `TypeError` Python raises when a value must be hashed and cannot be. */
  const UnhashableMessage := "unhashable type"

  /** Every stored key of a case-insensitive dict is the lower-cased key kept beside it. */
  predicate WellKeyed(m: PyVal) {
    m.PCIDict? ==> forall i :: 0 <= i < |m.store| ==> m.store[i].0 == Lower(m.store[i].1.0)
  }

  lemma LowerTwice(s: string)
    ensures Lower(Lower(s)) == Lower(s)
  {
  }

  /** Item assignment: the assigned key reads back, keys addressing other entries are untouched. */
  lemma MSetGet(m: PyVal, k: PyVal, v: PyVal, k': PyVal)
    requires MSet(m, k, v).Ok?
    ensures var r := MSet(m, k, v).value;
      && r.PDict? == m.PDict? && r.PCIDict? == m.PCIDict?
      && MGet(r, k') == if SameKey(m, k, k') then Some(v) else MGet(m, k')
  {
    match m
    case PDict(d) => GetPut(d, k, v, k');
    case PCIDict(c) =>
      if k'.PStr? {
        GetPut(c, Lower(k.s), (k.s, v), Lower(k'.s));
      }
  }

  /** Successive assignment succeeds exactly when every key fits the mapping's kind. */
  lemma {:induction false} MSetAllOk(m: PyVal, e: Items<PyVal, PyVal>)
    requires IsMapping(m)
    ensures MSetAll(m, e).Ok? <==> (m.PCIDict? ==> forall i :: 0 <= i < |e| ==> e[i].0.PStr?)
  {
    if e != [] {
      var e' := e[..|e| - 1];
      MSetAllOk(m, e');
      assert forall i :: 0 <= i < |e'| ==> e'[i] == e[i];
      if MSetAll(m, e').Ok? {
        MSetAllKind(m, e');
        var mid := MSetAll(m, e').value;
        assert MSetAll(m, e) == MSet(mid, e[|e| - 1].0, e[|e| - 1].1);
      }
    }
  }

  lemma {:induction false} MSetAllKind(m: PyVal, e: Items<PyVal, PyVal>)
    requires MSetAll(m, e).Ok?
    ensures MSetAll(m, e).value.PDict? == m.PDict? && MSetAll(m, e).value.PCIDict? == m.PCIDict?
  {
    if e != [] {
      var e' := e[..|e| - 1];
      MSetAllKind(m, e');
      MSetGet(MSetAll(m, e').value, e[|e| - 1].0, e[|e| - 1].1, PNone);
    }
  }

  /** Successive assignment is later-wins per entry of `m`. */
  lemma {:induction false} MSetAllGet(m: PyVal, e: Items<PyVal, PyVal>, k: PyVal)
    requires MSetAll(m, e).Ok?
    ensures var r := MSetAll(m, e).value;
      && r.PDict? == m.PDict? && r.PCIDict? == m.PCIDict?
      && MGet(r, k) == if LastMatch(m, e, k).Some? then LastMatch(m, e, k) else MGet(m, k)
  {
    if e != [] {
      var e' := e[..|e| - 1];
      MSetAllGet(m, e', k);
      var mid := MSetAll(m, e').value;
      MSetGet(mid, e[|e| - 1].0, e[|e| - 1].1, k);
    }
  }

  /** For a plain dict, the last entry of `e` addressing `k` is `e`'s own lookup of `k`. */
  lemma {:induction false} LastMatchPlain(m: PyVal, e: Items<PyVal, PyVal>, k: PyVal)
    requires m.PDict?
    ensures LastMatch(m, e, k) == Get(e, k)
  {
    if e != [] {
      LastMatchPlain(m, e[..|e| - 1], k);
    }
  }

  /** For two case-insensitive dicts, the last item of `b` addressing `k` is `b`'s own lookup of `k`. */
  lemma {:induction false} LastMatchCI(m: PyVal, b: PyVal, n: nat, k: PyVal)
    requires m.PCIDict? && b.PCIDict? && WellKeyed(b) && n <= |b.store|
    ensures LastMatch(m, MItems(b)[..n], k) == MGet(PCIDict(b.store[..n]), k)
  {
    if n > 0 {
      var e, c := MItems(b)[..n], b.store[..n];
      LastMatchCI(m, b, n - 1, k);
      assert e[..n - 1] == MItems(b)[..n - 1];
      assert c[..n - 1] == b.store[..n - 1];
      var orig := b.store[n - 1].1.0;
      assert e[n - 1] == (PStr(orig), c[n - 1].1.1);
      assert c[n - 1].0 == Lower(orig);
      if k.PStr? {
        LowerTwice(orig);
        assert SameKey(m, e[n - 1].0, k) <==> c[n - 1].0 == Lower(k.s);
      }
    }
  }

  /**
   * `merge_dicts` of two mappings of the same kind: a key present in `b` reads
   * as in `b`, any other key as in `a`, and the result keeps `a`'s kind.
   */
  lemma MergeDictsLaterWins(a: PyVal, b: PyVal, k: PyVal)
    requires (a.PDict? && b.PDict?) || (a.PCIDict? && b.PCIDict? && WellKeyed(b))
    ensures MergeDicts(a, b).Ok?
    ensures var r := MergeDicts(a, b).value;
      && r.PDict? == a.PDict?
      && MGet(r, k) == if MHas(b, k) then MGet(b, k) else MGet(a, k)
  {
    MSetAllOk(a, MItems(b));
    MSetAllGet(a, MItems(b), k);
    if a.PDict? {
      LastMatchPlain(a, MItems(b), k);
    } else {
      LastMatchCI(a, b, |b.store|, k);
      assert MItems(b)[..|b.store|] == MItems(b);
      assert b.store[..|b.store|] == b.store;
    }
  }

  /**
   * `merge_dicts` of plain dicts or None: the result is a plain dict or None,
   * and a key present in `b` reads as in `b`, any other key as in `a`.
   */
  lemma MergeDictsPlain(a: PyVal, b: PyVal, k: PyVal)
    requires a == PNone || a.PDict?
    requires b == PNone || b.PDict?
    ensures MergeDicts(a, b).Ok?
    ensures var r := MergeDicts(a, b).value;
      && (r == PNone || r.PDict?)
      && MGet(r, k) == if MHas(b, k) then MGet(b, k) else MGet(a, k)
  {
    if a.PDict? && b.PDict? {
      MergeDictsLaterWins(a, b, k);
    }
  }

  /**
   * `merge_dicts` where the first argument is None returns the second, and a
   * None second argument leaves the first.
   */
  lemma MergeDictsNone(a: PyVal, b: PyVal)
    ensures a == PNone ==> MergeDicts(a, b) == Ok(b)
    ensures a != PNone && b == PNone ==> MergeDicts(a, b) == Ok(a)
  {
  }
}
