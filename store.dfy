/**
 * The per-declaration metadata store: the `__decorest__` dictionary that
 * `set_decor` fills and `get_decor` reads.
 */
module Store {
  import opened Wrappers
  import opened Dicts
  import opened PyValues

  /** A `__decorest__` dictionary: decorator name -> stored value. */
  class DecorDict {
    var entries: map<string, PyVal>

    constructor ()
      ensures entries == map[]
    {
      entries := map[];
    }
  }

  /** `get_decor`: the stored value when it is present and truthy, None otherwise. */
  function Read(entries: map<string, PyVal>, name: string): (r: PyVal)
    ensures Truthy(r) <==> name in entries && Truthy(entries[name])
    ensures r == PNone || (name in entries && r == entries[name])
  {
    if name in entries && Truthy(entries[name]) then entries[name] else PNone
  }

  /** `d.get(name)` */
  function Current(entries: map<string, PyVal>, name: string): PyVal {
    if name in entries then entries[name] else PNone
  }

  /**
   * The entry `set_decor` leaves behind when the name held `cur` and is given
   * `value`: mappings are merged into the entry (a missing or falsy entry is
   * first reset to an empty mapping of the value's kind), lists extend it and
   * anything else replaces it.
   */
  function Merged(cur: PyVal, value: PyVal): Fallible<PyVal> {
    if value.PCIDict? then MergeDicts(if Truthy(cur) then cur else PCIDict([]), value)
    else if value.PDict? then MergeDicts(if Truthy(cur) then cur else PDict([]), value)
    else if value.PList? then
      if !Truthy(cur) then Ok(PList(value.elems))
      else if cur.PList? then Ok(PList(cur.elems + value.elems))
      else Err(AttributeError("object has no attribute 'extend'"))
    else Ok(value)
  }

  /** The whole dictionary after `set_decor(t, name, value)`. */
  function AfterSet(entries: map<string, PyVal>, name: string, value: PyVal): (r: Fallible<map<string, PyVal>>)
    ensures r.Ok? ==> r.value.Keys == entries.Keys + {name}
    ensures r.Ok? ==> forall n :: n in entries && n != name ==> r.value[n] == entries[n]
  {
    var v :- Merged(Current(entries, name), value);
    Ok(entries[name := v])
  }

  /** The dictionaries the base classes `bases` hold of their own. */
  function DictsOf(bases: seq<Declaration>): set<DecorDict?>
    reads bases
  {
    set i | 0 <= i < |bases| :: bases[i].decor
  }

  /**
   * The dictionary `getattr(t, '__decorest__')` finds among the base classes
   * `bases`, searched in order: the first one that has its own.
   */
  function FirstDecor(bases: seq<Declaration>): (d: DecorDict?)
    reads bases
    ensures d == null <==> forall i :: 0 <= i < |bases| ==> bases[i].decor == null
    ensures d != null ==> d in DictsOf(bases)
    decreases |bases|
  {
    if bases == [] then null
    else if bases[0].decor != null then bases[0].decor
    else
      var d := FirstDecor(bases[1..]);
      assert d != null ==> d in DictsOf(bases) by {
        if d != null {
          var j :| 0 <= j < |bases[1..]| && d == bases[1..][j].decor;
          assert d == bases[j + 1].decor;
        }
      }
      d
  }

  /** A decorated class or function. */
  class Declaration {
    const isClass: bool
    const bases: seq<Declaration>    // a class's base classes in method resolution order; none for a function
    const wrapped: Declaration?      // `__wrapped__`, the function `functools.wraps` wrapped
    var decor: DecorDict?            // the own `__decorest__` attribute, absent until set

    /** `functools.wraps` copies the wrapped function's attributes, its `__decorest__` among them. */
    constructor (isClass: bool, bases: seq<Declaration>, wrapped: Declaration?)
      ensures this.isClass == isClass && this.bases == bases && this.wrapped == wrapped
      ensures decor == (if wrapped != null then wrapped.decor else null)
    {
      this.isClass := isClass;
      this.bases := bases;
      this.wrapped := wrapped;
      decor := if wrapped != null then wrapped.decor else null;
    }

    /** `getattr(t, '__decorest__', None)`: the own dictionary, else the first a base class has. */
    function Found(): (d: DecorDict?)
      reads this, bases
      ensures d == decor || d in DictsOf(bases)
    {
      if decor != null then decor else FirstDecor(bases)
    }

    /** What `get_decor` sees: the dictionary found, or nothing. */
    function Entries(): map<string, PyVal>
      reads this, bases, decor, DictsOf(bases)
    {
      if Found() == null then map[] else Found().entries
    }

    /** `get_decor(t, name)` */
    function GetDecor(name: string): (r: PyVal)
      reads this, bases, decor, DictsOf(bases)
      ensures Truthy(r) <==> name in Entries() && Truthy(Entries()[name])
      ensures r == PNone || (name in Entries() && r == Entries()[name])
    {
      Read(Entries(), name)
    }

    /**
     * The dictionary `set_decor` writes to: the wrapped function's when it
     * has one, else the one found on the declaration or a base class.
     */
    function Target(): DecorDict?
      reads this, bases, wrapped
    {
      if wrapped != null && wrapped.decor != null then wrapped.decor else Found()
    }

    function TargetEntries(): map<string, PyVal>
      reads this, bases, wrapped, decor, DictsOf(bases), if wrapped != null then wrapped.decor else null
    {
      if Target() == null then map[] else Target().entries
    }

    /**
     * `set_decor(t, name, value)`: adopt the wrapped function's dictionary if
     * it has one; create an empty one only if none is found, so a class
     * whose base class has one writes into the base class's dictionary;
     * then store the merged entry. On failure the dictionary keeps its
     * entries.
     */
    method SetDecor(name: string, value: PyVal) returns (r: Fallible<()>)
      modifies this, Target()
      ensures Found() != null
      ensures old(Target()) != null ==> Found() == old(Target())
      ensures old(Target()) == null ==> fresh(decor) && Found() == decor
      ensures wrapped != null && old(wrapped.decor) != null ==> decor == old(wrapped.decor)
      ensures old(Target()) != null && !(wrapped != null && old(wrapped.decor) != null) ==> decor == old(decor)
      ensures match AfterSet(old(TargetEntries()), name, value)
              case Ok(m) => r.Ok? && Entries() == m
              case Err(e) => r == Err(e) && Entries() == old(TargetEntries())
    {
      if wrapped != null && wrapped.decor != null {
        decor := wrapped.decor;
      }
      if Found() == null {
        decor := new DecorDict();
      }
      var d := Found();
      match Merged(Current(d.entries, name), value) {
        case Ok(v) =>
          d.entries := d.entries[name := v];
          r := Ok(());
        case Err(e) =>
          r := Err(e);
      }
    }
  }

  /**
   * A class without a dictionary of its own reads the dictionary of the
   * first base class in method resolution order that has one.
   */
  lemma {:induction false} InheritedLookup(bases: seq<Declaration>, i: nat)
    requires i < |bases| && bases[i].decor != null
    requires forall j :: 0 <= j < i ==> bases[j].decor == null
    ensures FirstDecor(bases) == bases[i].decor
    decreases i
  {
    if i > 0 {
      InheritedLookup(bases[1..], i - 1);
    }
  }

  /** `get_decor` on a class with no own dictionary answers from its first decorated base class. */
  lemma InheritedRead(t: Declaration, i: nat, name: string)
    requires t.decor == null && i < |t.bases| && t.bases[i].decor != null
    requires forall j :: 0 <= j < i ==> t.bases[j].decor == null
    ensures t.GetDecor(name) == Read(t.bases[i].decor.entries, name)
  {
    InheritedLookup(t.bases, i);
  }

  /** A stored 0, False, "" or empty mapping reads as absent, exactly like a missing entry. */
  lemma FalsyReadsAsAbsent(entries: map<string, PyVal>, name: string)
    requires name in entries
    requires entries[name] in {PInt(0), PBool(false), PFloat(0.0), PStr(""), PDict([]), PCIDict([]), PList([]), PNone}
    ensures Read(entries, name) == Read(entries - {name}, name) == PNone
  {
  }

  /**
   * Merging a mapping into an entry that is missing, falsy, or a mapping of
   * the same kind: the entry becomes a mapping of that kind in which every key
   * of `value` reads as in `value` and every other key as before.
   */
  lemma SetDecorMergesMappings(entries: map<string, PyVal>, name: string, value: PyVal, k: PyVal)
    requires IsMapping(value) && WellKeyed(value)
    requires var cur := Current(entries, name);
      !Truthy(cur) || (IsMapping(cur) && cur.PDict? == value.PDict?)
    ensures AfterSet(entries, name, value).Ok?
    ensures var e := AfterSet(entries, name, value).value[name];
      && e.PDict? == value.PDict? && IsMapping(e)
      && MGet(e, k) == if MHas(value, k) then MGet(value, k) else MGet(Read(entries, name), k)
  {
    var cur := Current(entries, name);
    var base := if Truthy(cur) then cur else if value.PCIDict? then PCIDict([]) else PDict([]);
    assert Merged(cur, value) == MergeDicts(base, value);
    MergeDictsLaterWins(base, value, k);
  }

  /** A list extends a missing, falsy or list entry and is refused by any other truthy entry. */
  lemma SetDecorExtendsLists(entries: map<string, PyVal>, name: string, value: PyVal)
    requires value.PList?
    ensures var cur := Current(entries, name);
      AfterSet(entries, name, value).Ok? <==> (!Truthy(cur) || cur.PList?)
    ensures AfterSet(entries, name, value).Ok? ==>
      AfterSet(entries, name, value).value[name]
        == PList((if Read(entries, name) == PNone then [] else entries[name].elems) + value.elems)
  {
  }

  /** Any value that is neither a mapping nor a list replaces the entry outright. */
  lemma SetDecorReplacesScalars(entries: map<string, PyVal>, name: string, value: PyVal)
    requires !IsMapping(value) && !value.PList?
    ensures AfterSet(entries, name, value) == Ok(entries[name := value])
  {
  }

  /** A one-entry mapping that was stored successfully reads back its entry. */
  lemma SingletonReadBack(entries: map<string, PyVal>, name: string, k: PyVal, v: PyVal, value: PyVal)
    requires value == PDict([(k, v)]) || (k.PStr? && value == PCIDict([(Lower(k.s), (k.s, v))]))
    requires AfterSet(entries, name, value).Ok?
    ensures MGet(AfterSet(entries, name, value).value[name], k) == Some(v)
  {
    var cur := Current(entries, name);
    var base := if Truthy(cur) then cur else if value.PCIDict? then PCIDict([]) else PDict([]);
    assert Merged(cur, value) == MergeDicts(base, value) == MSetAll(base, MItems(value));
    assert MItems(value) == [(k, v)];
    MSetAllOk(base, MItems(value));
    MSetAllGet(base, MItems(value), k);
  }

  /** The declaration's dictionary now holds what `set_decor(t, name, value)` leaves (`r` reports its failure). */
  twostate predicate Stored(t: Declaration, name: string, value: PyVal, new r: Fallible<()>)
    reads t, t.bases, t.decor, DictsOf(t.bases)
  {
    && t.Found() != null
    && match AfterSet(old(t.TargetEntries()), name, value)
       case Ok(m) => r.Ok? && t.Entries() == m
       case Err(e) => r == Err(e) && t.Entries() == old(t.TargetEntries())
  }

  /** Neither the declaration nor the dictionary it reads has changed. */
  twostate predicate Untouched(t: Declaration)
    reads t, t.bases, t.decor, DictsOf(t.bases)
  {
    && t.decor == old(t.decor)
    && t.Found() == old(t.Found())
    && t.Entries() == old(t.Entries())
  }
}
