/**
 * The widget classes of the earlier draft extras/mini.py: the metaclass keeps
 * the class body as given, and every constructor call copies the body's
 * non-dunder attributes into a fresh dict before applying the arguments. No
 * ancestor's attributes enter that dict, and nothing a call does outlives it.
 */
module MiniDraft {
  import opened PyModel
  import opened FieldMap

  /** The line the draft prints for a keyword that names no field. */
  const DraftNotice := "error"

  /** A widget class of the draft: its definition, its `T` and its one base (none for `Widget`). */
  datatype DraftClass = DraftClass(def: ClassDef, T: PyType, base: Option<DraftClass>)

  /** `{A: B for (A, B) in members.items() if not is_dunder(A)}`: the per-call copy of the body. */
  function Fresh(c: DraftClass): (d: Dict)
    ensures d.Valid()
    ensures forall k :: k in d.vals <==> k in BodyNames(c.def.body)
    ensures forall k :: k in d.vals ==> (k, d.vals[k]) in c.def.body
  {
    MergeIntoFacts(Empty, c.def.body);
    MergeInto(Empty, c.def.body)
  }

  /**
   * The attributes of the instance the base's `__new__` returns when called
   * with no arguments: its own base's, then its body's.
   */
  function BaseAttrs(c: DraftClass): map<Name, Value>
    decreases c
  {
    match c.base
    case None => map[]
    case Some(b) => BaseAttrs(b) + Fresh(b).vals
  }

  /** What one call leaves: the map after the positional and keyword updates, and the keywords it skipped. */
  function Outcome(c: DraftClass, args: seq<Value>, kwargs: Items): (Dict, seq<Name>) {
    ApplyKeywordsLenient(ApplyPositional(Fresh(c), args), kwargs)
  }

  /**
   * The draft's generated `__new__`: the base's instance, every attribute of
   * the updated copy set on it, then label, group and `T`; one `error` line
   * per keyword that names no body attribute.
   */
  method DraftNew(c: DraftClass, labelText: string, group: string, args: seq<Value>, kwargs: Items)
    returns (r: Annotated, printed: seq<string>)
    decreases c
    ensures r == Annotated(c.T, Descriptor(BaseAttrs(c) + Outcome(c, args, kwargs).0.vals, labelText, group, c.T))
    ensures |printed| == |Outcome(c, args, kwargs).1|
    ensures forall i :: 0 <= i < |printed| ==> printed[i] == DraftNotice
  {
    var instance := Descriptor(map[], "", "", NoneType);  // `object.__new__(cls)`
    if c.base.Some? {
      var baseInstance, _ := DraftNew(c.base.value, "Name", "", [], []);
      instance := baseInstance.meta;
    }
    var fields := PositionalUpdate(Fresh(c), args);
    var updated, skipped := LenientKeywordUpdate(fields, kwargs);
    printed := seq(|skipped|, _ => DraftNotice);
    var attrs := SetAttrs(instance.attrs, updated);
    r := Annotated(c.T, Descriptor(attrs, labelText, group, c.T));
  }

  /**
   * The instance carries every field of its ancestors and its own body. The
   * first body attributes take the extra positionals, in body order; a body
   * attribute that neither a positional nor a keyword reaches keeps the
   * body's value; and an ancestor's attribute the body does not redefine
   * keeps the nearest ancestor's value, whatever the arguments say.
   */
  lemma DraftInstanceFields(c: DraftClass, args: seq<Value>, kwargs: Items)
    requires UniqueNames(kwargs)
    ensures var attrs := BaseAttrs(c) + Outcome(c, args, kwargs).0.vals;
      && (forall k :: k in attrs <==> k in BaseAttrs(c) || k in BodyNames(c.def.body))
      && (forall i :: 0 <= i < |Fresh(c).keys| && i < |args| && Fresh(c).keys[i] !in NameSet(kwargs) ==>
            attrs[Fresh(c).keys[i]] == args[i])
      && (forall i :: 0 <= i < |Fresh(c).keys| && |args| <= i && Fresh(c).keys[i] !in NameSet(kwargs) ==>
            (Fresh(c).keys[i], attrs[Fresh(c).keys[i]]) in c.def.body)
      && (args == [] ==> forall k :: k in BodyNames(c.def.body) && k !in NameSet(kwargs) ==> (k, attrs[k]) in c.def.body)
      && (forall k :: k in BaseAttrs(c) && k !in BodyNames(c.def.body) ==> attrs[k] == BaseAttrs(c)[k])
  {
    var d := Fresh(c);
    var p := ApplyPositional(d, args);
    PositionalPairing(d, args);
    LenientKeywordOutcome(p, kwargs);
    if args == [] {
      forall k | k in BodyNames(c.def.body) && k !in NameSet(kwargs)
        ensures (k, (BaseAttrs(c) + Outcome(c, args, kwargs).0.vals)[k]) in c.def.body
      {
        assert k in d.keys;
        var i :| 0 <= i < |d.keys| && d.keys[i] == k;
      }
    }
  }

  /**
   * A keyword naming a field the class inherits but does not define in its
   * own body is reported and has no effect: the instance keeps the ancestor's
   * value (`IntSlider(min = 3)` still has `min == 1`).
   */
  lemma AncestorKeyIgnored(c: DraftClass, k: Name, v: Value)
    requires k in BaseAttrs(c) && k !in BodyNames(c.def.body)
    ensures Outcome(c, [], [(k, v)]).1 == [k]
    ensures (BaseAttrs(c) + Outcome(c, [], [(k, v)]).0.vals)[k] == BaseAttrs(c)[k]
  {
    var d := Fresh(c);
    assert ApplyPositional(d, []) == d;
    LenientKeywordOutcome(d, [(k, v)]);
    assert [(k, v)][1..] == [];
  }
}
