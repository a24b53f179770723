/**
 * The widget classes of MetaWindow/scripts/engine.py (and of its earlier
 * revision scripts/engine.py, whose metaclass is the same): each class keeps
 * the field map `_MetaWidget.__new__` collected for it, and every constructor
 * call rewrites that one map in place before copying it onto a new instance.
 */
module MetaWidget {
  import opened PyModel
  import opened FieldMap

  /** The generated `__new__`'s parameter defaults: `label = "Name", group = ""`. */
  const DefaultLabel := "Name"
  const DefaultGroup := ""

  /** The `Exception` the canonical constructor raises. */
  datatype ConstructError = Exception(message: string)

  /** `f"[ERROR] {key} non existent argument"`: the message names the offending key. */
  function Message(key: Name): (msg: string)
    ensures |msg| >= 8 + |key| && msg[..8] == "[ERROR] " && msg[8..8 + |key|] == key
  {
    "[ERROR] " + key + " non existent argument"
  }

  /** The line scripts/engine.py prints for an unknown keyword, `print(key, "argument non existent error")`. */
  function Notice(key: Name): (line: string)
    ensures |line| > |key| && line[..|key|] == key && line[|key|] == ' '
  {
    key + " argument non existent error"
  }

  /** One printed line per unknown keyword, in call order. */
  function Notices(keys: seq<Name>): (lines: seq<string>)
    ensures |lines| == |keys|
    ensures forall i :: 0 <= i < |keys| ==> lines[i] == Notice(keys[i])
  {
    if keys == [] then [] else [Notice(keys[0])] + Notices(keys[1..])
  }

  /**
   * A widget class together with the `fields` dict its generated `__new__`
   * captured. `next` is the class whose `__new__` `super(class_instance, cls)`
   * reaches (null for `Widget`, whose super call is `object.__new__`).
   */
  class WidgetClass {
    const def: ClassDef
    const T: PyType
    const next: WidgetClass?
    /** The classes of all bases' MROs, in the order their set is iterated. */
    const hierarchy: seq<ClassDef>
    ghost const depth: nat
    ghost const ancestors: set<WidgetClass>
    /** The names the map holds from class creation on. */
    ghost const names: set<Name>
    var fields: Dict

    /** The super chain ends, and each class's hierarchy holds its base and the base's hierarchy. */
    ghost predicate Linked()
      decreases depth
    {
      && names == HierarchyNames(hierarchy) + BodyNames(def.body)
      && if next == null then ancestors == {}
      else
        && next.depth < depth
        && ancestors == {next} + next.ancestors
        && next.Linked()
        && next.def in hierarchy
        && (forall c :: c in next.hierarchy ==> c in hierarchy)
    }

    ghost predicate Valid()
      reads this
    {
      fields.Valid() && fields.vals.Keys == names
    }

    ghost predicate ChainValid()
      reads this, ancestors
    {
      Valid() && forall a :: a in ancestors ==> a.Valid()
    }

    lemma {:induction false} LinkedFacts()
      requires Linked()
      ensures forall a :: a in ancestors ==> a.depth < depth && a.Linked() && a.ancestors <= ancestors
      decreases depth
    {
      if next != null {
        next.LinkedFacts();
      }
    }

    /** The base's map holds no name this class's map lacks. */
    lemma KeyCover()
      requires Linked() && next != null
      ensures next.names <= names
    {
      forall k | k in next.names ensures k in names {
        if k in BodyNames(next.def.body) {
          var p :| p in next.def.body && !IsDunder(p.0) && p.0 == k;
          assert k in HierarchyNames(hierarchy);
        } else {
          var c, p :| c in next.hierarchy && p in c.body && !IsDunder(p.0) && p.0 == k;
          assert k in HierarchyNames(hierarchy);
        }
      }
    }

    /** No dunder name is ever a key of the map. */
    lemma NoDunderKeys()
      requires Linked() && Valid()
      ensures forall k :: k in fields.vals ==> !IsDunder(k)
    {
    }

    /**
     * `_MetaWidget.__new__`: creates the class and the map its `__new__`
     * captures, from the hierarchy of its bases and its own body `members`.
     */
    constructor (def: ClassDef, T: PyType, next: WidgetClass?, hierarchy: seq<ClassDef>)
      requires UniqueNames(def.body)
      requires next != null ==>
        next.Linked() && next.ChainValid() && next.def in hierarchy && forall c :: c in next.hierarchy ==> c in hierarchy
      ensures this.def == def && this.T == T && this.next == next && this.hierarchy == hierarchy
      ensures ancestors == if next == null then {} else {next} + next.ancestors
      ensures Linked() && ChainValid()
      ensures fields == HierarchyFields(hierarchy, def.body)
    {
      var collected := CollectFields(hierarchy, def.body);
      this.def := def;
      this.T := T;
      this.next := next;
      this.hierarchy := hierarchy;
      depth := if next == null then 0 else next.depth + 1;
      ancestors := if next == null then {} else {next} + next.ancestors;
      names := HierarchyNames(hierarchy) + BodyNames(def.body);
      fields := collected;
      new;
      FieldMapContents(hierarchy, def.body);
    }

    /** `for arg, key in zip(args, fields): fields[key] = arg`. */
    method AssignPositional(args: seq<Value>)
      requires Valid()
      modifies this
      ensures Valid()
      ensures fields.keys == old(fields.keys)
      ensures fields == ApplyPositional(old(fields), args)
    {
      var d := PositionalUpdate(fields, args);
      fields := d;
    }

    /**
     * The generated `__new__` of MetaWindow/scripts/engine.py: runs the base
     * class's `__new__` and unwraps its instance, rewrites this class's map
     * with the positional and then the keyword arguments (raising at the first
     * keyword that names no key, with the earlier updates kept), copies the
     * whole map onto the instance, sets label, group and `T`, and returns
     * `Annotated[T, instance]`.
     */
    method New(labelText: string, group: string, args: seq<Value>, kwargs: Items)
      returns (r: Result<Annotated, ConstructError>)
      requires Linked() && ChainValid()
      modifies this, ancestors
      decreases depth
      ensures ChainValid()
      ensures forall a :: a in ancestors ==> a.fields == old(a.fields)
      ensures fields.keys == old(fields.keys)
      ensures var o := ApplyKeywords(ApplyPositional(old(fields), args), kwargs);
        && fields == o.d
        && (r.Err? <==> o.unknown.Some?)
        && (r.Err? ==> r.error == Exception(Message(o.unknown.value)))
        && (r.Ok? ==> r.value == Annotated(T, Descriptor(fields.vals, labelText, group, T)))
    {
      var instance := Descriptor(map[], "", "", NoneType);  // `object.__new__(cls)`
      LinkedFacts();
      if next != null {
        NoArguments(next.fields);
        var base := next.New(DefaultLabel, DefaultGroup, [], []);
        instance := base.value.meta;
        KeyCover();
      }
      r := Configure(instance, labelText, group, args, kwargs);
    }

    /**
     * The body of the canonical `__new__` after the base's instance is in
     * hand: the positional loop, the keyword loop that raises on an unknown
     * key, and the copy of the map onto the instance.
     */
    method Configure(instance: Descriptor, labelText: string, group: string, args: seq<Value>, kwargs: Items)
      returns (r: Result<Annotated, ConstructError>)
      requires Valid() && instance.attrs.Keys <= fields.vals.Keys
      modifies this
      ensures Valid()
      ensures fields.keys == old(fields.keys)
      ensures var o := ApplyKeywords(ApplyPositional(old(fields), args), kwargs);
        && fields == o.d
        && (r.Err? <==> o.unknown.Some?)
        && (r.Err? ==> r.error == Exception(Message(o.unknown.value)))
        && (r.Ok? ==> r.value == Annotated(T, Descriptor(fields.vals, labelText, group, T)))
    {
      AssignPositional(args);

      var updated, unknown := KeywordUpdate(fields, kwargs);
      fields := updated;
      if unknown.Some? {
        r := Err(Exception(Message(unknown.value)));
        return;
      }

      var attrs := SetAttrs(instance.attrs, fields);
      OverrideCovered(instance.attrs, fields.vals);
      r := Ok(Annotated(T, Descriptor(attrs, labelText, group, T)));
    }

    /**
     * The generated `__new__` of scripts/engine.py: the same, except that a
     * keyword naming no key is printed and skipped, so the call always
     * returns a descriptor.
     */
    method NewPrinting(labelText: string, group: string, args: seq<Value>, kwargs: Items)
      returns (r: Annotated, printed: seq<string>)
      requires Linked() && ChainValid()
      modifies this, ancestors
      decreases depth
      ensures ChainValid()
      ensures forall a :: a in ancestors ==> a.fields == old(a.fields)
      ensures fields.keys == old(fields.keys)
      ensures var o := ApplyKeywordsLenient(ApplyPositional(old(fields), args), kwargs);
        && fields == o.0
        && printed == Notices(o.1)
        && r == Annotated(T, Descriptor(fields.vals, labelText, group, T))
    {
      var instance := Descriptor(map[], "", "", NoneType);  // `object.__new__(cls)`
      LinkedFacts();
      if next != null {
        NoArguments(next.fields);
        var base, _ := next.NewPrinting(DefaultLabel, DefaultGroup, [], []);
        instance := base.meta;
        KeyCover();
      }
      r, printed := ConfigurePrinting(instance, labelText, group, args, kwargs);
    }

    /** `NewPrinting` after the base's instance is in hand. */
    method ConfigurePrinting(instance: Descriptor, labelText: string, group: string, args: seq<Value>, kwargs: Items)
      returns (r: Annotated, printed: seq<string>)
      requires Valid() && instance.attrs.Keys <= fields.vals.Keys
      modifies this
      ensures Valid()
      ensures fields.keys == old(fields.keys)
      ensures var o := ApplyKeywordsLenient(ApplyPositional(old(fields), args), kwargs);
        && fields == o.0
        && printed == Notices(o.1)
        && r == Annotated(T, Descriptor(fields.vals, labelText, group, T))
    {
      AssignPositional(args);

      var updated, skipped := LenientKeywordUpdate(fields, kwargs);
      fields := updated;
      printed := Notices(skipped);

      var attrs := SetAttrs(instance.attrs, fields);
      OverrideCovered(instance.attrs, fields.vals);
      r := Annotated(T, Descriptor(attrs, labelText, group, T));
    }
  }

  /**
   * The map is captured once per class: an argument-free call made after a
   * call with overrides builds its instance from the overridden values.
   */
  method OverridesPersist(c: WidgetClass, labelText: string, group: string, args: seq<Value>, kwargs: Items)
    returns (first: Result<Annotated, ConstructError>, later: Result<Annotated, ConstructError>)
    requires c.Linked() && c.ChainValid()
    modifies c, c.ancestors
    ensures later.Ok?
    ensures later.value.meta.attrs == ApplyKeywords(ApplyPositional(old(c.fields), args), kwargs).d.vals
    ensures first.Ok? ==> later.value.meta.attrs == first.value.meta.attrs
  {
    first := c.New(labelText, group, args, kwargs);
    later := c.New(DefaultLabel, DefaultGroup, [], []);
  }
}
