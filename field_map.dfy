/**
 * The field map of a widget class: how `_MetaWidget.__new__` collects it at
 * class-definition time and how a constructor call rewrites it.
 */
module FieldMap {
  import opened PyModel

  /** A class's field map: attribute name to default value, in insertion order. */
  type Dict = ODict<Value>

  const Empty: Dict := ODict([], map[])

  /** `name.startswith("__") and name.endswith("__")`; the two affixes may overlap, as in `"__"`. */
  function IsDunder(name: Name): (r: bool)
    ensures r <==> |name| >= 2 && name[..2] == "__" && name[|name| - 2..] == "__"
  {
    |name| >= 2 && name[0] == '_' && name[1] == '_' && name[|name| - 2] == '_' && name[|name| - 1] == '_'
  }

  /** The non-dunder names of a class body. */
  function BodyNames(items: Items): set<Name> {
    set p | p in items && !IsDunder(p.0) :: p.0
  }

  /** The non-dunder names found in any class of a hierarchy. */
  function HierarchyNames(hierarchy: seq<ClassDef>): set<Name> {
    set c, p | c in hierarchy && p in c.body && !IsDunder(p.0) :: p.0
  }

  // ---------------------------------------------------------------------------
  // Class-definition time: `_MetaWidget.__new__`
  // ---------------------------------------------------------------------------

  /** `for field_name, value in items: if not is_dunder(field_name): d[field_name] = value`. */
  function MergeInto(d: Dict, items: Items): Dict
    decreases |items|
  {
    if items == [] then d
    else MergeInto(if IsDunder(items[0].0) then d else d.Set(items[0].0, items[0].1), items[1..])
  }

  /** The same copy for every class of the hierarchy, in the order the hierarchy is walked. */
  function MergeAll(d: Dict, hierarchy: seq<ClassDef>): Dict
    decreases |hierarchy|
  {
    if hierarchy == [] then d
    else MergeAll(MergeInto(d, hierarchy[0].body), hierarchy[1..])
  }

  /**
   * The map `_MetaWidget.__new__` hands to the generated `__new__`: every
   * ancestor's non-dunder attributes, walked in the order the hierarchy set is
   * iterated, then the class body's.
   */
  function HierarchyFields(hierarchy: seq<ClassDef>, members: Items): Dict {
    MergeInto(MergeAll(Empty, hierarchy), members)
  }

  /**
   * The keys copying `items` appends to a dict whose key set is `present`:
   * the non-dunder names not present yet, once each, in body order.
   */
  function AddedKeys(present: set<Name>, items: Items): seq<Name>
    decreases |items|
  {
    if items == [] then []
    else if IsDunder(items[0].0) || items[0].0 in present then AddedKeys(present, items[1..])
    else [items[0].0] + AddedKeys(present + {items[0].0}, items[1..])
  }

  /** One step of `AddedKeys`: a dunder or present name is skipped, a new one is appended. */
  lemma AddedKeysStep(present: set<Name>, items: Items)
    requires items != []
    ensures AddedKeys(present, items) ==
      if IsDunder(items[0].0) || items[0].0 in present then AddedKeys(present, items[1..])
      else [items[0].0] + AddedKeys(present + {items[0].0}, items[1..])
  {
  }

  /** The appended keys are distinct and are exactly the body's non-dunder names not present before. */
  lemma {:induction false} AddedKeysFacts(present: set<Name>, items: Items)
    ensures Distinct(AddedKeys(present, items))
    ensures forall k :: k in AddedKeys(present, items) <==> k in BodyNames(items) && k !in present
    decreases |items|
  {
    if items != [] {
      assert forall p :: p in items <==> p == items[0] || p in items[1..];
      var k0 := items[0].0;
      if IsDunder(k0) || k0 in present {
        AddedKeysFacts(present, items[1..]);
      } else {
        AddedKeysFacts(present + {k0}, items[1..]);
      }
    }
  }

  /** A body whose names are all present already appends nothing. */
  lemma {:induction false} AddedKeysNone(present: set<Name>, items: Items)
    requires BodyNames(items) <= present
    ensures AddedKeys(present, items) == []
    decreases |items|
  {
    if items != [] {
      assert items[0] in items;
      assert BodyNames(items[1..]) <= BodyNames(items) by {
        assert forall p :: p in items[1..] ==> p in items;
      }
      AddedKeysNone(present, items[1..]);
    }
  }

  lemma {:induction false} MergeIntoFacts(d: Dict, items: Items)
    requires d.Valid()
    ensures MergeInto(d, items).Valid()
    ensures d.keys <= MergeInto(d, items).keys
    ensures forall k :: k in MergeInto(d, items).vals <==> k in d.vals || k in BodyNames(items)
    ensures forall k :: k in d.vals && k !in BodyNames(items) ==> MergeInto(d, items).vals[k] == d.vals[k]
    ensures forall k :: k in BodyNames(items) ==> (k, MergeInto(d, items).vals[k]) in items
    decreases |items|
  {
    if items != [] {
      var (k0, v0) := items[0];
      var d' := if IsDunder(k0) then d else d.Set(k0, v0);
      SetValid(d, k0, v0);
      MergeIntoFacts(d', items[1..]);
      assert MergeInto(d, items) == MergeInto(d', items[1..]);
      assert BodyNames(items) == (if IsDunder(k0) then {} else {k0}) + BodyNames(items[1..]) by {
        assert forall p :: p in items <==> p == items[0] || p in items[1..];
      }
    }
  }

  /** Copying a body appends its new names after the existing keys, in body order. */
  lemma {:induction false} MergeIntoOrder(d: Dict, items: Items)
    requires d.Valid()
    ensures MergeInto(d, items).keys == d.keys + AddedKeys(d.vals.Keys, items)
    decreases |items|
  {
    if items != [] {
      var (k0, v0) := items[0];
      var d' := if IsDunder(k0) then d else d.Set(k0, v0);
      SetValid(d, k0, v0);
      MergeIntoOrder(d', items[1..]);
      assert MergeInto(d, items) == MergeInto(d', items[1..]);
      var rest := AddedKeys(d'.vals.Keys, items[1..]);
      if !IsDunder(k0) && k0 !in d.vals {
        assert d'.keys == d.keys + [k0];
        assert d'.vals.Keys == d.vals.Keys + {k0};
        assert AddedKeys(d.vals.Keys, items) == [k0] + rest;
        assert d'.keys + rest == d.keys + ([k0] + rest);
      } else {
        assert d'.keys == d.keys;
        assert d'.vals.Keys == d.vals.Keys;
        assert AddedKeys(d.vals.Keys, items) == rest;
      }
    }
  }

  /** A hierarchy whose classes define only dunder names leaves the map as it is. */
  lemma {:induction false} MergeAllNothing(d: Dict, hierarchy: seq<ClassDef>)
    requires HierarchyNames(hierarchy) == {}
    ensures MergeAll(d, hierarchy) == d
    decreases |hierarchy|
  {
    if hierarchy != [] {
      var c := hierarchy[0];
      forall p | p in c.body ensures IsDunder(p.0) {
        assert !IsDunder(p.0) ==> p.0 in HierarchyNames(hierarchy);
      }
      MergeIntoNothing(d, c.body);
      assert HierarchyNames(hierarchy[1..]) <= HierarchyNames(hierarchy) by {
        assert forall c :: c in hierarchy[1..] ==> c in hierarchy;
      }
      MergeAllNothing(d, hierarchy[1..]);
    }
  }

  lemma {:induction false} MergeIntoNothing(d: Dict, items: Items)
    requires forall p :: p in items ==> IsDunder(p.0)
    ensures MergeInto(d, items) == d
    decreases |items|
  {
    if items != [] {
      assert items[0] in items;
      assert forall p :: p in items[1..] ==> p in items;
      MergeIntoNothing(d, items[1..]);
    }
  }

  lemma {:induction false} MergeAllFacts(d: Dict, hierarchy: seq<ClassDef>)
    requires d.Valid()
    ensures MergeAll(d, hierarchy).Valid()
    ensures d.keys <= MergeAll(d, hierarchy).keys
    ensures forall k :: k in MergeAll(d, hierarchy).vals <==> k in d.vals || k in HierarchyNames(hierarchy)
    ensures forall k :: k in d.vals && k !in HierarchyNames(hierarchy) ==> MergeAll(d, hierarchy).vals[k] == d.vals[k]
    ensures forall k :: k in HierarchyNames(hierarchy) ==>
      exists c :: c in hierarchy && (k, MergeAll(d, hierarchy).vals[k]) in c.body
    decreases |hierarchy|
  {
    if hierarchy != [] {
      var c0 := hierarchy[0];
      var d' := MergeInto(d, c0.body);
      MergeIntoFacts(d, c0.body);
      MergeAllFacts(d', hierarchy[1..]);
      var r := MergeAll(d, hierarchy);
      assert r == MergeAll(d', hierarchy[1..]);
      assert HierarchyNames(hierarchy) == BodyNames(c0.body) + HierarchyNames(hierarchy[1..]) by {
        assert forall c :: c in hierarchy <==> c == c0 || c in hierarchy[1..];
      }
      forall k | k in HierarchyNames(hierarchy)
        ensures exists c :: c in hierarchy && (k, r.vals[k]) in c.body
      {
        if k in HierarchyNames(hierarchy[1..]) {
          var c :| c in hierarchy[1..] && (k, r.vals[k]) in c.body;
          assert c in hierarchy;
        } else {
          assert k in BodyNames(c0.body);
          assert r.vals[k] == d'.vals[k];
          assert c0 in hierarchy;
        }
      }
    }
  }

  /**
   * What the class-definition-time map holds, whatever order the hierarchy set
   * is iterated in: exactly the non-dunder names of the ancestors and the body,
   * the body's value for each body name, some ancestor's own value for every
   * other name, and the ancestors' keys followed by the body's new names in
   * body order (the order the generated `__new__` pairs positionals with).
   */
  lemma FieldMapContents(hierarchy: seq<ClassDef>, members: Items)
    requires UniqueNames(members)
    ensures HierarchyFields(hierarchy, members).Valid()
    ensures forall k :: k in HierarchyFields(hierarchy, members).vals <==>
      k in HierarchyNames(hierarchy) || k in BodyNames(members)
    ensures forall k :: k in HierarchyFields(hierarchy, members).vals ==> !IsDunder(k)
    ensures forall j :: 0 <= j < |members| && !IsDunder(members[j].0) ==>
      members[j].0 in HierarchyFields(hierarchy, members).vals &&
      HierarchyFields(hierarchy, members).vals[members[j].0] == members[j].1
    ensures forall k :: k in HierarchyNames(hierarchy) && k !in BodyNames(members) ==>
      exists c :: c in hierarchy && (k, HierarchyFields(hierarchy, members).vals[k]) in c.body
    ensures HierarchyFields(hierarchy, members).keys ==
      MergeAll(Empty, hierarchy).keys + AddedKeys(HierarchyNames(hierarchy), members)
  {
    var a := MergeAll(Empty, hierarchy);
    MergeAllFacts(Empty, hierarchy);
    MergeIntoFacts(a, members);
    assert a.vals.Keys == HierarchyNames(hierarchy);
    MergeIntoOrder(a, members);
    var r := HierarchyFields(hierarchy, members);
    forall j | 0 <= j < |members| && !IsDunder(members[j].0)
      ensures r.vals[members[j].0] == members[j].1
    {
      var k := members[j].0;
      assert members[j] in members;
      assert k in BodyNames(members);
      var i :| 0 <= i < |members| && members[i] == (k, r.vals[k]);
      assert i == j;
    }
  }

  /** The key set and the body's values do not depend on the order the hierarchy set is iterated in. */
  lemma FieldMapOrderIndependent(h1: seq<ClassDef>, h2: seq<ClassDef>, members: Items)
    requires UniqueNames(members)
    requires forall c :: c in h1 <==> c in h2
    ensures HierarchyFields(h1, members).vals.Keys == HierarchyFields(h2, members).vals.Keys
    ensures forall k :: k in BodyNames(members) ==>
      k in HierarchyFields(h1, members).vals && k in HierarchyFields(h2, members).vals &&
      HierarchyFields(h1, members).vals[k] == HierarchyFields(h2, members).vals[k]
  {
    FieldMapContents(h1, members);
    FieldMapContents(h2, members);
    assert HierarchyNames(h1) == HierarchyNames(h2);
    forall k | k in BodyNames(members)
      ensures k in HierarchyFields(h1, members).vals && k in HierarchyFields(h2, members).vals &&
        HierarchyFields(h1, members).vals[k] == HierarchyFields(h2, members).vals[k]
    {
      var p :| p in members && !IsDunder(p.0) && p.0 == k;
      var j :| 0 <= j < |members| && members[j] == p;
    }
  }

  /** `_MetaWidget.__new__`'s nested loops that fill `fields`. */
  method CollectFields(hierarchy: seq<ClassDef>, members: Items) returns (fields: Dict)
    ensures fields == HierarchyFields(hierarchy, members)
  {
    fields := ODict([], map[]);
    var i := 0;
    while i < |hierarchy|
      invariant 0 <= i <= |hierarchy|
      invariant MergeInto(MergeAll(fields, hierarchy[i..]), members) == HierarchyFields(hierarchy, members)
    {
      var body := hierarchy[i].body;
      assert MergeAll(fields, hierarchy[i..]) == MergeAll(MergeInto(fields, body), hierarchy[i + 1..]);
      var j := 0;
      while j < |body|
        invariant 0 <= j <= |body|
        invariant MergeInto(MergeAll(MergeInto(fields, body[j..]), hierarchy[i + 1..]), members)
          == HierarchyFields(hierarchy, members)
      {
        var (name, value) := body[j];
        assert body[j..][0] == body[j] && body[j..][1..] == body[j + 1..];
        if !IsDunder(name) {
          fields := fields.Set(name, value);
        }
        j := j + 1;
      }
      i := i + 1;
    }
    var j := 0;
    while j < |members|
      invariant 0 <= j <= |members|
      invariant MergeInto(fields, members[j..]) == HierarchyFields(hierarchy, members)
    {
      var (name, value) := members[j];
      assert members[j..][0] == members[j] && members[j..][1..] == members[j + 1..];
      if !IsDunder(name) {
        fields := fields.Set(name, value);
      }
      j := j + 1;
    }
  }

  // ---------------------------------------------------------------------------
  // Construction time: the generated `__new__`'s updates to the map
  // ---------------------------------------------------------------------------

  /** `for arg, key in zip(args, keys): d[key] = arg`, after its first `n` rounds. */
  function ZipAssign(d: Dict, keys: seq<Name>, args: seq<Value>, n: nat): Dict
    requires n <= |keys| && n <= |args|
    decreases n
  {
    if n == 0 then d else ZipAssign(d, keys, args, n - 1).Set(keys[n - 1], args[n - 1])
  }

  /** The number of rounds `zip` runs: the shorter of the two. */
  function Rounds(keys: seq<Name>, args: seq<Value>): (n: nat)
    ensures n <= |keys| && n <= |args| && (n == |keys| || n == |args|)
  {
    if |keys| <= |args| then |keys| else |args|
  }

  /** Extra positionals paired with the map's keys in insertion order. */
  function ApplyPositional(d: Dict, args: seq<Value>): Dict {
    ZipAssign(d, d.keys, args, Rounds(d.keys, args))
  }

  /** The rounds overwrite existing keys only, so the map keeps its keys and their order. */
  lemma {:induction false} ZipAssignShape(d: Dict, keys: seq<Name>, args: seq<Value>, n: nat)
    requires d.Valid() && n <= |keys| && n <= |args|
    requires forall k :: k in keys ==> k in d.vals
    ensures ZipAssign(d, keys, args, n).Valid()
    ensures ZipAssign(d, keys, args, n).keys == d.keys
    ensures ZipAssign(d, keys, args, n).vals.Keys == d.vals.Keys
    decreases n
  {
    if n > 0 {
      ZipAssignShape(d, keys, args, n - 1);
      SetValid(ZipAssign(d, keys, args, n - 1), keys[n - 1], args[n - 1]);
    }
  }

  /** The first `n` keys hold the first `n` arguments; every other key keeps its value. */
  lemma {:induction false} ZipAssignValues(d: Dict, keys: seq<Name>, args: seq<Value>, n: nat)
    requires Distinct(keys) && n <= |keys| && n <= |args|
    requires forall k :: k in keys ==> k in d.vals
    ensures forall i :: 0 <= i < |keys| ==>
      && keys[i] in ZipAssign(d, keys, args, n).vals
      && ZipAssign(d, keys, args, n).vals[keys[i]] == if i < n then args[i] else d.vals[keys[i]]
    ensures forall k :: k in d.vals && k !in keys ==>
      k in ZipAssign(d, keys, args, n).vals && ZipAssign(d, keys, args, n).vals[k] == d.vals[k]
    decreases n
  {
    if n > 0 {
      ZipAssignValues(d, keys, args, n - 1);
      var prev := ZipAssign(d, keys, args, n - 1).vals;
      var cur := ZipAssign(d, keys, args, n).vals;
      assert cur == prev[keys[n - 1] := args[n - 1]];
      forall i | 0 <= i < |keys| && i != n - 1 ensures keys[i] in cur && cur[keys[i]] == if i < n then args[i] else d.vals[keys[i]] {
        assert keys[i] != keys[n - 1];
      }
    }
  }

  /**
   * The i-th extra positional overwrites the i-th key in insertion order;
   * positionals beyond the number of keys are dropped; no key is added.
   */
  lemma PositionalPairing(d: Dict, args: seq<Value>)
    requires d.Valid()
    ensures ApplyPositional(d, args).Valid()
    ensures ApplyPositional(d, args).keys == d.keys
    ensures forall k :: k in ApplyPositional(d, args).vals <==> k in d.vals
    ensures forall i :: 0 <= i < |d.keys| ==>
      ApplyPositional(d, args).vals[d.keys[i]] == if i < |args| then args[i] else d.vals[d.keys[i]]
  {
    ZipAssignShape(d, d.keys, args, Rounds(d.keys, args));
    ZipAssignValues(d, d.keys, args, Rounds(d.keys, args));
  }

  /** The generated `__new__`'s positional loop, on the map it is given. */
  method PositionalUpdate(d: Dict, args: seq<Value>) returns (r: Dict)
    requires d.Valid()
    ensures r == ApplyPositional(d, args)
    ensures r.Valid() && r.keys == d.keys && r.vals.Keys == d.vals.Keys
  {
    ZipAssignShape(d, d.keys, args, Rounds(d.keys, args));
    r := d;
    var keys := d.keys;
    var i := 0;
    while i < |args| && i < |keys|
      invariant 0 <= i <= |keys| && i <= |args|
      invariant r == ZipAssign(d, keys, args, i)
    {
      r := r.Set(keys[i], args[i]);
      i := i + 1;
    }
  }

  /** `for key, value in fields.items(): setattr(instance, key, value)`, on the instance's attributes `attrs0`. */
  method SetAttrs(attrs0: map<Name, Value>, fields: Dict) returns (attrs: map<Name, Value>)
    requires fields.Valid()
    ensures attrs == attrs0 + fields.vals
  {
    attrs := attrs0;
    var m := 0;
    while m < |fields.keys|
      invariant 0 <= m <= |fields.keys|
      invariant forall k :: k in attrs <==> k in attrs0 || k in fields.keys[..m]
      invariant forall k :: k in attrs ==> attrs[k] == if k in fields.keys[..m] then fields.vals[k] else attrs0[k]
    {
      var key := fields.keys[m];
      assert fields.keys[..m + 1] == fields.keys[..m] + [key];
      attrs := attrs[key := fields.vals[key]];
      m := m + 1;
    }
    assert fields.keys[..m] == fields.keys;
  }

  /** How the keyword loop ends: the map as it stands, and the unknown keyword that stopped it, if any. */
  datatype KwOutcome = KwOutcome(d: Dict, unknown: Option<Name>)

  /** The position of the first keyword that names no key (`|kwargs|` when all do). */
  function FirstUnknown(keys: set<Name>, kwargs: Items): (n: nat)
    ensures n <= |kwargs|
    ensures forall i :: 0 <= i < n ==> kwargs[i].0 in keys
    ensures n < |kwargs| ==> kwargs[n].0 !in keys
  {
    if kwargs == [] || kwargs[0].0 !in keys then 0 else 1 + FirstUnknown(keys, kwargs[1..])
  }

  /** `d[key] = value` for each of the first `n` keywords, in call order. */
  function Assigned(d: Dict, kwargs: Items, n: nat): Dict
    requires n <= |kwargs|
    decreases n
  {
    if n == 0 then d else Assigned(d, kwargs, n - 1).Set(kwargs[n - 1].0, kwargs[n - 1].1)
  }

  /**
   * The canonical keyword loop: the keywords are assigned in call order until
   * the first one that names no key, which raises; the assignments made
   * before it stay.
   */
  function ApplyKeywords(d: Dict, kwargs: Items): KwOutcome {
    var n := FirstUnknown(d.vals.Keys, kwargs);
    KwOutcome(Assigned(d, kwargs, n), if n < |kwargs| then Some(kwargs[n].0) else None)
  }

  /** Assigning existing keys keeps the map's keys and their order. */
  lemma {:induction false} AssignedShape(d: Dict, kwargs: Items, n: nat)
    requires d.Valid() && n <= |kwargs|
    requires forall i :: 0 <= i < n ==> kwargs[i].0 in d.vals
    ensures Assigned(d, kwargs, n).Valid()
    ensures Assigned(d, kwargs, n).keys == d.keys
    ensures Assigned(d, kwargs, n).vals.Keys == d.vals.Keys
    decreases n
  {
    if n > 0 {
      AssignedShape(d, kwargs, n - 1);
      SetValid(Assigned(d, kwargs, n - 1), kwargs[n - 1].0, kwargs[n - 1].1);
    }
  }

  /** Each assigned keyword's key holds its value; every other key keeps its own. */
  lemma {:induction false} AssignedValues(d: Dict, kwargs: Items, n: nat)
    requires UniqueNames(kwargs) && n <= |kwargs|
    ensures forall i :: 0 <= i < n ==>
      kwargs[i].0 in Assigned(d, kwargs, n).vals && Assigned(d, kwargs, n).vals[kwargs[i].0] == kwargs[i].1
    ensures forall k :: k in d.vals && (forall i :: 0 <= i < n ==> kwargs[i].0 != k) ==>
      k in Assigned(d, kwargs, n).vals && Assigned(d, kwargs, n).vals[k] == d.vals[k]
    decreases n
  {
    if n > 0 {
      AssignedValues(d, kwargs, n - 1);
      var prev := Assigned(d, kwargs, n - 1).vals;
      var cur := Assigned(d, kwargs, n).vals;
      var (k0, v0) := kwargs[n - 1];
      assert cur == prev[k0 := v0];
      forall i | 0 <= i < n - 1 ensures kwargs[i].0 in cur && cur[kwargs[i].0] == kwargs[i].1 {
        assert kwargs[i].0 != k0;
      }
    }
  }

  /** The canonical keyword loop, on the map it is given. */
  method KeywordUpdate(d: Dict, kwargs: Items) returns (r: Dict, unknown: Option<Name>)
    requires d.Valid()
    ensures KwOutcome(r, unknown) == ApplyKeywords(d, kwargs)
    ensures r.Valid() && r.keys == d.keys && r.vals.Keys == d.vals.Keys
  {
    ghost var n := FirstUnknown(d.vals.Keys, kwargs);
    r := d;
    var j := 0;
    while j < |kwargs|
      invariant 0 <= j <= n
      invariant r == Assigned(d, kwargs, j)
    {
      AssignedShape(d, kwargs, j);
      var (key, arg) := kwargs[j];
      if key !in r.vals {
        return r, Some(key);
      }
      r := r.Set(key, arg);
      j := j + 1;
    }
    AssignedShape(d, kwargs, j);
    unknown := None;
  }

  /** A call without arguments leaves the map as it is. */
  lemma NoArguments(d: Dict)
    ensures ApplyPositional(d, []) == d
    ensures ApplyKeywords(d, []) == KwOutcome(d, None)
    ensures ApplyKeywordsLenient(d, []) == (d, [])
  {
  }

  /**
   * A keyword naming an existing key overwrites it; the first one naming no
   * key stops the loop and is reported; the updates made before it stay
   * applied; no key is ever added.
   */
  lemma KeywordOutcome(d: Dict, kwargs: Items)
    requires d.Valid() && UniqueNames(kwargs)
    ensures ApplyKeywords(d, kwargs).d.Valid()
    ensures ApplyKeywords(d, kwargs).d.keys == d.keys
    ensures forall k :: k in ApplyKeywords(d, kwargs).d.vals <==> k in d.vals
    ensures ApplyKeywords(d, kwargs).unknown.Some? <==> exists i :: 0 <= i < |kwargs| && kwargs[i].0 !in d.vals
    ensures ApplyKeywords(d, kwargs).unknown.Some? ==>
      exists n :: 0 <= n < |kwargs| && ApplyKeywords(d, kwargs).unknown.value == kwargs[n].0 && kwargs[n].0 !in d.vals
        && forall i :: 0 <= i < n ==> kwargs[i].0 in d.vals
    ensures forall i :: 0 <= i < FirstUnknown(d.vals.Keys, kwargs) ==>
      ApplyKeywords(d, kwargs).d.vals[kwargs[i].0] == kwargs[i].1
    ensures forall k :: k in d.vals && (forall i :: 0 <= i < FirstUnknown(d.vals.Keys, kwargs) ==> kwargs[i].0 != k) ==>
      ApplyKeywords(d, kwargs).d.vals[k] == d.vals[k]
  {
    var n := FirstUnknown(d.vals.Keys, kwargs);
    AssignedShape(d, kwargs, n);
    AssignedValues(d, kwargs, n);
  }

  /** The names of `names` missing from `keys`, in their order. */
  function Unknown(keys: set<Name>, names: seq<Name>): (r: seq<Name>)
    ensures forall k :: k in r <==> k in names && k !in keys
    decreases |names|
  {
    if names == [] then []
    else
      assert forall k :: k in names <==> k == names[0] || k in names[1..];
      (if names[0] in keys then [] else [names[0]]) + Unknown(keys, names[1..])
  }

  /** The scripts/engine.py keyword loop: unknown keywords are reported and skipped. */
  function ApplyKeywordsLenient(d: Dict, kwargs: Items): (Dict, seq<Name>)
    decreases |kwargs|
  {
    if kwargs == [] then (d, [])
    else
      var rest := ApplyKeywordsLenient(if kwargs[0].0 in d.vals then d.Set(kwargs[0].0, kwargs[0].1) else d, kwargs[1..]);
      if kwargs[0].0 in d.vals then rest else (rest.0, [kwargs[0].0] + rest.1)
  }

  /** The scripts/engine.py keyword loop, on the map it is given; `skipped` are the keywords it reports. */
  method LenientKeywordUpdate(d: Dict, kwargs: Items) returns (r: Dict, skipped: seq<Name>)
    requires d.Valid()
    ensures (r, skipped) == ApplyKeywordsLenient(d, kwargs)
    ensures r.Valid() && r.keys == d.keys && r.vals.Keys == d.vals.Keys
  {
    r := d;
    skipped := [];
    var j := 0;
    while j < |kwargs|
      invariant 0 <= j <= |kwargs|
      invariant r.Valid() && r.keys == d.keys && r.vals.Keys == d.vals.Keys
      invariant ApplyKeywordsLenient(r, kwargs[j..]).0 == ApplyKeywordsLenient(d, kwargs).0
      invariant skipped + ApplyKeywordsLenient(r, kwargs[j..]).1 == ApplyKeywordsLenient(d, kwargs).1
    {
      var (key, arg) := kwargs[j];
      assert kwargs[j..][0] == kwargs[j] && kwargs[j..][1..] == kwargs[j + 1..];
      if key in r.vals {
        SetValid(r, key, arg);
        r := r.Set(key, arg);
      } else {
        skipped := skipped + [key];
      }
      j := j + 1;
    }
    assert skipped + [] == skipped;
  }

  /**
   * The lenient loop never adds a key, applies every keyword that names one,
   * and reports exactly the others, once each, in call order.
   */
  lemma LenientKeywordOutcome(d: Dict, kwargs: Items)
    requires d.Valid() && UniqueNames(kwargs)
    ensures ApplyKeywordsLenient(d, kwargs).0.Valid()
    ensures ApplyKeywordsLenient(d, kwargs).0.keys == d.keys
    ensures forall k :: k in ApplyKeywordsLenient(d, kwargs).0.vals <==> k in d.vals
    ensures forall i :: 0 <= i < |kwargs| && kwargs[i].0 in d.vals ==>
      ApplyKeywordsLenient(d, kwargs).0.vals[kwargs[i].0] == kwargs[i].1
    ensures forall k :: k in d.vals && k !in NameSet(kwargs) ==> ApplyKeywordsLenient(d, kwargs).0.vals[k] == d.vals[k]
    ensures ApplyKeywordsLenient(d, kwargs).1 == Unknown(d.vals.Keys, Names(kwargs))
    ensures Distinct(ApplyKeywordsLenient(d, kwargs).1)
    ensures forall k :: k in ApplyKeywordsLenient(d, kwargs).1 <==> k in NameSet(kwargs) && k !in d.vals
  {
    LenientKeywordEffect(d, kwargs);
    LenientSkipped(d, kwargs);
    assert Distinct(Names(kwargs));
    UnknownDistinct(d.vals.Keys, Names(kwargs));
    forall k ensures k in Names(kwargs) <==> k in NameSet(kwargs) {
      assert k in Names(kwargs) ==> exists i :: 0 <= i < |kwargs| && Names(kwargs)[i] == k;
      assert k in NameSet(kwargs) ==> exists p :: p in kwargs && p.0 == k;
    }
  }

  /** The keywords the lenient loop reports: those naming no key, in call order. */
  lemma {:induction false} LenientSkipped(d: Dict, kwargs: Items)
    ensures ApplyKeywordsLenient(d, kwargs).1 == Unknown(d.vals.Keys, Names(kwargs))
    decreases |kwargs|
  {
    if kwargs != [] {
      var (k0, v0) := kwargs[0];
      var d' := if k0 in d.vals then d.Set(k0, v0) else d;
      assert d'.vals.Keys == d.vals.Keys;
      LenientSkipped(d', kwargs[1..]);
      assert Names(kwargs) == [k0] + Names(kwargs[1..]);
      assert Names(kwargs)[1..] == Names(kwargs[1..]);
    }
  }

  /** Filtering distinct names keeps them distinct. */
  lemma {:induction false} UnknownDistinct(keys: set<Name>, names: seq<Name>)
    requires Distinct(names)
    ensures Distinct(Unknown(keys, names))
    decreases |names|
  {
    if names != [] {
      assert Distinct(names[1..]);
      UnknownDistinct(keys, names[1..]);
      assert names[0] !in names[1..];
    }
  }

  /** The lenient loop's effect on the map. */
  lemma {:induction false} LenientKeywordEffect(d: Dict, kwargs: Items)
    requires d.Valid() && UniqueNames(kwargs)
    ensures ApplyKeywordsLenient(d, kwargs).0.Valid()
    ensures ApplyKeywordsLenient(d, kwargs).0.keys == d.keys
    ensures forall k :: k in ApplyKeywordsLenient(d, kwargs).0.vals <==> k in d.vals
    ensures forall i :: 0 <= i < |kwargs| && kwargs[i].0 in d.vals ==>
      ApplyKeywordsLenient(d, kwargs).0.vals[kwargs[i].0] == kwargs[i].1
    ensures forall k :: k in d.vals && k !in NameSet(kwargs) ==> ApplyKeywordsLenient(d, kwargs).0.vals[k] == d.vals[k]
    decreases |kwargs|
  {
    if kwargs != [] {
      var (k0, v0) := kwargs[0];
      var d' := if k0 in d.vals then d.Set(k0, v0) else d;
      assert d'.vals.Keys == d.vals.Keys;
      var s := kwargs[1..];
      assert UniqueNames(s);
      LenientKeywordEffect(d', s);
      assert NameSet(kwargs) == {k0} + NameSet(s) by {
        assert forall p :: p in kwargs <==> p == kwargs[0] || p in s;
      }
      forall j | 0 <= j < |s| ensures s[j].0 != k0 {
        assert s[j] == kwargs[j + 1];
      }
      assert k0 !in NameSet(s);
      var r := ApplyKeywordsLenient(d, kwargs);
      forall i | 0 <= i < |kwargs| && kwargs[i].0 in d.vals ensures r.0.vals[kwargs[i].0] == kwargs[i].1 {
        if i > 0 {
          assert kwargs[i] == kwargs[1..][i - 1];
        }
      }
    }
  }
}
