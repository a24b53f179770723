/**
 * The `Fruit` and `Banana` declarations of MetaWindow/extras/example.py and
 * the groups the canonical `extract_reflection` builds for a `Banana`
 * instance.
 */
module ExampleFruit {
  import opened PyModel
  import opened FieldMap
  import opened MetaWidget
  import opened Reflection
  import opened Example

  // ---------------------------------------------------------------------------
  // The declarations
  // ---------------------------------------------------------------------------

  /**
   * The descriptors the annotations' widget calls return: label, group and
   * `T` as the calls bind them, the attributes as the classes' maps hold them
   * when `Fruit` and `Banana` are declared.
   */
  const ParentJ := Descriptor(ToggleFields.vals, "Parent Field", "Fruit", BoolType)
  const ParentH := Descriptor(map[], "Text", "Fruit", StrType)
  const ParentK := Descriptor(map["selection_type" := StrV("transform")], "", "", StrSetType)
  const ChildA := Descriptor(map["min" := IntV(0), "max" := IntV(100), "abstract_slider" := FuncV("abstract_slider")],
                             "Name", "Fruit", IntType)
  const ChildB := Descriptor(map[], "name", "Banana", StrType)
  const ChildC := Descriptor(ToggleFields.vals, "Name", "Banana", BoolType)

  const FruitDef := ClassDef("Fruit",
    [("__module__", StrV("__main__")),
     ("parent_j", BoolV(false)),
     ("parent_h", StrV("Bla")),
     ("parent_k", StrSetV({}))],
    [("parent_j", AnnotatedWidget(Annotated(BoolType, ParentJ))),
     ("parent_h", AnnotatedWidget(Annotated(StrType, ParentH))),
     ("parent_k", AnnotatedWidget(Annotated(StrSetType, ParentK)))])

  const BananaDef := ClassDef("Banana",
    [("__module__", StrV("__main__")),
     ("child_a", IntV(5)),
     ("child_b", StrV("banana banana")),
     ("child_c", BoolV(false))],
    [("child_a", AnnotatedWidget(Annotated(IntType, ChildA))),
     ("child_b", AnnotatedWidget(Annotated(StrType, ChildB))),
     ("child_c", AnnotatedWidget(Annotated(BoolType, ChildC)))])

  /** `Banana.__mro__`. */
  const BananaMro := [BananaDef, FruitDef, ObjectDef]

  /** The annotation dicts the `ChainMap` is built from, nearest first. */
  const BananaAnnotations := [BananaDef.annotations, FruitDef.annotations]

  /** Every annotated field, in the order the `ChainMap` yields them: `Fruit`'s first. */
  const FieldOrder := FruitDef.annotations + BananaDef.annotations

  /** The fragments extraction builds for the `Banana` instance `t`, in field order. */
  function BananaFragments(t: Target): seq<Fragment> {
    [Fragment(t, "parent_j", BoolV(false), ParentJ),
     Fragment(t, "parent_h", StrV("Bla"), ParentH),
     Fragment(t, "parent_k", StrSetV({}), ParentK),
     Fragment(t, "child_a", IntV(5), ChildA),
     Fragment(t, "child_b", StrV("banana banana"), ChildB),
     Fragment(t, "child_c", BoolV(false), ChildC)]
  }

  /**
   * The dict extraction returns for `t`: `"Fruit"` holding `parent_j`,
   * `parent_h` and `child_a`, then `"Banana"` holding `child_b` and
   * `child_c`, then `""` holding the ungrouped `parent_k`.
   */
  function BananaGroups(t: Target): Groups {
    var fs := BananaFragments(t);
    ODict(["Fruit", "Banana", ""], map["Fruit" := [fs[0], fs[1], fs[3]], "Banana" := [fs[4], fs[5]], "" := [fs[2]]])
  }

  /** The keywords of `Banana.child_a`: `IntSlider(label = "Name", group = "Fruit", min = 0, max = 100)`. */
  const ChildAOverrides: Items := [("min", IntV(0)), ("max", IntV(100))]

  /**
   * Both keywords of `child_a` name keys `IntSlider` inherits, so the call
   * raises nothing and leaves `ChildA`'s attributes in the map.
   */
  lemma ChildAKeywords(d: Dict)
    requires d.Valid() && d.vals == SliderFields.vals
    ensures ApplyKeywords(d, ChildAOverrides).unknown == None
    ensures ApplyKeywords(d, ChildAOverrides).d.vals == ChildA.attrs
  {
    var kw := ChildAOverrides;
    assert FirstUnknown(d.vals.Keys, kw) == 2 by {
      assert kw[0].0 in d.vals && kw[1].0 in d.vals;
    }
    AssignedShape(d, kw, 2);
    AssignedValues(d, kw, 2);
    var m := Assigned(d, kw, 2).vals;
    assert m["min"] == IntV(0) && m["max"] == IntV(100) by {
      assert kw[0].0 == "min" && kw[1].0 == "max";
    }
    assert m["abstract_slider"] == FuncV("abstract_slider") by {
      assert kw[0].0 != "abstract_slider" && kw[1].0 != "abstract_slider";
    }
    ChildAAttrsExact(m);
  }

  /** A map with `IntSlider`'s keys and the values `child_a` leaves is `ChildA`'s attribute map. */
  lemma ChildAAttrsExact(m: map<Name, Value>)
    requires m.Keys == SliderFields.vals.Keys
    requires m["min"] == IntV(0) && m["max"] == IntV(100) && m["abstract_slider"] == FuncV("abstract_slider")
    ensures m == ChildA.attrs
  {
    MapsAgree(m, ChildA.attrs);
  }

  /**
   * The widget calls of `Fruit` and `Banana` that go through `Toggle` and
   * `IntSlider`, in the order the class bodies run them: `parent_j`, then
   * `child_a`, then `child_c`. Each returns the annotation the declarations
   * above hold.
   */
  method FruitWidgetCalls(toggleHierarchy: seq<ClassDef>, abstractHierarchy: seq<ClassDef>, sliderHierarchy: seq<ClassDef>)
    returns (parentJ: Result<Annotated, ConstructError>, childA: Result<Annotated, ConstructError>,
             childC: Result<Annotated, ConstructError>)
    requires ToggleHierarchy(toggleHierarchy) && ToggleHierarchy(abstractHierarchy)
    requires SliderHierarchy(sliderHierarchy)
    ensures parentJ == Ok(Annotated(BoolType, ParentJ))
    ensures childA == Ok(Annotated(IntType, ChildA))
    ensures childC == Ok(Annotated(BoolType, ChildC))
  {
    var toggle := DeclareToggle(toggleHierarchy);
    var slider := DeclareIntSlider(abstractHierarchy, sliderHierarchy);
    parentJ := PlainToggle(toggle, "Parent Field", "Fruit");
    childA := ChildACall(slider);
    childC := PlainToggle(toggle, DefaultLabel, "Banana");
  }

  /**
   * A `Toggle` call with no configuration arguments, made while the map
   * still holds the body's values, returns them with the given label and
   * group, and leaves the map as it was.
   */
  method PlainToggle(toggle: WidgetClass, labelText: string, group: string)
    returns (r: Result<Annotated, ConstructError>)
    requires toggle.Linked() && toggle.ChainValid()
    requires toggle.T == BoolType && toggle.fields == ToggleFields
    modifies toggle, toggle.ancestors
    ensures toggle.ChainValid() && toggle.fields == ToggleFields
    ensures r == Ok(Annotated(BoolType, Descriptor(ToggleFields.vals, labelText, group, BoolType)))
  {
    NoArguments(toggle.fields);
    r := toggle.New(labelText, group, [], []);
  }

  /** `IntSlider(label="Name", group="Fruit", min=0, max=100)` on `IntSlider`'s declared map. */
  method ChildACall(slider: WidgetClass) returns (r: Result<Annotated, ConstructError>)
    requires slider.Linked() && slider.ChainValid()
    requires slider.T == IntType && slider.fields == SliderFields
    modifies slider, slider.ancestors
    ensures r == Ok(Annotated(IntType, ChildA))
  {
    NoArguments(slider.fields);
    ChildAKeywords(slider.fields);
    r := slider.New("Name", "Fruit", [], ChildAOverrides);
  }

  // ---------------------------------------------------------------------------
  // The annotations and defaults the `ChainMap`s find
  // ---------------------------------------------------------------------------

  /** Only `Banana` and `Fruit` declare annotations; `object` has none. */
  lemma BananaAnnotationMaps()
    ensures AnnotationMaps(BananaMro) == BananaAnnotations
  {
    assert [ObjectDef][1..] == [];
    assert AnnotationMaps([ObjectDef]) == [];
    assert BananaMro[1..] == [FruitDef, ObjectDef];
    assert BananaMro[1..][1..] == [ObjectDef];
    assert AnnotationMaps(BananaMro[1..]) == [FruitDef.annotations];
  }

  /** `Fruit`'s annotations alone are yielded in declaration order. */
  lemma FruitChainOrder()
    ensures ChainOrder([FruitDef.annotations]) == ["parent_j", "parent_h", "parent_k"]
  {
    var far := FruitDef.annotations;
    assert [far][1..] == [];
    assert Names(far) == ["parent_j", "parent_h", "parent_k"];
    AppendNewDisjoint([], Names(far));
    assert [] + Names(far) == Names(far);
  }

  /** The `ChainMap` yields `Fruit`'s three fields, then `Banana`'s three. */
  lemma BananaChainOrder()
    ensures ChainOrder(BananaAnnotations) == Names(FieldOrder)
  {
    var maps := BananaAnnotations;
    var near := BananaDef.annotations;
    assert maps[1..] == [FruitDef.annotations];
    FruitChainOrder();
    var far := ["parent_j", "parent_h", "parent_k"];
    assert Names(near) == ["child_a", "child_b", "child_c"];
    AppendNewDisjoint(far, Names(near));
    assert Names(FieldOrder) == far + Names(near);
  }

  /** `Banana`'s own dicts hold none of `Fruit`'s fields, and no dict repeats a name. */
  lemma BananaNames()
    ensures forall k :: k in NameSet(BananaDef.body) ==> k in {"__module__", "child_a", "child_b", "child_c"}
    ensures forall k :: k in NameSet(BananaDef.annotations) ==> k in {"child_a", "child_b", "child_c"}
    ensures UniqueNames(FruitDef.body) && UniqueNames(BananaDef.body)
    ensures UniqueNames(FruitDef.annotations) && UniqueNames(BananaDef.annotations)
  {
    var body := BananaDef.body;
    forall k | k in NameSet(body) ensures k in {"__module__", "child_a", "child_b", "child_c"} {
      var i :| 0 <= i < |body| && body[i].0 == k;
    }
    var anns := BananaDef.annotations;
    forall k | k in NameSet(anns) ensures k in {"child_a", "child_b", "child_c"} {
      var i :| 0 <= i < |anns| && anns[i].0 == k;
    }
  }

  /** Each field's nearest annotation is the one its own class declares. */
  lemma BananaAnnotationLookup()
    ensures forall i :: 0 <= i < |FieldOrder| ==> ChainGet(BananaAnnotations, FieldOrder[i].0) == Some(FieldOrder[i].1)
  {
    var maps := BananaAnnotations;
    BananaNames();
    forall i | 0 <= i < |FieldOrder| ensures ChainGet(maps, FieldOrder[i].0) == Some(FieldOrder[i].1) {
      if i < 3 {
        ChainGetNearest(maps, 1, FieldOrder[i].0);
        LookupAt(maps[1], i);
      } else {
        ChainGetNearest(maps, 0, FieldOrder[i].0);
        LookupAt(maps[0], i - 3);
      }
    }
  }

  /** The defaults of `FieldOrder`'s fields, as the class bodies assign them. */
  const FieldDefaults := [BoolV(false), StrV("Bla"), StrSetV({}), IntV(5), StrV("banana banana"), BoolV(false)]

  /** Each field's default is the value its own class body assigns. */
  lemma BananaDefaults()
    ensures forall a :: 0 <= a < |FieldOrder| ==>
      ChainGet(ClassDicts(BananaMro), FieldOrder[a].0) == Some(FieldDefaults[a])
  {
    var dicts := ClassDicts(BananaMro);
    BananaNames();
    forall a | 0 <= a < |FieldOrder| ensures ChainGet(dicts, FieldOrder[a].0) == Some(FieldDefaults[a]) {
      if a < 3 {
        assert dicts[1] == FruitDef.body && dicts[1][a + 1].0 == FieldOrder[a].0;
        assert dicts[1][a + 1].0 in NameSet(dicts[1]);
        ChainGetNearest(dicts, 1, FieldOrder[a].0);
        LookupAt(dicts[1], a + 1);
      } else {
        assert dicts[0] == BananaDef.body && dicts[0][a - 2].0 == FieldOrder[a].0;
        assert dicts[0][a - 2].0 in NameSet(dicts[0]);
        ChainGetNearest(dicts, 0, FieldOrder[a].0);
        LookupAt(dicts[0], a - 2);
      }
    }
  }

  // ---------------------------------------------------------------------------
  // The fragments and their groups
  // ---------------------------------------------------------------------------

  /** The `ChainMap` of `Banana`'s annotations yields exactly the six declared annotations, `Fruit`'s first. */
  lemma BananaEntries(t: Target)
    requires t.mro == BananaMro
    ensures ChainItems(AnnotationMaps(t.mro)) == FieldOrder
  {
    BananaAnnotationMaps();
    var entries := ChainItems(BananaAnnotations);
    BananaChainOrder();
    BananaAnnotationLookup();
    assert |entries| == |FieldOrder|;
    forall i | 0 <= i < |entries| ensures entries[i] == FieldOrder[i] {
      assert entries[i].0 == Names(entries)[i] == Names(FieldOrder)[i];
    }
  }

  /** Every annotated field has a default, so extraction from the six entries succeeds with one fragment each. */
  lemma FieldFragmentsNamed(t: Target)
    ensures var res := Fragments(t, FieldOrder, ClassDicts(BananaMro));
      res.Ok? && FragmentNames(res.value) == Names(FieldOrder)
  {
    var dicts := ClassDicts(BananaMro);
    BananaDefaults();
    assert AllDefaulted(FieldOrder, dicts);
    FragmentsSucceed(t, FieldOrder, dicts);
    FragmentsNamed(t, FieldOrder, dicts);
    WidgetNamesAll(FieldOrder);
  }

  /** The fragment of each field is bound to the instance and carries that field's default and descriptor. */
  lemma FieldFragmentParts(t: Target)
    ensures var res := Fragments(t, FieldOrder, ClassDicts(BananaMro));
      res.Ok? && var fs := res.value;
      |fs| == |FieldOrder| && forall a :: 0 <= a < |fs| ==>
        && fs[a].owner == t && fs[a].name == FieldOrder[a].0 && fs[a].default == FieldDefaults[a]
        && Some(fs[a].data) == WidgetOf(FieldOrder[a].1)
  {
    var dicts := ClassDicts(BananaMro);
    FieldFragmentsNamed(t);
    FragmentsBound(t, FieldOrder, dicts);
    FragmentsSourced(t, FieldOrder, dicts);
    BananaDefaults();
    BananaAnnotationLookup();
    var fs := Fragments(t, FieldOrder, dicts).value;
    forall a | 0 <= a < |fs| ensures Some(fs[a].data) == WidgetOf(FieldOrder[a].1) {
      var f := fs[a];
      assert f in fs;
      var i :| 0 <= i < |FieldOrder| && FieldOrder[i].0 == f.name && WidgetOf(FieldOrder[i].1) == Some(f.data);
      assert ChainGet(BananaAnnotations, FieldOrder[i].0) == Some(FieldOrder[a].1);
    }
    forall a | 0 <= a < |fs| ensures fs[a].default == FieldDefaults[a] {
      assert fs[a] in fs;
    }
  }

  /** A fragment bound to `t` with the name, default and descriptor of field `a` is the `a`-th expected fragment. */
  lemma FragmentOfField(t: Target, f: Fragment, a: nat)
    requires a < |FieldOrder| && f.owner == t && f.name == FieldOrder[a].0 && f.default == FieldDefaults[a]
    requires Some(f.data) == WidgetOf(FieldOrder[a].1)
    ensures f == BananaFragments(t)[a]
  {
  }

  /** Extraction from the six entries yields exactly the six expected fragments. */
  lemma FieldFragments(t: Target)
    ensures Fragments(t, FieldOrder, ClassDicts(BananaMro)) == Ok(BananaFragments(t))
  {
    FieldFragmentsNamed(t);
    FieldFragmentParts(t);
    var fs := Fragments(t, FieldOrder, ClassDicts(BananaMro)).value;
    var expected := BananaFragments(t);
    assert |fs| == |expected|;
    forall a | 0 <= a < |fs| ensures fs[a] == expected[a] {
      FragmentOfField(t, fs[a], a);
    }
    assert fs == expected;
  }

  /**
   * Extraction from a `Banana` succeeds and yields one fragment per annotated
   * field, in `ChainMap` order, each bound to the instance and carrying its
   * class's default and its annotation's descriptor.
   */
  lemma BananaFragmentsBuilt(t: Target)
    requires t.mro == BananaMro
    ensures Fragments(t, ChainItems(AnnotationMaps(t.mro)), ClassDicts(t.mro)) == Ok(BananaFragments(t))
  {
    BananaEntries(t);
    FieldFragments(t);
  }

  /** `[f]` when `f` belongs to group `g`, nothing otherwise. */
  function Kept(f: Fragment, g: string): seq<Fragment> {
    if f.data.group == g then [f] else []
  }

  /** Filtering six fragments keeps each one exactly when it belongs to the group, in order. */
  lemma FilterSix(fs: seq<Fragment>, g: string)
    requires |fs| == 6
    ensures Filter(fs, g) == Kept(fs[0], g) + Kept(fs[1], g) + Kept(fs[2], g) + Kept(fs[3], g) + Kept(fs[4], g) + Kept(fs[5], g)
  {
    FilterAppend([fs[0]], [fs[1]], g);
    FilterAppend(fs[..2], [fs[2]], g);
    FilterAppend(fs[..3], [fs[3]], g);
    FilterAppend(fs[..4], [fs[4]], g);
    FilterAppend(fs[..5], [fs[5]], g);
    assert fs[..2] == [fs[0]] + [fs[1]];
    assert fs[..3] == fs[..2] + [fs[2]];
    assert fs[..4] == fs[..3] + [fs[3]];
    assert fs[..5] == fs[..4] + [fs[4]];
    assert fs == fs[..5] + [fs[5]];
    FilterOne(fs[0], g);
    FilterOne(fs[1], g);
    FilterOne(fs[2], g);
    FilterOne(fs[3], g);
    FilterOne(fs[4], g);
    FilterOne(fs[5], g);
  }

  /** The six fragments split into the groups their descriptors name, keeping their order. */
  lemma BananaFilters(t: Target)
    ensures var fs := BananaFragments(t);
      && Filter(fs, "Fruit") == [fs[0], fs[1], fs[3]]
      && Filter(fs, "Banana") == [fs[4], fs[5]]
      && Filter(fs, "") == [fs[2]]
  {
    var fs := BananaFragments(t);
    assert GroupNames(fs) == ["Fruit", "Fruit", "", "Fruit", "Banana", "Banana"] by {
      BananaGroupNames(t);
    }
    GroupNamesAt(fs);
    FilterSix(fs, "Fruit");
    FilterSix(fs, "Banana");
    FilterSix(fs, "");
  }

  /** The group names of the six fragments, in order. */
  lemma BananaGroupNames(t: Target)
    ensures GroupNames(BananaFragments(t)) == ["Fruit", "Fruit", "", "Fruit", "Banana", "Banana"]
  {
    GroupNamesAt(BananaFragments(t));
  }

  /** A duplicate-free sequence holding exactly two names is one of their two orders. */
  lemma PairOrders(ks: seq<string>, a: string, b: string)
    requires Distinct(ks) && a != b
    requires forall k :: k in ks <==> k == a || k == b
    ensures ks == [a, b] || ks == [b, a]
  {
    assert a in ks && b in ks;
    assert |ks| >= 2;
    var last := |ks| - 1;
    assert ks[0] in ks && ks[1] in ks && ks[last] in ks;
  }

  /** The grouping loop creates `"Fruit"` first, at `parent_j`, then `"Banana"`, at `child_b`. */
  lemma BananaGroupingKeys(t: Target)
    ensures Grouping(BananaFragments(t)).keys == ["Fruit", "Banana"]
  {
    var fs := BananaFragments(t);
    var ks := Grouping(fs).keys;
    GroupingKeys(fs);
    BananaGroupNames(t);
    assert forall k :: k in ks <==> k == "Fruit" || k == "Banana" by {
      forall k ensures k in ks <==> k == "Fruit" || k == "Banana" {
        assert k in ks <==> k in Grouping(fs).vals;
      }
    }
    PairOrders(ks, "Fruit", "Banana");
    GroupingOrder(fs);
    var first, before := ks[0], GroupNames(fs)[..0];
    assert GroupNames(fs)[0] == ks[1] ==> first in before;
  }

  /** The keys of the returned dict: the two groups, then `""`, each holding its filtered fragments. */
  lemma BananaGroupedKeys(t: Target)
    ensures var r := Grouped(BananaFragments(t));
      && r.keys == ["Fruit", "Banana", ""]
      && (forall g :: g in r.vals <==> g == "Fruit" || g == "Banana" || g == "")
      && (forall g :: g in r.vals ==> r.vals[g] == Filter(BananaFragments(t), g))
  {
    var fs := BananaFragments(t);
    GroupedLaw(fs);
    BananaGroupingKeys(t);
    BananaGroupNames(t);
    assert GroupNames(fs)[2] == "";
  }

  /**
   * The dict extraction returns for a `Banana`: the groups in the order the
   * loop created them, then the ungrouped `parent_k` under `""`.
   */
  lemma BananaGrouped(t: Target)
    ensures Grouped(BananaFragments(t)) == BananaGroups(t)
  {
    var r := Grouped(BananaFragments(t));
    BananaGroupedKeys(t);
    BananaFilters(t);
    MapsAgree(r.vals, BananaGroups(t).vals);
  }

  /**
   * `Fragment.extract_reflection(banana)`: `{"Fruit": [parent_j, parent_h,
   * child_a], "Banana": [child_b, child_c], "": [parent_k]}`, each fragment
   * with its class's default.
   */
  method ExtractBanana(t: Target) returns (r: Result<Groups, ExtractError>)
    requires t.mro == BananaMro
    ensures r == Ok(BananaGroups(t))
  {
    r := ExtractReflection(t);
    BananaFragmentsBuilt(t);
    BananaGrouped(t);
  }
}
