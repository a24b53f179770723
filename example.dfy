/**
 * The widget classes of MetaWindow/scripts/widgets.py and the
 * `Fruit`/`Banana`/`Apple` declarations of MetaWindow/extras/example.py,
 * run through the canonical engine.
 */
module Example {
  import opened PyModel
  import opened FieldMap
  import opened MetaWidget
  import opened Reflection

  // ---------------------------------------------------------------------------
  // Class bodies (`__dict__` items); dunder entries stand for the ones Python adds
  // ---------------------------------------------------------------------------

  const ObjectDef := ClassDef("object", [("__doc__", StrV("The base class of the class hierarchy."))], [])

  const WidgetDef := ClassDef("Widget", [
    ("__module__", StrV("engine")),
    ("__label__", StrV("")),
    ("__group__", StrV("")),
    ("__type__", NoneV),
    ("__widget__", FuncV("__widget__"))], [])

  const ToggleDef := ClassDef("Toggle", [
    ("__module__", StrV("widgets")),
    ("true_label", StrV("ON")),
    ("false_label", StrV("OFF")),
    ("true_color", ColorV("GREEN")),
    ("false_color", ColorV("RED")),
    ("__widget__", FuncV("__widget__"))], [])

  const TextFieldDef := ClassDef("TextField", [
    ("__module__", StrV("widgets")),
    ("__widget__", FuncV("__widget__"))], [])

  const DropdownDef := ClassDef("Dropdown", [
    ("__module__", StrV("widgets")),
    ("choices", ListV([])),
    ("__widget__", FuncV("__widget__"))], [])

  const AbstractSliderDef := ClassDef("AbstractSlider", [
    ("__module__", StrV("widgets")),
    ("min", IntV(1)),
    ("max", IntV(10)),
    ("abstract_slider", FuncV("abstract_slider"))], [])

  const IntSliderDef := ClassDef("IntSlider", [
    ("__module__", StrV("widgets")),
    ("__widget__", FuncV("__widget__"))], [])

  const FloatSliderDef := ClassDef("FloatSlider", [
    ("__module__", StrV("widgets")),
    ("__widget__", FuncV("__widget__"))], [])

  const StringBoxDef := ClassDef("StringBox", [
    ("__module__", StrV("widgets")),
    ("selection_type", StrV("transform")),
    ("__widget__", FuncV("__widget__"))], [])

  /** The map `Toggle`'s `__new__` captures. */
  const ToggleFields: Dict := ODict(
    ["true_label", "false_label", "true_color", "false_color"],
    map["true_label" := StrV("ON"), "false_label" := StrV("OFF"),
        "true_color" := ColorV("GREEN"), "false_color" := ColorV("RED")])

  /** The map `Dropdown`'s `__new__` captures: its empty `choices` list. */
  const DropdownFields: Dict := ODict(["choices"], map["choices" := ListV([])])

  /** The map `IntSlider`'s `__new__` captures: the inherited `min`, `max` and the method `abstract_slider`. */
  const SliderFields: Dict := ODict(
    ["min", "max", "abstract_slider"],
    map["min" := IntV(1), "max" := IntV(10), "abstract_slider" := FuncV("abstract_slider")])

  lemma WidgetBodyUnique()
    ensures UniqueNames(WidgetDef.body)
  {
  }

  lemma ToggleBodyUnique()
    ensures UniqueNames(ToggleDef.body)
  {
  }

  lemma ToggleBodyNames()
    ensures forall k :: k in BodyNames(ToggleDef.body) ==> k in ToggleFields.vals
    ensures forall k :: k in ToggleFields.vals ==> k in BodyNames(ToggleDef.body)
  {
    var b := ToggleDef.body;
    assert IsDunder(b[0].0) && IsDunder(b[5].0);
    assert b[1] in b && b[2] in b && b[3] in b && b[4] in b;
    assert !IsDunder(b[1].0) && !IsDunder(b[2].0) && !IsDunder(b[3].0) && !IsDunder(b[4].0);
  }

  /** `Widget` and `object` contribute nothing: all their attributes are dunder. */
  lemma ToggleAncestorNames(hierarchy: seq<ClassDef>)
    requires ToggleHierarchy(hierarchy)
    ensures HierarchyNames(hierarchy) == {}
  {
    WidgetAllDunder(WidgetDef);
    WidgetAllDunder(ObjectDef);
  }

  /**
   * Over a hierarchy that contributes no names, a class's map holds its own
   * body's non-dunder names only, in body order.
   */
  lemma OwnFieldsOnly(hierarchy: seq<ClassDef>, members: Items)
    requires HierarchyNames(hierarchy) == {} && UniqueNames(members)
    ensures HierarchyFields(hierarchy, members).keys == AddedKeys({}, members)
  {
    MergeAllNothing(Empty, hierarchy);
    FieldMapContents(hierarchy, members);
  }

  /** `Toggle`'s keys in body order, the order positional arguments fill them in. */
  lemma ToggleFieldOrder(hierarchy: seq<ClassDef>)
    requires HierarchyNames(hierarchy) == {}
    ensures HierarchyFields(hierarchy, ToggleDef.body).keys == ToggleFields.keys
  {
    ToggleBodyUnique();
    OwnFieldsOnly(hierarchy, ToggleDef.body);
    ToggleBodyShape();
    FourFields(ToggleDef.body);
  }

  /** `Toggle`'s body: its four configuration names between two dunder entries. */
  lemma ToggleBodyShape()
    ensures var b := ToggleDef.body;
      && |b| == 6 && IsDunder(b[0].0) && IsDunder(b[5].0)
      && !IsDunder(b[1].0) && !IsDunder(b[2].0) && !IsDunder(b[3].0) && !IsDunder(b[4].0)
      && [b[1].0, b[2].0, b[3].0, b[4].0] == ToggleFields.keys
      && Distinct(ToggleFields.keys)
  {
  }

  /** A body of four distinct non-dunder names between two dunder ones adds those four, in order. */
  lemma FourFields(b: Items)
    requires |b| == 6 && IsDunder(b[0].0) && IsDunder(b[5].0)
    requires !IsDunder(b[1].0) && !IsDunder(b[2].0) && !IsDunder(b[3].0) && !IsDunder(b[4].0)
    requires Distinct([b[1].0, b[2].0, b[3].0, b[4].0])
    ensures AddedKeys({}, b) == [b[1].0, b[2].0, b[3].0, b[4].0]
  {
    var s1 := b[1..];
    var s2 := s1[1..];
    var s3 := s2[1..];
    var s4 := s3[1..];
    var s5 := s4[1..];
    assert s1[0] == b[1] && s2[0] == b[2] && s3[0] == b[3] && s4[0] == b[4] && s5 == [b[5]];
    var p1: set<Name> := {} + {b[1].0};
    var p2 := p1 + {b[2].0};
    var p3 := p2 + {b[3].0};
    var p4 := p3 + {b[4].0};
    var ks := [b[1].0, b[2].0, b[3].0, b[4].0];
    assert ks[0] != ks[1] && ks[0] != ks[2] && ks[0] != ks[3];
    assert ks[1] != ks[2] && ks[1] != ks[3] && ks[2] != ks[3];
    assert b[2].0 !in p1 && b[3].0 !in p2 && b[4].0 !in p3;
    AddedKeysStep({}, b);
    AddedKeysStep({}, s1);
    AddedKeysStep(p1, s2);
    AddedKeysStep(p2, s3);
    AddedKeysStep(p3, s4);
    AddedKeysStep(p4, s5);
  }

  lemma ToggleFieldKeys(hierarchy: seq<ClassDef>)
    requires HierarchyNames(hierarchy) == {}
    ensures HierarchyFields(hierarchy, ToggleDef.body).vals.Keys == ToggleFields.vals.Keys
  {
    ToggleBodyUnique();
    ToggleBodyNames();
    FieldMapContents(hierarchy, ToggleDef.body);
  }

  lemma ToggleFieldValues(hierarchy: seq<ClassDef>)
    ensures var vals := HierarchyFields(hierarchy, ToggleDef.body).vals;
      && vals["true_label"] == StrV("ON") && vals["false_label"] == StrV("OFF")
      && vals["true_color"] == ColorV("GREEN") && vals["false_color"] == ColorV("RED")
  {
    var b := ToggleDef.body;
    ToggleBodyUnique();
    FieldMapContents(hierarchy, b);
    assert !IsDunder(b[1].0) && !IsDunder(b[2].0) && !IsDunder(b[3].0) && !IsDunder(b[4].0);
  }

  /**
   * `Toggle`'s map holds exactly its four configuration keys, in body order,
   * with the body's values, for any hierarchy whose classes define only
   * dunder attributes.
   */
  lemma ToggleFieldMap(hierarchy: seq<ClassDef>)
    requires HierarchyNames(hierarchy) == {}
    ensures HierarchyFields(hierarchy, ToggleDef.body) == ToggleFields
  {
    ToggleFieldOrder(hierarchy);
    ToggleFieldKeys(hierarchy);
    ToggleFieldValues(hierarchy);
    ToggleFieldsExact(HierarchyFields(hierarchy, ToggleDef.body).vals);
  }

  /** A map with `Toggle`'s keys and its four default values is `Toggle`'s map. */
  lemma ToggleFieldsExact(m: map<Name, Value>)
    requires m.Keys == ToggleFields.vals.Keys
    requires m["true_label"] == StrV("ON") && m["false_label"] == StrV("OFF")
    requires m["true_color"] == ColorV("GREEN") && m["false_color"] == ColorV("RED")
    ensures m == ToggleFields.vals
  {
    MapsAgree(m, ToggleFields.vals);
  }

  /** The keywords of `Apple.child_f`: `Toggle("Is Pineapple", "Apple", true_label = "PINEAPPLE", ...)`. */
  const AppleOverrides: Items := [
    ("true_label", StrV("PINEAPPLE")), ("false_label", StrV("APPLE")),
    ("true_color", ColorV("YELLOW")), ("false_color", ColorV("RED"))]

  const AppleFields: map<Name, Value> :=
    map["true_label" := StrV("PINEAPPLE"), "false_label" := StrV("APPLE"),
        "true_color" := ColorV("YELLOW"), "false_color" := ColorV("RED")]

  lemma AppleKeywordsKnown(d: Dict)
    requires d.Valid() && d.vals.Keys == ToggleFields.vals.Keys
    ensures UniqueNames(AppleOverrides)
    ensures FirstUnknown(d.vals.Keys, AppleOverrides) == |AppleOverrides|
  {
    var n := FirstUnknown(d.vals.Keys, AppleOverrides);
    assert AppleOverrides[0].0 in d.vals && AppleOverrides[1].0 in d.vals;
    assert AppleOverrides[2].0 in d.vals && AppleOverrides[3].0 in d.vals;
  }

  /** Every keyword of `child_f` names a key of `Toggle`'s map, so all four overwrite it and none raises. */
  lemma AppleKeywords(d: Dict)
    requires d.Valid() && d.vals.Keys == ToggleFields.vals.Keys
    ensures ApplyKeywords(d, AppleOverrides).unknown == None
    ensures ApplyKeywords(d, AppleOverrides).d.vals == AppleFields
  {
    AppleKeywordsKnown(d);
    AssignedShape(d, AppleOverrides, 4);
    AppleKeywordValues(d);
    AppleFieldsExact(Assigned(d, AppleOverrides, 4).vals);
  }

  lemma AppleKeywordValues(d: Dict)
    ensures var m := Assigned(d, AppleOverrides, 4).vals;
      && "true_label" in m && m["true_label"] == StrV("PINEAPPLE")
      && "false_label" in m && m["false_label"] == StrV("APPLE")
      && "true_color" in m && m["true_color"] == ColorV("YELLOW")
      && "false_color" in m && m["false_color"] == ColorV("RED")
  {
    AssignedValues(d, AppleOverrides, 4);
    assert AppleOverrides[0].0 == "true_label" && AppleOverrides[1].0 == "false_label";
    assert AppleOverrides[2].0 == "true_color" && AppleOverrides[3].0 == "false_color";
  }

  /** A map with `Toggle`'s keys and the four values `child_f` passes is the map after `child_f`. */
  lemma AppleFieldsExact(m: map<Name, Value>)
    requires m.Keys == AppleFields.Keys
    requires m["true_label"] == StrV("PINEAPPLE") && m["false_label"] == StrV("APPLE")
    requires m["true_color"] == ColorV("YELLOW") && m["false_color"] == ColorV("RED")
    ensures m == AppleFields
  {
    MapsAgree(m, AppleFields);
  }

  /** `Toggle(true_colour = ...)`: the misspelt keyword names no key, so the call raises naming it. */
  lemma MisspeltKeyword(d: Dict)
    requires d.vals.Keys == ToggleFields.vals.Keys
    ensures ApplyKeywords(d, [("true_colour", ColorV("BLUE"))]) == KwOutcome(d, Some("true_colour"))
  {
    assert "true_colour" !in ToggleFields.vals;
  }

  /** The hierarchy of `IntSlider`'s (and `FloatSlider`'s) bases: `AbstractSlider`, `Widget` and `object`, in any order. */
  ghost predicate SliderHierarchy(hierarchy: seq<ClassDef>) {
    forall c :: c in hierarchy <==> c == AbstractSliderDef || c == WidgetDef || c == ObjectDef
  }

  lemma SliderNamesFound(hierarchy: seq<ClassDef>)
    requires SliderHierarchy(hierarchy)
    ensures forall k :: k in SliderFields.vals ==> k in HierarchyNames(hierarchy)
  {
    var b := AbstractSliderDef.body;
    assert AbstractSliderDef in hierarchy;
    assert b[1] in b && b[2] in b && b[3] in b;
    assert !IsDunder(b[1].0) && !IsDunder(b[2].0) && !IsDunder(b[3].0);
  }

  lemma SliderNamesOnly(hierarchy: seq<ClassDef>)
    requires SliderHierarchy(hierarchy)
    ensures forall k :: k in HierarchyNames(hierarchy) ==> k in SliderFields.vals
  {
    WidgetAllDunder(WidgetDef);
    WidgetAllDunder(ObjectDef);
    SliderOwnNames();
  }

  lemma SliderOwnNames()
    ensures forall p :: p in AbstractSliderDef.body && !IsDunder(p.0) ==> p.0 in SliderFields.vals
  {
    assert IsDunder(AbstractSliderDef.body[0].0);
  }

  /** `Widget` and `object` hold only dunder attributes. */
  lemma WidgetAllDunder(c: ClassDef)
    requires c == WidgetDef || c == ObjectDef
    ensures forall p :: p in c.body ==> IsDunder(p.0)
  {
  }

  /** The value an ancestor holds for each of `IntSlider`'s keys: only `AbstractSlider` defines them. */
  lemma SliderOwnValues(c: ClassDef, k: Name, v: Value)
    requires c == AbstractSliderDef || c == WidgetDef || c == ObjectDef
    requires (k, v) in c.body && k in SliderFields.vals
    ensures v == SliderFields.vals[k]
  {
  }

  lemma IntSliderBody()
    ensures UniqueNames(IntSliderDef.body) && BodyNames(IntSliderDef.body) == {}
  {
  }

  lemma IntSliderFieldKeys(hierarchy: seq<ClassDef>)
    requires SliderHierarchy(hierarchy)
    ensures HierarchyFields(hierarchy, IntSliderDef.body).vals.Keys == SliderFields.vals.Keys
  {
    IntSliderBody();
    SliderNamesFound(hierarchy);
    SliderNamesOnly(hierarchy);
    FieldMapContents(hierarchy, IntSliderDef.body);
  }

  lemma IntSliderFieldValues(hierarchy: seq<ClassDef>)
    requires SliderHierarchy(hierarchy)
    ensures forall k :: k in SliderFields.vals ==>
      k in HierarchyFields(hierarchy, IntSliderDef.body).vals &&
      HierarchyFields(hierarchy, IntSliderDef.body).vals[k] == SliderFields.vals[k]
  {
    IntSliderBody();
    SliderNamesFound(hierarchy);
    FieldMapContents(hierarchy, IntSliderDef.body);
    forall k | k in SliderFields.vals
      ensures HierarchyFields(hierarchy, IntSliderDef.body).vals[k] == SliderFields.vals[k]
    {
      InheritedValue(hierarchy, HierarchyFields(hierarchy, IntSliderDef.body).vals, k);
    }
  }

  /** A value some class of `IntSlider`'s hierarchy holds for one of its keys is `AbstractSlider`'s. */
  lemma InheritedValue(hierarchy: seq<ClassDef>, vals: map<Name, Value>, k: Name)
    requires SliderHierarchy(hierarchy) && k in vals && k in SliderFields.vals
    requires exists c :: c in hierarchy && (k, vals[k]) in c.body
    ensures vals[k] == SliderFields.vals[k]
  {
    var c :| c in hierarchy && (k, vals[k]) in c.body;
    SliderOwnValues(c, k, vals[k]);
  }

  /**
   * `IntSlider`'s map is `AbstractSlider`'s `min`, `max` and method
   * `abstract_slider`, in that order and with `AbstractSlider`'s values,
   * whatever order the hierarchy set is walked in: `IntSlider("L", "G", 0,
   * 100)` sets `min` and `max`, and a fifth positional would overwrite
   * `abstract_slider`.
   */
  lemma IntSliderFieldMap(hierarchy: seq<ClassDef>)
    requires SliderHierarchy(hierarchy)
    ensures HierarchyFields(hierarchy, IntSliderDef.body) == SliderFields
  {
    IntSliderFieldOrder(hierarchy);
    IntSliderFieldKeys(hierarchy);
    IntSliderFieldValues(hierarchy);
    MapsAgree(HierarchyFields(hierarchy, IntSliderDef.body).vals, SliderFields.vals);
  }

  /** `FloatSlider` declares nothing but dunder attributes: its map is `IntSlider`'s. */
  lemma FloatSliderFieldMap(hierarchy: seq<ClassDef>)
    requires SliderHierarchy(hierarchy)
    ensures HierarchyFields(hierarchy, FloatSliderDef.body) == SliderFields
  {
    assert FloatSliderDef.body == IntSliderDef.body;
    IntSliderFieldMap(hierarchy);
  }

  /** `IntSlider`'s keys are `AbstractSlider`'s three names in body order, for every walk order. */
  lemma IntSliderFieldOrder(hierarchy: seq<ClassDef>)
    requires SliderHierarchy(hierarchy)
    ensures HierarchyFields(hierarchy, IntSliderDef.body).keys == SliderFields.keys
  {
    assert AbstractSliderDef in hierarchy;
    SliderWalk(Empty, hierarchy);
    MergeIntoNothing(MergeAll(Empty, hierarchy), IntSliderDef.body);
  }

  /**
   * Walking `AbstractSlider`, `Widget` and `object` (each any number of
   * times) from an empty map, or from one already holding the slider keys,
   * ends with the slider keys in body order.
   */
  lemma {:induction false} SliderWalk(d: Dict, hierarchy: seq<ClassDef>)
    requires d.Valid() && (d.keys == [] || d.keys == SliderFields.keys)
    requires forall c :: c in hierarchy ==> c == AbstractSliderDef || c == WidgetDef || c == ObjectDef
    requires d.keys == SliderFields.keys || AbstractSliderDef in hierarchy
    ensures MergeAll(d, hierarchy).keys == SliderFields.keys
    decreases |hierarchy|
  {
    if hierarchy != [] {
      var c := hierarchy[0];
      assert c in hierarchy;
      assert forall c' :: c' in hierarchy[1..] ==> c' in hierarchy;
      var d' := MergeInto(d, c.body);
      MergeIntoFacts(d, c.body);
      if c == AbstractSliderDef {
        MergeIntoOrder(d, c.body);
        AbstractSliderAdds(d);
      } else {
        WidgetAllDunder(c);
        MergeIntoNothing(d, c.body);
      }
      assert d'.keys == SliderFields.keys || AbstractSliderDef in hierarchy[1..] by {
        if d'.keys != SliderFields.keys {
          assert c != AbstractSliderDef && d'.keys == [];
          assert AbstractSliderDef in hierarchy[1..] by {
            var i :| 0 <= i < |hierarchy| && hierarchy[i] == AbstractSliderDef;
            assert i != 0 && hierarchy[1..][i - 1] == AbstractSliderDef;
          }
        }
      }
      SliderWalk(d', hierarchy[1..]);
    }
  }

  /** Copying `AbstractSlider`'s body appends its three names to an empty map and nothing to a map already holding them. */
  lemma AbstractSliderAdds(d: Dict)
    requires d.Valid() && (d.keys == [] || d.keys == SliderFields.keys)
    ensures d.keys + AddedKeys(d.vals.Keys, AbstractSliderDef.body) == SliderFields.keys
  {
    var b := AbstractSliderDef.body;
    AbstractSliderBodyShape();
    if d.keys == [] {
      assert d.vals.Keys == {};
      ThreeFields(b);
    } else {
      assert d.vals.Keys == {"min", "max", "abstract_slider"} by {
        assert forall k :: k in d.vals <==> k in SliderFields.keys;
      }
      AddedKeysNone(d.vals.Keys, b);
    }
  }

  /** `AbstractSlider`'s own map: its three names in body order, with its values. */
  lemma AbstractSliderFieldMap(hierarchy: seq<ClassDef>)
    requires HierarchyNames(hierarchy) == {}
    ensures HierarchyFields(hierarchy, AbstractSliderDef.body) == SliderFields
  {
    var r := HierarchyFields(hierarchy, AbstractSliderDef.body);
    AbstractSliderFieldOrder(hierarchy);
    AbstractSliderFieldValues(hierarchy);
    assert r.vals.Keys == SliderFields.vals.Keys by {
      assert forall k :: k in r.vals <==> k in r.keys;
    }
    MapsAgree(r.vals, SliderFields.vals);
  }

  lemma AbstractSliderFieldOrder(hierarchy: seq<ClassDef>)
    requires HierarchyNames(hierarchy) == {}
    ensures HierarchyFields(hierarchy, AbstractSliderDef.body).Valid()
    ensures HierarchyFields(hierarchy, AbstractSliderDef.body).keys == SliderFields.keys
  {
    var b := AbstractSliderDef.body;
    AbstractSliderBodyShape();
    OwnFieldsOnly(hierarchy, b);
    FieldMapContents(hierarchy, b);
    ThreeFields(b);
  }

  lemma AbstractSliderFieldValues(hierarchy: seq<ClassDef>)
    ensures var vals := HierarchyFields(hierarchy, AbstractSliderDef.body).vals;
      && "min" in vals && vals["min"] == IntV(1) && "max" in vals && vals["max"] == IntV(10)
      && "abstract_slider" in vals && vals["abstract_slider"] == FuncV("abstract_slider")
  {
    var b := AbstractSliderDef.body;
    AbstractSliderBodyShape();
    FieldMapContents(hierarchy, b);
  }

  lemma AbstractSliderBodyUnique()
    ensures UniqueNames(AbstractSliderDef.body)
  {
  }

  /** `AbstractSlider`'s body: one dunder entry, then its three distinct configuration names. */
  lemma AbstractSliderBodyShape()
    ensures var b := AbstractSliderDef.body;
      && |b| == 4 && IsDunder(b[0].0) && !IsDunder(b[1].0) && !IsDunder(b[2].0) && !IsDunder(b[3].0)
      && [b[1].0, b[2].0, b[3].0] == SliderFields.keys && Distinct(SliderFields.keys)
      && BodyNames(b) == {"min", "max", "abstract_slider"} && UniqueNames(b)
      && b[1] == ("min", IntV(1)) && b[2] == ("max", IntV(10))
      && b[3] == ("abstract_slider", FuncV("abstract_slider"))
  {
    var b := AbstractSliderDef.body;
    assert b[1] in b && b[2] in b && b[3] in b;
  }

  /** A body of one dunder name followed by three distinct non-dunder names adds those three, in order. */
  lemma ThreeFields(b: Items)
    requires |b| == 4 && IsDunder(b[0].0) && !IsDunder(b[1].0) && !IsDunder(b[2].0) && !IsDunder(b[3].0)
    requires Distinct([b[1].0, b[2].0, b[3].0])
    ensures AddedKeys({}, b) == [b[1].0, b[2].0, b[3].0]
  {
    var s1 := b[1..];
    var s2 := s1[1..];
    var s3 := s2[1..];
    var s4 := s3[1..];
    assert s1[0] == b[1] && s2[0] == b[2] && s3[0] == b[3] && s4 == [];
    var p1: set<Name> := {} + {b[1].0};
    var p2 := p1 + {b[2].0};
    var p3 := p2 + {b[3].0};
    var ks := [b[1].0, b[2].0, b[3].0];
    assert ks[0] != ks[1] && ks[0] != ks[2] && ks[1] != ks[2];
    assert b[2].0 !in p1 && b[3].0 !in p2;
    AddedKeysStep({}, b);
    AddedKeysStep({}, s1);
    AddedKeysStep(p1, s2);
    AddedKeysStep(p2, s3);
  }

  /** A body of one non-dunder name between two dunder ones adds that name only. */
  lemma OneField(b: Items)
    requires |b| == 3 && IsDunder(b[0].0) && !IsDunder(b[1].0) && IsDunder(b[2].0)
    ensures AddedKeys({}, b) == [b[1].0]
  {
    var s1 := b[1..];
    var s2 := s1[1..];
    assert s1[0] == b[1] && s2 == [b[2]];
    AddedKeysStep({}, b);
    AddedKeysStep({}, s1);
    AddedKeysStep({} + {b[1].0}, s2);
  }

  /** `Dropdown`'s map holds its one configuration key `choices`, an empty list. */
  lemma DropdownFieldMap(hierarchy: seq<ClassDef>)
    requires HierarchyNames(hierarchy) == {}
    ensures HierarchyFields(hierarchy, DropdownDef.body) == DropdownFields
  {
    var b := DropdownDef.body;
    DropdownBodyShape();
    OwnFieldsOnly(hierarchy, b);
    FieldMapContents(hierarchy, b);
    OneField(b);
    var r := HierarchyFields(hierarchy, b);
    assert r.keys == ["choices"];
    assert r.vals.Keys == {"choices"} by {
      assert forall k :: k in r.vals <==> k in r.keys;
    }
    MapsAgree(r.vals, DropdownFields.vals);
  }

  /** `Dropdown`'s body: `choices = []` between two dunder entries. */
  lemma DropdownBodyShape()
    ensures var b := DropdownDef.body;
      && UniqueNames(b) && |b| == 3 && IsDunder(b[0].0) && !IsDunder(b[1].0) && IsDunder(b[2].0)
      && b[1] == ("choices", ListV([]))
  {
  }


  /** The hierarchy of `Toggle`'s bases: `Widget` and `object`, in either order. */
  ghost predicate ToggleHierarchy(hierarchy: seq<ClassDef>) {
    forall c :: c in hierarchy <==> c == WidgetDef || c == ObjectDef
  }

  /** `class Widget(metaclass=_MetaWidget)`: no base, nothing but dunder attributes, an empty map. */
  method DeclareWidget() returns (widget: WidgetClass)
    ensures fresh(widget) && widget.ancestors == {}
    ensures widget.Linked() && widget.ChainValid()
    ensures widget.def == WidgetDef && widget.hierarchy == [] && widget.fields.vals == map[]
  {
    WidgetBodyUnique();
    widget := new WidgetClass(WidgetDef, NoneType, null, []);
    WidgetAllDunder(WidgetDef);
  }

  /**
   * `class Toggle(Widget)` of the widget module, whichever order the
   * hierarchy set is walked in.
   */
  method DeclareToggle(hierarchy: seq<ClassDef>) returns (toggle: WidgetClass)
    requires ToggleHierarchy(hierarchy)
    ensures fresh(toggle) && fresh(toggle.ancestors)
    ensures toggle.Linked() && toggle.ChainValid()
    ensures toggle.T == BoolType && toggle.fields == ToggleFields
  {
    var widget := DeclareWidget();
    ToggleBodyUnique();
    toggle := new WidgetClass(ToggleDef, BoolType, widget, hierarchy);
    ToggleAncestorNames(hierarchy);
    ToggleFieldMap(hierarchy);
  }

  /** `class AbstractSlider(Widget)` of the widget module, whichever order its hierarchy set is walked in. */
  method DeclareAbstractSlider(hierarchy: seq<ClassDef>) returns (abstractSlider: WidgetClass)
    requires ToggleHierarchy(hierarchy)
    ensures fresh(abstractSlider) && fresh(abstractSlider.ancestors)
    ensures abstractSlider.Linked() && abstractSlider.ChainValid()
    ensures abstractSlider.def == AbstractSliderDef && abstractSlider.hierarchy == hierarchy
    ensures abstractSlider.T == NoneType && abstractSlider.fields == SliderFields
  {
    var widget := DeclareWidget();
    AbstractSliderBodyUnique();
    assert WidgetDef in hierarchy;
    abstractSlider := new WidgetClass(AbstractSliderDef, NoneType, widget, hierarchy);
    ToggleAncestorNames(hierarchy);
    AbstractSliderFieldMap(hierarchy);
  }

  /**
   * `class IntSlider(AbstractSlider, T=int)` of the widget module, whichever
   * orders the hierarchy sets are walked in.
   */
  method DeclareIntSlider(abstractHierarchy: seq<ClassDef>, hierarchy: seq<ClassDef>)
    returns (slider: WidgetClass)
    requires ToggleHierarchy(abstractHierarchy) && SliderHierarchy(hierarchy)
    ensures fresh(slider) && fresh(slider.ancestors)
    ensures slider.Linked() && slider.ChainValid()
    ensures slider.T == IntType && slider.fields == SliderFields
  {
    var abstractSlider := DeclareAbstractSlider(abstractHierarchy);
    IntSliderBody();
    assert AbstractSliderDef in hierarchy;
    assert forall c :: c in abstractSlider.hierarchy ==> c in hierarchy;
    slider := new WidgetClass(IntSliderDef, IntType, abstractSlider, hierarchy);
    IntSliderFieldMap(hierarchy);
  }

  /**
   * `Toggle("Parent Field", "Fruit")`, then the `child_f` declaration of
   * `Apple`, then an argument-free `Toggle()`: the later call builds its
   * instance from `Apple`'s overrides, while the first instance keeps the
   * values it was given; a misspelt keyword raises and changes nothing.
   */
  method ToggleOverridesPersist(hierarchy: seq<ClassDef>)
    returns (parentJ: Result<Annotated, ConstructError>, childF: Result<Annotated, ConstructError>,
             later: Result<Annotated, ConstructError>, misspelt: Result<Annotated, ConstructError>)
    requires ToggleHierarchy(hierarchy)
    ensures parentJ == Ok(Annotated(BoolType, Descriptor(ToggleFields.vals, "Parent Field", "Fruit", BoolType)))
    ensures childF == Ok(Annotated(BoolType, Descriptor(AppleFields, "Is Pineapple", "Apple", BoolType)))
    ensures later == Ok(Annotated(BoolType, Descriptor(AppleFields, DefaultLabel, DefaultGroup, BoolType)))
    ensures misspelt == Err(Exception(Message("true_colour")))
  {
    var toggle := DeclareToggle(hierarchy);
    NoArguments(toggle.fields);
    parentJ := toggle.New("Parent Field", "Fruit", [], []);

    NoArguments(toggle.fields);
    AppleKeywords(toggle.fields);
    childF := toggle.New("Is Pineapple", "Apple", [], AppleOverrides);

    NoArguments(toggle.fields);
    later := toggle.New(DefaultLabel, DefaultGroup, [], []);

    NoArguments(toggle.fields);
    MisspeltKeyword(toggle.fields);
    misspelt := toggle.New("x", "", [], [("true_colour", ColorV("BLUE"))]);
  }
}
