# MetaWindow widget-descriptor engine, modelled in Dafny

MetaWindow builds Maya inspector panels from annotated Python classes. A
field is declared as `parent_j: Toggle("Parent Field", "Fruit") = False`. The
widget class `Toggle` is created by the metaclass `_MetaWidget`, and calling
it returns `Annotated[bool, <descriptor>]`. At a later point
`Fragment.extract_reflection` walks the target's annotations. It pairs every
widget-annotated field with its default value and groups the resulting
fragments by the descriptor's group name.

This project models that engine:

- `_MetaWidget.is_dunder` (`FieldMap.IsDunder`).
- `_MetaWidget.__new__`: the field map a widget class collects from the
  hierarchy of its bases and from its own body (`FieldMap`, and
  `MetaWidget.WidgetClass.constructor`). The hierarchy is a Python `set`,
  walked in an order the language does not fix. The model therefore takes
  that order as a `seq` parameter and proves its properties for every such
  order.
- The generated `__new__` (`MetaWidget.WidgetClass.New`): the base's
  `__new__` through `super`, then the positional and keyword updates. These
  rewrite the class's one captured map in place. The whole map is then
  copied onto the instance, along with label, group and `T`. An unknown
  keyword raises an `Exception` that names the key.
- The earlier revision scripts/engine.py, which prints and skips an unknown
  keyword (`NewPrinting`).
- The draft extras/mini.py, which copies the body afresh on every call and
  merges no ancestor (`MiniDraft`).
- `Fragment` and `extract_reflection` (`Reflection`):
  - The canonical version walks a `ChainMap` over the annotations of the
    whole MRO, with defaults from a `ChainMap` of the class dicts.
  - The earlier versions read `target.__annotations__` and take defaults
    from the class's own dict only.
- The example's widget classes and its `Fruit`/`Banana`/`Apple` declarations
  (`Example`, `ExampleFruit`). The classes come from
  MetaWindow/scripts/widgets.py, which the star import at
  MetaWindow/extras/example.py:257 binds over the file's own copies.

MetaWindow/extras/mini.py and lines 19-125 of MetaWindow/extras/example.py
are copies of the canonical engine, so the canonical members model them
too.

Where the written specification and the code disagree, the model follows
the code:

- The constructor mutates one shared map per class; it does not clone it per
  call.
- The error is a plain `Exception` with the message
  `"[ERROR] <key> non existent argument"`.
- Extraction takes defaults from the class dicts, never from the instance's
  current values.

## Model

| member | source | states |
|---|---|---|
| FieldMap.IsDunder | MetaWindow/scripts/engine.py:9-12 | true exactly when the name has at least two characters and both starts and ends with `__` (the affixes may overlap, as in `"__"`) |
| FieldMap.MergeInto | MetaWindow/scripts/engine.py:75-77 | defines copying one class's items into the map in order: a dunder name is skipped, and any other name is assigned with `d[k] = v` (properties: `MergeIntoFacts`, `MergeIntoOrder`) |
| FieldMap.MergeAll | MetaWindow/scripts/engine.py:68-72 | defines the copy of every class of the hierarchy, in the order the set is walked (properties: `MergeAllFacts`, `MergeAllNothing`) |
| FieldMap.HierarchyFields | MetaWindow/scripts/engine.py:56-83 | defines the map `_MetaWidget.__new__` captures: the hierarchy's copy, then the body's (properties: `FieldMapContents`, `FieldMapOrderIndependent`) |
| FieldMap.AddedKeys | MetaWindow/scripts/engine.py:75-77 | defines the names a body appends to a dict: its non-dunder names not yet keys, once each, in body order (properties: `AddedKeysFacts`, `AddedKeysNone`) |
| FieldMap.MergeIntoFacts | MetaWindow/scripts/engine.py:75-77 | copying a body's non-dunder items keeps the dict well formed and never moves a key. Keys are exactly the old ones plus the body's non-dunder names. A key the body lacks keeps its value; every body name holds a value the body gives it |
| FieldMap.MergeAllFacts | MetaWindow/scripts/engine.py:68-72 | the same for the walk over the whole hierarchy: keys are exactly the old ones plus every non-dunder name of any class in it, and each such name holds a value some class of the hierarchy defines |
| FieldMap.MergeIntoOrder | MetaWindow/scripts/engine.py:75-77 | copying a body appends, after the existing keys, the body's non-dunder names not present yet, once each, in body order (`AddedKeys`) |
| FieldMap.AddedKeysFacts | MetaWindow/scripts/engine.py:75-77 | the appended names are distinct and are exactly the body's non-dunder names that were not keys yet |
| FieldMap.AddedKeysNone | MetaWindow/scripts/engine.py:75-77 | a body whose non-dunder names are all keys already appends no key |
| FieldMap.MergeAllNothing | MetaWindow/scripts/engine.py:68-72 | ancestors that define only dunder names leave the map exactly as it was |
| FieldMap.FieldMapContents | MetaWindow/scripts/engine.py:56-83 | the collected map has no dunder key and holds exactly the hierarchy's and the body's non-dunder names. Each body name has the body's value; any other name has a value some ancestor defines. The keys are the ancestors' keys in walk order, followed by the body's new names in body order; that is the order positional arguments fill them in |
| FieldMap.FieldMapOrderIndependent | MetaWindow/scripts/engine.py:62-72 | two walks of the same hierarchy set give the same key set and the same values for the body's names |
| FieldMap.CollectFields | MetaWindow/scripts/engine.py:62-77 | the nested loops of `_MetaWidget.__new__` build exactly the map `HierarchyFields` describes |
| FieldMap.ZipAssign | MetaWindow/scripts/engine.py:28-29 | defines the first n rounds of `zip(args, fields)`: the i-th key takes the i-th argument (properties: `ZipAssignShape`, `ZipAssignValues`) |
| FieldMap.ApplyPositional | MetaWindow/scripts/engine.py:28-29 | defines the whole positional loop, run for as many rounds as `zip` runs (properties: `PositionalPairing`) |
| FieldMap.Rounds | MetaWindow/scripts/engine.py:28 | `zip` runs as many rounds as the shorter of keys and arguments |
| FieldMap.ZipAssignShape | MetaWindow/scripts/engine.py:28-29 | the positional rounds only overwrite existing keys: keys, their order and the key set are unchanged |
| FieldMap.ZipAssignValues | MetaWindow/scripts/engine.py:28-29 | after n rounds the i-th key holds the i-th argument for i < n; every other key keeps its value |
| FieldMap.PositionalPairing | MetaWindow/scripts/engine.py:28-29 | extra positionals overwrite the keys in insertion order. Those beyond the number of keys are dropped, untouched keys keep their values, and no key is added |
| FieldMap.PositionalUpdate | MetaWindow/scripts/engine.py:28-29 | the positional loop yields `ApplyPositional` and keeps keys, order and key set |
| FieldMap.SetAttrs | MetaWindow/scripts/engine.py:42-43 | after the `setattr` loop the instance holds its earlier attributes overridden by every item of the map |
| FieldMap.Assigned | MetaWindow/scripts/engine.py:32-35 | defines the first n keyword assignments, in call order (properties: `AssignedShape`, `AssignedValues`) |
| FieldMap.ApplyKeywords | MetaWindow/scripts/engine.py:32-39 | defines the raising keyword loop: the assignments before the first unknown keyword, and that keyword if any (properties: `KeywordOutcome`) |
| FieldMap.FirstUnknown | MetaWindow/scripts/engine.py:32-39 | the position of the first keyword naming no key: all keywords before it name keys, and the one at it (if any) does not |
| FieldMap.AssignedShape | MetaWindow/scripts/engine.py:34-35 | assigning keywords that name existing keys keeps the dict well formed, its keys and their order |
| FieldMap.AssignedValues | MetaWindow/scripts/engine.py:34-35 | each assigned keyword's key holds its value; every key no assigned keyword names keeps its old value |
| FieldMap.KeywordUpdate | MetaWindow/scripts/engine.py:32-39 | the keyword loop stops at the first unknown keyword and reports it, keeping the assignments made before it (`ApplyKeywords`); keys are never added |
| FieldMap.NoArguments | MetaWindow/scripts/engine.py:19 | a call without extra positionals or keywords leaves the map as it is, in both the raising and the printing revisions |
| FieldMap.KeywordOutcome | MetaWindow/scripts/engine.py:32-39 | the call raises exactly when some keyword names no key, and names the first such keyword. Keywords before it are applied, other keys keep their values, and keys and order are unchanged |
| FieldMap.ApplyKeywordsLenient | scripts/engine.py:23-27 | defines the printing keyword loop: known keywords are assigned in call order and unknown ones are collected (properties: `LenientKeywordOutcome`) |
| FieldMap.Unknown | scripts/engine.py:23-27 | the names of a sequence that are not keys, in their order: exactly the names missing from the key set |
| FieldMap.LenientKeywordUpdate | scripts/engine.py:23-27 | the printing loop yields `ApplyKeywordsLenient` and keeps keys, order and key set |
| FieldMap.LenientKeywordOutcome | scripts/engine.py:23-27 | every keyword naming a key is applied, and no key is added. Keys no keyword names keep their values. The reported keywords are exactly those naming no key, once each, in call order (`Unknown` of the call's keyword names), which is the order their lines are printed in |
| FieldMap.LenientSkipped | scripts/engine.py:23-27 | the reported keywords are the call's keyword names that name no key, in call order |
| PyModel.SetValid | MetaWindow/scripts/engine.py:72 | `d[k] = v` keeps a dict well formed: a new key goes to the end, and existing keys keep their places |
| MetaWidget.Message | MetaWindow/scripts/engine.py:39 | the exception message starts with `[ERROR] ` and carries the offending key right after it |
| MetaWidget.Notice | scripts/engine.py:27 | the printed line starts with the key followed by a space |
| MetaWidget.Notices | scripts/engine.py:23-27 | one printed line per skipped keyword, in call order |
| MetaWidget.WidgetClass.constructor | MetaWindow/scripts/engine.py:56-83 | the new class captures exactly the map collected from its bases' hierarchy and its body. It is linked to its base's chain, and every map of the chain stays well formed |
| MetaWidget.WidgetClass.KeyCover | MetaWindow/scripts/engine.py:63-65 | the base's map has no key this class's map lacks, because the hierarchy includes the base's MRO; the copy therefore overwrites every attribute the base's `__new__` set |
| MetaWidget.WidgetClass.NoDunderKeys | MetaWindow/scripts/engine.py:68-77 | no dunder name is ever a key of a class's map |
| MetaWidget.WidgetClass.AssignPositional | MetaWindow/scripts/engine.py:28-29 | the class's own map becomes `ApplyPositional` of its old value, with its keys in place |
| MetaWidget.WidgetClass.New | MetaWindow/scripts/engine.py:19-51 | the class's map becomes the positional-then-keyword update of its old value. The call raises exactly when a keyword is unknown, with that key's message; otherwise it returns `Annotated[T, d]`, where `d` carries the whole updated map and the given label and group. The ancestors' maps are unchanged |
| MetaWidget.WidgetClass.Configure | MetaWindow/scripts/engine.py:26-51 | the same, once the base's instance is in hand, given that its attributes are keys of this map |
| MetaWidget.WidgetClass.NewPrinting | scripts/engine.py:12-39 | the printing revision: the map is updated by the lenient loop, one notice is printed per skipped keyword, and a descriptor is always returned |
| MetaWidget.WidgetClass.ConfigurePrinting | scripts/engine.py:18-39 | the same, once the base's instance is in hand |
| MetaWidget.OverridesPersist | MetaWindow/scripts/engine.py:28-43 | an argument-free call made after a call with overrides returns an instance carrying the overridden values, the same attributes the first call returned |
| MiniDraft.BaseAttrs | extras/mini.py:12-13 | defines the attributes of the instance the base's `__new__` returns: its own base's, overridden by the base's fresh copy (properties: `DraftInstanceFields`) |
| MiniDraft.Outcome | extras/mini.py:14-18 | defines one call's effect on the fresh copy: positional updates, then the printing keyword loop (properties: `DraftInstanceFields`, `AncestorKeyIgnored`) |
| MiniDraft.Fresh | extras/mini.py:14 | the per-call copy holds exactly the body's non-dunder names, each with the body's value |
| MiniDraft.DraftNew | extras/mini.py:11-20 | the instance carries its base's attributes overridden by the updated fresh copy, plus label, group and `T`; it prints one `error` per skipped keyword |
| MiniDraft.DraftInstanceFields | extras/mini.py:11-22 | the instance has exactly the ancestors' and the body's names. The i-th body name takes the i-th extra positional unless a keyword names it. A body name that no positional reaches and no keyword names keeps the body's value. An inherited name the body lacks keeps the ancestor's value whatever the arguments say |
| MiniDraft.AncestorKeyIgnored | extras/mini.py:14-18 | a keyword naming only an inherited attribute is reported and has no effect |
| Reflection.AppendNew | MetaWindow/scripts/engine.py:128 | defines appending a map's keys to the keys seen so far, skipping those already seen (properties: `AppendNewFacts`, `AppendNewDisjoint`) |
| Reflection.ChainOrder | MetaWindow/scripts/engine.py:128 | defines `ChainMap` iteration order: the farthest map's keys first, then each nearer map's new keys (properties: `ChainOrderFacts`) |
| Reflection.Fragments | MetaWindow/scripts/engine.py:128-140 | defines the fragment-building loop over the `ChainMap` items: non-widget entries are skipped, and a missing default raises `KeyError` (properties: `FragmentsSucceed`, `FragmentsFail`, `FragmentsNamed`, `FragmentsBound`, `FragmentsSourced`) |
| Reflection.GroupNames | MetaWindow/scripts/engine.py:143 | defines the fragments' group names, one per fragment in order (properties: `GroupNamesAt`) |
| Reflection.GroupNamesAt | MetaWindow/scripts/engine.py:143 | the i-th group name is the i-th fragment's group |
| Reflection.Filter | MetaWindow/scripts/engine.py:143 | defines the fragments of one group, in order (properties: `FilterSound`, `FilterComplete`, `FilterAppend`) |
| Reflection.FilterSound | MetaWindow/scripts/engine.py:143 | a group's list holds only fragments of that group |
| Reflection.FilterComplete | MetaWindow/scripts/engine.py:143 | every fragment of a group is in its list, and the list is empty exactly when no fragment has that group |
| Reflection.FilterAppend | MetaWindow/scripts/engine.py:143 | appending fragments appends their members to each group's list, in order |
| Reflection.Grouping | MetaWindow/scripts/engine.py:143 | defines the `setdefault` loop over the fragments with a non-empty group (properties: `GroupingKeys`, `GroupingBuckets`, `GroupingOrder`) |
| Reflection.Grouped | MetaWindow/scripts/engine.py:143-148 | defines the returned dict: `Grouping`, then the `""` bucket of ungrouped fragments when there are any (properties: `GroupedLaw`, `EveryFragmentPlaced`, `BucketsSound`) |
| Reflection.Extraction | MetaWindow/scripts/engine.py:123-148 | defines the whole extraction: `Fragments`, then `Grouped`, or the error (properties: `Extract`, `CanonicalFragments`) |
| Reflection.ChainGet | MetaWindow/scripts/engine.py:125 | a `ChainMap` lookup succeeds exactly when some map has the key |
| Reflection.ChainGetNearest | MetaWindow/scripts/engine.py:125 | the lookup returns the value of the first map that has the key |
| Reflection.AppendNewFacts | MetaWindow/scripts/engine.py:128 | appending names in first-seen order keeps them distinct, keeps the earlier ones in place and adds exactly the new ones |
| Reflection.AppendNewDisjoint | MetaWindow/scripts/engine.py:128 | names all new and distinct are appended as they come |
| Reflection.ChainOrderFacts | MetaWindow/scripts/engine.py:128 | `ChainMap` iteration yields every key of any map exactly once, and the farther maps' keys first |
| Reflection.ChainItems | MetaWindow/scripts/engine.py:128 | `.items()` yields the keys in iteration order, each with its nearest value |
| Reflection.FragmentsSucceed | MetaWindow/scripts/engine.py:128-140 | fragment building succeeds exactly when every widget-annotated name has a default |
| Reflection.FragmentsFail | MetaWindow/scripts/engine.py:140 | a failure is the `KeyError` of the first widget-annotated name without a default |
| Reflection.FragmentsNamed | MetaWindow/scripts/engine.py:128-140 | one fragment per widget-annotated entry (`WidgetOf`: `Annotated` with a widget instance, lines 131-137), in entry order; other annotations are skipped |
| Reflection.FragmentsBound | MetaWindow/scripts/engine.py:140 | every fragment is bound to the target and carries its name's default |
| Reflection.FragmentsSourced | MetaWindow/scripts/engine.py:135-140 | every fragment carries the descriptor of an entry with its own name |
| Reflection.Extract | MetaWindow/scripts/engine.py:123-148 | the loop returns the grouping of the fragments, or the `KeyError` of the first missing default |
| Reflection.GroupingKeys | MetaWindow/scripts/engine.py:143 | `fragment_groups` has one key per non-empty group name that occurs |
| Reflection.GroupingBuckets | MetaWindow/scripts/engine.py:143 | each key holds exactly the fragments of its group, in order |
| Reflection.GroupingOrder | MetaWindow/scripts/engine.py:143 | keys are in first-seen order |
| Reflection.GroupedLaw | MetaWindow/scripts/engine.py:143-148 | the returned dict has a key per group that occurs, holding that group's fragments in order. The `""` bucket is present exactly when some fragment is ungrouped, always last |
| Reflection.EveryFragmentPlaced | MetaWindow/scripts/engine.py:143-147 | every fragment sits in the bucket of its own group |
| Reflection.BucketsSound | MetaWindow/scripts/engine.py:143-147 | a bucket holds only fragments of its group |
| Reflection.WidgetNamesDistinct | MetaWindow/scripts/engine.py:128-137 | over `ChainMap` keys, which are distinct, the widget-annotated names are distinct and are exactly the names of widget-annotated entries |
| Reflection.AnnotationMaps | MetaWindow/scripts/engine.py:128 | exactly the non-empty annotation dicts of the MRO's classes take part, in MRO order (properties: `AnnotationMapsNearest`) |
| Reflection.AnnotationMapsNearest | MetaWindow/scripts/engine.py:128 | a name resolves to its annotation in the first class of the MRO that annotates it |
| Reflection.ExtractReflection | MetaWindow/scripts/engine.py:121-148 | the canonical extraction is `Extract` over the `ChainMap` items of the MRO's annotations. Its defaults come from `ClassDicts`, the MRO's class dicts nearest first (line 125) |
| Reflection.CanonicalFragments | MetaWindow/scripts/engine.py:121-140 | one fragment per widget-annotated name of any class, in `ChainMap` order. Each carries the nearest annotation's descriptor and the nearest class dict's default; a name no dict has raises `KeyError` |
| Reflection.NearestAnnotations | scripts/engine.py:97 | `target.__annotations__` is the annotation dict of the nearest class of the MRO that has one, or missing |
| Reflection.ExtractOwnReflection | scripts/engine.py:91-110 | the earlier extraction (also extras/mini.py:31-39). Missing annotations fail. Otherwise it is `Extract` over the nearest annotations, with defaults from `OwnDict`, the target's own class dict only (line 95) |
| Reflection.OwnDictOnly | scripts/engine.py:95-105 | a widget field whose default only an ancestor's dict holds makes the earlier extraction raise `KeyError` |
| Reflection.WriteBack | MetaWindow/scripts/widgets.py:27 | a widget's change callback sets exactly the bound attribute on the bound object |
| Reflection.ReextractAfterWriteBack | MetaWindow/scripts/engine.py:125 | extracting again after a write-back yields the same result: defaults come from class dicts, not from the instance |
| Example.WidgetAllDunder | MetaWindow/scripts/engine.py:86-100 | `Widget` and `object` hold only dunder attributes |
| Example.ToggleBodyNames | MetaWindow/scripts/widgets.py:8-19 | `Toggle`'s non-dunder body names are exactly its four configuration keys |
| Example.ToggleAncestorNames | MetaWindow/scripts/engine.py:86-100 | `Toggle`'s ancestors contribute no name to its map |
| Example.ToggleFieldMap | MetaWindow/scripts/widgets.py:8-19 | `Toggle`'s map is exactly `true_label`, `false_label`, `true_color`, `false_color` in that order, with the body's values |
| Example.ToggleFieldOrder | MetaWindow/scripts/widgets.py:8-19 | `Toggle`'s keys are its four names in body order, so `Toggle("L", "G", x)` sets `true_label` |
| Example.OwnFieldsOnly | MetaWindow/scripts/engine.py:68-77 | over ancestors that define only dunder names, a class's keys are its own body's non-dunder names in body order |
| Example.IntSliderFieldMap | MetaWindow/scripts/widgets.py:61-93 | `IntSlider`'s map is exactly `min`, `max`, `abstract_slider` in that order, with `AbstractSlider`'s values, whatever order the hierarchy is walked in. So `IntSlider("L", "G", 0, 100)` sets `min` and `max`, and a fifth positional overwrites `abstract_slider` |
| Example.IntSliderFieldOrder | MetaWindow/scripts/widgets.py:61-93 | `IntSlider`'s keys are `AbstractSlider`'s three names in body order, for every walk order of its hierarchy |
| Example.SliderWalk | MetaWindow/scripts/engine.py:68-77 | walking `AbstractSlider`, `Widget` and `object` in any order and with repeats ends with `min`, `max`, `abstract_slider` in that order |
| Example.AbstractSliderFieldMap | MetaWindow/scripts/widgets.py:61-69 | `AbstractSlider`'s own map is exactly `min`, `max`, `abstract_slider` in that order, with its body's values |
| Example.DropdownFieldMap | MetaWindow/scripts/widgets.py:46-51 | `Dropdown`'s map is exactly `choices`, holding an empty list |
| Example.FloatSliderFieldMap | MetaWindow/scripts/widgets.py:95-100 | `FloatSlider`'s map is exactly `IntSlider`'s: `min`, `max`, `abstract_slider` in that order, with `AbstractSlider`'s values, whatever order the hierarchy is walked in |
| Example.AppleKeywords | MetaWindow/extras/example.py:274 | all four keywords of `child_f` name keys of `Toggle`'s map, so none raises and the map holds the Apple values afterwards |
| Example.MisspeltKeyword | MetaWindow/scripts/engine.py:32-39 | a misspelt keyword (`true_colour`) raises naming it and leaves the map unchanged |
| Example.DeclareWidget | MetaWindow/scripts/engine.py:86-100 | declaring `Widget` gives a root class with an empty map |
| Example.DeclareToggle | MetaWindow/scripts/widgets.py:8-19 | declaring `Toggle` over `Widget` gives a class with `T = bool` whose map is exactly `Toggle`'s four keys, in body order, with the body's values |
| Example.DeclareAbstractSlider | MetaWindow/scripts/widgets.py:61-69 | declaring `AbstractSlider` over `Widget` gives a class with no `T` whose map is exactly `min`, `max`, `abstract_slider`, in body order |
| Example.DeclareIntSlider | MetaWindow/scripts/widgets.py:83-93 | declaring `IntSlider` over `AbstractSlider` gives a class with `T = int` whose map is exactly the inherited `min`, `max`, `abstract_slider`, in that order |
| Example.ToggleOverridesPersist | MetaWindow/extras/example.py:261-274 | `Toggle("Parent Field", "Fruit")` carries the body's values, and `child_f` carries its overrides. An argument-free `Toggle()` made afterwards carries the Apple values too, with label `"Name"`. A misspelt keyword raises |
| ExampleFruit.ChildAKeywords | MetaWindow/extras/example.py:267 | `IntSlider(min=0, max=100)` raises nothing and leaves `min = 0`, `max = 100` and the inherited `abstract_slider` in the map |
| ExampleFruit.FruitWidgetCalls | MetaWindow/extras/example.py:261-269 | running `parent_j`, `child_a` and `child_c` in declaration order returns exactly the annotations `Fruit` and `Banana` hold for them |
| ExampleFruit.PlainToggle | MetaWindow/extras/example.py:261-269 | a `Toggle` call with no configuration arguments, on a map still holding the body's values, returns those values with its label and group and leaves the map unchanged |
| ExampleFruit.ChildACall | MetaWindow/extras/example.py:267 | `IntSlider(label="Name", group="Fruit", min=0, max=100)` returns `Annotated[int, ...]` with `min = 0`, `max = 100` and the inherited `abstract_slider` |
| ExampleFruit.BananaAnnotationMaps | MetaWindow/extras/example.py:260-269 | only `Banana` and `Fruit` contribute annotation dicts, nearest first |
| ExampleFruit.BananaChainOrder | MetaWindow/extras/example.py:260-269 | the `ChainMap` yields `Fruit`'s three fields, then `Banana`'s three |
| ExampleFruit.BananaDefaults | MetaWindow/extras/example.py:260-269 | the defaults found are False, "Bla", set(), 5, "banana banana" and False |
| ExampleFruit.BananaEntries | MetaWindow/extras/example.py:260-269 | the annotation items are the six declared annotations, `Fruit`'s first |
| ExampleFruit.FieldFragments | MetaWindow/extras/example.py:260-269 | the six entries yield exactly the six expected fragments |
| ExampleFruit.BananaFragmentsBuilt | MetaWindow/extras/example.py:260-269 | extraction from a `Banana` builds those six fragments, bound to the instance |
| ExampleFruit.BananaFilters | MetaWindow/extras/example.py:260-269 | group "Fruit" holds parent_j, parent_h and child_a; "Banana" holds child_b and child_c; "" holds parent_k |
| ExampleFruit.BananaGroupingKeys | MetaWindow/extras/example.py:260-269 | the loop creates "Fruit" first and "Banana" second |
| ExampleFruit.BananaGrouped | MetaWindow/extras/example.py:260-269 | the returned dict is "Fruit" → [parent_j, parent_h, child_a], "Banana" → [child_b, child_c], "" → [parent_k], in that order |
| ExampleFruit.ExtractBanana | MetaWindow/extras/example.py:260-269 | `extract_reflection` on any `Banana` instance returns exactly that dict |

## Left out

- Maya's `cmds` calls, window and layout building, label drawing,
  `create_inspector_panel` and every widget's `__widget__` body: UI side
  effects outside the engine. `Fragment.build_widget` only forwards to
  `__widget__`; the write-back its callbacks perform is modelled
  (`Reflection.WriteBack`).
- Label styles (`label_style`, `LabelStyle`). MetaWindow/scripts/widgets.py:106
  passes `label_style` to the metaclass, which no engine shown here accepts.
  The `StringBox` descriptor of `parent_k` is therefore taken as declared
  data: its `selection_type` attribute, an empty label and no group.
- The attribute maps of the `TextField` descriptors in the `Banana` scenario
  are taken as declared data (empty). The `Toggle` and `IntSlider` ones
  (`parent_j`, `child_a`, `child_c`) are what `ExampleFruit.FruitWidgetCalls`
  returns when it runs those three calls in declaration order.
- Python's argument binding: the first two positionals of a call bind
  `label` and `group`. The model's `New` takes label, group, the remaining
  positionals and the keywords already bound.
- `UI_Color` values, floats and `round`: colours are kept by name, and
  slider rounding happens only in UI callbacks.
- Descriptor identity: a descriptor is a value. The engine never changes
  one after `__new__` returns, so identity matters only to the UI.
- `super()` across multiple inheritance: each widget class has one base,
  as every class in the repository does.
- The iteration order of the hierarchy `set`: it is a parameter, and what
  is proved holds for every order. The one thing the order decides, which
  value wins for a name two ancestors both define, is stated as "some
  ancestor's value".
- Python 3.10's lazily created class `__annotations__`: an annotation dict
  counts when its class declares annotations. The `__annotations__` entry
  itself is left out of the modelled class bodies, because it is dunder
  and never reaches a field map.
- FieldMap.FieldMapContents: for a name several ancestors define, it
  states only that the value is one of theirs. Which one depends on the
  `set` iteration order, which Python does not fix.
- Label and group are modelled as strings, which is what every declaration
  passes. The test `if fragment.data.__group__` at
  MetaWindow/scripts/engine.py:143 therefore becomes a comparison with `""`.
  A falsy group that is not a string (`None`, `0`), which Python also files
  in the `""` bucket, cannot be expressed.
- `MVecField` (MetaWindow/scripts/widgets.py:134-141) declares no
  configuration key, so its map is empty as `TextField`'s is. Its callback
  writes into the default vector in place, through `getattr(*bind)[index]`;
  only the `setattr(*bind, value)` write-back is modelled.
- Reflection.ExtractOwnReflection: a missing `__annotations__` becomes an
  error value. Python raises `AttributeError` there.
