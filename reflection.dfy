/**
 * `Fragment.extract_reflection`: pairs each annotated field of a target whose
 * annotation carries a widget descriptor with its default value, and groups
 * the resulting fragments by the descriptor's group name.
 */
module Reflection {
  import opened PyModel

  /** The object being inspected: its class's MRO and its own attributes. */
  class Target {
    /** `type(target).__mro__`, the target's class first. */
    const mro: seq<ClassDef>
    /** The instance's own attribute values, which the widgets write back. */
    var attrs: map<Name, Value>

    constructor (mro: seq<ClassDef>)
      ensures this.mro == mro && attrs == map[]
    {
      this.mro := mro;
      attrs := map[];
    }
  }

  /**
   * `Fragment(target_ref, field_name, default_value, data)`: its `bind` is the
   * pair `(owner, name)`.
   */
  datatype Fragment = Fragment(owner: Target, name: Name, default: Value, data: Descriptor)

  /** The exceptions extraction can raise. */
  datatype ExtractError =
    | MissingDefault(key: Name)   // `KeyError` from the defaults lookup
    | NoAnnotations               // `AttributeError`: no class of the MRO declares annotations

  /** `dict[str, list]`: group name to its fragments, in insertion order. */
  type Groups = ODict<seq<Fragment>>

  // ---------------------------------------------------------------------------
  // `ChainMap` over a list of dicts, the nearest first
  // ---------------------------------------------------------------------------

  /** `m[k]` on a `ChainMap`: the value in the first map that has `k`. */
  function ChainGet<T>(maps: seq<seq<(Name, T)>>, k: Name): (r: Option<T>)
    ensures r.Some? <==> exists i :: 0 <= i < |maps| && k in NameSet(maps[i])
  {
    if maps == [] then None
    else
      LookupFacts(maps[0], k);
      match Lookup(maps[0], k)
      case Some(v) => Some(v)
      case None =>
        var r := ChainGet(maps[1..], k);
        assert forall i :: 0 < i < |maps| ==> maps[i] == maps[1..][i - 1];
        r
  }

  /** `d.update(dict.fromkeys(names))` on the keys `acc` of `d`: new names go to the end. */
  function AppendNew(acc: seq<Name>, names: seq<Name>): seq<Name>
    decreases |names|
  {
    if names == [] then acc
    else AppendNew(if names[0] in acc then acc else acc + [names[0]], names[1..])
  }

  /** `iter(ChainMap(*maps))`: first appearance when the maps are walked from the last to the first. */
  function ChainOrder<T>(maps: seq<seq<(Name, T)>>): seq<Name>
    decreases |maps|
  {
    if maps == [] then [] else AppendNew(ChainOrder(maps[1..]), Names(maps[0]))
  }

  lemma {:induction false} AppendNewFacts(acc: seq<Name>, names: seq<Name>)
    requires Distinct(acc)
    ensures Distinct(AppendNew(acc, names))
    ensures acc <= AppendNew(acc, names)
    ensures forall k :: k in AppendNew(acc, names) <==> k in acc || k in names
    decreases |names|
  {
    if names != [] {
      var acc' := if names[0] in acc then acc else acc + [names[0]];
      assert Distinct(acc') by {
        forall i, j | 0 <= i < j < |acc'| ensures acc'[i] != acc'[j] {
          if j == |acc| { assert acc[i] in acc; }
        }
      }
      AppendNewFacts(acc', names[1..]);
      assert forall k :: k in names <==> k == names[0] || k in names[1..];
    }
  }

  /**
   * A `ChainMap`'s iteration: every name of every map exactly once, and the
   * names of the farther maps first, so a name redeclared in a nearer map
   * keeps the position its farthest declaration gives it.
   */
  lemma {:induction false} ChainOrderFacts<T>(maps: seq<seq<(Name, T)>>)
    ensures Distinct(ChainOrder(maps))
    ensures forall k :: k in ChainOrder(maps) <==> ChainGet(maps, k).Some?
    ensures maps != [] ==> ChainOrder(maps[1..]) <= ChainOrder(maps)
    decreases |maps|
  {
    if maps != [] {
      ChainOrderFacts(maps[1..]);
      AppendNewFacts(ChainOrder(maps[1..]), Names(maps[0]));
      forall k ensures k in ChainOrder(maps) <==> ChainGet(maps, k).Some? {
        assert k in Names(maps[0]) <==> k in NameSet(maps[0]);
        assert (exists i :: 0 <= i < |maps| && k in NameSet(maps[i])) <==>
          k in NameSet(maps[0]) || exists i :: 0 <= i < |maps[1..]| && k in NameSet(maps[1..][i]) by {
          forall i | 0 < i < |maps| ensures maps[i] == maps[1..][i - 1] { }
        }
      }
    }
  }

  /** New names that are distinct and not yet present are appended as they are. */
  lemma {:induction false} AppendNewDisjoint(acc: seq<Name>, names: seq<Name>)
    requires Distinct(names) && forall k :: k in names ==> k !in acc
    ensures AppendNew(acc, names) == acc + names
    decreases |names|
  {
    if names != [] {
      assert names[0] !in acc;
      assert names[0] !in names[1..];
      AppendNewDisjoint(acc + [names[0]], names[1..]);
      assert acc + [names[0]] + names[1..] == acc + names;
    }
  }

  /** The value of a `ChainMap` lookup is the nearest map's own value. */
  lemma {:induction false} ChainGetNearest<T>(maps: seq<seq<(Name, T)>>, i: nat, k: Name)
    requires i < |maps| && k in NameSet(maps[i])
    requires forall j :: 0 <= j < i ==> k !in NameSet(maps[j])
    ensures ChainGet(maps, k) == Lookup(maps[i], k)
    ensures ChainGet(maps, k).Some?
    decreases i
  {
    LookupFacts(maps[0], k);
    if i > 0 {
      ChainGetNearest(maps[1..], i - 1, k);
    }
  }

  /** `ChainMap(*maps).items()`: each name with its nearest value, in iteration order. */
  function ChainItems<T>(maps: seq<seq<(Name, T)>>): (items: seq<(Name, T)>)
    ensures Names(items) == ChainOrder(maps)
    ensures forall i :: 0 <= i < |items| ==> ChainGet(maps, items[i].0) == Some(items[i].1)
  {
    ChainOrderFacts(maps);
    var order := ChainOrder(maps);
    var items := seq(|order|, i requires 0 <= i < |order| => (order[i], ChainGet(maps, order[i]).value));
    assert Names(items) == order;
    items
  }

  // ---------------------------------------------------------------------------
  // Fragments and their grouping
  // ---------------------------------------------------------------------------

  /** `isinstance(a, _AnnotatedAlias) and issubclass(type(a.__metadata__[0]), Widget)`, and that descriptor. */
  function WidgetOf(a: Ann): (w: Option<Descriptor>)
    ensures w.Some? <==> a.AnnotatedWidget?
  {
    match a
    case AnnotatedWidget(annotated) => Some(annotated.meta)
    case _ => None
  }

  /**
   * The fragments the loop builds, in iteration order: one per annotation
   * that carries a widget, its default looked up in `dicts`; the first
   * widget-annotated name without a default raises `KeyError`.
   */
  function Fragments(target: Target, entries: seq<(Name, Ann)>, dicts: seq<Items>): Result<seq<Fragment>, ExtractError>
    decreases |entries|
  {
    if entries == [] then Ok([])
    else
      var rest := Fragments(target, entries[1..], dicts);
      match WidgetOf(entries[0].1)
      case None => rest
      case Some(w) =>
        match ChainGet(dicts, entries[0].0)
        case None => Err(MissingDefault(entries[0].0))
        case Some(v) => if rest.Err? then rest else Ok([Fragment(target, entries[0].0, v, w)] + rest.value)
  }

  /** The group names of the fragments, in order (`""` for an ungrouped one). */
  function GroupNames(fs: seq<Fragment>): (r: seq<string>)
    ensures |r| == |fs|
  {
    if fs == [] then [] else GroupNames(fs[..|fs| - 1]) + [fs[|fs| - 1].data.group]
  }

  lemma {:induction false} GroupNamesAt(fs: seq<Fragment>)
    ensures forall i :: 0 <= i < |fs| ==> GroupNames(fs)[i] == fs[i].data.group
    decreases |fs|
  {
    if fs != [] {
      GroupNamesAt(fs[..|fs| - 1]);
    }
  }

  /** The fragments of group `g`, in order. */
  function Filter(fs: seq<Fragment>, g: string): seq<Fragment>
  {
    if fs == [] then []
    else Filter(fs[..|fs| - 1], g) + (if fs[|fs| - 1].data.group == g then [fs[|fs| - 1]] else [])
  }

  /** `Filter` keeps only fragments of the group. */
  lemma {:induction false} FilterSound(fs: seq<Fragment>, g: string)
    ensures forall f :: f in Filter(fs, g) ==> f in fs && f.data.group == g
    decreases |fs|
  {
    if fs != [] {
      FilterSound(fs[..|fs| - 1], g);
    }
  }

  /** `Filter` keeps every fragment of the group, so it is empty exactly when the group does not occur. */
  lemma {:induction false} FilterComplete(fs: seq<Fragment>, g: string)
    ensures forall i :: 0 <= i < |fs| && fs[i].data.group == g ==> fs[i] in Filter(fs, g)
    ensures Filter(fs, g) == [] <==> g !in GroupNames(fs)
    decreases |fs|
  {
    if fs != [] {
      var n := |fs| - 1;
      FilterComplete(fs[..n], g);
      assert forall i :: 0 <= i < n ==> fs[..n][i] == fs[i];
    }
  }

  /** Filtering distributes over concatenation. */
  lemma {:induction false} FilterAppend(a: seq<Fragment>, b: seq<Fragment>, g: string)
    ensures Filter(a + b, g) == Filter(a, g) + Filter(b, g)
    decreases |b|
  {
    if b == [] {
      assert a + b == a;
    } else {
      var n := |b| - 1;
      FilterAppend(a, b[..n], g);
      assert (a + b)[..|a + b| - 1] == a + b[..n];
    }
  }

  /** `Filter` of one fragment. */
  lemma FilterOne(f: Fragment, g: string)
    ensures Filter([f], g) == if f.data.group == g then [f] else []
  {
    assert [f][..0] == [];
  }

  /** `fragment_groups` as the loop leaves it: `setdefault(group, []).append(fragment)` for every grouped fragment. */
  function Grouping(fs: seq<Fragment>): Groups
  {
    if fs == [] then ODict([], map[])
    else
      var groups := Grouping(fs[..|fs| - 1]);
      var f := fs[|fs| - 1];
      var g := f.data.group;
      if g == "" then groups
      else groups.Set(g, (if g in groups.vals then groups.vals[g] else []) + [f])
  }

  /** The returned dict: the groups, then `""` holding the ungrouped fragments when there are any. */
  function Grouped(fs: seq<Fragment>): Groups {
    var ungrouped := Filter(fs, "");
    if ungrouped != [] then Grouping(fs).Set("", ungrouped) else Grouping(fs)
  }

  /** What extraction returns for the given annotation items and default dicts. */
  function Extraction(target: Target, entries: seq<(Name, Ann)>, dicts: seq<Items>): Result<Groups, ExtractError> {
    match Fragments(target, entries, dicts)
    case Ok(fs) => Ok(Grouped(fs))
    case Err(e) => Err(e)
  }

  /** `fs + rest` on success, the error otherwise. */
  function Prepend(fs: seq<Fragment>, rest: Result<seq<Fragment>, ExtractError>): Result<seq<Fragment>, ExtractError> {
    match rest
    case Ok(tail) => Ok(fs + tail)
    case Err(e) => Err(e)
  }

  /** The loop of `extract_reflection`, over the annotation items and the dicts defaults come from. */
  method Extract(target: Target, entries: seq<(Name, Ann)>, dicts: seq<Items>) returns (r: Result<Groups, ExtractError>)
    ensures r == Extraction(target, entries, dicts)
  {
    var groups: Groups := ODict([], map[]);
    var ungrouped: seq<Fragment> := [];
    ghost var fs: seq<Fragment> := [];
    assert entries[0..] == entries;
    ghost var all := Fragments(target, entries, dicts);
    if all.Ok? {
      assert [] + all.value == all.value;
    }
    var i := 0;
    while i < |entries|
      invariant 0 <= i <= |entries|
      invariant groups == Grouping(fs) && ungrouped == Filter(fs, "")
      invariant Fragments(target, entries, dicts) == Prepend(fs, Fragments(target, entries[i..], dicts))
    {
      var (name, ann) := entries[i];
      assert entries[i..][0] == entries[i] && entries[i..][1..] == entries[i + 1..];
      var w := WidgetOf(ann);
      if w.Some? {
        var d := ChainGet(dicts, name);
        if d.None? {
          return Err(MissingDefault(name));
        }
        var fragment := Fragment(target, name, d.value, w.value);
        var g := fragment.data.group;
        if g != "" {
          groups := groups.Set(g, (if g in groups.vals then groups.vals[g] else []) + [fragment]);
        } else {
          ungrouped := ungrouped + [fragment];
        }
        ghost var rest := Fragments(target, entries[i + 1..], dicts);
        if rest.Ok? {
          assert fs + ([fragment] + rest.value) == (fs + [fragment]) + rest.value;
        }
        assert (fs + [fragment])[..|fs|] == fs;
        fs := fs + [fragment];
      }
      i := i + 1;
    }
    assert fs + [] == fs;
    if ungrouped != [] {
      groups := groups.Set("", ungrouped);
    }
    r := Ok(groups);
  }

  // ---------------------------------------------------------------------------
  // Properties of grouping
  // ---------------------------------------------------------------------------

  /** `fragment_groups` before the ungrouped bucket is added: one key per non-empty group name that occurs. */
  lemma {:induction false} GroupingKeys(fs: seq<Fragment>)
    ensures Grouping(fs).Valid()
    ensures forall g :: g in Grouping(fs).vals <==> g != "" && g in GroupNames(fs)
    decreases |fs|
  {
    if fs != [] {
      var n := |fs| - 1;
      var old_ := Grouping(fs[..n]);
      GroupingKeys(fs[..n]);
      var g := fs[n].data.group;
      if g != "" {
        SetValid(old_, g, (if g in old_.vals then old_.vals[g] else []) + [fs[n]]);
      }
    }
  }

  /** Each key of `fragment_groups` holds exactly its group's fragments, in order. */
  lemma {:induction false} GroupingBuckets(fs: seq<Fragment>)
    ensures forall g :: g in Grouping(fs).vals ==> Grouping(fs).vals[g] == Filter(fs, g)
    decreases |fs|
  {
    if fs != [] {
      var n := |fs| - 1;
      var pre := fs[..n];
      GroupingBuckets(pre);
      GroupingKeys(pre);
      var g := fs[n].data.group;
      FilterComplete(pre, g);
      forall h | h in Grouping(fs).vals ensures Grouping(fs).vals[h] == Filter(fs, h) {
        if h != g {
          assert Filter(fs, h) == Filter(pre, h) + [];
        }
      }
    }
  }

  /** The step of `GroupingOrder` for two groups that were already keys before the last fragment. */
  lemma GroupingOrderKept(pre: seq<Fragment>, f: Fragment, i: int, j: int, q: int)
    requires forall i, j, q ::
      && 0 <= i < j < |Grouping(pre).keys|
      && 0 <= q < |pre| && GroupNames(pre)[q] == Grouping(pre).keys[j]
      ==> Grouping(pre).keys[i] in GroupNames(pre)[..q]
    requires Grouping(pre).Valid()
    requires forall g :: g in Grouping(pre).vals <==> g != "" && g in GroupNames(pre)
    requires 0 <= i < j < |Grouping(pre).keys|
    requires 0 <= q <= |pre| && (GroupNames(pre) + [f.data.group])[q] == Grouping(pre).keys[j]
    ensures Grouping(pre).keys[i] in (GroupNames(pre) + [f.data.group])[..q]
  {
    var keys := Grouping(pre).keys;
    var ls := GroupNames(pre) + [f.data.group];
    var q0 := q;
    if q == |pre| {
      assert keys[j] in Grouping(pre).vals;
      var q1 :| 0 <= q1 < |pre| && GroupNames(pre)[q1] == keys[j];
      q0 := q1;
    }
    assert GroupNames(pre)[q0] == keys[j];
    assert keys[i] in GroupNames(pre)[..q0];
    assert GroupNames(pre)[..q0] == ls[..q0] && ls[..q0] <= ls[..q];
  }

  /**
   * The keys of `fragment_groups` are in first-seen order: wherever a later
   * key's group occurs, every earlier key's group has already occurred.
   */
  lemma {:induction false} GroupingOrder(fs: seq<Fragment>)
    ensures forall i, j, q ::
      && 0 <= i < j < |Grouping(fs).keys|
      && 0 <= q < |fs| && GroupNames(fs)[q] == Grouping(fs).keys[j]
      ==> Grouping(fs).keys[i] in GroupNames(fs)[..q]
    decreases |fs|
  {
    if fs != [] {
      var n := |fs| - 1;
      var pre := fs[..n];
      var old_ := Grouping(pre);
      var r := Grouping(fs);
      var ls := GroupNames(fs);
      GroupingOrder(pre);
      GroupingKeys(pre);
      GroupingKeys(fs);
      assert ls == GroupNames(pre) + [fs[n].data.group];
      forall i, j, q | 0 <= i < j < |r.keys| && 0 <= q < |fs| && ls[q] == r.keys[j]
        ensures r.keys[i] in ls[..q]
      {
        if j < |old_.keys| {
          assert r.keys[j] == old_.keys[j] && r.keys[i] == old_.keys[i];
          GroupingOrderKept(pre, fs[n], i, j, q);
        } else {
          // `r.keys[j]` is the group the last fragment introduces, first seen at `n`.
          assert r.keys[j] !in old_.vals;
          assert q == n;
          assert r.keys[i] == old_.keys[i] && old_.keys[i] in old_.vals;
          assert ls[..q] == GroupNames(pre);
        }
      }
    }
  }

  /**
   * The dict `extract_reflection` returns for the fragments `fs`: a key per
   * group that occurs, holding that group's fragments in order, so every
   * fragment sits in exactly the bucket of its own group; and the `""` bucket
   * present exactly when some fragment is ungrouped, always as the last key,
   * after the named groups.
   */
  lemma GroupedLaw(fs: seq<Fragment>)
    ensures Grouped(fs).Valid()
    ensures forall g :: g in Grouped(fs).vals <==> g in GroupNames(fs)
    ensures forall g :: g in Grouped(fs).vals ==> Grouped(fs).vals[g] == Filter(fs, g)
    ensures "" in Grouped(fs).vals ==> Grouped(fs).keys == Grouping(fs).keys + [""]
    ensures "" !in Grouped(fs).vals ==> Grouped(fs).keys == Grouping(fs).keys
  {
    GroupingKeys(fs);
    GroupingBuckets(fs);
    FilterComplete(fs, "");
    var u := Filter(fs, "");
    if u != [] {
      SetValid(Grouping(fs), "", u);
    }
  }

  /** Every fragment sits in the bucket of its own group. */
  lemma EveryFragmentPlaced(fs: seq<Fragment>)
    ensures forall i :: 0 <= i < |fs| ==>
      fs[i].data.group in Grouped(fs).vals && fs[i] in Grouped(fs).vals[fs[i].data.group]
  {
    GroupNamesAt(fs);
    forall i | 0 <= i < |fs|
      ensures fs[i].data.group in Grouped(fs).vals && fs[i] in Grouped(fs).vals[fs[i].data.group]
    {
      GroupedLaw(fs);
      assert GroupNames(fs)[i] == fs[i].data.group;
      FilterComplete(fs, fs[i].data.group);
    }
  }

  /** A bucket holds only fragments of its own group. */
  lemma BucketsSound(fs: seq<Fragment>)
    ensures forall g, f :: g in Grouped(fs).vals && f in Grouped(fs).vals[g] ==> f in fs && f.data.group == g
  {
    forall g, f | g in Grouped(fs).vals && f in Grouped(fs).vals[g] ensures f in fs && f.data.group == g {
      GroupedLaw(fs);
      FilterSound(fs, g);
    }
  }

  // ---------------------------------------------------------------------------
  // Properties of the fragments
  // ---------------------------------------------------------------------------

  /** The names of the widget-annotated entries, in order. */
  function WidgetNames(entries: seq<(Name, Ann)>): seq<Name>
    decreases |entries|
  {
    if entries == [] then []
    else (if entries[0].1.AnnotatedWidget? then [entries[0].0] else []) + WidgetNames(entries[1..])
  }

  /** When every entry carries a widget, the widget-annotated names are all the names. */
  lemma {:induction false} WidgetNamesAll(entries: seq<(Name, Ann)>)
    requires forall i :: 0 <= i < |entries| ==> entries[i].1.AnnotatedWidget?
    ensures WidgetNames(entries) == Names(entries)
    decreases |entries|
  {
    if entries != [] {
      assert forall i :: 0 < i < |entries| ==> entries[1..][i - 1] == entries[i];
      WidgetNamesAll(entries[1..]);
      assert Names(entries) == [entries[0].0] + Names(entries[1..]);
    }
  }

  /** The names of fragments, in order. */
  function FragmentNames(fs: seq<Fragment>): (r: seq<Name>)
    ensures |r| == |fs| && forall i :: 0 <= i < |fs| ==> r[i] == fs[i].name
  {
    seq(|fs|, i requires 0 <= i < |fs| => fs[i].name)
  }

  /** Every widget-annotated entry has a default. */
  ghost predicate AllDefaulted(entries: seq<(Name, Ann)>, dicts: seq<Items>) {
    forall i :: 0 <= i < |entries| && entries[i].1.AnnotatedWidget? ==> ChainGet(dicts, entries[i].0).Some?
  }

  /** Extraction succeeds exactly when every widget-annotated name has a default. */
  lemma {:induction false} FragmentsSucceed(target: Target, entries: seq<(Name, Ann)>, dicts: seq<Items>)
    ensures Fragments(target, entries, dicts).Ok? <==> AllDefaulted(entries, dicts)
    decreases |entries|
  {
    if entries != [] {
      var rest := entries[1..];
      FragmentsSucceed(target, rest, dicts);
      assert forall i :: 0 < i < |entries| ==> entries[i] == rest[i - 1];
    }
  }

  /** A failing extraction reports the first widget-annotated name without a default. */
  lemma {:induction false} FragmentsFail(target: Target, entries: seq<(Name, Ann)>, dicts: seq<Items>)
    ensures Fragments(target, entries, dicts).Err? ==> exists i ::
      && 0 <= i < |entries| && entries[i].1.AnnotatedWidget? && ChainGet(dicts, entries[i].0).None?
      && Fragments(target, entries, dicts).error == MissingDefault(entries[i].0)
      && AllDefaulted(entries[..i], dicts)
    decreases |entries|
  {
    var res := Fragments(target, entries, dicts);
    if entries != [] && res.Err? {
      var rest := entries[1..];
      if entries[0].1.AnnotatedWidget? && ChainGet(dicts, entries[0].0).None? {
        assert AllDefaulted(entries[..0], dicts);
      } else {
        FragmentsFail(target, rest, dicts);
        var i :| && 0 <= i < |rest| && rest[i].1.AnnotatedWidget? && ChainGet(dicts, rest[i].0).None?
          && res.error == MissingDefault(rest[i].0) && AllDefaulted(rest[..i], dicts);
        assert entries[i + 1] == rest[i];
        var upto := entries[..i + 1];
        forall j | 0 <= j < i + 1 && upto[j].1.AnnotatedWidget?
          ensures ChainGet(dicts, upto[j].0).Some?
        {
          if j > 0 { assert upto[j] == rest[..i][j - 1]; }
        }
      }
    }
  }

  /** One fragment per widget-annotated entry, in entry order; other annotations are skipped. */
  lemma {:induction false} FragmentsNamed(target: Target, entries: seq<(Name, Ann)>, dicts: seq<Items>)
    ensures Fragments(target, entries, dicts).Ok? ==>
      FragmentNames(Fragments(target, entries, dicts).value) == WidgetNames(entries)
    decreases |entries|
  {
    var res := Fragments(target, entries, dicts);
    if entries != [] && res.Ok? {
      var rest := entries[1..];
      FragmentsNamed(target, rest, dicts);
      var tail := Fragments(target, rest, dicts).value;
      if entries[0].1.AnnotatedWidget? {
        assert res.value == [res.value[0]] + tail;
        assert FragmentNames(res.value) == [entries[0].0] + FragmentNames(tail);
      }
    }
  }

  /** Every fragment is bound to the target and carries its name's default. */
  lemma {:induction false} FragmentsBound(target: Target, entries: seq<(Name, Ann)>, dicts: seq<Items>)
    ensures Fragments(target, entries, dicts).Ok? ==>
      forall f :: f in Fragments(target, entries, dicts).value ==>
        f.owner == target && ChainGet(dicts, f.name) == Some(f.default)
    decreases |entries|
  {
    if entries != [] {
      FragmentsBound(target, entries[1..], dicts);
    }
  }

  /** Every fragment carries the descriptor of an entry of its own name. */
  lemma {:induction false} FragmentsSourced(target: Target, entries: seq<(Name, Ann)>, dicts: seq<Items>)
    ensures Fragments(target, entries, dicts).Ok? ==>
      forall f :: f in Fragments(target, entries, dicts).value ==>
        exists i :: 0 <= i < |entries| && entries[i].0 == f.name && WidgetOf(entries[i].1) == Some(f.data)
    decreases |entries|
  {
    var res := Fragments(target, entries, dicts);
    if entries != [] && res.Ok? {
      var rest := entries[1..];
      FragmentsSourced(target, rest, dicts);
      var tail := Fragments(target, rest, dicts).value;
      forall f | f in res.value
        ensures exists i :: 0 <= i < |entries| && entries[i].0 == f.name && WidgetOf(entries[i].1) == Some(f.data)
      {
        if f in tail {
          var i :| 0 <= i < |rest| && rest[i].0 == f.name && WidgetOf(rest[i].1) == Some(f.data);
          assert entries[i + 1] == rest[i];
        } else {
          assert entries[0].0 == f.name && WidgetOf(entries[0].1) == Some(f.data);
        }
      }
    }
  }

  /** Widget-annotated names of entries whose names are distinct are distinct. */
  lemma {:induction false} WidgetNamesDistinct(entries: seq<(Name, Ann)>)
    requires Distinct(Names(entries))
    ensures Distinct(WidgetNames(entries))
    ensures forall k :: k in WidgetNames(entries) <==> exists i :: 0 <= i < |entries| && entries[i].0 == k && entries[i].1.AnnotatedWidget?
    decreases |entries|
  {
    if entries != [] {
      var rest := entries[1..];
      assert Names(rest) == Names(entries)[1..];
      WidgetNamesDistinct(rest);
      assert forall i :: 0 < i < |entries| ==> entries[i] == rest[i - 1];
      assert entries[0].0 !in WidgetNames(rest);
    }
  }

  // ---------------------------------------------------------------------------
  // The extractors
  // ---------------------------------------------------------------------------

  /** The annotation dicts of the MRO's classes that have `__annotations__` in their own `__dict__`, nearest first. */
  function AnnotationMaps(mro: seq<ClassDef>): (maps: seq<seq<(Name, Ann)>>)
    ensures forall m :: m in maps ==> m != [] && exists c :: c in mro && c.annotations == m
    ensures forall c :: c in mro && c.annotations != [] ==> c.annotations in maps
  {
    if mro == [] then []
    else (if mro[0].annotations != [] then [mro[0].annotations] else []) + AnnotationMaps(mro[1..])
  }

  /**
   * The annotation maps keep the MRO's order, nearest class first: a name
   * resolves to the annotation of the first class in the MRO that
   * annotates it.
   */
  lemma {:induction false} AnnotationMapsNearest(mro: seq<ClassDef>, i: nat, k: Name)
    requires i < |mro| && k in NameSet(mro[i].annotations)
    requires forall j :: 0 <= j < i ==> k !in NameSet(mro[j].annotations)
    ensures ChainGet(AnnotationMaps(mro), k) == Lookup(mro[i].annotations, k)
    ensures ChainGet(AnnotationMaps(mro), k).Some?
    decreases i
  {
    var rest := AnnotationMaps(mro[1..]);
    LookupFacts(mro[0].annotations, k);
    LookupFacts(mro[i].annotations, k);
    if i == 0 {
      assert mro[0].annotations != [];
      assert AnnotationMaps(mro) == [mro[0].annotations] + rest;
    } else {
      assert forall j :: 0 <= j < i - 1 ==> mro[1..][j] == mro[j + 1];
      AnnotationMapsNearest(mro[1..], i - 1, k);
      if mro[0].annotations != [] {
        assert AnnotationMaps(mro) == [mro[0].annotations] + rest;
        assert ([mro[0].annotations] + rest)[1..] == rest;
      } else {
        assert AnnotationMaps(mro) == rest;
      }
    }
  }

  /** `c.__dict__` for each class of the MRO, nearest first. */
  function ClassDicts(mro: seq<ClassDef>): (dicts: seq<Items>)
    ensures |dicts| == |mro| && forall i :: 0 <= i < |mro| ==> dicts[i] == mro[i].body
  {
    seq(|mro|, i requires 0 <= i < |mro| => mro[i].body)
  }

  /**
   * `Fragment.extract_reflection` of MetaWindow/scripts/engine.py: the
   * annotations of the whole MRO through a `ChainMap`, defaults from a
   * `ChainMap` of the MRO's class dicts.
   */
  method ExtractReflection(target: Target) returns (r: Result<Groups, ExtractError>)
    ensures r == Extraction(target, ChainItems(AnnotationMaps(target.mro)), ClassDicts(target.mro))
  {
    var defaults := ClassDicts(target.mro);
    var annotations := ChainItems(AnnotationMaps(target.mro));
    r := Extract(target, annotations, defaults);
  }

  /**
   * The canonical extraction yields exactly one fragment per name that some
   * class of the MRO annotates, when the nearest annotation of that name
   * carries a widget; the fragment carries that nearest descriptor and the
   * default of the nearest class dict that has the name, and fragments follow
   * the `ChainMap` order. A widget-annotated name no class dict has makes
   * the whole extraction raise `KeyError`.
   */
  lemma CanonicalFragments(target: Target)
    ensures
      var maps := AnnotationMaps(target.mro);
      var entries := ChainItems(maps);
      var res := Fragments(target, entries, ClassDicts(target.mro));
      && (res.Err? ==> exists k ::
            && res.error == MissingDefault(k) && ChainGet(maps, k).Some?
            && ChainGet(maps, k).value.AnnotatedWidget? && ChainGet(ClassDicts(target.mro), k).None?)
      && (res.Ok? ==>
            && FragmentNames(res.value) == WidgetNames(entries)
            && Distinct(FragmentNames(res.value))
            && forall f :: f in res.value ==>
              && f.owner == target
              && ChainGet(maps, f.name).Some? && WidgetOf(ChainGet(maps, f.name).value) == Some(f.data)
              && ChainGet(ClassDicts(target.mro), f.name) == Some(f.default))
  {
    var maps := AnnotationMaps(target.mro);
    var entries := ChainItems(maps);
    var dicts := ClassDicts(target.mro);
    ChainOrderFacts(maps);
    FragmentsFail(target, entries, dicts);
    FragmentsNamed(target, entries, dicts);
    FragmentsBound(target, entries, dicts);
    FragmentsSourced(target, entries, dicts);
    WidgetNamesDistinct(entries);
    var res := Fragments(target, entries, dicts);
    if res.Ok? {
      forall f | f in res.value
        ensures ChainGet(maps, f.name).Some? && WidgetOf(ChainGet(maps, f.name).value) == Some(f.data)
      {
        var i :| 0 <= i < |entries| && entries[i].0 == f.name && WidgetOf(entries[i].1) == Some(f.data);
        assert ChainGet(maps, entries[i].0) == Some(entries[i].1);
      }
    }
  }

  /** `target.__annotations__`: the annotations of the nearest class of the MRO that declares any. */
  function NearestAnnotations(mro: seq<ClassDef>): (r: Option<seq<(Name, Ann)>>)
    ensures r.None? <==> forall c :: c in mro ==> c.annotations == []
    ensures r.Some? ==> exists i ::
      && 0 <= i < |mro| && r.value == mro[i].annotations && r.value != []
      && forall j :: 0 <= j < i ==> mro[j].annotations == []
  {
    if mro == [] then None
    else if mro[0].annotations != [] then Some(mro[0].annotations)
    else
      var r := NearestAnnotations(mro[1..]);
      assert forall i :: 0 < i < |mro| ==> mro[i] == mro[1..][i - 1];
      r
  }

  /** `type(target).__dict__` as the only dict defaults come from. */
  function OwnDict(mro: seq<ClassDef>): (dicts: seq<Items>)
    ensures |dicts| <= 1 && (mro != [] ==> dicts == [mro[0].body])
  {
    if mro == [] then [] else [mro[0].body]
  }

  /**
   * `Fragment.extract_reflection` of scripts/engine.py and `_Fragment.extract_reflection`
   * of extras/mini.py: the annotations `target.__annotations__` finds, defaults
   * from the target's class dict only.
   */
  method ExtractOwnReflection(target: Target) returns (r: Result<Groups, ExtractError>)
    ensures NearestAnnotations(target.mro).None? ==> r == Err(NoAnnotations)
    ensures NearestAnnotations(target.mro).Some? ==>
      r == Extraction(target, NearestAnnotations(target.mro).value, OwnDict(target.mro))
  {
    var annotations := NearestAnnotations(target.mro);
    if annotations.None? {
      return Err(NoAnnotations);
    }
    var defaults := OwnDict(target.mro);
    r := Extract(target, annotations.value, defaults);
  }

  /**
   * The drafts read defaults only from the target's own class dict: a
   * widget-annotated field whose value only an ancestor's dict holds makes
   * extraction raise `KeyError`, although the canonical `ChainMap` lookup
   * finds it.
   */
  lemma OwnDictOnly(target: Target, k: Name)
    requires NearestAnnotations(target.mro).Some?
    requires var anns := NearestAnnotations(target.mro).value;
      exists i :: 0 <= i < |anns| && anns[i].0 == k && anns[i].1.AnnotatedWidget?
    requires target.mro != [] && k !in NameSet(target.mro[0].body)
    ensures Extraction(target, NearestAnnotations(target.mro).value, OwnDict(target.mro)).Err?
  {
    var anns := NearestAnnotations(target.mro).value;
    FragmentsSucceed(target, anns, OwnDict(target.mro));
    var i :| 0 <= i < |anns| && anns[i].0 == k && anns[i].1.AnnotatedWidget?;
    assert ChainGet(OwnDict(target.mro), k).None?;
    assert !AllDefaulted(anns, OwnDict(target.mro));
  }

  // ---------------------------------------------------------------------------
  // Write-back through a fragment's bind
  // ---------------------------------------------------------------------------

  /** A widget's change callback, `setattr(*bind, value)`. */
  method WriteBack(f: Fragment, v: Value)
    modifies f.owner
    ensures f.owner.attrs == old(f.owner.attrs)[f.name := v]
  {
    f.owner.attrs := f.owner.attrs[f.name := v];
  }

  /**
   * Defaults come from class dicts, never from the instance: extracting
   * again after a widget wrote a value back yields the same fragments.
   */
  method ReextractAfterWriteBack(target: Target, f: Fragment, v: Value)
    returns (before: Result<Groups, ExtractError>, after: Result<Groups, ExtractError>)
    requires f.owner == target
    modifies target
    ensures target.attrs == old(target.attrs)[f.name := v]
    ensures before == after
  {
    before := ExtractReflection(target);
    WriteBack(f, v);
    after := ExtractReflection(target);
  }
}
