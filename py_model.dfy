/**
 * The slice of Python's object model that the widget engine relies on:
 * the values found in class bodies and call sites, the value types a widget
 * tracks, class definitions (body dict and annotations), insertion-ordered
 * dicts, and the descriptor instance the generated `__new__` builds.
 */
module PyModel {

  type Name = string

  datatype Option<T> = None | Some(value: T)

  datatype Result<T, E> = Ok(value: T) | Err(error: E)

  /** The `T` a widget class is declared with (`class Toggle(Widget, T=bool)`). */
  datatype PyType =
    | NoneType
    | BoolType
    | StrType
    | IntType
    | FloatType
    | StrSetType
    | OtherType(typeName: string)

  /** Values that appear as class attributes, positional or keyword arguments and field defaults. */
  datatype Value =
    | NoneV
    | BoolV(b: bool)
    | IntV(i: int)
    | StrV(s: string)
    | StrSetV(strs: set<string>)
    | ColorV(color: string)     // a `UI_Color` member, by name
    | FuncV(func: Name)         // a function defined in a class body, by name
    | ListV(items: seq<Value>)

  /** The items of a class `__dict__` (or of a class body namespace), in definition order. */
  type Items = seq<(Name, Value)>

  /** All names of an items sequence. */
  function NameSet<T>(items: seq<(Name, T)>): set<Name> {
    set i | 0 <= i < |items| :: items[i].0
  }

  /** The names of an items sequence, in order. */
  function Names<T>(items: seq<(Name, T)>): (r: seq<Name>)
    ensures |r| == |items|
    ensures forall i :: 0 <= i < |items| ==> r[i] == items[i].0
  {
    if items == [] then [] else [items[0].0] + Names(items[1..])
  }

  ghost predicate Distinct<T>(s: seq<T>) {
    forall i, j :: 0 <= i < j < |s| ==> s[i] != s[j]
  }

  /** A dict's items never repeat a key. */
  ghost predicate UniqueNames<T>(items: seq<(Name, T)>) {
    forall i, j :: 0 <= i < j < |items| ==> items[i].0 != items[j].0
  }

  /** The value stored under `k` in a dict given by its items (the first entry, keys being unique). */
  function Lookup<T>(items: seq<(Name, T)>, k: Name): Option<T> {
    if items == [] then None
    else if items[0].0 == k then Some(items[0].1)
    else Lookup(items[1..], k)
  }

  lemma {:induction false} LookupFacts<T>(items: seq<(Name, T)>, k: Name)
    ensures Lookup(items, k).Some? <==> k in NameSet(items)
    ensures Lookup(items, k).Some? ==> (k, Lookup(items, k).value) in items
    decreases |items|
  {
    if items != [] {
      LookupFacts(items[1..], k);
      assert NameSet(items) == {items[0].0} + NameSet(items[1..]) by {
        forall i | 0 < i < |items| ensures items[i] == items[1..][i - 1] { }
      }
    }
  }

  /** In a dict whose keys do not repeat, the value found for a key is the one stored with it. */
  lemma LookupAt<T>(items: seq<(Name, T)>, i: nat)
    requires UniqueNames(items) && i < |items|
    ensures Lookup(items, items[i].0) == Some(items[i].1)
  {
    var k := items[i].0;
    LookupFacts(items, k);
    assert k in NameSet(items);
    var j :| 0 <= j < |items| && items[j] == (k, Lookup(items, k).value);
  }

  /** Two maps with the same keys and the same value under each key are equal. */
  lemma MapsAgree<K, V>(a: map<K, V>, b: map<K, V>)
    requires a.Keys == b.Keys
    requires forall k :: k in a ==> a[k] == b[k]
    ensures a == b
  {
  }

  /** Overriding every key of `a` leaves nothing of `a`. */
  lemma OverrideCovered<K, V>(a: map<K, V>, b: map<K, V>)
    requires a.Keys <= b.Keys
    ensures a + b == b
  {
  }

  /**
   * A Python dict with string keys: its keys in insertion order and the value of each.
   */
  datatype ODict<V> = ODict(keys: seq<Name>, vals: map<Name, V>) {

    ghost predicate Valid() {
      Distinct(keys) && forall k :: k in vals <==> k in keys
    }

    /** `d[k] = v`: a new key goes to the end, an existing key keeps its place. */
    function Set(k: Name, v: V): ODict<V> {
      ODict(if k in vals then keys else keys + [k], vals[k := v])
    }
  }

  /** Assigning a key keeps a dict well formed and never moves the existing keys. */
  lemma SetValid<V>(d: ODict<V>, k: Name, v: V)
    requires d.Valid()
    ensures d.Set(k, v).Valid()
    ensures d.keys <= d.Set(k, v).keys
  {
    if k !in d.vals {
      var r := d.Set(k, v);
      forall i, j | 0 <= i < j < |r.keys| ensures r.keys[i] != r.keys[j] {
        if j == |d.keys| { assert r.keys[j] == k; assert r.keys[i] in d.keys; }
      }
    }
  }

  /**
   * A widget instance as the generated `__new__` leaves it: one attribute per
   * field-map entry, plus `__label__`, `__group__` and `__type__`.
   */
  datatype Descriptor = Descriptor(attrs: map<Name, Value>, labelText: string, group: string, valueType: PyType)

  /** `Annotated[T, instance]`, the value a widget constructor call returns. */
  datatype Annotated = Annotated(origin: PyType, meta: Descriptor)

  /** What a field annotation of a user class can be. */
  datatype Ann =
    | Plain(t: PyType)                             // `x: int`
    | AnnotatedOther(origin: PyType, first: Value)  // `Annotated[...]` whose first metadata is no widget
    | AnnotatedWidget(w: Annotated)                 // the result of a widget constructor call

  /**
   * A class as the engine sees it: its name, its own `__dict__` items and its
   * own `__annotations__` (empty when the body declares none).
   */
  datatype ClassDef = ClassDef(name: string, body: Items, annotations: seq<(Name, Ann)>)
}
