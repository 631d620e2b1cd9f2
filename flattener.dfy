/** `_flatten_and_store_value_type`: turns a decoded body into a flat map from path key to the
    type of the leaf at that path. Both copies of the matchers carry this function with the same
    body (they differ only in how they spell "is a mapping" and in the falsy default of the
    parent key), so it is modelled once here. */
module Flattener {
  import opened Payload

  /** The key of a child: `f"{parent}_{key}"` when the parent key is truthy, else the key
      alone. A missing parent (`None` or `False`) and the empty string are all falsy, and all
      are written "" here. */
  function Extend(parent: string, key: string): string
  {
    if parent != "" then parent + "_" + key else key
  }

  /** Under one parent, distinct child keys give distinct keys. */
  lemma ExtendInjective(parent: string, a: string, b: string)
    requires Extend(parent, a) == Extend(parent, b)
    ensures a == b
  {
    if parent != "" {
      assert a == Extend(parent, a)[|parent| + 1..];
      assert b == Extend(parent, b)[|parent| + 1..];
    }
  }

  function Digit(d: nat): char
    requires d < 10
  {
    ('0' as int + d) as char
  }

  /** `str(k)` for a list index `k`: its decimal digits, without leading zeros. */
  function NatToString(n: nat): (r: string)
    ensures |r| > 0
    ensures n < 10 <==> |r| == 1
  {
    if n < 10 then [Digit(n)] else NatToString(n / 10) + [Digit(n % 10)]
  }

  /** Flat map contributed by a value that sits at the full key `key`. */
  function FlattenValue(key: string, v: Value): FlatTypeMap
    decreases v, 1, 0
  {
    match v
    case Mapping(es) => FlattenEntries(es, key, |es|)
    case List(items) => FlattenItems(items, key, |items|)
    case Leaf(s) => map[key := TagOf(s)]
  }

  /** Flat map of the first `n` items of a mapping under `parent`; a later item's keys win. */
  function FlattenEntries(es: seq<(string, Value)>, parent: string, n: nat): FlatTypeMap
    requires n <= |es|
    decreases Mapping(es), 0, n
  {
    if n == 0 then map[]
    else FlattenEntries(es, parent, n - 1) + FlattenValue(Extend(parent, es[n - 1].0), es[n - 1].1)
  }

  /** Flat map of the first `n` elements of a list at `key`; element `k` is keyed `str(k)`. */
  function FlattenItems(items: seq<Value>, key: string, n: nat): FlatTypeMap
    requires n <= |items|
    decreases List(items), 0, n
  {
    if n == 0 then map[]
    else FlattenItems(items, key, n - 1) + FlattenValue(Extend(key, NatToString(n - 1)), items[n - 1])
  }

  /** The flat map of a whole mapping under `parent` ("" at the top level). */
  function Flatten(data: Body, parent: string): FlatTypeMap
  {
    FlattenEntries(data, parent, |data|)
  }

  /** A one-entry mapping `{key: v}` flattened under `parent` is the value flattened at the
      child key. */
  lemma FlattenSingleton(parent: string, key: string, v: Value)
    ensures Flatten([(key, v)], parent) == FlattenValue(Extend(parent, key), v)
  {
    assert FlattenEntries([(key, v)], parent, 0) == map[];
  }

  lemma UnionAssociative(a: FlatTypeMap, b: FlatTypeMap, c: FlatTypeMap)
    ensures (a + b) + c == a + (b + c)
  {
  }

  /** One more entry of the mapping has been folded in. */
  lemma EntriesStep(data: Body, parent: string, i: nat, acc: FlatTypeMap)
    requires i < |data|
    requires acc == FlattenEntries(data, parent, i)
    ensures acc + FlattenValue(Extend(parent, data[i].0), data[i].1) == FlattenEntries(data, parent, i + 1)
  {
  }

  /** One more list element has been folded in, behind the entries before the list. */
  lemma ItemsStep(prefix: FlatTypeMap, items: seq<Value>, key: string, k: nat, acc: FlatTypeMap)
    requires k < |items|
    requires acc == prefix + FlattenItems(items, key, k)
    ensures acc + FlattenValue(Extend(key, NatToString(k)), items[k]) == prefix + FlattenItems(items, key, k + 1)
  {
    UnionAssociative(prefix, FlattenItems(items, key, k), FlattenValue(Extend(key, NatToString(k)), items[k]));
  }

  /** `_flatten_and_store_value_type`'s loop: walk the items, recurse into mappings, recurse into each list element
      as a one-entry mapping `{str(k): v}`, and record `(new_key, type(value))` for a leaf.
      `flat_data.extend(...)` followed by `dict(flat_data)` keeps the last pair of each key,
      which is the right-biased union `+` used here. */
  method FlattenAndStoreValueType(data: Body, parentKey: string) returns (flat: FlatTypeMap)
    ensures flat == Flatten(data, parentKey)
    decreases Size(Mapping(data))
  {
    flat := map[];
    var i := 0;
    while i < |data|
      invariant 0 <= i <= |data|
      invariant flat == FlattenEntries(data, parentKey, i)
    {
      var (key, value) := data[i];
      var newKey := if parentKey != "" then parentKey + "_" + key else key;
      assert newKey == Extend(parentKey, key);
      ghost var before := flat;
      match value {
        case Mapping(entries) =>
          EntryBelow(data, i);
          var sub := FlattenAndStoreValueType(entries, newKey);
          flat := flat + sub;
        case List(items) =>
          var k := 0;
          while k < |items|
            invariant 0 <= k <= |items|
            invariant flat == before + FlattenItems(items, newKey, k)
          {
            ListItemBelow(data, i, items, k, NatToString(k));
            var sub := FlattenAndStoreValueType([(NatToString(k), items[k])], newKey);
            FlattenSingleton(newKey, NatToString(k), items[k]);
            ItemsStep(before, items, newKey, k, flat);
            flat := flat + sub;
            k := k + 1;
          }
        case Leaf(s) =>
          flat := flat[newKey := TagOf(s)];
          assert flat == before + FlattenValue(newKey, value);
      }
      EntriesStep(data, parentKey, i, before);
      i := i + 1;
    }
  }

  // ---- what a single entry contributes ----

  lemma {:induction false} FlattenEntriesPrefix(data: Body, extra: Body, parent: string, n: nat)
    requires n <= |data|
    ensures FlattenEntries(data + extra, parent, n) == FlattenEntries(data, parent, n)
  {
    if n > 0 {
      assert (data + extra)[n - 1] == data[n - 1];
      FlattenEntriesPrefix(data, extra, parent, n - 1);
    }
  }

  /** Appending an entry to a mapping adds the entry's own flat map, whose keys override. */
  lemma FlattenAppend(data: Body, key: string, v: Value, parent: string)
    ensures Flatten(data + [(key, v)], parent) == Flatten(data, parent) + FlattenValue(Extend(parent, key), v)
  {
    var d := data + [(key, v)];
    assert |d| == |data| + 1 && d[|data|] == (key, v);
    FlattenEntriesPrefix(data, [(key, v)], parent, |data|);
    EntriesStep(d, parent, |data|, Flatten(data, parent));
  }

  /** An empty mapping or an empty list contributes no entries. */
  lemma EmptyContainersVanish(data: Body, key: string, v: Value, parent: string)
    requires v == Mapping([]) || v == List([])
    ensures Flatten(data + [(key, v)], parent) == Flatten(data, parent)
  {
    FlattenAppend(data, key, v, parent);
  }

  /** A scalar under `key` yields exactly one entry: `parent_key` when the parent is truthy,
      `key` otherwise, mapped to the scalar's type. */
  lemma ScalarEntry(parent: string, key: string, s: Scalar)
    ensures parent != "" ==> Flatten([(key, Leaf(s))], parent) == map[parent + "_" + key := TagOf(s)]
    ensures parent == "" ==> Flatten([(key, Leaf(s))], parent) == map[key := TagOf(s)]
  {
    FlattenSingleton(parent, key, Leaf(s));
  }

  lemma {:induction false} NatToStringInjective(m: nat, n: nat)
    requires NatToString(m) == NatToString(n)
    ensures m == n
    decreases m
  {
    if m >= 10 && n >= 10 {
      var pm, pn := NatToString(m / 10), NatToString(n / 10);
      assert NatToString(m) == pm + [Digit(m % 10)];
      assert NatToString(n) == pn + [Digit(n % 10)];
      assert |pm| == |pn|;
      assert pm == NatToString(m)[..|pm|] && pn == NatToString(n)[..|pn|];
      assert Digit(m % 10) == NatToString(m)[|pm|] && Digit(n % 10) == NatToString(n)[|pn|];
      NatToStringInjective(m / 10, n / 10);
    } else if m < 10 && n < 10 {
      assert Digit(m) == NatToString(m)[0] && Digit(n) == NatToString(n)[0];
    }
  }

  /** The keys `key_0` … `key_{n-1}` that a list of `n` scalars at `key` flattens to. */
  function IndexKeys(key: string, n: nat): set<string>
  {
    set i | 0 <= i < n :: Extend(key, NatToString(i))
  }

  lemma IndexKeysStep(key: string, n: nat)
    requires n > 0
    ensures IndexKeys(key, n) == IndexKeys(key, n - 1) + {Extend(key, NatToString(n - 1))}
  {
    var small := IndexKeys(key, n - 1);
    forall x | x in IndexKeys(key, n)
      ensures x in small + {Extend(key, NatToString(n - 1))}
    {
      var i :| 0 <= i < n && x == Extend(key, NatToString(i));
      if i < n - 1 {
        assert x in small;
      }
    }
  }

  /** Distinct list indices under one key give distinct keys. */
  lemma IndexKeysDistinct(key: string, i: nat, j: nat)
    requires i != j
    ensures Extend(key, NatToString(i)) != Extend(key, NatToString(j))
  {
    if Extend(key, NatToString(i)) == Extend(key, NatToString(j)) {
      ExtendInjective(key, NatToString(i), NatToString(j));
      NatToStringInjective(i, j);
    }
  }

  /** `m` maps exactly the keys `IndexKeys(key, n)`, each to the type of that element. */
  ghost predicate IndexedTags(m: FlatTypeMap, items: seq<Value>, key: string, n: nat)
    requires n <= |items|
    requires forall i :: 0 <= i < |items| ==> items[i].Leaf?
  {
    && m.Keys == IndexKeys(key, n)
    && forall i :: 0 <= i < n ==> m[Extend(key, NatToString(i))] == TagOf(items[i].scalar)
  }

  lemma IndexedTagsStep(m: FlatTypeMap, items: seq<Value>, key: string, n: nat)
    requires 0 < n <= |items|
    requires forall i :: 0 <= i < |items| ==> items[i].Leaf?
    requires IndexedTags(m, items, key, n - 1)
    ensures IndexedTags(m + map[Extend(key, NatToString(n - 1)) := TagOf(items[n - 1].scalar)], items, key, n)
  {
    var m' := m + map[Extend(key, NatToString(n - 1)) := TagOf(items[n - 1].scalar)];
    IndexKeysStep(key, n);
    assert m'.Keys == m.Keys + {Extend(key, NatToString(n - 1))};
    forall i | 0 <= i < n - 1 ensures m'[Extend(key, NatToString(i))] == TagOf(items[i].scalar) {
      IndexKeysDistinct(key, i, n - 1);
    }
  }

  lemma {:induction false} ScalarItemsHold(items: seq<Value>, key: string, n: nat)
    requires n <= |items|
    requires forall i :: 0 <= i < |items| ==> items[i].Leaf?
    ensures IndexedTags(FlattenItems(items, key, n), items, key, n)
  {
    if n > 0 {
      ScalarItemsHold(items, key, n - 1);
      var k := Extend(key, NatToString(n - 1));
      assert FlattenValue(k, items[n - 1]) == map[k := TagOf(items[n - 1].scalar)];
      IndexedTagsStep(FlattenItems(items, key, n - 1), items, key, n);
    }
  }

  /** A list of scalars at `key` gives one entry per element, `key_0`, `key_1`, ..., each
      mapped to that element's type. */
  lemma ScalarItems(items: seq<Value>, key: string, n: nat)
    requires n <= |items|
    requires forall i :: 0 <= i < |items| ==> items[i].Leaf?
    ensures FlattenItems(items, key, n).Keys == IndexKeys(key, n)
    ensures forall i :: 0 <= i < n ==>
              FlattenItems(items, key, n)[Extend(key, NatToString(i))] == TagOf(items[i].scalar)
  {
    ScalarItemsHold(items, key, n);
  }

  lemma ScalarList(parent: string, key: string, items: seq<Value>)
    requires forall i :: 0 <= i < |items| ==> items[i].Leaf?
    ensures var q := Extend(parent, key);
            var flat := Flatten([(key, List(items))], parent);
            && flat.Keys == IndexKeys(q, |items|)
            && forall i :: 0 <= i < |items| ==> flat[Extend(q, NatToString(i))] == TagOf(items[i].scalar)
  {
    FlattenSingleton(parent, key, List(items));
    ScalarItems(items, Extend(parent, key), |items|);
  }

  // ---- path keys are not unique ----

  /** A key that contains the separator collides with a nested path, and the later one wins:
      `{"a_b": 1, "a": {"b": "x"}}` flattens to `{"a_b": str}`. */
  lemma SeparatorCollision()
    ensures Flatten([("a_b", Leaf(IntValue(1))), ("a", Mapping([("b", Leaf(StrValue("x")))]))], "")
            == map["a_b" := StrType]
  {
    var inner: Body := [("b", Leaf(StrValue("x")))];
    var data: Body := [("a_b", Leaf(IntValue(1))), ("a", Mapping(inner))];
    assert data == [("a_b", Leaf(IntValue(1)))] + [("a", Mapping(inner))];
    FlattenAppend([("a_b", Leaf(IntValue(1)))], "a", Mapping(inner), "");
    ScalarEntry("", "a_b", IntValue(1));
    ScalarEntry("a", "b", StrValue("x"));
    assert Extend("a", "b") == "a_b";
  }

  /** An empty-string key at the top is falsy, so every key of the mapping below it is used
      without a prefix: `{"": m}` flattens exactly as `m` does. */
  lemma EmptyKeyDropsPrefix(es: Body)
    ensures Flatten([("", Mapping(es))], "") == Flatten(es, "")
  {
    FlattenSingleton("", "", Mapping(es));
  }

  /** For instance `{"": {"x": None}}` flattens to `{"x": NoneType}`. */
  lemma EmptyKeyExample()
    ensures Flatten([("", Mapping([("x", Leaf(NullValue))]))], "") == map["x" := NoneType]
  {
    EmptyKeyDropsPrefix([("x", Leaf(NullValue))]);
    ScalarEntry("", "x", NullValue);
  }
}
