/** The cases of test_matchers.py, which runs the root copy of the matchers on JSON bodies,
    as facts about the model. */
module MatcherExamples {
  import opened Payload
  import opened Flattener
  import opened RootMatchers
  import PackageMatchers
  import KeyOrder

  /** `{x: {y: {z: v}}}` flattens to `v` flattened at `x_y_z`. */
  lemma ThreeLevels(x: string, y: string, z: string, v: Value)
    requires x != "" && y != ""
    ensures Flatten([(x, Mapping([(y, Mapping([(z, v)]))]))], "") == FlattenValue(x + "_" + y + "_" + z, v)
  {
    FlattenSingleton("", x, Mapping([(y, Mapping([(z, v)]))]));
    FlattenSingleton(x, y, Mapping([(z, v)]));
    FlattenSingleton(x + "_" + y, z, v);
  }

  /** The flat map of a list of scalars at path `q`, one index at a time. */
  lemma ScalarsAt(q: string, items: seq<Value>, n: nat, key: string, t: TypeTag)
    requires 0 < n <= |items| && n <= 10 && q != ""
    requires items[n - 1].Leaf? && TagOf(items[n - 1].scalar) == t
    requires key == q + "_" + [Digit(n - 1)]
    ensures FlattenItems(items, q, n) == FlattenItems(items, q, n - 1)[key := t]
  {
  }

  function Int(i: int): Value { Leaf(IntValue(i)) }
  function Str(s: string): Value { Leaf(StrValue(s)) }

  /** The test body `{"a": {"b": {"c": items}}}`. */
  function Nested(items: seq<Value>): Body
  {
    [("a", Mapping([("b", Mapping([("c", List(items))]))]))]
  }

  lemma DistinctAt(a: string, b: string, i: nat)
    requires i < |a| && i < |b| && a[i] != b[i]
    ensures a != b
  {
  }

  /** The test body flattens to its list flattened at `a_b_c`. */
  lemma NestedIsList(items: seq<Value>)
    ensures Flatten(Nested(items), "") == FlattenItems(items, "a_b_c", |items|)
  {
    PathABC();
    ThreeLevels("a", "b", "c", List(items));
    assert FlattenValue("a_b_c", List(items)) == FlattenItems(items, "a_b_c", |items|);
  }

  lemma PathABC()
    ensures "a" + "_" + "b" + "_" + "c" == "a_b_c"
  {
  }

  lemma NestedFlatLong()
    ensures Flatten(Nested([Int(1), Int(2), Str("3"), Int(4)]), "")
            == map["a_b_c_0" := IntType, "a_b_c_1" := IntType, "a_b_c_2" := StrType, "a_b_c_3" := IntType]
  {
    var items := [Int(1), Int(2), Str("3"), Int(4)];
    NestedIsList(items);
    assert FlattenItems(items, "a_b_c", 0) == map[];
    ScalarsAt("a_b_c", items, 1, "a_b_c_0", IntType);
    ScalarsAt("a_b_c", items, 2, "a_b_c_1", IntType);
    ScalarsAt("a_b_c", items, 3, "a_b_c_2", StrType);
    ScalarsAt("a_b_c", items, 4, "a_b_c_3", IntType);
  }

  lemma NestedFlatShort()
    ensures Flatten(Nested([Int(1), Int(2), Str("3")]), "")
            == map["a_b_c_0" := IntType, "a_b_c_1" := IntType, "a_b_c_2" := StrType]
  {
    var items := [Int(1), Int(2), Str("3")];
    NestedIsList(items);
    assert FlattenItems(items, "a_b_c", 0) == map[];
    ScalarsAt("a_b_c", items, 1, "a_b_c_0", IntType);
    ScalarsAt("a_b_c", items, 2, "a_b_c_1", IntType);
    ScalarsAt("a_b_c", items, 3, "a_b_c_2", StrType);
  }

  lemma NestedFlatInts()
    ensures Flatten(Nested([Int(1), Int(2), Int(3)]), "")
            == map["a_b_c_0" := IntType, "a_b_c_1" := IntType, "a_b_c_2" := IntType]
  {
    var items := [Int(1), Int(2), Int(3)];
    NestedIsList(items);
    assert FlattenItems(items, "a_b_c", 0) == map[];
    ScalarsAt("a_b_c", items, 1, "a_b_c_0", IntType);
    ScalarsAt("a_b_c", items, 2, "a_b_c_1", IntType);
    ScalarsAt("a_b_c", items, 3, "a_b_c_2", IntType);
  }

  /** `{"a": 1}` against `{"b": 1}`: the structure fails and reports `{'a'}`; the combined
      matcher stops there. */
  lemma DifferentKeyReported()
    ensures var actual := Flatten([("a", Int(1))], "");
            var expected := Flatten([("b", Int(1))], "");
            && CheckStructure(actual, expected) == StructureMismatch({"a"})
            && CheckStructureAndTypes(actual, expected) == StructureMismatch({"a"})
  {
    ScalarEntry("", "a", IntValue(1));
    ScalarEntry("", "b", IntValue(1));
    DistinctAt("a", "b", 0);
    var actual := Flatten([("a", Int(1))], "");
    var expected := Flatten([("b", Int(1))], "");
    assert actual.Keys - expected.Keys == {"a"};
  }

  /** `{"a": {"b": {"c": [1, 2, "3", 4]}}}` against the same with `[1, 2, "3"]`: the extra
      element is reported as `{'a_b_c_3'}`. */
  lemma ExtraListElementReported()
    ensures var actual := Flatten(Nested([Int(1), Int(2), Str("3"), Int(4)]), "");
            var expected := Flatten(Nested([Int(1), Int(2), Str("3")]), "");
            && CheckStructure(actual, expected) == StructureMismatch({"a_b_c_3"})
            && CheckStructureAndTypes(actual, expected) == StructureMismatch({"a_b_c_3"})
  {
    NestedFlatLong();
    NestedFlatShort();
    ExtraKeyOnly();
  }

  /** The flat maps of `[1, 2, "3", 4]` and `[1, 2, "3"]` at `a_b_c` differ in one key. */
  lemma ExtraKeyOnly()
    ensures var actual := map["a_b_c_0" := IntType, "a_b_c_1" := IntType, "a_b_c_2" := StrType, "a_b_c_3" := IntType];
            var expected := map["a_b_c_0" := IntType, "a_b_c_1" := IntType, "a_b_c_2" := StrType];
            && CheckStructure(actual, expected) == StructureMismatch({"a_b_c_3"})
            && CheckStructureAndTypes(actual, expected) == StructureMismatch({"a_b_c_3"})
  {
    var actual := map["a_b_c_0" := IntType, "a_b_c_1" := IntType, "a_b_c_2" := StrType, "a_b_c_3" := IntType];
    var expected := map["a_b_c_0" := IntType, "a_b_c_1" := IntType, "a_b_c_2" := StrType];
    DistinctAt("a_b_c_3", "a_b_c_0", 6);
    DistinctAt("a_b_c_3", "a_b_c_1", 6);
    DistinctAt("a_b_c_3", "a_b_c_2", 6);
    assert actual.Keys == expected.Keys + {"a_b_c_3"};
    assert "a_b_c_3" !in expected.Keys;
    assert actual.Keys - expected.Keys == {"a_b_c_3"};
  }

  /** `{"a": 1}` and `{"a": "1"}` flatten to one key each, int and str. */
  lemma ChangedTypeFlat()
    ensures Flatten([("a", Int(1))], "") == map["a" := IntType]
    ensures Flatten([("a", Str("1"))], "") == map["a" := StrType]
  {
    PathAB();
    ScalarEntry("", "a", IntValue(1));
    ScalarEntry("", "a", StrValue("1"));
  }

  /** One key whose type changed from int to str: the structure passes, the types fail. */
  lemma ChangedTypeMaps(actual: FlatTypeMap, expected: FlatTypeMap)
    requires actual == map["a" := IntType] && expected == map["a" := StrType]
    ensures CheckStructure(actual, expected) == Pass
    ensures CheckTypes(actual, expected) == TypeMismatch(map["a" := (IntType, StrType)])
    ensures CheckStructureAndTypes(actual, expected) == TypeMismatch(map["a" := (IntType, StrType)])
  {
    assert actual.Keys == {"a"} && expected.Keys == {"a"};
    assert actual["a"] == IntType && expected["a"] == StrType;
    assert IntType in CommonTags(actual, expected);
    assert StrType in CommonTags(expected, actual);
    assert CommonTags(actual, expected) == {IntType};
    assert CommonTags(expected, actual) == {StrType};
    assert CommonTags(actual, expected) != CommonTags(expected, actual);
    assert TypeErrors(actual, expected) == map["a" := (IntType, StrType)];
  }

  /** `{"a": 1}` against `{"a": "1"}`: the structure passes, the types fail for `a` with
      int against str, and so does the combined matcher. */
  lemma ChangedTypeReported()
    ensures var actual := Flatten([("a", Int(1))], "");
            var expected := Flatten([("a", Str("1"))], "");
            && CheckStructure(actual, expected) == Pass
            && CheckTypes(actual, expected) == TypeMismatch(map["a" := (IntType, StrType)])
            && CheckStructureAndTypes(actual, expected) == TypeMismatch(map["a" := (IntType, StrType)])
  {
    ChangedTypeFlat();
    ChangedTypeMaps(Flatten([("a", Int(1))], ""), Flatten([("a", Str("1"))], ""));
  }

  /** The flat maps of `[1, 2, "3"]` and `[1, 2, 3]` at `a_b_c` differ in one type. */
  lemma ThirdElementMismatch()
    ensures var actual := map["a_b_c_0" := IntType, "a_b_c_1" := IntType, "a_b_c_2" := StrType];
            var expected := map["a_b_c_0" := IntType, "a_b_c_1" := IntType, "a_b_c_2" := IntType];
            CheckTypes(actual, expected) == TypeMismatch(map["a_b_c_2" := (StrType, IntType)])
  {
    var actual := map["a_b_c_0" := IntType, "a_b_c_1" := IntType, "a_b_c_2" := StrType];
    var expected := map["a_b_c_0" := IntType, "a_b_c_1" := IntType, "a_b_c_2" := IntType];
    DistinctAt("a_b_c_2", "a_b_c_0", 6);
    DistinctAt("a_b_c_2", "a_b_c_1", 6);
    DistinctAt("a_b_c_1", "a_b_c_0", 6);
    assert actual["a_b_c_0"] == expected["a_b_c_0"] && actual["a_b_c_1"] == expected["a_b_c_1"];
    assert StrType in CommonTags(actual, expected) by {
      assert actual["a_b_c_2"] == StrType;
    }
    assert StrType !in CommonTags(expected, actual);
    assert forall k :: k in TypeErrors(actual, expected) <==> k == "a_b_c_2";
    assert TypeErrors(actual, expected) == map["a_b_c_2" := (StrType, IntType)];
  }

  /** A one-key type change in the packaged copy: the report is that single line. */
  lemma SingleKeyPackageReport()
    ensures PackageMatchers.CheckTypes(map["a" := IntType], map["a" := StrType])
            == PackageMatchers.TypeMismatch([PackageMatchers.FieldError("a", IntType, StrType)])
  {
    var r := PackageMatchers.CheckTypes(map["a" := IntType], map["a" := StrType]);
    var ks := PackageMatchers.ErrorKeys(r.errors);
    assert forall i :: 0 <= i < |ks| ==> ks[i] == "a";
    if |ks| > 1 {
      assert KeyOrder.Less(ks[0], ks[1]);
      KeyOrder.LessIrreflexive("a");
    }
    assert r.errors[0] == PackageMatchers.FieldError("a", IntType, StrType);
  }

  /** The packaged copy reports the `{"a": 1}` against `{"a": "1"}` change as that line. */
  lemma ChangedTypeReportedByPackage()
    ensures PackageMatchers.CheckStructureAndTypes(Flatten([("a", Int(1))], ""), Flatten([("a", Str("1"))], ""))
            == PackageMatchers.TypeMismatch([PackageMatchers.FieldError("a", IntType, StrType)])
  {
    ChangedTypeFlat();
    SingleKeyPackageReport();
  }

  /** `[1, 2, "3"]` against `[1, 2, 3]` three levels down: the third element is reported as
      str against int. */
  lemma ChangedListElementReported()
    ensures var actual := Flatten(Nested([Int(1), Int(2), Str("3")]), "");
            var expected := Flatten(Nested([Int(1), Int(2), Int(3)]), "");
            && CheckStructure(actual, expected) == Pass
            && CheckTypes(actual, expected) == TypeMismatch(map["a_b_c_2" := (StrType, IntType)])
            && CheckStructureAndTypes(actual, expected) == TypeMismatch(map["a_b_c_2" := (StrType, IntType)])
  {
    NestedFlatShort();
    NestedFlatInts();
    ThirdElementMismatch();
  }

  lemma PathAB()
    ensures Extend("", "a") == "a" && Extend("a", "b") == "a_b" && Extend("", "c") == "c"
  {
  }

  /** `{"a": {"b": items}}` flattens to `items` flattened at `a_b`. */
  lemma TwoLevels(items: seq<Value>)
    ensures Flatten([("a", Mapping([("b", List(items))]))], "") == FlattenItems(items, "a_b", |items|)
  {
    PathAB();
    FlattenSingleton("", "a", Mapping([("b", List(items))]));
    FlattenSingleton("a", "b", List(items));
    assert FlattenValue("a_b", List(items)) == FlattenItems(items, "a_b", |items|);
  }

  /** `{"a": {"b": [0, 1, 2]}}` flattens to `a_b_0` … `a_b_2`, all int. */
  lemma LongListFlat()
    ensures Flatten([("a", Mapping([("b", List([Int(0), Int(1), Int(2)]))]))], "")
            == map["a_b_0" := IntType, "a_b_1" := IntType, "a_b_2" := IntType]
  {
    var long := [Int(0), Int(1), Int(2)];
    TwoLevels(long);
    assert FlattenItems(long, "a_b", 0) == map[];
    ScalarsAt("a_b", long, 1, "a_b_0", IntType);
    ScalarsAt("a_b", long, 2, "a_b_1", IntType);
    ScalarsAt("a_b", long, 3, "a_b_2", IntType);
  }

  /** `{"a": {"b": [0, 1]}}` flattens to `a_b_0` and `a_b_1`, both int. */
  lemma ShortListFlat()
    ensures Flatten([("a", Mapping([("b", List([Int(0), Int(1)]))]))], "")
            == map["a_b_0" := IntType, "a_b_1" := IntType]
  {
    var short := [Int(0), Int(1)];
    TwoLevels(short);
    assert FlattenItems(short, "a_b", 0) == map[];
    ScalarsAt("a_b", short, 1, "a_b_0", IntType);
    ScalarsAt("a_b", short, 2, "a_b_1", IntType);
  }

  /** `{"a": {"b": [0, 1]}, "c": 1}` flattens to `a_b_0`, `a_b_1` and `c`, all int. */
  lemma ShortListAndKeyFlat()
    ensures Flatten([("a", Mapping([("b", List([Int(0), Int(1)]))])), ("c", Int(1))], "")
            == map["a_b_0" := IntType, "a_b_1" := IntType, "c" := IntType]
  {
    var front := [("a", Mapping([("b", List([Int(0), Int(1)]))]))];
    PathAB();
    FlattenAppend(front, "c", Int(1), "");
    assert front + [("c", Int(1))] == [("a", Mapping([("b", List([Int(0), Int(1)]))])), ("c", Int(1))];
    ShortListFlat();
    assert FlattenValue("c", Int(1)) == map["c" := IntType];
  }

  /** `{"a": {"b": [0, 1, 2]}}` against `{"a": {"b": [0, 1]}, "c": 1}`: only the common keys
      are compared, so the type matcher passes. */
  lemma UnsharedKeysIgnored()
    ensures CheckTypes(Flatten([("a", Mapping([("b", List([Int(0), Int(1), Int(2)]))]))], ""),
                       Flatten([("a", Mapping([("b", List([Int(0), Int(1)]))])), ("c", Int(1))], ""))
            == Pass
  {
    LongListFlat();
    ShortListAndKeyFlat();
    var actual := map["a_b_0" := IntType, "a_b_1" := IntType, "a_b_2" := IntType];
    var expected := map["a_b_0" := IntType, "a_b_1" := IntType, "c" := IntType];
    AgreementGivesEqualTags(actual, expected);
  }
}
