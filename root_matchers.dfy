/** The matchers of the root copy, matchers.py. The flattener and the structure check are
    those of the packaged copy; the report of the structure check is a set, the type check
    compares the SETS of types over the common keys, and the type report is built over the
    whole flat maps, skipping keys the expected map lacks. */
module RootMatchers {
  import opened Payload
  import opened Flattener
  import PackageMatchers

  /** Result of an assertion: success, or the failure and the data its message shows. The
      type report maps each offending key to (actual type, expected type). */
  datatype Outcome =
    | Pass
    | StructureMismatch(extra: set<string>)
    | TypeMismatch(fieldErrors: map<string, (TypeTag, TypeTag)>)

  // ---- structure ----

  /** `_assert_body_structure`: the key sets must be equal; the message shows the set of keys
      of `actual` that `expected` lacks. */
  function CheckStructure(actual: FlatTypeMap, expected: FlatTypeMap): (r: Outcome)
    ensures r.Pass? <==> actual.Keys == expected.Keys
    ensures !r.TypeMismatch?
    ensures r.StructureMismatch? ==> forall k :: k in r.extra <==> k in actual && k !in expected
    ensures r.StructureMismatch? ==> (r.extra == {} <==> actual.Keys < expected.Keys)
  {
    if actual.Keys == expected.Keys then Pass
    else StructureMismatch(actual.Keys - expected.Keys)
  }

  // ---- types ----

  /** `{m[i] for i in common_keys}`: the set of types `m` has at the keys both maps have. */
  function CommonTags(m: FlatTypeMap, other: FlatTypeMap): set<TypeTag>
  {
    set k | k in m && k in other :: m[k]
  }

  /** Among the keys of `ks`, those present in `expected` with a type other than the one in
      `actual`, with both types. */
  function TypeErrorsOn(ks: set<string>, actual: FlatTypeMap, expected: FlatTypeMap): (r: map<string, (TypeTag, TypeTag)>)
    requires ks <= actual.Keys
    ensures forall k :: k in r <==> k in ks && k in expected && actual[k] != expected[k]
    ensures forall k :: k in r ==> r[k].0 != r[k].1
    ensures r == map[] <==> forall k :: k in ks && k in expected ==> actual[k] == expected[k]
  {
    map k | k in ks && k in expected && actual[k] != expected[k] :: (actual[k], expected[k])
  }

  /** What `_friendly_body_types_assertion_message` reports. */
  function TypeErrors(actual: FlatTypeMap, expected: FlatTypeMap): map<string, (TypeTag, TypeTag)>
  {
    TypeErrorsOn(actual.Keys, actual, expected)
  }

  /** `_friendly_body_types_assertion_message`: walk the items of `actual`; a key missing
      from `expected` raises `KeyError`, which is caught and skipped; any other key whose
      types differ gets an entry. */
  method FriendlyBodyTypesMessage(actual: FlatTypeMap, expected: FlatTypeMap)
    returns (fieldErrors: map<string, (TypeTag, TypeTag)>)
    ensures forall k :: k in fieldErrors <==> k in actual && k in expected && actual[k] != expected[k]
    ensures forall k :: k in fieldErrors ==> fieldErrors[k] == (actual[k], expected[k])
    ensures fieldErrors == TypeErrors(actual, expected)
  {
    fieldErrors := map[];
    var remaining := actual.Keys;
    while remaining != {}
      invariant remaining <= actual.Keys
      invariant fieldErrors == TypeErrorsOn(actual.Keys - remaining, actual, expected)
      decreases remaining
    {
      var key :| key in remaining;
      var actualType := actual[key];
      if key in expected {
        var expectedType := expected[key];
        if actualType != expectedType {
          fieldErrors := fieldErrors[key := (actualType, expectedType)];
        }
      }
      remaining := remaining - {key};
    }
    assert actual.Keys - remaining == actual.Keys;
  }

  /** Agreement at every common key gives equal sets of types. */
  lemma AgreementGivesEqualTags(actual: FlatTypeMap, expected: FlatTypeMap)
    requires forall k :: k in actual && k in expected ==> actual[k] == expected[k]
    ensures CommonTags(actual, expected) == CommonTags(expected, actual)
  {
    forall t | t in CommonTags(actual, expected) ensures t in CommonTags(expected, actual) {
      var k :| k in actual && k in expected && actual[k] == t;
      assert expected[k] == t;
    }
    forall t | t in CommonTags(expected, actual) ensures t in CommonTags(actual, expected) {
      var k :| k in expected && k in actual && expected[k] == t;
      assert actual[k] == t;
    }
  }

  /** Every type `m` has at a common key, `other` has at some common key too. */
  predicate TypesCovered(m: FlatTypeMap, other: FlatTypeMap)
  {
    forall k :: k in m && k in other ==> exists j :: j in m && j in other && other[j] == m[k]
  }

  /** The sets of types over the common keys are equal exactly when each map covers the
      types of the other. */
  lemma CommonTagsEqualIff(actual: FlatTypeMap, expected: FlatTypeMap)
    ensures CommonTags(actual, expected) == CommonTags(expected, actual)
            <==> TypesCovered(actual, expected) && TypesCovered(expected, actual)
  {
    if CommonTags(actual, expected) == CommonTags(expected, actual) {
      forall k | k in actual && k in expected
        ensures exists j :: j in actual && j in expected && expected[j] == actual[k]
      {
        assert actual[k] in CommonTags(expected, actual);
      }
      forall k | k in expected && k in actual
        ensures exists j :: j in expected && j in actual && actual[j] == expected[k]
      {
        assert expected[k] in CommonTags(actual, expected);
      }
    } else if exists t :: t in CommonTags(actual, expected) && t !in CommonTags(expected, actual) {
      var t :| t in CommonTags(actual, expected) && t !in CommonTags(expected, actual);
      var k :| k in actual && k in expected && actual[k] == t;
      assert !exists j :: j in actual && j in expected && expected[j] == actual[k];
    } else {
      var t :| t in CommonTags(expected, actual) && t !in CommonTags(actual, expected);
      var k :| k in expected && k in actual && expected[k] == t;
      assert !exists j :: j in expected && j in actual && actual[j] == expected[k];
    }
  }

  /** Unequal sets of types need a common key whose types differ. */
  lemma DifferingTagsGiveMismatch(actual: FlatTypeMap, expected: FlatTypeMap)
    requires CommonTags(actual, expected) != CommonTags(expected, actual)
    ensures exists k :: k in actual && k in expected && actual[k] != expected[k]
    ensures |TypeErrors(actual, expected)| > 0
  {
    if forall k :: k in actual && k in expected ==> actual[k] == expected[k] {
      AgreementGivesEqualTags(actual, expected);
    } else {
      var k :| k in actual && k in expected && actual[k] != expected[k];
      assert k in TypeErrors(actual, expected);
    }
  }

  /** `_assert_body_types`: the check passes iff every type found at a common key in one map
      is found at some common key in the other. */
  function CheckTypes(actual: FlatTypeMap, expected: FlatTypeMap): (r: Outcome)
    ensures r.Pass? <==> TypesCovered(actual, expected) && TypesCovered(expected, actual)
    ensures (forall k :: k in actual && k in expected ==> actual[k] == expected[k]) ==> r.Pass?
    ensures !r.StructureMismatch?
    ensures r.TypeMismatch? ==> r.fieldErrors == TypeErrors(actual, expected) && |r.fieldErrors| > 0
  {
    CommonTagsEqualIff(actual, expected);
    if CommonTags(actual, expected) == CommonTags(expected, actual) then
      Pass
    else
      DifferingTagsGiveMismatch(actual, expected);
      TypeMismatch(TypeErrors(actual, expected))
  }

  lemma CommonTagsOnCommonKeys(m: FlatTypeMap, other: FlatTypeMap, common: set<string>)
    requires common == m.Keys * other.Keys
    ensures (set i | i in common :: m[i]) == CommonTags(m, other)
  {
  }

  /** The check as `_assert_body_types` runs it, with the report built by the loop above. */
  method AssertBodyTypes(r1Flat: FlatTypeMap, r2Flat: FlatTypeMap) returns (out: Outcome)
    ensures out == CheckTypes(r1Flat, r2Flat)
  {
    var commonKeys := r1Flat.Keys * r2Flat.Keys;
    var actualCommonValues := set i | i in commonKeys :: r1Flat[i];
    var expectedCommonValues := set i | i in commonKeys :: r2Flat[i];
    CommonTagsOnCommonKeys(r1Flat, r2Flat, commonKeys);
    CommonTagsOnCommonKeys(r2Flat, r1Flat, commonKeys);
    if actualCommonValues == expectedCommonValues {
      out := Pass;
    } else {
      var fieldErrors := FriendlyBodyTypesMessage(r1Flat, r2Flat);
      out := TypeMismatch(fieldErrors);
    }
  }

  // ---- both ----

  /** `body_structure_and_types`: the structure assertion first; the types only if it passed. */
  function CheckStructureAndTypes(actual: FlatTypeMap, expected: FlatTypeMap): (r: Outcome)
    ensures actual.Keys != expected.Keys ==> r == CheckStructure(actual, expected)
    ensures actual.Keys == expected.Keys ==> r == CheckTypes(actual, expected)
    ensures actual == expected ==> r.Pass?
  {
    var structure := CheckStructure(actual, expected);
    if !structure.Pass? then structure else CheckTypes(actual, expected)
  }

  // ---- the public matchers, on decoded bodies ----

  method BodyStructure(actual: Body, expected: Body) returns (out: Outcome)
    ensures out == CheckStructure(Flatten(actual, ""), Flatten(expected, ""))
  {
    var r1Flat := FlattenAndStoreValueType(actual, "");
    var r2Flat := FlattenAndStoreValueType(expected, "");
    out := CheckStructure(r1Flat, r2Flat);
  }

  method BodyTypes(actual: Body, expected: Body) returns (out: Outcome)
    ensures out == CheckTypes(Flatten(actual, ""), Flatten(expected, ""))
  {
    var r1Flat := FlattenAndStoreValueType(actual, "");
    var r2Flat := FlattenAndStoreValueType(expected, "");
    out := AssertBodyTypes(r1Flat, r2Flat);
  }

  method BodyStructureAndTypes(actual: Body, expected: Body) returns (out: Outcome)
    ensures out == CheckStructureAndTypes(Flatten(actual, ""), Flatten(expected, ""))
  {
    var r1Flat := FlattenAndStoreValueType(actual, "");
    var r2Flat := FlattenAndStoreValueType(expected, "");
    out := CheckStructure(r1Flat, r2Flat);
    if out.Pass? {
      out := AssertBodyTypes(r1Flat, r2Flat);
    }
  }

  // ---- properties, and how the two copies relate ----

  /** Every body matches itself under all three matchers. */
  lemma MatchesItself(body: Body)
    ensures var flat := Flatten(body, "");
            && CheckStructure(flat, flat) == Pass
            && CheckTypes(flat, flat) == Pass
            && CheckStructureAndTypes(flat, flat) == Pass
  {
  }

  /** A key the expected map lacks never affects the type check. */
  lemma TypesIgnoreUnsharedKeys(actual: FlatTypeMap, expected: FlatTypeMap, k: string, t: TypeTag)
    requires k !in expected
    ensures CheckTypes(actual[k := t], expected) == CheckTypes(actual - {k}, expected)
  {
    var with, without := actual[k := t], actual - {k};
    assert CommonTags(with, expected) == CommonTags(without, expected);
    assert CommonTags(expected, with) == CommonTags(expected, without);
    assert TypeErrors(with, expected) == TypeErrors(without, expected);
  }

  /** The two structure checks agree, and report the same keys. */
  lemma StructureChecksAgree(actual: FlatTypeMap, expected: FlatTypeMap)
    ensures CheckStructure(actual, expected).Pass? == PackageMatchers.CheckStructure(actual, expected).Pass?
    ensures CheckStructure(actual, expected).StructureMismatch? ==>
              forall k :: k in CheckStructure(actual, expected).extra <==>
                            k in PackageMatchers.CheckStructure(actual, expected).extra
  {
  }

  /** Whatever passes the packaged type check passes this one; the reports, where both
      fail, name the same keys. */
  lemma TypeCheckIsWeaker(actual: FlatTypeMap, expected: FlatTypeMap)
    ensures PackageMatchers.CheckTypes(actual, expected).Pass? ==> CheckTypes(actual, expected).Pass?
    ensures CheckTypes(actual, expected).TypeMismatch? ==>
              forall k :: k in CheckTypes(actual, expected).fieldErrors <==>
                            k in PackageMatchers.ErrorKeys(PackageMatchers.CheckTypes(actual, expected).errors)
  {
    if CheckTypes(actual, expected).TypeMismatch? {
      assert !PackageMatchers.CheckTypes(actual, expected).Pass?;
    }
  }

  /** `{"a": 1, "b": "x"}` and `{"a": "x", "b": 1}` flatten to the two swapped type maps. */
  lemma SwappedFlat()
    ensures Flatten([("a", Leaf(IntValue(1))), ("b", Leaf(StrValue("x")))], "") == map["a" := IntType, "b" := StrType]
    ensures Flatten([("a", Leaf(StrValue("x"))), ("b", Leaf(IntValue(1)))], "") == map["a" := StrType, "b" := IntType]
  {
    ScalarEntry("", "a", IntValue(1));
    ScalarEntry("", "a", StrValue("x"));
    FlattenAppend([("a", Leaf(IntValue(1)))], "b", Leaf(StrValue("x")), "");
    FlattenAppend([("a", Leaf(StrValue("x")))], "b", Leaf(IntValue(1)), "");
    assert [("a", Leaf(IntValue(1))), ("b", Leaf(StrValue("x")))] == [("a", Leaf(IntValue(1)))] + [("b", Leaf(StrValue("x")))];
    assert [("a", Leaf(StrValue("x"))), ("b", Leaf(IntValue(1)))] == [("a", Leaf(StrValue("x")))] + [("b", Leaf(IntValue(1)))];
  }

  /** The swapped type maps have the same keys and the same set of common types. */
  lemma SwappedMapsPass()
    ensures CheckStructureAndTypes(map["a" := IntType, "b" := StrType], map["a" := StrType, "b" := IntType]) == Pass
  {
    var actual := map["a" := IntType, "b" := StrType];
    var expected := map["a" := StrType, "b" := IntType];
    assert actual.Keys == expected.Keys;
    assert CommonTags(actual, expected) == {IntType, StrType} by {
      assert actual["a"] == IntType && actual["b"] == StrType;
    }
    assert CommonTags(expected, actual) == {IntType, StrType} by {
      assert expected["a"] == StrType && expected["b"] == IntType;
    }
  }

  /** The packaged copy compares key by key and rejects the swap at `a`. */
  lemma SwappedMapsFailPackage()
    ensures PackageMatchers.CheckStructureAndTypes(map["a" := IntType, "b" := StrType], map["a" := StrType, "b" := IntType]).TypeMismatch?
  {
    var actual := map["a" := IntType, "b" := StrType];
    var expected := map["a" := StrType, "b" := IntType];
    assert actual.Keys == expected.Keys;
    assert actual["a"] != expected["a"];
  }

  /** Two types swapped between two keys pass this check, while the packaged check (and
      the intent of the matcher) rejects them. */
  lemma SwappedTypesPass()
    ensures var actual := Flatten([("a", Leaf(IntValue(1))), ("b", Leaf(StrValue("x")))], "");
            var expected := Flatten([("a", Leaf(StrValue("x"))), ("b", Leaf(IntValue(1)))], "");
            && CheckStructureAndTypes(actual, expected) == Pass
            && PackageMatchers.CheckStructureAndTypes(actual, expected).TypeMismatch?
  {
    SwappedFlat();
    SwappedMapsPass();
    SwappedMapsFailPackage();
  }
}
