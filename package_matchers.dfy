/** The matchers of the packaged copy, stop_the_vcr/matchers.py: two decoded bodies are
    flattened and their flat maps compared by key set (structure) and by the type at every
    key both have (types). An `AssertionError` is an `Outcome` other than `Pass`. */
module PackageMatchers {
  import opened Payload
  import opened KeyOrder
  import opened Flattener

  /** One line of the type report: "Actual type: ... & expected type: ..." for `key`. */
  datatype FieldError = FieldError(key: string, actualType: TypeTag, expectedType: TypeTag)

  /** Result of an assertion: success, or the failure and the data its message shows. */
  datatype Outcome =
    | Pass
    | StructureMismatch(extra: seq<string>)
    | TypeMismatch(errors: seq<FieldError>)

  function ErrorKeys(errors: seq<FieldError>): seq<string>
  {
    seq(|errors|, i requires 0 <= i < |errors| => errors[i].key)
  }

  lemma ErrorKeysConcat(a: seq<FieldError>, b: seq<FieldError>)
    ensures ErrorKeys(a + b) == ErrorKeys(a) + ErrorKeys(b)
  {
  }

  // ---- structure ----

  /** `_friendly_body_structure_assertion_message`: the keys of `actual` missing from
      `expected`, sorted. Keys of `expected` missing from `actual` are not listed. */
  function StructureDiff(actual: FlatTypeMap, expected: FlatTypeMap): (r: seq<string>)
    ensures Sorted(r)
    ensures forall k :: k in r <==> k in actual && k !in expected
    ensures |r| == |actual.Keys - expected.Keys|
  {
    SortedSeqOf(actual.Keys - expected.Keys)
  }

  /** `_assert_body_structure`: the key sets must be equal; leaf types play no part. */
  function CheckStructure(actual: FlatTypeMap, expected: FlatTypeMap): (r: Outcome)
    ensures r.Pass? <==> actual.Keys == expected.Keys
    ensures !r.TypeMismatch?
    ensures r.StructureMismatch? ==> r.extra == StructureDiff(actual, expected)
    ensures r.StructureMismatch? ==> (r.extra == [] <==> actual.Keys < expected.Keys)
  {
    if actual.Keys == expected.Keys then Pass
    else StructureMismatch(StructureDiff(actual, expected))
  }

  // ---- types ----

  /** The report lines for the first `n` keys of `ks`, in the order of `ks`, for the keys
      whose types differ. */
  function Mismatches(ks: seq<string>, n: nat, actual: FlatTypeMap, expected: FlatTypeMap): seq<FieldError>
    requires n <= |ks|
    requires forall i :: 0 <= i < |ks| ==> ks[i] in actual && ks[i] in expected
  {
    if n == 0 then []
    else
      var k := ks[n - 1];
      Mismatches(ks, n - 1, actual, expected)
      + if actual[k] != expected[k] then [FieldError(k, actual[k], expected[k])] else []
  }

  /** Each line of the report is about one of the scanned keys and shows its two types, and
      the report names exactly the scanned keys whose types differ. */
  lemma {:induction false} MismatchesSound(ks: seq<string>, n: nat, actual: FlatTypeMap, expected: FlatTypeMap)
    requires n <= |ks|
    requires forall i :: 0 <= i < |ks| ==> ks[i] in actual && ks[i] in expected
    ensures forall e: FieldError :: e in Mismatches(ks, n, actual, expected) ==>
              e.key in ks[..n] && e == FieldError(e.key, actual[e.key], expected[e.key])
    ensures forall k :: k in ErrorKeys(Mismatches(ks, n, actual, expected)) <==> k in ks[..n] && actual[k] != expected[k]
  {
    if n > 0 {
      MismatchesSound(ks, n - 1, actual, expected);
      var k := ks[n - 1];
      var front := Mismatches(ks, n - 1, actual, expected);
      var step := if actual[k] != expected[k] then [FieldError(k, actual[k], expected[k])] else [];
      assert ks[..n] == ks[..n - 1] + [k];
      ErrorKeysConcat(front, step);
      assert ErrorKeys(step) == if step == [] then [] else [k];
      forall x ensures x in ErrorKeys(front + step) <==> x in ks[..n] && actual[x] != expected[x] {
        assert x in ks[..n] <==> x in ks[..n - 1] || x == k;
      }
      forall e: FieldError | e in front + step
        ensures e.key in ks[..n] && e == FieldError(e.key, actual[e.key], expected[e.key])
      {
        if e in front {
          assert e.key in ks[..n - 1];
        }
      }
    }
  }

  /** One more key scanned: its line, if any, goes at the end. */
  lemma MismatchesStep(ks: seq<string>, n: nat, actual: FlatTypeMap, expected: FlatTypeMap)
    requires 0 < n <= |ks|
    requires forall i :: 0 <= i < |ks| ==> ks[i] in actual && ks[i] in expected
    ensures var k := ks[n - 1];
            Mismatches(ks, n, actual, expected)
            == Mismatches(ks, n - 1, actual, expected)
               + if actual[k] != expected[k] then [FieldError(k, actual[k], expected[k])] else []
  {
  }

  /** In a sorted scan, every line so far is about a key below the next key. */
  lemma MismatchKeysBelow(ks: seq<string>, n: nat, actual: FlatTypeMap, expected: FlatTypeMap)
    requires n < |ks|
    requires forall i :: 0 <= i < |ks| ==> ks[i] in actual && ks[i] in expected
    requires Sorted(ks)
    ensures forall i :: 0 <= i < |ErrorKeys(Mismatches(ks, n, actual, expected))| ==>
              Less(ErrorKeys(Mismatches(ks, n, actual, expected))[i], ks[n])
  {
    var before := Mismatches(ks, n, actual, expected);
    MismatchesSound(ks, n, actual, expected);
    forall i | 0 <= i < |ErrorKeys(before)| ensures Less(ErrorKeys(before)[i], ks[n]) {
      assert before[i] in before;
      var j :| 0 <= j < n && ks[..n][j] == before[i].key;
      assert Less(ks[j], ks[n]);
    }
  }

  /** Scanning the keys in sorted order gives the lines in sorted order. */
  lemma {:induction false} MismatchesSorted(ks: seq<string>, n: nat, actual: FlatTypeMap, expected: FlatTypeMap)
    requires n <= |ks|
    requires forall i :: 0 <= i < |ks| ==> ks[i] in actual && ks[i] in expected
    requires Sorted(ks)
    ensures Sorted(ErrorKeys(Mismatches(ks, n, actual, expected)))
  {
    if n > 0 {
      MismatchesSorted(ks, n - 1, actual, expected);
      MismatchesStep(ks, n, actual, expected);
      var k := ks[n - 1];
      var before := Mismatches(ks, n - 1, actual, expected);
      if actual[k] != expected[k] {
        var line := FieldError(k, actual[k], expected[k]);
        ErrorKeysConcat(before, [line]);
        MismatchKeysBelow(ks, n - 1, actual, expected);
        SortedAppend(ErrorKeys(before), k);
      } else {
        assert before + [] == before;
      }
    }
  }

  /** What `_friendly_body_types_assertion_message` reports: the keys of `actual` in sorted
      order whose type differs from the one in `expected`. */
  function TypeReport(actual: FlatTypeMap, expected: FlatTypeMap): (r: seq<FieldError>)
    requires actual.Keys <= expected.Keys
    ensures Sorted(ErrorKeys(r))
    ensures forall k :: k in ErrorKeys(r) <==> k in actual && actual[k] != expected[k]
    ensures forall i :: 0 <= i < |r| ==>
              r[i].key in actual && r[i] == FieldError(r[i].key, actual[r[i].key], expected[r[i].key])
  {
    var keys := SortedSeqOf(actual.Keys);
    SortedKeysInBoth(actual, expected);
    assert keys[..|keys|] == keys;
    MismatchesSound(keys, |keys|, actual, expected);
    MismatchesSorted(keys, |keys|, actual, expected);
    Mismatches(keys, |keys|, actual, expected)
  }

  lemma SortedKeysInBoth(actual: FlatTypeMap, expected: FlatTypeMap)
    requires actual.Keys <= expected.Keys
    ensures var keys := SortedSeqOf(actual.Keys);
            forall i :: 0 <= i < |keys| ==> keys[i] in actual && keys[i] in expected
  {
  }

  /** `_friendly_body_types_assertion_message`: walk the items of `actual` in sorted key
      order and fill `field_errors` with each key whose type differs. The keys are distinct,
      so setting `field_errors[key]` appends a line. A key of `actual` missing from `expected`
      would raise `KeyError`; the one caller passes two maps with the same keys. */
  method FriendlyBodyTypesMessage(actual: FlatTypeMap, expected: FlatTypeMap)
    returns (fieldErrors: seq<FieldError>)
    requires actual.Keys <= expected.Keys
    ensures fieldErrors == TypeReport(actual, expected)
  {
    var keys := SortedSeqOf(actual.Keys);
    SortedKeysInBoth(actual, expected);
    fieldErrors := [];
    var i := 0;
    while i < |keys|
      invariant 0 <= i <= |keys|
      invariant fieldErrors == Mismatches(keys, i, actual, expected)
    {
      var key := keys[i];
      var actualType := actual[key];
      var expectedType := expected[key];
      if actualType != expectedType {
        fieldErrors := fieldErrors + [FieldError(key, actualType, expectedType)];
      }
      i := i + 1;
    }
    assert i == |keys|;
  }

  /** `{i: m[i] for i in common_keys}`. */
  function Restrict(m: FlatTypeMap, common: set<string>): (r: FlatTypeMap)
    requires common <= m.Keys
    ensures r.Keys == common
    ensures forall k :: k in common ==> r[k] == m[k]
  {
    map i | i in common :: m[i]
  }

  /** The restrictions to the common keys are equal iff the types agree at every common key. */
  lemma RestrictionsEqualIff(actual: FlatTypeMap, expected: FlatTypeMap)
    ensures var common := actual.Keys * expected.Keys;
            Restrict(actual, common) == Restrict(expected, common)
            <==> forall k :: k in actual && k in expected ==> actual[k] == expected[k]
  {
    var common := actual.Keys * expected.Keys;
    var a, e := Restrict(actual, common), Restrict(expected, common);
    if forall k :: k in actual && k in expected ==> actual[k] == expected[k] {
      assert forall k :: k in a <==> k in e;
      assert forall k :: k in a ==> a[k] == e[k];
    }
  }

  /** The report over the restrictions, told in terms of the unrestricted maps. */
  lemma ReportOnCommonKeys(actual: FlatTypeMap, expected: FlatTypeMap)
    ensures var common := actual.Keys * expected.Keys;
            var report := TypeReport(Restrict(actual, common), Restrict(expected, common));
            && (forall k :: k in ErrorKeys(report) <==> k in actual && k in expected && actual[k] != expected[k])
            && (forall i :: 0 <= i < |report| ==>
                  var key := report[i].key;
                  key in actual && key in expected && report[i] == FieldError(key, actual[key], expected[key]))
  {
  }

  /** `_assert_body_types`: restrict both maps to their common keys and compare the
      restrictions. */
  function CheckTypes(actual: FlatTypeMap, expected: FlatTypeMap): (r: Outcome)
    ensures r.Pass? <==> forall k :: k in actual && k in expected ==> actual[k] == expected[k]
    ensures !r.StructureMismatch?
    ensures r.TypeMismatch? ==> |r.errors| > 0 && Sorted(ErrorKeys(r.errors))
    ensures r.TypeMismatch? ==>
              forall k :: k in ErrorKeys(r.errors) <==> k in actual && k in expected && actual[k] != expected[k]
    ensures r.TypeMismatch? ==>
              forall i :: 0 <= i < |r.errors| ==>
                var key := r.errors[i].key;
                key in actual && key in expected && r.errors[i] == FieldError(key, actual[key], expected[key])
  {
    var common := actual.Keys * expected.Keys;
    var a := Restrict(actual, common);
    var e := Restrict(expected, common);
    RestrictionsEqualIff(actual, expected);
    if a == e then Pass
    else
      var report := TypeReport(a, e);
      ReportOnCommonKeys(actual, expected);
      assert |report| > 0 by {
        var k :| k in common && actual[k] != expected[k];
        assert k in ErrorKeys(report);
      }
      TypeMismatch(report)
  }

  /** The check as `_assert_body_types` runs it, with the report built by the loop above. */
  method AssertBodyTypes(r1Flat: FlatTypeMap, r2Flat: FlatTypeMap) returns (out: Outcome)
    ensures out == CheckTypes(r1Flat, r2Flat)
  {
    var commonKeys := r1Flat.Keys * r2Flat.Keys;
    var actual := Restrict(r1Flat, commonKeys);
    var expected := Restrict(r2Flat, commonKeys);
    if actual == expected {
      out := Pass;
    } else {
      var fieldErrors := FriendlyBodyTypesMessage(actual, expected);
      out := TypeMismatch(fieldErrors);
    }
  }

  // ---- both ----

  /** `body_structure_and_types`: the structure assertion first; the types only if it passed. */
  function CheckStructureAndTypes(actual: FlatTypeMap, expected: FlatTypeMap): (r: Outcome)
    ensures actual.Keys != expected.Keys ==> r == CheckStructure(actual, expected)
    ensures actual.Keys == expected.Keys ==> r == CheckTypes(actual, expected)
    ensures r.Pass? <==> actual == expected
  {
    var structure := CheckStructure(actual, expected);
    if !structure.Pass? then structure else CheckTypes(actual, expected)
  }

  // ---- the public matchers, on decoded bodies ----

  method BodyStructure(actual: Body, expected: Body) returns (out: Outcome)
    ensures out == CheckStructure(Flatten(actual, ""), Flatten(expected, ""))
  {
    var r1Flat := FlattenAndStoreValueType(actual, "");
    var r2Flat := FlattenAndStoreValueType(expected, "");
    out := CheckStructure(r1Flat, r2Flat);
  }

  method BodyTypes(actual: Body, expected: Body) returns (out: Outcome)
    ensures out == CheckTypes(Flatten(actual, ""), Flatten(expected, ""))
  {
    var r1Flat := FlattenAndStoreValueType(actual, "");
    var r2Flat := FlattenAndStoreValueType(expected, "");
    out := AssertBodyTypes(r1Flat, r2Flat);
  }

  method BodyStructureAndTypes(actual: Body, expected: Body) returns (out: Outcome)
    ensures out == CheckStructureAndTypes(Flatten(actual, ""), Flatten(expected, ""))
  {
    var r1Flat := FlattenAndStoreValueType(actual, "");
    var r2Flat := FlattenAndStoreValueType(expected, "");
    out := CheckStructure(r1Flat, r2Flat);
    if out.Pass? {
      out := AssertBodyTypes(r1Flat, r2Flat);
    }
  }

  // ---- properties ----

  /** Every body matches itself under all three matchers. */
  lemma MatchesItself(body: Body)
    ensures var flat := Flatten(body, "");
            && CheckStructure(flat, flat) == Pass
            && CheckTypes(flat, flat) == Pass
            && CheckStructureAndTypes(flat, flat) == Pass
  {
  }

  /** Keys present in only one of the maps never fail the type check: adding such keys
      changes nothing. */
  lemma TypesIgnoreUnsharedKeys(actual: FlatTypeMap, expected: FlatTypeMap, k: string, t: TypeTag)
    requires k !in expected
    ensures CheckTypes(actual[k := t], expected) == CheckTypes(actual - {k}, expected)
  {
    var with, without := actual[k := t], actual - {k};
    var common := with.Keys * expected.Keys;
    assert common == without.Keys * expected.Keys;
    assert (map i | i in common :: with[i]) == (map i | i in common :: without[i]);
  }
}
