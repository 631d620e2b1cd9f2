# stop-the-vcr body matchers in Dafny

stop-the-vcr adds three request matchers to a recording HTTP test library:
`body_structure`, `body_types` and `body_structure_and_types`. Each decodes the bodies of
the actual request and of the recorded (expected) request. It flattens each body into a map
from a path key (`a_b_0`) to the type of the scalar found there. Then it compares the two
flat maps:

- the structure matcher compares their key sets;
- the types matcher compares the types at the keys both maps have;
- the combined matcher runs the structure check first and the type check only if that passed.

A failed check raises `AssertionError` with a report. Here a failure is an `Outcome` value
that carries the report's data.

The repository holds two copies of the matchers:

- `stop_the_vcr/matchers.py`, the packaged copy. It is modelled in `PackageMatchers`.
- `matchers.py`, the copy the tests import. It is modelled in `RootMatchers`.

Both copies have the same flattener, modelled once in `Flattener`. Differences between them:

- The root copy reports the extra keys as a set; the packaged copy sorts them.
- The root copy compares the *sets* of types over the common keys; the packaged copy
  compares key by key.
- The root copy catches a `KeyError` while building the type report; the packaged copy
  builds it over the sorted common keys.

Modules:

- `Payload`: the decoded body (`Value`, `Body`), leaf types (`TypeTag`) and the flat map.
- `KeyOrder`: Python's `<` on strings and `sorted` of a set of keys.
- `Flattener`: the flattener as a recursive method with loops, proved equal to a fold
  (`Flatten`), plus facts about what single entries, lists and empty containers contribute.
- `FlattenSemantics`: an independent description of the flat map. List the scalar leaves
  depth first, join each path with `_`, and build a dict from the pairs (last one wins).
- `PackageMatchers`, `RootMatchers`: the checks, the report builders and the entry points.
  The report builders are methods with loops, proved against specification functions.
- `MatcherExamples`: the cases of `test_matchers.py`, stated as lemmas about the root copy,
  and one case about the packaged copy.

Modelling choices:

- A mapping is the sequence of its items in iteration order, and the flat map is a Dafny
  `map`. Python's `flat_data.extend(...)` followed by `dict(flat_data)` keeps the last pair
  of each key, which is the right-biased union `+`.
- A falsy `parent_key` (`None`, `False` or `""`) adds no prefix. All three are the empty
  string here.
- Where the two copies' flatteners differ (`dict` against `MutableMapping`, `None` against
  `False` as the default parent), their behaviour is the same on decoded bodies.
- Flat keys are not unique: a key containing `_` can collide with a nested path, as
  `{"a_b": 1, "a": {"b": "x"}}` does on `a_b`, and the later leaf wins
  (`Flattener.SeparatorCollision`).
- Only the packaged copy compares types key by key; see Findings.

## Model

| member | source | states |
|---|---|---|
| Flattener.FlattenAndStoreValueType | stop_the_vcr/matchers.py:56-70 | The loop over the items (recursing on mappings, on each list element as `{str(k): v}`, recording scalars) returns exactly the fold `Flatten(data, parentKey)`. The root copy's flattener, matchers.py lines 55-69, is the same loop |
| Flattener.NatToString | stop_the_vcr/matchers.py:63-66 | `str(k)` for a list index is non-empty, and is one character exactly when the index is below 10 |
| Flattener.NatToStringInjective | stop_the_vcr/matchers.py:63-66 | Different list indices give different segments |
| Flattener.ExtendInjective | stop_the_vcr/matchers.py:60 | `Extend`, the `new_key` of line 60, is injective in the child key: under one parent, distinct child keys give distinct path keys |
| Flattener.IndexKeysDistinct | stop_the_vcr/matchers.py:60-66 | The path keys `q_i` and `q_j` of two list elements differ when `i != j` |
| Flattener.FlattenSingleton | stop_the_vcr/matchers.py:63-66 | A one-entry dict `{key: v}` flattened under a parent is `v` flattened at the child path |
| Flattener.FlattenAppend | stop_the_vcr/matchers.py:58-70 | One more item adds its own entries, overriding earlier entries with the same key |
| Flattener.EmptyContainersVanish | stop_the_vcr/matchers.py:59-67 | An empty dict or an empty list contributes no entry |
| Flattener.ScalarEntry | stop_the_vcr/matchers.py:60-69 | A scalar under key `k` yields exactly `{p_k: type}` with a truthy parent `p`, and `{k: type}` without one |
| Flattener.ScalarItems | stop_the_vcr/matchers.py:63-67 | A list of scalars at `q` yields exactly the keys `q_0` … `q_{n-1}`, each mapped to its element's type |
| Flattener.ScalarList | stop_the_vcr/matchers.py:59-67 | A list of scalars under key `k` yields one entry per element, at `parent_k_i`, with that element's type |
| Flattener.SeparatorCollision | stop_the_vcr/matchers.py:58-70 | `{"a_b": 1, "a": {"b": "x"}}` flattens to the single entry `a_b: str`, so the later leaf wins |
| Flattener.EmptyKeyDropsPrefix | stop_the_vcr/matchers.py:60 | For every mapping `m`, the top-level body `{"": m}` flattens exactly as `m` does: the falsy empty key adds no prefix |
| Flattener.EmptyKeyExample | stop_the_vcr/matchers.py:60 | `{"": {"x": None}}` flattens to `{"x": NoneType}` |
| FlattenSemantics.ToMapKeys | stop_the_vcr/matchers.py:70 | `dict(pairs)` has exactly the keys that occur in the pairs |
| FlattenSemantics.ToMapLastWins | stop_the_vcr/matchers.py:70 | `dict(pairs)` maps each key to the value of its last pair |
| FlattenSemantics.FlattenIsDictOfLeaves | stop_the_vcr/matchers.py:58-70 | The flat map equals `dict` of the depth-first list of (joined path, type) pairs of the body's scalar leaves |
| FlattenSemantics.LeavesSound | stop_the_vcr/matchers.py:58-69 | Every listed leaf path leads to a scalar of the listed type in the body |
| FlattenSemantics.LeavesComplete | stop_the_vcr/matchers.py:58-69 | Every scalar of the body is listed with its path and type |
| FlattenSemantics.LeavesAreScalars | stop_the_vcr/matchers.py:58-69 | The leaf list holds exactly the body's scalars with their paths, in both directions |
| FlattenSemantics.FlattenKeys | stop_the_vcr/matchers.py:58-70 | A key is in the flat map exactly when it is the joined path of some scalar leaf |
| FlattenSemantics.FlattenLastWins | stop_the_vcr/matchers.py:58-70 | Each flat key holds the type of the last leaf in depth-first order whose path joins to it |
| KeyOrder.SortedSeqOf | stop_the_vcr/matchers.py:91-92 | `sorted(set)` is strictly increasing in Python string order and holds exactly the set's elements |
| PackageMatchers.StructureDiff | stop_the_vcr/matchers.py:90-93 | The structure report is sorted and holds exactly the keys of actual missing from expected |
| PackageMatchers.CheckStructure | stop_the_vcr/matchers.py:96-101 | Passes iff the key sets are equal. Types are never reported. The report is empty iff actual's keys are a proper subset of expected's |
| PackageMatchers.MismatchesSound | stop_the_vcr/matchers.py:107-113 | Scanning keys in a given order, each report line is about a scanned key and shows its two types, and the lines name exactly the scanned keys whose types differ |
| PackageMatchers.MismatchesSorted | stop_the_vcr/matchers.py:105-113 | Scanning the keys in sorted order gives report lines in strictly increasing key order |
| PackageMatchers.TypeReport | stop_the_vcr/matchers.py:104-113 | The type report lists, in sorted key order, exactly the keys whose types differ, with both types |
| PackageMatchers.FriendlyBodyTypesMessage | stop_the_vcr/matchers.py:104-113 | The loop over the sorted items returns exactly `TypeReport` |
| PackageMatchers.CheckTypes | stop_the_vcr/matchers.py:116-125 | Passes iff the types agree at every common key. On failure the report is non-empty, sorted, and names exactly the common keys whose types differ |
| PackageMatchers.Restrict | stop_the_vcr/matchers.py:118-119 | The comprehension `{i: m[i] for i in common_keys}` has exactly the common keys, each with the type `m` gives it |
| PackageMatchers.RestrictionsEqualIff | stop_the_vcr/matchers.py:117-122 | `Restrict` applied to both maps: the two maps restricted to their common keys are equal iff the types agree at every common key |
| PackageMatchers.ReportOnCommonKeys | stop_the_vcr/matchers.py:117-124 | The report built from the two restrictions names exactly the common keys whose types differ, each line with both types |
| PackageMatchers.AssertBodyTypes | stop_the_vcr/matchers.py:116-125 | The restriction to common keys followed by the message loop gives `CheckTypes` |
| PackageMatchers.CheckStructureAndTypes | stop_the_vcr/matchers.py:51-53 | The structure result when the key sets differ, the type result otherwise. Passes iff the flat maps are equal |
| PackageMatchers.BodyStructure | stop_the_vcr/matchers.py:13-23 | Flattens both bodies with no prefix, then gives the structure check's result |
| PackageMatchers.BodyTypes | stop_the_vcr/matchers.py:26-37 | Flattens both bodies with no prefix, then gives the type check's result |
| PackageMatchers.BodyStructureAndTypes | stop_the_vcr/matchers.py:40-53 | Flattens both bodies, checks structure, and checks types only if structure passed |
| PackageMatchers.MatchesItself | stop_the_vcr/matchers.py:96-125 | Every body passes all three checks against itself |
| PackageMatchers.TypesIgnoreUnsharedKeys | stop_the_vcr/matchers.py:117-119 | Adding a key the expected map lacks does not change the type check's outcome |
| RootMatchers.CheckStructure | matchers.py:89-94 | Passes iff the key sets are equal. The reported set is exactly actual's keys minus expected's, and is empty iff actual's keys are a proper subset |
| RootMatchers.TypeErrorsOn | matchers.py:97-109 | The report holds exactly the scanned keys that expected has with another type, each with a pair of different tags; it is empty exactly when every scanned key expected has agrees on its type |
| RootMatchers.FriendlyBodyTypesMessage | matchers.py:97-109 | The loop over actual's items, skipping keys missing from expected, reports exactly the keys of actual present in expected with a different type, each with both types |
| RootMatchers.AgreementGivesEqualTags | matchers.py:112-118 | Agreement at every common key makes the two sets of common types equal |
| RootMatchers.CommonTagsEqualIff | matchers.py:113-118 | `CommonTags`, the comprehensions `{r_flat[i] for i in common_keys}` of lines 114-115: the two sets of common types are equal iff each map has every type of the other at some common key |
| RootMatchers.DifferingTagsGiveMismatch | matchers.py:117-121 | Unequal sets of common types imply a common key with different types, so the report is non-empty |
| RootMatchers.CheckTypes | matchers.py:112-121 | Passes iff every common type in either map occurs at some common key of the other. Per-key agreement implies a pass. On failure the report is non-empty and is the message's map |
| RootMatchers.AssertBodyTypes | matchers.py:112-121 | The set comprehensions followed by the message loop give `CheckTypes` |
| RootMatchers.CheckStructureAndTypes | matchers.py:50-52 | The structure result when the key sets differ, the type result otherwise. Equal maps pass |
| RootMatchers.BodyStructure | matchers.py:12-22 | Flattens both bodies with no prefix, then gives the structure check's result |
| RootMatchers.BodyTypes | matchers.py:25-36 | Flattens both bodies with no prefix, then gives the type check's result |
| RootMatchers.BodyStructureAndTypes | matchers.py:39-52 | Flattens both bodies, checks structure, and checks types only if structure passed |
| RootMatchers.MatchesItself | matchers.py:89-121 | Every body passes all three checks against itself |
| RootMatchers.TypesIgnoreUnsharedKeys | matchers.py:113-115 | Adding a key the expected map lacks does not change the type check's outcome or report |
| RootMatchers.StructureChecksAgree | matchers.py:89-94 | The root and packaged structure checks pass together and report the same keys |
| RootMatchers.TypeCheckIsWeaker | matchers.py:112-121 | A pass of the packaged type check is a pass of the root one. When the root check fails, both reports name the same keys |
| RootMatchers.SwappedTypesPass | matchers.py:114-118 | `{"a": 1, "b": "x"}` against `{"a": "x", "b": 1}` passes the root combined matcher and fails the packaged one on types |
| MatcherExamples.DifferentKeyReported | test_matchers.py:42-46 | `{"a": 1}` against `{"b": 1}` fails on structure with `{'a'}`, also in the combined matcher |
| MatcherExamples.ExtraListElementReported | test_matchers.py:47-51 | An extra fourth list element is reported as `{'a_b_c_3'}` by the structure and combined matchers |
| MatcherExamples.ChangedTypeReported | test_matchers.py:71-75 | `{"a": 1}` against `{"a": "1"}` passes on structure. The type and combined matchers report `a` as int against str |
| MatcherExamples.ChangedListElementReported | test_matchers.py:76-80 | `[1, 2, "3"]` against `[1, 2, 3]` is reported at `a_b_c_2` as str against int |
| MatcherExamples.UnsharedKeysIgnored | test_matchers.py:81 | `{"a": {"b": [0, 1, 2]}}` against `{"a": {"b": [0, 1]}, "c": 1}` passes the type matcher |
| MatcherExamples.ChangedTypeReportedByPackage | stop_the_vcr/matchers.py:104-125 | In the packaged copy, `{"a": 1}` against `{"a": "1"}` gives the single report line for `a`, int against str |

## Left out

- Reading and decoding the request (`_prepare_data`, `_get_flat_request_dict`, the recording
  library's `_get_transformer` and `read_body`). They are calls into the recording library,
  and the decoded body is an input here.
- The message text. Python renders types with `repr` (`<class 'int'>`) and sets and dicts in
  its own format. Each failure carries the data of its message instead.
- RootMatchers.FriendlyBodyTypesMessage: the result is a map, so the insertion order of the
  root copy's report dict is not modelled. That order follows the flat map's own iteration
  order, which this model does not track.
- Flat maps are Dafny maps without an iteration order. Only the order of the decoded body's
  items is modelled, which is all that decides which colliding pair wins.
- Runtime types other than the five JSON scalar types (int, float, str, bool, None). Floats
  are carried as `real`, but only their type is ever used.
- `isinstance(value, dict)` against `isinstance(value, MutableMapping)`: both mean "is a
  mapping" for a decoded body.
- A decoded body whose top level is not a mapping: a JSON array such as `[1, 2]`, a JSON
  scalar, or the raw bytes left undecoded. `Body` is a mapping, so such a body cannot be
  given to the model. In both copies the flattener calls `data.items()` on it
  (stop_the_vcr/matchers.py line 59, matchers.py line 58), which raises `AttributeError`:
  neither a pass nor an `AssertionError`, and the model has no outcome for that crash.
- A Python dict cannot hold one key twice, but a `Body` sequence can. The model then treats
  the items in order, just as iterating over such a sequence would.

## Findings

| source | as written | input that shows it | evidently intended | confidence | as-written member | corrected member |
|---|---|---|---|---|---|---|
| matchers.py:113-118 | the types matcher compares the set of types over the common keys in actual with the set in expected | `{"a": 1, "b": "x"}` against `{"a": "x", "b": 1}`: both sets are `{int, str}`, so the check passes although both fields changed type | the types must agree key by key, as the packaged copy's `_assert_body_types` checks | not executed | RootMatchers.SwappedTypesPass | PackageMatchers.CheckTypes |
