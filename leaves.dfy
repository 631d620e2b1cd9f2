/** What the flattener computes, stated without its nested folds: list the scalar leaves of
    the body depth first with their paths, join each path into a key, and build a dict from
    that list of pairs, where a later pair overrides an earlier pair with the same key. */
module FlattenSemantics {
  import opened Payload
  import opened Flattener

  /** A scalar leaf: the path segments leading to it (mapping keys and `str(index)`) and its type. */
  datatype LeafPath = LeafPath(segments: seq<string>, tag: TypeTag)

  /** The leaves of `ls`, one level deeper, under the segment `seg`. */
  function Under(seg: string, ls: seq<LeafPath>): seq<LeafPath>
  {
    seq(|ls|, i requires 0 <= i < |ls| => LeafPath([seg] + ls[i].segments, ls[i].tag))
  }

  /** The scalar leaves of a value, depth first, in iteration order. */
  function Leaves(v: Value): seq<LeafPath>
    decreases v, 1, 0
  {
    match v
    case Mapping(es) => EntriesLeaves(es, |es|)
    case List(items) => ItemsLeaves(items, |items|)
    case Leaf(s) => [LeafPath([], TagOf(s))]
  }

  function EntriesLeaves(es: seq<(string, Value)>, n: nat): seq<LeafPath>
    requires n <= |es|
    decreases Mapping(es), 0, n
  {
    if n == 0 then [] else EntriesLeaves(es, n - 1) + Under(es[n - 1].0, Leaves(es[n - 1].1))
  }

  function ItemsLeaves(items: seq<Value>, n: nat): seq<LeafPath>
    requires n <= |items|
    decreases List(items), 0, n
  {
    if n == 0 then [] else ItemsLeaves(items, n - 1) + Under(NatToString(n - 1), Leaves(items[n - 1]))
  }

  /** The canonical key of a path below `parent`: the segments joined with `_`, where a falsy
      key so far contributes no prefix. */
  function JoinPath(parent: string, segs: seq<string>): string
    decreases |segs|
  {
    if segs == [] then parent else JoinPath(Extend(parent, segs[0]), segs[1..])
  }

  function Keyed(parent: string, ls: seq<LeafPath>): seq<(string, TypeTag)>
  {
    seq(|ls|, i requires 0 <= i < |ls| => (JoinPath(parent, ls[i].segments), ls[i].tag))
  }

  /** `dict(pairs)`: the last pair of each key wins. */
  function ToMap(ps: seq<(string, TypeTag)>): FlatTypeMap
  {
    if ps == [] then map[] else ToMap(ps[..|ps| - 1])[ps[|ps| - 1].0 := ps[|ps| - 1].1]
  }

  /** `v` has a scalar leaf of type `tag` at path `segs`. */
  ghost predicate Reaches(v: Value, segs: seq<string>, tag: TypeTag)
    decreases |segs|
  {
    if segs == [] then v.Leaf? && TagOf(v.scalar) == tag
    else match v
      case Leaf(_) => false
      case Mapping(es) =>
        exists j :: 0 <= j < |es| && es[j].0 == segs[0] && Reaches(es[j].1, segs[1..], tag)
      case List(items) =>
        exists j :: 0 <= j < |items| && NatToString(j) == segs[0] && Reaches(items[j], segs[1..], tag)
  }

  // ---- dict(pairs) ----

  lemma {:induction false} ToMapConcat(a: seq<(string, TypeTag)>, b: seq<(string, TypeTag)>)
    ensures ToMap(a + b) == ToMap(a) + ToMap(b)
    decreases |b|
  {
    if b != [] {
      var b' := b[..|b| - 1];
      assert (a + b)[..|a + b| - 1] == a + b';
      ToMapConcat(a, b');
    } else {
      assert a + b == a;
    }
  }

  lemma {:induction false} ToMapKeys(ps: seq<(string, TypeTag)>)
    ensures forall k :: k in ToMap(ps) <==> exists i :: 0 <= i < |ps| && ps[i].0 == k
    decreases |ps|
  {
    if ps != [] {
      var front := ps[..|ps| - 1];
      assert ToMap(ps) == ToMap(front)[ps[|ps| - 1].0 := ps[|ps| - 1].1];
      ToMapKeys(front);
      forall k | k in ToMap(ps) ensures exists i :: 0 <= i < |ps| && ps[i].0 == k {
        if k != ps[|ps| - 1].0 {
          var i :| 0 <= i < |front| && front[i].0 == k;
          assert ps[i].0 == k;
        }
      }
      forall k | exists i :: 0 <= i < |ps| && ps[i].0 == k ensures k in ToMap(ps) {
        var i :| 0 <= i < |ps| && ps[i].0 == k;
        if i < |front| {
          assert front[i].0 == k;
        }
      }
    }
  }

  lemma {:induction false} ToMapLastWins(ps: seq<(string, TypeTag)>, k: string)
    requires k in ToMap(ps)
    ensures exists i :: 0 <= i < |ps| && ps[i].0 == k && ToMap(ps)[k] == ps[i].1
                        && forall j :: i < j < |ps| ==> ps[j].0 != k
    decreases |ps|
  {
    var last := |ps| - 1;
    if ps[last].0 != k {
      var front := ps[..last];
      ToMapLastWins(front, k);
      var i :| 0 <= i < |front| && front[i].0 == k && ToMap(front)[k] == front[i].1
               && forall j :: i < j < |front| ==> front[j].0 != k;
      assert forall j :: i < j < |ps| ==> ps[j].0 != k by {
        forall j | i < j < |ps| ensures ps[j].0 != k {
          if j < last {
            assert ps[j] == front[j];
          }
        }
      }
    }
  }

  // ---- keys of paths ----

  lemma KeyedConcat(parent: string, a: seq<LeafPath>, b: seq<LeafPath>)
    ensures Keyed(parent, a + b) == Keyed(parent, a) + Keyed(parent, b)
  {
  }

  lemma KeyedUnder(parent: string, seg: string, ls: seq<LeafPath>)
    ensures Keyed(parent, Under(seg, ls)) == Keyed(Extend(parent, seg), ls)
  {
    forall i | 0 <= i < |ls|
      ensures JoinPath(parent, [seg] + ls[i].segments) == JoinPath(Extend(parent, seg), ls[i].segments)
    {
      var s := [seg] + ls[i].segments;
      assert s[0] == seg && s[1..] == ls[i].segments;
    }
  }

  // ---- the flattener builds dict(leaf pairs) ----

  lemma {:induction false} FlattenValueIsLastWins(key: string, v: Value)
    ensures FlattenValue(key, v) == ToMap(Keyed(key, Leaves(v)))
    decreases v, 1, 0
  {
    match v
    case Mapping(es) => EntriesLastWinsHolds(es, key, |es|);
    case List(items) => ItemsLastWinsHolds(items, key, |items|);
    case Leaf(s) =>
      var ps := Keyed(key, Leaves(v));
      assert ps == [(key, TagOf(s))];
      assert ps[..0] == [];
  }

  /** The pairs of one more subtree, under segment `seg`, override those before them. */
  lemma KeyedStep(parent: string, front: seq<LeafPath>, seg: string, below: seq<LeafPath>)
    ensures ToMap(Keyed(parent, front + Under(seg, below)))
            == ToMap(Keyed(parent, front)) + ToMap(Keyed(Extend(parent, seg), below))
  {
    KeyedConcat(parent, front, Under(seg, below));
    KeyedUnder(parent, seg, below);
    ToMapConcat(Keyed(parent, front), Keyed(Extend(parent, seg), below));
  }

  lemma EntriesLeavesStep(es: seq<(string, Value)>, parent: string, n: nat)
    requires 0 < n <= |es|
    ensures ToMap(Keyed(parent, EntriesLeaves(es, n)))
            == ToMap(Keyed(parent, EntriesLeaves(es, n - 1))) + ToMap(Keyed(Extend(parent, es[n - 1].0), Leaves(es[n - 1].1)))
  {
    KeyedStep(parent, EntriesLeaves(es, n - 1), es[n - 1].0, Leaves(es[n - 1].1));
  }

  lemma ItemsLeavesStep(items: seq<Value>, key: string, n: nat)
    requires 0 < n <= |items|
    ensures ToMap(Keyed(key, ItemsLeaves(items, n)))
            == ToMap(Keyed(key, ItemsLeaves(items, n - 1))) + ToMap(Keyed(Extend(key, NatToString(n - 1)), Leaves(items[n - 1])))
  {
    KeyedStep(key, ItemsLeaves(items, n - 1), NatToString(n - 1), Leaves(items[n - 1]));
  }

  /** The first `n` entries of a mapping flatten to the dict of their leaf pairs. */
  ghost predicate EntriesLastWins(es: seq<(string, Value)>, parent: string, n: nat)
    requires n <= |es|
  {
    FlattenEntries(es, parent, n) == ToMap(Keyed(parent, EntriesLeaves(es, n)))
  }

  /** The first `n` elements of a list flatten to the dict of their leaf pairs. */
  ghost predicate ItemsLastWins(items: seq<Value>, key: string, n: nat)
    requires n <= |items|
  {
    FlattenItems(items, key, n) == ToMap(Keyed(key, ItemsLeaves(items, n)))
  }

  lemma {:induction false} EntriesLastWinsHolds(es: seq<(string, Value)>, parent: string, n: nat)
    requires n <= |es|
    ensures EntriesLastWins(es, parent, n)
    decreases Mapping(es), 0, n
  {
    if n == 0 {
      assert Keyed(parent, []) == [];
    } else {
      EntriesStep(es, parent, n - 1, FlattenEntries(es, parent, n - 1));
      EntriesLeavesStep(es, parent, n);
      EntriesLastWinsHolds(es, parent, n - 1);
      FlattenValueIsLastWins(Extend(parent, es[n - 1].0), es[n - 1].1);
    }
  }

  lemma {:induction false} ItemsLastWinsHolds(items: seq<Value>, key: string, n: nat)
    requires n <= |items|
    ensures ItemsLastWins(items, key, n)
    decreases List(items), 0, n
  {
    if n == 0 {
      assert Keyed(key, []) == [];
    } else {
      ItemsStep(map[], items, key, n - 1, map[] + FlattenItems(items, key, n - 1));
      ItemsLeavesStep(items, key, n);
      ItemsLastWinsHolds(items, key, n - 1);
      FlattenValueIsLastWins(Extend(key, NatToString(n - 1)), items[n - 1]);
    }
  }

  /** Flattening a body is building a dict from its leaf pairs in depth-first order. */
  lemma FlattenIsDictOfLeaves(data: Body, parent: string)
    ensures Flatten(data, parent) == ToMap(Keyed(parent, Leaves(Mapping(data))))
  {
    EntriesLastWinsHolds(data, parent, |data|);
  }

  // ---- every listed leaf is a scalar of the value, and every scalar is listed ----

  lemma {:induction false} LeavesSound(v: Value, i: nat)
    requires i < |Leaves(v)|
    ensures Reaches(v, Leaves(v)[i].segments, Leaves(v)[i].tag)
    decreases v, 1, 0
  {
    match v
    case Mapping(es) => EntriesLeavesSound(es, |es|, i);
    case List(items) => ItemsLeavesSound(items, |items|, i);
    case Leaf(_) =>
  }

  lemma {:induction false} EntriesLeavesSound(es: seq<(string, Value)>, n: nat, i: nat)
    requires n <= |es| && i < |EntriesLeaves(es, n)|
    ensures Reaches(Mapping(es), EntriesLeaves(es, n)[i].segments, EntriesLeaves(es, n)[i].tag)
    decreases Mapping(es), 0, n
  {
    var front := EntriesLeaves(es, n - 1);
    if i < |front| {
      EntriesLeavesSound(es, n - 1, i);
    } else {
      var (k, v) := es[n - 1];
      var lp := Leaves(v)[i - |front|];
      LeavesSound(v, i - |front|);
      var segs := [k] + lp.segments;
      assert EntriesLeaves(es, n)[i] == LeafPath(segs, lp.tag);
      assert segs[0] == k && segs[1..] == lp.segments;
      assert es[n - 1].0 == segs[0] && Reaches(es[n - 1].1, segs[1..], lp.tag);
    }
  }

  lemma {:induction false} ItemsLeavesSound(items: seq<Value>, n: nat, i: nat)
    requires n <= |items| && i < |ItemsLeaves(items, n)|
    ensures Reaches(List(items), ItemsLeaves(items, n)[i].segments, ItemsLeaves(items, n)[i].tag)
    decreases List(items), 0, n
  {
    var front := ItemsLeaves(items, n - 1);
    if i < |front| {
      ItemsLeavesSound(items, n - 1, i);
    } else {
      var lp := Leaves(items[n - 1])[i - |front|];
      LeavesSound(items[n - 1], i - |front|);
      var segs := [NatToString(n - 1)] + lp.segments;
      assert ItemsLeaves(items, n)[i] == LeafPath(segs, lp.tag);
      assert segs[0] == NatToString(n - 1) && segs[1..] == lp.segments;
      assert Reaches(items[n - 1], segs[1..], lp.tag);
    }
  }

  lemma {:induction false} EntriesLeavesContain(es: seq<(string, Value)>, n: nat, j: nat, x: LeafPath)
    requires j < n <= |es| && x in Under(es[j].0, Leaves(es[j].1))
    ensures x in EntriesLeaves(es, n)
  {
    if j < n - 1 {
      EntriesLeavesContain(es, n - 1, j, x);
    }
  }

  lemma {:induction false} ItemsLeavesContain(items: seq<Value>, n: nat, j: nat, x: LeafPath)
    requires j < n <= |items| && x in Under(NatToString(j), Leaves(items[j]))
    ensures x in ItemsLeaves(items, n)
  {
    if j < n - 1 {
      ItemsLeavesContain(items, n - 1, j, x);
    }
  }

  lemma {:induction false} LeavesComplete(v: Value, segs: seq<string>, tag: TypeTag)
    requires Reaches(v, segs, tag)
    ensures LeafPath(segs, tag) in Leaves(v)
    decreases |segs|
  {
    if segs == [] {
      assert Leaves(v) == [LeafPath([], tag)];
    } else {
      match v
      case Mapping(es) =>
        var j :| 0 <= j < |es| && es[j].0 == segs[0] && Reaches(es[j].1, segs[1..], tag);
        LeavesComplete(es[j].1, segs[1..], tag);
        var ls := Leaves(es[j].1);
        var p :| 0 <= p < |ls| && ls[p] == LeafPath(segs[1..], tag);
        assert [segs[0]] + segs[1..] == segs;
        assert Under(es[j].0, ls)[p] == LeafPath(segs, tag);
        EntriesLeavesContain(es, |es|, j, LeafPath(segs, tag));
      case List(items) =>
        var j :| 0 <= j < |items| && NatToString(j) == segs[0] && Reaches(items[j], segs[1..], tag);
        LeavesComplete(items[j], segs[1..], tag);
        var ls := Leaves(items[j]);
        var p :| 0 <= p < |ls| && ls[p] == LeafPath(segs[1..], tag);
        assert [segs[0]] + segs[1..] == segs;
        assert Under(NatToString(j), ls)[p] == LeafPath(segs, tag);
        ItemsLeavesContain(items, |items|, j, LeafPath(segs, tag));
    }
  }

  // ---- what the flat map holds ----

  /** The leaf list holds exactly the scalar leaves of the value, each with its path. */
  lemma LeavesAreScalars(v: Value)
    ensures forall i :: 0 <= i < |Leaves(v)| ==> Reaches(v, Leaves(v)[i].segments, Leaves(v)[i].tag)
    ensures forall segs, tag :: Reaches(v, segs, tag) ==> LeafPath(segs, tag) in Leaves(v)
  {
    forall i | 0 <= i < |Leaves(v)| ensures Reaches(v, Leaves(v)[i].segments, Leaves(v)[i].tag) {
      LeavesSound(v, i);
    }
    forall segs, tag | Reaches(v, segs, tag) ensures LeafPath(segs, tag) in Leaves(v) {
      LeavesComplete(v, segs, tag);
    }
  }

  /** The keys of the flat map are exactly the canonical keys of the body's scalar leaves. */
  lemma FlattenKeys(data: Body, parent: string)
    ensures forall k :: k in Flatten(data, parent) <==>
              exists i :: 0 <= i < |Leaves(Mapping(data))| && JoinPath(parent, Leaves(Mapping(data))[i].segments) == k
  {
    var ls := Leaves(Mapping(data));
    var ps := Keyed(parent, ls);
    FlattenIsDictOfLeaves(data, parent);
    ToMapKeys(ps);
    assert forall i :: 0 <= i < |ls| ==> ps[i].0 == JoinPath(parent, ls[i].segments);
  }

  /** On colliding keys the type of the last leaf in depth-first order is kept. */
  lemma FlattenLastWins(data: Body, parent: string, k: string)
    requires k in Flatten(data, parent)
    ensures var ls := Leaves(Mapping(data));
            exists i :: 0 <= i < |ls| && JoinPath(parent, ls[i].segments) == k
                        && Flatten(data, parent)[k] == ls[i].tag
                        && Reaches(Mapping(data), ls[i].segments, ls[i].tag)
                        && forall j :: i < j < |ls| ==> JoinPath(parent, ls[j].segments) != k
  {
    var ls := Leaves(Mapping(data));
    var ps := Keyed(parent, ls);
    FlattenIsDictOfLeaves(data, parent);
    ToMapLastWins(ps, k);
    var i :| 0 <= i < |ps| && ps[i].0 == k && ToMap(ps)[k] == ps[i].1
             && forall j :: i < j < |ps| ==> ps[j].0 != k;
    LeavesSound(Mapping(data), i);
    assert forall j :: i < j < |ls| ==> JoinPath(parent, ls[j].segments) != k by {
      forall j | i < j < |ls| ensures JoinPath(parent, ls[j].segments) != k {
        assert ps[j].0 == JoinPath(parent, ls[j].segments);
      }
    }
  }
}
