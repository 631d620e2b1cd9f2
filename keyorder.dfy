/** The order in which Python's `sorted` and `list.sort` put string keys (code point by code
    point, a proper prefix first), and the sorted list of a set of keys. */
module KeyOrder {

  /** `a < b` on Python strings. (Dafny's own `<` on sequences means "proper prefix".) */
  predicate Less(a: string, b: string)
    decreases |a|
  {
    if |a| == 0 then |b| > 0
    else if |b| == 0 then false
    else if a[0] != b[0] then a[0] < b[0]
    else Less(a[1..], b[1..])
  }

  predicate LessEq(a: string, b: string)
  {
    a == b || Less(a, b)
  }

  /** Strictly increasing, hence also free of duplicates. */
  predicate Sorted(ks: seq<string>)
  {
    forall i, j {:trigger Less(ks[i], ks[j])} :: 0 <= i < j < |ks| ==> Less(ks[i], ks[j])
  }

  lemma {:induction false} LessIrreflexive(a: string)
    ensures !Less(a, a)
    decreases |a|
  {
    if |a| > 0 {
      LessIrreflexive(a[1..]);
    }
  }

  lemma {:induction false} LessTransitive(a: string, b: string, c: string)
    requires Less(a, b) && Less(b, c)
    ensures Less(a, c)
    decreases |a|
  {
    if |a| > 0 && a[0] == b[0] && b[0] == c[0] {
      LessTransitive(a[1..], b[1..], c[1..]);
    }
  }

  lemma {:induction false} LessTotal(a: string, b: string)
    requires a != b
    ensures Less(a, b) || Less(b, a)
    decreases |a|
  {
    if |a| > 0 && |b| > 0 && a[0] == b[0] {
      assert a == [a[0]] + a[1..] && b == [b[0]] + b[1..];
      LessTotal(a[1..], b[1..]);
    }
  }

  lemma LessAsymmetric(a: string, b: string)
    requires Less(a, b)
    ensures !Less(b, a)
  {
    if Less(b, a) {
      LessTransitive(a, b, a);
      LessIrreflexive(a);
    }
  }

  predicate IsLeast(m: string, s: set<string>)
  {
    m in s && forall y :: y in s ==> LessEq(m, y)
  }

  lemma {:induction false} LeastExists(s: set<string>)
    requires s != {}
    ensures exists m :: IsLeast(m, s)
    decreases s
  {
    var x :| x in s;
    if s != {x} {
      LeastExists(s - {x});
      var y :| IsLeast(y, s - {x});
      if Less(x, y) {
        forall z | z in s ensures LessEq(x, z) {
          if z != x {
            assert z in s - {x};
            if Less(y, z) {
              LessTransitive(x, y, z);
            }
          }
        }
        assert IsLeast(x, s);
      } else {
        if x != y {
          LessTotal(x, y);
        }
        assert IsLeast(y, s);
      }
    } else {
      assert IsLeast(x, s);
    }
  }

  lemma LeastUnique(s: set<string>)
    ensures forall m, m' :: IsLeast(m, s) && IsLeast(m', s) ==> m == m'
  {
    forall m, m' | IsLeast(m, s) && IsLeast(m', s) ensures m == m' {
      if m != m' {
        LessAsymmetric(m, m');
      }
    }
  }

  /** Appending a key above every key of a sorted sequence keeps it sorted. */
  lemma SortedAppend(ks: seq<string>, k: string)
    requires Sorted(ks)
    requires forall i :: 0 <= i < |ks| ==> Less(ks[i], k)
    ensures Sorted(ks + [k])
  {
    var r := ks + [k];
    forall i, j | 0 <= i < j < |r| ensures Less(r[i], r[j]) {
      if j < |ks| {
        assert Less(ks[i], ks[j]);
      }
    }
  }

  /** `sorted(s)`: the elements of a set of keys in increasing order. */
  function SortedSeqOf(s: set<string>): (r: seq<string>)
    ensures Sorted(r)
    ensures forall k :: k in r <==> k in s
    ensures |r| == |s|
    decreases s
  {
    if s == {} then []
    else
      LeastExists(s);
      LeastUnique(s);
      var m :| IsLeast(m, s);
      var rest := SortedSeqOf(s - {m});
      assert forall j :: 0 <= j < |rest| ==> Less(m, rest[j]) by {
        forall j | 0 <= j < |rest| ensures Less(m, rest[j]) {
          assert rest[j] in s - {m};
        }
      }
      [m] + rest
  }
}
