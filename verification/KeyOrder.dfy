/**
 The order in which the scheduler walks task keys: `sorted(...)` on strings,
 that is, lexicographic by code point.
*/
module KeyOrder {
  type Key = string

  predicate LexLe(a: Key, b: Key) {
    if a == [] then true
    else if b == [] then false
    else a[0] < b[0] || (a[0] == b[0] && LexLe(a[1..], b[1..]))
  }

  lemma LexTotal(a: Key, b: Key)
    ensures LexLe(a, b) || LexLe(b, a)
  {
  }

  lemma LexAntisymmetric(a: Key, b: Key)
    requires LexLe(a, b) && LexLe(b, a)
    ensures a == b
  {
    if a != [] && b != [] {
      LexAntisymmetric(a[1..], b[1..]);
      assert a == [a[0]] + a[1..] && b == [b[0]] + b[1..];
    }
  }

  lemma LexTransitive(a: Key, b: Key, c: Key)
    requires LexLe(a, b) && LexLe(b, c)
    ensures LexLe(a, c)
  {
  }

  /** One key begins with the other, or is smaller where the two first differ. */
  lemma {:induction false} LexLeIff(a: Key, b: Key)
    ensures LexLe(a, b) <==> a <= b || exists i :: 0 <= i < |a| && i < |b| && a[..i] == b[..i] && a[i] < b[i]
    decreases |a|
  {
    if a != [] && b != [] {
      if a[0] < b[0] {
        assert a[..0] == b[..0];
      } else if a[0] == b[0] {
        LexLeIff(a[1..], b[1..]);
        FirstDifference(a, b);
      }
    }
  }

  lemma FirstDifference(a: Key, b: Key)
    requires a != [] && b != [] && a[0] == b[0]
    ensures a <= b <==> a[1..] <= b[1..]
    ensures (exists i :: 0 <= i < |a| && i < |b| && a[..i] == b[..i] && a[i] < b[i])
            <==> exists i :: 0 <= i < |a[1..]| && i < |b[1..]| && a[1..][..i] == b[1..][..i] && a[1..][i] < b[1..][i]
  {
    assert a == [a[0]] + a[1..] && b == [b[0]] + b[1..];
    if i :| 0 <= i < |a| && i < |b| && a[..i] == b[..i] && a[i] < b[i] {
      assert a[1..][..i - 1] == a[..i][1..] && b[1..][..i - 1] == b[..i][1..];
      assert a[1..][i - 1] == a[i] && b[1..][i - 1] == b[i];
    }
    if i :| 0 <= i < |a[1..]| && i < |b[1..]| && a[1..][..i] == b[1..][..i] && a[1..][i] < b[1..][i] {
      assert a[..i + 1] == [a[0]] + a[1..][..i] && b[..i + 1] == [b[0]] + b[1..][..i];
      assert a[i + 1] == a[1..][i] && b[i + 1] == b[1..][i];
    }
  }

  predicate IsLeast(m: Key, s: set<Key>) {
    m in s && forall k :: k in s ==> LexLe(m, k)
  }

  lemma LeastExists(s: set<Key>) returns (m: Key)
    requires s != {}
    ensures IsLeast(m, s)
  {
    var x :| x in s;
    if s == {x} {
      LexTotal(x, x);
      m := x;
    } else {
      var rest := s - {x};
      assert s == {x} + rest;
      var n := LeastExists(rest);
      LexTotal(n, x);
      if LexLe(n, x) {
        m := n;
      } else {
        forall k | k in s ensures LexLe(x, k) {
          if k != x {
            assert k in rest;
            LexTransitive(x, n, k);
          } else {
            LexTotal(x, x);
          }
        }
        m := x;
      }
    }
  }

  lemma LeastUnique(s: set<Key>, a: Key, b: Key)
    requires IsLeast(a, s) && IsLeast(b, s)
    ensures a == b
  {
    LexAntisymmetric(a, b);
  }

  ghost predicate Ascending(r: seq<Key>) {
    forall i, j :: 0 <= i < j < |r| ==> r[i] != r[j] && LexLe(r[i], r[j])
  }

  function SortedKeys(s: set<Key>): (r: seq<Key>)
    ensures forall k :: k in r <==> k in s
    ensures |r| == |s|
    ensures Ascending(r)
  {
    if s == {} then []
    else
      var m := Least(s);
      [m] + SortedKeys(s - {m})
  }

  function Least(s: set<Key>): (m: Key)
    requires s != {}
    ensures IsLeast(m, s)
  {
    LeastIsDefined(s);
    var m :| m in s && IsLeast(m, s);
    m
  }

  lemma LeastIsDefined(s: set<Key>)
    requires s != {}
    ensures exists m :: m in s && IsLeast(m, s)
    ensures forall a, b :: IsLeast(a, s) && IsLeast(b, s) ==> a == b
  {
    var m := LeastExists(s);
    forall a, b | IsLeast(a, s) && IsLeast(b, s) ensures a == b {
      LeastUnique(s, a, b);
    }
  }
}
