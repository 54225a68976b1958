/** Python's `sorted`, on numbers and on timed values, and why only the multiset of the input matters. */
module Sorting {
  ghost predicate Sorted(s: seq<real>) {
    forall i, j :: 0 <= i < j < |s| ==> s[i] <= s[j]
  }

  function Insert(x: real, s: seq<real>): (r: seq<real>)
    ensures multiset(r) == multiset(s) + multiset{x}
  {
    if s == [] || x <= s[0] then [x] + s
    else
      assert s == [s[0]] + s[1..];
      [s[0]] + Insert(x, s[1..])
  }

  function Sort(s: seq<real>): (r: seq<real>)
    ensures multiset(r) == multiset(s) && |r| == |s|
  {
    if s == [] then []
    else
      assert s == [s[0]] + s[1..];
      var r := Insert(s[0], Sort(s[1..]));
      SameSize(r, s);
      r
  }

  lemma SameSize<T>(a: seq<T>, b: seq<T>)
    requires multiset(a) == multiset(b)
    ensures |a| == |b|
  {
    assert |multiset(a)| == |a| && |multiset(b)| == |b|;
  }

  lemma SameElements<T>(a: seq<T>, b: seq<T>, x: T)
    requires multiset(a) == multiset(b)
    ensures x in a <==> x in b
  {
    assert x in a <==> x in multiset(a);
    assert x in b <==> x in multiset(b);
  }

  lemma SameTails<T>(a: seq<T>, b: seq<T>)
    requires a != [] && b != [] && a[0] == b[0] && multiset(a) == multiset(b)
    ensures multiset(a[1..]) == multiset(b[1..])
  {
    assert a == [a[0]] + a[1..] && b == [b[0]] + b[1..];
    assert multiset(a[1..]) == multiset(a) - multiset{a[0]};
    assert multiset(b[1..]) == multiset(b) - multiset{b[0]};
  }

  lemma PrependSorted(x: real, s: seq<real>)
    requires Sorted(s) && forall y :: y in s ==> x <= y
    ensures Sorted([x] + s)
  {
    forall j | 0 <= j < |s| ensures x <= s[j] {
      assert s[j] in s;
    }
  }

  lemma InsertSorted(x: real, s: seq<real>)
    requires Sorted(s)
    ensures Sorted(Insert(x, s))
  {
    if s != [] && x > s[0] {
      InsertSorted(x, s[1..]);
      var rest := Insert(x, s[1..]);
      forall y | y in rest ensures s[0] <= y {
        assert y in multiset(rest);
        assert y == x || y in multiset(s[1..]);
      }
      PrependSorted(s[0], rest);
    }
  }

  lemma {:induction false} SortSorted(s: seq<real>)
    ensures Sorted(Sort(s))
  {
    if s != [] {
      SortSorted(s[1..]);
      InsertSorted(s[0], Sort(s[1..]));
    }
  }

  lemma {:induction false} SortedUnique(a: seq<real>, b: seq<real>)
    requires Sorted(a) && Sorted(b) && multiset(a) == multiset(b)
    ensures a == b
    decreases |a|
  {
    SameSize(a, b);
    if a != [] {
      SameElements(a, b, a[0]);
      SameElements(a, b, b[0]);
      assert a[0] == b[0];
      SameTails(a, b);
      assert a == [a[0]] + a[1..];
      SortedUnique(a[1..], b[1..]);
    }
  }

  /** Sorting forgets the order of the input. */
  lemma SortOfPermutation(a: seq<real>, b: seq<real>)
    requires multiset(a) == multiset(b)
    ensures Sort(a) == Sort(b)
  {
    SortSorted(a);
    SortSorted(b);
    SortedUnique(Sort(a), Sort(b));
  }

  // ----- values with a time -----

  datatype Point = Point(t: real, v: real)

  ghost predicate InOrder(s: seq<Point>) {
    forall i, j :: 0 <= i < j < |s| ==> s[i].t <= s[j].t
  }

  /** Points with one time keep their order. */
  function InsertPoint(x: Point, s: seq<Point>): (r: seq<Point>)
    ensures multiset(r) == multiset(s) + multiset{x}
  {
    if s == [] || x.t <= s[0].t then [x] + s
    else
      assert s == [s[0]] + s[1..];
      [s[0]] + InsertPoint(x, s[1..])
  }

  function SortByTime(s: seq<Point>): (r: seq<Point>)
    ensures multiset(r) == multiset(s) && |r| == |s|
  {
    if s == [] then []
    else
      assert s == [s[0]] + s[1..];
      var r := InsertPoint(s[0], SortByTime(s[1..]));
      SameSize(r, s);
      r
  }

  lemma PrependInOrder(x: Point, s: seq<Point>)
    requires InOrder(s) && forall y :: y in s ==> x.t <= y.t
    ensures InOrder([x] + s)
  {
    forall j | 0 <= j < |s| ensures x.t <= s[j].t {
      assert s[j] in s;
    }
  }

  lemma InsertInOrder(x: Point, s: seq<Point>)
    requires InOrder(s)
    ensures InOrder(InsertPoint(x, s))
  {
    if s != [] && x.t > s[0].t {
      InsertInOrder(x, s[1..]);
      var rest := InsertPoint(x, s[1..]);
      forall y | y in rest ensures s[0].t <= y.t {
        assert y in multiset(rest);
        assert y == x || y in multiset(s[1..]);
      }
      PrependInOrder(s[0], rest);
    }
  }

  lemma {:induction false} SortInOrder(s: seq<Point>)
    ensures InOrder(SortByTime(s))
  {
    if s != [] {
      SortInOrder(s[1..]);
      InsertInOrder(s[0], SortByTime(s[1..]));
    }
  }

  /** No two points have one time. */
  ghost predicate DistinctTimes(m: multiset<Point>) {
    forall p, q :: p in m && q in m && p.t == q.t ==> p == q && m[p] == 1
  }

  lemma SameFirst(a: seq<Point>, b: seq<Point>)
    requires a != [] && b != [] && InOrder(a) && InOrder(b) && multiset(a) == multiset(b) && DistinctTimes(multiset(a))
    ensures a[0] == b[0]
  {
    SameElements(a, b, a[0]);
    SameElements(a, b, b[0]);
    assert a[0] in multiset(a) && b[0] in multiset(a);
  }

  lemma TailDistinct(a: seq<Point>)
    requires a != [] && DistinctTimes(multiset(a))
    ensures DistinctTimes(multiset(a[1..]))
  {
    assert a == [a[0]] + a[1..];
    assert multiset(a) == multiset{a[0]} + multiset(a[1..]);
  }

  lemma {:induction false} InOrderUnique(a: seq<Point>, b: seq<Point>)
    requires InOrder(a) && InOrder(b) && multiset(a) == multiset(b) && DistinctTimes(multiset(a))
    ensures a == b
    decreases |a|
  {
    hide DistinctTimes;
    SameSize(a, b);
    if a == [] {
    } else {
      SameFirst(a, b);
      SameTails(a, b);
      TailDistinct(a);
      assert a == [a[0]] + a[1..] && b == [b[0]] + b[1..];
      InOrderUnique(a[1..], b[1..]);
    }
  }

  lemma SortByTimeOfPermutation(a: seq<Point>, b: seq<Point>)
    requires multiset(a) == multiset(b) && DistinctTimes(multiset(a))
    ensures SortByTime(a) == SortByTime(b)
  {
    SortInOrder(a);
    SortInOrder(b);
    InOrderUnique(SortByTime(a), SortByTime(b));
  }

  /** The points of one time, in their order. */
  function At(s: seq<Point>, t: real): seq<Point> {
    if s == [] then [] else (if s[0].t == t then [s[0]] else []) + At(s[1..], t)
  }

  lemma AtCons(x: Point, s: seq<Point>, t: real)
    ensures At([x] + s, t) == (if x.t == t then [x] else []) + At(s, t)
  {
    assert ([x] + s)[1..] == s;
  }

  lemma {:induction false} InsertKeepsTimes(x: Point, s: seq<Point>, t: real)
    requires InOrder(s)
    ensures At(InsertPoint(x, s), t) == (if x.t == t then [x] else []) + At(s, t)
    decreases |s|
  {
    hide At;
    if s == [] || x.t <= s[0].t {
      AtCons(x, s, t);
    } else {
      InsertKeepsTimes(x, s[1..], t);
      AtCons(s[0], InsertPoint(x, s[1..]), t);
      AtCons(s[0], s[1..], t);
      assert s == [s[0]] + s[1..];
      hide InsertPoint;
      assert [] + At(s[1..], t) == At(s[1..], t);
      assert x.t == t ==> s[0].t != t;
    }
  }

  /** Sorting by time keeps the order of points with one time. */
  lemma {:induction false} SortIsStable(s: seq<Point>, t: real)
    ensures At(SortByTime(s), t) == At(s, t)
    decreases |s|
  {
    if s != [] {
      SortIsStable(s[1..], t);
      SortInOrder(s[1..]);
      InsertKeepsTimes(s[0], SortByTime(s[1..]), t);
    }
  }
}
