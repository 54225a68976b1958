/** Popping the next run message for one cluster from a queue shared by all clusters (`_pop_next_run`). */
module RunQueue {
  import opened Text
  import opened Wrappers

  /** A payload of the run list; `target` is the cluster id of its placement, if it decodes. */
  datatype Payload = Payload(raw: string, decodes: bool, target: string)

  /** A message is taken unless it names another cluster. */
  predicate Eligible(local: string, m: Payload) {
    local == "" || !m.decodes || Strip(m.target) == "" || Strip(m.target) == local
  }

  /** A message is passed over exactly if it decodes and names a cluster other than the scheduler's own, and the scheduler has one. */
  lemma PassedOverIff(clusterId: string, m: Payload)
    ensures !Eligible(Strip(clusterId), m) <==> m.decodes && Strip(m.target) != "" && Strip(clusterId) !in {"", Strip(m.target)}
  {
  }

  function ScanLimit(configured: int): (s: int)
    ensures configured >= 1 ==> s == configured
    ensures configured < 1 ==> s == 1
  {
    if configured >= 1 then configured else 1
  }

  /** The position of the first message to be taken, or the length of the queue. */
  function FirstEligible(q: seq<Payload>, local: string): (p: nat)
    ensures p <= |q|
    ensures forall i :: 0 <= i < p ==> !Eligible(local, q[i])
    ensures p < |q| ==> Eligible(local, q[p])
  {
    if q == [] || Eligible(local, q[0]) then 0 else 1 + FirstEligible(q[1..], local)
  }

  /** The head goes to the tail `n` times. */
  function Rotate<T>(q: seq<T>, n: nat): (r: seq<T>)
    ensures |r| == |q| && multiset(r) == multiset(q)
    decreases n
  {
    if q == [] || n == 0 then q
    else
      assert q == [q[0]] + q[1..];
      Rotate(q[1..] + [q[0]], n - 1)
  }

  /** What one call returns and leaves behind, in closed form. */
  function PopNext(q: seq<Payload>, local: string, limit: nat): (Option<Payload>, seq<Payload>) {
    var p := FirstEligible(q, local);
    if p < |q| && p < limit then (Some(q[p]), q[p + 1..] + q[..p]) else (None, Rotate(q, limit))
  }

  lemma {:induction false} RotateNext<T>(q: seq<T>, n: nat)
    requires q != []
    ensures Rotate(q, n + 1) == Rotate(q, n)[1..] + [Rotate(q, n)[0]]
    decreases n
  {
    if n > 0 {
      RotateNext(q[1..] + [q[0]], n - 1);
    }
  }

  lemma ShiftOne<T>(q: seq<T>, i: nat)
    requires i < |q|
    ensures var r := q[i..] + q[..i]; r != [] && r[1..] + [r[0]] == q[i + 1..] + q[..i + 1]
  {
    var r := q[i..] + q[..i];
    assert r[1..] == q[i + 1..] + q[..i];
    assert q[..i + 1] == q[..i] + [q[i]];
  }

  lemma {:induction false} RotateIs<T>(q: seq<T>, n: nat)
    requires n <= |q|
    ensures Rotate(q, n) == q[n..] + q[..n]
    decreases n
  {
    hide Rotate;
    if n == 0 {
      RotateEmpty(q, 0);
      assert q[0..] + q[..0] == q;
    } else {
      RotateIs(q, n - 1);
      RotateNext(q, n - 1);
      ShiftOne(q, n - 1);
    }
  }

  lemma RotateEmpty<T>(q: seq<T>, n: nat)
    ensures Rotate(q, n) == [] <==> q == []
    ensures Rotate(q, 0) == q
  {
  }

  /** The next message is eligible exactly when the scan has reached the first eligible one. */
  lemma HeadOfRotation(q: seq<Payload>, n: nat, local: string)
    requires q != [] && (n <= FirstEligible(q, local) || FirstEligible(q, local) == |q|)
    ensures var p := FirstEligible(q, local);
      && (Eligible(local, Rotate(q, n)[0]) <==> n == p && p < |q|)
      && (n == p && p < |q| ==> Rotate(q, n)[0] == q[p] && Rotate(q, n)[1..] == q[p + 1..] + q[..p])
  {
    hide Eligible, FirstEligible, Rotate;
    var p := FirstEligible(q, local);
    if p == |q| {
      RotatedElement(q, n);
    } else {
      RotateIs(q, n);
    }
  }

  lemma RotatedElement<T>(q: seq<T>, n: nat)
    requires q != []
    ensures exists i :: 0 <= i < |q| && q[i] == Rotate(q, n)[0]
  {
    hide Rotate;
    assert Rotate(q, n)[0] in multiset(Rotate(q, n));
    assert Rotate(q, n)[0] in q;
  }

  class RunList {
    var queue: seq<Payload>

    constructor ()
      ensures queue == []
    {
      queue := [];
    }

    method Push(m: Payload)
      modifies this
      ensures queue == old(queue) + [m]
    {
      queue := queue + [m];
    }

    method PopNextRun(clusterId: string, configuredLimit: int) returns (m: Option<Payload>)
      modifies this
      ensures (m, queue) == PopNext(old(queue), Strip(clusterId), ScanLimit(configuredLimit))
    {
      hide Strip, Rotate;
      var local, limit := Strip(clusterId), ScanLimit(configuredLimit);
      RotateEmpty(queue, 0);
      for n := 0 to limit
        invariant queue == Rotate(old(queue), n)
        invariant n <= FirstEligible(old(queue), local) || FirstEligible(old(queue), local) == |old(queue)|
      {
        if queue == [] {
          RotateEmpty(old(queue), n);
          RotateEmpty(old(queue), limit);
          return None;
        }
        var head := queue[0];
        HeadOfRotation(old(queue), n, local);
        queue := queue[1..];
        if Eligible(local, head) {
          return Some(head);
        }
        queue := queue + [head];
        RotateNext(old(queue), n);
      }
      m := None;
    }
  }

  // ----- one call -----

  /** `r` is `q` started from another place. */
  ghost predicate IsRotation<T>(q: seq<T>, r: seq<T>) {
    exists i: nat :: i <= |q| && r == q[i..] + q[..i]
  }

  lemma NextStart<T>(q: seq<T>, i: nat, r: seq<T>)
    requires q != [] && i <= |q| && r == q[i..] + q[..i]
    ensures IsRotation(q, r[1..] + [r[0]])
  {
    if i < |q| {
      ShiftOne(q, i);
    } else {
      assert r == q && q[0..] + q[..0] == q;
      ShiftOne(q, 0);
    }
  }

  lemma NextRotation<T>(q: seq<T>, r: seq<T>)
    requires q != [] && |r| == |q| && IsRotation(q, r)
    ensures IsRotation(q, r[1..] + [r[0]])
  {
    var i: nat :| i <= |q| && r == q[i..] + q[..i];
    NextStart(q, i, r);
  }

  lemma {:induction false} RotateRotates<T>(q: seq<T>, n: nat)
    ensures IsRotation(q, Rotate(q, n))
    decreases n
  {
    if q == [] || n == 0 {
      assert q[0..] + q[..0] == q;
    } else {
      hide IsRotation;
      RotateRotates(q, n - 1);
      RotateNext(q, n - 1);
      NextRotation(q, Rotate(q, n - 1));
    }
  }

  /**
   A call returns the first message for this cluster if the scan limit reaches it and
   nothing otherwise; the other messages are kept, each once, in their cyclic order.
  */
  lemma PopRotates(q: seq<Payload>, local: string, limit: nat)
    requires limit >= 1
    ensures var (m, rest) := PopNext(q, local, limit); var p := FirstEligible(q, local);
      && (m.Some? <==> p < |q| && p < limit)
      && (m.None? ==> multiset(rest) == multiset(q) && IsRotation(q, rest))
      && (m.Some? ==>
           && m.value == q[p]
           && multiset(rest) + multiset{m.value} == multiset(q)
           && IsRotation(q[..p] + q[p + 1..], rest))
  {
    hide Eligible, FirstEligible, Rotate, IsRotation;
    var p := FirstEligible(q, local);
    if p < |q| && p < limit {
      TakeOut(q, p);
    } else {
      RotateRotates(q, limit);
    }
  }

  /** Taking the element at `p` out and starting from its place. */
  lemma TakeOut<T>(q: seq<T>, p: nat)
    requires p < |q|
    ensures multiset(q[p + 1..] + q[..p]) + multiset{q[p]} == multiset(q)
    ensures IsRotation(q[..p] + q[p + 1..], q[p + 1..] + q[..p])
  {
    TakeOutCounts(q, p);
    hide IsRotation;
    TakeOutRotates(q, p);
  }

  lemma TakeOutCounts<T>(q: seq<T>, p: nat)
    requires p < |q|
    ensures multiset(q[p + 1..] + q[..p]) + multiset{q[p]} == multiset(q)
  {
    var a, b := q[..p], q[p + 1..];
    assert q == a + [q[p]] + b;
    assert multiset(a + [q[p]] + b) == multiset(a) + multiset{q[p]} + multiset(b);
  }

  lemma TakeOutRotates<T>(q: seq<T>, p: nat)
    requires p < |q|
    ensures IsRotation(q[..p] + q[p + 1..], q[p + 1..] + q[..p])
  {
    var others := q[..p] + q[p + 1..];
    assert others[p..] == q[p + 1..] && others[..p] == q[..p];
  }

  // ----- repeated calls -----

  /** The queue after a number of calls, each followed by the arrival of further messages. */
  function QueueAfter(q: seq<Payload>, local: string, limit: nat, arrivals: seq<seq<Payload>>): seq<Payload>
    decreases |arrivals|
  {
    if arrivals == [] then q
    else QueueAfter(PopNext(q, local, limit).1 + arrivals[0], local, limit, arrivals[1..])
  }

  lemma {:induction false} FirstEligibleIs(q: seq<Payload>, local: string, p: nat)
    requires p < |q| && Eligible(local, q[p]) && forall i :: 0 <= i < p ==> !Eligible(local, q[i])
    ensures FirstEligible(q, local) == p
  {
    hide Eligible;
  }

  /** A call that does not reach the first eligible message brings it `limit` places forward. */
  lemma PopAdvances(q: seq<Payload>, local: string, limit: nat, more: seq<Payload>)
    requires limit <= FirstEligible(q, local) < |q|
    ensures var p := FirstEligible(q, local); var q' := PopNext(q, local, limit).1 + more;
      PopNext(q, local, limit).0.None? && p - limit < |q'| && FirstEligible(q', local) == p - limit && q'[p - limit] == q[p]
  {
    hide Eligible, FirstEligible, Rotate;
    var p := FirstEligible(q, local);
    var q' := PopNext(q, local, limit).1 + more;
    RotateIs(q, limit);
    assert q' == q[limit..] + (q[..limit] + more);
    forall i | 0 <= i < p - limit ensures !Eligible(local, q'[i]) {
      assert q'[i] == q[limit + i];
    }
    FirstEligibleIs(q', local, p - limit);
  }

  lemma TimesLe(x: int, y: int, s: nat)
    requires x <= y
    ensures x * s <= y * s
  {
    assert (y - x) * s >= 0;
    assert (y - x) * s == y * s - x * s;
  }

  lemma DivStep(p: nat, s: nat)
    requires s >= 1
    ensures p < s ==> p / s == 0
    ensures p >= s ==> p / s == (p - s) / s + 1
  {
    if p >= s {
      var a, b := p / s, (p - s) / s;
      assert a * s + p % s == p && b * s + (p - s) % s == p - s;
      assert (b + 1) * s == b * s + s && (b + 2) * s == b * s + 2 * s;
      if a <= b {
        TimesLe(a, b, s);
      } else if a >= b + 2 {
        TimesLe(b + 2, a, s);
      }
    } else {
      SmallDiv(p, s);
    }
  }

  lemma SmallDiv(p: nat, s: nat)
    requires p < s
    ensures p / s == 0
  {
  }

  /** A message that arrives is behind every eligible one, and is the first eligible one if there was none. */
  lemma ArrivalKeepsTurn(q: seq<Payload>, m: Payload, local: string)
    ensures var p := FirstEligible(q, local); var q' := q + [m];
      && (p < |q| ==> FirstEligible(q', local) == p && q'[p] == q[p])
      && (p == |q| && Eligible(local, m) ==> FirstEligible(q', local) == |q|)
  {
    hide Eligible, FirstEligible;
    var p, q' := FirstEligible(q, local), q + [m];
    if p < |q| || Eligible(local, m) {
      assert forall i :: 0 <= i < p ==> q'[i] == q[i];
      FirstEligibleIs(q', local, p);
    }
  }

  /**
   No message for this cluster waits forever: if the first one is at position p, it is
   returned by call number p / limit + 1, and the calls before return nothing, whatever
   messages arrive in between.
  */
  lemma {:induction false} ReturnedInTurn(q: seq<Payload>, local: string, limit: nat, arrivals: seq<seq<Payload>>, k: nat)
    requires limit >= 1 && FirstEligible(q, local) < |q|
    requires k == |arrivals| <= FirstEligible(q, local) / limit
    ensures var p := FirstEligible(q, local); var m := PopNext(QueueAfter(q, local, limit, arrivals), local, limit).0;
      if k == p / limit then m == Some(q[p]) else m == None
    decreases k
  {
    hide Eligible, FirstEligible, PopNext;
    var p := FirstEligible(q, local);
    DivStep(p, limit);
    if k == 0 {
      PopFirst(q, local, limit);
    } else {
      var q' := PopNext(q, local, limit).1 + arrivals[0];
      PopAdvances(q, local, limit, arrivals[0]);
      ReturnedInTurn(q', local, limit, arrivals[1..], k - 1);
    }
  }

  lemma PopFirst(q: seq<Payload>, local: string, limit: nat)
    requires FirstEligible(q, local) < |q|
    ensures var p := FirstEligible(q, local); PopNext(q, local, limit).0 == if p < limit then Some(q[p]) else None
  {
  }
}
