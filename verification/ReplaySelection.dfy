/**
 Partial replay: which tasks of a plan a replay run executes again
 (`_apply_replay_filter`).
*/
module ReplaySelection {
  import opened KeyOrder
  import opened TaskPlan
  import opened Wrappers

  /** `p` follows dependency edges downstream: each key depends on the one before it. */
  ghost predicate IsPath(plan: Plan, p: seq<Key>) {
    p != [] && forall i :: 0 < i < |p| ==> p[i] in plan && p[i - 1] in plan[p[i]]
  }

  ghost predicate Reaches(plan: Plan, a: Key, b: Key) {
    exists p :: IsPath(plan, p) && p[0] == a && p[|p| - 1] == b
  }

  /** The keys a run executes; the rest are skipped. */
  ghost function Selected(plan: Plan, from: Option<Key>): (keys: set<Key>)
    ensures keys <= plan.Keys
  {
    if from.None? || from.value !in plan then plan.Keys
    else set k | k in plan && Reaches(plan, from.value, k)
  }

  ghost function Skipped(plan: Plan, from: Option<Key>): set<Key> {
    plan.Keys - Selected(plan, from)
  }

  lemma ReachesSelf(plan: Plan, a: Key)
    ensures Reaches(plan, a, a)
  {
    assert IsPath(plan, [a]);
  }

  lemma ReachesChild(plan: Plan, a: Key, b: Key, c: Key)
    requires Reaches(plan, a, b) && c in plan && b in plan[c]
    ensures Reaches(plan, a, c)
  {
    var p :| IsPath(plan, p) && p[0] == a && p[|p| - 1] == b;
    assert IsPath(plan, p + [c]);
  }

  /** A set that holds the start and is closed downstream holds everything reachable. */
  lemma {:induction false} ClosedSetHoldsPath(plan: Plan, s: set<Key>, p: seq<Key>)
    requires IsPath(plan, p) && p[0] in s
    requires forall b, c :: b in s && c in plan && b in plan[c] ==> c in s
    ensures p[|p| - 1] in s
  {
    if |p| > 1 {
      var q := p[..|p| - 1];
      ClosedSetHoldsPath(plan, s, q);
      assert q[|q| - 1] in plan[p[|p| - 1]];
    }
  }

  /** The selection is the least set that holds the start and, with a key, every task of the plan that depends on it. */
  lemma SelectedIsLeast(plan: Plan, start: Key, s: set<Key>, b: Key, c: Key)
    requires start in plan
    ensures start in Selected(plan, Some(start))
    ensures b in Selected(plan, Some(start)) && c in plan && b in plan[c] ==> c in Selected(plan, Some(start))
    ensures start in s && (forall x, y :: x in s && y in plan && x in plan[y] ==> y in s) ==> Selected(plan, Some(start)) <= s
  {
    ReachesSelf(plan, start);
    if b in Selected(plan, Some(start)) && c in plan && b in plan[c] {
      ReachesChild(plan, start, b, c);
    }
    if start in s && forall x, y :: x in s && y in plan && x in plan[y] ==> y in s {
      forall k | k in Selected(plan, Some(start)) ensures k in s {
        var p :| IsPath(plan, p) && p[0] == start && p[|p| - 1] == k;
        ClosedSetHoldsPath(plan, s, p);
      }
    }
  }

  /** Skipped keys depend on skipped keys only: skipping never strands a dependency. */
  lemma SkippedIsClosed(plan: Plan, from: Option<Key>, k: Key, d: Key)
    requires k in Skipped(plan, from) && d in plan[k] && d in plan
    ensures d in Skipped(plan, from)
  {
    if d in Selected(plan, from) {
      ReachesChild(plan, from.value, d, k);
    }
  }

  /** With an unknown or absent start everything is selected; with a known one, the start is. */
  lemma SelectedStart(plan: Plan, from: Option<Key>)
    requires plan.Keys != {}
    ensures Selected(plan, from) != {}
    ensures from.Some? && from.value in plan ==> from.value in Selected(plan, from)
  {
    var k :| k in plan.Keys;
    if from.Some? && from.value in plan {
      ReachesSelf(plan, from.value);
      assert from.value in Selected(plan, from);
    } else {
      assert k in Selected(plan, from);
    }
  }

  function ChildrenOf(children: map<Key, seq<Key>>, d: Key): seq<Key> {
    if d in children then children[d] else []
  }

  ghost predicate AreChildren(plan: Plan, d: Key, nexts: seq<Key>) {
    && (forall j :: 0 <= j < |nexts| ==> nexts[j] in plan && d in plan[nexts[j]])
    && (forall k :: k in plan && d in plan[k] ==> k in nexts)
  }

  /** `children`: for every key, the plan's keys that name it as a dependency. */
  method ReverseEdges(plan: Plan) returns (children: map<Key, seq<Key>>)
    ensures forall d :: AreChildren(plan, d, ChildrenOf(children, d))
  {
    children := map[];
    var todo := plan.Keys;
    while todo != {}
      invariant todo <= plan.Keys
      invariant forall d, k :: (d in children && k in children[d]) <==> (k in plan && k !in todo && d in plan[k])
    {
      var node :| node in todo;
      var deps := plan[node];
      for i := 0 to |deps|
        invariant forall d, k :: (d in children && k in children[d]) <==>
                    (k in plan && k !in todo && d in plan[k]) || (k == node && d in deps[..i])
      {
        var dep := deps[i];
        assert deps[..i + 1] == deps[..i] + [dep];
        children := children[dep := (if dep in children then children[dep] else []) + [node]];
      }
      assert deps[..|deps|] == deps;
      todo := todo - {node};
    }
  }

  /** Everything below a selected key is selected too, except below the keys still in `q` and `open`. */
  ghost predicate Explored(plan: Plan, selected: set<Key>, q: seq<Key>, open: set<Key>) {
    forall b, c :: b in selected && b !in q && b !in open && c in plan && b in plan[c] ==> c in selected
  }

  /** The inner loop of the search: select and enqueue the children not seen before. */
  method VisitChildren(plan: Plan, start: Key, cur: Key, nexts: seq<Key>, selected0: set<Key>, q0: seq<Key>)
    returns (selected: set<Key>, q: seq<Key>)
    requires start in plan && cur in selected0 && selected0 <= Selected(plan, Some(start))
    requires forall k :: k in q0 ==> k in selected0
    requires Explored(plan, selected0, q0, {cur})
    requires AreChildren(plan, cur, nexts)
    ensures selected0 <= selected <= Selected(plan, Some(start))
    ensures forall k :: k in q ==> k in selected
    ensures Explored(plan, selected, q, {})
    ensures |plan.Keys - selected| + |q| == |plan.Keys - selected0| + |q0|
  {
    selected, q := selected0, q0;
    for i := 0 to |nexts|
      invariant selected0 <= selected <= Selected(plan, Some(start))
      invariant forall k :: k in q ==> k in selected
      invariant Explored(plan, selected, q, {cur})
      invariant forall j :: 0 <= j < i ==> nexts[j] in selected
      invariant |plan.Keys - selected| + |q| == |plan.Keys - selected0| + |q0|
    {
      var nxt := nexts[i];
      if nxt in selected {
        continue;
      }
      ReachesChild(plan, start, cur, nxt);
      SelectOne(plan, selected, q, {cur}, nxt);
      selected := selected + {nxt};
      q := q + [nxt];
    }
    CloseOne(plan, selected, q, cur, nexts);
  }

  lemma PopOne(plan: Plan, selected: set<Key>, q: seq<Key>)
    requires q != [] && Explored(plan, selected, q, {})
    ensures Explored(plan, selected, q[1..], {q[0]})
    ensures forall k :: k in q <==> k == q[0] || k in q[1..]
  {
    assert q == [q[0]] + q[1..];
  }

  lemma SelectOne(plan: Plan, selected: set<Key>, q: seq<Key>, open: set<Key>, nxt: Key)
    requires Explored(plan, selected, q, open) && nxt in plan && nxt !in selected
    ensures Explored(plan, selected + {nxt}, q + [nxt], open)
    ensures |plan.Keys - (selected + {nxt})| + 1 == |plan.Keys - selected|
  {
    assert plan.Keys - selected == (plan.Keys - (selected + {nxt})) + {nxt};
  }

  lemma CloseOne(plan: Plan, selected: set<Key>, q: seq<Key>, cur: Key, nexts: seq<Key>)
    requires Explored(plan, selected, q, {cur})
    requires forall k :: k in plan && cur in plan[k] ==> k in nexts
    requires forall j :: 0 <= j < |nexts| ==> nexts[j] in selected
    ensures Explored(plan, selected, q, {})
  {
  }

  /** `_apply_replay_filter`: a breadth-first search over the reversed dependency map. */
  method ApplyReplayFilter(plan: Plan, from: Option<Key>) returns (selected: set<Key>, skipped: set<Key>)
    ensures selected == Selected(plan, from)
    ensures skipped == Skipped(plan, from)
  {
    if from.None? || from.value !in plan {
      return plan.Keys, {};
    }
    var start := from.value;
    var children := ReverseEdges(plan);
    selected := {start};
    ReachesSelf(plan, start);
    var q := [start];
    while q != []
      invariant start in selected && selected <= Selected(plan, from)
      invariant forall k :: k in q ==> k in selected
      invariant Explored(plan, selected, q, {})
      decreases |plan.Keys - selected| + |q|
    {
      var cur := q[0];
      PopOne(plan, selected, q);
      selected, q := VisitChildren(plan, start, cur, ChildrenOf(children, cur), selected, q[1..]);
    }
    ExploredIsAll(plan, start, selected);
    skipped := plan.Keys - selected;
  }

  lemma ExploredIsAll(plan: Plan, start: Key, selected: set<Key>)
    requires start in plan && start in selected && Explored(plan, selected, [], {})
    ensures Selected(plan, Some(start)) <= selected
  {
    SelectedIsLeast(plan, start, selected, start, start);
  }
}
