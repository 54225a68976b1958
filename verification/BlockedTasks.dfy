/**
 Cancelling tasks that can no longer run: one pass reaches direct dependents only,
 repeated passes reach exactly the tasks below a failed or cancelled one.
*/
module BlockedTasks {
  import opened Guarantees
  import opened Invariant
  import opened KeyOrder
  import opened Protocol
  import opened Safety

  /** What one synchronisation of the run cancels. */
  ghost function Pass(c: Config, s: State, r: RunId): State {
    CancelBlocked(c, s, r, SortedKeys(c.Spec(r).Selected()), s.tasks)
  }

  ghost function Passes(c: Config, s: State, r: RunId, n: nat): State {
    if n == 0 then s else Pass(c, Passes(c, s, r, n - 1), r)
  }

  function Withdrawn(row: TaskRow): TaskRow {
    row.(status := Cancelled)
  }

  lemma UpsertCancelled(s: State, t: TaskId)
    requires Lookup(s.tasks, t.run, t.key).status == Pending
    ensures var row := Lookup(s.tasks, t.run, t.key);
      Upsert(s, t, Cancelled, row.attempt).tasks == s.tasks[t := Withdrawn(row)]
  {
  }

  /** The rows after a cancelling pass over `keys`: the blocked ones are withdrawn, no other row changes. */
  lemma {:induction false} LoopCancels(c: Config, s: State, r: RunId, keys: seq<Key>, rows: Rows, t: TaskId)
    requires Ascending(keys)
    requires forall x :: x in keys ==> Lookup(s.tasks, r, x) == Lookup(rows, r, x)
    ensures var after := CancelBlocked(c, s, r, keys, rows).tasks;
      if t.run == r && t.key in keys && Blocked(c, rows, r, t.key) then t in after && after[t] == Withdrawn(Lookup(rows, r, t.key))
      else (t in after <==> t in s.tasks) && (t in s.tasks ==> after[t] == s.tasks[t])
    decreases keys
  {
    hide Upsert;
    if keys != [] {
      assert keys == [keys[0]] + keys[1..];
      if Blocked(c, rows, r, keys[0]) {
        UpsertCancelled(s, TaskId(r, keys[0]));
        LoopCancels(c, Upsert(s, TaskId(r, keys[0]), Cancelled, Lookup(rows, r, keys[0]).attempt), r, keys[1..], rows, t);
      } else {
        LoopCancels(c, s, r, keys[1..], rows, t);
      }
    }
  }

  lemma PassCancels(c: Config, s: State, r: RunId, k: Key)
    ensures Lookup(Pass(c, s, r).tasks, r, k)
            == if k in c.Spec(r).Selected() && Blocked(c, s.tasks, r, k) then Withdrawn(Lookup(s.tasks, r, k))
               else Lookup(s.tasks, r, k)
  {
    hide CancelBlocked, Blocked;
    LoopCancels(c, s, r, SortedKeys(c.Spec(r).Selected()), s.tasks, TaskId(r, k));
  }

  /** One pass cancels exactly the selected PENDING tasks that depend directly on a FAILED or CANCELLED one. */
  lemma PassCancelsDirectDependents(c: Config, s: State, r: RunId, k: Key)
    ensures var row := Lookup(s.tasks, r, k);
      Lookup(Pass(c, s, r).tasks, r, k)
      == if k in c.Spec(r).Selected() && row.status == Pending
            && exists d :: d in c.Spec(r).Deps(k) && TaskId(r, d) in s.tasks && s.tasks[TaskId(r, d)].status in {Failed, Cancelled}
         then row.(status := Cancelled)
         else row
  {
    hide Pass, Blocked;
    PassCancels(c, s, r, k);
    BlockedIff(c, s.tasks, r, k);
  }

  lemma BlockedIff(c: Config, rows: Rows, r: RunId, k: Key)
    ensures Blocked(c, rows, r, k) <==>
      && (TaskId(r, k) in rows ==> rows[TaskId(r, k)].status == Pending)
      && exists d :: d in c.Spec(r).Deps(k) && TaskId(r, d) in rows && rows[TaskId(r, d)].status in {Failed, Cancelled}
  {
    if Blocked(c, rows, r, k) {
      var d :| d in c.Spec(r).Deps(k) && Lookup(rows, r, d).status in {Failed, Cancelled};
      assert TaskId(r, d) in rows;
    }
    if d :| d in c.Spec(r).Deps(k) && TaskId(r, d) in rows && rows[TaskId(r, d)].status in {Failed, Cancelled} {
      assert Lookup(rows, r, d).status in {Failed, Cancelled};
    }
  }

  // ----- a fixpoint is reached -----

  ghost predicate NoneBlocked(c: Config, rows: Rows, r: RunId) {
    forall k :: k in c.Spec(r).Selected() ==> !Blocked(c, rows, r, k)
  }

  ghost function Open(c: Config, rows: Rows, r: RunId): set<Key> {
    set k | k in c.Spec(r).Selected() && Lookup(rows, r, k).status == Pending
  }

  lemma PassShrinks(c: Config, s: State, r: RunId)
    requires !NoneBlocked(c, s.tasks, r)
    ensures |Open(c, Pass(c, s, r).tasks, r)| < |Open(c, s.tasks, r)|
  {
    hide Pass, Lookup;
    var k :| k in c.Spec(r).Selected() && Blocked(c, s.tasks, r, k);
    var a, b := Open(c, s.tasks, r), Open(c, Pass(c, s, r).tasks, r);
    forall x ensures x in b ==> x in a - {k} {
      PassCancels(c, s, r, x);
    }
    assert k in a;
    SubsetSize(b, a - {k});
  }

  lemma PassOfFixpoint(c: Config, s: State, r: RunId)
    requires NoneBlocked(c, s.tasks, r)
    ensures Pass(c, s, r) == s
  {
    hide Blocked, CancelBlocked;
    NothingBlocked(c, s, r, SortedKeys(c.Spec(r).Selected()), s.tasks);
  }

  lemma {:induction false} PassesShrink(c: Config, s: State, r: RunId, n: nat)
    ensures NoneBlocked(c, Passes(c, s, r, n).tasks, r) || |Open(c, Passes(c, s, r, n).tasks, r)| + n <= |Open(c, s.tasks, r)|
  {
    hide NoneBlocked, Pass, Open;
    if n > 0 {
      PassesShrink(c, s, r, n - 1);
      var before := Passes(c, s, r, n - 1);
      if NoneBlocked(c, before.tasks, r) {
        PassOfFixpoint(c, before, r);
      } else {
        PassShrinks(c, before, r);
      }
    }
  }

  lemma EnoughPasses(c: Config, s: State, r: RunId, n: nat)
    requires n >= |c.Spec(r).Selected()|
    ensures NoneBlocked(c, Passes(c, s, r, n).tasks, r)
  {
    hide Pass, Lookup, Blocked;
    var last := Passes(c, s, r, n);
    PassesShrink(c, s, r, n);
    SubsetSize(Open(c, s.tasks, r), c.Spec(r).Selected());
    if !NoneBlocked(c, last.tasks, r) {
      PassShrinks(c, last, r);
    }
  }

  /** As many passes as there are selected tasks are always enough: no PENDING task is left with a FAILED or CANCELLED dependency. */
  lemma FixpointReached(c: Config, s: State, r: RunId, n: nat)
    requires n >= |c.Spec(r).Selected()|
    ensures var last := Passes(c, s, r, n);
      && Passes(c, s, r, n + 1) == last
      && forall k, d ::
           k in c.Spec(r).Selected() && Lookup(last.tasks, r, k).status == Pending && d in c.Spec(r).Deps(k) && TaskId(r, d) in last.tasks
           ==> last.tasks[TaskId(r, d)].status !in {Failed, Cancelled}
  {
    hide Pass, Blocked, Passes;
    EnoughPasses(c, s, r, n);
    var last := Passes(c, s, r, n);
    PassOfFixpoint(c, last, r);
    PassesNext(c, s, r, n);
    forall k {
      BlockedIff(c, last.tasks, r, k);
    }
  }

  lemma PassesNext(c: Config, s: State, r: RunId, n: nat)
    ensures Passes(c, s, r, n + 1) == Pass(c, Passes(c, s, r, n), r)
  {
  }

  // ----- what the fixpoint cancels -----

  /** A chain of selected PENDING tasks, each depending on the one before it, below a failed or cancelled task. */
  ghost predicate IsDoomedChain(c: Config, rows: Rows, r: RunId, p: seq<Key>) {
    && p != []
    && (forall i :: 0 <= i < |p| ==> p[i] in Open(c, rows, r))
    && (forall i :: 0 < i < |p| ==> p[i - 1] in c.Spec(r).Deps(p[i]))
    && exists d :: d in c.Spec(r).Deps(p[0]) && TaskId(r, d) in rows && rows[TaskId(r, d)].status in {Failed, Cancelled}
  }

  ghost predicate Doomed(c: Config, rows: Rows, r: RunId, k: Key) {
    exists p :: IsDoomedChain(c, rows, r, p) && p[|p| - 1] == k
  }

  lemma DoomedNext(c: Config, rows: Rows, r: RunId, d: Key, k: Key)
    requires Doomed(c, rows, r, d) && d in c.Spec(r).Deps(k) && k in Open(c, rows, r)
    ensures Doomed(c, rows, r, k)
  {
    hide Open, Blocked;
    var p :| IsDoomedChain(c, rows, r, p) && p[|p| - 1] == d;
    assert IsDoomedChain(c, rows, r, p + [k]);
  }

  lemma DoomedFirst(c: Config, rows: Rows, r: RunId, k: Key)
    requires k in c.Spec(r).Selected() && Blocked(c, rows, r, k)
    ensures Doomed(c, rows, r, k)
  {
    BlockedIff(c, rows, r, k);
    assert IsDoomedChain(c, rows, r, [k]);
  }

  lemma {:induction false} PassesCancelDoomedOnly(c: Config, s: State, r: RunId, n: nat, k: Key)
    ensures var row, row' := Lookup(s.tasks, r, k), Lookup(Passes(c, s, r, n).tasks, r, k);
      row' == row || (row' == Withdrawn(row) && Doomed(c, s.tasks, r, k))
    decreases n, 0
  {
    hide Lookup, Pass, Doomed;
    if n > 0 {
      var before := Passes(c, s, r, n - 1);
      PassesCancelDoomedOnly(c, s, r, n - 1, k);
      PassCancels(c, before, r, k);
      if k in c.Spec(r).Selected() && Blocked(c, before.tasks, r, k) {
        BlockedIsDoomed(c, s, r, n - 1, k);
      }
    }
  }

  lemma {:induction false} BlockedIsDoomed(c: Config, s: State, r: RunId, n: nat, k: Key)
    requires k in c.Spec(r).Selected() && Blocked(c, Passes(c, s, r, n).tasks, r, k)
    ensures Doomed(c, s.tasks, r, k)
    decreases n, 1
  {
    hide Lookup, Passes, Doomed;
    var rows := Passes(c, s, r, n).tasks;
    var d :| d in c.Spec(r).Deps(k) && Lookup(rows, r, d).status in {Failed, Cancelled};
    PassesCancelDoomedOnly(c, s, r, n, k);
    PassesCancelDoomedOnly(c, s, r, n, d);
    if Doomed(c, s.tasks, r, d) {
      DoomedNext(c, s.tasks, r, d, k);
    } else {
      DoomedFirst(c, s.tasks, r, k);
    }
  }

  lemma BrokenDependency(c: Config, rows: Rows, r: RunId, p: seq<Key>) returns (d: Key)
    requires IsDoomedChain(c, rows, r, p)
    ensures d in c.Spec(r).Deps(p[0]) && TaskId(r, d) in rows && rows[TaskId(r, d)].status in {Failed, Cancelled}
    ensures Lookup(rows, r, d).status in {Failed, Cancelled}
  {
    d :| d in c.Spec(r).Deps(p[0]) && TaskId(r, d) in rows && rows[TaskId(r, d)].status in {Failed, Cancelled};
  }

  lemma {:induction false} ChainIsCancelled(c: Config, s: State, r: RunId, n: nat, p: seq<Key>)
    requires IsDoomedChain(c, s.tasks, r, p) && NoneBlocked(c, Passes(c, s, r, n).tasks, r)
    ensures Lookup(Passes(c, s, r, n).tasks, r, p[|p| - 1]).status == Cancelled
    decreases |p|
  {
    hide Lookup, Passes, Doomed;
    var rows := Passes(c, s, r, n).tasks;
    var k := p[|p| - 1];
    PassesCancelDoomedOnly(c, s, r, n, k);
    assert k in Open(c, s.tasks, r);
    if |p| == 1 {
      var d := BrokenDependency(c, s.tasks, r, p);
      PassesCancelDoomedOnly(c, s, r, n, d);
      assert Lookup(rows, r, k).status == Pending ==> Blocked(c, rows, r, k);
    } else {
      ChainIsCancelled(c, s, r, n, p[..|p| - 1]);
      assert p[|p| - 2] in c.Spec(r).Deps(k);
      assert Lookup(rows, r, k).status == Pending ==> Blocked(c, rows, r, k);
    }
  }

  /** The fixpoint cancels exactly the PENDING tasks below a FAILED or CANCELLED one, and changes nothing else. */
  lemma FixpointCancelsDoomed(c: Config, s: State, r: RunId, n: nat, k: Key)
    requires n >= |c.Spec(r).Selected()|
    ensures Lookup(Passes(c, s, r, n).tasks, r, k)
            == if Doomed(c, s.tasks, r, k) then Withdrawn(Lookup(s.tasks, r, k)) else Lookup(s.tasks, r, k)
  {
    hide Lookup, Passes, Open, Blocked;
    EnoughPasses(c, s, r, n);
    PassesCancelDoomedOnly(c, s, r, n, k);
    if Doomed(c, s.tasks, r, k) {
      var p :| IsDoomedChain(c, s.tasks, r, p) && p[|p| - 1] == k;
      ChainIsCancelled(c, s, r, n, p);
    }
  }

  // ----- a doomed task is never dispatched -----

  lemma {:induction false} ChainNeverDispatched(c: Config, steps: seq<Step>, more: seq<Step>, r: RunId, p: seq<Key>, m: Msg)
    requires !c.external && IsDoomedChain(c, Execute(c, steps).tasks, r, p)
    requires m.task == TaskId(r, p[|p| - 1]) && m in Execute(c, steps + more).log
    ensures false
    decreases |p|
  {
    hide Execute, Settled;
    var a, b := Execute(c, steps), Execute(c, steps + more);
    var k := p[|p| - 1];
    DependenciesFirst(c, steps + more, m);
    if |p| == 1 {
      var d := BrokenDependency(c, a.tasks, r, p);
      TerminalRowsStayForever(c, steps, more);
      SettledRow(a.tasks, b.tasks, TaskId(r, d));
    } else {
      var d := p[|p| - 2];
      assert d in c.Spec(r).Deps(k);
      assert d == p[..|p| - 1][|p| - 2] && d in Open(c, a.tasks, r);
      var e := SuccessOfSelected(c, steps + more, r, d);
      ChainNeverDispatched(c, steps, more, r, p[..|p| - 1], e);
    }
  }

  lemma SettledRow(a: Rows, b: Rows, t: TaskId)
    requires Settled(a, b) && t in a && Terminal(a[t].status)
    ensures t in b && b[t] == a[t]
  {
  }

  lemma SuccessOfSelected(c: Config, steps: seq<Step>, r: RunId, k: Key) returns (m: Msg)
    requires !c.external && k in c.Spec(r).Selected()
    requires Lookup(Execute(c, steps).tasks, r, k).status == Success
    ensures m in Execute(c, steps).log && m.task == TaskId(r, k)
  {
    hide QueueOk, RowsOk, MessagesOk, StatusOk, CapacityOk, CleanOk, Execute, Ordered;
    var s := Execute(c, steps);
    ReachableInv(c, steps);
    assert HistoryOk(c, s.tasks, s.log, TaskId(r, k));
    LoggedTask(s.log, TaskId(r, k));
    var i :| 0 <= i < |s.log| && s.log[i].task == TaskId(r, k);
    m := s.log[i];
  }

  /** No continuation of a run of the system ever dispatches a task that is doomed now. */
  lemma DoomedNeverDispatched(c: Config, steps: seq<Step>, more: seq<Step>, r: RunId, k: Key)
    requires !c.external && Doomed(c, Execute(c, steps).tasks, r, k)
    ensures forall m :: m in Execute(c, steps + more).log ==> m.task != TaskId(r, k)
  {
    hide Execute, Open, Blocked;
    var p :| IsDoomedChain(c, Execute(c, steps).tasks, r, p) && p[|p| - 1] == k;
    forall m | m in Execute(c, steps + more).log ensures m.task != TaskId(r, k) {
      if m.task == TaskId(r, k) {
        ChainNeverDispatched(c, steps, more, r, p, m);
      }
    }
  }
}
