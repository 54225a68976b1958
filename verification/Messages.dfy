/** Bookkeeping over messages: those outstanding in a state, and the history of dispatches. */
module Messages {
  import opened Protocol

  // ----- outstanding messages -----

  function MsgsOf(done: seq<Done>): (ms: seq<Msg>)
    ensures |ms| == |done|
  {
    seq(|done|, i requires 0 <= i < |done| => done[i].msg)
  }

  function Reported(done: seq<Done>): multiset<Msg> {
    multiset(MsgsOf(done))
  }

  /** Every message in a task queue, held by an executor, or in the done queue. */
  function Outstanding(s: State): multiset<Msg> {
    multiset(s.high) + multiset(s.normal) + multiset(s.low) + s.inFlight + Reported(s.done)
  }

  lemma ReportedPush(done: seq<Done>, d: Done)
    ensures Reported(done + [d]) == Reported(done) + multiset{d.msg}
  {
    assert MsgsOf(done + [d]) == MsgsOf(done) + [d.msg];
  }

  lemma ReportedPop(done: seq<Done>)
    requires done != []
    ensures Reported(done) == multiset{done[0].msg} + Reported(done[1..])
  {
    assert MsgsOf(done) == [done[0].msg] + MsgsOf(done[1..]);
  }

  lemma PopFront<T>(q: seq<T>)
    requires q != []
    ensures multiset(q) == multiset{q[0]} + multiset(q[1..])
  {
    assert q == [q[0]] + q[1..];
  }

  /** Only task and done messages moved. */
  ghost predicate SameDatabase(s: State, s': State) {
    && s'.runs == s.runs && s'.tasks == s.tasks && s'.runQueue == s.runQueue
    && s'.dlq == s.dlq && s'.blocked == s.blocked
  }

  /** A dispatch adds its message to the outstanding ones and to the history. */
  lemma PushOutstanding(s: State, p: Priority, m: Msg)
    ensures Outstanding(Push(s, p, m)) == Outstanding(s) + multiset{m}
    ensures SameDatabase(s, Push(s, p, m)) && Push(s, p, m).log == s.log + [m]
  {
  }

  lemma Regroup<T>(a: multiset<T>, b: multiset<T>, c: multiset<T>, d: multiset<T>, e: multiset<T>, x: multiset<T>)
    ensures (x + a) + b + c + d + e == a + b + c + (d + x) + e
    ensures a + (x + b) + c + d + e == a + b + c + (d + x) + e
    ensures a + b + (x + c) + d + e == a + b + c + (d + x) + e
    ensures a + b + c + (d + x) + e == a + b + c + d + (e + x)
  {
  }

  /** Moving a message from a queue to an executor keeps the outstanding messages. */
  lemma TakeOutstanding(s: State)
    ensures Outstanding(Take(s)) == Outstanding(s)
  {
    var h, n, l, d := multiset(s.high), multiset(s.normal), multiset(s.low), Reported(s.done);
    hide Reported;
    if s.high != [] {
      PopFront(s.high);
      Regroup(multiset(s.high[1..]), n, l, s.inFlight, d, multiset{s.high[0]});
    } else if s.normal != [] {
      PopFront(s.normal);
      Regroup(h, multiset(s.normal[1..]), l, s.inFlight, d, multiset{s.normal[0]});
    } else if s.low != [] {
      PopFront(s.low);
      Regroup(h, n, multiset(s.low[1..]), s.inFlight, d, multiset{s.low[0]});
    }
  }

  lemma TakeFrame(s: State)
    ensures SameDatabase(s, Take(s)) && Take(s).log == s.log
  {
    var s' := Take(s);
    assert s' == s.(high := s'.high, normal := s'.normal, low := s'.low, inFlight := s'.inFlight);
  }

  /** So does reporting it. */
  lemma FinishOutstanding(s: State, m: Msg, ok: bool)
    ensures Outstanding(Finish(s, m, ok)) == Outstanding(s)
  {
    hide Reported;
    if m in s.inFlight {
      ReportedPush(s.done, Done(m, ok));
      Regroup(multiset(s.high), multiset(s.normal), multiset(s.low), s.inFlight - multiset{m}, Reported(s.done), multiset{m});
      assert s.inFlight - multiset{m} + multiset{m} == s.inFlight;
    }
  }

  lemma FinishFrame(s: State, m: Msg, ok: bool)
    ensures SameDatabase(s, Finish(s, m, ok)) && Finish(s, m, ok).log == s.log
  {
    var s' := Finish(s, m, ok);
    assert s' == s.(inFlight := s'.inFlight, done := s'.done);
  }

  /** Row updates leave the messages alone. */
  lemma SameOutstanding(a: State, b: State)
    requires b.high == a.high && b.normal == a.normal && b.low == a.low
    requires b.inFlight == a.inFlight && b.done == a.done
    ensures Outstanding(b) == Outstanding(a)
  {
  }

  lemma PopDoneOutstanding(s: State)
    requires s.done != []
    ensures Outstanding(s) == Outstanding(s.(done := s.done[1..])) + multiset{s.done[0].msg}
    ensures Outstanding(s.(done := s.done[1..])) == Outstanding(s) - multiset{s.done[0].msg}
    ensures s.done[0].msg in Outstanding(s)
  {
    ReportedPop(s.done);
  }

  // ----- the history of dispatches -----

  /** The attempt numbers under which `t` has been dispatched, oldest first. */
  function Attempts(log: seq<Msg>, t: TaskId): seq<int> {
    if log == [] then []
    else
      var last := log[|log| - 1];
      Attempts(log[..|log| - 1], t) + (if last.task == t then [last.attempt] else [])
  }

  function Upto(n: nat): (r: seq<int>)
    ensures |r| == n
  {
    seq(n, i => i + 1)
  }

  lemma AttemptsPush(log: seq<Msg>, m: Msg)
    ensures forall t :: Attempts(log + [m], t) == Attempts(log, t) + (if m.task == t then [m.attempt] else [])
  {
    assert (log + [m])[..|log|] == log;
  }

  lemma UptoNext(n: nat)
    ensures Upto(n) + [n + 1] == Upto(n + 1)
  {
  }

  lemma {:induction false} LoggedIffAttempt(log: seq<Msg>, m: Msg)
    ensures m in log <==> m.attempt in Attempts(log, m.task)
  {
    if log != [] {
      var last := log[|log| - 1];
      LoggedIffAttempt(log[..|log| - 1], m);
      assert log == log[..|log| - 1] + [last];
    }
  }

  lemma CountedUpPrefix(log: seq<Msg>, t: TaskId)
    requires log != []
    requires Attempts(log, t) == Upto(|Attempts(log, t)|)
    ensures var rest := log[..|log| - 1];
      && Attempts(rest, t) == Upto(|Attempts(rest, t)|)
      && (log[|log| - 1].task == t ==> log[|log| - 1].attempt == |Attempts(rest, t)| + 1)
  {
    var rest := log[..|log| - 1];
    var n := |Attempts(rest, t)|;
    assert Attempts(rest, t) == Attempts(log, t)[..n];
    assert Attempts(rest, t) == Upto(n);
    if log[|log| - 1].task == t {
      assert Attempts(log, t)[n] == log[|log| - 1].attempt;
    }
  }

  /** If every task was dispatched with attempts 1, 2, ..., no message was pushed twice. */
  lemma {:induction false} CountedUpIsDistinct(log: seq<Msg>)
    requires forall t :: Attempts(log, t) == Upto(|Attempts(log, t)|)
    ensures forall i, j :: 0 <= i < j < |log| ==> log[i] != log[j]
  {
    hide Attempts, Upto;
    if log != [] {
      var rest, last := log[..|log| - 1], log[|log| - 1];
      forall t ensures Attempts(rest, t) == Upto(|Attempts(rest, t)|) {
        CountedUpPrefix(log, t);
      }
      CountedUpIsDistinct(rest);
      CountedUpPrefix(log, last.task);
      NextIsNew(rest, last);
    }
  }

  lemma NextIsNew(rest: seq<Msg>, m: Msg)
    requires Attempts(rest, m.task) == Upto(|Attempts(rest, m.task)|)
    requires m.attempt == |Attempts(rest, m.task)| + 1
    ensures m !in rest
  {
    LoggedIffAttempt(rest, m);
    forall i | 0 <= i < |Attempts(rest, m.task)| ensures Attempts(rest, m.task)[i] != m.attempt {
      assert Upto(|Attempts(rest, m.task)|)[i] == i + 1;
    }
  }
}
