/**
 The sequenced replay buffer of realtime events: a Redis counter and a bounded list per
 project, newest event first (`_assign_sequence_and_buffer`).
*/
module ReplayBuffer {
  import opened Text
  import opened Wrappers

  datatype Event = Event(tenant: string, project: string, body: string, sequence: Option<nat>)

  /** The tenant and project that the Redis keys are named after. */
  datatype Scope = Scope(tenant: string, project: string)

  /** How a Redis command can go wrong: refused, or carried out but not acknowledged. */
  datatype Fault = NoFault | IncrRefused | IncrUnacknowledged | PushRefused | PushUnacknowledged

  function BufferSize(configured: int): (size: nat)
    ensures 50 <= size <= 10000
    ensures 50 <= configured <= 10000 ==> size == configured
    ensures configured > 10000 ==> size == 10000
  {
    var capped := if configured < 10000 then configured else 10000;
    if capped > 50 then capped else 50
  }

  function Trim<T>(s: seq<T>, size: nat): seq<T> {
    if |s| <= size then s else s[..size]
  }

  datatype Channel = Channel(counter: nat, buffer: seq<Event>)

  predicate Counts(fault: Fault) {
    !fault.IncrRefused?
  }

  predicate Pushes(fault: Fault) {
    fault.NoFault? || fault.PushUnacknowledged?
  }

  /** One publish on the counter and list of its project. */
  function Publish(ch: Channel, event: Event, fault: Fault, size: nat): Channel {
    var counter := if Counts(fault) then ch.counter + 1 else ch.counter;
    Channel(counter, if Pushes(fault) then Trim([event.(sequence := Some(counter))] + ch.buffer, size) else ch.buffer)
  }

  function ScopeOf(event: Event): Option<Scope> {
    var tenant, project := Strip(event.tenant), Strip(event.project);
    if tenant == "" || project == "" then None else Some(Scope(tenant, project))
  }

  /** Events share a counter and a list exactly if they agree in tenant and project, up to blanks; an event that lacks either has none. */
  lemma ScopesApart(a: Event, b: Event)
    ensures ScopeOf(a).None? <==> Strip(a.tenant) == "" || Strip(a.project) == ""
    ensures ScopeOf(a).Some? && ScopeOf(b).Some? ==>
              (ScopeOf(a) == ScopeOf(b) <==> Strip(a.tenant) == Strip(b.tenant) && Strip(a.project) == Strip(b.project))
  {
  }

  /**
   What each fault leaves behind: a number is used up unless it was refused, and the event
   is at the front of the list unless its push or its number failed.
  */
  lemma PublishUnderFault(ch: Channel, event: Event, fault: Fault, size: nat)
    requires size > 0
    ensures var ch' := Publish(ch, event, fault, size); var number := ch.counter + 1;
      && ch'.counter == (if fault == IncrRefused then ch.counter else number)
      && (fault in {IncrRefused, IncrUnacknowledged, PushRefused} ==> ch'.buffer == ch.buffer)
      && (fault in {NoFault, PushUnacknowledged} ==>
           && |ch'.buffer| == (if |ch.buffer| < size then |ch.buffer| + 1 else size)
           && ch'.buffer[0] == event.(sequence := Some(number))
           && forall i :: 0 < i < |ch'.buffer| ==> ch'.buffer[i] == ch.buffer[i - 1])
  {
  }

  class Publisher {
    var counters: map<Scope, nat>
    var buffers: map<Scope, seq<Event>>

    function ChannelOf(scope: Scope): Channel
      reads this
    {
      Channel(if scope in counters then counters[scope] else 0, if scope in buffers then buffers[scope] else [])
    }

    constructor ()
      ensures forall scope :: ChannelOf(scope) == Channel(0, [])
    {
      counters, buffers := map[], map[];
    }

    /** `fault` says what Redis does; an error is logged and the event is returned as far as it got. */
    method AssignSequenceAndBuffer(event: Event, configuredSize: int, fault: Fault) returns (out: Event)
      modifies this
      ensures ScopeOf(event).None? ==> out == event && forall s :: ChannelOf(s) == old(ChannelOf(s))
      ensures ScopeOf(event).Some? ==>
        && ChannelOf(ScopeOf(event).value) == Publish(old(ChannelOf(ScopeOf(event).value)), event, fault, BufferSize(configuredSize))
        && forall s :: s != ScopeOf(event).value ==> ChannelOf(s) == old(ChannelOf(s))
      ensures out == if ScopeOf(event).None? || fault.IncrRefused? || fault.IncrUnacknowledged? then event
                     else event.(sequence := Some(ChannelOf(ScopeOf(event).value).counter))
    {
      hide Strip;
      out := event;
      var tenant, project := Strip(event.tenant), Strip(event.project);
      if tenant == "" || project == "" {
        return;
      }
      var scope := Scope(tenant, project);
      var size := BufferSize(configuredSize);
      if fault.IncrRefused? {
        return;
      }
      var seqNo := ChannelOf(scope).counter + 1;
      counters := counters[scope := seqNo];
      if fault.IncrUnacknowledged? {
        return;
      }
      out := event.(sequence := Some(seqNo));
      if fault.PushRefused? {
        return;
      }
      buffers := buffers[scope := Trim([out] + ChannelOf(scope).buffer, size)];
    }
  }

  // ----- one publisher -----

  datatype Attempt = Attempt(event: Event, fault: Fault)

  function After(attempts: seq<Attempt>, size: nat): Channel {
    if attempts == [] then Channel(0, [])
    else
      var n := |attempts| - 1;
      Publish(After(attempts[..n], size), attempts[n].event, attempts[n].fault, size)
  }

  function CounterAfter(attempts: seq<Attempt>): nat {
    if attempts == [] then 0
    else
      var n := |attempts| - 1;
      CounterAfter(attempts[..n]) + (if Counts(attempts[n].fault) then 1 else 0)
  }

  /** The events that reached the list, oldest first. */
  function Pushed(attempts: seq<Attempt>): seq<Event> {
    if attempts == [] then []
    else
      var n := |attempts| - 1;
      var before := Pushed(attempts[..n]);
      if Pushes(attempts[n].fault) then before + [attempts[n].event.(sequence := Some(CounterAfter(attempts)))] else before
  }

  /** The last `size` events of a log, newest first. */
  function Newest<T>(log: seq<T>, size: nat): (r: seq<T>)
    ensures |r| == if |log| <= size then |log| else size
    ensures forall i :: 0 <= i < |r| ==> r[i] == log[|log| - 1 - i]
  {
    if log == [] || size == 0 then [] else [log[|log| - 1]] + Newest(log[..|log| - 1], size - 1)
  }

  lemma NewestPush<T>(log: seq<T>, x: T, size: nat)
    ensures Trim([x] + Newest(log, size), size) == Newest(log + [x], size)
  {
    hide Newest;
    var a, b := Trim([x] + Newest(log, size), size), Newest(log + [x], size);
    forall i | 0 <= i < |a| ensures a[i] == b[i] {
      assert i > 0 ==> a[i] == Newest(log, size)[i - 1];
    }
  }

  lemma {:induction false} BufferIsNewest(attempts: seq<Attempt>, size: nat)
    ensures After(attempts, size) == Channel(CounterAfter(attempts), Newest(Pushed(attempts), size))
    decreases |attempts|
  {
    hide Newest, Trim;
    if attempts == [] {
      assert Newest<Event>([], size) == [];
    } else {
      var n := |attempts| - 1;
      BufferIsNewest(attempts[..n], size);
      if Pushes(attempts[n].fault) {
        NewestPush(Pushed(attempts[..n]), attempts[n].event.(sequence := Some(CounterAfter(attempts))), size);
      }
    }
  }

  ghost predicate Rising(log: seq<Event>, counter: nat) {
    && (forall e :: e in log ==> e.sequence.Some? && 1 <= e.sequence.value <= counter)
    && (forall i, j :: 0 <= i < j < |log| ==> log[i].sequence.value < log[j].sequence.value)
  }

  lemma {:induction false} PushedRises(attempts: seq<Attempt>)
    ensures Rising(Pushed(attempts), CounterAfter(attempts))
    decreases |attempts|
  {
    if attempts != [] {
      PushedRises(attempts[..|attempts| - 1]);
    }
  }

  /**
   After any publishes by one publisher, with or without Redis errors, the buffer holds
   the newest events that were pushed, newest first, under strictly decreasing sequence
   numbers that never exceed the counter.
  */
  lemma BufferRefinesLog(attempts: seq<Attempt>, size: nat)
    ensures var ch := After(attempts, size); var log := Pushed(attempts);
      && |ch.buffer| == (if |log| <= size then |log| else size)
      && (forall i :: 0 <= i < |ch.buffer| ==>
           ch.buffer[i] == log[|log| - 1 - i] && ch.buffer[i].sequence.Some? && 1 <= ch.buffer[i].sequence.value <= ch.counter)
      && (forall i, j :: 0 <= i < j < |ch.buffer| ==> ch.buffer[i].sequence.value > ch.buffer[j].sequence.value)
  {
    hide After, Newest, Pushed, CounterAfter;
    BufferIsNewest(attempts, size);
    PushedRises(attempts);
    var log := Pushed(attempts);
    forall i | 0 <= i < |log| ensures log[i] in log {}
  }

  lemma {:induction false} NoFaultNoGap(attempts: seq<Attempt>)
    requires forall a :: a in attempts ==> a.fault.NoFault?
    ensures CounterAfter(attempts) == |attempts| == |Pushed(attempts)|
    ensures forall i :: 0 <= i < |attempts| ==> Pushed(attempts)[i] == attempts[i].event.(sequence := Some(i + 1))
    decreases |attempts|
  {
    if attempts != [] {
      var n := |attempts| - 1;
      assert attempts[n] in attempts;
      forall a | a in attempts[..n] ensures a.fault.NoFault? {
        assert a in attempts;
      }
      NoFaultNoGap(attempts[..n]);
    }
  }

  /** Without Redis errors the sequence numbers in the buffer have no gap. */
  lemma BufferContiguous(attempts: seq<Attempt>, size: nat)
    requires forall a :: a in attempts ==> a.fault.NoFault?
    ensures var ch := After(attempts, size); var n := |attempts|;
      && ch.counter == n && |ch.buffer| == (if n <= size then n else size)
      && forall i :: 0 <= i < |ch.buffer| ==> ch.buffer[i] == attempts[n - 1 - i].event.(sequence := Some(n - i))
  {
    hide After, Newest, Pushed, CounterAfter;
    BufferIsNewest(attempts, size);
    NoFaultNoGap(attempts);
  }

  // ----- several publishers -----

  /** `pending` are the events that have a sequence number and are not pushed yet; `log` is the history of pushes. */
  datatype Shared = Shared(channel: Channel, pending: map<nat, Event>, log: seq<Event>)

  datatype Move = Number(i: nat, event: Event) | PushNumbered(i: nat) | GiveUp(i: nat) | LoseNumber

  function Moved(s: Shared, move: Move, size: nat): Shared {
    match move
    case Number(i, event) =>
      if i in s.pending then s
      else
        var n := s.channel.counter + 1;
        s.(channel := s.channel.(counter := n), pending := s.pending[i := event.(sequence := Some(n))])
    case PushNumbered(i) =>
      if i !in s.pending then s
      else
        var e := s.pending[i];
        Shared(s.channel.(buffer := Trim([e] + s.channel.buffer, size)), s.pending - {i}, s.log + [e])
    case GiveUp(i) => s.(pending := s.pending - {i})
    case LoseNumber => s.(channel := s.channel.(counter := s.channel.counter + 1))
  }

  function Interleave(moves: seq<Move>, size: nat): Shared {
    if moves == [] then Shared(Channel(0, []), map[], [])
    else Moved(Interleave(moves[..|moves| - 1], size), moves[|moves| - 1], size)
  }

  ghost predicate Numbered(e: Event, counter: nat) {
    e.sequence.Some? && 1 <= e.sequence.value <= counter
  }

  /** All numbers given out are in range, and no two events have the same one. */
  ghost predicate NumbersOk(s: Shared) {
    && (forall e :: e in s.log ==> Numbered(e, s.channel.counter))
    && (forall i :: i in s.pending ==> Numbered(s.pending[i], s.channel.counter))
    && (forall i, j :: 0 <= i < j < |s.log| ==> s.log[i].sequence != s.log[j].sequence)
    && (forall i, j :: i in s.pending && j in s.pending && i != j ==> s.pending[i].sequence != s.pending[j].sequence)
    && (forall e, i :: e in s.log && i in s.pending ==> e.sequence != s.pending[i].sequence)
  }

  lemma MoveKeepsNumbers(s: Shared, move: Move, size: nat)
    requires NumbersOk(s)
    ensures NumbersOk(Moved(s, move, size))
  {
    if move.PushNumbered? && move.i in s.pending {
      var e, s' := s.pending[move.i], Moved(s, move, size);
      forall i | 0 <= i < |s.log| ensures s.log[i].sequence != e.sequence {
        assert s.log[i] in s.log;
      }
    }
  }

  lemma {:induction false} InterleavingOk(moves: seq<Move>, size: nat)
    ensures var s := Interleave(moves, size); NumbersOk(s) && s.channel.buffer == Newest(s.log, size)
    decreases |moves|
  {
    hide Newest, Trim, NumbersOk;
    if moves == [] {
      assert NumbersOk(Interleave([], size)) by { NothingNumbered(size); }
      assert Newest<Event>([], size) == [];
    } else {
      var s, move := Interleave(moves[..|moves| - 1], size), moves[|moves| - 1];
      InterleavingOk(moves[..|moves| - 1], size);
      MoveKeepsNumbers(s, move, size);
      if move.PushNumbered? && move.i in s.pending {
        NewestPush(s.log, s.pending[move.i], size);
      }
    }
  }

  lemma NothingNumbered(size: nat)
    ensures NumbersOk(Interleave([], size))
  {
  }

  /**
   However the publishes of several publishers interleave, and with any Redis errors: the
   buffer holds the newest pushed events, at most `size`, under distinct sequence numbers
   that never exceed the counter.
  */
  lemma InterleavedBuffer(moves: seq<Move>, size: nat)
    ensures var s := Interleave(moves, size); var buf := s.channel.buffer;
      && |buf| == (if |s.log| <= size then |s.log| else size)
      && (forall i :: 0 <= i < |buf| ==> buf[i] == s.log[|s.log| - 1 - i])
      && (forall i :: 0 <= i < |buf| ==> buf[i].sequence.Some? && 1 <= buf[i].sequence.value <= s.channel.counter)
      && (forall i, j :: 0 <= i < j < |buf| ==> buf[i].sequence != buf[j].sequence)
  {
    hide Interleave, Newest;
    InterleavingOk(moves, size);
    var s := Interleave(moves, size);
    forall i | 0 <= i < |s.log| ensures Numbered(s.log[i], s.channel.counter) {
      assert s.log[i] in s.log;
    }
  }

  /** The moves that one publish consists of. */
  function MovesOf(i: nat, event: Event, fault: Fault): seq<Move> {
    match fault
    case NoFault => [Number(i, event), PushNumbered(i)]
    case PushUnacknowledged => [Number(i, event), PushNumbered(i)]
    case PushRefused => [Number(i, event), GiveUp(i)]
    case IncrUnacknowledged => [LoseNumber]
    case IncrRefused => []
  }

  /** Uninterrupted, the moves of a publish do to the channel what the publish does. */
  lemma PublishAlone(moves: seq<Move>, i: nat, event: Event, fault: Fault, size: nat)
    requires i !in Interleave(moves, size).pending
    ensures var s, s' := Interleave(moves, size), Interleave(moves + MovesOf(i, event, fault), size);
      s'.channel == Publish(s.channel, event, fault, size) && s'.pending == s.pending
  {
    hide Interleave, Trim;
    var s := Interleave(moves, size);
    var first := if fault.IncrUnacknowledged? then LoseNumber else Number(i, event);
    var second := if Pushes(fault) then PushNumbered(i) else GiveUp(i);
    InterleaveNext(moves, first, size);
    InterleaveNext(moves + [first], second, size);
    assert moves + [] == moves && moves + [first, second] == moves + [first] + [second];
  }

  lemma InterleaveNext(moves: seq<Move>, move: Move, size: nat)
    ensures Interleave(moves + [move], size) == Moved(Interleave(moves, size), move, size)
  {
    assert (moves + [move])[..|moves|] == moves;
  }

  /** With two publishers the numbers in the buffer need not decrease: the second may push first. */
  lemma InterleavingCanReorder(a: Event, b: Event)
    ensures Interleave([Number(0, a), Number(1, b), PushNumbered(1), PushNumbered(0)], 50).channel.buffer
            == [a.(sequence := Some(1)), b.(sequence := Some(2))]
  {
    var one, two, three := [Number(0, a)], [Number(0, a), Number(1, b)], [Number(0, a), Number(1, b), PushNumbered(1)];
    InterleaveNext([], Number(0, a), 50);
    InterleaveNext(one, Number(1, b), 50);
    InterleaveNext(two, PushNumbered(1), 50);
    InterleaveNext(three, PushNumbered(0), 50);
    assert [] + [Number(0, a)] == one && one + [Number(1, b)] == two && two + [PushNumbered(1)] == three;
    assert three + [PushNumbered(0)] == [Number(0, a), Number(1, b), PushNumbered(1), PushNumbered(0)];
    hide Interleave;
    assert Interleave([], 50) == Shared(Channel(0, []), map[], []) by { NothingYet(50); }
  }

  lemma NothingYet(size: nat)
    ensures Interleave([], size) == Shared(Channel(0, []), map[], [])
  {
  }

  // ----- exactly when the numbers in the buffer decrease -----

  /** The event is numbered above the newest event pushed so far. */
  predicate AboveNewest(log: seq<Event>, e: Event) {
    log == [] || (log[|log| - 1].sequence.Some? && e.sequence.Some? && log[|log| - 1].sequence.value < e.sequence.value)
  }

  /** A push keeps the log rising exactly if its event is numbered above the newest one. */
  lemma PushKeepsRisingIff(s: Shared, i: nat, size: nat)
    requires NumbersOk(s) && Rising(s.log, s.channel.counter) && i in s.pending
    ensures var s' := Moved(s, PushNumbered(i), size);
      Rising(s'.log, s'.channel.counter) <==> AboveNewest(s.log, s.pending[i])
  {
    var e, n := s.pending[i], |s.log|;
    var log' := s.log + [e];
    if n > 0 {
      assert s.log[n - 1] in s.log && log'[n - 1] == s.log[n - 1] && log'[n] == e;
    }
    forall x | x in log' ensures x in s.log || x == e {}
  }

  /** The pending events are pushed in the order of `order`; an entry without a pending event does nothing. */
  function PushAll(s: Shared, order: seq<nat>, size: nat): Shared
    decreases |order|
  {
    if order == [] then s else PushAll(Moved(s, PushNumbered(order[0]), size), order[1..], size)
  }

  ghost predicate AnyOrderRises(s: Shared, size: nat) {
    forall order :: Rising(PushAll(s, order, size).log, PushAll(s, order, size).channel.counter)
  }

  /** At most one publish is between its number and its push, and its number is above the newest one. */
  ghost predicate OneInTurn(s: Shared) {
    && (forall i, j :: i in s.pending && j in s.pending ==> i == j)
    && (forall i :: i in s.pending ==> AboveNewest(s.log, s.pending[i]))
  }

  lemma {:induction false} NothingPending(s: Shared, order: seq<nat>, size: nat)
    requires s.pending == map[]
    ensures PushAll(s, order, size) == s
    decreases |order|
  {
    if order != [] {
      NothingPending(s, order[1..], size);
    }
  }

  lemma {:induction false} InTurnRises(s: Shared, order: seq<nat>, size: nat)
    requires NumbersOk(s) && Rising(s.log, s.channel.counter) && OneInTurn(s)
    ensures Rising(PushAll(s, order, size).log, PushAll(s, order, size).channel.counter)
    decreases |order|
  {
    hide NumbersOk, Rising, AboveNewest, Trim;
    if order != [] {
      var s' := Moved(s, PushNumbered(order[0]), size);
      if order[0] in s.pending {
        PushKeepsRisingIff(s, order[0], size);
        assert s'.pending == map[];
        NothingPending(s', order[1..], size);
      } else {
        InTurnRises(s, order[1..], size);
      }
    }
  }

  lemma TwoPushes(s: Shared, i: nat, j: nat, size: nat)
    ensures PushAll(s, [i], size) == Moved(s, PushNumbered(i), size)
    ensures PushAll(s, [i, j], size) == Moved(Moved(s, PushNumbered(i), size), PushNumbered(j), size)
  {
    hide Moved;
    var s' := Moved(s, PushNumbered(i), size);
    assert [i, j][1..] == [j] && [i][1..] == [] && [j][1..] == [];
    assert PushAll(s', [j], size) == PushAll(Moved(s', PushNumbered(j), size), [], size);
  }

  /** Two pending events pushed in the wrong order leave the log not rising. */
  lemma WrongOrder(s: Shared, i: nat, j: nat, size: nat)
    requires NumbersOk(s) && Rising(s.log, s.channel.counter) && i in s.pending && j in s.pending
    requires s.pending[i].sequence.value < s.pending[j].sequence.value
    ensures !AnyOrderRises(s, size)
  {
    hide Trim;
    TwoPushes(s, j, i, size);
    var log := PushAll(s, [j, i], size).log;
    assert log == s.log + [s.pending[j]] + [s.pending[i]];
    assert log[|s.log|] == s.pending[j] && log[|s.log| + 1] == s.pending[i];
  }

  /**
   From any state in which events were pushed in the order of their numbers, every order
   of pushing what is pending keeps it so exactly if at most one publish is pending and it is numbered above
   the newest event pushed.
  */
  lemma AnyOrderRisesIff(s: Shared, size: nat)
    requires NumbersOk(s) && Rising(s.log, s.channel.counter)
    ensures AnyOrderRises(s, size) <==> OneInTurn(s)
  {
    hide Trim;
    if OneInTurn(s) {
      forall order ensures Rising(PushAll(s, order, size).log, PushAll(s, order, size).channel.counter) {
        InTurnRises(s, order, size);
      }
    } else if i, j :| i in s.pending && j in s.pending && i != j {
      if s.pending[i].sequence.value < s.pending[j].sequence.value {
        WrongOrder(s, i, j, size);
      } else {
        WrongOrder(s, j, i, size);
      }
    } else {
      var i :| i in s.pending && !AboveNewest(s.log, s.pending[i]);
      PushKeepsRisingIff(s, i, size);
      TwoPushes(s, i, i, size);
      assert !Rising(PushAll(s, [i], size).log, PushAll(s, [i], size).channel.counter);
    }
  }

  /** Numbers are given out only while no publish is pending. */
  predicate Serial(moves: seq<Move>, size: nat) {
    moves == [] ||
    var before, last := moves[..|moves| - 1], moves[|moves| - 1];
    Serial(before, size) && (last.Number? ==> Interleave(before, size).pending == map[])
  }

  /** Publishers that take turns push in the order of their numbers, however many they are. */
  lemma {:induction false} TakingTurnsRises(moves: seq<Move>, size: nat)
    requires Serial(moves, size)
    ensures var s := Interleave(moves, size); Rising(s.log, s.channel.counter) && OneInTurn(s)
    decreases |moves|
  {
    hide NumbersOk, Rising, OneInTurn, Moved, AboveNewest;
    if moves == [] {
      TurnBegins(size);
    } else {
      var before, last := moves[..|moves| - 1], moves[|moves| - 1];
      TakingTurnsRises(before, size);
      InterleavingOk(before, size);
      MoveInTurn(Interleave(before, size), last, size);
    }
  }

  lemma TurnBegins(size: nat)
    ensures var s := Interleave([], size); Rising(s.log, s.channel.counter) && OneInTurn(s)
  {
  }

  lemma MoveInTurn(s: Shared, move: Move, size: nat)
    requires NumbersOk(s) && Rising(s.log, s.channel.counter) && OneInTurn(s)
    requires move.Number? ==> s.pending == map[]
    ensures var s' := Moved(s, move, size); Rising(s'.log, s'.channel.counter) && OneInTurn(s')
  {
    hide Trim;
    if move.PushNumbered? && move.i in s.pending {
      PushKeepsRisingIff(s, move.i, size);
    } else if s.log != [] {
      assert s.log[|s.log| - 1] in s.log;
    }
  }
}
