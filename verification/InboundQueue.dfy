/**
 * The backpressure queue in front of a stream's handler (grpc-core.ts,
 * createInboundQueue): messages are handled one at a time in the order they arrive, the
 * stream is paused while too many wait, and the first failure ends the handling.
 */
module InboundQueue {
  import opened Sequences

  datatype Call = Pause | Resume | Destroy

  /** Where the promise chain stands: between messages, in a handler, in its finally. */
  datatype Phase = Idle | Handling | Settling

  /** depth, paused and refused are the closure's variables; started counts the messages
      whose turn has come, settled those whose turn is over. */
  datatype Queue<M> = Queue(
    depth: int, paused: bool, refused: bool, phase: Phase,
    arrivals: seq<M>, started: nat, settled: nat, handled: seq<M>, calls: seq<Call>)

  datatype Event<M> =
    | Arrive(message: M)
    | Turn              // the next message's turn begins
    | End(ok: bool)     // its handler ends
    | Settle            // its finally

  predicate Enabled<M>(q: Queue<M>, e: Event<M>) {
    match e
    case Arrive(_) => true
    case Turn => q.phase.Idle? && q.started < |q.arrivals|
    case End(_) => q.phase.Handling?
    case Settle => q.phase.Settling?
  }

  function Apply<M>(q: Queue<M>, limit: int, e: Event<M>): Queue<M>
    requires Enabled(q, e)
  {
    match e
    case Arrive(message) =>
      var pause := q.depth + 1 >= limit && !q.paused;
      q.(depth := q.depth + 1, arrivals := q.arrivals + [message], paused := q.paused || pause,
         calls := if pause then q.calls + [Pause] else q.calls)
    case Turn =>
      if q.refused then q.(started := q.started + 1, phase := Settling)
      else q.(started := q.started + 1, phase := Handling, handled := q.handled + [q.arrivals[q.started]])
    case End(ok) =>
      if ok then q.(phase := Settling) else q.(phase := Settling, refused := true, calls := q.calls + [Destroy])
    case Settle =>
      var resume := q.depth - 1 < limit && q.paused;
      q.(depth := q.depth - 1, settled := q.settled + 1, phase := Idle, paused := q.paused && !resume,
         calls := if resume then q.calls + [Resume] else q.calls)
  }

  function Empty<M>(): Queue<M> { Queue(0, false, false, Idle, [], 0, 0, [], []) }

  // ---------------------------------------------------------------- the invariant

  /** Pause and resume calls alternate, and the last of them says whether it is paused. */
  predicate PausedBy(calls: seq<Call>, paused: bool) {
    if calls == [] then !paused
    else
      var last, rest := calls[|calls| - 1], calls[..|calls| - 1];
      match last
      case Destroy => PausedBy(rest, paused)
      case Pause => paused && PausedBy(rest, false)
      case Resume => !paused && PausedBy(rest, true)
  }

  ghost predicate Inv<M>(q: Queue<M>) {
    && q.depth == |q.arrivals| - q.settled
    && q.started == q.settled + (if q.phase.Idle? then 0 else 1) && q.started <= |q.arrivals|
    && |q.handled| <= q.started && q.handled == q.arrivals[..|q.handled|]
    && (!q.refused ==> |q.handled| == q.started)
    && (q.phase.Handling? ==> !q.refused)
    && (q.refused ==> q.handled != [])
    && PausedBy(q.calls, q.paused)
  }

  ghost predicate PauseInv<M>(q: Queue<M>, limit: int) { q.paused <==> q.depth >= limit }

  lemma CallsGrow(calls: seq<Call>, c: Call)
    ensures (calls + [c])[|calls + [c]| - 1] == c && (calls + [c])[..|calls + [c]| - 1] == calls
  {}

  lemma StepKeepsInv<M>(q: Queue<M>, limit: int, e: Event<M>)
    requires Inv(q) && Enabled(q, e)
    ensures Inv(Apply(q, limit, e))
  {
    CallsGrow(q.calls, Pause);
    CallsGrow(q.calls, Resume);
    CallsGrow(q.calls, Destroy);
    var next := Apply(q, limit, e);
    match e
    case Arrive(_) => assert next.arrivals[..|q.handled|] == q.arrivals[..|q.handled|];
    case Turn =>
      if !q.refused {
        assert q.arrivals[..|q.handled| + 1] == q.arrivals[..|q.handled|] + [q.arrivals[|q.handled|]];
      }
    case End(_) =>
    case Settle =>
  }

  lemma StepKeepsPause<M>(q: Queue<M>, limit: int, e: Event<M>)
    requires PauseInv(q, limit) && Enabled(q, e)
    ensures PauseInv(Apply(q, limit, e), limit)
  {}

  predicate Legal<M>(q: Queue<M>, limit: int, events: seq<Event<M>>)
    decreases |events|
  {
    events == [] || (Enabled(q, events[0]) && Legal(Apply(q, limit, events[0]), limit, events[1..]))
  }

  function Run<M>(q: Queue<M>, limit: int, events: seq<Event<M>>): Queue<M>
    requires Legal(q, limit, events)
    decreases |events|
  {
    if events == [] then q else Run(Apply(q, limit, events[0]), limit, events[1..])
  }

  lemma {:induction false} RunKeepsInv<M>(q: Queue<M>, limit: int, events: seq<Event<M>>)
    requires Inv(q) && Legal(q, limit, events)
    ensures Inv(Run(q, limit, events))
    ensures PauseInv(q, limit) ==> PauseInv(Run(q, limit, events), limit)
    decreases |events|
  {
    if events != [] {
      StepKeepsInv(q, limit, events[0]);
      if PauseInv(q, limit) {
        StepKeepsPause(q, limit, events[0]);
      }
      RunKeepsInv(Apply(q, limit, events[0]), limit, events[1..]);
    }
  }

  // ---------------------------------------------------------------- what every run satisfies

  /** Handled messages are a prefix of the arrivals, in order and without gaps; depth is
      what has arrived and not settled; and at most one message is being handled. */
  lemma HandledIsPrefix<M>(limit: int, events: seq<Event<M>>)
    requires Legal(Empty(), limit, events)
    ensures var q := Run(Empty(), limit, events);
      && q.handled <= q.arrivals && q.depth == |q.arrivals| - q.settled >= 0
      && q.settled <= q.started <= q.settled + 1
      && (!q.refused ==> |q.handled| == q.started)
  {
    RunKeepsInv(Empty<M>(), limit, events);
  }

  lemma {:induction false} RefusedStays<M>(q: Queue<M>, limit: int, events: seq<Event<M>>)
    requires Inv(q) && q.refused && Legal(q, limit, events)
    ensures Run(q, limit, events).handled == q.handled && Run(q, limit, events).refused
    decreases |events|
  {
    if events != [] {
      StepKeepsInv(q, limit, events[0]);
      RefusedStays(Apply(q, limit, events[0]), limit, events[1..]);
    }
  }

  lemma {:induction false} RunConcat<M>(q: Queue<M>, limit: int, a: seq<Event<M>>, b: seq<Event<M>>)
    requires Legal(q, limit, a + b)
    ensures Legal(q, limit, a) && Legal(Run(q, limit, a), limit, b)
    ensures Run(q, limit, a + b) == Run(Run(q, limit, a), limit, b)
    decreases |a|
  {
    if a == [] {
      assert a + b == b;
    } else {
      assert (a + b)[1..] == a[1..] + b;
      RunConcat(Apply(q, limit, a[0]), limit, a[1..], b);
    }
  }

  /** After the first failure nothing is handled any more. */
  lemma NothingAfterFailure<M>(limit: int, before: seq<Event<M>>, after: seq<Event<M>>)
    requires Legal(Empty(), limit, before + [End(false)] + after)
    ensures Legal(Empty(), limit, before)
    ensures Run(Empty(), limit, before + [End(false)] + after).handled == Run(Empty(), limit, before).handled
  {
    var failing: seq<Event<M>> := [End(false)];
    RunConcat(Empty<M>(), limit, before + failing, after);
    RunConcat(Empty<M>(), limit, before, failing);
    RunKeepsInv(Empty<M>(), limit, before + failing);
    assert failing[1..] == [];
    RefusedStays(Run(Empty(), limit, before + failing), limit, after);
  }

  /** A failure refuses the rest, and the stream is destroyed once, by the first one. */
  ghost predicate RefusedBy<M>(q: Queue<M>, failed: bool) {
    && q.refused == failed && (q.phase.Handling? ==> !failed)
    && multiset(q.calls)[Destroy] == (if failed then 1 else 0)
  }

  lemma RefusedStep<M>(q: Queue<M>, limit: int, e: Event<M>, failed: bool)
    requires RefusedBy(q, failed) && Enabled(q, e)
    ensures RefusedBy(Apply(q, limit, e), failed || e == End(false))
  {
    assert forall c: Call :: multiset(q.calls + [c]) == multiset(q.calls) + multiset{c};
  }

  lemma {:induction false} RefusedByFailure<M>(q: Queue<M>, limit: int, events: seq<Event<M>>, failed: bool)
    requires RefusedBy(q, failed) && Legal(q, limit, events)
    ensures RefusedBy(Run(q, limit, events), failed || End(false) in events)
    decreases |events|
  {
    if events != [] {
      RefusedStep(q, limit, events[0], failed);
      RefusedByFailure(Apply(q, limit, events[0]), limit, events[1..], failed || events[0] == End(false));
    }
  }

  /** While no handler has failed every message is handled at its turn and the stream
      stands; the first failure destroys the stream, once. */
  lemma AllHandledUntilFailure<M>(limit: int, events: seq<Event<M>>)
    requires Legal(Empty(), limit, events)
    ensures var q := Run(Empty(), limit, events);
      && (End(false) !in events ==> |q.handled| == q.started && Destroy !in q.calls)
      && (End(false) in events ==> multiset(q.calls)[Destroy] == 1)
  {
    RunKeepsInv(Empty<M>(), limit, events);
    RefusedByFailure(Empty<M>(), limit, events, false);
  }

  ghost predicate AlwaysExact<M(!new)>(limit: int) {
    forall events: seq<Event<M>> :: Legal(Empty<M>(), limit, events) ==> PauseInv(Run(Empty<M>(), limit, events), limit)
  }

  /** The stream is paused exactly when depth is at least the limit, in every reachable
      state, if and only if the limit is at least one. */
  lemma PausedExactly<M(!new)>(limit: int)
    ensures AlwaysExact<M>(limit) <==> limit >= 1
  {
    if limit >= 1 {
      forall events: seq<Event<M>> | Legal(Empty<M>(), limit, events)
        ensures PauseInv(Run(Empty<M>(), limit, events), limit)
      {
        RunKeepsInv(Empty<M>(), limit, events);
      }
    } else {
      var none: seq<Event<M>> := [];
      assert Legal(Empty<M>(), limit, none);
      assert !PauseInv(Run(Empty<M>(), limit, none), limit);
    }
  }

  /** Without a positive limit the stream, once paused, is never resumed. */
  lemma NeverResumed<M>(q: Queue<M>, limit: int, e: Event<M>)
    requires Inv(q) && limit <= 0 && q.paused && Enabled(q, e)
    ensures Apply(q, limit, e).paused
  {}

  /** When every message has settled, nothing is pending and the stream flows again. */
  lemma DrainedFlows<M>(limit: int, events: seq<Event<M>>)
    requires limit >= 1 && Legal(Empty(), limit, events)
    requires Run(Empty(), limit, events).settled == |Run(Empty(), limit, events).arrivals|
    ensures Run(Empty(), limit, events).depth == 0 && !Run(Empty(), limit, events).paused
  {
    RunKeepsInv(Empty<M>(), limit, events);
  }

  // ---------------------------------------------------------------- the closure's variables

  class Inbound<M> {
    const limit: int
    var depth: int
    var paused: bool
    var refused: bool
    var phase: Phase
    var waiting: seq<M>     // the promise chain's tail
    var calls: seq<Call>    // made on the stream
    ghost var arrivals: seq<M>
    ghost var started: nat
    ghost var settled: nat
    ghost var handled: seq<M>

    ghost function State(): Queue<M>
      reads this
    {
      Queue(depth, paused, refused, phase, arrivals, started, settled, handled, calls)
    }

    ghost predicate Valid()
      reads this
    {
      Inv(State()) && waiting == arrivals[started..]
    }

    constructor (limit: int)
      ensures Valid() && State() == Empty() && this.limit == limit
    {
      this.limit := limit;
      depth, paused, refused, phase, waiting, calls := 0, false, false, Idle, [], [];
      arrivals, started, settled, handled := [], 0, 0, [];
    }

    method Receive(message: M)
      requires Valid()
      modifies this
      ensures Valid() && State() == Apply(old(State()), limit, Arrive(message))
    {
      StepKeepsInv(State(), limit, Arrive(message));
      depth := depth + 1;
      if depth >= limit && !paused {
        paused := true;
        calls := calls + [Pause];
      }
      assert (arrivals + [message])[started..] == arrivals[started..] + [message];
      waiting := waiting + [message];
      arrivals := arrivals + [message];
    }

    /** The message to handle now, if the chain has one and has not failed. */
    method BeginTurn() returns (message: Option<M>)
      requires Valid() && Enabled(State(), Turn)
      modifies this
      ensures Valid() && State() == Apply(old(State()), limit, Turn)
      ensures message == if old(refused) then None else Some(old(arrivals)[old(started)])
    {
      StepKeepsInv(State(), limit, Turn);
      var next := waiting[0];
      waiting := waiting[1..];
      started := started + 1;
      if refused {
        phase := Settling;
        return None;
      }
      phase, handled := Handling, handled + [next];
      return Some(next);
    }

    method EndTurn(ok: bool)
      requires Valid() && Enabled(State(), End(ok))
      modifies this
      ensures Valid() && State() == Apply(old(State()), limit, End(ok))
    {
      StepKeepsInv(State(), limit, End(ok));
      phase := Settling;
      if !ok {
        refused := true;
        calls := calls + [Destroy];
      }
    }

    method Finally()
      requires Valid() && Enabled(State(), Settle)
      modifies this
      ensures Valid() && State() == Apply(old(State()), limit, Settle)
    {
      StepKeepsInv(State(), limit, Settle);
      depth := depth - 1;
      if depth < limit && paused {
        paused := false;
        calls := calls + [Resume];
      }
      phase, settled := Idle, settled + 1;
    }
  }
}
