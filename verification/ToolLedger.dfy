/**
 * Tool requests and their ledger (grpc.ts, handleToolRequest; grpc-core.ts,
 * replayToolResult). Any number of requests may be in flight, several of them for the same
 * run and call id; they meet in the table agent_tool_calls, one row per run and call id.
 */
module ToolLedger {
  import opened Sequences

  datatype Key = Key(run: string, call: string)

  datatype CallStatus = InProgress | Succeeded | FailedCall

  /** A row of agent_tool_calls; values are serialised outputs. */
  datatype Entry = Entry(status: CallStatus, result: Option<string>)

  /** How a tool body ends: a value, a value that says ok is false, or an exception. */
  datatype Outcome = Value(output: string) | Structured(output: string) | Threw

  datatype Response = Response(key: Key, ok: bool, output: Option<string>)

  /** Where a request's handler stands. */
  datatype Phase = Received | Checked | Conflicted | Claimed | Executing | Returned(outcome: Outcome) | Catching | Done

  datatype Handler = Handler(key: Key, phase: Phase)

  // ---------------------------------------------------------------- the table's operations

  function Settle(entries: map<Key, Entry>, key: Key, entry: Entry): map<Key, Entry> {
    if key in entries && entries[key].status == InProgress then entries[key := entry] else entries
  }

  function EntryOf(o: Outcome): Entry {
    if o.Value? then Entry(Succeeded, Some(o.output)) else Entry(FailedCall, None)
  }

  /** replayToolResult. */
  function Replay(key: Key, e: Entry): Response {
    Response(key, e.status == Succeeded, if e.status == Succeeded then e.result else None)
  }

  /** What the handler that ran the tool answers. */
  function Answer(key: Key, o: Outcome): Response {
    if o.Value? then Response(key, true, Some(o.output)) else Response(key, false, None)
  }

  /** The ledger in its table. */
  class Table {
    var entries: map<Key, Entry>

    constructor ()
      ensures entries == map[]
    {
      entries := map[];
    }

    /** Inserts the row unless the run and call id have one. */
    method Claim(key: Key) returns (won: bool)
      modifies this
      ensures won <==> key !in old(entries)
      ensures entries == if won then old(entries)[key := Entry(InProgress, None)] else old(entries)
    {
      won := key !in entries;
      if won {
        entries := entries[key := Entry(InProgress, None)];
      }
    }

    method Finish(key: Key, entry: Entry) returns (changed: bool)
      modifies this
      ensures entries == Settle(old(entries), key, entry)
      ensures changed <==> key in old(entries) && old(entries)[key].status == InProgress
    {
      changed := key in entries && entries[key].status == InProgress;
      if changed {
        entries := entries[key := entry];
      }
    }
  }

  // ---------------------------------------------------------------- requests in flight

  datatype Sys = Sys(
    entries: map<Key, Entry>, handlers: map<nat, Handler>,
    owner: map<Key, nat>,          // the handler whose insert won
    executed: multiset<Key>,       // tool bodies started
    returned: map<Key, Outcome>,   // how they ended
    exits: multiset<Key>,          // rows that left in_progress
    responses: set<Response>)

  /** A database write: done, not done, or done although it was reported to have failed. */
  datatype Write = Written | NotWritten | WrittenUnseen

  datatype Step =
    | Receive(id: nat, key: Key)
    | Check(id: nat, ok: bool)          // everything before the claim
    | Claim(id: nat)
    | AnswerDuplicate(id: nat)
    | Prepare(id: nat, ok: bool)        // the ticket's transition, the environment
    | Return(id: nat, outcome: Outcome)
    | Persist(id: nat, write: Write)
    | Catch(id: nat, write: Write)
    | Crash

  predicate At(s: Sys, id: nat, phase: Phase) { id in s.handlers && s.handlers[id].phase == phase }

  predicate Enabled(s: Sys, step: Step) {
    match step
    case Receive(id, _) => id !in s.handlers
    case Check(id, ok) => At(s, id, Received) && (ok ==> s.handlers[id].key.call != "")
    case Claim(id) => At(s, id, Checked)
    case AnswerDuplicate(id) => At(s, id, Conflicted) && s.handlers[id].key in s.entries
    case Prepare(id, _) => At(s, id, Claimed)
    case Return(id, _) => At(s, id, Executing)
    case Persist(id, _) => id in s.handlers && s.handlers[id].phase.Returned?
    case Catch(id, _) => At(s, id, Catching)
    case Crash => true
  }

  function Move(s: Sys, id: nat, phase: Phase): Sys
    requires id in s.handlers
  {
    s.(handlers := s.handlers[id := s.handlers[id].(phase := phase)])
  }

  function Settled(s: Sys, key: Key, entry: Entry): Sys {
    s.(entries := Settle(s.entries, key, entry),
       exits := if key in s.entries && s.entries[key].status == InProgress then s.exits + multiset{key} else s.exits)
  }

  function Respond(s: Sys, r: Response): Sys { s.(responses := s.responses + {r}) }

  function Apply(s: Sys, step: Step): Sys
    requires Enabled(s, step)
  {
    match step
    case Receive(id, key) => s.(handlers := s.handlers[id := Handler(key, Received)])
    case Check(id, ok) => Move(s, id, if ok then Checked else Catching)
    case Claim(id) =>
      var key := s.handlers[id].key;
      if key in s.entries then Move(s, id, Conflicted)
      else Move(s, id, Claimed).(entries := s.entries[key := Entry(InProgress, None)], owner := s.owner[key := id])
    case AnswerDuplicate(id) =>
      var key := s.handlers[id].key;
      Respond(Move(s, id, Done), Replay(key, s.entries[key]))
    case Prepare(id, ok) =>
      if !ok then Move(s, id, Catching)
      else Move(s, id, Executing).(executed := s.executed + multiset{s.handlers[id].key})
    case Return(id, outcome) =>
      Move(s, id, if outcome.Threw? then Catching else Returned(outcome)).(returned := s.returned[s.handlers[id].key := outcome])
    case Persist(id, write) =>
      var h := s.handlers[id];
      var after := if write.NotWritten? then s else Settled(s, h.key, EntryOf(h.phase.outcome));
      if write.Written? then Respond(Move(after, id, Done), Answer(h.key, h.phase.outcome)) else Move(after, id, Catching)
    case Catch(id, write) =>
      var key := s.handlers[id].key;
      var after := if write.NotWritten? || key.run == "" || key.call == "" then s else Settled(s, key, Entry(FailedCall, None));
      // a failed write leaves the handler without an answer
      if write.Written? then Respond(Move(after, id, Done), Response(key, false, None)) else Move(after, id, Done)
    case Crash => s.(handlers := map[])
  }

  const INIT: Sys := Sys(map[], map[], map[], multiset{}, map[], multiset{}, {})

  // ---------------------------------------------------------------- the invariant

  predicate Owns(phase: Phase) { phase.Claimed? || phase.Executing? || phase.Returned? }

  /** A key's owner is the handler that claimed it; its phase tells how far it got. */
  ghost predicate HandlerInv(s: Sys, id: nat, h: Handler) {
    && (Owns(h.phase) ==> h.key in s.owner && s.owner[h.key] == id && OwnerState(s, h.key, h.phase))
    && (h.phase.Conflicted? ==> h.key in s.entries)
  }

  ghost predicate OwnerState(s: Sys, key: Key, phase: Phase) {
    && key in s.entries && s.entries[key].status != Succeeded
    && s.executed[key] == (if phase.Claimed? then 0 else 1)
    && (phase.Returned? ==> !phase.outcome.Threw? && key in s.returned && s.returned[key] == phase.outcome)
    && (!phase.Returned? ==> key !in s.returned)
  }

  ghost predicate OwnerInv(s: Sys) { forall id :: id in s.handlers ==> HandlerInv(s, id, s.handlers[id]) }

  /** A body runs at most once; success is what it returned; answers say the same. */
  ghost predicate ResultInv(s: Sys) {
    && (forall key :: key in s.executed ==> s.executed[key] == 1 && key in s.entries)
    && (forall key :: key in s.returned ==> key in s.executed)
    && (forall key :: key in s.entries && s.entries[key].status == Succeeded ==>
          key in s.returned && s.returned[key].Value? && s.entries[key].result == Some(s.returned[key].output))
    && (forall r :: r in s.responses && r.ok ==>
          r.key in s.returned && s.returned[r.key].Value? && r.output == Some(s.returned[r.key].output))
  }

  ghost predicate ExitInv(s: Sys) {
    forall key: Key :: s.exits[key] == if key in s.entries && s.entries[key].status != InProgress then 1 else 0
  }

  ghost predicate Inv(s: Sys) { OwnerInv(s) && ResultInv(s) && ExitInv(s) }

  lemma ReceiveStep(s: Sys, id: nat, key: Key)
    requires Inv(s) && Enabled(s, Receive(id, key))
    ensures Inv(Apply(s, Receive(id, key)))
  {}

  lemma CheckStep(s: Sys, id: nat, ok: bool)
    requires Inv(s) && Enabled(s, Check(id, ok))
    ensures Inv(Apply(s, Check(id, ok)))
  {}

  lemma UnclaimedKey(s: Sys, key: Key)
    requires Inv(s) && key !in s.entries
    ensures s.executed[key] == 0 && key !in s.returned && s.exits[key] == 0
    ensures forall id :: id in s.handlers && Owns(s.handlers[id].phase) ==> s.handlers[id].key != key
  {
    assert forall id :: id in s.handlers ==> HandlerInv(s, id, s.handlers[id]);
  }

  function WithRow(s: Sys, id: nat, key: Key): Sys {
    s.(entries := s.entries[key := Entry(InProgress, None)], owner := s.owner[key := id])
  }

  lemma NewRowKeepsInv(s: Sys, id: nat, key: Key)
    requires Inv(s) && key !in s.entries
    ensures Inv(WithRow(s, id, key))
  {
    UnclaimedKey(s, key);
    var next := WithRow(s, id, key);
    forall i | i in next.handlers
      ensures HandlerInv(next, i, next.handlers[i])
    {
      assert HandlerInv(s, i, s.handlers[i]);
    }
  }

  lemma BecomesOwner(s: Sys, id: nat)
    requires Inv(s) && id in s.handlers && OwnerState(s, s.handlers[id].key, Claimed)
    requires s.handlers[id].key in s.owner && s.owner[s.handlers[id].key] == id
    ensures Inv(Move(s, id, Claimed))
  {}

  lemma ClaimStep(s: Sys, id: nat)
    requires Inv(s) && Enabled(s, Claim(id))
    ensures Inv(Apply(s, Claim(id)))
  {
    var key := s.handlers[id].key;
    if key !in s.entries {
      UnclaimedKey(s, key);
      NewRowKeepsInv(s, id, key);
      BecomesOwner(WithRow(s, id, key), id);
    }
  }

  lemma DuplicateStep(s: Sys, id: nat)
    requires Inv(s) && Enabled(s, AnswerDuplicate(id))
    ensures Inv(Apply(s, AnswerDuplicate(id)))
  {}

  lemma PrepareStep(s: Sys, id: nat, ok: bool)
    requires Inv(s) && Enabled(s, Prepare(id, ok))
    ensures Inv(Apply(s, Prepare(id, ok)))
  {}

  lemma ReturnStep(s: Sys, id: nat, outcome: Outcome)
    requires Inv(s) && Enabled(s, Return(id, outcome))
    ensures Inv(Apply(s, Return(id, outcome)))
  {}

  /** A handler steps aside. */
  lemma MoveOut(s: Sys, id: nat, phase: Phase)
    requires Inv(s) && id in s.handlers && !Owns(phase) && !phase.Conflicted?
    ensures Inv(Move(s, id, phase))
  {}

  lemma SettleFailed(s: Sys, key: Key)
    requires Inv(s)
    ensures Inv(Settled(s, key, Entry(FailedCall, None)))
  {
    var next := Settled(s, key, Entry(FailedCall, None));
    forall i | i in next.handlers
      ensures HandlerInv(next, i, next.handlers[i])
    {
      assert HandlerInv(s, i, s.handlers[i]);
    }
  }

  /** Success is recorded by the owner, which has moved out of the way. */
  lemma SettleReturned(s: Sys, key: Key, outcome: Outcome)
    requires Inv(s) && key in s.returned && s.returned[key] == outcome
    requires forall id :: id in s.handlers && Owns(s.handlers[id].phase) ==> s.handlers[id].key != key
    ensures Inv(Settled(s, key, EntryOf(outcome)))
  {
    var next := Settled(s, key, EntryOf(outcome));
    forall i | i in next.handlers
      ensures HandlerInv(next, i, next.handlers[i])
    {
      assert HandlerInv(s, i, s.handlers[i]);
    }
  }

  lemma PersistStep(s: Sys, id: nat, write: Write)
    requires Inv(s) && Enabled(s, Persist(id, write))
    ensures Inv(Apply(s, Persist(id, write)))
  {
    var h := s.handlers[id];
    assert HandlerInv(s, id, h);
    var aside := Move(s, id, if write.Written? then Done else Catching);
    MoveOut(s, id, if write.Written? then Done else Catching);
    forall i | i in aside.handlers && Owns(aside.handlers[i].phase)
      ensures aside.handlers[i].key != h.key
    {
      assert HandlerInv(s, i, s.handlers[i]);
    }
    if !write.NotWritten? {
      SettleReturned(aside, h.key, h.phase.outcome);
    }
  }

  lemma FailureResponse(s: Sys, r: Response)
    requires Inv(s) && !r.ok
    ensures Inv(Respond(s, r))
  {}

  lemma CatchStep(s: Sys, id: nat, write: Write)
    requires Inv(s) && Enabled(s, Catch(id, write))
    ensures Inv(Apply(s, Catch(id, write)))
  {
    var key, aside := s.handlers[id].key, Move(s, id, Done);
    MoveOut(s, id, Done);
    SettleFailed(aside, key);
    var after := if write.NotWritten? || key.run == "" || key.call == "" then aside
                 else Settled(aside, key, Entry(FailedCall, None));
    FailureResponse(after, Response(key, false, None));
    assert Apply(s, Catch(id, write)) == if write.Written? then Respond(after, Response(key, false, None)) else after;
  }

  lemma StepKeepsInv(s: Sys, step: Step)
    requires Inv(s) && Enabled(s, step)
    ensures Inv(Apply(s, step))
  {
    match step
    case Receive(id, key) => ReceiveStep(s, id, key);
    case Check(id, ok) => CheckStep(s, id, ok);
    case Claim(id) => ClaimStep(s, id);
    case AnswerDuplicate(id) => DuplicateStep(s, id);
    case Prepare(id, ok) => PrepareStep(s, id, ok);
    case Return(id, outcome) => ReturnStep(s, id, outcome);
    case Persist(id, write) => PersistStep(s, id, write);
    case Catch(id, write) => CatchStep(s, id, write);
    case Crash =>
  }

  predicate Legal(s: Sys, steps: seq<Step>)
    decreases |steps|
  {
    steps == [] || (Enabled(s, steps[0]) && Legal(Apply(s, steps[0]), steps[1..]))
  }

  function Run(s: Sys, steps: seq<Step>): Sys
    requires Legal(s, steps)
    decreases |steps|
  {
    if steps == [] then s else Run(Apply(s, steps[0]), steps[1..])
  }

  lemma {:induction false} RunKeepsInv(s: Sys, steps: seq<Step>)
    requires Inv(s) && Legal(s, steps)
    ensures Inv(Run(s, steps))
    decreases |steps|
  {
    if steps != [] {
      StepKeepsInv(s, steps[0]);
      RunKeepsInv(Apply(s, steps[0]), steps[1..]);
    }
  }

  // ---------------------------------------------------------------- what every run satisfies

  /** However often a call is requested, its tool body starts at most once, and its row
      leaves in_progress at most once. */
  lemma ExecutedOnce(steps: seq<Step>, key: Key)
    requires Legal(INIT, steps)
    ensures Run(INIT, steps).executed[key] <= 1 && Run(INIT, steps).exits[key] <= 1
    ensures Run(INIT, steps).executed[key] == 1 ==> key in Run(INIT, steps).entries
  {
    RunKeepsInv(INIT, steps);
    assert key in Run(INIT, steps).executed || Run(INIT, steps).executed[key] == 0;
  }

  ghost predicate KeepsRow(before: map<Key, Entry>, after: map<Key, Entry>, key: Key)
    requires key in before
  {
    key in after && (before[key].status != InProgress ==> after[key] == before[key])
  }

  lemma PersistKeepsRow(s: Sys, id: nat, write: Write, key: Key)
    requires Enabled(s, Persist(id, write)) && key in s.entries
    ensures KeepsRow(s.entries, Apply(s, Persist(id, write)).entries, key)
  {}

  lemma CatchKeepsRow(s: Sys, id: nat, write: Write, key: Key)
    requires Enabled(s, Catch(id, write)) && key in s.entries
    ensures KeepsRow(s.entries, Apply(s, Catch(id, write)).entries, key)
  {}

  /** A row that has left in_progress never changes, and no row disappears. */
  lemma RowIsFinal(s: Sys, step: Step, key: Key)
    requires Enabled(s, step) && key in s.entries
    ensures KeepsRow(s.entries, Apply(s, step).entries, key)
  {
    match step
    case Claim(_) =>
    case Persist(id, write) => PersistKeepsRow(s, id, write, key);
    case Catch(id, write) => CatchKeepsRow(s, id, write, key);
    case _ => assert Apply(s, step).entries == s.entries;
  }

  /** Success, in the row or in any answer, fresh or replayed, is the value the one
      execution returned; so two ok answers to a call agree. */
  lemma SuccessIsReal(steps: seq<Step>, key: Key)
    requires Legal(INIT, steps)
    ensures var s := Run(INIT, steps);
      && (key in s.entries && s.entries[key].status == Succeeded ==>
            s.executed[key] == 1 && key in s.returned && s.returned[key].Value?
            && s.entries[key].result == Some(s.returned[key].output))
      && (forall r :: r in s.responses && r.ok && r.key == key ==>
            s.executed[key] == 1 && key in s.returned && s.returned[key].Value?
            && r.output == Some(s.returned[key].output))
      && (forall r, q :: r in s.responses && q in s.responses && r.ok && q.ok && r.key == q.key == key ==> r == q)
  {
    RunKeepsInv(INIT, steps);
  }

  /** A request for a call that has a row executes nothing, whoever sends it. */
  lemma DuplicateDoesNotRun(s: Sys, id: nat)
    requires Inv(s) && At(s, id, Checked) && s.handlers[id].key in s.entries
    ensures var next := Apply(s, Claim(id));
      && Enabled(next, AnswerDuplicate(id)) && !Enabled(next, Prepare(id, true))
      && next.entries == s.entries
      && Apply(next, AnswerDuplicate(id)).executed == s.executed
  {}

  // ---------------------------------------------------------------- answers and rows

  /** What a repeated request is told, over every run: the value the one execution returned
      once the call has succeeded, and otherwise that it failed; its row is left alone. */
  lemma RepeatIsAnswered(steps: seq<Step>, id: nat)
    requires Legal(INIT, steps) && Enabled(Run(INIT, steps), AnswerDuplicate(id))
    ensures var s := Run(INIT, steps); var key := s.handlers[id].key; var next := Apply(s, AnswerDuplicate(id));
      && key in s.entries && next.entries == s.entries && next.executed == s.executed
      && (s.entries[key].status == Succeeded ==>
            key in s.returned && s.returned[key].Value?
            && next.responses == s.responses + {Response(key, true, Some(s.returned[key].output))})
      && (s.entries[key].status != Succeeded ==> next.responses == s.responses + {Response(key, false, None)})
  {
    RunKeepsInv(INIT, steps);
  }

  /** What the request that ran the tool is told, and what it records, over every run: the
      returned value when the tool succeeded, and otherwise that it failed. The row takes it
      unless it has left in_progress meanwhile. */
  lemma OwnerIsAnswered(steps: seq<Step>, id: nat)
    requires Legal(INIT, steps) && Enabled(Run(INIT, steps), Persist(id, Written))
    ensures var s := Run(INIT, steps); var key := s.handlers[id].key; var next := Apply(s, Persist(id, Written));
      && key in s.returned && !s.returned[key].Threw? && key in s.entries && next.entries.Keys == s.entries.Keys
      && (forall k :: k in s.entries && (k != key || s.entries[key].status != InProgress) ==> next.entries[k] == s.entries[k])
      && (s.returned[key].Value? ==>
            && next.responses == s.responses + {Response(key, true, Some(s.returned[key].output))}
            && (s.entries[key].status == InProgress ==> next.entries[key] == Entry(Succeeded, Some(s.returned[key].output))))
      && (s.returned[key].Structured? ==>
            && next.responses == s.responses + {Response(key, false, None)}
            && (s.entries[key].status == InProgress ==> next.entries[key] == Entry(FailedCall, None)))
  {
    RunKeepsInv(INIT, steps);
    assert HandlerInv(Run(INIT, steps), id, Run(INIT, steps).handlers[id]);
  }

  /** A request that fails on its way is caught, wherever it fails; one whose result could
      not be recorded too. */
  lemma FailureIsCaught(s: Sys, id: nat, write: Write, next: Write)
    ensures Enabled(s, Check(id, false)) ==> Enabled(Apply(s, Check(id, false)), Catch(id, next))
    ensures Enabled(s, Prepare(id, false)) ==> Enabled(Apply(s, Prepare(id, false)), Catch(id, next))
    ensures Enabled(s, Persist(id, write)) && write != Written ==>
              && Enabled(Apply(s, Persist(id, write)), Catch(id, next))
              && Apply(s, Persist(id, write)).responses == s.responses
  {}

  /** A crash ends every request in flight and leaves the rows. */
  lemma CrashLeavesRows(s: Sys, step: Step)
    ensures Apply(s, Crash).entries == s.entries && Apply(s, Crash).responses == s.responses
    ensures Enabled(Apply(s, Crash), step) ==> step.Receive? || step.Crash?
  {}

  /** However a tool body ends: a value, good or bad, is persisted, an exception is caught. */
  lemma ReturnIsHandled(s: Sys, id: nat, outcome: Outcome, write: Write)
    requires Enabled(s, Return(id, outcome))
    ensures var next := Apply(s, Return(id, outcome)); var key := s.handlers[id].key;
      && key in next.returned && next.returned[key] == outcome && next.entries == s.entries
      && (Enabled(next, Persist(id, write)) <==> !outcome.Threw?) && (Enabled(next, Catch(id, write)) <==> outcome.Threw?)
  {}

  /** What a request that fails is told: that it failed, once its row says so too. A request
      without a run or call id touches no row. */
  lemma FailureIsAnswered(s: Sys, id: nat)
    requires Enabled(s, Catch(id, Written))
    ensures var key := s.handlers[id].key; var next := Apply(s, Catch(id, Written));
      && next.responses == s.responses + {Response(key, false, None)} && next.executed == s.executed
      && (key.run == "" || key.call == "" ==> next.entries == s.entries)
      && (key.run != "" && key.call != "" && key in s.entries ==> key in next.entries && next.entries[key].status != InProgress)
      && (forall k :: k in s.entries && (k != key || s.entries[key].status != InProgress) ==>
            k in next.entries && next.entries[k] == s.entries[k])
  {}

  /** The owner's answer and its row say the same, except when the row was settled under it. */
  lemma AnswerMatchesRow(s: Sys, id: nat)
    requires Inv(s) && Enabled(s, Persist(id, Written))
    ensures var key := s.handlers[id].key; var next := Apply(s, Persist(id, Written));
      var ok := s.handlers[id].phase.outcome.Value?;
      && key in s.entries
      && Response(key, ok, if ok then Some(s.handlers[id].phase.outcome.output) else None) in next.responses
      && (ok == (next.entries[key].status == Succeeded) <==> s.entries[key].status == InProgress || !ok)
  {
    assert HandlerInv(s, id, s.handlers[id]);
  }

  lemma OnlyTheseSettle(s: Sys, step: Step, key: Key)
    requires Enabled(s, step) && key in s.entries && s.entries[key].status == InProgress
    ensures key in Apply(s, step).entries
    ensures Apply(s, step).entries[key].status != InProgress ==> (step.Persist? || step.Catch?) && s.handlers[step.id].key == key
  {
    match step
    case Claim(_) =>
    case Persist(_, _) =>
    case Catch(_, _) =>
    case _ => assert Apply(s, step).entries == s.entries;
  }

  /** Nobody but another request for the same call, failing, settles a row under its owner. */
  lemma SettledByDuplicate(s: Sys, step: Step, id: nat, key: Key)
    requires Inv(s) && Enabled(s, step) && id in s.handlers && Owns(s.handlers[id].phase) && s.handlers[id].key == key
    requires key in s.entries && s.entries[key].status == InProgress
    ensures key in Apply(s, step).entries
    ensures Apply(s, step).entries[key].status != InProgress ==>
      || (step.Persist? && step.id == id)
      || (step.Catch? && step.id != id && s.handlers[step.id].key == key)
  {
    OnlyTheseSettle(s, step, key);
    assert HandlerInv(s, id, s.handlers[id]);
    if step.Persist? {
      assert HandlerInv(s, step.id, s.handlers[step.id]);
    }
  }

  lemma {:induction false} Extend(s: Sys, steps: seq<Step>, step: Step)
    requires Legal(s, steps) && Enabled(Run(s, steps), step)
    ensures Legal(s, steps + [step]) && Run(s, steps + [step]) == Apply(Run(s, steps), step)
    decreases |steps|
  {
    if steps == [] {
      assert ([] + [step])[1..] == [];
    } else {
      assert (steps + [step])[1..] == steps[1..] + [step];
      Extend(Apply(s, steps[0]), steps[1..], step);
    }
  }

  lemma Then(steps: seq<Step>, step: Step) returns (longer: seq<Step>)
    requires Legal(INIT, steps) && Enabled(Run(INIT, steps), step)
    ensures Legal(INIT, longer) && Run(INIT, longer) == Apply(Run(INIT, steps), step)
  {
    Extend(INIT, steps, step);
    longer := steps + [step];
  }

  const CALL := Key("run", "call")

  /** The first request is executing, a second one for the same call was refused early. */
  lemma SettledUnderOwner() returns (steps: seq<Step>)
    ensures Legal(INIT, steps)
    ensures var s := Run(INIT, steps);
      && At(s, 1, Executing) && s.handlers[1].key == CALL
      && CALL in s.entries && s.entries[CALL] == Entry(FailedCall, None)
  {
    steps := Then([], Receive(1, CALL));
    steps := Then(steps, Check(1, true));
    steps := Then(steps, Claim(1));
    steps := Then(steps, Prepare(1, true));
    steps := Then(steps, Receive(2, CALL));
    steps := Then(steps, Check(2, false));
    steps := Then(steps, Catch(2, Written));
  }

  /** The exception of AnswerMatchesRow occurs: the tool ran and its caller was told so, but
      the row says failed, and so does every later answer to the same call. */
  lemma AnswersDisagree() returns (steps: seq<Step>, output: string)
    ensures Legal(INIT, steps)
    ensures var s := Run(INIT, steps);
      && Response(CALL, true, Some(output)) in s.responses
      && CALL in s.entries && s.entries[CALL].status == FailedCall && !Replay(CALL, s.entries[CALL]).ok
  {
    output := "done";
    steps := SettledUnderOwner();
    steps := Then(steps, Return(1, Value(output)));
    steps := Then(steps, Persist(1, Written));
  }
}
