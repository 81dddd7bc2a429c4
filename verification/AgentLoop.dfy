/**
 * The agent's read, think, act and verify loop (loop.py, run): budgets, the transcript,
 * and the gate that lets a run resolve. The model, the tools and the clock are a script
 * of answers, one per turn.
 */
module AgentLoop {
  import opened Sequences
  import opened AgentTools

  datatype Status = Resolved | Escalated | Exhausted

  /** The error field of a tool's output object. */
  datatype ErrorField = Absent | Falsy | Truthy | Object(empty: bool, unknownProperty: bool)

  datatype Output =
    | NotObject
    | OutputObject(error: ErrorField, okIsFalse: bool, unknownProperty: bool)

  predicate ToolFailure(output: Output) {
    && output.OutputObject?
    && var error := output.error;
       || error.Truthy? || (error.Object? && !error.empty)
       || output.okIsFalse
       || (if error.Object? then error.unknownProperty else output.unknownProperty)
  }

  datatype CallOutcome = TimedOut | Raised | Returned(output: Output)

  datatype Kind = InvalidOutput | Resolve | Escalate | ToolCall | Unrecognised

  /** A decision; tool is None for a name not in the registry, payload is None when the
      input fails the tool's schema. */
  datatype Decision = Decision(kind: Kind, callId: nat, tool: Option<ToolName>, payload: Option<Payload>)

  datatype Think = ThinkTimedOut | ThinkRaised(callId: nat) | Decided(decision: Decision)

  datatype Turn = Turn(deadlinePassed: bool, think: Think, deadlineAtCall: bool, outcome: CallOutcome)

  datatype KnowledgeOutcome = Answered | RaisedBeforeCount | RaisedAfterCount

  datatype Limits = Limits(maxModelTurns: int, maxToolCalls: int, maxConsecutiveFailures: int)

  datatype Message = Prompt(text: string) | Assistant(callId: nat) | Reply(callId: nat)

  /** A successful tool call. */
  datatype Call = Call(tool: ToolName, payload: Payload)

  datatype PendingVerification = PendingVerification(write: ToolName, verifier: ToolName, payload: Payload)

  // ---------------------------------------------------------------- obligations of a history

  /** Does call c clear obligation o? */
  predicate Clears(c: Call, o: PendingVerification, environment: Option<string>) {
    c.tool == o.verifier && SameResource(o.payload, c.payload, environment)
  }

  function Owes(c: Call): Option<PendingVerification> {
    if EffectOf(c.tool) == Write && VerifiedBy(c.tool).Some?
    then Some(PendingVerification(c.tool, VerifiedBy(c.tool).value, c.payload))
    else None
  }

  /** Call i is a write that no later call of the history confirms. */
  predicate Undischarged(history: seq<Call>, environment: Option<string>, i: nat)
    requires i < |history|
  {
    && Owes(history[i]).Some?
    && forall j :: i < j < |history| ==> !Clears(history[j], Owes(history[i]).value, environment)
  }

  /** The undischarged writes among the first n calls, in order. */
  function Obligations(history: seq<Call>, environment: Option<string>, n: nat): seq<PendingVerification>
    requires n <= |history|
  {
    if n == 0 then []
    else Obligations(history, environment, n - 1) + ObligationAt(history, environment, n - 1)
  }

  /** What RESOLVED promises about a history. */
  ghost predicate EveryWriteVerified(history: seq<Call>, environment: Option<string>) {
    forall i :: 0 <= i < |history| && Owes(history[i]).Some? ==>
      exists j :: i < j < |history| && Clears(history[j], Owes(history[i]).value, environment)
  }

  lemma NoToolVerifiesItself(c: Call)
    ensures Owes(c).Some? ==> Owes(c).value.verifier != c.tool
  {}

  lemma UndischargedAppend(history: seq<Call>, environment: Option<string>, i: nat, c: Call)
    requires i < |history|
    ensures Undischarged(history + [c], environment, i) <==>
            Undischarged(history, environment, i) && !Clears(c, Owes(history[i]).value, environment)
  {
    var longer := history + [c];
    assert longer[i] == history[i] && longer[|history|] == c;
    if Undischarged(history, environment, i) && !Clears(c, Owes(history[i]).value, environment) {
      forall j | i < j < |longer|
        ensures !Clears(longer[j], Owes(history[i]).value, environment)
      {
        assert j < |history| ==> longer[j] == history[j];
      }
    }
    if Undischarged(longer, environment, i) {
      forall j | i < j < |history|
        ensures !Clears(history[j], Owes(history[i]).value, environment)
      {
        assert longer[j] == history[j];
      }
    }
  }

  /** The obligation of call i alone. */
  function ObligationAt(history: seq<Call>, environment: Option<string>, i: nat): seq<PendingVerification>
    requires i < |history|
  {
    if Undischarged(history, environment, i) then [Owes(history[i]).value] else []
  }

  /** What is left of a list of obligations after a call. */
  function Remaining(obligations: seq<PendingVerification>, c: Call, environment: Option<string>): seq<PendingVerification> {
    Filter(obligations, o => !Clears(c, o, environment))
  }

  lemma RemainingConcat(a: seq<PendingVerification>, b: seq<PendingVerification>, c: Call, environment: Option<string>)
    ensures Remaining(a + b, c, environment) == Remaining(a, c, environment) + Remaining(b, c, environment)
  {
    FilterConcat(a, b, o => !Clears(c, o, environment));
  }

  lemma ObligationAtAppend(history: seq<Call>, environment: Option<string>, i: nat, c: Call)
    requires i < |history|
    ensures ObligationAt(history + [c], environment, i)
         == Remaining(ObligationAt(history, environment, i), c, environment)
  {
    UndischargedAppend(history, environment, i, c);
    assert (history + [c])[i] == history[i];
  }

  lemma RemainingJoin(a: seq<PendingVerification>, b: seq<PendingVerification>, c: Call, environment: Option<string>,
                      a2: seq<PendingVerification>, b2: seq<PendingVerification>)
    requires a2 == Remaining(a, c, environment) && b2 == Remaining(b, c, environment)
    ensures a2 + b2 == Remaining(a + b, c, environment)
  {
    RemainingConcat(a, b, c, environment);
  }

  lemma {:induction false} ObligationsAppend(history: seq<Call>, environment: Option<string>, n: nat, c: Call)
    requires n <= |history|
    ensures Obligations(history + [c], environment, n)
         == Remaining(Obligations(history, environment, n), c, environment)
  {
    if n > 0 {
      var longer := history + [c];
      ObligationsAppend(history, environment, n - 1, c);
      ObligationAtAppend(history, environment, n - 1, c);
      RemainingJoin(Obligations(history, environment, n - 1), ObligationAt(history, environment, n - 1), c, environment,
                    Obligations(longer, environment, n - 1), ObligationAt(longer, environment, n - 1));
    }
  }

  /** The loop's list update is exact: append the new write, drop what the call clears. */
  lemma PendingIsExact(history: seq<Call>, environment: Option<string>, c: Call)
    ensures var owed := if Owes(c).Some? then [Owes(c).value] else [];
            Remaining(Obligations(history, environment, |history|) + owed, c, environment)
            == Obligations(history + [c], environment, |history| + 1)
  {
    var owed := if Owes(c).Some? then [Owes(c).value] else [];
    ObligationsAppend(history, environment, |history|, c);
    RemainingConcat(Obligations(history, environment, |history|), owed, c, environment);
    NoToolVerifiesItself(c);
    assert (history + [c])[|history|] == c;
  }

  lemma BothEmpty<T>(a: seq<T>, b: seq<T>)
    ensures a + b == [] <==> a == [] && b == []
  {
    assert |a + b| == |a| + |b|;
  }

  lemma {:induction false} NoObligationsAllVerified(history: seq<Call>, environment: Option<string>, n: nat)
    requires n <= |history|
    ensures Obligations(history, environment, n) == [] <==> forall i :: 0 <= i < n ==> !Undischarged(history, environment, i)
  {
    if n > 0 {
      NoObligationsAllVerified(history, environment, n - 1);
      BothEmpty(Obligations(history, environment, n - 1), ObligationAt(history, environment, n - 1));
    }
  }

  /** The list is empty exactly when every write was confirmed. */
  lemma EmptyPendingIsVerified(history: seq<Call>, environment: Option<string>)
    ensures Obligations(history, environment, |history|) == [] <==> EveryWriteVerified(history, environment)
  {
    NoObligationsAllVerified(history, environment, |history|);
    forall i | 0 <= i < |history| && Owes(history[i]).Some?
      ensures Undischarged(history, environment, i)
              <==> !exists j :: i < j < |history| && Clears(history[j], Owes(history[i]).value, environment)
    {}
  }

  // ---------------------------------------------------------------- transcript and streaks

  /** Assistant calls and tool replies alternate with equal ids. */
  predicate Paired(messages: seq<Message>) {
    && |messages| % 2 == 0
    && forall k :: 0 <= k < |messages| / 2 ==>
         messages[2 * k].Assistant? && messages[2 * k + 1] == Reply(messages[2 * k].callId)
  }

  /** The prompt the run started from, then pairs. */
  predicate WellShaped(prompt: seq<Message>, transcript: seq<Message>) {
    prompt <= transcript && Paired(transcript[|prompt|..])
  }

  lemma AppendPair(prompt: seq<Message>, transcript: seq<Message>, id: nat)
    requires WellShaped(prompt, transcript)
    ensures WellShaped(prompt, transcript + [Assistant(id)] + [Reply(id)])
  {
    var t := transcript + [Assistant(id)] + [Reply(id)];
    var tail := transcript[|prompt|..];
    assert t[|prompt|..] == tail + [Assistant(id), Reply(id)];
    forall k | 0 <= k < (|tail| + 2) / 2
      ensures t[|prompt|..][2 * k].Assistant? && t[|prompt|..][2 * k + 1] == Reply(t[|prompt|..][2 * k].callId)
    {
      if k < |tail| / 2 {
        assert t[|prompt|..][2 * k] == tail[2 * k] && t[|prompt|..][2 * k + 1] == tail[2 * k + 1];
      }
    }
  }

  ghost predicate SucceedsWithin(turns: seq<bool>, from: nat, to: nat) {
    exists j :: from <= j <= to && j < |turns| && turns[j]
  }

  /** Every window of bound + 1 turns holds a successful call. */
  ghost predicate StreaksAtMost(turns: seq<bool>, bound: nat) {
    forall from, to :: 0 <= from && to == from + bound && to < |turns| ==> SucceedsWithin(turns, from, to)
  }

  /** The last `failures` turns failed and the one before them, if any, succeeded. */
  ghost predicate Trailing(turns: seq<bool>, failures: nat) {
    && failures <= |turns|
    && (forall j :: |turns| - failures <= j < |turns| ==> !turns[j])
    && (failures < |turns| ==> turns[|turns| - failures - 1])
  }

  /** The number of turns since the last successful one. */
  function Streak(turns: seq<bool>): nat {
    if turns == [] || turns[|turns| - 1] then 0 else Streak(turns[..|turns| - 1]) + 1
  }

  lemma AppendTurn(turns: seq<bool>, failures: nat, bound: nat, success: bool)
    requires StreaksAtMost(turns, bound) && Trailing(turns, failures) && failures < bound
    ensures StreaksAtMost(turns + [success], bound)
    ensures Trailing(turns + [success], if success then 0 else failures + 1)
  {
    var longer := turns + [success];
    forall from, to | 0 <= from && to == from + bound && to < |longer|
      ensures SucceedsWithin(longer, from, to)
    {
      if to < |turns| {
        assert SucceedsWithin(turns, from, to);
        var j :| from <= j <= to && j < |turns| && turns[j];
        assert longer[j];
      } else {
        assert longer[|turns| - failures - 1];
      }
    }
  }

  function StreakBound(limits: Limits): nat { Max(limits.maxConsecutiveFailures, 1) + 1 }

  lemma {:induction false} StreakFails(turns: seq<bool>)
    ensures Streak(turns) <= |turns| && forall j :: |turns| - Streak(turns) <= j < |turns| ==> !turns[j]
  {
    if turns != [] && !turns[|turns| - 1] {
      StreakFails(turns[..|turns| - 1]);
    }
  }

  // ---------------------------------------------------------------- the run

  predicate Decides(turn: Turn, kind: Kind) { turn.think.Decided? && turn.think.decision.kind == kind }

  /** The turn asks for a known tool with a valid input, and the tool answers in time and
      without reporting a failure. */
  predicate TurnSucceeds(turn: Turn) {
    && Decides(turn, ToolCall) && turn.think.decision.tool.Some? && turn.think.decision.payload.Some?
    && !turn.deadlineAtCall && turn.outcome.Returned? && !ToolFailure(turn.outcome.output)
  }

  function CallOf(turn: Turn, environment: Option<string>): Call
    requires TurnSucceeds(turn)
  {
    var d := turn.think.decision;
    Call(d.tool.value, WithEnvironment(d.tool.value, d.payload.value, environment))
  }

  /** The calls of the turns marked successful. */
  function SuccessfulCalls(script: nat -> Turn, turns: seq<bool>, environment: Option<string>): seq<Call> {
    if turns == [] then []
    else
      var n := |turns| - 1;
      SuccessfulCalls(script, turns[..n], environment)
      + if turns[n] && TurnSucceeds(script(n)) then [CallOf(script(n), environment)] else []
  }

  /** Resolutions asked for since the last successful call. */
  function ResolveAttempts(script: nat -> Turn, turns: seq<bool>): nat {
    if turns == [] || turns[|turns| - 1] then 0
    else ResolveAttempts(script, turns[..|turns| - 1]) + if Decides(script(|turns| - 1), Resolve) then 1 else 0
  }

  lemma NextTurn(script: nat -> Turn, turns: seq<bool>, environment: Option<string>, success: bool)
    ensures var n, longer := |turns|, turns + [success];
      && SuccessfulCalls(script, longer, environment)
         == SuccessfulCalls(script, turns, environment)
            + (if success && TurnSucceeds(script(n)) then [CallOf(script(n), environment)] else [])
      && ResolveAttempts(script, longer)
         == (if success then 0 else ResolveAttempts(script, turns) + if Decides(script(n), Resolve) then 1 else 0)
      && Streak(longer) == if success then 0 else Streak(turns) + 1
  {
    assert (turns + [success])[..|turns|] == turns;
  }

  /** The run's fixed inputs. */
  datatype Context = Context(
    environment: Option<string>, limits: Limits, prompt: seq<Message>, knowledgeCallId: nat, counted: bool)

  /** The loop's variables, and what a run leaves behind: its successful calls in order,
      the number of calls issued (the forced knowledge search included), whether each model
      turn ended in a successful call, and the transcript at each model call. */
  datatype State = State(
    toolCalls: int, consecutiveFailures: int, resolutionRejections: int,
    pending: seq<PendingVerification>, recordedCmdbObservation: bool, transcript: seq<Message>,
    history: seq<Call>, attempts: nat, turns: seq<bool>, views: seq<seq<Message>>)

  // ---------------------------------------------------------------- the script's run

  /** A known tool with a valid input is asked for. */
  predicate IsCall(turn: Turn) {
    Decides(turn, ToolCall) && turn.think.decision.tool.Some? && turn.think.decision.payload.Some?
  }

  function CallBudget(c: Context): int { c.limits.maxToolCalls - if c.counted then 1 else 0 }

  /** Tool calls issued in the turns so far, the knowledge search apart. */
  function CallsMade(c: Context, script: nat -> Turn, turns: seq<bool>): nat {
    if turns == [] then 0
    else
      var n := |turns| - 1;
      var before := CallsMade(c, script, turns[..n]);
      if IsCall(script(n)) && !script(n).deadlineAtCall && before < CallBudget(c) then before + 1 else before
  }

  function AnswerId(turn: Turn): nat {
    match turn.think
    case ThinkTimedOut => 0
    case ThinkRaised(callId) => callId
    case Decided(d) => d.callId
  }

  /** What the model is shown before turn n. */
  function TranscriptAt(c: Context, script: nat -> Turn, n: nat): seq<Message> {
    if n == 0 then c.prompt + [Assistant(c.knowledgeCallId)] + [Reply(c.knowledgeCallId)]
    else TranscriptAt(c, script, n - 1) + [Assistant(AnswerId(script(n - 1)))] + [Reply(AnswerId(script(n - 1)))]
  }

  /** What a resolution needs of the calls so far. */
  ghost predicate Discharged(history: seq<Call>, environment: Option<string>) {
    EveryWriteVerified(history, environment) && Recorded(history)
  }

  ghost predicate DischargedAfter(c: Context, script: nat -> Turn, turns: seq<bool>) {
    Discharged(SuccessfulCalls(script, turns, c.environment), c.environment)
  }

  /** Turn n never gets an answer: the turns are used up, the deadline has passed, or the
      model call times out. */
  predicate StopsBefore(c: Context, script: nat -> Turn, n: nat) {
    n >= c.limits.maxModelTurns || script(n).deadlinePassed || script(n).think.ThinkTimedOut?
  }

  /** The answer of the next turn ends the run. It exhausts it at the call ceiling, at the
      deadline of a call, or by a failure that reaches the failure ceiling; a rejected
      resolution does not consult that ceiling. */
  ghost predicate EndsTurn(c: Context, script: nat -> Turn, turns: seq<bool>, status: Status) {
    var t := script(|turns|);
    match status
    case Resolved => Decides(t, Resolve) && DischargedAfter(c, script, turns)
    case Escalated =>
      Decides(t, Escalate)
      || (Decides(t, Resolve) && !DischargedAfter(c, script, turns) && ResolveAttempts(script, turns) >= 1)
    case Exhausted =>
      && !Decides(t, Resolve) && !Decides(t, Escalate)
      && (|| (Decides(t, ToolCall) && CallsMade(c, script, turns) >= CallBudget(c))
          || (IsCall(t) && (t.deadlineAtCall || t.outcome.TimedOut?))
          || (!TurnSucceeds(t) && Streak(turns) + 1 >= c.limits.maxConsecutiveFailures))
  }

  ghost predicate GoesOn(c: Context, script: nat -> Turn, turns: seq<bool>) {
    && !StopsBefore(c, script, |turns|)
    && !EndsTurn(c, script, turns, Resolved) && !EndsTurn(c, script, turns, Escalated) && !EndsTurn(c, script, turns, Exhausted)
  }

  /** The loop goes round through all these turns. */
  ghost predicate Underway(c: Context, script: nat -> Turn, turns: seq<bool>) {
    turns == [] ||
    var n := |turns| - 1;
    Underway(c, script, turns[..n]) && GoesOn(c, script, turns[..n]) && turns[n] == TurnSucceeds(script(n))
  }

  /** The run ends after these turns, between two of them. */
  ghost predicate EndsBetween(c: Context, script: nat -> Turn, turns: seq<bool>) {
    Underway(c, script, turns) && StopsBefore(c, script, |turns|)
  }

  /** The run ends in the last of these turns. */
  ghost predicate EndsInLast(c: Context, script: nat -> Turn, turns: seq<bool>, status: Status) {
    && turns != [] && !turns[|turns| - 1]
    && var before := turns[..|turns| - 1];
       Underway(c, script, before) && !StopsBefore(c, script, |before|) && EndsTurn(c, script, before, status)
  }

  ghost predicate ViewsAre(c: Context, script: nat -> Turn, views: seq<seq<Message>>, count: nat) {
    |views| == count && forall k :: 0 <= k < count ==> views[k] == TranscriptAt(c, script, k)
  }

  /** How a run ends, with what it leaves behind. */
  ghost predicate Ended(c: Context, script: nat -> Turn, s: State, status: Status) {
    var n := |s.turns|;
    && s.history == SuccessfulCalls(script, s.turns, c.environment)
    && s.attempts == 1 + CallsMade(c, script, s.turns)
    && (|| (EndsBetween(c, script, s.turns) && status == Exhausted
            && ViewsAre(c, script, s.views, if n < c.limits.maxModelTurns && !script(n).deadlinePassed then n + 1 else n))
        || (EndsInLast(c, script, s.turns, status) && ViewsAre(c, script, s.views, n)))
  }

  /** Budgets and shapes that hold of every state, the last one included. */
  ghost predicate Bounded(c: Context, s: State) {
    && |s.turns| <= Max(c.limits.maxModelTurns, 0)
    && s.attempts <= (if c.counted then Max(c.limits.maxToolCalls, 1) else Max(c.limits.maxToolCalls, 0) + 1)
    && StreaksAtMost(s.turns, StreakBound(c.limits))
    && (forall v :: v in s.views ==> WellShaped(c.prompt, v))
    && (forall i :: 0 <= i < |s.history| ==>
          s.history[i].payload == WithEnvironment(s.history[i].tool, s.history[i].payload, c.environment))
  }

  ghost predicate Recorded(history: seq<Call>) {
    exists i :: 0 <= i < |history| && history[i].tool == CmdbRecordObservation
  }

  /** What holds whenever the loop goes round. */
  ghost predicate Inv(c: Context, s: State) {
    && Bounded(c, s)
    && s.toolCalls >= 0 && s.attempts == s.toolCalls + (if c.counted then 0 else 1)
    && 0 <= s.resolutionRejections <= 1 && s.resolutionRejections <= s.consecutiveFailures
    && s.consecutiveFailures <= Max(c.limits.maxConsecutiveFailures - 1, 0) + s.resolutionRejections
    && Trailing(s.turns, s.consecutiveFailures)
    && s.pending == Obligations(s.history, c.environment, |s.history|)
    && (s.recordedCmdbObservation <==> Recorded(s.history))
    && WellShaped(c.prompt, s.transcript)
  }

  /** A turn that ends without a successful call and without a reply being appended. */
  function Unsuccessful(s: State): State { s.(turns := s.turns + [false]) }

  /** _append_call, _failure and the counter: every failing turn. */
  function Fail(s: State, callId: nat): State {
    s.(turns := s.turns + [false], consecutiveFailures := s.consecutiveFailures + 1,
       transcript := s.transcript + [Assistant(callId)] + [Reply(callId)])
  }

  function Succeed(c: Context, s: State, callId: nat, call: Call): State {
    var owed := if EffectOf(call.tool) == Write && VerifiedBy(call.tool).Some?
                then [PendingVerification(call.tool, VerifiedBy(call.tool).value, call.payload)] else [];
    s.(turns := s.turns + [true], consecutiveFailures := 0, resolutionRejections := 0,
       recordedCmdbObservation := s.recordedCmdbObservation || call.tool == CmdbRecordObservation,
       history := s.history + [call],
       transcript := s.transcript + [Assistant(callId)] + [Reply(callId)],
       pending := Remaining(s.pending + owed, call, c.environment))
  }

  lemma UnsuccessfulBounded(c: Context, s: State)
    requires Inv(c, s) && |s.turns| < c.limits.maxModelTurns
    ensures Bounded(c, Unsuccessful(s))
  {
    AppendTurn(s.turns, s.consecutiveFailures, StreakBound(c.limits), false);
  }

  /** A failing turn leaves a sound state; below the ceiling, or on a first rejection, the
      loop may go round with it. */
  lemma FailKeepsInv(c: Context, s: State, callId: nat, rejected: bool)
    requires Inv(c, s) && |s.turns| < c.limits.maxModelTurns
    ensures var next := Fail(s, callId);
            var counted := if rejected then next.(resolutionRejections := s.resolutionRejections + 1) else next;
            && Bounded(c, counted)
            && ((if rejected then counted.resolutionRejections < 2
                 else next.consecutiveFailures < c.limits.maxConsecutiveFailures) ==> Inv(c, counted))
  {
    AppendTurn(s.turns, s.consecutiveFailures, StreakBound(c.limits), false);
    AppendPair(c.prompt, s.transcript, callId);
  }

  lemma RecordedGrows(history: seq<Call>, call: Call)
    ensures Recorded(history) || call.tool == CmdbRecordObservation <==> Recorded(history + [call])
  {
    var longer := history + [call];
    assert longer[|history|] == call;
    if Recorded(history) {
      var i :| 0 <= i < |history| && history[i].tool == CmdbRecordObservation;
      assert longer[i].tool == CmdbRecordObservation;
    }
  }

  lemma SucceedBounded(c: Context, s: State, callId: nat, call: Call)
    requires Inv(c, s) && |s.turns| < c.limits.maxModelTurns
    requires call.payload == WithEnvironment(call.tool, call.payload, c.environment)
    ensures Bounded(c, Succeed(c, s, callId, call)) && Trailing(Succeed(c, s, callId, call).turns, 0)
  {
    AppendTurn(s.turns, s.consecutiveFailures, StreakBound(c.limits), true);
  }

  lemma SucceedKeepsInv(c: Context, s: State, callId: nat, call: Call)
    requires Inv(c, s) && |s.turns| < c.limits.maxModelTurns
    requires call.payload == WithEnvironment(call.tool, call.payload, c.environment)
    ensures Inv(c, Succeed(c, s, callId, call))
  {
    SucceedBounded(c, s, callId, call);
    AppendPair(c.prompt, s.transcript, callId);
    PendingIsExact(s.history, c.environment, call);
    RecordedGrows(s.history, call);
  }

  lemma DefaultingIsIdempotent(t: ToolName, p: Payload, environment: Option<string>)
    ensures var q := WithEnvironment(t, p, environment); WithEnvironment(t, q, environment) == q
  {}

  lemma CountedKeepsInv(c: Context, s: State)
    requires Inv(c, s) && s.toolCalls < c.limits.maxToolCalls
    ensures Inv(c, s.(toolCalls := s.toolCalls + 1, attempts := s.attempts + 1))
  {}

  /** A call with a valid input, as far as it comes. */
  method IssueCall(c: Context, s0: State, turn: Turn, d: Decision) returns (s: State, stop: Option<Status>)
    requires Inv(c, s0) && |s0.turns| < c.limits.maxModelTurns && s0.toolCalls < c.limits.maxToolCalls
    requires IsCall(turn) && d == turn.think.decision
    ensures Bounded(c, s) && (stop.None? ==> Inv(c, s)) && s.views == s0.views
    ensures s.turns == s0.turns + [TurnSucceeds(turn)]
    ensures s.history == s0.history + if TurnSucceeds(turn) then [CallOf(turn, c.environment)] else []
    ensures s.attempts == s0.attempts + if turn.deadlineAtCall then 0 else 1
    ensures stop == if turn.deadlineAtCall || turn.outcome.TimedOut?
                       || (!TurnSucceeds(turn) && s0.consecutiveFailures + 1 >= c.limits.maxConsecutiveFailures)
                    then Some(Exhausted) else None
    ensures stop.None? ==>
      && s.resolutionRejections == (if TurnSucceeds(turn) then 0 else s0.resolutionRejections)
      && s.consecutiveFailures == (if TurnSucceeds(turn) then 0 else s0.consecutiveFailures + 1)
      && s.transcript == s0.transcript + [Assistant(d.callId)] + [Reply(d.callId)]
  {
    s := s0;
    var limit := c.limits.maxConsecutiveFailures;
    var payload := WithEnvironment(d.tool.value, d.payload.value, c.environment);
    CountedKeepsInv(c, s);
    if turn.deadlineAtCall {
      UnsuccessfulBounded(c, s0);
      return Unsuccessful(s.(toolCalls := s.toolCalls + 1)), Some(Exhausted);
    }
    s := s.(toolCalls := s.toolCalls + 1, attempts := s.attempts + 1);
    if turn.outcome.TimedOut? {
      UnsuccessfulBounded(c, s);
      return Unsuccessful(s), Some(Exhausted);
    }
    if turn.outcome.Raised? || ToolFailure(turn.outcome.output) {
      FailKeepsInv(c, s, d.callId, false);
      s := Fail(s, d.callId);
      return s, if s.consecutiveFailures >= limit then Some(Exhausted) else None;
    }
    DefaultingIsIdempotent(d.tool.value, d.payload.value, c.environment);
    SucceedKeepsInv(c, s, d.callId, Call(d.tool.value, payload));
    return Succeed(c, s, d.callId, Call(d.tool.value, payload)), None;
  }

  /** One tool call of a decision that passed the budget check. */
  method CallTool(c: Context, s0: State, turn: Turn, d: Decision) returns (s: State, stop: Option<Status>)
    requires Inv(c, s0) && |s0.turns| < c.limits.maxModelTurns && s0.toolCalls < c.limits.maxToolCalls
    requires Decides(turn, ToolCall) && d == turn.think.decision
    ensures Bounded(c, s) && (stop.None? ==> Inv(c, s))
    ensures s.turns == s0.turns + [TurnSucceeds(turn)]
    ensures s.history == s0.history + if TurnSucceeds(turn) then [CallOf(turn, c.environment)] else []
    ensures s.views == s0.views && s.attempts == s0.attempts + if IsCall(turn) && !turn.deadlineAtCall then 1 else 0
    ensures stop.Some? <==> (IsCall(turn) && (turn.deadlineAtCall || turn.outcome.TimedOut?))
                            || (!TurnSucceeds(turn) && s0.consecutiveFailures + 1 >= c.limits.maxConsecutiveFailures)
    ensures stop.Some? ==> stop == Some(Exhausted) && !TurnSucceeds(turn)
    ensures stop.None? ==>
      && s.resolutionRejections == (if TurnSucceeds(turn) then 0 else s0.resolutionRejections)
      && s.consecutiveFailures == (if TurnSucceeds(turn) then 0 else s0.consecutiveFailures + 1)
      && s.transcript == s0.transcript + [Assistant(d.callId)] + [Reply(d.callId)]
  {
    if d.tool.None? || d.payload.None? {
      FailKeepsInv(c, s0, d.callId, false);
      s := Fail(s0, d.callId);
      return s, if s.consecutiveFailures >= c.limits.maxConsecutiveFailures then Some(Exhausted) else None;
    }
    s, stop := IssueCall(c, s0, turn, d);
  }

  /** The state of a loop that goes round, against the script so far. */
  ghost predicate Traced(c: Context, script: nat -> Turn, s: State) {
    && Underway(c, script, s.turns)
    && s.history == SuccessfulCalls(script, s.turns, c.environment)
    && s.attempts == 1 + CallsMade(c, script, s.turns)
    && s.consecutiveFailures == Streak(s.turns)
    && s.resolutionRejections == ResolveAttempts(script, s.turns)
    && s.transcript == TranscriptAt(c, script, |s.turns|)
  }

  lemma NextCalls(c: Context, script: nat -> Turn, turns: seq<bool>, success: bool)
    ensures var t := script(|turns|);
      CallsMade(c, script, turns + [success])
      == CallsMade(c, script, turns)
         + if IsCall(t) && !t.deadlineAtCall && CallsMade(c, script, turns) < CallBudget(c) then 1 else 0
  {
    assert (turns + [success])[..|turns|] == turns;
  }

  lemma EndOfTurn(c: Context, script: nat -> Turn, s: State, next: State, status: Status)
    requires Traced(c, script, s) && !StopsBefore(c, script, |s.turns|) && EndsTurn(c, script, s.turns, status)
    requires next.turns == s.turns + [false] && next.history == s.history
    requires next.attempts == 1 + CallsMade(c, script, next.turns) && ViewsAre(c, script, next.views, |next.turns|)
    ensures Ended(c, script, next, status)
  {
    NextTurn(script, s.turns, c.environment, false);
    assert next.turns[..|s.turns|] == s.turns;
  }

  lemma GoRound(c: Context, script: nat -> Turn, s: State, next: State)
    requires Traced(c, script, s) && GoesOn(c, script, s.turns)
    requires var t := script(|s.turns|); var success := TurnSucceeds(t);
      && next.turns == s.turns + [success]
      && next.history == s.history + (if success then [CallOf(t, c.environment)] else [])
      && next.consecutiveFailures == (if success then 0 else s.consecutiveFailures + 1)
      && next.resolutionRejections
         == (if success then 0 else s.resolutionRejections + if Decides(t, Resolve) then 1 else 0)
      && next.transcript == s.transcript + [Assistant(AnswerId(t))] + [Reply(AnswerId(t))]
    requires next.attempts == 1 + CallsMade(c, script, next.turns)
    ensures Traced(c, script, next)
  {
    var success := TurnSucceeds(script(|s.turns|));
    NextTurn(script, s.turns, c.environment, success);
    assert next.turns[..|s.turns|] == s.turns;
    if !success {
      assert s.history + [] == s.history;
    }
  }

  /** Showing the transcript to the model. */
  function Shown(s: State): State { s.(views := s.views + [s.transcript]) }

  lemma ShowingKeeps(c: Context, script: nat -> Turn, s: State)
    requires Inv(c, s) && Traced(c, script, s) && ViewsAre(c, script, s.views, |s.turns|)
    ensures Inv(c, Shown(s)) && Traced(c, script, Shown(s)) && ViewsAre(c, script, Shown(s).views, |s.turns| + 1)
  {}

  /** A model call that failed, or an answer that is no decision. */
  method AnswerInvalid(c: Context, s0: State, callId: nat, ghost script: nat -> Turn) returns (s: State, stop: Option<Status>)
    requires Inv(c, s0) && Traced(c, script, s0) && ViewsAre(c, script, s0.views, |s0.turns| + 1)
    requires !StopsBefore(c, script, |s0.turns|) && callId == AnswerId(script(|s0.turns|))
    requires var t := script(|s0.turns|); t.think.ThinkRaised? || Decides(t, InvalidOutput) || Decides(t, Unrecognised)
    ensures Bounded(c, s)
    ensures stop.None? ==> Inv(c, s) && Traced(c, script, s)
                           && |s.turns| == |s0.turns| + 1 && ViewsAre(c, script, s.views, |s.turns|)
    ensures stop.Some? ==> Ended(c, script, s, stop.value)
  {
    NextCalls(c, script, s0.turns, false);
    FailKeepsInv(c, s0, callId, false);
    s := Fail(s0, callId);
    if s.consecutiveFailures >= c.limits.maxConsecutiveFailures {
      EndOfTurn(c, script, s0, s, Exhausted);
      return s, Some(Exhausted);
    }
    GoRound(c, script, s0, s);
    return s, None;
  }

  /** What the loop does with the model's answer: goes round, or ends the run. */
  method TakeTurn(c: Context, s0: State, turn: Turn, ghost script: nat -> Turn) returns (s: State, stop: Option<Status>)
    requires Inv(c, s0) && Traced(c, script, s0) && ViewsAre(c, script, s0.views, |s0.turns| + 1)
    requires turn == script(|s0.turns|) && !StopsBefore(c, script, |s0.turns|)
    ensures Bounded(c, s)
    ensures stop.None? ==> Inv(c, s) && Traced(c, script, s)
                           && |s.turns| == |s0.turns| + 1 && ViewsAre(c, script, s.views, |s.turns|)
    ensures stop.Some? ==> Ended(c, script, s, stop.value)
  {
    s := s0;
    UnsuccessfulBounded(c, s);
    NextCalls(c, script, s.turns, false);
    if turn.think.ThinkRaised? || turn.think.decision.kind in {InvalidOutput, Unrecognised} {
      s, stop := AnswerInvalid(c, s, if turn.think.ThinkRaised? then turn.think.callId else turn.think.decision.callId, script);
      return;
    }
    var d := turn.think.decision;
    if d.kind == Resolve {
      s, stop := AnswerResolve(c, s, d.callId, script);
      return;
    }
    if d.kind == Escalate {
      EndOfTurn(c, script, s0, Unsuccessful(s), Escalated);
      return Unsuccessful(s), Some(Escalated);
    }
    if s.toolCalls >= c.limits.maxToolCalls {
      EndOfTurn(c, script, s0, Unsuccessful(s), Exhausted);
      return Unsuccessful(s), Some(Exhausted);
    }
    NextCalls(c, script, s.turns, TurnSucceeds(turn));
    s, stop := CallTool(c, s, turn, d);
    if stop.Some? {
      EndOfTurn(c, script, s0, s, Exhausted);
    } else {
      GoRound(c, script, s0, s);
    }
  }

  /** The gate in front of a resolution. */
  method AnswerResolve(c: Context, s0: State, callId: nat, ghost script: nat -> Turn) returns (s: State, stop: Option<Status>)
    requires Inv(c, s0) && Traced(c, script, s0) && ViewsAre(c, script, s0.views, |s0.turns| + 1)
    requires !StopsBefore(c, script, |s0.turns|)
    requires Decides(script(|s0.turns|), Resolve) && callId == AnswerId(script(|s0.turns|))
    ensures Bounded(c, s)
    ensures stop.None? ==> Inv(c, s) && Traced(c, script, s)
                           && |s.turns| == |s0.turns| + 1 && ViewsAre(c, script, s.views, |s.turns|)
    ensures stop.Some? ==> Ended(c, script, s, stop.value)
  {
    s := s0;
    UnsuccessfulBounded(c, s);
    NextCalls(c, script, s.turns, false);
    EmptyPendingIsVerified(s.history, c.environment);
    if s.pending == [] && s.recordedCmdbObservation {
      EndOfTurn(c, script, s0, Unsuccessful(s), Resolved);
      return Unsuccessful(s), Some(Resolved);
    }
    FailKeepsInv(c, s, callId, true);
    s := Fail(s, callId).(resolutionRejections := s.resolutionRejections + 1);
    if s.resolutionRejections >= 2 {
      EndOfTurn(c, script, s0, s, Escalated);
      return s, Some(Escalated);
    }
    GoRound(c, script, s0, s);
    return s, None;
  }

  /** Before the first turn: the prompt and the forced knowledge search. */
  function Begun(c: Context): State {
    State(if c.counted then 1 else 0, 0, 0, [], false,
          c.prompt + [Assistant(c.knowledgeCallId)] + [Reply(c.knowledgeCallId)], [], 1, [], [])
  }

  lemma BegunKeeps(c: Context, script: nat -> Turn)
    ensures Inv(c, Begun(c)) && Traced(c, script, Begun(c)) && ViewsAre(c, script, [], 0)
  {
    AppendPair(c.prompt, c.prompt, c.knowledgeCallId);
  }

  method Run(environment: Option<string>, limits: Limits, prompt: seq<Message>,
             knowledgeCallId: nat, knowledge: KnowledgeOutcome, script: nat -> Turn)
    returns (status: Status, s: State)
    ensures var c := Context(environment, limits, prompt, knowledgeCallId, knowledge != RaisedBeforeCount);
      Bounded(c, s) && Ended(c, script, s, status)
  {
    var c := Context(environment, limits, prompt, knowledgeCallId, knowledge != RaisedBeforeCount);
    s := Begun(c);
    BegunKeeps(c, script);
    var modelTurns := 0;
    while modelTurns < limits.maxModelTurns
      invariant 0 <= modelTurns == |s.turns| && Inv(c, s)
      invariant Traced(c, script, s) && ViewsAre(c, script, s.views, |s.turns|)
      decreases limits.maxModelTurns - modelTurns
    {
      var turn := script(modelTurns);
      if turn.deadlinePassed { return Exhausted, s; }
      ShowingKeeps(c, script, s);
      s := Shown(s);
      if turn.think.ThinkTimedOut? { return Exhausted, s; }
      var stop;
      s, stop := TakeTurn(c, s, turn, script);
      if stop.Some? { return stop.value, s; }
      modelTurns := modelTurns + 1;
    }
    return Exhausted, s;
  }

  // ---------------------------------------------------------------- what the script determines

  lemma {:induction false} UnderwayPrefix(c: Context, script: nat -> Turn, turns: seq<bool>, k: nat)
    requires Underway(c, script, turns) && k < |turns|
    ensures Underway(c, script, turns[..k]) && GoesOn(c, script, turns[..k]) && turns[k] == TurnSucceeds(script(k))
  {
    var n := |turns| - 1;
    if k < n {
      UnderwayPrefix(c, script, turns[..n], k);
      assert turns[..n][..k] == turns[..k];
    }
  }

  lemma UnderwayUnique(c: Context, script: nat -> Turn, a: seq<bool>, b: seq<bool>)
    requires Underway(c, script, a) && Underway(c, script, b) && |a| <= |b|
    ensures a == b[..|a|] && (|a| < |b| ==> GoesOn(c, script, a))
  {
    forall k | 0 <= k < |a|
      ensures a[k] == b[k]
    {
      UnderwayPrefix(c, script, a, k);
      UnderwayPrefix(c, script, b, k);
    }
    if |a| < |b| {
      UnderwayPrefix(c, script, b, |a|);
    }
  }

  lemma OneStatus(c: Context, script: nat -> Turn, turns: seq<bool>, a: Status, b: Status)
    requires EndsTurn(c, script, turns, a) && EndsTurn(c, script, turns, b)
    ensures a == b
  {}

  lemma NotBoth(c: Context, script: nat -> Turn, turns: seq<bool>, status: Status)
    requires EndsBetween(c, script, turns)
    ensures !EndsInLast(c, script, turns, status)
  {
    if turns != [] {
      UnderwayPrefix(c, script, turns, |turns| - 1);
    }
  }

  /** The run ends at this point of the script: `round` are the turns it went round. */
  ghost predicate StopsAt(c: Context, script: nat -> Turn, round: seq<bool>, turns: seq<bool>, status: Status) {
    && Underway(c, script, round)
    && if StopsBefore(c, script, |round|) then turns == round && status == Exhausted
       else turns == round + [false] && EndsTurn(c, script, round, status)
  }

  lemma StoppingPoint(c: Context, script: nat -> Turn, s: State, status: Status) returns (round: seq<bool>)
    requires Ended(c, script, s, status)
    ensures StopsAt(c, script, round, s.turns, status)
  {
    if EndsBetween(c, script, s.turns) {
      NotBoth(c, script, s.turns, status);
      return s.turns;
    }
    round := s.turns[..|s.turns| - 1];
    assert s.turns == round + [false];
  }

  lemma OneStoppingPoint(c: Context, script: nat -> Turn, x: seq<bool>, xs: seq<bool>, a: Status,
                         y: seq<bool>, ys: seq<bool>, b: Status)
    requires StopsAt(c, script, x, xs, a) && StopsAt(c, script, y, ys, b) && |x| <= |y|
    ensures xs == ys && a == b
  {
    UnderwayUnique(c, script, x, y);
    assert x == y;
    if !StopsBefore(c, script, |x|) {
      OneStatus(c, script, x, a, b);
    }
  }

  lemma SameViews(c: Context, script: nat -> Turn, a: seq<seq<Message>>, b: seq<seq<Message>>, count: nat)
    requires ViewsAre(c, script, a, count) && ViewsAre(c, script, b, count)
    ensures a == b
  {}

  /** The script decides everything a run leaves behind: its status, its turns, its calls
      and what the model was shown. */
  lemma RunIsDetermined(c: Context, script: nat -> Turn, s: State, a: Status, t: State, b: Status)
    requires Ended(c, script, s, a) && Ended(c, script, t, b)
    ensures a == b && s.turns == t.turns && s.history == t.history && s.attempts == t.attempts && s.views == t.views
  {
    var x := StoppingPoint(c, script, s, a);
    var y := StoppingPoint(c, script, t, b);
    if |x| <= |y| {
      OneStoppingPoint(c, script, x, s.turns, a, y, t.turns, b);
    } else {
      OneStoppingPoint(c, script, y, t.turns, b, x, s.turns, a);
    }
    if EndsBetween(c, script, s.turns) {
      NotBoth(c, script, s.turns, a);
      NotBoth(c, script, s.turns, b);
    }
    SameViews(c, script, s.views, t.views, |s.views|);
  }

  /** Why a run ended, each status exactly. */
  lemma WhyEnded(c: Context, script: nat -> Turn, s: State, status: Status)
    requires Ended(c, script, s, status)
    ensures status == Exhausted <==> EndsBetween(c, script, s.turns) || EndsInLast(c, script, s.turns, Exhausted)
    ensures status == Resolved <==> EndsInLast(c, script, s.turns, Resolved)
    ensures status == Escalated <==> EndsInLast(c, script, s.turns, Escalated)
  {
    if EndsBetween(c, script, s.turns) {
      NotBoth(c, script, s.turns, Resolved);
      NotBoth(c, script, s.turns, Escalated);
      NotBoth(c, script, s.turns, Exhausted);
    } else {
      var before := s.turns[..|s.turns| - 1];
      forall other | EndsInLast(c, script, s.turns, other)
        ensures other == status
      {
        OneStatus(c, script, before, other, status);
      }
    }
  }

  /** A resolved run: every image patch, device action and desktop session of its history
      was confirmed by a later read of the resource, and an observation was recorded. */
  lemma ResolvedIsVerified(c: Context, script: nat -> Turn, s: State)
    requires Ended(c, script, s, Resolved)
    ensures EveryWriteVerified(s.history, c.environment)
    ensures forall i :: 0 <= i < |s.history| && s.history[i].tool in {ClusterPatchImage, DeviceRunAction, DeviceComputerUse} ==>
      exists j :: i < j < |s.history| && SameResource(s.history[i].payload, s.history[j].payload, c.environment)
                  && s.history[j].tool == if s.history[i].tool == ClusterPatchImage then ClusterReadDeployment
                                          else DeviceReadState
    ensures exists i :: 0 <= i < |s.history| && s.history[i].tool == CmdbRecordObservation
  {
    WhyEnded(c, script, s, Resolved);
    var before := s.turns[..|s.turns| - 1];
    assert s.turns == before + [false];
    NextTurn(script, before, c.environment, false);
    assert s.history == SuccessfulCalls(script, before, c.environment);
    forall i | 0 <= i < |s.history| && s.history[i].tool in {ClusterPatchImage, DeviceRunAction, DeviceComputerUse}
      ensures Owes(s.history[i]).Some?
    {
      VerifiersRead(s.history[i].tool);
    }
  }

  // ---------------------------------------------------------------- what a history is made of

  lemma {:induction false} CallsComeFromTurns(script: nat -> Turn, turns: seq<bool>, environment: Option<string>, i: nat)
    returns (k: nat)
    requires i < |SuccessfulCalls(script, turns, environment)|
    ensures k < |turns| && turns[k] && TurnSucceeds(script(k))
    ensures SuccessfulCalls(script, turns, environment)[i] == CallOf(script(k), environment)
    ensures |SuccessfulCalls(script, turns[..k], environment)| == i
  {
    var n := |turns| - 1;
    if i < |SuccessfulCalls(script, turns[..n], environment)| {
      k := CallsComeFromTurns(script, turns[..n], environment, i);
      assert turns[..n][..k] == turns[..k];
    } else {
      k := n;
    }
  }

  lemma {:induction false} TurnsEnterHistory(script: nat -> Turn, turns: seq<bool>, environment: Option<string>, k: nat)
    requires k < |turns| && turns[k] && TurnSucceeds(script(k))
    ensures var i := |SuccessfulCalls(script, turns[..k], environment)|;
      i < |SuccessfulCalls(script, turns, environment)|
      && SuccessfulCalls(script, turns, environment)[i] == CallOf(script(k), environment)
  {
    var n := |turns| - 1;
    if k < n {
      TurnsEnterHistory(script, turns[..n], environment, k);
      assert turns[..n][..k] == turns[..k];
    }
  }

  /** Every call of a run's history was asked for in a turn of its own, in order, with a
      known tool and a valid input, and was answered in time by an output that is no
      object, or one without a truthy error, without ok false and without the code
      unknown_property. */
  lemma HistoryIsClean(c: Context, script: nat -> Turn, s: State, status: Status, i: nat) returns (k: nat)
    requires Ended(c, script, s, status) && i < |s.history|
    ensures k < |s.turns| && |SuccessfulCalls(script, s.turns[..k], c.environment)| == i
    ensures var t := script(k);
      && t.think.Decided? && t.think.decision.kind == ToolCall && t.think.decision.tool == Some(s.history[i].tool)
      && t.think.decision.payload.Some?
      && s.history[i].payload == WithEnvironment(s.history[i].tool, t.think.decision.payload.value, c.environment)
      && !t.deadlineAtCall && t.outcome.Returned?
      && var output := t.outcome.output;
         output.OutputObject? ==>
           && !output.okIsFalse
           && (output.error in {Absent, Falsy} || (output.error.Object? && output.error.empty))
           && !(if output.error.Object? then output.error.unknownProperty else output.unknownProperty)
  {
    k := CallsComeFromTurns(script, s.turns, c.environment, i);
  }

  lemma SucceedingTurn(c: Context, script: nat -> Turn, s: State, status: Status, k: nat)
    requires Ended(c, script, s, status) && k < |s.turns| && TurnSucceeds(script(k))
    requires CallsMade(c, script, s.turns[..k]) < CallBudget(c)
    ensures s.turns[k]
  {
    var round := StoppingPoint(c, script, s, status);
    if k < |round| {
      UnderwayPrefix(c, script, round, k);
    }
  }

  /** And every such call that the budget still allows is in the history. */
  lemma CleanCallsEnterHistory(c: Context, script: nat -> Turn, s: State, status: Status, k: nat)
    requires Ended(c, script, s, status) && k < |s.turns|
    requires var t := script(k);
      && t.think.Decided? && t.think.decision.kind == ToolCall
      && t.think.decision.tool.Some? && t.think.decision.payload.Some?
      && !t.deadlineAtCall && t.outcome.Returned?
      && var output := t.outcome.output;
         output.OutputObject? ==>
           && !output.okIsFalse
           && (output.error in {Absent, Falsy} || (output.error.Object? && output.error.empty))
           && !(if output.error.Object? then output.error.unknownProperty else output.unknownProperty)
    requires CallsMade(c, script, s.turns[..k]) < CallBudget(c)
    ensures var i := |SuccessfulCalls(script, s.turns[..k], c.environment)|; var d := script(k).think.decision;
      i < |s.history| && s.history[i] == Call(d.tool.value, WithEnvironment(d.tool.value, d.payload.value, c.environment))
  {
    SucceedingTurn(c, script, s, status, k);
    TurnsEnterHistory(script, s.turns, c.environment, k);
  }

  // ---------------------------------------------------------------- the failure ceiling

  ghost predicate RejectedFirst(c: Context, script: nat -> Turn, turns: seq<bool>) {
    Decides(script(|turns|), Resolve) && ResolveAttempts(script, turns) == 0 && !DischargedAfter(c, script, turns)
  }

  /** A failure that reaches the ceiling lets the run go on only as a rejected resolution. */
  lemma ReachingTheCeiling(c: Context, script: nat -> Turn, turns: seq<bool>)
    requires !StopsBefore(c, script, |turns|) && !TurnSucceeds(script(|turns|))
    requires Streak(turns) + 1 >= c.limits.maxConsecutiveFailures
    ensures GoesOn(c, script, turns) <==> RejectedFirst(c, script, turns)
  {}

  /** Whenever it ends, a run never has more turns in a row without a successful call than
      one above the configured maximum, or than two if the maximum is below one. */
  lemma StreaksAreShort(c: Context, s: State, k: nat)
    requires Bounded(c, s) && k <= |s.turns|
    ensures Streak(s.turns[..k]) <= if c.limits.maxConsecutiveFailures < 1 then 2 else c.limits.maxConsecutiveFailures + 1
  {
    var turns, bound := s.turns[..k], StreakBound(c.limits);
    StreakFails(turns);
    if bound < k {
      assert SucceedsWithin(s.turns, k - 1 - bound, k - 1);
      var j :| k - 1 - bound <= j <= k - 1 && s.turns[j];
      assert turns[j] == s.turns[j];
    }
  }

  /** Past the ceiling: when a turn brings the failures in a row to the configured maximum,
      the run takes another turn exactly when that turn was the first resolution since the
      last success, rejected, and neither the turn budget nor a deadline ends the run. */
  lemma CeilingPassedIff(c: Context, script: nat -> Turn, s: State, status: Status, k: nat)
    requires Ended(c, script, s, status) && 1 <= k <= |s.turns|
    requires Streak(s.turns[..k]) == c.limits.maxConsecutiveFailures >= 1
    ensures k < |s.turns| <==> RejectedFirst(c, script, s.turns[..k - 1]) && !StopsBefore(c, script, k)
  {
    var round := StoppingPoint(c, script, s, status);
    var before := s.turns[..k - 1];
    assert s.turns[..k][..k - 1] == before;
    assert before == round[..k - 1];
    if k <= |round| {
      UnderwayPrefix(c, script, round, k - 1);
      ReachingTheCeiling(c, script, before);
      if k < |round| {
        UnderwayPrefix(c, script, round, k);
      }
    }
  }

  /** Invalid answers, but for a resolution asked for in turn m - 1. */
  function WastefulTurn(m: nat, k: nat): Turn {
    Turn(false, Decided(Decision(if k + 1 == m then Resolve else InvalidOutput, k, None, None)), false, Raised)
  }

  function Wasteful(m: nat): nat -> Turn { (k: nat) => WastefulTurn(m, k) }

  function Failures(k: nat): (turns: seq<bool>)
    ensures |turns| == k && forall i :: 0 <= i < k ==> !turns[i]
  {
    if k == 0 then [] else Failures(k - 1) + [false]
  }

  lemma {:induction false} NothingDone(c: Context, m: nat, k: nat)
    ensures SuccessfulCalls(Wasteful(m), Failures(k), c.environment) == [] && CallsMade(c, Wasteful(m), Failures(k)) == 0
  {
    if k > 0 {
      NothingDone(c, m, k - 1);
      assert Failures(k)[..k - 1] == Failures(k - 1);
    }
  }

  lemma {:induction false} OneAttempt(m: nat, k: nat)
    requires 1 <= m && k <= m
    ensures ResolveAttempts(Wasteful(m), Failures(k)) == (if k == m then 1 else 0) && Streak(Failures(k)) == k
  {
    if k > 0 {
      OneAttempt(m, k - 1);
      assert Failures(k)[..k - 1] == Failures(k - 1);
    }
  }

  lemma NothingDischarged(environment: Option<string>)
    ensures !Discharged([], environment)
  {}

  lemma WastefulGoesOn(c: Context, m: nat, k: nat)
    requires c.limits.maxConsecutiveFailures == m >= 1 && c.limits.maxModelTurns > m && k < m
    ensures GoesOn(c, Wasteful(m), Failures(k)) && !TurnSucceeds(Wasteful(m)(k))
  {
    NothingDone(c, m, k);
    OneAttempt(m, k);
    NothingDischarged(c.environment);
    assert !DischargedAfter(c, Wasteful(m), Failures(k));
    var t := Wasteful(m)(k);
    assert t == WastefulTurn(m, k) && |Failures(k)| == k;
    if k + 1 == m {
      assert Decides(t, Resolve);
    } else {
      assert Decides(t, InvalidOutput);
    }
  }

  lemma {:induction false} WastefulGoesRound(c: Context, m: nat, k: nat)
    requires c.limits.maxConsecutiveFailures == m >= 1 && c.limits.maxModelTurns > m && k <= m
    ensures Underway(c, Wasteful(m), Failures(k))
  {
    if k > 0 {
      WastefulGoesRound(c, m, k - 1);
      WastefulGoesOn(c, m, k - 1);
      assert Failures(k)[..k - 1] == Failures(k - 1);
    }
  }

  lemma WastefulEnds(c: Context, m: nat)
    requires c.limits.maxConsecutiveFailures == m >= 1 && c.limits.maxModelTurns > m
    ensures EndsInLast(c, Wasteful(m), Failures(m + 1), Exhausted)
  {
    WastefulGoesRound(c, m, m);
    OneAttempt(m, m);
    assert Failures(m + 1)[..m] == Failures(m);
  }

  /** The extra turn happens, whatever the ceiling: m - 1 invalid answers, a rejected
      resolution, and one more turn, m + 1 failures in a row. */
  lemma OneTurnTooMany(c: Context, m: nat) returns (s: State)
    requires c.limits.maxConsecutiveFailures == m >= 1 && c.limits.maxModelTurns > m
    ensures Ended(c, Wasteful(m), s, Exhausted)
    ensures |s.turns| == m + 1 && forall k :: 0 <= k <= m ==> !s.turns[k]
  {
    WastefulEnds(c, m);
    NothingDone(c, m, m + 1);
    var script := Wasteful(m);
    var views := seq(m + 1, i requires 0 <= i <= m => TranscriptAt(c, script, i));
    s := State(0, 0, 0, [], false, [], [], 1, Failures(m + 1), views);
  }

  // ---------------------------------------------------------------- what a resolved run guarantees

  /** In a run with an environment, every successful cluster write named that very
      environment and a later successful deployment read of it named it too: a write that
      went to another environment keeps the run from resolving. */
  lemma ResolvedClusterWrite(history: seq<Call>, environment: Option<string>, i: nat) returns (j: nat)
    requires EveryWriteVerified(history, environment) && Targeted(environment)
    requires forall k :: 0 <= k < |history| ==>
               history[k].payload == WithEnvironment(history[k].tool, history[k].payload, environment)
    requires i < |history| && history[i].tool == ClusterPatchImage
    ensures i < j < |history| && history[j].tool == ClusterReadDeployment
    ensures Get(history[i].payload, Environment) == Some(Text(environment.value))
    ensures Get(history[j].payload, Environment) == Some(Text(environment.value))
    ensures forall key :: key in {Namespace, Name} && key in history[i].payload && key in history[j].payload ==>
              history[i].payload[key] == history[j].payload[key]
  {
    assert Owes(history[i]).Some?;
    j :| i < j < |history| && Clears(history[j], Owes(history[i]).value, environment);
    assert Environment in history[i].payload;
    ClearingReadStaysInEnvironment(history[i].payload, history[j].payload, environment);
  }

  /** Every successful device action was followed by a successful state read of the same
      device that looked at a facet observing that action. Both tools' inputs name a device. */
  lemma ResolvedDeviceAction(history: seq<Call>, environment: Option<string>, i: nat) returns (j: nat)
    requires EveryWriteVerified(history, environment)
    requires forall k :: 0 <= k < |history| && history[k].tool in {DeviceRunAction, DeviceReadState} ==>
               DeviceId in history[k].payload
    requires i < |history| && history[i].tool == DeviceRunAction && Action in history[i].payload
    ensures i < j < |history| && history[j].tool == DeviceReadState
    ensures history[i].payload[Action].ActionName?
    ensures Facets in history[j].payload && history[j].payload[Facets].FacetList?
    ensures exists f :: f in history[j].payload[Facets].facets && f in ActionFacets(history[i].payload[Action].action)
    ensures DeviceId in history[i].payload && DeviceId in history[j].payload
    ensures history[i].payload[DeviceId] == history[j].payload[DeviceId]
  {
    assert Owes(history[i]).Some?;
    j :| i < j < |history| && Clears(history[j], Owes(history[i]).value, environment);
    ClearingReadSeesAction(history[i].payload, history[j].payload, environment);
  }
}
