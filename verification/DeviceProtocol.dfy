/**
 * Device commands end to end: gateway lane, network, daemon and disk as one transition
 * system. Messages once sent may be lost, duplicated and reordered; the daemon and the
 * gateway may crash and restart; the enrol and disconnect commands may rewrite the
 * device's record at any time with a stale snapshot of it.
 */
module DeviceProtocol {
  import opened Sequences
  import opened DeviceIdentity
  import opened DeviceDaemon
  import opened DeviceGateway

  const DEVICE: string := "device"

  /** A command the executor finished. */
  datatype Outcome = Outcome(command: Command, ok: bool)

  /** Why the device answered a command: its sequence was accepted before, its queue was
      full, or it finished it. */
  datatype How = Duplicate | QueueFull | FinishedOk | FinishedFailed

  datatype Answer = Answer(command: Command, how: How, reply: Reply)

  /** The running daemon: its identity in memory and its connection, if any. */
  datatype Process = Process(id: Identity, connection: Option<Connection>)

  datatype Sys = Sys(
    lane: Lane,
    settled: multiset<nat>,   // promises settled, by command
    exits: multiset<nat>,     // guarded moves out of pending and dispatched, by command
    expired: set<nat>,        // those another gateway process made
    results: map<nat, Answer>, // rows closed by a result, and not overwritten since, with it
    issued: set<Command>,     // commands whose insert the gateway saw succeed
    toDevice: set<Command>, toGateway: set<Answer>, hellos: set<nat>,
    file: File, process: Option<Process>, snapshots: set<nat>,
    started: seq<Command>, finished: seq<Outcome>)

  datatype Step =
    // gateway
    | Reserve(id: nat, loaded: nat) | InsertCommit | InsertFail(stored: bool)
    | Transmit(command: Command) | MarkDispatched(id: nat) | DispatchFailed(id: nat)
    | TimerFired(id: nat) | PersistTimeout(id: nat) | ReceiveReply(answer: Answer)
    | Register(lastSeen: nat, loaded: nat) | Revoke | RestartGateway(stale: set<nat>)
    | ExpireElsewhere(stale: set<nat>) | CloseGateway
    // device
    | StartDaemon | Connect | ReceiveCommand(command: Command) | Persist(diskOk: bool) | Dequeue
    | Finish(ok: bool) | Drop | CrashDaemon | StoreCredential(credential: string)
    // the command line tools
    | LoadIdentity | SaveIdentity(snapshot: nat, token: string, credential: string)

  predicate Connected(s: Sys) { s.process.Some? && s.process.value.connection.Some? }

  function Conn(s: Sys): Connection
    requires Connected(s)
  {
    s.process.value.connection.value
  }

  function Memory(s: Sys): Identity
    requires s.process.Some?
  {
    s.process.value.id
  }

  ghost predicate Enabled(s: Sys, step: Step) {
    match step
    case Reserve(id, loaded) => s.lane.reserved.None? && id !in s.lane.rows && IsMaxSequence(s.lane.rows, loaded)
    case InsertCommit => s.lane.reserved.Some? && !Taken(s.lane.rows, s.lane.reserved.value.sequence)
    case InsertFail(stored) =>
      s.lane.reserved.Some? && (stored ==> !Taken(s.lane.rows, s.lane.reserved.value.sequence))
    case Transmit(command) => command in s.issued
    case MarkDispatched(id) => true
    case DispatchFailed(id) => true
    case TimerFired(id) => true
    case PersistTimeout(id) => true
    case ReceiveReply(answer) => answer in s.toGateway
    case Register(lastSeen, loaded) => lastSeen in s.hellos && IsMaxSequence(s.lane.rows, loaded)
    case Revoke => true
    case RestartGateway(_) => true
    case ExpireElsewhere(_) => true
    case CloseGateway => true
    case StartDaemon => s.process.None? && s.file.Stored?
    case Connect => s.process.Some? && s.process.value.connection.None?
    case ReceiveCommand(command) => Connected(s) && command in s.toDevice
    case Persist(_) => Connected(s) && !HeadPersisted(Conn(s), Memory(s).lastSeen)
    case Dequeue =>
      Connected(s) && Conn(s).queue != [] && Conn(s).running.None? && HeadPersisted(Conn(s), Memory(s).lastSeen)
    case Finish(_) => Connected(s) && Conn(s).running.Some?
    case Drop => Connected(s) && HeadPersisted(Conn(s), Memory(s).lastSeen)
    case CrashDaemon => s.process.Some?
    case StoreCredential(_) => Connected(s)
    case LoadIdentity => s.file.Stored?
    case SaveIdentity(snapshot, _, _) => snapshot in s.snapshots
  }

  function WithConnection(s: Sys, c: Connection): Sys
    requires Connected(s)
  {
    s.(process := Some(s.process.value.(connection := Some(c))))
  }

  /** One case of the daemon's select statement, with what it sends. */
  function Selected(s: Sys, event: Event): Session
    requires Connected(s)
  {
    Select(Session(Conn(s), s.started, []), event)
  }

  function WithSession(s: Sys, next: Session, command: Command, how: How): Sys
    requires Connected(s)
  {
    WithConnection(s, next.connection)
      .(started := next.started, toGateway := s.toGateway + set r | r in next.sent :: Answer(command, how, r))
  }

  function WithLane(s: Sys, change: (Lane, Effects)): Sys {
    s.(lane := change.0, settled := s.settled + multiset(change.1.settled), exits := s.exits + multiset(change.1.exits))
  }

  ghost function Apply(s: Sys, step: Step): Sys
    requires Enabled(s, step)
  {
    match step
    case Reserve(id, loaded) => s.(lane := DeviceGateway.Reserve(s.lane, id, loaded))
    case InsertCommit =>
      s.(lane := DeviceGateway.InsertCommit(s.lane, DEVICE), issued := s.issued + {s.lane.reserved.value})
    case InsertFail(stored) => s.(lane := DeviceGateway.InsertFail(s.lane, DEVICE, stored))
    case Transmit(command) => s.(toDevice := s.toDevice + {command})
    case MarkDispatched(id) => s.(lane := DeviceGateway.MarkDispatched(s.lane, id))
    case DispatchFailed(id) => s.(lane := DeviceGateway.DispatchFailed(s.lane, id), results := s.results - {id})
    case TimerFired(id) => WithLane(s, DeviceGateway.TimerFired(s.lane, id))
    case PersistTimeout(id) => WithLane(s, DeviceGateway.PersistTimeout(s.lane, id))
    case ReceiveReply(answer) =>
      var id := answer.reply.id;
      WithLane(s, Complete(s.lane, answer.reply))
        .(results := if id in s.lane.rows && Open(s.lane.rows[id].status) then s.results[id := answer] else s.results)
    case Register(lastSeen, loaded) =>
      s.(lane := DeviceGateway.Register(s.lane, loaded),
         toDevice := s.toDevice + (set c | c in Replay(s.lane.outbox, lastSeen)))
    case Revoke => s.(lane := DeviceGateway.Revoke(s.lane))
    case RestartGateway(stale) => WithLane(s, Restart(s.lane, stale))
    case ExpireElsewhere(stale) =>
      WithLane(s, ExpireRows(s.lane, stale)).(expired := s.expired + Expiring(s.lane.rows, stale))
    case CloseGateway => WithLane(s, Close(s.lane))
    case StartDaemon => s.(process := Some(Process(s.file.id, None)))
    case Connect =>
      var lastSeen := Memory(s).lastSeen;
      s.(process := Some(s.process.value.(connection := Some(Connection(lastSeen, [], None)))),
         hellos := s.hellos + {lastSeen})
    case ReceiveCommand(command) =>
      var how := if command.sequence <= Conn(s).accepted then Duplicate else QueueFull;
      WithSession(s, Selected(s, Incoming(command)), command, how)
    case Persist(diskOk) =>
      var sequence := Conn(s).queue[0].sequence;
      var (file, ok) := if diskOk then WithSequence(s.file, Memory(s), sequence) else (s.file, false);
      if ok then s.(file := file, process := Some(s.process.value.(id := Memory(s).(lastSeen := sequence))))
      else s.(process := None)
    case Dequeue => WithSession(s, Selected(s, ExecutorReady), Conn(s).queue[0], Duplicate)
    case Finish(ok) =>
      var command := Conn(s).running.value;
      WithSession(s, Selected(s, Finished(ok)), command, if ok then FinishedOk else FinishedFailed)
        .(finished := s.finished + [Outcome(command, ok)])
    case Drop => s.(process := Some(s.process.value.(connection := None)))
    case CrashDaemon => s.(process := None)
    case StoreCredential(credential) =>
      s.(file := WithCredentials(s.file, Memory(s), "", credential),
         process := Some(s.process.value.(id := Memory(s).(token := "", credential := credential))))
    case LoadIdentity => s.(snapshots := s.snapshots + {s.file.id.lastSeen})
    case SaveIdentity(snapshot, token, credential) =>
      s.(file := WithCredentials(s.file, Identity(DEVICE, snapshot, "", ""), token, credential))
  }

  const INIT: Sys := Sys(
    Lane(None, None, map[], [], {}, {}), multiset{}, multiset{}, {}, map[], {}, {}, {}, {},
    Stored(Identity(DEVICE, 0, "", "")), None, {}, [], [])

  // ---------------------------------------------------------------- the invariant

  /** The device: what ran is on disk, and what is queued comes after it. */
  ghost predicate DeviceInv(file: File, process: Option<Process>, snapshots: set<nat>, hellos: set<nat>, started: seq<Command>) {
    && file.Stored? && file.id.deviceId == DEVICE
    && Ascending(started)
    && (forall i :: 0 <= i < |started| ==> started[i].sequence <= file.id.lastSeen)
    && (forall n :: n in snapshots ==> n <= file.id.lastSeen)
    && (forall n :: n in hellos ==> n <= file.id.lastSeen)
    && (process.Some? ==>
          && process.value.id.deviceId == DEVICE && process.value.id.lastSeen == file.id.lastSeen
          && (process.value.connection.Some? ==> QueueInv(process.value.connection.value, file.id.lastSeen, started)))
  }

  function Running(process: Option<Process>): Option<Command> {
    if process.Some? && process.value.connection.Some? then process.value.connection.value.running else None
  }

  function Queue(process: Option<Process>): seq<Command> {
    if process.Some? && process.value.connection.Some? then process.value.connection.value.queue else []
  }

  /** Executions: finished ones are started ones, once each, and not the running one. */
  ghost predicate ExecutionInv(running: Option<Command>, started: seq<Command>, finished: seq<Outcome>) {
    && (forall i :: 0 <= i < |finished| ==> finished[i].command in started)
    && (forall i, j :: 0 <= i < j < |finished| ==> finished[i].command != finished[j].command)
    && (running.Some? ==> running.value in started && forall i :: 0 <= i < |finished| ==> finished[i].command != running.value)
  }

  /** Commands: what travels to the device, waits there or ran there was issued. */
  ghost predicate CommandInv(issued: set<Command>, toDevice: set<Command>, queue: seq<Command>, started: seq<Command>) {
    && toDevice <= issued
    && (forall c :: c in started ==> c in issued)
    && (forall c :: c in queue ==> c in issued)
  }

  /** Replies carry the number of an issued command, and say what the device did with it:
      a duplicate is indeterminate, a refusal and a failure are not ok, and ok is a finished
      execution. */
  ghost predicate AnswerInv(a: Answer, issued: set<Command>, finished: seq<Outcome>) {
    && a.command in issued && a.reply.id == a.command.id && a.reply.sequence == a.command.sequence
    && a.reply.ok == (a.how == FinishedOk)
    && a.reply.status == (if a.how == Duplicate then Indeterminate else Unnamed)
    && (a.how == FinishedOk ==> Outcome(a.command, true) in finished)
    && (a.how == FinishedFailed ==> Outcome(a.command, false) in finished)
  }

  ghost predicate ReplyInv(toGateway: set<Answer>, issued: set<Command>, finished: seq<Outcome>) {
    forall a :: a in toGateway ==> AnswerInv(a, issued, finished)
  }

  /** Rows: issued commands carry their row's number; the outbox holds issued commands. */
  ghost predicate RowInv(rows: map<nat, Row>, outbox: seq<Command>, issued: set<Command>) {
    && (forall c :: c in issued ==> c.id in rows && rows[c.id].sequence == c.sequence)
    && (forall c :: c in outbox ==> c in issued)
  }

  /** Success: a row marked succeeded was executed, with success. */
  ghost predicate SuccessInv(rows: map<nat, Row>, finished: seq<Outcome>) {
    forall id :: id in rows && rows[id].status == Succeeded ==> Outcome(Command(id, rows[id].sequence), true) in finished
  }

  /** Settlement: at most once per promise, and at most one guarded exit per row. */
  ghost predicate SettleInv(rows: map<nat, Row>, waiting: set<nat>, settled: multiset<nat>, exits: multiset<nat>) {
    && (forall id :: id in settled ==> settled[id] == 1 && id in rows && id !in waiting)
    && (forall id :: id in exits ==> exits[id] == 1 && id in rows && !Open(rows[id].status))
  }

  ghost predicate LinkInv(s: Sys) {
    && RowInv(s.lane.rows, s.lane.outbox, s.issued)
    && SuccessInv(s.lane.rows, s.finished)
    && SettleInv(s.lane.rows, s.lane.waiting, s.settled, s.exits)
  }

  ghost predicate DaemonInv(s: Sys) {
    && DeviceInv(s.file, s.process, s.snapshots, s.hellos, s.started)
    && ExecutionInv(Running(s.process), s.started, s.finished)
    && CommandInv(s.issued, s.toDevice, Queue(s.process), s.started)
    && ReplyInv(s.toGateway, s.issued, s.finished)
  }

  predicate FromResult(status: CommandStatus) { status == Succeeded || status == IndeterminateStatus }

  /** Rows closed by a result hold what the device answered; no other row is succeeded or
      indeterminate. */
  ghost predicate ResultInv(rows: map<nat, Row>, results: map<nat, Answer>, toGateway: set<Answer>) {
    && (forall id :: id in results ==>
          && id in rows && results[id] in toGateway && results[id].reply.id == id
          && rows[id].status == match results[id].how
                                case Duplicate => IndeterminateStatus
                                case QueueFull => CommandStatus.Failed
                                case FinishedOk => Succeeded
                                case FinishedFailed => CommandStatus.Failed)
    && (forall id :: id in rows && FromResult(rows[id].status) ==> id in results)
  }

  ghost predicate Inv(s: Sys) {
    && LaneInv(s.lane) && OpenInv(s.lane, s.expired) && LinkInv(s) && DaemonInv(s)
    && ResultInv(s.lane.rows, s.results, s.toGateway)
  }

  lemma InitInv()
    ensures Inv(INIT)
  {}

  // ---------------------------------------------------------------- gateway steps keep it

  lemma LaneInsertStep(s: Sys, step: Step)
    requires LaneInv(s.lane) && Enabled(s, step) && (step.Reserve? || step.InsertCommit? || step.InsertFail?)
    ensures LaneInv(Apply(s, step).lane)
  {
    match step
    case Reserve(id, loaded) => ReserveKeeps(s.lane, id, loaded);
    case InsertCommit => CommitKeeps(s.lane, DEVICE);
    case InsertFail(stored) => if stored { CommitKeeps(s.lane, DEVICE); } else { FailKeeps(s.lane, DEVICE); }
  }

  lemma LaneOtherStep(s: Sys, step: Step)
    requires LaneInv(s.lane) && Enabled(s, step) && !(step.Reserve? || step.InsertCommit? || step.InsertFail?)
    ensures LaneInv(Apply(s, step).lane)
  {
    match step
    case MarkDispatched(id) => DispatchKeeps(s.lane, id);
    case DispatchFailed(id) => DispatchKeeps(s.lane, id);
    case TimerFired(id) => TimerKeeps(s.lane, id);
    case PersistTimeout(id) => PersistTimeoutKeeps(s.lane, id);
    case ReceiveReply(answer) => CompleteKeeps(s.lane, answer.reply);
    case Register(_, loaded) => RegisterKeeps(s.lane, loaded);
    case Revoke => RevokeCloseKeep(s.lane);
    case CloseGateway => RevokeCloseKeep(s.lane);
    case RestartGateway(stale) => SweepKeeps(s.lane, stale);
    case ExpireElsewhere(stale) => SweepKeeps(s.lane, stale);
    case _ =>
  }

  lemma OpenStep(s: Sys, step: Step)
    requires LaneInv(s.lane) && OpenInv(s.lane, s.expired) && Enabled(s, step)
    ensures OpenInv(Apply(s, step).lane, Apply(s, step).expired)
  {
    match step
    case InsertCommit => CommitOpens(s.lane, s.expired, DEVICE);
    case InsertFail(_) => CommitOpens(s.lane, s.expired, DEVICE);
    case RestartGateway(stale) => ExpiringKeepsOpen(s.lane, s.expired, stale);
    case ExpireElsewhere(stale) => ExpiringKeepsOpen(s.lane, s.expired, stale);
    case MarkDispatched(id) => ClosingKeepsOpen(s.lane, s.expired, id, Reply(0, 0, false, Unnamed));
    case DispatchFailed(id) => ClosingKeepsOpen(s.lane, s.expired, id, Reply(0, 0, false, Unnamed));
    case TimerFired(id) => ClosingKeepsOpen(s.lane, s.expired, id, Reply(0, 0, false, Unnamed));
    case PersistTimeout(id) => ClosingKeepsOpen(s.lane, s.expired, id, Reply(0, 0, false, Unnamed));
    case ReceiveReply(answer) => ClosingKeepsOpen(s.lane, s.expired, 0, answer.reply);
    case _ =>
  }

  /** A new row for an unused id. */
  lemma LinkInsertStep(s: Sys, step: Step)
    requires LinkInv(s) && Enabled(s, step) && (step.Reserve? || step.InsertCommit? || step.InsertFail?)
    requires s.lane.reserved.Some? ==> s.lane.reserved.value.id !in s.lane.rows
    ensures LinkInv(Apply(s, step))
  {
    if step.InsertCommit? {
      var longer := s.lane.outbox + [s.lane.reserved.value];
      assert forall c :: c in Trim(longer) ==> c in longer;
    }
  }

  /** A row changes status, promises are settled, the outbox may shrink. */
  lemma LinkStatusStep(s: Sys, next: Sys, id: nat, status: CommandStatus, effects: Effects)
    requires LinkInv(s)
    requires next == WithLane(s, (next.lane, effects))
    requires next.lane.rows == s.lane.rows
             || (id in s.lane.rows && next.lane.rows == s.lane.rows[id := s.lane.rows[id].(status := status)])
    requires forall c :: c in next.lane.outbox ==> c in s.lane.outbox
    requires next.lane.waiting <= s.lane.waiting - effects.settled
    requires effects.settled <= s.lane.waiting && s.lane.waiting <= s.lane.rows.Keys
    requires Open(status) && next.lane.rows != s.lane.rows ==> Open(s.lane.rows[id].status)
    requires effects.exits != {} ==>
               effects.exits == {id} && id in s.lane.rows && Open(s.lane.rows[id].status)
               && next.lane.rows[id].status == status && !Open(status)
    requires next.lane.rows != s.lane.rows && status == Succeeded ==>
               Outcome(Command(id, s.lane.rows[id].sequence), true) in s.finished
    ensures LinkInv(next)
  {
    assert RowInv(next.lane.rows, next.lane.outbox, next.issued);
    assert SuccessInv(next.lane.rows, next.finished);
  }

  lemma LinkDispatchedStep(s: Sys, id: nat)
    requires LinkInv(s) && s.lane.waiting <= s.lane.rows.Keys
    ensures LinkInv(Apply(s, MarkDispatched(id)))
  {
    LinkStatusStep(s, Apply(s, MarkDispatched(id)), id, Dispatched, NOTHING);
  }

  lemma LinkDispatchFailedStep(s: Sys, id: nat)
    requires LinkInv(s) && s.lane.waiting <= s.lane.rows.Keys
    ensures LinkInv(Apply(s, DispatchFailed(id)))
  {
    LinkStatusStep(s, s.(lane := DeviceGateway.DispatchFailed(s.lane, id)), id, CommandStatus.Failed, NOTHING);
  }

  lemma LinkTimerStep(s: Sys, id: nat)
    requires LinkInv(s) && s.lane.waiting <= s.lane.rows.Keys
    ensures LinkInv(Apply(s, TimerFired(id)))
  {
    LinkStatusStep(s, Apply(s, TimerFired(id)), id, Failed, DeviceGateway.TimerFired(s.lane, id).1);
  }

  lemma LinkTimeoutStep(s: Sys, id: nat)
    requires LinkInv(s) && s.lane.waiting <= s.lane.rows.Keys
    ensures LinkInv(Apply(s, PersistTimeout(id)))
  {
    LinkStatusStep(s, Apply(s, PersistTimeout(id)), id, TimedOutStatus, DeviceGateway.PersistTimeout(s.lane, id).1);
  }

  /** A result only makes a row succeeded when the device reported a finished execution. */
  lemma LinkReplyStep(s: Sys, answer: Answer)
    requires LinkInv(s) && Enabled(s, ReceiveReply(answer)) && s.lane.waiting <= s.lane.rows.Keys
    requires ReplyInv(s.toGateway, s.issued, s.finished)
    ensures LinkInv(Apply(s, ReceiveReply(answer)))
  {
    var reply := answer.reply;
    assert AnswerInv(answer, s.issued, s.finished);
    LinkStatusStep(s, WithLane(s, Complete(s.lane, reply)), reply.id, ReportedStatus(reply), Complete(s.lane, reply).1);
  }

  lemma LinkMemoryStep(s: Sys, step: Step)
    requires LinkInv(s) && Enabled(s, step) && s.lane.waiting <= s.lane.rows.Keys
    requires step.Register? || step.Revoke? || step.CloseGateway? || step.Transmit?
    ensures LinkInv(Apply(s, step))
  {}

  lemma LinkRestartStep(s: Sys, stale: set<nat>)
    requires LinkInv(s)
    ensures LinkInv(Apply(s, RestartGateway(stale)))
  {
    SweepSuccess(s, stale);
    SweepSettled(s, stale);
  }

  lemma LinkExpireStep(s: Sys, stale: set<nat>)
    requires LinkInv(s)
    ensures LinkInv(Apply(s, ExpireElsewhere(stale)))
  {
    SweepSuccess(s, stale);
    SweepSettled(s, stale);
  }

  lemma SweepSuccess(s: Sys, stale: set<nat>)
    requires LinkInv(s)
    ensures SuccessInv(Expired(s.lane.rows, Expiring(s.lane.rows, stale)), s.finished)
  {
    var rows := Expired(s.lane.rows, Expiring(s.lane.rows, stale));
    assert forall id :: id in rows && rows[id].status == Succeeded ==> s.lane.rows[id] == rows[id];
  }

  lemma SweepSettled(s: Sys, stale: set<nat>)
    requires LinkInv(s)
    ensures var ids := Expiring(s.lane.rows, stale);
      && SettleInv(Expired(s.lane.rows, ids), s.lane.waiting, s.settled, s.exits + multiset(ids))
      && SettleInv(Expired(s.lane.rows, ids), {}, s.settled, s.exits + multiset(ids))
  {
    assert forall id :: id in Expiring(s.lane.rows, stale) ==> id !in s.exits;
  }

  // ---------------------------------------------------------------- device steps keep it

  lemma ReceiveStep(s: Sys, command: Command)
    requires DaemonInv(s) && Enabled(s, ReceiveCommand(command))
    ensures DaemonInv(Apply(s, ReceiveCommand(command)))
  {
    ReceiveKeepsQueue(Conn(s), command, s.file.id.lastSeen, s.started);
  }

  lemma PersistStep(s: Sys, diskOk: bool)
    requires DaemonInv(s) && Enabled(s, Persist(diskOk))
    ensures DaemonInv(Apply(s, Persist(diskOk)))
    ensures diskOk ==> Apply(s, Persist(diskOk)).process.Some?
  {}

  lemma HeadIsNew(started: seq<Command>, head: Command)
    requires forall i :: 0 <= i < |started| ==> started[i].sequence < head.sequence
    ensures head !in started
  {}

  /** The head moves from the queue to the executor. */
  lemma TakeKeepsQueue(c: Connection, lastSeen: nat, started: seq<Command>)
    requires QueueInv(c, lastSeen, started) && c.queue != [] && c.queue[0].sequence <= lastSeen
    requires Ascending(started) && forall i :: 0 <= i < |started| ==> started[i].sequence <= lastSeen
    ensures var longer := started + [c.queue[0]];
      && QueueInv(c.(queue := c.queue[1..], running := Some(c.queue[0])), lastSeen, longer)
      && Ascending(longer) && forall i :: 0 <= i < |longer| ==> longer[i].sequence <= lastSeen
  {
    var longer := started + [c.queue[0]];
    assert forall i :: 0 <= i < |longer| ==> longer[i] == if i < |started| then started[i] else c.queue[0];
    assert longer[|started|] == c.queue[0];
    assert forall i :: 0 <= i < |c.queue| - 1 ==> c.queue[1..][i] == c.queue[i + 1];
  }

  lemma TakeKeepsExecutions(started: seq<Command>, finished: seq<Outcome>, head: Command)
    requires ExecutionInv(None, started, finished) && head !in started
    ensures ExecutionInv(Some(head), started + [head], finished)
  {
    assert (started + [head])[|started|] == head;
    assert forall x :: x in started ==> x in started + [head];
  }

  lemma TakeKeepsCommands(issued: set<Command>, toDevice: set<Command>, queue: seq<Command>, started: seq<Command>)
    requires CommandInv(issued, toDevice, queue, started) && queue != []
    ensures CommandInv(issued, toDevice, queue[1..], started + [queue[0]])
  {}

  lemma DequeueStep(s: Sys)
    requires DaemonInv(s) && Enabled(s, Dequeue)
    ensures DaemonInv(Apply(s, Dequeue))
  {
    var c := Conn(s);
    TakeKeepsQueue(c, s.file.id.lastSeen, s.started);
    HeadIsNew(s.started, c.queue[0]);
    TakeKeepsExecutions(s.started, s.finished, c.queue[0]);
    TakeKeepsCommands(s.issued, s.toDevice, c.queue, s.started);
  }

  /** The executor takes the head of the queue, and nothing is sent. */
  lemma DequeueIs(s: Sys)
    requires Enabled(s, Dequeue)
    ensures var c := Conn(s); var next := Apply(s, Dequeue);
      && Connected(next) && next == s.(process := next.process, started := s.started + [c.queue[0]])
      && next.process == Some(s.process.value.(connection := Some(Connection(c.accepted, c.queue[1..], Some(c.queue[0])))))
  {
    assert Apply(s, Dequeue).toGateway == s.toGateway;
  }

  /** The executor hands back its result: the running command is answered with it. */
  lemma FinishIs(s: Sys, ok: bool)
    requires Enabled(s, Finish(ok))
    ensures var c := Conn(s); var command := c.running.value; var next := Apply(s, Finish(ok));
      && Connected(next) && next.process == Some(s.process.value.(connection := Some(Connection(c.accepted, c.queue, None))))
      && next.toGateway == s.toGateway
           + {Answer(command, if ok then FinishedOk else FinishedFailed, Reply(command.id, command.sequence, ok, Unnamed))}
      && next == s.(process := next.process, toGateway := next.toGateway, finished := s.finished + [Outcome(command, ok)])
  {}

  lemma FinishStep(s: Sys, ok: bool)
    requires DaemonInv(s) && Enabled(s, Finish(ok))
    ensures DaemonInv(Apply(s, Finish(ok)))
  {
    FinishIs(s, ok);
    var next, o := Apply(s, Finish(ok)), Outcome(Conn(s).running.value, ok);
    FinishedGrows(s.finished, o);
    FinishKeepsReplies(s.toGateway, s.issued, s.finished, o);
    assert Running(next.process) == None && Queue(next.process) == Queue(s.process);
  }

  lemma FinishKeepsReplies(toGateway: set<Answer>, issued: set<Command>, finished: seq<Outcome>, o: Outcome)
    requires ReplyInv(toGateway, issued, finished) && o.command in issued
    ensures var c := o.command; var how := if o.ok then FinishedOk else FinishedFailed;
      ReplyInv(toGateway + {Answer(c, how, Reply(c.id, c.sequence, o.ok, Unnamed))}, issued, finished + [o])
  {
    FinishedGrows(finished, o);
  }

  lemma FinishedGrows(finished: seq<Outcome>, o: Outcome)
    ensures forall x :: x in finished + [o] <==> x in finished || x == o
  {}

  lemma ProcessSteps(s: Sys, step: Step)
    requires DaemonInv(s) && Enabled(s, step)
    requires step.StartDaemon? || step.Connect? || step.Drop? || step.CrashDaemon?
    ensures DaemonInv(Apply(s, step))
  {}

  lemma RecordSteps(s: Sys, step: Step)
    requires DaemonInv(s) && Enabled(s, step)
    requires step.StoreCredential? || step.LoadIdentity? || step.SaveIdentity?
    ensures DaemonInv(Apply(s, step))
  {}

  // ---------------------------------------------------------------- every step keeps it

  predicate ByGateway(step: Step) {
    || step.Reserve? || step.InsertCommit? || step.InsertFail? || step.Transmit? || step.MarkDispatched?
    || step.DispatchFailed? || step.TimerFired? || step.PersistTimeout? || step.ReceiveReply? || step.Register?
    || step.Revoke? || step.RestartGateway? || step.ExpireElsewhere? || step.CloseGateway?
  }

  /** Issuing and sending more commands does not disturb the device. */
  lemma GatewayLeavesDaemon(s: Sys, step: Step)
    requires DaemonInv(s) && RowInv(s.lane.rows, s.lane.outbox, s.issued) && Enabled(s, step) && ByGateway(step)
    ensures DaemonInv(Apply(s, step))
  {}

  /** What the device does reaches the gateway's rows only through replies. */
  lemma DeviceLeavesLink(s: Sys, step: Step)
    requires LinkInv(s) && Enabled(s, step) && !ByGateway(step)
    ensures LinkInv(Apply(s, step))
  {
    assert forall o :: o in s.finished ==> o in Apply(s, step).finished;
  }

  lemma LinkStep(s: Sys, step: Step)
    requires Inv(s) && Enabled(s, step) && ByGateway(step)
    ensures LinkInv(Apply(s, step))
  {
    match step
    case MarkDispatched(id) => LinkDispatchedStep(s, id);
    case DispatchFailed(id) => LinkDispatchFailedStep(s, id);
    case TimerFired(id) => LinkTimerStep(s, id);
    case PersistTimeout(id) => LinkTimeoutStep(s, id);
    case ReceiveReply(answer) => LinkReplyStep(s, answer);
    case RestartGateway(stale) => LinkRestartStep(s, stale);
    case ExpireElsewhere(stale) => LinkExpireStep(s, stale);
    case Reserve(_, _) => LinkInsertStep(s, step);
    case InsertCommit => LinkInsertStep(s, step);
    case InsertFail(_) => LinkInsertStep(s, step);
    case _ => LinkMemoryStep(s, step);
  }

  lemma DaemonStep(s: Sys, step: Step)
    requires DaemonInv(s) && Enabled(s, step) && !ByGateway(step)
    ensures DaemonInv(Apply(s, step))
  {
    match step
    case ReceiveCommand(command) => ReceiveStep(s, command);
    case Persist(diskOk) => PersistStep(s, diskOk);
    case Dequeue => DequeueStep(s);
    case Finish(ok) => FinishStep(s, ok);
    case StoreCredential(_) => RecordSteps(s, step);
    case LoadIdentity => RecordSteps(s, step);
    case SaveIdentity(_, _, _) => RecordSteps(s, step);
    case _ => ProcessSteps(s, step);
  }

  lemma StepKeepsInv(s: Sys, step: Step)
    requires Inv(s) && Enabled(s, step)
    ensures Inv(Apply(s, step))
  {
    if step.Reserve? || step.InsertCommit? || step.InsertFail? {
      LaneInsertStep(s, step);
    } else {
      LaneOtherStep(s, step);
    }
    OpenStep(s, step);
    ResultStep(s, step);
    if ByGateway(step) {
      LinkStep(s, step);
      GatewayLeavesDaemon(s, step);
    } else {
      DeviceLeavesLink(s, step);
      DaemonStep(s, step);
    }
  }

  /** The result of a reply is stored once: nothing else makes a row succeeded or
      indeterminate, and only the failure of a dispatch changes a closed row. */
  ghost predicate RowsChange(s: Sys, next: Sys, step: Step, id: nat) {
    && (id in s.lane.rows ==> id in next.lane.rows)
    && (id in s.lane.rows && !Open(s.lane.rows[id].status) ==>
          (next.lane.rows[id].status != s.lane.rows[id].status
           <==> step == DispatchFailed(id) && s.lane.rows[id].status != CommandStatus.Failed))
    && (id in next.lane.rows && FromResult(next.lane.rows[id].status) && !step.ReceiveReply? ==>
          id in s.lane.rows && s.lane.rows[id].status == next.lane.rows[id].status && step != DispatchFailed(id))
  }

  lemma InsertedRows(s: Sys, step: Step, id: nat)
    requires LaneInv(s.lane) && Enabled(s, step) && (step.InsertCommit? || step.InsertFail?)
    ensures RowsChange(s, Apply(s, step), step, id)
  {}

  lemma UpdatedRows(s: Sys, step: Step, id: nat)
    requires Enabled(s, step) && (step.MarkDispatched? || step.DispatchFailed? || step.TimerFired? || step.PersistTimeout?)
    ensures RowsChange(s, Apply(s, step), step, id)
  {}

  lemma ReportedRows(s: Sys, step: Step, id: nat)
    requires Enabled(s, step) && step.ReceiveReply?
    ensures RowsChange(s, Apply(s, step), step, id)
  {}

  lemma SweptRows(s: Sys, step: Step, id: nat)
    requires Enabled(s, step) && (step.RestartGateway? || step.ExpireElsewhere?)
    ensures RowsChange(s, Apply(s, step), step, id)
  {}

  lemma SameRows(s: Sys, step: Step)
    requires Enabled(s, step)
    requires !ByGateway(step) || step.Reserve? || step.Transmit? || step.Register? || step.Revoke? || step.CloseGateway?
    ensures Apply(s, step).lane.rows == s.lane.rows && Apply(s, step).results == s.results
  {}

  lemma RowsStep(s: Sys, step: Step, id: nat)
    requires LaneInv(s.lane) && Enabled(s, step)
    ensures RowsChange(s, Apply(s, step), step, id)
  {
    match step
    case InsertCommit => InsertedRows(s, step, id);
    case InsertFail(_) => InsertedRows(s, step, id);
    case MarkDispatched(_) => UpdatedRows(s, step, id);
    case DispatchFailed(_) => UpdatedRows(s, step, id);
    case TimerFired(_) => UpdatedRows(s, step, id);
    case PersistTimeout(_) => UpdatedRows(s, step, id);
    case ReceiveReply(_) => ReportedRows(s, step, id);
    case RestartGateway(_) => SweptRows(s, step, id);
    case ExpireElsewhere(_) => SweptRows(s, step, id);
    case _ => SameRows(s, step);
  }

  lemma ResultsShrink(s: Sys, step: Step)
    requires Enabled(s, step) && !step.ReceiveReply?
    ensures Apply(s, step).results == if step.DispatchFailed? then s.results - {step.id} else s.results
    ensures s.toGateway <= Apply(s, step).toGateway
  {}

  lemma ResultReply(s: Sys, answer: Answer)
    requires ReplyInv(s.toGateway, s.issued, s.finished) && ResultInv(s.lane.rows, s.results, s.toGateway)
    requires Enabled(s, ReceiveReply(answer))
    ensures var next := Apply(s, ReceiveReply(answer)); ResultInv(next.lane.rows, next.results, next.toGateway)
  {
    assert AnswerInv(answer, s.issued, s.finished);
  }

  lemma ResultStep(s: Sys, step: Step)
    requires LaneInv(s.lane) && ReplyInv(s.toGateway, s.issued, s.finished) && Enabled(s, step)
    requires ResultInv(s.lane.rows, s.results, s.toGateway)
    ensures var next := Apply(s, step); ResultInv(next.lane.rows, next.results, next.toGateway)
  {
    if step.ReceiveReply? {
      ResultReply(s, step.answer);
    } else {
      ResultsShrink(s, step);
      forall id
        ensures RowsChange(s, Apply(s, step), step, id)
      {
        RowsStep(s, step, id);
      }
      ResultsKept(s, step, Apply(s, step));
    }
  }

  lemma ResultsKept(s: Sys, step: Step, next: Sys)
    requires ResultInv(s.lane.rows, s.results, s.toGateway) && !step.ReceiveReply?
    requires forall id :: RowsChange(s, next, step, id)
    requires next.results == if step.DispatchFailed? then s.results - {step.id} else s.results
    requires s.toGateway <= next.toGateway
    ensures ResultInv(next.lane.rows, next.results, next.toGateway)
  {
    forall id | id in next.results
      ensures id in next.lane.rows && next.lane.rows[id].status == s.lane.rows[id].status
    {
      assert RowsChange(s, next, step, id);
    }
    forall id | id in next.lane.rows && FromResult(next.lane.rows[id].status)
      ensures id in next.results
    {
      assert RowsChange(s, next, step, id);
    }
  }

  /** Every step of a run is enabled where it is taken. */
  ghost predicate Legal(s: Sys, steps: seq<Step>)
    decreases |steps|
  {
    steps == [] || (Enabled(s, steps[0]) && Legal(Apply(s, steps[0]), steps[1..]))
  }

  ghost function Run(s: Sys, steps: seq<Step>): Sys
    requires Legal(s, steps)
    decreases |steps|
  {
    if steps == [] then s else Run(Apply(s, steps[0]), steps[1..])
  }

  lemma {:induction false} RunKeepsInv(s: Sys, steps: seq<Step>)
    requires Inv(s) && Legal(s, steps)
    ensures Inv(Run(s, steps))
    decreases |steps|
  {
    if steps != [] {
      StepKeepsInv(s, steps[0]);
      RunKeepsInv(Apply(s, steps[0]), steps[1..]);
    }
  }

  lemma Reachable(steps: seq<Step>)
    requires Legal(INIT, steps)
    ensures Inv(Run(INIT, steps))
  {
    InitInv();
    RunKeepsInv(INIT, steps);
  }

  // ---------------------------------------------------------------- what every run satisfies

  /** At most once: commands start in strictly increasing sequence, never ahead of the
      disk, and no command starts twice. */
  lemma AtMostOnce(steps: seq<Step>)
    requires Legal(INIT, steps)
    ensures var s := Run(INIT, steps);
      && s.file.Stored?
      && (forall i :: 0 <= i < |s.started| ==> s.started[i].sequence <= s.file.id.lastSeen)
      && (forall i, j :: 0 <= i < j < |s.started| ==>
            s.started[i].sequence < s.started[j].sequence && s.started[i].id != s.started[j].id)
  {
    Reachable(steps);
    var s := Run(INIT, steps);
    forall i, j | 0 <= i < j < |s.started|
      ensures s.started[i].id != s.started[j].id
    {
      assert s.started[i] in s.issued && s.started[j] in s.issued;
    }
  }

  /** The sequence on disk never goes back, whoever writes the record. */
  lemma DiskNeverRegresses(s: Sys, step: Step)
    requires Inv(s) && Enabled(s, step)
    ensures Apply(s, step).file.Stored? && s.file.id.lastSeen <= Apply(s, step).file.id.lastSeen
  {
    match step
    case Persist(_) =>
    case StoreCredential(_) =>
    case SaveIdentity(_, _, _) =>
    case _ => assert Apply(s, step).file == s.file;
  }

  /** Who writes what: the credentials on disk are those of the last enrolment of the daemon
      or of the command line, whatever snapshot it wrote from, and stay while the daemon
      persists sequences; the sequence moves only when the daemon persists the queue's head. */
  lemma DiskHoldsLatest(s: Sys, step: Step)
    requires Inv(s) && Enabled(s, step)
    ensures var before := s.file.id; var next := Apply(s, step);
      next.file == Stored(
        if step.SaveIdentity? then before.(token := step.token, credential := step.credential)
        else if step.StoreCredential? then before.(token := "", credential := step.credential)
        else if step.Persist? && step.diskOk then before.(lastSeen := Conn(s).queue[0].sequence)
        else before)
  {
    match step
    case Persist(_) =>
    case StoreCredential(_) =>
    case SaveIdentity(_, _, _) =>
    case _ => assert Apply(s, step).file == s.file;
  }

  /** A command line tool may write from whatever it has loaded. */
  lemma LoadedMayBeSaved(s: Sys, token: string, credential: string)
    requires Enabled(s, LoadIdentity)
    ensures var next := Apply(s, LoadIdentity);
      next.file == s.file && Enabled(next, SaveIdentity(s.file.id.lastSeen, token, credential))
  {}

  /** No phantom success: a succeeded row has exactly one execution, which was ok. */
  lemma NoPhantomSuccess(steps: seq<Step>, id: nat)
    requires Legal(INIT, steps) && id in Run(INIT, steps).lane.rows
    requires Run(INIT, steps).lane.rows[id].status == Succeeded
    ensures var s := Run(INIT, steps); var command := Command(id, s.lane.rows[id].sequence);
      && command in s.started
      && (exists i :: 0 <= i < |s.finished| && s.finished[i] == Outcome(command, true)
                      && forall j :: 0 <= j < |s.finished| && s.finished[j].command.id == id ==> j == i)
  {
    Reachable(steps);
    var s := Run(INIT, steps);
    var command := Command(id, s.lane.rows[id].sequence);
    var i :| 0 <= i < |s.finished| && s.finished[i] == Outcome(command, true);
    forall j | 0 <= j < |s.finished| && s.finished[j].command.id == id
      ensures j == i
    {
      assert s.finished[j].command in s.started && s.finished[j].command in s.issued;
      assert s.finished[j].command == command;
    }
  }

  /** What a result stores: over every run a row closed by a result, and not overwritten by a
      failed dispatch since, is indeterminate exactly when the device answered the command as
      a duplicate, failed exactly when it finished it without success or refused it for a
      full queue, and succeeded exactly when it finished it with success. No other row is
      indeterminate or succeeded. */
  lemma ResultIsWhatHappened(steps: seq<Step>, id: nat)
    requires Legal(INIT, steps) && id in Run(INIT, steps).lane.rows
    ensures var s := Run(INIT, steps); var row := s.lane.rows[id];
      && (row.status == Succeeded || row.status == IndeterminateStatus ==> id in s.results)
      && (id in s.results ==> var a := s.results[id];
            && a.command == Command(id, row.sequence) && a in s.toGateway
            && (row.status == IndeterminateStatus <==> a.how == Duplicate)
            && (row.status == CommandStatus.Failed <==> a.how == FinishedFailed || a.how == QueueFull)
            && (row.status == Succeeded <==> a.how == FinishedOk)
            && (a.how == FinishedOk ==> Outcome(a.command, true) in s.finished)
            && (a.how == FinishedFailed ==> Outcome(a.command, false) in s.finished))
  {
    Reachable(steps);
    var s := Run(INIT, steps);
    if id in s.results {
      assert AnswerInv(s.results[id], s.issued, s.finished);
    }
  }

  /** A result of an open row closes it, settles its promise if there is one, and takes the
      command out of the outbox; a result of a closed row changes nothing. */
  lemma ResultCloses(s: Sys, answer: Answer)
    requires Inv(s) && Enabled(s, ReceiveReply(answer))
    ensures var id := answer.command.id; var next := Apply(s, ReceiveReply(answer));
      && id in s.lane.rows
      && (Open(s.lane.rows[id].status) ==>
            && id in next.lane.rows && !Open(next.lane.rows[id].status) && next.results == s.results[id := answer]
            && next.exits[id] == s.exits[id] + 1
            && next.settled[id] == s.settled[id] + (if id in s.lane.waiting then 1 else 0)
            && next.lane.waiting == s.lane.waiting - {id}
            && forall c :: c in next.lane.outbox <==> c in s.lane.outbox && c.id != id)
      && (!Open(s.lane.rows[id].status) ==> next.lane == s.lane && next.settled == s.settled && next.results == s.results)
  {
    assert AnswerInv(answer, s.issued, s.finished);
  }

  /** Once its row is stored a command is pending, awaited, and the last of at most a
      hundred in the outbox. */
  lemma IssuedWaits(s: Sys)
    requires Inv(s) && Enabled(s, InsertCommit)
    ensures var c := s.lane.reserved.value; var next := Apply(s, InsertCommit).lane;
      && next.rows == s.lane.rows[c.id := Row(DEVICE, c.sequence, Pending)] && c.id !in s.lane.rows
      && next.waiting == s.lane.waiting + {c.id}
      && next.outbox == (if |s.lane.outbox| < 100 then s.lane.outbox else s.lane.outbox[1..]) + [c]
  {
    var outbox, c := s.lane.outbox, s.lane.reserved.value;
    assert |outbox| >= 100 ==> (outbox + [c])[1..] == outbox[1..] + [c];
  }

  /** The timer of an awaited command: its promise is settled at once, its row not yet
      updated, and it is never replayed again. */
  lemma TimerSettles(s: Sys, id: nat)
    requires id in s.lane.waiting
    ensures var next := Apply(s, TimerFired(id));
      && next.settled == s.settled + multiset{id} && next.exits == s.exits && next.lane.rows == s.lane.rows
      && next.lane.waiting == s.lane.waiting - {id} && next.lane.firing == s.lane.firing + {id}
      && forall c :: c in next.lane.outbox <==> c in s.lane.outbox && c.id != id
  {
    assert multiset({id}) == multiset{id};
  }

  /** When its update reaches the database the row is timed out, unless it was closed before. */
  lemma TimeoutCloses(s: Sys, id: nat)
    requires id in s.lane.firing && id in s.lane.rows
    ensures var next := Apply(s, PersistTimeout(id)).lane;
      && next == s.lane.(rows := next.rows, firing := s.lane.firing - {id})
      && next.rows == (if s.lane.rows[id].status == Pending || s.lane.rows[id].status == Dispatched
                       then s.lane.rows[id := s.lane.rows[id].(status := TimedOutStatus)] else s.lane.rows)
  {}

  /** What is written to a stream becomes dispatched if it was pending. */
  lemma SentIsDispatched(s: Sys, id: nat)
    requires id in s.lane.rows
    ensures var next := Apply(s, MarkDispatched(id)).lane;
      && next.rows == (if s.lane.rows[id].status == Pending
                       then s.lane.rows[id := s.lane.rows[id].(status := CommandStatus.Dispatched)] else s.lane.rows)
      && next == s.lane.(rows := next.rows)
  {}

  /** A dispatch that fails leaves no promise and no outbox entry, and a failed row. */
  lemma FailedDispatchIs(s: Sys, id: nat)
    requires id in s.lane.rows
    ensures var next := Apply(s, DispatchFailed(id)).lane;
      && next.rows == s.lane.rows[id := s.lane.rows[id].(status := CommandStatus.Failed)]
      && next == s.lane.(rows := next.rows, waiting := s.lane.waiting - {id}, outbox := next.outbox)
      && forall c :: c in next.outbox <==> c in s.lane.outbox && c.id != id
  {}

  /** A new gateway process keeps nothing in memory, and times out the stale open rows and no
      other; in another process's eyes only the rows change. */
  lemma SweepCloses(s: Sys, stale: set<nat>)
    ensures var restarted := Apply(s, RestartGateway(stale)).lane; var next := Apply(s, ExpireElsewhere(stale)).lane;
      && restarted == Lane(None, None, next.rows, [], {}, {}) && next == s.lane.(rows := next.rows)
      && next.rows.Keys == s.lane.rows.Keys
      && forall id :: id in next.rows ==>
           next.rows[id] == if id in stale && (s.lane.rows[id].status == Pending || s.lane.rows[id].status == Dispatched)
                            then s.lane.rows[id].(status := TimedOutStatus) else s.lane.rows[id]
  {}

  /** Closing the gateway settles every promise that is still awaited, revoking a device
      forgets its number and its outbox, and a device that says hello brings the number back
      from the table. No row changes. */
  lemma MemoryIs(s: Sys, lastSeen: nat, loaded: nat)
    ensures var closed := Apply(s, CloseGateway);
      closed.settled == s.settled + multiset(s.lane.waiting) && closed.lane == s.lane.(waiting := {})
    ensures Apply(s, Revoke).lane == s.lane.(cache := None, outbox := [])
    ensures Enabled(s, Step.Register(lastSeen, loaded)) ==> var next := Apply(s, Step.Register(lastSeen, loaded));
      && next.lane == s.lane.(cache := Some(if s.lane.cache.Some? then s.lane.cache.value else loaded))
      && forall c :: c in next.toDevice <==> c in s.toDevice || (c in s.lane.outbox && c.sequence > lastSeen)
  {}

  /** What the device does with a command that arrives: answers a known sequence as a
      duplicate, refuses a new one when a hundred wait, and otherwise queues it last. */
  lemma ArrivalIs(s: Sys, command: Command)
    requires Enabled(s, ReceiveCommand(command))
    ensures var c := Conn(s); var next := Apply(s, ReceiveCommand(command));
      && Connected(next) && next.started == s.started && Conn(next).running == c.running
      && (command.sequence <= c.accepted ==>
            Conn(next) == c
            && next.toGateway == s.toGateway
                 + {Answer(command, Duplicate, Reply(command.id, command.sequence, false, Indeterminate))})
      && (command.sequence > c.accepted && |c.queue| >= 100 ==>
            Conn(next) == c
            && next.toGateway == s.toGateway
                 + {Answer(command, QueueFull, Reply(command.id, command.sequence, false, Unnamed))})
      && (command.sequence > c.accepted && |c.queue| < 100 ==>
            && Conn(next).queue == c.queue + [command] && Conn(next).accepted == command.sequence
            && next.toGateway == s.toGateway)
  {}

  /** Results and timeouts: a promise is settled at most once, a row leaves pending and
      dispatched at most once, and what has left stays out. */
  lemma SettledOnce(steps: seq<Step>, id: nat)
    requires Legal(INIT, steps)
    ensures var s := Run(INIT, steps);
      && s.settled[id] <= 1 && s.exits[id] <= 1
      && (s.settled[id] == 1 ==> id !in s.lane.waiting)
      && (s.exits[id] == 1 ==> id in s.lane.rows && !Open(s.lane.rows[id].status))
  {
    Reachable(steps);
    var s := Run(INIT, steps);
    assert id in s.settled || s.settled[id] == 0;
    assert id in s.exits || s.exits[id] == 0;
  }

  /** Numbers: whatever inserts failed, the rows are numbered 1 .. n; the outbox is
      strictly ascending, bounded, and every command in it has its row. */
  lemma NumbersAreDense(steps: seq<Step>)
    requires Legal(INIT, steps)
    ensures Numbered(Run(INIT, steps).lane.rows) && OutboxInv(Run(INIT, steps).lane)
  {
    Reachable(steps);
  }

  /** A replayed command, and a promise not settled yet, belongs to a row that is closed
      exactly when another gateway process, starting, expired it. */
  lemma ReplayedIsOpenUnlessExpired(steps: seq<Step>, lastSeen: nat)
    requires Legal(INIT, steps)
    ensures var s := Run(INIT, steps); var rows := s.lane.rows;
      && (forall c :: c in Replay(s.lane.outbox, lastSeen) ==>
            c.id in rows && (Open(rows[c.id].status) <==> c.id !in s.expired))
      && (forall id :: id in s.lane.waiting ==> id in rows && (Open(rows[id].status) <==> id !in s.expired))
  {
    Reachable(steps);
    ReplayIsExact(Run(INIT, steps).lane.outbox, lastSeen);
  }

  /** A closed row keeps its status, except when the unguarded update of a failed dispatch
      overwrites it. */
  lemma StatusIsFinalUnless(s: Sys, step: Step, id: nat)
    requires LaneInv(s.lane) && Enabled(s, step) && id in s.lane.rows && !Open(s.lane.rows[id].status)
    ensures id in Apply(s, step).lane.rows
    ensures Apply(s, step).lane.rows[id].status != s.lane.rows[id].status
            <==> step == DispatchFailed(id) && s.lane.rows[id].status != CommandStatus.Failed
  {
    RowsStep(s, step, id);
  }

  // ---------------------------------------------------------------- reconnecting

  ghost function Reconnected(s: Sys): Sys
    requires Enabled(s, Drop)
  {
    Apply(Apply(s, Drop), Connect)
  }

  lemma QueuedIsAhead(s: Sys, c: Command)
    requires DaemonInv(s) && Enabled(s, Drop) && c in Conn(s).queue
    ensures c.sequence > Memory(s).lastSeen <==> c != Conn(s).queue[0]
  {
    var i :| 0 <= i < |Conn(s).queue| && Conn(s).queue[i] == c;
  }

  lemma ReconnectedState(s: Sys)
    requires Enabled(s, Drop)
    ensures Connected(Reconnected(s)) && Memory(Reconnected(s)) == Memory(s)
    ensures Memory(s).lastSeen in Reconnected(s).hellos
    ensures Conn(Reconnected(s)) == Connection(Memory(s).lastSeen, [], None)
  {}

  /** A command still queued when the stream drops and still in the outbox: it is replayed,
      and accepted again, exactly if it is not the head of the queue. The loop has persisted
      the head before it waits for anything, so the head is not replayed, and would only be
      acknowledged as indeterminate. */
  lemma ReplayCoversQueue(s: Sys, c: Command)
    requires Inv(s) && Enabled(s, Drop) && c in Conn(s).queue && c in s.lane.outbox
    ensures Connected(Reconnected(s)) && Memory(Reconnected(s)).lastSeen in Reconnected(s).hellos
    ensures c in Replay(s.lane.outbox, Memory(Reconnected(s)).lastSeen) <==> c != Conn(s).queue[0]
    ensures Receive(Conn(Reconnected(s)), c)
            == if c == Conn(s).queue[0] then (Conn(Reconnected(s)), Some(DuplicateAck(c)))
               else (Connection(c.sequence, [c], None), None)
  {
    ReconnectedState(s);
    QueuedIsAhead(s, c);
    ReplayIsExact(s.lane.outbox, Memory(s).lastSeen);
    assert [] + [c] == [c];
  }

  function ReceiveAll(c: Connection, commands: seq<Command>): (Connection, seq<Reply>)
    decreases |commands|
  {
    if commands == [] then (c, [])
    else
      var (next, reply) := Receive(c, commands[0]);
      var (last, replies) := ReceiveAll(next, commands[1..]);
      (last, (if reply.Some? then [reply.value] else []) + replies)
  }

  lemma {:induction false} FreshCommandsAreAccepted(c: Connection, commands: seq<Command>)
    requires Ascending(commands) && (commands != [] ==> commands[0].sequence > c.accepted)
    requires |c.queue| + |commands| <= MAX_PENDING_COMMANDS
    ensures ReceiveAll(c, commands).0.queue == c.queue + commands
    ensures ReceiveAll(c, commands).1 == []
    decreases |commands|
  {
    if commands != [] {
      FreshCommandsAreAccepted(Receive(c, commands[0]).0, commands[1..]);
    }
  }

  /** A whole replay fits: delivered in order to the new connection, every command of it is
      accepted and none is refused or answered as a duplicate. */
  lemma ReplayIsAccepted(s: Sys)
    requires Inv(s) && Enabled(s, Drop)
    ensures var replay := Replay(s.lane.outbox, Memory(s).lastSeen);
      var (connection, replies) := ReceiveAll(Conn(Reconnected(s)), replay);
      connection.queue == replay && replies == []
  {
    ReconnectedState(s);
    var replay := Replay(s.lane.outbox, Memory(s).lastSeen);
    ReplayIsExact(s.lane.outbox, Memory(s).lastSeen);
    assert replay != [] ==> replay[0] in replay;
    FreshCommandsAreAccepted(Conn(Reconnected(s)), replay);
  }

  // ---------------------------------------------------------------- two runs worth knowing

  lemma {:induction false} Extend(s: Sys, steps: seq<Step>, step: Step)
    requires Legal(s, steps) && Enabled(Run(s, steps), step)
    ensures Legal(s, steps + [step]) && Run(s, steps + [step]) == Apply(Run(s, steps), step)
    decreases |steps|
  {
    if steps == [] {
      assert ([] + [step])[1..] == [];
    } else {
      assert (steps + [step])[1..] == steps[1..] + [step];
      Extend(Apply(s, steps[0]), steps[1..], step);
    }
  }

  lemma Then(steps: seq<Step>, step: Step) returns (longer: seq<Step>)
    requires Legal(INIT, steps) && Enabled(Run(INIT, steps), step)
    ensures Legal(INIT, longer) && Run(INIT, longer) == Apply(Run(INIT, steps), step)
  {
    Extend(INIT, steps, step);
    longer := steps + [step];
  }

  const FIRST := Command(1, 1)
  const SECOND := Command(2, 2)

  lemma OneIssued() returns (steps: seq<Step>)
    ensures Legal(INIT, steps)
    ensures Run(INIT, steps) == INIT.(issued := {FIRST}, lane := Lane(Some(1), None,
      map[1 := Row(DEVICE, 1, Pending)], [FIRST], {1}, {}))
  {
    steps := Then([], Step.Reserve(1, 0));
    steps := Then(steps, Step.InsertCommit);
  }

  lemma SecondReserved() returns (steps: seq<Step>)
    ensures Legal(INIT, steps)
    ensures Run(INIT, steps) == INIT.(issued := {FIRST}, lane := Lane(Some(2), Some(SECOND),
      map[1 := Row(DEVICE, 1, Pending)], [FIRST], {1}, {}))
  {
    steps := OneIssued();
    assert Run(INIT, steps).lane.rows[1].sequence == 1;
    steps := Then(steps, Step.Reserve(2, 1));
  }

  /** Two commands are issued. */
  lemma TwoIssued() returns (steps: seq<Step>)
    ensures Legal(INIT, steps)
    ensures Run(INIT, steps) == INIT.(issued := {FIRST, SECOND}, lane := Lane(Some(2), None,
      map[1 := Row(DEVICE, 1, Pending), 2 := Row(DEVICE, 2, Pending)], [FIRST, SECOND], {1, 2}, {}))
  {
    steps := SecondReserved();
    assert !Taken(Run(INIT, steps).lane.rows, 2);
    steps := Then(steps, Step.InsertCommit);
  }

  /** A state in which the device, of record `id`, holds `connection` and was sent nothing
      but the two issued commands. */
  ghost predicate TwoCommands(s: Sys, id: Identity, connection: Connection) {
    && s.issued == {FIRST, SECOND} && s.file == Stored(id) && id.deviceId == DEVICE
    && s.process == Some(Process(id, Some(connection)))
    && s.lane.outbox == [FIRST, SECOND] && s.lane.waiting == {1, 2}
    && 1 in s.lane.rows && s.lane.rows[1].status == Pending
    && s.finished == [] && s.toGateway == {} && s.settled == multiset{} && s.exits == multiset{}
  }

  /** The device connects. */
  lemma TwoConnected() returns (steps: seq<Step>)
    ensures Legal(INIT, steps) && TwoCommands(Run(INIT, steps), Identity(DEVICE, 0, "", ""), Connection(0, [], None))
  {
    steps := TwoIssued();
    steps := Then(steps, StartDaemon);
    steps := Then(steps, Connect);
  }

  lemma Deliver(before: seq<Step>, id: Identity, connection: Connection, c: Command) returns (steps: seq<Step>)
    requires Legal(INIT, before) && TwoCommands(Run(INIT, before), id, connection)
    requires c in [FIRST, SECOND] && c.sequence > connection.accepted && connection.queue == []
    ensures Legal(INIT, steps) && TwoCommands(Run(INIT, steps), id, Connection(c.sequence, [c], connection.running))
  {
    steps := Then(before, Transmit(c));
    steps := Then(steps, ReceiveCommand(c));
    assert [] + [c] == [c];
  }

  lemma PersistHead(before: seq<Step>, id: Identity, connection: Connection) returns (steps: seq<Step>)
    requires Legal(INIT, before) && TwoCommands(Run(INIT, before), id, connection)
    requires connection.queue != [] && connection.queue[0].sequence > id.lastSeen
    ensures Legal(INIT, steps)
    ensures TwoCommands(Run(INIT, steps), id.(lastSeen := connection.queue[0].sequence), connection)
  {
    steps := Then(before, Persist(true));
  }

  lemma TakeHead(before: seq<Step>, id: Identity, c: Command) returns (steps: seq<Step>)
    requires Legal(INIT, before) && TwoCommands(Run(INIT, before), id, Connection(c.sequence, [c], None))
    requires c.sequence <= id.lastSeen
    ensures Legal(INIT, steps) && TwoCommands(Run(INIT, steps), id, Connection(c.sequence, [], Some(c)))
  {
    steps := Then(before, Dequeue);
    assert [c][1..] == [];
  }

  /** The first one is running and on disk. */
  lemma FirstRunning() returns (steps: seq<Step>)
    ensures Legal(INIT, steps)
    ensures TwoCommands(Run(INIT, steps), Identity(DEVICE, 1, "", ""), Connection(1, [], Some(FIRST)))
  {
    steps := TwoConnected();
    steps := Deliver(steps, Identity(DEVICE, 0, "", ""), Connection(0, [], None), FIRST);
    steps := PersistHead(steps, Identity(DEVICE, 0, "", ""), Connection(1, [FIRST], None));
    steps := TakeHead(steps, Identity(DEVICE, 1, "", ""), FIRST);
  }

  /** The exception of ReplayCoversQueue occurs: behind a running command, the head of the
      queue is persisted while it waits, so a dropped stream strands it. */
  lemma StrandedHead() returns (steps: seq<Step>, c: Command)
    ensures Legal(INIT, steps) && Enabled(Run(INIT, steps), Drop)
    ensures var s := Run(INIT, steps); c in Conn(s).queue && c in s.lane.outbox && c !in s.started
    ensures var s := Run(INIT, steps); c !in Replay(s.lane.outbox, Memory(s).lastSeen)
  {
    c := SECOND;
    steps := FirstRunning();
    steps := Deliver(steps, Identity(DEVICE, 1, "", ""), Connection(1, [], Some(FIRST)), SECOND);
    steps := PersistHead(steps, Identity(DEVICE, 1, "", ""), Connection(2, [SECOND], Some(FIRST)));
    var s := Run(INIT, steps);
    Reachable(steps);
    assert Conn(s).queue[0] == SECOND && s.lane.outbox[1] == SECOND;
    ReplayIsExact(s.lane.outbox, Memory(s).lastSeen);
    StartedAreBelow(s, SECOND);
  }

  lemma StartedAreBelow(s: Sys, c: Command)
    requires DaemonInv(s) && Connected(s) && c in Conn(s).queue
    ensures c !in s.started
  {
    var i :| 0 <= i < |Conn(s).queue| && Conn(s).queue[i] == c;
  }

  /** The exception of ReplayedIsOpenUnlessExpired occurs: a second gateway process starts,
      expires a command this one still holds, and this one would replay it. */
  lemma ExpiredIsReplayed() returns (steps: seq<Step>)
    ensures Legal(INIT, steps)
    ensures var s := Run(INIT, steps);
      && FIRST in Replay(s.lane.outbox, 0) && 1 in s.lane.waiting
      && 1 in s.lane.rows && s.lane.rows[1].status == TimedOutStatus
  {
    steps := TwoIssued();
    steps := Then(steps, ExpireElsewhere({1}));
    assert Run(INIT, steps).lane.outbox == [FIRST, SECOND];
    ReplayIsExact([FIRST, SECOND], 0);
    assert [FIRST, SECOND][0] == FIRST;
  }

  /** The first command has run and its result is on the way. */
  lemma FirstFinished() returns (steps: seq<Step>)
    ensures Legal(INIT, steps)
    ensures var s := Run(INIT, steps);
      && Outcome(FIRST, true) in s.finished && s.exits == multiset{} && s.settled == multiset{} && s.lane.waiting == {1, 2}
      && Answer(FIRST, FinishedOk, Reply(1, 1, true, Unnamed)) in s.toGateway
      && 1 in s.lane.rows && s.lane.rows[1].status == Pending
  {
    var before := FirstRunning();
    FinishIs(Run(INIT, before), true);
    steps := Then(before, Finish(true));
    assert Run(INIT, steps).finished[0] == Outcome(FIRST, true);
  }

  /** Its success is recorded. */
  lemma SuccessRecorded() returns (steps: seq<Step>)
    ensures Legal(INIT, steps)
    ensures var s := Run(INIT, steps);
      && Outcome(FIRST, true) in s.finished && s.exits[1] == 1 && s.settled[1] == 1
      && 1 in s.lane.rows && s.lane.rows[1].status == Succeeded
  {
    steps := FirstFinished();
    steps := Then(steps, ReceiveReply(Answer(FIRST, FinishedOk, Reply(1, 1, true, Unnamed))));
  }

  /** The exception of StatusIsFinalUnless occurs: a command ran, its success was recorded
      and its promise settled, and the row ends up failed. */
  lemma SuccessOverwritten() returns (steps: seq<Step>)
    ensures Legal(INIT, steps)
    ensures var s := Run(INIT, steps);
      && Outcome(FIRST, true) in s.finished && s.exits[1] == 1 && s.settled[1] == 1
      && 1 in s.lane.rows && s.lane.rows[1].status == Failed
  {
    steps := SuccessRecorded();
    steps := Then(steps, DispatchFailed(1));
  }
}
