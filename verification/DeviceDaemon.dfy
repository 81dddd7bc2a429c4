/**
 * The device daemon's connection loop (daemon.go, serveConnection): it accepts commands
 * into memory, persists a command's sequence before the executor may take it, and answers
 * what it will not run.
 */
module DeviceDaemon {
  import opened Sequences
  import opened DeviceIdentity

  const MAX_PENDING_COMMANDS: nat := 100

  datatype Command = Command(id: nat, sequence: nat)

  /** The status a device may name in a result besides the ok flag. */
  datatype Named = Unnamed | Indeterminate

  datatype Reply = Reply(id: nat, sequence: nat, ok: bool, status: Named)

  /** A replayed sequence: not run again, outcome unknown. */
  function DuplicateAck(c: Command): Reply { Reply(c.id, c.sequence, false, Indeterminate) }

  /** A refusal because the queue is full. */
  function RejectedCommand(c: Command): Reply { Reply(c.id, c.sequence, false, Unnamed) }

  /** What one connection keeps in memory; running is the executor's command. */
  datatype Connection = Connection(accepted: nat, queue: seq<Command>, running: Option<Command>)

  /** Accepting, refusing or answering an incoming command. */
  function Receive(c: Connection, command: Command): (Connection, Option<Reply>) {
    if command.sequence <= c.accepted then (c, Some(DuplicateAck(command)))
    else if |c.queue| >= MAX_PENDING_COMMANDS then (c, Some(RejectedCommand(command)))
    else (c.(accepted := command.sequence, queue := c.queue + [command]), None)
  }

  predicate Ascending(commands: seq<Command>) {
    forall i, j :: 0 <= i < j < |commands| ==> commands[i].sequence < commands[j].sequence
  }

  /** What the loop keeps about its queue. lastSeen is the persisted sequence: it is at
      the head of the queue once that has been persisted, and below the queue before. */
  ghost predicate QueueInv(c: Connection, lastSeen: nat, started: seq<Command>) {
    && |c.queue| <= MAX_PENDING_COMMANDS
    && lastSeen <= c.accepted
    && Ascending(c.queue)
    && (forall i :: 0 <= i < |c.queue| ==> c.queue[i].sequence <= c.accepted)
    && (forall i :: 0 < i < |c.queue| ==> c.queue[i].sequence > lastSeen)
    && (c.queue != [] ==> c.queue[0].sequence >= lastSeen)
    && (forall i, j :: 0 <= i < |started| && 0 <= j < |c.queue| ==> started[i].sequence < c.queue[j].sequence)
    && (c.running.Some? ==> c.running.value in started)
  }

  lemma ReceiveKeepsQueue(c: Connection, command: Command, lastSeen: nat, started: seq<Command>)
    requires QueueInv(c, lastSeen, started) && forall i :: 0 <= i < |started| ==> started[i].sequence <= lastSeen
    ensures QueueInv(Receive(c, command).0, lastSeen, started)
  {}

  /** What one pass of the select loop may be woken by. */
  datatype Event =
    | Incoming(command: Command)
    | ExecutorReady                     // the executor takes the head of the queue
    | Finished(ok: bool)                // the executor hands back its result
    | NewCredential(credential: string) // an enrolment message
    | Other                             // heartbeats, inventory

  /** One connection's memory, the commands handed to the executor, the results sent. */
  datatype Session = Session(connection: Connection, started: seq<Command>, sent: seq<Reply>)

  /** One case of the select statement. */
  function Select(s: Session, event: Event): Session {
    var c := s.connection;
    match event
    case Incoming(command) =>
      var (after, reply) := Receive(c, command);
      s.(connection := after, sent := if reply.Some? then s.sent + [reply.value] else s.sent)
    case ExecutorReady =>
      if c.queue == [] || c.running.Some? then s
      else s.(connection := c.(queue := c.queue[1..], running := Some(c.queue[0])), started := s.started + [c.queue[0]])
    case Finished(ok) =>
      if c.running.None? then s
      else s.(connection := c.(running := None),
              sent := s.sent + [Reply(c.running.value.id, c.running.value.sequence, ok, Unnamed)])
    case NewCredential(_) => s
    case Other => s
  }

  function SelectAll(s: Session, events: seq<Event>): Session {
    if events == [] then s else Select(SelectAll(s, events[..|events| - 1]), events[|events| - 1])
  }

  /** A connection that has just been opened. */
  function Opened(lastSeen: nat): Session { Session(Connection(lastSeen, [], None), [], []) }

  /** The record's credentials after the enrolment messages among the events. */
  function Enrolled(id: Identity, events: seq<Event>): Identity {
    if events == [] then id
    else
      var before, last := Enrolled(id, events[..|events| - 1]), events[|events| - 1];
      if last.NewCredential? && last.credential != "" then before.(token := "", credential := last.credential) else before
  }

  /** The last enrolment message with a credential counts, and uses up the token. */
  lemma {:induction false} LastEnrolmentCounts(id: Identity, events: seq<Event>, i: nat)
    requires i < |events| && events[i].NewCredential? && events[i].credential != ""
    requires forall j :: i < j < |events| && events[j].NewCredential? ==> events[j].credential == ""
    ensures Enrolled(id, events) == id.(token := "", credential := events[i].credential)
  {
    var last := |events| - 1;
    if i < last {
      LastEnrolmentCounts(id, events[..last], i);
    } else {
      EnrolmentKeeps(id, events[..last]);
    }
  }

  lemma {:induction false} EnrolmentKeeps(id: Identity, events: seq<Event>)
    ensures Enrolled(id, events).deviceId == id.deviceId && Enrolled(id, events).lastSeen == id.lastSeen
    ensures (forall j :: 0 <= j < |events| && events[j].NewCredential? ==> events[j].credential == "") ==>
              Enrolled(id, events) == id
  {
    if events != [] {
      EnrolmentKeeps(id, events[..|events| - 1]);
    }
  }

  predicate HeadPersisted(c: Connection, lastSeen: nat) {
    c.queue != [] ==> c.queue[0].sequence <= lastSeen
  }

  ghost predicate SessionInv(s: Session, reported: nat, lastSeen: nat) {
    && reported <= lastSeen
    && Ascending(s.started)
    && (forall i :: 0 <= i < |s.started| ==> reported < s.started[i].sequence <= lastSeen)
    && QueueInv(s.connection, lastSeen, s.started)
    && (forall i :: 0 <= i < |s.connection.queue| ==> s.connection.queue[i].sequence > reported)
    && (forall r :: r in s.sent && r.ok ==> Command(r.id, r.sequence) in s.started && r.status == Unnamed)
  }

  lemma PersistKeepsSession(s: Session, reported: nat, lastSeen: nat)
    requires SessionInv(s, reported, lastSeen) && s.connection.queue != []
    requires s.connection.queue[0].sequence > lastSeen
    ensures SessionInv(s, reported, s.connection.queue[0].sequence)
  {}

  lemma DequeueKeepsSession(s: Session, reported: nat, lastSeen: nat)
    requires SessionInv(s, reported, lastSeen) && HeadPersisted(s.connection, lastSeen)
    ensures SessionInv(Select(s, ExecutorReady), reported, lastSeen)
  {
    if s.connection.queue != [] && s.connection.running.None? {
      var next := Select(s, ExecutorReady);
      assert forall i :: 0 <= i < |s.started| ==> next.started[i] == s.started[i];
      assert next.started[|s.started|] == s.connection.queue[0];
      assert forall i :: 0 <= i < |next.connection.queue| ==> next.connection.queue[i] == s.connection.queue[i + 1];
      assert forall c :: c in s.started ==> c in next.started;
    }
  }

  lemma SelectKeepsSession(s: Session, event: Event, reported: nat, lastSeen: nat)
    requires SessionInv(s, reported, lastSeen) && HeadPersisted(s.connection, lastSeen)
    ensures SessionInv(Select(s, event), reported, lastSeen)
  {
    match event
    case Incoming(command) => ReceiveKeepsQueue(s.connection, command, lastSeen, s.started);
    case ExecutorReady => DequeueKeepsSession(s, reported, lastSeen);
    case Finished(ok) =>
    case NewCredential(_) =>
    case Other =>
  }

  /** The commands that came in. */
  function Arrived(events: seq<Event>): multiset<Command> {
    if events == [] then multiset{}
    else
      var last := events[|events| - 1];
      Arrived(events[..|events| - 1]) + if last.Incoming? then multiset{last.command} else multiset{}
  }

  /** The commands that replies answer. */
  function Answered(sent: seq<Reply>): multiset<Command> {
    if sent == [] then multiset{}
    else
      var last := sent[|sent| - 1];
      Answered(sent[..|sent| - 1]) + multiset{Command(last.id, last.sequence)}
  }

  function Executing(c: Connection): multiset<Command> {
    if c.running.Some? then multiset{c.running.value} else multiset{}
  }

  lemma OneMoreAnswer(sent: seq<Reply>, r: Reply)
    ensures Answered(sent + [r]) == Answered(sent) + multiset{Command(r.id, r.sequence)}
  {
    assert (sent + [r])[..|sent|] == sent;
  }

  function Accounted(s: Session): multiset<Command> {
    Answered(s.sent) + multiset(s.connection.queue) + Executing(s.connection)
  }

  lemma AnsweringAccounts(s: Session, command: Command, r: Reply)
    requires r.id == command.id && r.sequence == command.sequence
    ensures Accounted(s.(sent := s.sent + [r])) == Accounted(s) + multiset{command}
  {
    OneMoreAnswer(s.sent, r);
  }

  lemma QueueingAccounts(s: Session, command: Command)
    ensures Accounted(s.(connection := s.connection.(accepted := command.sequence, queue := s.connection.queue + [command])))
            == Accounted(s) + multiset{command}
  {
    assert multiset(s.connection.queue + [command]) == multiset(s.connection.queue) + multiset{command};
  }

  /** What an incoming command does to the session: one more reply, or one more in the queue. */
  function WithIncoming(s: Session, command: Command): Session {
    var c := s.connection;
    if command.sequence <= c.accepted then s.(sent := s.sent + [DuplicateAck(command)])
    else if |c.queue| >= MAX_PENDING_COMMANDS then s.(sent := s.sent + [RejectedCommand(command)])
    else s.(connection := c.(accepted := command.sequence, queue := c.queue + [command]))
  }

  lemma IncomingEffect(s: Session, command: Command)
    ensures Select(s, Incoming(command)) == WithIncoming(s, command)
  {}

  lemma IncomingAccounts(s: Session, command: Command)
    ensures Accounted(WithIncoming(s, command)) == Accounted(s) + multiset{command}
  {
    if command.sequence <= s.connection.accepted {
      AnsweringAccounts(s, command, DuplicateAck(command));
    } else if |s.connection.queue| >= MAX_PENDING_COMMANDS {
      AnsweringAccounts(s, command, RejectedCommand(command));
    } else {
      QueueingAccounts(s, command);
    }
  }

  lemma TakingAccounts(s: Session)
    ensures Accounted(Select(s, ExecutorReady)) == Accounted(s)
  {
    var queue := s.connection.queue;
    if queue != [] && s.connection.running.None? {
      assert queue == [queue[0]] + queue[1..];
      assert multiset(queue) == multiset{queue[0]} + multiset(queue[1..]);
    }
  }

  lemma FinishingAccounts(s: Session, ok: bool)
    ensures Accounted(Select(s, Finished(ok))) == Accounted(s)
  {
    if s.connection.running.Some? {
      var c := s.connection.running.value;
      OneMoreAnswer(s.sent, Reply(c.id, c.sequence, ok, Unnamed));
      assert Executing(s.connection) == multiset{c};
    }
  }

  lemma SelectAccounts(s: Session, event: Event)
    ensures Accounted(Select(s, event)) == Accounted(s) + if event.Incoming? then multiset{event.command} else multiset{}
  {
    match event
    case Incoming(command) =>
      IncomingEffect(s, command);
      IncomingAccounts(s, command);
    case ExecutorReady => TakingAccounts(s);
    case Finished(ok) => FinishingAccounts(s, ok);
    case NewCredential(_) =>
    case Other =>
  }

  /** Conservation, command by command: each one that came in has been answered once (with
      its result, as a duplicate, or as refused), or is running, or waits in the queue. */
  lemma {:induction false} EveryCommandIsAnswered(lastSeen: nat, events: seq<Event>)
    ensures Accounted(SelectAll(Opened(lastSeen), events)) == Arrived(events)
  {
    if events != [] {
      EveryCommandIsAnswered(lastSeen, events[..|events| - 1]);
      SelectAccounts(SelectAll(Opened(lastSeen), events[..|events| - 1]), events[|events| - 1]);
    }
  }

  /** One more event handled. */
  lemma OneMoreEvent(start: Session, id: Identity, events: seq<Event>, n: nat)
    requires n < |events|
    ensures SelectAll(start, events[..n + 1]) == Select(SelectAll(start, events[..n]), events[n])
    ensures var before := Enrolled(id, events[..n]);
      Enrolled(id, events[..n + 1])
      == if events[n].NewCredential? && events[n].credential != ""
         then before.(token := "", credential := events[n].credential) else before
  {
    assert events[..n + 1][..n] == events[..n];
  }

  datatype Exit = StreamEnded | PersistFailed | CredentialFailed

  class Daemon {
    const store: IdentityStore
    var id: Identity

    constructor (store: IdentityStore, id: Identity)
      ensures this.store == store && this.id == id
    {
      this.store := store;
      this.id := id;
    }

    /** The top of the loop: the head's sequence reaches the disk before it may be taken. */
    method PersistHead(session: Session, diskOk: bool, ghost reported: nat) returns (ok: bool)
      requires store.file == Stored(id) && SessionInv(session, reported, id.lastSeen)
      modifies this, store
      ensures store.file == Stored(id) && id == old(id).(lastSeen := id.lastSeen)
      ensures SessionInv(session, reported, id.lastSeen)
      ensures ok <==> HeadPersisted(session.connection, id.lastSeen)
      ensures ok <==> HeadPersisted(session.connection, old(id).lastSeen) || diskOk
      ensures !ok ==> id == old(id)
    {
      var queue := session.connection.queue;
      if queue == [] || queue[0].sequence <= id.lastSeen {
        return true;
      }
      if !diskOk {
        return false;
      }
      PersistKeepsSession(session, reported, id.lastSeen);
      ok := store.SaveSequence(id, queue[0].sequence);
      id := id.(lastSeen := queue[0].sequence);
    }

    /** One connection, until the stream ends or something cannot be persisted; diskOk and
        credentialOk say which writes succeed, by the number of events handled before.
        Nothing is started whose sequence is not already on disk, sequences start in
        strictly increasing order past the reported one, and when the stream ends the head
        of what is left in the queue is on disk and the rest lies above it. */
    method ServeConnection(events: seq<Event>, diskOk: nat -> bool, credentialOk: nat -> bool)
      returns (exit: Exit, session: Session)
      requires store.file == Stored(id)
      modifies this, store
      ensures store.file == Stored(id) && id.deviceId == old(id).deviceId
      ensures SessionInv(session, old(id).lastSeen, id.lastSeen)
      ensures exit == PersistFailed <==> !HeadPersisted(session.connection, id.lastSeen)
      ensures exists n :: 0 <= n <= |events| && session == SelectAll(Opened(old(id).lastSeen), events[..n])
                          && id == Enrolled(old(id), events[..n]).(lastSeen := id.lastSeen)
                          && (exit == StreamEnded ==> n == |events|)
                          && (exit == PersistFailed ==> !diskOk(n))
                          && (exit == CredentialFailed ==>
                                n < |events| && !credentialOk(n) && events[n].NewCredential? && events[n].credential != "")
    {
      session := Opened(id.lastSeen);
      for next := 0 to |events|
        invariant store.file == Stored(id) && id.deviceId == old(id).deviceId
        invariant SessionInv(session, old(id).lastSeen, id.lastSeen)
        invariant session == SelectAll(Opened(old(id).lastSeen), events[..next])
        invariant id == Enrolled(old(id), events[..next]).(lastSeen := id.lastSeen)
      {
        var ok := PersistHead(session, diskOk(next), old(id).lastSeen);
        if !ok {
          return PersistFailed, session;
        }
        var event := events[next];
        if event.NewCredential? && event.credential != "" {
          if !credentialOk(next) {
            return CredentialFailed, session;
          }
          store.SaveCredentials(id, "", event.credential);
          id := id.(token := "", credential := event.credential);
        }
        SelectKeepsSession(session, event, old(id).lastSeen, id.lastSeen);
        OneMoreEvent(Opened(old(id).lastSeen), old(id), events, next);
        session := Select(session, event);
      }
      assert events[..|events|] == events;
      var ok := PersistHead(session, diskOk(|events|), old(id).lastSeen);
      return if ok then StreamEnded else PersistFailed, session;
    }
  }
}
