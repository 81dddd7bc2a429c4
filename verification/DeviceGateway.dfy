/**
 * The gateway's side of device commands (grpc.ts): numbering, the bounded outbox, the
 * command rows, and the promises waiting for results. A Lane is one device's share of it.
 */
module DeviceGateway {
  import opened Sequences
  import opened DeviceDaemon

  const OUTBOX_LIMIT: nat := 100

  datatype CommandStatus = Pending | Dispatched | Succeeded | Failed | TimedOutStatus | IndeterminateStatus

  /** A row of device_commands. */
  datatype Row = Row(device: string, sequence: nat, status: CommandStatus)

  predicate Open(s: CommandStatus) { s == Pending || s == Dispatched }

  /** cache: the sequence number held in memory; reserved: the command whose insert is
      under way; waiting: promises not settled yet; firing: timers that fired but whose
      update has not reached the database. */
  datatype Lane = Lane(
    cache: Option<nat>, reserved: Option<Command>, rows: map<nat, Row>,
    outbox: seq<Command>, waiting: set<nat>, firing: set<nat>)

  /** What a step settles, and which rows it takes out of pending and dispatched. */
  datatype Effects = Effects(settled: set<nat>, exits: set<nat>)

  const NOTHING: Effects := Effects({}, {})

  // ---------------------------------------------------------------- dispatchDeviceTool

  /** Takes the next number; `loaded` is what loadSequence reads when nothing is cached. */
  function Reserve(l: Lane, id: nat, loaded: nat): Lane {
    var sequence := (if l.cache.Some? then l.cache.value else loaded) + 1;
    l.(cache := Some(sequence), reserved := Some(Command(id, sequence)))
  }

  /** The unique index on (device, sequence). */
  predicate Taken(rows: map<nat, Row>, sequence: nat) {
    exists id :: id in rows && rows[id].sequence == sequence
  }

  function Trim(outbox: seq<Command>): seq<Command> {
    if |outbox| > OUTBOX_LIMIT then outbox[1..] else outbox
  }

  function InsertCommit(l: Lane, device: string): Lane
    requires l.reserved.Some?
  {
    var c := l.reserved.value;
    l.(reserved := None, rows := l.rows[c.id := Row(device, c.sequence, Pending)],
       outbox := Trim(l.outbox + [c]), waiting := l.waiting + {c.id})
  }

  /** The insert failed; `stored` when it had reached the database all the same. */
  function InsertFail(l: Lane, device: string, stored: bool): Lane
    requires l.reserved.Some?
  {
    var c := l.reserved.value;
    l.(reserved := None, cache := None,
       rows := if stored then l.rows[c.id := Row(device, c.sequence, Pending)] else l.rows)
  }

  function MarkDispatched(l: Lane, id: nat): Lane {
    if id in l.rows && l.rows[id].status == Pending
    then l.(rows := l.rows[id := l.rows[id].(status := Dispatched)]) else l
  }

  function WithoutCommand(outbox: seq<Command>, id: nat): seq<Command> {
    Filter(outbox, (c: Command) => c.id != id)
  }

  /** The write or its bookkeeping failed: no guard on the row's status. */
  function DispatchFailed(l: Lane, id: nat): Lane {
    l.(waiting := l.waiting - {id}, outbox := WithoutCommand(l.outbox, id),
       rows := if id in l.rows then l.rows[id := l.rows[id].(status := Failed)] else l.rows)
  }

  function TimerFired(l: Lane, id: nat): (Lane, Effects) {
    if id !in l.waiting then (l, NOTHING)
    else (l.(waiting := l.waiting - {id}, outbox := WithoutCommand(l.outbox, id), firing := l.firing + {id}),
          Effects({id}, {}))
  }

  /** The timeout's guarded update. */
  function PersistTimeout(l: Lane, id: nat): (Lane, Effects) {
    if id !in l.firing then (l, NOTHING)
    else if id in l.rows && Open(l.rows[id].status)
    then (l.(firing := l.firing - {id}, rows := l.rows[id := l.rows[id].(status := TimedOutStatus)]), Effects({}, {id}))
    else (l.(firing := l.firing - {id}), NOTHING)
  }

  // ---------------------------------------------------------------- completeCommand

  function ReportedStatus(r: Reply): CommandStatus {
    if r.status == Indeterminate then IndeterminateStatus else if r.ok then Succeeded else Failed
  }

  function Complete(l: Lane, r: Reply): (Lane, Effects) {
    if r.id !in l.rows || !Open(l.rows[r.id].status) then (l, NOTHING)
    else (l.(rows := l.rows[r.id := l.rows[r.id].(status := ReportedStatus(r))],
             outbox := WithoutCommand(l.outbox, r.id), waiting := l.waiting - {r.id}),
          Effects(if r.id in l.waiting then {r.id} else {}, {r.id}))
  }

  // ---------------------------------------------------------------- connections

  /** Commands re-sent to a device that reports lastSeen. */
  function Replay(outbox: seq<Command>, lastSeen: nat): seq<Command> {
    Filter(outbox, (c: Command) => c.sequence > lastSeen)
  }

  function Register(l: Lane, loaded: nat): Lane {
    if l.cache.Some? then l else l.(cache := Some(loaded))
  }

  function Revoke(l: Lane): Lane { l.(cache := None, outbox := []) }

  /** The open rows among stale ones, and their sweep. */
  function Expiring(rows: map<nat, Row>, stale: set<nat>): set<nat> {
    set id | id in stale && id in rows && Open(rows[id].status)
  }

  function Expired(rows: map<nat, Row>, ids: set<nat>): map<nat, Row> {
    map id | id in rows :: if id in ids then rows[id].(status := TimedOutStatus) else rows[id]
  }

  /** A new gateway process: memory is gone, stale open rows are timed out. */
  function Restart(l: Lane, stale: set<nat>): (Lane, Effects) {
    var ids := Expiring(l.rows, stale);
    (Lane(None, None, Expired(l.rows, ids), [], {}, {}), Effects({}, ids))
  }

  /** The same sweep by another process that is starting: this one's memory stays. */
  function ExpireRows(l: Lane, stale: set<nat>): (Lane, Effects) {
    var ids := Expiring(l.rows, stale);
    (l.(rows := Expired(l.rows, ids)), Effects({}, ids))
  }

  /** The replayed commands that are still pending become dispatched. */
  function MarkReplayed(l: Lane, replay: seq<Command>): Lane {
    if replay == [] then l else MarkDispatched(MarkReplayed(l, replay[..|replay| - 1]), replay[|replay| - 1].id)
  }

  function Close(l: Lane): (Lane, Effects) { (l.(waiting := {}), Effects(l.waiting, {})) }

  // ---------------------------------------------------------------- invariants

  /** Persisted numbers are exactly 1 .. |rows|: distinct and without gaps. */
  ghost predicate Numbered(rows: map<nat, Row>) {
    && (forall id :: id in rows ==> 1 <= rows[id].sequence <= |rows|)
    && (forall a, b :: a in rows && b in rows && rows[a].sequence == rows[b].sequence ==> a == b)
    && (forall n :: 1 <= n <= |rows| ==> Taken(rows, n))
  }

  /** max(sequence) over the rows, 0 when there are none. */
  ghost predicate IsMaxSequence(rows: map<nat, Row>, m: nat) {
    && (forall id :: id in rows ==> rows[id].sequence <= m)
    && (m == 0 || Taken(rows, m))
  }

  lemma MaxIsCount(rows: map<nat, Row>, m: nat)
    requires Numbered(rows) && IsMaxSequence(rows, m)
    ensures m == |rows|
  {
    if |rows| > 0 {
      assert Taken(rows, |rows|);
    }
  }

  ghost predicate OutboxInv(l: Lane) {
    && |l.outbox| <= OUTBOX_LIMIT
    && Ascending(l.outbox)
    && forall c :: c in l.outbox ==> c.id in l.rows && l.rows[c.id].sequence == c.sequence
  }

  ghost predicate LaneInv(l: Lane) {
    && Numbered(l.rows)
    && OutboxInv(l)
    && l.waiting <= l.rows.Keys && l.firing <= l.rows.Keys
    && (l.reserved.None? && l.cache.Some? ==> |l.rows| - 1 <= l.cache.value <= |l.rows|)
    && (l.reserved.Some? ==>
          && Max(|l.rows|, 1) <= l.reserved.value.sequence <= |l.rows| + 1
          && l.reserved.value.id !in l.rows
          && (l.cache.Some? ==> l.cache.value == l.reserved.value.sequence || l.cache.value == |l.rows|))
  }

  /** What may still be replayed, and what is still awaited, is open and not timing out,
      unless another process expired its row; expired rows are closed. */
  ghost predicate OpenInv(l: Lane, expired: set<nat>) {
    && (forall c :: c in l.outbox ==> c.id in l.rows && (Open(l.rows[c.id].status) || c.id in expired) && c.id !in l.firing)
    && (forall id :: id in l.waiting ==> id in l.rows && (Open(l.rows[id].status) || id in expired) && id !in l.firing)
    && (forall id :: id in expired ==> id in l.rows && !Open(l.rows[id].status))
  }

  lemma ReserveKeeps(l: Lane, id: nat, loaded: nat)
    requires LaneInv(l) && l.reserved.None? && id !in l.rows && IsMaxSequence(l.rows, loaded)
    ensures LaneInv(Reserve(l, id, loaded))
  {
    MaxIsCount(l.rows, loaded);
  }

  lemma NewRow(rows: map<nat, Row>, id: nat, row: Row)
    requires Numbered(rows) && id !in rows && row.sequence == |rows| + 1
    ensures Numbered(rows[id := row])
  {
    var more := rows[id := row];
    forall n | 1 <= n <= |more|
      ensures Taken(more, n)
    {
      if n <= |rows| {
        assert Taken(rows, n);
        var other :| other in rows && rows[other].sequence == n;
        assert more[other].sequence == n;
      } else {
        assert more[id].sequence == n;
      }
    }
  }

  /** A free number is the next one. */
  lemma FreeIsNext(l: Lane)
    requires LaneInv(l) && l.reserved.Some? && !Taken(l.rows, l.reserved.value.sequence)
    ensures l.reserved.value.sequence == |l.rows| + 1
  {
    assert |l.rows| > 0 ==> Taken(l.rows, |l.rows|);
  }

  /** The newest command goes behind everything in the outbox, which drops its oldest. */
  lemma PushKeepsOutbox(outbox: seq<Command>, c: Command)
    requires |outbox| <= OUTBOX_LIMIT && Ascending(outbox)
    requires forall x :: x in outbox ==> x.sequence < c.sequence
    ensures |Trim(outbox + [c])| <= OUTBOX_LIMIT && Ascending(Trim(outbox + [c]))
    ensures forall x :: x in Trim(outbox + [c]) ==> x in outbox || x == c
    ensures c in Trim(outbox + [c])
  {
    var longer := outbox + [c];
    assert forall i :: 0 <= i < |outbox| ==> longer[i] in outbox;
    assert longer[|outbox|] == c;
    assert forall x :: x in longer ==> x in outbox || x == c;
    assert |longer| > OUTBOX_LIMIT ==> longer[1..][|outbox| - 1] == c;
  }

  /** Inserting the reserved command keeps the numbering gap-free and the outbox ordered. */
  lemma CommitKeeps(l: Lane, device: string)
    requires LaneInv(l) && l.reserved.Some? && !Taken(l.rows, l.reserved.value.sequence)
    ensures LaneInv(InsertCommit(l, device)) && LaneInv(InsertFail(l, device, true))
  {
    FreeIsNext(l);
    var c := l.reserved.value;
    NewRow(l.rows, c.id, Row(device, c.sequence, Pending));
    PushKeepsOutbox(l.outbox, c);
  }

  lemma CommitOpens(l: Lane, expired: set<nat>, device: string)
    requires OpenInv(l, expired) && l.reserved.Some? && l.reserved.value.id !in l.rows && l.firing <= l.rows.Keys
    ensures OpenInv(InsertCommit(l, device), expired)
    ensures OpenInv(InsertFail(l, device, true), expired) && OpenInv(InsertFail(l, device, false), expired)
  {
    var c := l.reserved.value;
    assert forall x :: x in Trim(l.outbox + [c]) ==> x in l.outbox || x == c;
  }

  /** A command that is closed, or whose timer fired, is neither awaited nor replayed. */
  lemma ClosingKeepsOpen(l: Lane, expired: set<nat>, id: nat, r: Reply)
    requires OpenInv(l, expired)
    ensures OpenInv(MarkDispatched(l, id), expired) && OpenInv(DispatchFailed(l, id), expired)
    ensures OpenInv(TimerFired(l, id).0, expired) && OpenInv(PersistTimeout(l, id).0, expired)
    ensures OpenInv(Complete(l, r).0, expired)
  {}

  lemma ExpiringKeepsOpen(l: Lane, expired: set<nat>, stale: set<nat>)
    requires OpenInv(l, expired)
    ensures OpenInv(Restart(l, stale).0, expired)
    ensures OpenInv(ExpireRows(l, stale).0, expired + Expiring(l.rows, stale))
  {}

  lemma FailKeeps(l: Lane, device: string)
    requires LaneInv(l) && l.reserved.Some?
    ensures LaneInv(InsertFail(l, device, false))
  {}

  lemma {:induction false} FilterAscending(s: seq<Command>, keep: Command -> bool)
    requires Ascending(s)
    ensures Ascending(Filter(s, keep))
  {
    if s != [] {
      FilterAscending(s[1..], keep);
      var rest := Filter(s[1..], keep);
      forall i | 0 <= i < |rest|
        ensures s[0].sequence < rest[i].sequence
      {
        assert rest[i] in rest;
        var k :| 0 <= k < |s[1..]| && s[1..][k] == rest[i];
      }
    }
  }

  /** Changing a row's status moves no number. */
  lemma StatusKeepsNumbers(rows: map<nat, Row>, id: nat, status: CommandStatus)
    requires Numbered(rows) && id in rows
    ensures Numbered(rows[id := rows[id].(status := status)])
  {
    var next := rows[id := rows[id].(status := status)];
    forall n | 1 <= n <= |next|
      ensures Taken(next, n)
    {
      assert Taken(rows, n);
      var k :| k in rows && rows[k].sequence == n;
      assert next[k].sequence == n;
    }
  }

  /** Every step but an insert: a row may change status, the outbox may lose a command. */
  lemma UpdateKeeps(l: Lane, next: Lane, id: nat, status: CommandStatus)
    requires LaneInv(l)
    requires next.cache == l.cache && next.reserved == l.reserved
    requires next.rows == l.rows || (id in l.rows && next.rows == l.rows[id := l.rows[id].(status := status)])
    requires next.outbox == l.outbox || next.outbox == WithoutCommand(l.outbox, id)
    requires next.waiting <= l.waiting && next.firing <= l.firing + l.waiting
    ensures LaneInv(next)
  {
    FilterAscending(l.outbox, (c: Command) => c.id != id);
    if next.rows != l.rows {
      StatusKeepsNumbers(l.rows, id, status);
    }
  }

  lemma DispatchKeeps(l: Lane, id: nat)
    requires LaneInv(l)
    ensures LaneInv(MarkDispatched(l, id)) && LaneInv(DispatchFailed(l, id))
  {
    UpdateKeeps(l, MarkDispatched(l, id), id, Dispatched);
    UpdateKeeps(l, DispatchFailed(l, id), id, Failed);
  }

  lemma TimerKeeps(l: Lane, id: nat)
    requires LaneInv(l)
    ensures LaneInv(TimerFired(l, id).0)
  {
    if id in l.waiting {
      UpdateKeeps(l, TimerFired(l, id).0, id, Failed);
    }
  }

  lemma PersistTimeoutKeeps(l: Lane, id: nat)
    requires LaneInv(l)
    ensures LaneInv(PersistTimeout(l, id).0)
  {
    UpdateKeeps(l, PersistTimeout(l, id).0, id, TimedOutStatus);
  }

  lemma CompleteKeeps(l: Lane, r: Reply)
    requires LaneInv(l)
    ensures LaneInv(Complete(l, r).0)
  {
    UpdateKeeps(l, Complete(l, r).0, r.id, ReportedStatus(r));
  }

  lemma RevokeCloseKeep(l: Lane)
    requires LaneInv(l)
    ensures LaneInv(Revoke(l)) && LaneInv(Close(l).0)
  {}

  lemma RegisterKeeps(l: Lane, loaded: nat)
    requires LaneInv(l) && IsMaxSequence(l.rows, loaded)
    ensures LaneInv(Register(l, loaded))
  {
    MaxIsCount(l.rows, loaded);
  }

  lemma ExpiredKeepsNumbers(rows: map<nat, Row>, ids: set<nat>)
    requires Numbered(rows)
    ensures Numbered(Expired(rows, ids)) && |Expired(rows, ids)| == |rows| && Expired(rows, ids).Keys == rows.Keys
  {
    var next := Expired(rows, ids);
    assert next.Keys == rows.Keys;
    assert |next| == |next.Keys| == |rows|;
    forall n | 1 <= n <= |next|
      ensures Taken(next, n)
    {
      assert Taken(rows, n);
      var k :| k in rows && rows[k].sequence == n;
      assert next[k].sequence == n;
    }
  }

  /** Sweeping stale rows, at a start of this process or of another one, moves no number. */
  lemma SweepKeeps(l: Lane, stale: set<nat>)
    requires LaneInv(l)
    ensures LaneInv(Restart(l, stale).0) && LaneInv(ExpireRows(l, stale).0)
  {
    ExpiredKeepsNumbers(l.rows, Expiring(l.rows, stale));
  }

  /** What is replayed: exactly the outbox past the reported sequence, in ascending order. */
  lemma ReplayIsExact(outbox: seq<Command>, lastSeen: nat)
    requires Ascending(outbox)
    ensures Ascending(Replay(outbox, lastSeen))
    ensures forall c :: c in Replay(outbox, lastSeen) <==> c in outbox && c.sequence > lastSeen
  {
    FilterAscending(outbox, (c: Command) => c.sequence > lastSeen);
  }

  predicate IsAmong(id: nat, commands: seq<Command>) { exists c :: c in commands && c.id == id }

  /** Marking what was replayed: exactly the pending rows among it become dispatched. */
  lemma {:induction false} ReplayedAreDispatched(l: Lane, replay: seq<Command>)
    ensures var next := MarkReplayed(l, replay);
      && next == l.(rows := next.rows) && next.rows.Keys == l.rows.Keys
      && forall id :: id in l.rows ==>
           next.rows[id] == if l.rows[id].status == Pending && IsAmong(id, replay)
                            then l.rows[id].(status := Dispatched) else l.rows[id]
  {
    if replay != [] {
      var init, last := replay[..|replay| - 1], replay[|replay| - 1];
      ReplayedAreDispatched(l, init);
      assert replay == init + [last];
      assert forall id :: IsAmong(id, replay) <==> IsAmong(id, init) || last.id == id;
    }
  }

  // ---------------------------------------------------------------- the gateway's own fields

  /** One device's part of the table, and of a set of command ids. */
  ghost function RowsOf(commands: map<nat, Row>, device: string): map<nat, Row> {
    map id | id in commands && commands[id].device == device :: commands[id]
  }

  ghost function IdsOf(ids: set<nat>, commands: map<nat, Row>, device: string): set<nat> {
    set id | id in ids && id in commands && commands[id].device == device
  }

  function OutboxOf(outboxes: map<string, seq<Command>>, device: string): seq<Command> {
    if device in outboxes then outboxes[device] else []
  }

  /** An outbox holds its own device's commands. */
  predicate Owned(outbox: seq<Command>, commands: map<nat, Row>, device: string) {
    forall c :: c in outbox ==> c.id in commands && commands[c.id].device == device
  }

  /** Writing a row changes its own device's part only. */
  lemma RowWritten(commands: map<nat, Row>, id: nat, row: Row)
    requires id in commands ==> commands[id].device == row.device
    ensures RowsOf(commands[id := row], row.device) == RowsOf(commands, row.device)[id := row]
    ensures forall d :: d != row.device ==> RowsOf(commands[id := row], d) == RowsOf(commands, d)
  {}

  lemma IdsAfterWrite(ids: set<nat>, commands: map<nat, Row>, id: nat, row: Row)
    requires ids <= commands.Keys && (id in commands ==> commands[id].device == row.device)
    ensures forall d :: IdsOf(ids, commands[id := row], d) == IdsOf(ids, commands, d)
  {}

  lemma IdAdded(ids: set<nat>, commands: map<nat, Row>, id: nat)
    requires id in commands
    ensures IdsOf(ids + {id}, commands, commands[id].device) == IdsOf(ids, commands, commands[id].device) + {id}
    ensures forall d :: d != commands[id].device ==> IdsOf(ids + {id}, commands, d) == IdsOf(ids, commands, d)
  {}

  lemma IdRemoved(ids: set<nat>, commands: map<nat, Row>, id: nat)
    requires id in commands
    ensures IdsOf(ids - {id}, commands, commands[id].device) == IdsOf(ids, commands, commands[id].device) - {id}
    ensures forall d :: d != commands[id].device ==> IdsOf(ids - {id}, commands, d) == IdsOf(ids, commands, d)
  {}

  datatype Insert = Inserted | Refused | StoredUnseen

  /** Class Gateway, as far as device commands go, with the device_commands table. */
  class Gateway {
    var commands: map<nat, Row>             // the table
    var sequences: map<string, nat>
    var outboxes: map<string, seq<Command>>
    var pending: set<nat>
    var firing: set<nat>

    ghost predicate Valid()
      reads this
    {
      && pending <= commands.Keys && firing <= commands.Keys
      && forall d :: d in outboxes ==> Owned(outboxes[d], commands, d)
    }

    ghost function LaneOf(device: string): Lane
      reads this
    {
      Lane(if device in sequences then Some(sequences[device]) else None,
           None,
           RowsOf(commands, device),
           OutboxOf(outboxes, device),
           IdsOf(pending, commands, device),
           IdsOf(firing, commands, device))
    }

    constructor ()
      ensures Valid() && forall d :: LaneOf(d) == Lane(None, None, map[], [], {}, {})
    {
      commands, sequences, outboxes, pending, firing := map[], map[], map[], {}, {};
    }

    /** Remembers or forgets a device's last number. */
    method SetSequence(device: string, sequence: Option<nat>)
      requires Valid()
      modifies `sequences
      ensures Valid() && LaneOf(device) == old(LaneOf(device)).(cache := sequence)
      ensures forall d :: d != device ==> LaneOf(d) == old(LaneOf(d))
    {
      sequences := if sequence.Some? then sequences[device := sequence.value] else sequences - {device};
    }

    /** A new row without a promise. */
    method StoreRow(id: nat, row: Row)
      requires Valid() && id !in commands
      modifies `commands
      ensures Valid() && commands == old(commands)[id := row]
      ensures LaneOf(row.device) == old(LaneOf(row.device)).(rows := old(LaneOf(row.device)).rows[id := row])
      ensures forall d :: d != row.device ==> LaneOf(d) == old(LaneOf(d))
    {
      RowWritten(commands, id, row);
      IdsAfterWrite(pending, commands, id, row);
      IdsAfterWrite(firing, commands, id, row);
      commands := commands[id := row];
    }

    /** A stored command joins the outbox and its promise is made. */
    method Enqueue(device: string, c: Command)
      requires Valid() && c.id in commands && commands[c.id].device == device
      modifies `outboxes, `pending
      ensures Valid()
      ensures LaneOf(device) == old(LaneOf(device)).(outbox := Trim(old(LaneOf(device)).outbox + [c]),
                                                     waiting := old(LaneOf(device)).waiting + {c.id})
      ensures forall d :: d != device ==> LaneOf(d) == old(LaneOf(d))
    {
      IdAdded(pending, commands, c.id);
      var outbox := OutboxOf(outboxes, device) + [c];
      if |outbox| > OUTBOX_LIMIT {
        outbox := outbox[1..];
      }
      outboxes := outboxes[device := outbox];
      pending := pending + {c.id};
    }

    /** Numbers a command and inserts its row. `loaded` is what the table holds as the
        highest number, read when none is cached; the id is a fresh UUID. */
    method NumberCommand(device: string, id: nat, loaded: nat, insert: Insert) returns (command: Option<Command>)
      requires Valid() && id !in commands
      modifies this
      ensures Valid() && forall d :: d != device ==> LaneOf(d) == old(LaneOf(d))
      ensures var reserved := Reserve(old(LaneOf(device)), id, loaded);
        && LaneOf(device) == (if insert.Inserted? then InsertCommit(reserved, device)
                              else InsertFail(reserved, device, insert.StoredUnseen?))
        && command == (if insert.Inserted? then reserved.reserved else None)
    {
      var sequence := (if device in sequences then sequences[device] else loaded) + 1;
      var value := Command(id, sequence);
      SetSequence(device, Some(sequence));
      if !insert.Refused? {
        StoreRow(id, Row(device, sequence, Pending));
      }
      if !insert.Inserted? {
        SetSequence(device, None);
        return None;
      }
      Enqueue(device, value);
      return Some(value);
    }

    method RemoveFromOutbox(device: string, id: nat)
      modifies `outboxes
      ensures OutboxOf(outboxes, device) == WithoutCommand(old(OutboxOf(outboxes, device)), id)
      ensures forall d :: d != device ==> OutboxOf(outboxes, d) == OutboxOf(old(outboxes), d)
      ensures forall d :: d in outboxes ==> d in old(outboxes) && forall c :: c in outboxes[d] ==> c in old(outboxes)[d]
    {
      if device in outboxes {
        var remaining := WithoutCommand(outboxes[device], id);
        outboxes := if remaining != [] then outboxes[device := remaining] else outboxes - {device};
      }
    }

    /** The device's result. Another device's command is left alone. */
    method CompleteCommand(device: string, r: Reply) returns (effects: Effects)
      requires Valid()
      modifies this
      ensures Valid() && (LaneOf(device), effects) == Complete(old(LaneOf(device)), r)
      ensures forall d :: d != device ==> LaneOf(d) == old(LaneOf(d))
    {
      if r.id !in commands || commands[r.id].device != device || !Open(commands[r.id].status) {
        return NOTHING;
      }
      ghost var row := commands[r.id].(status := ReportedStatus(r));
      RowWritten(commands, r.id, row);
      IdsAfterWrite(pending, commands, r.id, row);
      IdsAfterWrite(firing, commands, r.id, row);
      IdRemoved(pending, commands[r.id := row], r.id);
      commands := commands[r.id := commands[r.id].(status := ReportedStatus(r))];
      effects := Effects(if r.id in pending then {r.id} else {}, {r.id});
      pending := pending - {r.id};
      RemoveFromOutbox(device, r.id);
    }

    /** The timer of a command fires: its promise is rejected, its row not yet updated. */
    method FireTimer(device: string, id: nat) returns (effects: Effects)
      requires Valid() && id in commands && commands[id].device == device
      modifies this
      ensures Valid() && (LaneOf(device), effects) == TimerFired(old(LaneOf(device)), id)
      ensures forall d :: d != device ==> LaneOf(d) == old(LaneOf(d))
    {
      if id !in pending {
        return NOTHING;
      }
      IdRemoved(pending, commands, id);
      IdAdded(firing, commands, id);
      pending, firing := pending - {id}, firing + {id};
      RemoveFromOutbox(device, id);
      effects := Effects({id}, {});
    }

    method FailDispatch(device: string, id: nat)
      requires Valid() && id in commands && commands[id].device == device
      modifies this
      ensures Valid() && LaneOf(device) == DispatchFailed(old(LaneOf(device)), id)
      ensures forall d :: d != device ==> LaneOf(d) == old(LaneOf(d))
    {
      ghost var row := commands[id].(status := Failed);
      RowWritten(commands, id, row);
      IdsAfterWrite(pending - {id}, commands, id, row);
      IdsAfterWrite(firing, commands, id, row);
      IdRemoved(pending, commands, id);
      pending := pending - {id};
      RemoveFromOutbox(device, id);
      commands := commands[id := commands[id].(status := Failed)];
    }

    /** The guarded update after a command was written to the stream. */
    method SetDispatched(device: string, id: nat)
      requires Valid() && (id in commands ==> commands[id].device == device)
      modifies `commands
      ensures Valid() && LaneOf(device) == MarkDispatched(old(LaneOf(device)), id)
      ensures commands.Keys == old(commands).Keys && forall i :: i in commands ==> commands[i].device == old(commands)[i].device
      ensures forall d :: d != device ==> LaneOf(d) == old(LaneOf(d))
    {
      if id in commands && commands[id].status == Pending {
        var row := commands[id].(status := Dispatched);
        RowWritten(commands, id, row);
        IdsAfterWrite(pending, commands, id, row);
        IdsAfterWrite(firing, commands, id, row);
        commands := commands[id := row];
      }
    }

    /** A device that says hello is sent what the outbox holds past its sequence. */
    method RegisterDevice(device: string, lastSeen: nat, loaded: nat) returns (replay: seq<Command>)
      requires Valid()
      modifies `sequences, `commands
      ensures replay == Replay(old(LaneOf(device)).outbox, lastSeen)
      ensures Valid() && LaneOf(device) == MarkReplayed(Register(old(LaneOf(device)), loaded), replay)
      ensures forall d :: d != device ==> LaneOf(d) == old(LaneOf(d))
    {
      if device !in sequences {
        SetSequence(device, Some(loaded));
      }
      replay := Replay(OutboxOf(outboxes, device), lastSeen);
      for i := 0 to |replay|
        invariant Valid() && LaneOf(device) == MarkReplayed(Register(old(LaneOf(device)), loaded), replay[..i])
        invariant Owned(replay, commands, device)
        invariant forall d :: d != device ==> LaneOf(d) == old(LaneOf(d))
      {
        SetDispatched(device, replay[i].id);
        assert replay[..i + 1][..i] == replay[..i];
      }
      assert replay[..|replay|] == replay;
    }

    method RevokeDevice(device: string)
      requires Valid()
      modifies `outboxes, `sequences
      ensures Valid() && LaneOf(device) == Revoke(old(LaneOf(device)))
      ensures forall d :: d != device ==> LaneOf(d) == old(LaneOf(d))
    {
      outboxes, sequences := outboxes - {device}, sequences - {device};
    }
  }
}
