/**
 * Follow-ups on pending tickets (pending.ts): sweeps that may be late and may overlap send
 * them on a cadence and resolve a ticket when the configured number went unanswered.
 */
module PendingFollowups {
  import opened Sequences

  const MINUTE_MS: int := 60000

  /** A row of pending_reasons; the table checks that both numbers are positive. */
  datatype Reason = Reason(frequencyMinutes: int, followups: int)

  predicate ValidReason(r: Reason) { r.frequencyMinutes > 0 && r.followups > 0 }

  datatype Status = Pending | Active | Resolved

  datatype Ticket = Ticket(status: Status, reason: Option<Reason>, until: Option<int>, followups: nat)

  /** What a sweep that started at `now` read of a ticket. */
  datatype Snapshot = Snapshot(ticket: Ticket, reason: Reason, now: int)

  // ---------------------------------------------------------------- the cadence

  function FrequencyMs(r: Reason): int { r.frequencyMinutes * MINUTE_MS }

  /** Quotient rounded up, for a positive divisor. */
  function CeilDiv(a: int, b: int): int
    requires b > 0
  {
    -((-a) / b)
  }

  function NextPendingFollowupAt(lastPendingAt: int, frequencyMinutes: int): int {
    lastPendingAt + frequencyMinutes * MINUTE_MS
  }

  /** The next time, skipping whole periods that have already passed. */
  function Rescheduled(slot: int, r: Reason, now: int): int
    requires ValidReason(r)
  {
    var first := NextPendingFollowupAt(slot, r.frequencyMinutes);
    if first <= now then first + CeilDiv(now - first + 1, FrequencyMs(r)) * FrequencyMs(r) else first
  }

  lemma CeilDivIsLeast(a: int, b: int, k: int)
    requires b > 0
    ensures CeilDiv(a, b) * b >= a
    ensures k * b >= a ==> k >= CeilDiv(a, b)
  {
    var q, r := (-a) / b, (-a) % b;
    assert -a == b * q + r;
    assert CeilDiv(a, b) * b == a + r;
    if k <= -q - 1 {
      ScaleMonotone(k, -q - 1, b);
      assert (-q - 1) * b == a + r - b;
    }
  }

  /** The rescheduled time is the least slot of the cadence that lies strictly after now. */
  lemma RescheduledIsLeast(slot: int, r: Reason, now: int)
    requires ValidReason(r)
    ensures Rescheduled(slot, r, now) > now
    ensures exists m :: m >= 1 && Rescheduled(slot, r, now) == slot + m * (r.frequencyMinutes * 60000)
    ensures forall m :: m >= 1 && slot + m * (r.frequencyMinutes * 60000) > now ==>
      Rescheduled(slot, r, now) <= slot + m * (r.frequencyMinutes * 60000)
  {
    var f := r.frequencyMinutes * 60000;
    assert f == FrequencyMs(r);
    var first := slot + f;
    var missed := if first <= now then CeilDiv(now - first + 1, f) else 0;
    CeilDivIsLeast(now - first + 1, f, 0);
    assert Rescheduled(slot, r, now) == slot + (missed + 1) * f;
    forall m | m >= 1 && slot + m * f > now
      ensures missed + 1 <= m
    {
      CeilDivIsLeast(now - first + 1, f, m - 1);
    }
    forall m | m >= 1 && slot + m * f > now
      ensures slot + (missed + 1) * f <= slot + m * f
    {
      ScaleMonotone(missed + 1, m, f);
    }
  }

  lemma ScaleMonotone(a: int, b: int, f: int)
    requires a <= b && f > 0
    ensures a * f <= b * f
  {}

  // ---------------------------------------------------------------- one ticket of a sweep

  predicate IsDue(t: Ticket, now: int) { t.status == Pending && t.until.Some? && t.until.value <= now }

  /** The guarded update a sweep makes for one ticket it read; unchanged if the guard fails. */
  function Process(t: Ticket, s: Snapshot): Ticket
    requires ValidReason(s.reason)
  {
    if s.ticket.followups + 1 > s.reason.followups then
      if t.status == s.ticket.status then t.(status := Resolved, reason := None, until := None) else t
    else if t.status == s.ticket.status && t.followups == s.ticket.followups then
      var slot := if s.ticket.until.Some? then s.ticket.until.value else s.now;
      t.(followups := t.followups + 1, until := Some(Rescheduled(slot, s.reason, s.now)))
    else t
  }

  predicate Changes(t: Ticket, s: Snapshot) {
    t.status == s.ticket.status && (s.ticket.followups + 1 > s.reason.followups || t.followups == s.ticket.followups)
  }

  /** The tickets a sweep works on. */
  class Tickets {
    var rows: map<nat, Ticket>

    constructor (rows: map<nat, Ticket>)
      ensures this.rows == rows
    {
      this.rows := rows;
    }

    /** One sweep nobody interferes with: every due ticket it read is moved on exactly once. */
    method SweepPending(due: seq<nat>, now: int) returns (changed: nat)
      requires forall i, j :: 0 <= i < j < |due| ==> due[i] != due[j]
      requires forall id :: id in due ==>
        id in rows && IsDue(rows[id], now) && rows[id].reason.Some? && ValidReason(rows[id].reason.value)
      modifies this
      ensures changed == |due| && rows.Keys == old(rows).Keys
      ensures forall id :: id in due ==>
        rows[id] == Process(old(rows)[id], Snapshot(old(rows)[id], old(rows)[id].reason.value, now))
      ensures forall id :: id in rows && id !in due ==> rows[id] == old(rows)[id]
    {
      changed := 0;
      for i := 0 to |due|
        invariant changed == i && rows.Keys == old(rows).Keys
        invariant forall k :: 0 <= k < i ==>
          rows[due[k]] == Process(old(rows)[due[k]], Snapshot(old(rows)[due[k]], old(rows)[due[k]].reason.value, now))
        invariant forall id :: id in rows && id !in due[..i] ==> rows[id] == old(rows)[id]
      {
        var id := due[i];
        var ticket, reason := rows[id], rows[id].reason.value;
        var ordinal := ticket.followups + 1;
        if ordinal > reason.followups {
          rows := rows[id := ticket.(status := Resolved, reason := None, until := None)];
          changed := changed + 1;
          continue;
        }
        var pendingUntil := NextPendingFollowupAt(ticket.until.value, reason.frequencyMinutes);
        if pendingUntil <= now {
          var frequencyMs := reason.frequencyMinutes * MINUTE_MS;
          var missed := CeilDiv(now - pendingUntil + 1, frequencyMs);
          pendingUntil := pendingUntil + missed * frequencyMs;
        }
        rows := rows[id := ticket.(followups := ordinal, until := Some(pendingUntil))];
        changed := changed + 1;
      }
    }
  }

  // ---------------------------------------------------------------- overlapping sweeps

  /** A row of pending_followups, with the slot it was sent for and the sweep's time. */
  datatype Followup = Followup(ordinal: int, slot: int, at: int)

  /** A sweep's read, with the number of times the ticket had been made pending. */
  datatype Reading = Reading(snapshot: Snapshot, episode: nat)

  /** One ticket: since it was last made pending, `base` is its first slot and `log` its
      follow-ups. */
  datatype Sys = Sys(ticket: Ticket, readings: set<Reading>, episode: nat, base: int, log: seq<Followup>)

  datatype Step =
    | Pend(reason: Reason, until: int)
    | Leave(status: Status)              // unpend, resolve, reopen
    | Read(now: int)
    | Work(reading: Reading)

  predicate Enabled(s: Sys, step: Step) {
    match step
    case Pend(reason, _) => ValidReason(reason)
    case Leave(status) => status != Pending
    case Read(now) => IsDue(s.ticket, now) && s.ticket.reason.Some?
    case Work(reading) => reading in s.readings && ValidReason(reading.snapshot.reason)
  }

  predicate Follows(t: Ticket, s: Snapshot) { Changes(t, s) && s.ticket.followups + 1 <= s.reason.followups }

  function Apply(s: Sys, step: Step): Sys
    requires Enabled(s, step)
  {
    match step
    case Pend(reason, until) => Sys(Ticket(Pending, Some(reason), Some(until), 0), s.readings, s.episode + 1, until, [])
    case Leave(status) => s.(ticket := s.ticket.(status := status, reason := None, until := None))
    case Read(now) => s.(readings := s.readings + {Reading(Snapshot(s.ticket, s.ticket.reason.value, now), s.episode)})
    case Work(reading) =>
      var snapshot := reading.snapshot;
      s.(ticket := Process(s.ticket, snapshot),
         log := if Follows(s.ticket, snapshot) && snapshot.ticket.until.Some?
                then s.log + [Followup(snapshot.ticket.followups + 1, snapshot.ticket.until.value, snapshot.now)] else s.log)
  }

  const INIT: Sys := Sys(Ticket(Active, None, None, 0), {}, 0, 0, [])

  // ---------------------------------------------------------------- invariants

  ghost predicate OnCadence(base: int, r: Reason, t: int) { exists m :: m >= 0 && t == base + m * FrequencyMs(r) }

  /** Holds whatever interleaves: the follow-ups since the last pend are numbered 1 .. n,
      none was sent before the slot its sweep had read, and a reading from since the last
      pend is of this wait, and of its present slot if no follow-up was sent meanwhile. */
  ghost predicate NumberInv(s: Sys) {
    && |s.log| == s.ticket.followups
    && (forall i :: 0 <= i < |s.log| ==> s.log[i].ordinal == i + 1 && s.log[i].slot <= s.log[i].at)
    && (s.ticket.status == Pending ==> s.ticket.reason.Some? && ValidReason(s.ticket.reason.value) && s.ticket.until.Some?)
    && (s.ticket.status != Pending ==> s.ticket.reason.None? && s.ticket.until.None?)
    && (forall r :: r in s.readings ==> ReadingInv(s, r))
  }

  ghost predicate ReadingInv(s: Sys, r: Reading) {
    && IsDue(r.snapshot.ticket, r.snapshot.now) && r.episode <= s.episode
    && ValidReason(r.snapshot.reason) && r.snapshot.ticket.reason == Some(r.snapshot.reason)
    && (r.episode == s.episode && s.ticket.status == Pending ==>
          && s.ticket.reason == Some(r.snapshot.reason)
          && r.snapshot.ticket.followups <= s.ticket.followups
          && (r.snapshot.ticket.followups == s.ticket.followups ==> r.snapshot.ticket == s.ticket))
  }

  /** The count and the cadence of a wait: no more follow-ups than configured, at most one
      per slot, every slot and the next time on the cadence of the first slot, and the next
      time after every sweep that sent a follow-up. */
  ghost predicate WaitHolds(s: Sys) {
    && (s.ticket.status == Pending ==>
          && s.ticket.reason.Some? && s.ticket.until.Some?
          && s.ticket.followups <= s.ticket.reason.value.followups
          && OnCadence(s.base, s.ticket.reason.value, s.ticket.until.value)
          && forall i :: 0 <= i < |s.log| ==>
               && OnCadence(s.base, s.ticket.reason.value, s.log[i].slot)
               && s.log[i].slot < s.ticket.until.value && s.log[i].at < s.ticket.until.value)
    && (forall i, j :: 0 <= i < j < |s.log| ==> s.log[i].slot < s.log[j].slot && s.log[i].at < s.log[j].slot)
  }

  lemma NumberStep(s: Sys, step: Step)
    requires NumberInv(s) && Enabled(s, step)
    ensures NumberInv(Apply(s, step))
  {}

  // ---------------------------------------------------------------- when a wait keeps its cadence

  /** What a sweep read fits the wait the ticket is in: a follow-up is owed, the slot is one
      of this wait after its last follow-up, and the next time is whole periods later. */
  ghost predicate Fits(s: Sys, sn: Snapshot)
    requires s.ticket.reason.Some? && ValidReason(s.ticket.reason.value) && sn.ticket.until.Some? && ValidReason(sn.reason)
  {
    var r, slot := s.ticket.reason.value, sn.ticket.until.value;
    && s.ticket.followups < r.followups
    && OnCadence(s.base, r, slot)
    && (s.log != [] ==> var last := s.log[|s.log| - 1]; last.slot < slot && last.at < slot)
    && (Rescheduled(slot, sn.reason, sn.now) - slot) % FrequencyMs(r) == 0
  }

  lemma MultipleOf(k: int, f: int)
    requires f > 0
    ensures (k * f) % f == 0
  {
    var q, r := (k * f) / f, (k * f) % f;
    assert k * f == f * q + r;
    NoSmallMultiple(k - q, f, r);
  }

  lemma NoSmallMultiple(d: int, f: int, r: int)
    requires 0 <= r < f && d * f == r
    ensures r == 0
  {
    if d >= 1 {
      ScaleMonotone(1, d, f);
    }
  }

  /** From a slot on the cadence, later times on it are whole periods away. */
  lemma WholePeriods(base: int, r: Reason, slot: int, later: int)
    requires ValidReason(r) && OnCadence(base, r, slot) && slot < later
    ensures OnCadence(base, r, later) <==> (later - slot) % FrequencyMs(r) == 0
  {
    var f := FrequencyMs(r);
    var k :| k >= 0 && slot == base + k * f;
    if OnCadence(base, r, later) {
      var m :| m >= 0 && later == base + m * f;
      assert later - slot == (m - k) * f;
      MultipleOf(m - k, f);
    }
    if (later - slot) % f == 0 {
      var d := (later - slot) / f;
      assert later - slot == d * f;
      assert d > 0;
      assert later == base + (k + d) * f;
    }
  }

  lemma FollowingGrowsLog(s: Sys, reading: Reading)
    requires NumberInv(s) && Enabled(s, Work(reading)) && Follows(s.ticket, reading.snapshot)
    ensures s.ticket.status == Pending && reading.snapshot.ticket.until.Some?
    ensures var sn := reading.snapshot; var slot := sn.ticket.until.value; var next := Apply(s, Work(reading));
      && next.log == s.log + [Followup(s.ticket.followups + 1, slot, sn.now)]
      && next.ticket == s.ticket.(followups := s.ticket.followups + 1, until := Some(Rescheduled(slot, sn.reason, sn.now)))
      && slot <= sn.now < Rescheduled(slot, sn.reason, sn.now)
  {
    assert ReadingInv(s, reading);
    RescheduledIsLeast(reading.snapshot.ticket.until.value, reading.snapshot.reason, reading.snapshot.now);
  }

  /** A follow-up keeps count and cadence of the wait exactly when what its sweep read fits
      the wait, whenever it was read. */
  lemma FollowUpKeepsIff(s: Sys, reading: Reading)
    requires NumberInv(s) && WaitHolds(s) && Enabled(s, Work(reading)) && Follows(s.ticket, reading.snapshot)
    ensures s.ticket.reason.Some? && ValidReason(s.ticket.reason.value) && reading.snapshot.ticket.until.Some?
    ensures WaitHolds(Apply(s, Work(reading))) <==> Fits(s, reading.snapshot)
  {
    FollowingGrowsLog(s, reading);
    var sn, next := reading.snapshot, Apply(s, Work(reading));
    var r, slot := s.ticket.reason.value, sn.ticket.until.value;
    var n := |s.log|;
    assert next.log[n] == Followup(s.ticket.followups + 1, slot, sn.now);
    assert forall i :: 0 <= i < n ==> next.log[i] == s.log[i];
    if OnCadence(s.base, r, slot) {
      WholePeriods(s.base, r, slot, Rescheduled(slot, sn.reason, sn.now));
    }
    if Fits(s, sn) {
      forall i | 0 <= i < n
        ensures s.log[i].slot < slot && s.log[i].at < slot
      {
        assert i < n - 1 ==> s.log[i].slot < s.log[n - 1].slot && s.log[i].at < s.log[n - 1].slot;
      }
    }
  }

  /** Every other step keeps them: pending again starts a wait, leaving ends one, a refused
      or resolving sweep sends nothing. */
  lemma OtherStepsKeepWait(s: Sys, step: Step)
    requires NumberInv(s) && WaitHolds(s) && Enabled(s, step)
    requires step.Work? ==> !Follows(s.ticket, step.reading.snapshot)
    ensures WaitHolds(Apply(s, step))
  {
    if step.Pend? {
      assert step.until == step.until + 0 * FrequencyMs(step.reason);
    }
  }

  /** Some readings always fit: those from since the last pend, and older ones that agree
      with the wait in reason and slot. */
  lemma CurrentFits(s: Sys, reading: Reading)
    requires NumberInv(s) && WaitHolds(s) && Enabled(s, Work(reading)) && Follows(s.ticket, reading.snapshot)
    requires s.ticket.reason.Some?
    requires reading.episode == s.episode
             || (reading.snapshot.reason == s.ticket.reason.value && reading.snapshot.ticket.until == s.ticket.until)
    ensures ValidReason(s.ticket.reason.value) && reading.snapshot.ticket.until.Some? && Fits(s, reading.snapshot)
  {
    assert ReadingInv(s, reading);
    var sn := reading.snapshot;
    var slot, f := sn.ticket.until.value, FrequencyMs(sn.reason);
    RescheduledIsLeast(slot, sn.reason, sn.now);
    var m :| m >= 1 && Rescheduled(slot, sn.reason, sn.now) == slot + m * f;
    MultipleOf(m, f);
  }

  predicate Legal(s: Sys, steps: seq<Step>)
    decreases |steps|
  {
    steps == [] || (Enabled(s, steps[0]) && Legal(Apply(s, steps[0]), steps[1..]))
  }

  function Run(s: Sys, steps: seq<Step>): Sys
    requires Legal(s, steps)
    decreases |steps|
  {
    if steps == [] then s else Run(Apply(s, steps[0]), steps[1..])
  }

  lemma {:induction false} RunKeepsNumbers(s: Sys, steps: seq<Step>)
    requires NumberInv(s) && Legal(s, steps)
    ensures NumberInv(Run(s, steps))
    decreases |steps|
  {
    if steps != [] {
      NumberStep(s, steps[0]);
      RunKeepsNumbers(Apply(s, steps[0]), steps[1..]);
    }
  }

  /** Every follow-up of the run is sent on a reading that fits. */
  ghost predicate AllFit(s: Sys, steps: seq<Step>)
    requires NumberInv(s) && Legal(s, steps)
    decreases |steps|
  {
    steps == [] ||
    (NumberStep(s, steps[0]);
     && (steps[0].Work? && Follows(s.ticket, steps[0].reading.snapshot) ==>
           (FollowingGrowsLog(s, steps[0].reading); Fits(s, steps[0].reading.snapshot)))
     && AllFit(Apply(s, steps[0]), steps[1..]))
  }

  /** Count and cadence hold in every state of the run. */
  ghost predicate Throughout(s: Sys, steps: seq<Step>)
    requires Legal(s, steps)
    decreases |steps|
  {
    WaitHolds(s) && (steps == [] || Throughout(Apply(s, steps[0]), steps[1..]))
  }

  lemma {:induction false} ThroughoutIff(s: Sys, steps: seq<Step>)
    requires NumberInv(s) && WaitHolds(s) && Legal(s, steps)
    ensures Throughout(s, steps) <==> AllFit(s, steps)
    decreases |steps|
  {
    if steps != [] {
      NumberStep(s, steps[0]);
      if steps[0].Work? && Follows(s.ticket, steps[0].reading.snapshot) {
        FollowUpKeepsIff(s, steps[0].reading);
      } else {
        OtherStepsKeepWait(s, steps[0]);
      }
      var next := Apply(s, steps[0]);
      if WaitHolds(next) {
        ThroughoutIff(next, steps[1..]);
      }
    }
  }

  // ---------------------------------------------------------------- what every run satisfies

  /** However late and overlapping the sweeps: the follow-ups since the last pend are
      numbered consecutively from 1, none is sent before the slot its sweep had read; and
      only a pending ticket has a reason and a next time. */
  lemma OrdinalsAreConsecutive(steps: seq<Step>)
    requires Legal(INIT, steps)
    ensures var s := Run(INIT, steps);
      && |s.log| == s.ticket.followups
      && (forall i :: 0 <= i < |s.log| ==> s.log[i].ordinal == i + 1 && s.log[i].slot <= s.log[i].at)
      && (s.ticket.status == Pending <==> s.ticket.reason.Some?) && (s.ticket.status == Pending <==> s.ticket.until.Some?)
  {
    RunKeepsNumbers(INIT, steps);
  }

  /** Over every run count and cadence hold throughout exactly when every follow-up was sent
      on a reading that fits the wait. */
  lemma CadenceIsKeptIff(steps: seq<Step>)
    requires Legal(INIT, steps)
    ensures Throughout(INIT, steps) <==> AllFit(INIT, steps)
  {
    ThroughoutIff(INIT, steps);
  }

  /** Over every run: a sweep resolves a ticket with follow-ups still owed only on a reading
      from before the ticket was last made pending. */
  lemma EarlyResolutionIsStale(steps: seq<Step>, reading: Reading)
    requires Legal(INIT, steps)
    requires var s := Run(INIT, steps); Enabled(s, Work(reading)) && s.ticket.status == Pending
    requires Apply(Run(INIT, steps), Work(reading)).ticket.status == Resolved
    ensures var s := Run(INIT, steps); s.ticket.reason.Some?
    ensures var s := Run(INIT, steps);
      s.ticket.followups < s.ticket.reason.value.followups ==> reading.episode < s.episode
  {
    RunKeepsNumbers(INIT, steps);
    assert ReadingInv(Run(INIT, steps), reading);
  }

  /** Whatever was read when: a sweep resolves exactly the pending tickets of whose reading
      the follow-ups were used up, and a resolved one waits for nothing. */
  lemma ResolvesIff(t: Ticket, s: Snapshot)
    requires ValidReason(s.reason) && s.ticket.status == Pending && t.status != Resolved
    ensures Process(t, s).status == Resolved <==> t.status == Pending && s.ticket.followups >= s.reason.followups
    ensures Process(t, s).status == Resolved ==> Process(t, s) == Ticket(Resolved, None, None, t.followups)
  {}

  lemma {:induction false} Extend(s: Sys, steps: seq<Step>, step: Step)
    requires Legal(s, steps) && Enabled(Run(s, steps), step)
    ensures Legal(s, steps + [step]) && Run(s, steps + [step]) == Apply(Run(s, steps), step)
    decreases |steps|
  {
    if steps == [] {
      assert ([] + [step])[1..] == [];
    } else {
      assert (steps + [step])[1..] == steps[1..] + [step];
      Extend(Apply(s, steps[0]), steps[1..], step);
    }
  }

  lemma Then(steps: seq<Step>, step: Step) returns (longer: seq<Step>)
    requires Legal(INIT, steps) && Enabled(Run(INIT, steps), step)
    ensures Legal(INIT, longer) && Run(INIT, longer) == Apply(Run(INIT, steps), step)
  {
    Extend(INIT, steps, step);
    longer := steps + [step];
  }

  const DAILY := Reason(1440, 1)
  const DAY_MS: int := 1440 * MINUTE_MS

  /** A ticket with one follow-up, sent, and a sweep that has just read it as due. */
  lemma AboutToResolve() returns (steps: seq<Step>, reading: Reading)
    ensures Legal(INIT, steps)
    ensures var s := Run(INIT, steps);
      && reading in s.readings && reading.episode == s.episode
      && reading.snapshot == Snapshot(Ticket(Pending, Some(DAILY), Some(DAY_MS), 1), DAILY, DAY_MS)
  {
    steps := Then([], Pend(DAILY, 0));
    steps := Then(steps, Read(0));
    steps := Then(steps, Work(Reading(Snapshot(Ticket(Pending, Some(DAILY), Some(0), 0), DAILY, 0), 1)));
    assert Rescheduled(0, DAILY, 0) == DAY_MS;
    steps := Then(steps, Read(DAY_MS));
    reading := Reading(Snapshot(Ticket(Pending, Some(DAILY), Some(DAY_MS), 1), DAILY, DAY_MS), 1);
  }

  /** It happens: the requester answers, the ticket is made pending again, and the sweep
      resolves it before a single follow-up of the new wait was sent. */
  lemma ResolvedUnasked() returns (steps: seq<Step>)
    ensures Legal(INIT, steps)
    ensures Run(INIT, steps).ticket.status == Resolved && Run(INIT, steps).log == [] && Run(INIT, steps).base == 5 * DAY_MS
  {
    var reading;
    steps, reading := AboutToResolve();
    steps := Then(steps, Leave(Active));
    steps := Then(steps, Pend(DAILY, 5 * DAY_MS));
    steps := Then(steps, Work(reading));
  }

  const FIVE := Reason(1440, 5)

  /** The second follow-up of a wait for five is due and has been read. */
  lemma SecondIsDue() returns (steps: seq<Step>, reading: Reading)
    ensures Legal(INIT, steps) && reading in Run(INIT, steps).readings && Run(INIT, steps).episode == 1
    ensures reading == Reading(Snapshot(Ticket(Pending, Some(FIVE), Some(DAY_MS), 1), FIVE, DAY_MS), 1)
  {
    steps := Then([], Pend(FIVE, 0));
    steps := Then(steps, Read(0));
    steps := Then(steps, Work(Reading(Snapshot(Ticket(Pending, Some(FIVE), Some(0), 0), FIVE, 0), 1)));
    assert Rescheduled(0, FIVE, 0) == DAY_MS;
    steps := Then(steps, Read(DAY_MS));
    reading := Reading(Snapshot(Ticket(Pending, Some(FIVE), Some(DAY_MS), 1), FIVE, DAY_MS), 1);
  }

  /** A reading that does not fit, too many: made pending again for one follow-up, which is
      sent, the ticket gets a second one from the sweep of its earlier wait. */
  lemma OneTooMany() returns (steps: seq<Step>)
    ensures Legal(INIT, steps)
    ensures var s := Run(INIT, steps);
      s.ticket.status == Pending && s.ticket.reason == Some(DAILY) && s.ticket.followups == 2 > DAILY.followups
  {
    var stale;
    steps, stale := SecondIsDue();
    steps := Then(steps, Leave(Active));
    steps := Then(steps, Pend(DAILY, 10 * DAY_MS));
    steps := Then(steps, Read(10 * DAY_MS));
    steps := Then(steps, Work(Reading(Snapshot(Ticket(Pending, Some(DAILY), Some(10 * DAY_MS), 0), DAILY, 10 * DAY_MS), 2)));
    steps := Then(steps, Work(stale));
  }

  /** A reading that does not fit, off the cadence: the new wait's first follow-up goes out
      before its first slot, and its next time is a slot of the earlier wait. */
  lemma OffCadence() returns (steps: seq<Step>)
    ensures Legal(INIT, steps)
    ensures var s := Run(INIT, steps);
      && s.ticket.status == Pending && s.base == 5 * DAY_MS + 7 && |s.log| == 1 && s.log[0].at < s.base
      && s.ticket.until == Some(DAY_MS) && !OnCadence(s.base, DAILY, DAY_MS)
  {
    var stale := Reading(Snapshot(Ticket(Pending, Some(DAILY), Some(0), 0), DAILY, 0), 1);
    steps := Then([], Pend(DAILY, 0));
    steps := Then(steps, Read(0));
    steps := Then(steps, Leave(Active));
    steps := Then(steps, Pend(DAILY, 5 * DAY_MS + 7));
    steps := Then(steps, Work(stale));
    assert Rescheduled(0, DAILY, 0) == DAY_MS;
  }
}
