/**
 * Agent runs end to end: the rows and assignments of the gateway (grpc.ts), the worker's
 * retained terminal messages (server.py) and a network that may lose, duplicate, delay and
 * reorder. Every write to a run's status is guarded by the status still being running.
 */
module RunLifecycle {
  import opened Sequences
  import opened RetainedTerminals

  const RUN_LEASE_MS: nat := 45000

  /** A row of agent_runs. */
  datatype RunRow = RunRow(status: RunStatus, worker: Option<string>, lease: Option<nat>)

  /** A terminal update that passed its first check and waits for its transaction. */
  datatype Arriving = Arriving(worker: string, terminal: Terminal)

  /** The gateway: the table, the assignments in memory, the updates being processed. */
  datatype Registry = Registry(rows: map<nat, RunRow>, holders: map<nat, string>, arriving: set<Arriving>)

  datatype Verdict = Refused | Accepted | Acked

  predicate IsRunning(g: Registry, run: nat) { run in g.rows && g.rows[run].status == Running }

  predicate AssignedTo(g: Registry, run: nat, worker: string) { run in g.holders && g.holders[run] == worker }

  // ---------------------------------------------------------------- the writers

  function StartRun(g: Registry, run: nat, worker: string, now: nat): Registry {
    if !IsRunning(g, run) then g
    else g.(rows := g.rows[run := g.rows[run].(worker := Some(worker), lease := Some(now + RUN_LEASE_MS))],
            holders := g.holders[run := worker])
  }

  /** Ends a run that is still running. */
  function Fail(rows: map<nat, RunRow>, run: nat): map<nat, RunRow> {
    if run in rows && rows[run].status == Running then rows[run := rows[run].(status := Failed, lease := None)] else rows
  }

  function DispatchFails(g: Registry, run: nat): Registry {
    g.(holders := g.holders - {run},
       rows := if IsRunning(g, run) then g.rows[run := g.rows[run].(status := Failed)] else g.rows)
  }

  /** cancelRun; with a bound on the lease when it is the expiry sweep that calls it. The
      transaction is rolled back when the run's ticket is missing or cannot be failed. */
  function Cancel(g: Registry, run: nat, leaseBefore: Option<nat>, commits: bool): Registry {
    if !commits || !IsRunning(g, run)
       || (leaseBefore.Some? && (g.rows[run].lease.None? || g.rows[run].lease.value >= leaseBefore.value))
    then g
    else g.(rows := Fail(g.rows, run), holders := g.holders - {run})
  }

  /** A new gateway process: nothing is assigned, runs without a live lease are failed. */
  function Restart(g: Registry, now: nat): Registry {
    Registry(map run | run in g.rows ::
               if g.rows[run].status == Running && (g.rows[run].lease.None? || g.rows[run].lease.value < now)
               then g.rows[run].(status := Failed, lease := None) else g.rows[run],
             map[], {})
  }

  predicate CanRenew(g: Registry, run: nat, worker: string) {
    IsRunning(g, run) && g.rows[run].worker == Some(worker)
  }

  function Renew(g: Registry, run: nat, now: nat): Registry
    requires run in g.rows
  {
    g.(rows := g.rows[run := g.rows[run].(lease := Some(now + RUN_LEASE_MS))])
  }

  /** A terminal update arrives. */
  function Arrive(g: Registry, worker: string, t: Terminal, now: nat): (Registry, Verdict) {
    if !AssignedTo(g, t.run, worker) then
      if t.run in g.rows && g.rows[t.run].worker == Some(worker) && g.rows[t.run].status != Running
      then (g, Acked) else (g, Refused)
    else if CanRenew(g, t.run, worker)
    then (Renew(g, t.run, now).(arriving := g.arriving + {Arriving(worker, t)}), Accepted)
    else (g, Refused)
  }

  /** Its transaction: rolled back, or committed and acknowledged. */
  function Commit(g: Registry, a: Arriving, ok: bool): (Registry, Verdict) {
    var rest := g.arriving - {a};
    if !ok || a.terminal.run !in g.rows then (g.(arriving := rest), Refused)
    else (Registry(if IsRunning(g, a.terminal.run)
                   then g.rows[a.terminal.run := g.rows[a.terminal.run].(status := a.terminal.status, lease := None)]
                   else g.rows,
                   g.holders - {a.terminal.run}, rest), Acked)
  }

  // ---------------------------------------------------------------- end to end

  const WORKER: string := "worker"

  datatype Ack = Ack(run: nat, ordinal: nat)

  datatype Sys = Sys(
    now: nat, gateway: Registry, exits: multiset<nat>,
    elsewhere: set<nat>,      // runs ended by another gateway process
    endings: map<nat, Arriving>, // runs ended by a terminal update, with it
    retained: seq<Retained>, link: Option<Link>,
    produced: set<Terminal>,  // terminal messages the worker ever made
    lost: set<Terminal>,      // those of them that fell to a limit or a crash
    toGateway: set<Terminal>, toWorker: set<Ack>)

  datatype Event =
    | Elapse(ms: nat)
    // gateway
    | CreateRun(run: nat) | Start(run: nat, worker: string) | FailDispatch(run: nat)
    | CancelRun(run: nat, commits: bool) | ExpireLease(run: nat, commits: bool) | FailElsewhere(run: nat)
    | RestartGateway | RenewLease(run: nat, worker: string)
    | ReceiveUpdate(worker: string, terminal: Terminal) | CommitUpdate(arriving: Arriving, ok: bool)
    // worker
    | Connect | Produce(terminal: Terminal, stuck: bool) | SendOther(stuck: bool) | Transmit | Close | ReceiveAck(ack: Ack)
    | CrashWorker

  predicate Enabled(s: Sys, e: Event) {
    match e
    case CreateRun(run) => run !in s.gateway.rows
    case RenewLease(run, worker) => CanRenew(s.gateway, run, worker)
    case ReceiveUpdate(worker, t) => t.status != Running && (worker == WORKER ==> t in s.toGateway)
    case CommitUpdate(a, _) => a in s.gateway.arriving
    case Connect => s.link.None?
    case Produce(t, _) => s.link.Some? && t.status != Running
    case SendOther(_) => s.link.Some?
    case Transmit => s.link.Some? && s.link.value.outbound != []
    case Close => s.link.Some?
    case ReceiveAck(ack) => ack in s.toWorker
    case _ => true
  }

  /** The runs that stop running. */
  ghost function Left(before: map<nat, RunRow>, after: map<nat, RunRow>): set<nat> {
    set run | run in before && before[run].status == Running && (run !in after || after[run].status != Running)
  }

  ghost function WithGateway(s: Sys, g: Registry): Sys {
    s.(gateway := g, exits := s.exits + multiset(Left(s.gateway.rows, g.rows)))
  }

  function WithAck(s: Sys, worker: string, t: Terminal, verdict: Verdict): Sys {
    if verdict == Acked && worker == WORKER then s.(toWorker := s.toWorker + {Ack(t.run, t.ordinal)}) else s
  }

  ghost function Sent(s: Sys, limits: Limits, m: Message, stuck: bool): Sys
    requires s.link.Some?
  {
    var (retained, link) := Send(s.retained, s.link.value, s.now, limits, m, stuck);
    s.(retained := retained, link := Some(link))
  }

  /** The messages whose entries this very step drops by a limit or with the process. */
  ghost function StepEvicted(s: Sys, limits: Limits, e: Event): set<Terminal>
    requires Enabled(s, e)
  {
    match e
    case Connect => set r | r in s.retained && !Fresh(r, s.now, limits) :: r.terminal
    case Produce(t, stuck) => SendEvicted(s.retained, s.link.value, s.now, limits, Update(t), stuck)
    case SendOther(stuck) => SendEvicted(s.retained, s.link.value, s.now, limits, Other, stuck)
    case Close => DrainEvicted(s.retained, s.now, limits, s.link.value.outbound)
    case CrashWorker => set r | r in s.retained :: r.terminal
    case _ => {}
  }

  /** Messages that no longer have an entry, because of what was evicted. */
  ghost function Lose(s: Sys, evicted: set<Terminal>): Sys {
    s.(lost := s.lost + set x | x in s.produced && Covers(evicted, x) && !Holds(s.retained, x))
  }

  ghost function Apply(s: Sys, limits: Limits, e: Event): Sys
    requires Enabled(s, e)
  {
    match e
    case Elapse(ms) => s.(now := s.now + ms)
    case CreateRun(run) =>
      WithGateway(s, s.gateway.(rows := s.gateway.rows[run := RunRow(Running, None, None)]))
    case Start(run, worker) => WithGateway(s, StartRun(s.gateway, run, worker, s.now))
    case FailDispatch(run) => WithGateway(s, DispatchFails(s.gateway, run))
    case CancelRun(run, commits) => WithGateway(s, Cancel(s.gateway, run, None, commits))
    case ExpireLease(run, commits) => WithGateway(s, Cancel(s.gateway, run, Some(s.now), commits))
    case FailElsewhere(run) =>
      WithGateway(s, s.gateway.(rows := Fail(s.gateway.rows, run))).(elsewhere := s.elsewhere + {run})
    case RestartGateway => WithGateway(s, Restart(s.gateway, s.now))
    case RenewLease(run, _) => WithGateway(s, Renew(s.gateway, run, s.now))
    case ReceiveUpdate(worker, t) =>
      var (g, verdict) := Arrive(s.gateway, worker, t, s.now);
      WithAck(WithGateway(s, g), worker, t, verdict)
    case CommitUpdate(a, ok) =>
      var (g, verdict) := Commit(s.gateway, a, ok);
      WithAck(WithGateway(s, g), a.worker, a.terminal, verdict)
        .(endings := if a.terminal.run in Left(s.gateway.rows, g.rows) then s.endings[a.terminal.run := a] else s.endings)
    case Connect =>
      var kept := Pruned(s.retained, s.now, limits);
      Lose(s.(retained := kept, link := Some(Link([], false)),
              toGateway := s.toGateway + set r | r in kept :: r.terminal), StepEvicted(s, limits, e))
    case Produce(t, stuck) =>
      Lose(Sent(s, limits, Update(t), stuck).(produced := s.produced + {t}), StepEvicted(s, limits, e))
    case SendOther(stuck) => Lose(Sent(s, limits, Other, stuck), StepEvicted(s, limits, e))
    case Transmit =>
      var m := s.link.value.outbound[0];
      s.(link := Some(s.link.value.(outbound := s.link.value.outbound[1..])),
         toGateway := if m.Update? then s.toGateway + {m.terminal} else s.toGateway)
    case Close =>
      Lose(s.(retained := Drain(s.retained, s.now, limits, s.link.value.outbound), link := None), StepEvicted(s, limits, e))
    case ReceiveAck(ack) => s.(retained := Acknowledged(s.retained, ack.run, ack.ordinal))
    case CrashWorker => Lose(s.(retained := [], link := None), StepEvicted(s, limits, e))
  }

  const INIT: Sys := Sys(0, Registry(map[], map[], {}), multiset{}, {}, map[], [], None, {}, {}, {}, {})

  // ---------------------------------------------------------------- the invariant

  /** A run has left running exactly once if it is not running, never if it is. */
  ghost predicate ExitInv(g: Registry, exits: multiset<nat>) {
    && (forall run :: run in g.rows ==> exits[run] == if g.rows[run].status == Running then 0 else 1)
    && (forall run :: run !in g.rows ==> exits[run] == 0)
  }

  ghost predicate ArrivingInv(g: Registry) {
    forall a :: a in g.arriving ==> a.terminal.status != Running
  }

  /** A run ended by a terminal update holds that update's status; any other run that is
      over failed. */
  ghost predicate EndingInv(g: Registry, endings: map<nat, Arriving>) {
    && (forall run :: run in endings ==>
          run in g.rows && endings[run].terminal.run == run && g.rows[run].status == endings[run].terminal.status != Running)
    && (forall run :: run in g.rows && g.rows[run].status != Running && run !in endings ==> g.rows[run].status == Failed)
  }

  /** What the worker's updates on their way to a row, and behind one, say it has produced. */
  ghost predicate SourceInv(s: Sys) {
    && (forall a :: a in s.gateway.arriving && a.worker == WORKER ==> a.terminal in s.produced)
    && (forall run :: run in s.endings && s.endings[run].worker == WORKER ==> s.endings[run].terminal in s.produced)
  }

  /** An assignment names the row's worker, and a run that is running unless another
      process ended it. */
  ghost predicate HolderInv(g: Registry, elsewhere: set<nat>) {
    forall run :: run in g.holders ==>
      run in g.rows && g.rows[run].worker == Some(g.holders[run]) && (IsRunning(g, run) || run in elsewhere)
  }

  /** An acknowledgement was sent for runs that are over. */
  ghost predicate AckInv(g: Registry, toWorker: set<Ack>) {
    forall ack :: ack in toWorker ==> ack.run in g.rows && g.rows[ack.run].status != Running
  }

  /** What the worker's messages and queues carry it has produced itself. */
  ghost predicate OriginInv(s: Sys) {
    && (forall t :: t in s.toGateway ==> t in s.produced)
    && (forall r :: r in s.retained ==> r.terminal in s.produced)
    && (s.link.Some? ==> forall m :: m in s.link.value.outbound && m.Update? ==> m.terminal in s.produced)
    && (forall t :: t in s.produced ==> t.status != Running)
  }

  /** Every terminal message ever produced is still retained, or was taken by a limit or a
      crash, or its run is over. */
  ghost predicate DeliveryInv(s: Sys) {
    forall t :: t in s.produced ==>
      Holds(s.retained, t) || t in s.lost || (t.run in s.gateway.rows && !IsRunning(s.gateway, t.run))
  }

  ghost predicate GatewayInv(s: Sys) {
    ExitInv(s.gateway, s.exits) && ArrivingInv(s.gateway) && AckInv(s.gateway, s.toWorker)
  }

  ghost predicate WorkerInv(s: Sys, limits: Limits) {
    Ordered(s.retained, s.now) && |s.retained| <= limits.size && OriginInv(s) && DeliveryInv(s)
  }

  ghost predicate Inv(s: Sys, limits: Limits) {
    && GatewayInv(s) && HolderInv(s.gateway, s.elsewhere) && EndingInv(s.gateway, s.endings) && SourceInv(s)
    && WorkerInv(s, limits)
  }

  /** Rows stay, and a run that is over keeps its status. */
  ghost predicate Final(before: map<nat, RunRow>, after: map<nat, RunRow>) {
    forall run :: run in before ==> run in after && (before[run].status != Running ==> after[run].status == before[run].status)
  }

  // ---------------------------------------------------------------- gateway steps

  predicate ByGateway(e: Event) {
    || e.CreateRun? || e.Start? || e.FailDispatch? || e.CancelRun? || e.ExpireLease? || e.FailElsewhere?
    || e.RestartGateway? || e.RenewLease? || e.ReceiveUpdate? || e.CommitUpdate?
  }

  lemma WritersKeepFinal(g: Registry, run: nat, worker: string, now: nat, leaseBefore: Option<nat>, commits: bool)
    ensures Final(g.rows, StartRun(g, run, worker, now).rows) && Final(g.rows, DispatchFails(g, run).rows)
    ensures Final(g.rows, Cancel(g, run, leaseBefore, commits).rows) && Final(g.rows, Fail(g.rows, run))
  {}

  lemma RestartKeepsFinal(g: Registry, now: nat)
    ensures Final(g.rows, Restart(g, now).rows)
  {}

  lemma UpdatesKeepFinal(g: Registry, worker: string, t: Terminal, now: nat, a: Arriving, ok: bool)
    ensures Final(g.rows, Arrive(g, worker, t, now).0.rows) && Final(g.rows, Commit(g, a, ok).0.rows)
  {}

  /** Whatever writes, a terminal status is final. */
  lemma StatusIsFinal(s: Sys, limits: Limits, e: Event)
    requires Enabled(s, e)
    ensures Final(s.gateway.rows, Apply(s, limits, e).gateway.rows)
  {
    var g := s.gateway;
    match e
    case CreateRun(_) =>
    case Start(run, worker) => WritersKeepFinal(g, run, worker, s.now, None, true);
    case FailDispatch(run) => WritersKeepFinal(g, run, "", s.now, None, true);
    case CancelRun(run, commits) => WritersKeepFinal(g, run, "", s.now, None, commits);
    case ExpireLease(run, commits) => WritersKeepFinal(g, run, "", s.now, Some(s.now), commits);
    case FailElsewhere(run) => WritersKeepFinal(g, run, "", s.now, None, true);
    case RestartGateway => RestartKeepsFinal(g, s.now);
    case RenewLease(_, _) =>
    case ReceiveUpdate(worker, t) => UpdatesKeepFinal(g, worker, t, s.now, Arriving(worker, t), false);
    case CommitUpdate(a, ok) => UpdatesKeepFinal(g, a.worker, a.terminal, s.now, a, ok);
    case _ => assert Apply(s, limits, e).gateway == g;
  }

  lemma WritersKeepHolders(g: Registry, elsewhere: set<nat>, run: nat, worker: string, now: nat, leaseBefore: Option<nat>,
                           commits: bool)
    requires HolderInv(g, elsewhere)
    ensures HolderInv(StartRun(g, run, worker, now), elsewhere) && HolderInv(DispatchFails(g, run), elsewhere)
    ensures HolderInv(Cancel(g, run, leaseBefore, commits), elsewhere)
    ensures HolderInv(g.(rows := Fail(g.rows, run)), elsewhere + {run})
  {}

  lemma UpdatesKeepHolders(g: Registry, elsewhere: set<nat>, worker: string, t: Terminal, now: nat, a: Arriving, ok: bool)
    requires HolderInv(g, elsewhere)
    ensures HolderInv(Arrive(g, worker, t, now).0, elsewhere) && HolderInv(Commit(g, a, ok).0, elsewhere)
  {}

  lemma HolderStep(s: Sys, limits: Limits, e: Event)
    requires HolderInv(s.gateway, s.elsewhere) && Enabled(s, e)
    ensures HolderInv(Apply(s, limits, e).gateway, Apply(s, limits, e).elsewhere)
  {
    var g := s.gateway;
    match e
    case Start(run, worker) => WritersKeepHolders(g, s.elsewhere, run, worker, s.now, None, true);
    case FailDispatch(run) => WritersKeepHolders(g, s.elsewhere, run, "", s.now, None, true);
    case CancelRun(run, commits) => WritersKeepHolders(g, s.elsewhere, run, "", s.now, None, commits);
    case ExpireLease(run, commits) => WritersKeepHolders(g, s.elsewhere, run, "", s.now, Some(s.now), commits);
    case FailElsewhere(run) => WritersKeepHolders(g, s.elsewhere, run, "", s.now, None, true);
    case ReceiveUpdate(worker, t) => UpdatesKeepHolders(g, s.elsewhere, worker, t, s.now, Arriving(worker, t), false);
    case CommitUpdate(a, ok) => UpdatesKeepHolders(g, s.elsewhere, a.worker, a.terminal, s.now, a, ok);
    case _ =>
  }

  lemma WritersFail(g: Registry, endings: map<nat, Arriving>, run: nat, worker: string, now: nat, leaseBefore: Option<nat>,
                    commits: bool)
    requires EndingInv(g, endings)
    ensures EndingInv(StartRun(g, run, worker, now), endings) && EndingInv(DispatchFails(g, run), endings)
    ensures EndingInv(Cancel(g, run, leaseBefore, commits), endings)
    ensures EndingInv(g.(rows := Fail(g.rows, run)), endings)
  {}

  lemma RestartFails(g: Registry, endings: map<nat, Arriving>, now: nat)
    requires EndingInv(g, endings)
    ensures EndingInv(Restart(g, now), endings)
  {}

  lemma ArrivalRecordsNothing(g: Registry, endings: map<nat, Arriving>, worker: string, t: Terminal, now: nat)
    requires EndingInv(g, endings)
    ensures EndingInv(Arrive(g, worker, t, now).0, endings)
  {}

  lemma CommitRecords(s: Sys, limits: Limits, a: Arriving, ok: bool)
    requires EndingInv(s.gateway, s.endings) && ArrivingInv(s.gateway) && Enabled(s, CommitUpdate(a, ok))
    ensures var next := Apply(s, limits, CommitUpdate(a, ok)); EndingInv(next.gateway, next.endings)
  {}

  lemma EndingStep(s: Sys, limits: Limits, e: Event)
    requires EndingInv(s.gateway, s.endings) && ArrivingInv(s.gateway) && Enabled(s, e)
    ensures EndingInv(Apply(s, limits, e).gateway, Apply(s, limits, e).endings)
  {
    var g := s.gateway;
    match e
    case Start(run, worker) => WritersFail(g, s.endings, run, worker, s.now, None, true);
    case FailDispatch(run) => WritersFail(g, s.endings, run, "", s.now, None, true);
    case CancelRun(run, commits) => WritersFail(g, s.endings, run, "", s.now, None, commits);
    case ExpireLease(run, commits) => WritersFail(g, s.endings, run, "", s.now, Some(s.now), commits);
    case FailElsewhere(run) => WritersFail(g, s.endings, run, "", s.now, None, true);
    case RestartGateway => RestartFails(g, s.endings, s.now);
    case ReceiveUpdate(worker, t) => ArrivalRecordsNothing(g, s.endings, worker, t, s.now);
    case CommitUpdate(a, ok) => CommitRecords(s, limits, a, ok);
    case _ =>
  }

  lemma SourceStep(s: Sys, limits: Limits, e: Event)
    requires SourceInv(s) && OriginInv(s) && Enabled(s, e)
    ensures SourceInv(Apply(s, limits, e))
  {}

  lemma ExitsCounted(s: Sys, g: Registry)
    requires ExitInv(s.gateway, s.exits) && Final(s.gateway.rows, g.rows)
    requires forall run :: run in g.rows && run !in s.gateway.rows ==> g.rows[run].status == Running
    ensures ExitInv(g, WithGateway(s, g).exits)
  {
    var left := Left(s.gateway.rows, g.rows);
    assert forall run :: multiset(left)[run] == if run in left then 1 else 0;
  }

  /** A step that acknowledges nothing. */
  lemma SilentStep(s: Sys, g: Registry)
    requires GatewayInv(s) && Final(s.gateway.rows, g.rows) && g.arriving <= s.gateway.arriving
    requires forall run :: run in g.rows && run !in s.gateway.rows ==> g.rows[run].status == Running
    ensures GatewayInv(WithGateway(s, g))
  {
    ExitsCounted(s, g);
  }

  lemma ArriveStep(s: Sys, limits: Limits, worker: string, t: Terminal)
    requires GatewayInv(s) && Enabled(s, ReceiveUpdate(worker, t))
    ensures GatewayInv(Apply(s, limits, ReceiveUpdate(worker, t)))
  {
    StatusIsFinal(s, limits, ReceiveUpdate(worker, t));
    ExitsCounted(s, Arrive(s.gateway, worker, t, s.now).0);
  }

  lemma CommitStep(s: Sys, limits: Limits, a: Arriving, ok: bool)
    requires GatewayInv(s) && Enabled(s, CommitUpdate(a, ok))
    ensures GatewayInv(Apply(s, limits, CommitUpdate(a, ok)))
  {
    StatusIsFinal(s, limits, CommitUpdate(a, ok));
    ExitsCounted(s, Commit(s.gateway, a, ok).0);
  }

  lemma GatewayStep(s: Sys, limits: Limits, e: Event)
    requires GatewayInv(s) && Enabled(s, e) && ByGateway(e)
    ensures GatewayInv(Apply(s, limits, e))
  {
    if e.ReceiveUpdate? {
      ArriveStep(s, limits, e.worker, e.terminal);
    } else if e.CommitUpdate? {
      CommitStep(s, limits, e.arriving, e.ok);
    } else {
      StatusIsFinal(s, limits, e);
      SilentStep(s, Apply(s, limits, e).gateway);
    }
  }

  lemma WorkerUnderGatewayStep(s: Sys, limits: Limits, e: Event)
    requires WorkerInv(s, limits) && Enabled(s, e) && (ByGateway(e) || e.Elapse?)
    ensures WorkerInv(Apply(s, limits, e), limits)
  {
    StatusIsFinal(s, limits, e);
  }

  // ---------------------------------------------------------------- worker steps

  lemma {:induction false} DrainOrigin(rs: seq<Retained>, now: nat, limits: Limits, outbound: seq<Message>, produced: set<Terminal>)
    requires forall r :: r in rs ==> r.terminal in produced
    requires forall m :: m in outbound && m.Update? ==> m.terminal in produced
    ensures forall r :: r in Drain(rs, now, limits, outbound) ==> r.terminal in produced
    decreases |outbound|
  {
    if outbound != [] {
      assert forall m :: m in outbound[1..] ==> m in outbound;
      var kept := if outbound[0].Update? then Retain(rs, now, limits, outbound[0].terminal) else rs;
      DrainOrigin(kept, now, limits, outbound[1..], produced);
    }
  }

  /** Produce and SendOther. */
  lemma SendStep(s: Sys, limits: Limits, m: Message, stuck: bool, made: set<Terminal>)
    requires WorkerInv(s, limits) && s.link.Some?
    requires made == (if m.Update? then {m.terminal} else {}) && forall t :: t in made ==> t.status != Running
    ensures var evicted := SendEvicted(s.retained, s.link.value, s.now, limits, m, stuck);
      WorkerInv(Lose(Sent(s, limits, m, stuck).(produced := s.produced + made), evicted), limits)
  {
    var evicted := SendEvicted(s.retained, s.link.value, s.now, limits, m, stuck);
    var next := Lose(Sent(s, limits, m, stuck).(produced := s.produced + made), evicted);
    SendKeepsOrder(s.retained, s.link.value, s.now, limits, m, stuck);
    SendOrigin(s, limits, m, stuck, made);
    forall t | t in next.produced
      ensures Holds(next.retained, t) || t in next.lost || (t.run in s.gateway.rows && !IsRunning(s.gateway, t.run))
    {
      if Holds(s.retained, t) || t in made {
        SendHolds(s.retained, s.link.value, s.now, limits, m, stuck, t);
      }
    }
  }

  lemma SendOrigin(s: Sys, limits: Limits, m: Message, stuck: bool, made: set<Terminal>)
    requires OriginInv(s) && s.link.Some?
    requires made == (if m.Update? then {m.terminal} else {}) && forall t :: t in made ==> t.status != Running
    ensures OriginInv(Sent(s, limits, m, stuck).(produced := s.produced + made))
  {
    var kept := if m.Update? then Retain(s.retained, s.now, limits, m.terminal) else s.retained;
    DrainOrigin(kept, s.now, limits, s.link.value.outbound, s.produced + made);
  }

  lemma CloseStep(s: Sys, limits: Limits)
    requires WorkerInv(s, limits) && Enabled(s, Close)
    ensures WorkerInv(Apply(s, limits, Close), limits)
  {
    var outbound := s.link.value.outbound;
    var next := Apply(s, limits, Close);
    DrainKeepsOrder(s.retained, s.now, limits, outbound);
    DrainOrigin(s.retained, s.now, limits, outbound, s.produced);
    forall t | t in s.produced && Holds(s.retained, t)
      ensures Holds(next.retained, t) || t in next.lost
    {
      DrainHolds(s.retained, s.now, limits, outbound, t);
    }
  }

  lemma ConnectStep(s: Sys, limits: Limits)
    requires WorkerInv(s, limits) && Enabled(s, Connect)
    ensures WorkerInv(Apply(s, limits, Connect), limits)
  {
    var next := Apply(s, limits, Connect);
    FilterKeepsOrder(s.retained, s.now, (r: Retained) => Fresh(r, s.now, limits));
    forall t | t in s.produced && Holds(s.retained, t)
      ensures Holds(next.retained, t) || t in next.lost
    {
      var r :| r in s.retained && r.terminal.run == t.run && r.terminal.ordinal >= t.ordinal;
      assert Fresh(r, s.now, limits) ==> r in next.retained;
    }
  }

  lemma TransmitStep(s: Sys, limits: Limits)
    requires WorkerInv(s, limits) && Enabled(s, Transmit)
    ensures WorkerInv(Apply(s, limits, Transmit), limits)
  {
    var outbound := s.link.value.outbound;
    assert forall m :: m in outbound[1..] ==> m in outbound;
    assert outbound[0] in outbound;
  }

  /** An acknowledgement only takes a message whose run is over. */
  lemma ReceiveAckStep(s: Sys, limits: Limits, ack: Ack)
    requires WorkerInv(s, limits) && AckInv(s.gateway, s.toWorker) && Enabled(s, ReceiveAck(ack))
    ensures WorkerInv(Apply(s, limits, ReceiveAck(ack)), limits)
  {
    var next := Apply(s, limits, ReceiveAck(ack));
    FilterKeepsOrder(s.retained, s.now, (r: Retained) => !(r.terminal.run == ack.run && r.terminal.ordinal == ack.ordinal));
    forall t | t in s.produced && Holds(s.retained, t)
      ensures Holds(next.retained, t) || t.run == ack.run
    {
      AcknowledgedHolds(s.retained, ack.run, ack.ordinal, t);
    }
  }

  lemma CrashStep(s: Sys, limits: Limits)
    requires WorkerInv(s, limits)
    ensures WorkerInv(Apply(s, limits, CrashWorker), limits)
  {
    forall t | t in s.produced && Holds(s.retained, t)
      ensures t in Apply(s, limits, CrashWorker).lost
    {
      var r :| r in s.retained && r.terminal.run == t.run && r.terminal.ordinal >= t.ordinal;
      assert r.terminal in StepEvicted(s, limits, CrashWorker);
    }
  }

  lemma StepKeepsInv(s: Sys, limits: Limits, e: Event)
    requires Inv(s, limits) && Enabled(s, e)
    ensures Inv(Apply(s, limits, e), limits)
  {
    HolderStep(s, limits, e);
    EndingStep(s, limits, e);
    SourceStep(s, limits, e);
    if ByGateway(e) || e.Elapse? {
      if ByGateway(e) {
        GatewayStep(s, limits, e);
      }
      WorkerUnderGatewayStep(s, limits, e);
    } else {
      match e
      case Connect => ConnectStep(s, limits);
      case Produce(t, stuck) => SendStep(s, limits, Update(t), stuck, {t});
      case SendOther(stuck) => SendStep(s, limits, Other, stuck, {});
      case Transmit => TransmitStep(s, limits);
      case Close => CloseStep(s, limits);
      case ReceiveAck(ack) => ReceiveAckStep(s, limits, ack);
      case CrashWorker => CrashStep(s, limits);
    }
  }

  ghost predicate Legal(s: Sys, limits: Limits, events: seq<Event>)
    decreases |events|
  {
    events == [] || (Enabled(s, events[0]) && Legal(Apply(s, limits, events[0]), limits, events[1..]))
  }

  ghost function Run(s: Sys, limits: Limits, events: seq<Event>): Sys
    requires Legal(s, limits, events)
    decreases |events|
  {
    if events == [] then s else Run(Apply(s, limits, events[0]), limits, events[1..])
  }

  lemma {:induction false} RunKeepsInv(s: Sys, limits: Limits, events: seq<Event>)
    requires Inv(s, limits) && Legal(s, limits, events)
    ensures Inv(Run(s, limits, events), limits)
    decreases |events|
  {
    if events != [] {
      StepKeepsInv(s, limits, events[0]);
      RunKeepsInv(Apply(s, limits, events[0]), limits, events[1..]);
    }
  }

  // ---------------------------------------------------------------- what every run satisfies

  /** Among all its writers, a run leaves running at most once, and has left it exactly when
      it is no longer running. */
  lemma LeavesRunningOnce(limits: Limits, events: seq<Event>, run: nat)
    requires Legal(INIT, limits, events)
    ensures var s := Run(INIT, limits, events);
      && s.exits[run] <= 1
      && (s.exits[run] == 1 <==> run in s.gateway.rows && s.gateway.rows[run].status != Running)
  {
    RunKeepsInv(INIT, limits, events);
  }

  /** The result that is stored: over every run, a run ended by a terminal update holds the
      status of that update, which its worker produced for that very run; a run that is over
      without one failed. So a run is resolved, escalated or exhausted only by a terminal
      message of its own that said so. */
  lemma StoredStatusIsReported(limits: Limits, events: seq<Event>, run: nat)
    requires Legal(INIT, limits, events)
    requires run in Run(INIT, limits, events).gateway.rows && Run(INIT, limits, events).gateway.rows[run].status != Running
    ensures var s := Run(INIT, limits, events); var status := s.gateway.rows[run].status;
      if run in s.endings then
        && s.endings[run].terminal.run == run && s.endings[run].terminal.status == status
        && (s.endings[run].worker == WORKER ==> s.endings[run].terminal in s.produced)
      else status == Failed
  {
    RunKeepsInv(INIT, limits, events);
  }

  /** An update of a running run that commits ends it, is recorded as its ending, and is
      acknowledged to its worker. */
  lemma CommittedUpdateEnds(limits: Limits, events: seq<Event>, a: Arriving)
    requires Legal(INIT, limits, events)
    requires Enabled(Run(INIT, limits, events), CommitUpdate(a, true))
    requires IsRunning(Run(INIT, limits, events).gateway, a.terminal.run)
    ensures var next := Apply(Run(INIT, limits, events), limits, CommitUpdate(a, true));
      && a.terminal.run in next.gateway.rows && next.gateway.rows[a.terminal.run].status == a.terminal.status != Running
      && a.terminal.run in next.endings && next.endings[a.terminal.run] == a
      && a.terminal.run !in next.gateway.holders
      && (a.worker == WORKER ==> Ack(a.terminal.run, a.terminal.ordinal) in next.toWorker)
  {
    RunKeepsInv(INIT, limits, events);
  }

  /** Leases: starting, renewing and taking in an update give a run 45 seconds; the expiry
      sweep ends a running run exactly when its lease has passed, a starting gateway exactly
      when it has none or its lease has passed. */
  lemma LeasesProtect(s: Sys, limits: Limits, run: nat, worker: string, t: Terminal)
    requires IsRunning(s.gateway, run)
    ensures Apply(s, limits, Start(run, worker)).gateway.rows[run] == RunRow(Running, Some(worker), Some(s.now + 45_000))
    ensures Enabled(s, RenewLease(run, worker)) ==>
      Apply(s, limits, RenewLease(run, worker)).gateway.rows[run] == s.gateway.rows[run].(lease := Some(s.now + 45_000))
    ensures Enabled(s, ReceiveUpdate(worker, t)) && t.run == run && AssignedTo(s.gateway, run, worker)
            && s.gateway.rows[run].worker == Some(worker) ==>
      var next := Apply(s, limits, ReceiveUpdate(worker, t)).gateway;
      next.rows[run] == s.gateway.rows[run].(lease := Some(s.now + 45_000)) && Arriving(worker, t) in next.arriving
    ensures IsRunning(Apply(s, limits, ExpireLease(run, true)).gateway, run) <==>
            s.gateway.rows[run].lease.None? || s.gateway.rows[run].lease.value >= s.now
    ensures IsRunning(Apply(s, limits, RestartGateway).gateway, run) <==>
            s.gateway.rows[run].lease.Some? && s.gateway.rows[run].lease.value >= s.now
  {}

  /** A cancellation that commits ends a running run and gives up its assignment. */
  lemma CancellationEnds(s: Sys, limits: Limits, run: nat)
    requires IsRunning(s.gateway, run)
    ensures var next := Apply(s, limits, CancelRun(run, true)).gateway;
      run in next.rows && next.rows[run].status == Failed && run !in next.holders
    ensures Apply(s, limits, CancelRun(run, false)).gateway == s.gateway
  {}

  /** A dispatch that fails ends a running run, and gives up its assignment in any case. */
  lemma FailedDispatchEnds(s: Sys, limits: Limits, run: nat)
    requires run in s.gateway.rows
    ensures var next := Apply(s, limits, FailDispatch(run)).gateway;
      && run !in next.holders && run in next.rows
      && next.rows[run] == (if s.gateway.rows[run].status == Running then s.gateway.rows[run].(status := Failed)
                            else s.gateway.rows[run])
      && forall other :: other != run ==>
           && (other in next.rows <==> other in s.gateway.rows) && (other in next.holders <==> other in s.gateway.holders)
           && (other in next.rows ==> next.rows[other] == s.gateway.rows[other])
  {}

  /** A transaction that is rolled back changes no row and acknowledges nothing. */
  lemma RolledBack(s: Sys, limits: Limits, a: Arriving)
    requires Enabled(s, CommitUpdate(a, false))
    ensures var next := Apply(s, limits, CommitUpdate(a, false));
      && next.gateway == s.gateway.(arriving := s.gateway.arriving - {a}) && next.toWorker == s.toWorker
      && next.endings == s.endings
    ensures Commit(s.gateway, a, false).1 == Refused
  {}

  /** Another process ends a running run in the table; this one keeps its assignment. */
  lemma EndedElsewhere(s: Sys, limits: Limits, run: nat)
    requires IsRunning(s.gateway, run)
    ensures var next := Apply(s, limits, FailElsewhere(run)).gateway;
      run in next.rows && next.rows[run].status == Failed && next.holders == s.gateway.holders
  {}

  /** An acknowledgement exists only for a run that is over. */
  lemma AckedMeansOver(limits: Limits, events: seq<Event>, ack: Ack)
    requires Legal(INIT, limits, events) && ack in Run(INIT, limits, events).toWorker
    ensures var s := Run(INIT, limits, events); ack.run in s.gateway.rows && s.gateway.rows[ack.run].status != Running
  {
    RunKeepsInv(INIT, limits, events);
  }

  /** End to end: a terminal message is not lost while its run is running, unless a limit or
      a crash of the worker took it. */
  lemma TerminalIsDelivered(limits: Limits, events: seq<Event>, t: Terminal)
    requires Legal(INIT, limits, events) && t in Run(INIT, limits, events).produced
    ensures var s := Run(INIT, limits, events);
      || (exists r :: r in s.retained && r.terminal.run == t.run && r.terminal.ordinal >= t.ordinal)
      || t in s.lost
      || (t.run in s.gateway.rows && s.gateway.rows[t.run].status != Running)
  {
    RunKeepsInv(INIT, limits, events);
  }

  ghost function Runs(terminals: set<Terminal>): set<nat> { set t | t in terminals :: t.run }

  lemma {:induction false} MoreProduced(s: Sys, limits: Limits, events: seq<Event>)
    requires Legal(s, limits, events)
    ensures s.now <= Run(s, limits, events).now && s.produced <= Run(s, limits, events).produced
    decreases |events|
  {
    if events != [] {
      MoreProduced(Apply(s, limits, events[0]), limits, events[1..]);
    }
  }

  /** Every message the worker holds or is given is of one of these runs. */
  ghost predicate OfRuns(s: Sys, e: Event, runs: set<nat>) {
    (forall t :: t in s.produced ==> t.run in runs) && (e.Produce? ==> e.terminal.run in runs)
  }

  lemma StepEvictsNothing(s: Sys, limits: Limits, e: Event, runs: set<nat>)
    requires WorkerInv(s, limits) && Enabled(s, e) && !e.CrashWorker? && OfRuns(s, e, runs)
    requires s.now <= limits.age && |runs| <= limits.size
    ensures StepEvicted(s, limits, e) == {}
  {
    match e
    case Produce(t, stuck) => SendEvictsNothing(s.retained, s.link.value, s.now, limits, Update(t), stuck, runs);
    case SendOther(stuck) => SendEvictsNothing(s.retained, s.link.value, s.now, limits, Other, stuck, runs);
    case Close => DrainEvictsNothing(s.retained, s.now, limits, s.link.value.outbound, runs);
    case _ =>
  }

  lemma LostOnlyEvicted(s: Sys, limits: Limits, e: Event)
    requires Enabled(s, e) && StepEvicted(s, limits, e) == {}
    ensures Apply(s, limits, e).lost == s.lost
  {}

  lemma ProducedRuns(s: Sys, limits: Limits, e: Event, runs: set<nat>)
    requires Enabled(s, e) && Runs(Apply(s, limits, e).produced) <= runs
    ensures OfRuns(s, e, runs)
  {
    var produced := Apply(s, limits, e).produced;
    assert forall t :: t in produced ==> t.run in Runs(produced);
  }

  lemma {:induction false} LosesNothing(s: Sys, limits: Limits, events: seq<Event>, runs: set<nat>)
    requires Inv(s, limits) && Legal(s, limits, events) && CrashWorker !in events && |runs| <= limits.size
    requires Run(s, limits, events).now <= limits.age && Runs(Run(s, limits, events).produced) <= runs
    ensures Run(s, limits, events).lost == s.lost
    decreases |events|
  {
    if events != [] {
      var next := Apply(s, limits, events[0]);
      MoreProduced(next, limits, events[1..]);
      assert s.now <= next.now <= limits.age;
      assert forall x :: x in Runs(next.produced) ==> x in Runs(Run(next, limits, events[1..]).produced);
      ProducedRuns(s, limits, events[0], runs);
      StepEvictsNothing(s, limits, events[0], runs);
      LostOnlyEvicted(s, limits, events[0]);
      StepKeepsInv(s, limits, events[0]);
      LosesNothing(next, limits, events[1..], runs);
    }
  }

  /** A worker that does not crash, with room for one message per run and none of them too
      old, loses nothing: every terminal message it made is retained or its run is over. */
  lemma NothingIsLost(limits: Limits, events: seq<Event>, t: Terminal)
    requires Legal(INIT, limits, events) && CrashWorker !in events && t in Run(INIT, limits, events).produced
    requires Run(INIT, limits, events).now <= limits.age && |Runs(Run(INIT, limits, events).produced)| <= limits.size
    ensures var s := Run(INIT, limits, events);
      || (exists r :: r in s.retained && r.terminal.run == t.run && r.terminal.ordinal >= t.ordinal)
      || (t.run in s.gateway.rows && s.gateway.rows[t.run].status != Running)
  {
    RunKeepsInv(INIT, limits, []);
    LosesNothing(INIT, limits, events, Runs(Run(INIT, limits, events).produced));
    TerminalIsDelivered(limits, events, t);
  }

  /** A retained message disappears, with nothing newer for its run in its place, only on an
      acknowledgement that names its run, by a limit, or with the process: never because a
      queue was full or a stream closed. */
  lemma DropNeedsReason(s: Sys, limits: Limits, e: Event, x: Terminal)
    requires Inv(s, limits) && Enabled(s, e)
    requires Holds(s.retained, x)
    ensures || Holds(Apply(s, limits, e).retained, x)
            || (e.ReceiveAck? && e.ack.run == x.run && e.ack.ordinal >= x.ordinal && Retains(s.retained, x.run, e.ack.ordinal))
            || Covers(StepEvicted(s, limits, e), x)
  {
    match e
    case Connect =>
      var r :| r in s.retained && r.terminal.run == x.run && r.terminal.ordinal >= x.ordinal;
      assert Fresh(r, s.now, limits) ==> r in Apply(s, limits, e).retained;
    case Produce(t, stuck) => SendHolds(s.retained, s.link.value, s.now, limits, Update(t), stuck, x);
    case SendOther(stuck) => SendHolds(s.retained, s.link.value, s.now, limits, Other, stuck, x);
    case Close => DrainHolds(s.retained, s.now, limits, s.link.value.outbound, x);
    case ReceiveAck(ack) =>
      var r :| r in s.retained && r.terminal.run == x.run && r.terminal.ordinal >= x.ordinal;
      assert r in Apply(s, limits, e).retained || (r.terminal.run == ack.run && r.terminal.ordinal == ack.ordinal);
    case _ =>
  }

  /** Every retained message that is not too old is sent again on each new connection, and
      kept; the others go. */
  lemma ConnectResends(s: Sys, limits: Limits, r: Retained)
    requires Enabled(s, Connect) && r in s.retained
    ensures r in Apply(s, limits, Connect).retained <==> r.at + limits.age >= s.now
    ensures r.at + limits.age >= s.now ==> r.terminal in Apply(s, limits, Connect).toGateway
  {}

  /** The way out of a worker: what it sends joins the queue of an open connection, and
      leaves it for the gateway from the front. */
  lemma QueueIsSent(s: Sys, limits: Limits, t: Terminal)
    requires s.link.Some?
    ensures t.status != Running && !s.link.value.closing ==>
              Apply(s, limits, Produce(t, false)).link == Some(Link(s.link.value.outbound + [Update(t)], false))
    ensures !s.link.value.closing ==>
              Apply(s, limits, SendOther(false)).link == Some(Link(s.link.value.outbound + [Other], false))
    ensures t.status != Running && !s.link.value.closing ==>
              Apply(s, limits, Produce(t, true)).link == Some(Link([Finish], true))
    ensures Enabled(s, Transmit) ==> var next := Apply(s, limits, Transmit);
              && next.link == Some(Link(s.link.value.outbound[1..], s.link.value.closing))
              && (s.link.value.outbound[0].Update? ==> s.link.value.outbound[0].terminal in next.toGateway)
  {}

  /** A connection that closes keeps what it had queued, but for the limits. */
  lemma ClosingKeeps(s: Sys, limits: Limits, x: Terminal)
    requires WorkerInv(s, limits) && Enabled(s, Close) && Update(x) in s.link.value.outbound
    ensures var next := Apply(s, limits, Close);
      next.link.None? && (Holds(next.retained, x) || Covers(StepEvicted(s, limits, Close), x))
  {
    DrainHolds(s.retained, s.now, limits, s.link.value.outbound, x);
  }

  // ---------------------------------------------------------------- what a replay meets

  /** A terminal message of the worker the row names: taken in while the run is running and
      assigned, acknowledged once it is over and unassigned, refused otherwise. */
  lemma ReplayVerdict(g: Registry, worker: string, t: Terminal, now: nat)
    requires t.run in g.rows && g.rows[t.run].worker == Some(worker)
    ensures var verdict := Arrive(g, worker, t, now).1;
      && (verdict == Accepted <==> AssignedTo(g, t.run, worker) && IsRunning(g, t.run))
      && (verdict == Acked <==> !AssignedTo(g, t.run, worker) && !IsRunning(g, t.run))
      && (verdict == Refused <==> (AssignedTo(g, t.run, worker) <==> !IsRunning(g, t.run)))
  {}

  /** A message of a worker the row does not name, or for a run there is no row of, is
      refused and changes nothing. */
  lemma StrangerIsRefused(g: Registry, worker: string, t: Terminal, now: nat)
    requires t.run in g.rows ==> g.rows[t.run].worker != Some(worker)
    ensures Arrive(g, worker, t, now) == (g, Refused)
  {}

  /** In every reachable state: the worker a row names gets its terminal message
      acknowledged once the run is over, unless another process ended the run. */
  lemma FinishedIsAcked(limits: Limits, events: seq<Event>, worker: string, t: Terminal, now: nat)
    requires Legal(INIT, limits, events)
    requires var s := Run(INIT, limits, events);
      t.run in s.gateway.rows && s.gateway.rows[t.run].worker == Some(worker)
      && s.gateway.rows[t.run].status != Running && t.run !in s.elsewhere
    ensures Arrive(Run(INIT, limits, events).gateway, worker, t, now).1 == Acked
  {
    RunKeepsInv(INIT, limits, events);
  }

  /** A committed terminal status. Acknowledging a run that is still running takes a message
      whose own status is running. */
  lemma RunningIsAckedIff(g: Registry, a: Arriving)
    requires a.terminal.run in g.rows
    ensures Commit(g, a, true).1 == Acked
    ensures IsRunning(Commit(g, a, true).0, a.terminal.run) <==> IsRunning(g, a.terminal.run) && a.terminal.status == Running
  {}

  /** A run that was ended by another process while this gateway still has it assigned: its
      worker's message stays refused until this gateway restarts or forgets the assignment. */
  lemma StaysRefused(s: Sys, limits: Limits, e: Event, run: nat, worker: string)
    requires Enabled(s, e) && run in s.gateway.rows && !IsRunning(s.gateway, run) && AssignedTo(s.gateway, run, worker)
    requires !e.RestartGateway? && !(e.FailDispatch? && e.run == run)
    requires !(e.CommitUpdate? && e.arriving.terminal.run == run)
    ensures !IsRunning(Apply(s, limits, e).gateway, run) && AssignedTo(Apply(s, limits, e).gateway, run, worker)
  {
    var g := s.gateway;
    match e
    case Start(other, starter) => WritersKeepStuck(g, run, worker, other, starter, s.now, None, true);
    case FailDispatch(other) => WritersKeepStuck(g, run, worker, other, "", s.now, None, true);
    case CancelRun(other, commits) => WritersKeepStuck(g, run, worker, other, "", s.now, None, commits);
    case ExpireLease(other, commits) => WritersKeepStuck(g, run, worker, other, "", s.now, Some(s.now), commits);
    case FailElsewhere(other) => WritersKeepStuck(g, run, worker, other, "", s.now, None, true);
    case ReceiveUpdate(sender, t) => UpdatesKeepStuck(g, run, worker, sender, t, s.now, Arriving(sender, t), false);
    case CommitUpdate(a, ok) => UpdatesKeepStuck(g, run, worker, a.worker, a.terminal, s.now, a, ok);
    case _ =>
  }

  ghost predicate Stuck(g: Registry, run: nat, worker: string) {
    run in g.rows && !IsRunning(g, run) && AssignedTo(g, run, worker)
  }

  lemma WritersKeepStuck(g: Registry, run: nat, worker: string, other: nat, starter: string, now: nat,
                         leaseBefore: Option<nat>, commits: bool)
    requires Stuck(g, run, worker)
    ensures Stuck(StartRun(g, other, starter, now), run, worker) && Stuck(Cancel(g, other, leaseBefore, commits), run, worker)
    ensures Stuck(g.(rows := Fail(g.rows, other)), run, worker)
    ensures other != run ==> Stuck(DispatchFails(g, other), run, worker)
  {}

  lemma UpdatesKeepStuck(g: Registry, run: nat, worker: string, sender: string, t: Terminal, now: nat, a: Arriving, ok: bool)
    requires Stuck(g, run, worker)
    ensures Stuck(Arrive(g, sender, t, now).0, run, worker)
    ensures a.terminal.run != run ==> Stuck(Commit(g, a, ok).0, run, worker)
  {}

  lemma {:induction false} Extend(s: Sys, limits: Limits, events: seq<Event>, e: Event)
    requires Legal(s, limits, events) && Enabled(Run(s, limits, events), e)
    ensures Legal(s, limits, events + [e]) && Run(s, limits, events + [e]) == Apply(Run(s, limits, events), limits, e)
    decreases |events|
  {
    if events == [] {
      assert ([] + [e])[1..] == [];
    } else {
      assert (events + [e])[1..] == events[1..] + [e];
      Extend(Apply(s, limits, events[0]), limits, events[1..], e);
    }
  }

  lemma Then(limits: Limits, events: seq<Event>, e: Event) returns (longer: seq<Event>)
    requires Legal(INIT, limits, events) && Enabled(Run(INIT, limits, events), e)
    ensures Legal(INIT, limits, longer) && Run(INIT, limits, longer) == Apply(Run(INIT, limits, events), limits, e)
  {
    Extend(INIT, limits, events, e);
    longer := events + [e];
  }

  const RESULT := Terminal(1, 5, Resolved)

  const HELD := map[1 := RunRow(Running, Some(WORKER), Some(RUN_LEASE_MS))]

  lemma Assigned(limits: Limits) returns (events: seq<Event>)
    ensures Legal(INIT, limits, events)
    ensures Run(INIT, limits, events) == INIT.(gateway := Registry(HELD, map[1 := WORKER], {}))
  {
    events := Then(limits, [], CreateRun(1));
    events := Then(limits, events, Start(1, WORKER));
  }

  /** The worker resolved run 1 and its message is on the way. */
  lemma ResultSent(limits: Limits) returns (events: seq<Event>)
    requires limits.size > 0
    ensures Legal(INIT, limits, events)
    ensures var s := Run(INIT, limits, events);
      && s.now == 0 && s.gateway.rows == HELD
      && s.retained == [Retained(0, RESULT)] && RESULT in s.toGateway && RESULT in s.produced && s.lost == {}
  {
    events := Assigned(limits);
    events := Then(limits, events, Connect);
    events := Then(limits, events, Produce(RESULT, false));
    events := Then(limits, events, Transmit);
  }

  lemma ResultRefused(limits: Limits) returns (events: seq<Event>)
    requires limits.size > 0
    ensures Legal(INIT, limits, events)
    ensures var s := Run(INIT, limits, events);
      && s.now == 0 && s.gateway == Registry(HELD, map[], {})
      && s.retained == [Retained(0, RESULT)] && RESULT in s.toGateway && RESULT in s.produced && s.lost == {}
  {
    events := ResultSent(limits);
    events := Then(limits, events, RestartGateway);
    events := Then(limits, events, ReceiveUpdate(WORKER, RESULT));
  }

  /** A gateway restart between a run's result and its arrival: the new process knows no
      assignment, refuses the result while the lease is live, and lets the lease run out.
      The run ends failed, the resolved result is acknowledged and forgotten. */
  lemma RestartLosesResult(limits: Limits) returns (events: seq<Event>)
    requires limits.size > 0
    ensures Legal(INIT, limits, events)
    ensures var s := Run(INIT, limits, events);
      && RESULT in s.produced && s.lost == {} && s.retained == []
      && 1 in s.gateway.rows && s.gateway.rows[1].status == Failed
  {
    events := ResultRefused(limits);
    events := Then(limits, events, Elapse(RUN_LEASE_MS + 1));
    events := Then(limits, events, ExpireLease(1, true));
    events := Then(limits, events, ReceiveUpdate(WORKER, RESULT));
    events := Then(limits, events, ReceiveAck(Ack(1, 5)));
  }

  // ---------------------------------------------------------------- the gateway's own fields

  /** Class Gateway, as far as agent runs go, with the agent_runs table. A method is what
      happens between two points at which the original waits. */
  class RunGateway {
    var runs: map<nat, RunRow>         // the table
    var runAgents: map<nat, string>
    var arriving: set<Arriving>

    ghost function State(): Registry
      reads this
    {
      Registry(runs, runAgents, arriving)
    }

    constructor (runs: map<nat, RunRow>)
      ensures State() == Registry(runs, map[], {})
    {
      this.runs, runAgents, arriving := runs, map[], {};
    }

    /** Fails for a run that is not running. */
    method Start(run: nat, worker: string, now: nat) returns (ok: bool)
      modifies this
      ensures State() == StartRun(old(State()), run, worker, now)
      ensures ok <==> IsRunning(old(State()), run)
    {
      if run !in runs || runs[run].status != Running {
        return false;
      }
      runs := runs[run := runs[run].(worker := Some(worker), lease := Some(now + RUN_LEASE_MS))];
      runAgents := runAgents[run := worker];
      return true;
    }

    method CancelRun(run: nat, leaseBefore: Option<nat>, commits: bool) returns (cancelled: bool)
      modifies this
      ensures State() == Cancel(old(State()), run, leaseBefore, commits)
      ensures cancelled <==> Left(old(runs), runs) == {run}
      ensures !cancelled ==> State() == old(State())
    {
      if run !in runs || runs[run].status != Running {
        return false;
      }
      if leaseBefore.Some? && (runs[run].lease.None? || runs[run].lease.value >= leaseBefore.value) {
        return false;
      }
      if !commits {
        return false;
      }
      runs := runs[run := runs[run].(status := Failed, lease := None)];
      runAgents := runAgents - {run};
      return true;
    }

    /** persistRunUpdate up to its transaction. */
    method ReceiveTerminal(worker: string, t: Terminal, now: nat) returns (verdict: Verdict)
      modifies this
      ensures (State(), verdict) == Arrive(old(State()), worker, t, now)
    {
      if t.run !in runAgents || runAgents[t.run] != worker {
        if t.run in runs && runs[t.run].worker == Some(worker) && runs[t.run].status != Running {
          return Acked;
        }
        return Refused;
      }
      if t.run !in runs || runs[t.run].status != Running || runs[t.run].worker != Some(worker) {
        return Refused;
      }
      runs := runs[t.run := runs[t.run].(lease := Some(now + RUN_LEASE_MS))];
      arriving := arriving + {Arriving(worker, t)};
      return Accepted;
    }

    /** Its transaction, and what follows a commit. */
    method PersistTerminal(a: Arriving, ok: bool) returns (verdict: Verdict)
      modifies this
      ensures (State(), verdict) == Commit(old(State()), a, ok)
      ensures verdict == Acked && a.terminal.status != Running ==> !IsRunning(State(), a.terminal.run)
    {
      var run := a.terminal.run;
      arriving := arriving - {a};
      if !ok || run !in runs {
        return Refused;
      }
      if runs[run].status == Running {
        runs := runs[run := runs[run].(status := a.terminal.status, lease := None)];
      }
      runAgents := runAgents - {run};
      return Acked;
    }
  }
}
