/**
 * Recurrence sweeps (scheduling-runtime.ts) over the table of claimed slots. Several
 * gateways may sweep at once; every database statement is one atomic step and a
 * claim's transaction is one step that commits or rolls back.
 */
module RecurrenceSweeps {
  import opened Sequences
  import opened Calendar
  import opened Scheduling

  const BACKFILL_WINDOW_MS: int := 7 * MS_PER_DAY

  /** A claimed slot; sweptAt is the clock of the sweep that claimed it. */
  datatype Row = Row(occursAt: int, ticket: Option<nat>, sweptAt: int)

  /** The occurrence table and the tickets generated so far, each with its slot. */
  datatype Table = Table(rows: map<Key, Row>, tickets: seq<Key>)

  type Rules = r: map<string, Rule> | forall id :: id in r ==> r[id].id == id && Stored(r[id]) witness map[]

  datatype Outcome = Skipped | Stale | Created | Failed

  // ---------------------------------------------------------------- one claim

  /** Both unique indexes of the table: the idempotency key, and (rule, instant). */
  predicate Conflict(t: Table, rule: Rule, n: nat) {
    || Key(rule.id, n) in t.rows
    || exists k :: k in t.rows && k.ruleId == rule.id && At(t.rows[k].occursAt) == Occurrence(rule, n)
  }

  /** One claim transaction. An Invalid date cannot be stored; `commits` is false when
      the source ticket is missing or the database rolls the transaction back. */
  function Claim(t: Table, rule: Rule, n: nat, now: int, commits: bool): (Table, Outcome) {
    var key := Key(rule.id, n);
    if Occurrence(rule, n).Invalid? then (t, Failed)
    else if Conflict(t, rule, n) then (t, Skipped)
    else
      var at := Occurrence(rule, n).ms;
      if !commits then (t, Failed)
      else if at < now - BACKFILL_WINDOW_MS then (t.(rows := t.rows[key := Row(at, None, now)]), Stale)
      else (Table(t.rows[key := Row(at, Some(|t.tickets|), now)], t.tickets + [key]), Created)
  }

  predicate Claimed(t: Table, id: string, n: nat) { Key(id, n) in t.rows }

  ghost predicate AllClaimedBelow(t: Table, id: string, n: nat) {
    forall m: nat :: m < n ==> Claimed(t, id, m)
  }

  ghost predicate TableInv(t: Table, rules: Rules) { RowsInv(t, rules) && TicketsInv(t) }

  ghost predicate RowsInv(t: Table, rules: Rules) {
    && (forall k :: k in t.rows ==> k.ruleId in rules && Occurrence(rules[k.ruleId], k.ordinal) == At(t.rows[k].occursAt))
    && (forall k :: k in t.rows ==> AllClaimedBelow(t, k.ruleId, k.ordinal))
    && (forall k :: k in t.rows ==>
          (t.rows[k].ticket.Some? <==> t.rows[k].occursAt >= t.rows[k].sweptAt - BACKFILL_WINDOW_MS))
  }

  /** Tickets and the rows that have one name each other. */
  ghost predicate TicketsInv(t: Table) {
    && (forall k :: k in t.rows && t.rows[k].ticket.Some? ==>
          t.rows[k].ticket.value < |t.tickets| && t.tickets[t.rows[k].ticket.value] == k)
    && (forall i :: 0 <= i < |t.tickets| ==> t.tickets[i] in t.rows && t.rows[t.tickets[i]].ticket == Some(i))
  }

  /** Slots are never released, and a claimed slot keeps its ticket. */
  ghost predicate Grows(a: Table, b: Table) {
    && a.tickets <= b.tickets
    && forall k :: k in a.rows ==> k in b.rows && b.rows[k] == a.rows[k]
  }

  lemma ConflictIsClaimed(t: Table, rules: Rules, rule: Rule, n: nat)
    requires TableInv(t, rules) && rule.id in rules && rules[rule.id] == rule
    requires Occurrence(rule, n).At?
    ensures Conflict(t, rule, n) <==> Claimed(t, rule.id, n)
  {
    if k :| k in t.rows && k.ruleId == rule.id && At(t.rows[k].occursAt) == Occurrence(rule, n) {
      OccurrenceValue(rule, n);
      OccurrenceValue(rule, k.ordinal);
      if k.ordinal < n {
        OccurrencesIncrease(rule, k.ordinal, n);
      } else if n < k.ordinal {
        OccurrencesIncrease(rule, n, k.ordinal);
      }
      assert k == Key(rule.id, n);
    }
  }

  lemma BelowGrows(a: Table, b: Table)
    requires Grows(a, b)
    ensures forall id, n: nat :: AllClaimedBelow(a, id, n) ==> AllClaimedBelow(b, id, n)
  {
    forall id, n: nat, m: nat | AllClaimedBelow(a, id, n) && m < n
      ensures Claimed(b, id, m)
    {
      assert Claimed(a, id, m);
    }
  }

  /** A new row on top of a claimed prefix, with the next ticket or none. */
  lemma AddRow(t: Table, rules: Rules, rule: Rule, n: nat, row: Row, u: Table)
    requires TableInv(t, rules) && rule.id in rules && rules[rule.id] == rule
    requires AllClaimedBelow(t, rule.id, n) && !Claimed(t, rule.id, n)
    requires Occurrence(rule, n) == At(row.occursAt)
    requires row.ticket.Some? <==> row.occursAt >= row.sweptAt - BACKFILL_WINDOW_MS
    requires row.ticket.Some? ==> row.ticket.value == |t.tickets|
    requires u == Table(t.rows[Key(rule.id, n) := row],
                        if row.ticket.Some? then t.tickets + [Key(rule.id, n)] else t.tickets)
    ensures TableInv(u, rules) && Grows(t, u)
  {
    BelowGrows(t, u);
    AddTicket(t, Key(rule.id, n), row, u);
  }

  lemma AddTicket(t: Table, key: Key, row: Row, u: Table)
    requires TicketsInv(t) && key !in t.rows && (row.ticket.Some? ==> row.ticket.value == |t.tickets|)
    requires u == Table(t.rows[key := row], if row.ticket.Some? then t.tickets + [key] else t.tickets)
    ensures TicketsInv(u)
  {}

  /** Claiming a slot whose predecessors are all claimed keeps the table's invariant. */
  lemma ClaimKeepsInv(t: Table, rules: Rules, rule: Rule, n: nat, now: int, commits: bool)
    requires TableInv(t, rules) && rule.id in rules && rules[rule.id] == rule
    requires AllClaimedBelow(t, rule.id, n)
    ensures var (u, outcome) := Claim(t, rule, n, now, commits);
            && TableInv(u, rules) && Grows(t, u)
            && (outcome != Failed ==> Claimed(u, rule.id, n))
            && (outcome == Failed ==> u == t)
  {
    var (u, outcome) := Claim(t, rule, n, now, commits);
    if Occurrence(rule, n).At? {
      ConflictIsClaimed(t, rules, rule, n);
      if outcome == Stale || outcome == Created {
        AddRow(t, rules, rule, n, u.rows[Key(rule.id, n)], u);
      }
    }
  }

  // ---------------------------------------------------------------- the cursor

  ghost predicate IsLast(t: Table, id: string, last: Option<int>) {
    match last
    case None => forall k :: k in t.rows ==> k.ruleId != id
    case Some(at) =>
      && (exists k :: k in t.rows && k.ruleId == id && t.rows[k].occursAt == at)
      && (forall k :: k in t.rows && k.ruleId == id ==> t.rows[k].occursAt <= at)
  }

  /** What the fast cursor answers for the last claimed instant. */
  ghost function CursorStart(rule: Rule, last: Option<int>): nat
    requires Stored(rule)
  {
    if last.None? || last.value < rule.startsAt then 0 else FirstAfter(rule, last.value)
  }

  /** The cursor never skips an unclaimed slot. */
  lemma CursorBelow(t: Table, rules: Rules, rule: Rule, last: Option<int>)
    requires TableInv(t, rules) && rule.id in rules && rules[rule.id] == rule
    requires IsLast(t, rule.id, last)
    ensures AllClaimedBelow(t, rule.id, CursorStart(rule, last))
  {
    if last.Some? && last.value >= rule.startsAt {
      var k :| k in t.rows && k.ruleId == rule.id && t.rows[k].occursAt == last.value;
      OccurrenceValue(rule, k.ordinal);
      assert AllClaimedBelow(t, rule.id, k.ordinal);
      forall m: nat | m < CursorStart(rule, last)
        ensures Claimed(t, rule.id, m)
      {
        FirstAfterSplits(rule, last.value, m);
        if k.ordinal < m {
          OccurrencesIncrease(rule, k.ordinal, m);
        } else if m == k.ordinal {
          assert k == Key(rule.id, m);
        }
      }
    }
  }

  /** An occurrence that was stored is a regular instant, so the fast cursor is exact there. */
  lemma StoredInstantIsRegular(rule: Rule, n: nat)
    requires Stored(rule) && Representable(rule, n) && rule.startsAt <= OccurrenceMs(rule, n)
    ensures Regular(rule, OccurrenceMs(rule, n)) && ValidDate(OccurrenceMs(rule, n))
  {
    if rule.frequency == Monthly {
      MonthlyFields(rule, n);
    }
  }

  /** Existing keys a sweep reads: those of the rule in its window. */
  ghost function ExistingKeys(t: Table, id: string, windowStart: int, now: int): set<Key> {
    set k | k in t.rows && k.ruleId == id && windowStart <= t.rows[k].occursAt <= now
  }

  // ---------------------------------------------------------------- interleaved sweeps

  datatype Phase =
    | Between
    | AtCursor(rule: Rule, start: nat, windowStart: int)
    | Claiming(rule: Rule, todo: seq<nat>)

  datatype Sweep = Sweep(
    now: int, limit: int, budget: nat, created: nat, skipped: nat, stale: nat, failed: nat, phase: Phase)

  /** clocks: the clock of the sweep that claimed a slot. */
  datatype System = System(table: Table, sweeps: map<nat, Sweep>, clocks: map<Key, int>)

  /** One atomic step of sweep p. */
  datatype Step =
    | Begin(p: nat, now: int, limit: int)
    | ReadCursor(p: nat, rule: Rule, last: Option<int>)
    | ReadExisting(p: nat, hi: nat)
    | ClaimNext(p: nat, commits: bool)
    | EndRule(p: nat)
    | Crash(p: nat)

  function Clamp(limit: int): nat { Min(Max(limit, 1), 1000) }

  ghost predicate Enabled(s: System, rules: Rules, step: Step) {
    match step
    case Begin(p, _, _) => p !in s.sweeps
    case ReadCursor(p, rule, last) =>
      && p in s.sweeps && s.sweeps[p].phase.Between? && s.sweeps[p].budget > 0
      && rule.id in rules && rules[rule.id] == rule && IsLast(s.table, rule.id, last)
    case ReadExisting(p, _) => p in s.sweeps && s.sweeps[p].phase.AtCursor?
    case ClaimNext(p, _) => p in s.sweeps && s.sweeps[p].phase.Claiming? && s.sweeps[p].phase.todo != [] && s.sweeps[p].budget > 0
    case EndRule(p) => p in s.sweeps && s.sweeps[p].phase.Claiming? && s.sweeps[p].phase.todo == []
    case Crash(p) => p in s.sweeps
  }

  /** The counters after one claim's outcome. */
  function Count(w: Sweep, outcome: Outcome): Sweep
    requires w.phase.Claiming? && w.phase.todo != [] && w.budget > 0
  {
    var next := w.(phase := w.phase.(todo := w.phase.todo[1..]), budget := w.budget - 1);
    match outcome
    case Skipped => next.(skipped := w.skipped + 1)
    case Stale => next.(stale := w.stale + 1)
    case Created => next.(created := w.created + 1)
    case Failed => w.(phase := Between, failed := w.failed + 1)
  }

  ghost function Apply(s: System, rules: Rules, step: Step): System
    requires Enabled(s, rules, step)
  {
    match step
    case Begin(p, now, limit) =>
      s.(sweeps := s.sweeps[p := Sweep(now, limit, Clamp(limit), 0, 0, 0, 0, Between)])
    case ReadCursor(p, rule, last) =>
      var w := s.sweeps[p];
      var windowStart := if last.Some? then last.value else rule.startsAt;
      s.(sweeps := s.sweeps[p := w.(phase := AtCursor(rule, CursorStart(rule, last), windowStart))])
    case ReadExisting(p, hi) =>
      var w := s.sweeps[p];
      var existing := ExistingKeys(s.table, w.phase.rule.id, w.phase.windowStart, w.now);
      var todo := FirstN(Unclaimed(existing, w.phase.rule.id, w.phase.start, hi), w.budget);
      s.(sweeps := s.sweeps[p := w.(phase := Claiming(w.phase.rule, todo))])
    case ClaimNext(p, commits) =>
      var w := s.sweeps[p];
      var (table, outcome) := Claim(s.table, w.phase.rule, w.phase.todo[0], w.now, commits);
      System(table, s.sweeps[p := Count(w, outcome)],
             s.clocks + map k | k in table.rows && k !in s.table.rows :: w.now)
    case EndRule(p) => s.(sweeps := s.sweeps[p := s.sweeps[p].(phase := Between)])
    case Crash(p) => s.(sweeps := s.sweeps - {p})
  }

  /** Slots a sweep still has to claim start where the claimed prefix ends. */
  ghost predicate TodoInv(t: Table, id: string, todo: seq<nat>) {
    forall i, m: nat :: 0 <= i < |todo| && m < todo[i] ==> Claimed(t, id, m) || m in todo[..i]
  }

  ghost predicate SweepInv(t: Table, rules: Rules, w: Sweep) {
    && w.created + w.skipped + w.stale + w.budget == Clamp(w.limit)
    && match w.phase
       case Between => true
       case AtCursor(rule, start, _) =>
         rule.id in rules && rules[rule.id] == rule && AllClaimedBelow(t, rule.id, start)
       case Claiming(rule, todo) =>
         rule.id in rules && rules[rule.id] == rule && |todo| <= w.budget && TodoInv(t, rule.id, todo)
  }

  ghost predicate ClockInv(t: Table, clocks: map<Key, int>) {
    clocks.Keys == t.rows.Keys && forall k :: k in clocks ==> t.rows[k].sweptAt == clocks[k]
  }

  ghost predicate SystemInv(s: System, rules: Rules) {
    && TableInv(s.table, rules)
    && ClockInv(s.table, s.clocks)
    && forall p :: p in s.sweeps ==> SweepInv(s.table, rules, s.sweeps[p])
  }

  /** How a sweep goes from rule to rule: it starts with its limit cut to 1 .. 1000 and all
      counters at zero, takes the cursor from the last claimed instant, or from the rule's
      start, and is free for the next rule when its list is done. */
  lemma SweepAdvances(s: System, rules: Rules, p: nat, now: int, limit: int, rule: Rule, last: Option<int>)
    ensures Enabled(s, rules, Begin(p, now, limit)) ==>
      Apply(s, rules, Begin(p, now, limit)).sweeps
      == s.sweeps[p := Sweep(now, limit, if limit < 1 then 1 else if limit > 1000 then 1000 else limit, 0, 0, 0, 0, Between)]
    ensures Enabled(s, rules, ReadCursor(p, rule, last)) ==>
      Apply(s, rules, ReadCursor(p, rule, last)).sweeps
      == s.sweeps[p := s.sweeps[p].(phase := AtCursor(rule,
           if last.None? || last.value < rule.startsAt then 0 else FirstAfter(rule, last.value),
           if last.Some? then last.value else rule.startsAt))]
    ensures Enabled(s, rules, EndRule(p)) ==>
      Apply(s, rules, EndRule(p)).sweeps == s.sweeps[p := s.sweeps[p].(phase := Between)]
    ensures Enabled(s, rules, Crash(p)) ==> Apply(s, rules, Crash(p)) == s.(sweeps := s.sweeps - {p})
  {}

  /** What a sweep lists: no more than its budget, from the cursor on, and no slot that is
      claimed in its window. */
  lemma ListIsUnclaimed(s: System, rules: Rules, p: nat, hi: nat)
    requires Enabled(s, rules, ReadExisting(p, hi))
    ensures var w := s.sweeps[p]; var next := Apply(s, rules, ReadExisting(p, hi)).sweeps[p];
      && next == w.(phase := next.phase) && next.phase.Claiming? && next.phase.rule == w.phase.rule
      && |next.phase.todo| <= w.budget
      && (forall n :: n in next.phase.todo ==>
            && w.phase.start <= n < hi
            && (Key(w.phase.rule.id, n) in s.table.rows ==>
                  !(w.phase.windowStart <= s.table.rows[Key(w.phase.rule.id, n)].occursAt <= w.now)))
      && (|next.phase.todo| < w.budget ==>
            forall n: nat :: w.phase.start <= n < hi && Key(w.phase.rule.id, n) !in s.table.rows ==> n in next.phase.todo)
  {
    var w := s.sweeps[p];
    var existing := ExistingKeys(s.table, w.phase.rule.id, w.phase.windowStart, w.now);
    UnclaimedExact(existing, w.phase.rule.id, w.phase.start, hi);
    var open := Unclaimed(existing, w.phase.rule.id, w.phase.start, hi);
    assert forall n :: n in FirstN(open, w.budget) ==> n in open;
  }

  lemma SweepInvGrows(a: Table, b: Table, rules: Rules, w: Sweep)
    requires SweepInv(a, rules, w) && Grows(a, b)
    ensures SweepInv(b, rules, w)
  {
    BelowGrows(a, b);
    if w.phase.Claiming? {
      var id, todo := w.phase.rule.id, w.phase.todo;
      forall i, m: nat | 0 <= i < |todo| && m < todo[i]
        ensures Claimed(b, id, m) || m in todo[..i]
      {
        assert Claimed(a, id, m) || m in todo[..i];
      }
    }
  }

  /** What a sweep lists after reading: consecutive from the claimed prefix. */
  lemma ListedFromPrefix(t: Table, id: string, existing: set<Key>, start: nat, hi: nat, budget: nat)
    requires AllClaimedBelow(t, id, start)
    requires forall k :: k in existing ==> k in t.rows
    ensures TodoInv(t, id, FirstN(Unclaimed(existing, id, start, hi), budget))
  {
    var open := Unclaimed(existing, id, start, hi);
    var todo := FirstN(open, budget);
    UnclaimedExact(existing, id, start, hi);
    forall i, m: nat | 0 <= i < |todo| && m < todo[i]
      ensures Claimed(t, id, m) || m in todo[..i]
    {
      assert todo[i] == open[i] && open[i] in open;
      if m >= start && Key(id, m) !in existing {
        assert m in open;
        var j :| 0 <= j < |open| && open[j] == m;
        assert j < i;
        assert todo[..i][j] == m;
      }
    }
  }

  /** After the head is claimed, the rest of the list still starts where the prefix ends. */
  lemma TodoTail(t: Table, id: string, todo: seq<nat>)
    requires todo != [] && TodoInv(t, id, todo) && Claimed(t, id, todo[0])
    ensures TodoInv(t, id, todo[1..])
  {
    forall i, m: nat | 0 <= i < |todo| - 1 && m < todo[1..][i]
      ensures Claimed(t, id, m) || m in todo[1..][..i]
    {
      assert m < todo[i + 1];
      assert todo[..i + 1] == [todo[0]] + todo[1..][..i];
    }
  }

  lemma HeadOnPrefix(t: Table, id: string, todo: seq<nat>)
    requires todo != [] && TodoInv(t, id, todo)
    ensures AllClaimedBelow(t, id, todo[0])
  {
    assert todo[..0] == [];
  }

  lemma ClaimKeepsClocks(t: Table, clocks: map<Key, int>, rules: Rules, rule: Rule, n: nat, now: int, commits: bool)
    requires TableInv(t, rules) && ClockInv(t, clocks) && rule.id in rules && rules[rule.id] == rule
    ensures var u := Claim(t, rule, n, now, commits).0;
      ClockInv(u, clocks + map k | k in u.rows && k !in t.rows :: now)
  {}

  lemma ClaimKeepsSweeps(s: System, rules: Rules, p: nat, commits: bool)
    requires SystemInv(s, rules) && Enabled(s, rules, ClaimNext(p, commits))
    ensures var w := s.sweeps[p];
      var (table, outcome) := Claim(s.table, w.phase.rule, w.phase.todo[0], w.now, commits);
      && TableInv(table, rules) && Grows(s.table, table)
      && (forall q :: q in s.sweeps ==> SweepInv(table, rules, s.sweeps[q]))
      && SweepInv(table, rules, Count(w, outcome))
  {
    var w := s.sweeps[p];
    var rule, todo := w.phase.rule, w.phase.todo;
    HeadOnPrefix(s.table, rule.id, todo);
    ClaimKeepsInv(s.table, rules, rule, todo[0], w.now, commits);
    var (table, outcome) := Claim(s.table, rule, todo[0], w.now, commits);
    forall q | q in s.sweeps
      ensures SweepInv(table, rules, s.sweeps[q])
    {
      SweepInvGrows(s.table, table, rules, s.sweeps[q]);
    }
    if outcome != Failed {
      TodoTail(table, rule.id, todo);
    }
  }

  lemma ClaimStep(s: System, rules: Rules, p: nat, commits: bool)
    requires SystemInv(s, rules) && Enabled(s, rules, ClaimNext(p, commits))
    ensures SystemInv(Apply(s, rules, ClaimNext(p, commits)), rules)
    ensures Grows(s.table, Apply(s, rules, ClaimNext(p, commits)).table)
  {
    var w := s.sweeps[p];
    ClaimKeepsSweeps(s, rules, p, commits);
    ClaimKeepsClocks(s.table, s.clocks, rules, w.phase.rule, w.phase.todo[0], w.now, commits);
  }

  lemma StepKeepsInv(s: System, rules: Rules, step: Step)
    requires SystemInv(s, rules) && Enabled(s, rules, step)
    ensures SystemInv(Apply(s, rules, step), rules)
    ensures Grows(s.table, Apply(s, rules, step).table)
  {
    match step
    case Begin(p, now, limit) =>
    case ReadCursor(p, rule, last) =>
      CursorBelow(s.table, rules, rule, last);
    case ReadExisting(p, hi) =>
      var w := s.sweeps[p];
      ListedFromPrefix(s.table, w.phase.rule.id,
        ExistingKeys(s.table, w.phase.rule.id, w.phase.windowStart, w.now), w.phase.start, hi, w.budget);
    case ClaimNext(p, commits) =>
      ClaimStep(s, rules, p, commits);
    case EndRule(p) =>
    case Crash(p) =>
  }

  ghost predicate Legal(s: System, rules: Rules, steps: seq<Step>)
    decreases steps
  {
    steps == [] || (Enabled(s, rules, steps[0]) && Legal(Apply(s, rules, steps[0]), rules, steps[1..]))
  }

  ghost function Run(s: System, rules: Rules, steps: seq<Step>): System
    requires Legal(s, rules, steps)
    decreases steps
  {
    if steps == [] then s else Run(Apply(s, rules, steps[0]), rules, steps[1..])
  }

  const EMPTY: System := System(Table(map[], []), map[], map[])

  lemma {:induction false} RunKeepsInv(s: System, rules: Rules, steps: seq<Step>)
    requires SystemInv(s, rules) && Legal(s, rules, steps)
    ensures SystemInv(Run(s, rules, steps), rules)
    ensures Grows(s.table, Run(s, rules, steps).table)
    decreases steps
  {
    if steps != [] {
      StepKeepsInv(s, rules, steps[0]);
      RunKeepsInv(Apply(s, rules, steps[0]), rules, steps[1..]);
    }
  }

  ghost function KeysBelow(id: string, k: nat): (keys: set<Key>)
    ensures |keys| == k
    ensures forall key :: key in keys <==> key.ruleId == id && key.ordinal < k
  {
    if k == 0 then {} else KeysBelow(id, k - 1) + {Key(id, k - 1)}
  }

  /** Downward closed and finite: the claimed ordinals of a rule are 0 .. k-1. */
  lemma ClaimedIsPrefix(t: Table, rules: Rules, id: string) returns (k: nat)
    requires TableInv(t, rules)
    ensures forall n: nat :: Claimed(t, id, n) <==> n < k
  {
    k := 0;
    while Claimed(t, id, k)
      invariant AllClaimedBelow(t, id, k) && k <= |t.rows|
      decreases |t.rows| - k
    {
      k := k + 1;
      assert forall key :: key in KeysBelow(id, k) ==> Claimed(t, id, key.ordinal);
      SubsetSize(KeysBelow(id, k), t.rows.Keys);
    }
    forall n: nat | Claimed(t, id, n)
      ensures n < k
    {
      assert AllClaimedBelow(t, id, n);
    }
  }

  /** Any interleaving of sweeps, crashes and rollbacks: per rule a prefix of the ordinals
      is claimed, a slot has a ticket exactly when it was not older than seven days on the
      clock of the sweep that claimed it, no two tickets share a slot, and a sweep's counters
      and its remaining budget are its limit, cut to 1 and 1000. */
  lemma SweepsAreSafe(rules: Rules, steps: seq<Step>, id: string) returns (k: nat)
    requires Legal(EMPTY, rules, steps)
    ensures var s := Run(EMPTY, rules, steps);
      && (forall n: nat :: Claimed(s.table, id, n) <==> n < k)
      && s.clocks.Keys == s.table.rows.Keys
      && (forall key :: key in s.table.rows ==>
            (key in s.table.tickets <==> s.table.rows[key].occursAt >= s.clocks[key] - 604_800_000))
      && (forall i, j :: 0 <= i < j < |s.table.tickets| ==> s.table.tickets[i] != s.table.tickets[j])
      && (forall p :: p in s.sweeps ==>
            var w := s.sweeps[p];
            w.created + w.skipped + w.stale + w.budget == if w.limit < 1 then 1 else if w.limit > 1000 then 1000 else w.limit)
  {
    RunKeepsInv(EMPTY, rules, steps);
    var s := Run(EMPTY, rules, steps);
    k := ClaimedIsPrefix(s.table, rules, id);
    forall key | key in s.table.rows && key in s.table.tickets
      ensures s.table.rows[key].ticket.Some?
    {
      var i :| 0 <= i < |s.table.tickets| && s.table.tickets[i] == key;
    }
  }

  /** What one claim does, on the sweep's own clock: a claimed slot is skipped; a free one is
      claimed, with a ticket and counted as created if it is at most seven days old, without
      one and counted as stale otherwise; a slot without a Date, or a rolled back claim,
      changes nothing and ends the rule. */
  lemma ClaimNextSplits(s: System, rules: Rules, p: nat, commits: bool)
    requires SystemInv(s, rules) && Enabled(s, rules, ClaimNext(p, commits))
    ensures var w, next := s.sweeps[p], Apply(s, rules, ClaimNext(p, commits));
      var v, t, u := next.sweeps[p], s.table, next.table;
      var n := w.phase.todo[0]; var key := Key(w.phase.rule.id, n); var slot := Occurrence(w.phase.rule, n);
      && (slot.At? && key in t.rows ==>
            u == t && v == w.(phase := v.phase, budget := w.budget - 1, skipped := w.skipped + 1))
      && (slot.At? && key !in t.rows && commits && slot.ms >= w.now - 604_800_000 ==>
            && u.rows.Keys == t.rows.Keys + {key} && u.rows[key].occursAt == slot.ms && u.tickets == t.tickets + [key]
            && next.clocks[key] == w.now
            && v == w.(phase := v.phase, budget := w.budget - 1, created := w.created + 1))
      && (slot.At? && key !in t.rows && commits && slot.ms < w.now - 604_800_000 ==>
            && u.rows.Keys == t.rows.Keys + {key} && u.rows[key].occursAt == slot.ms && u.tickets == t.tickets
            && next.clocks[key] == w.now
            && v == w.(phase := v.phase, budget := w.budget - 1, stale := w.stale + 1))
      && (slot.Invalid? || (key !in t.rows && !commits) ==>
            u == t && v == w.(phase := Between, failed := w.failed + 1))
  {
    var w := s.sweeps[p];
    if Occurrence(w.phase.rule, w.phase.todo[0]).At? {
      ConflictIsClaimed(s.table, rules, w.phase.rule, w.phase.todo[0]);
    }
  }

  // ---------------------------------------------------------------- one sweep

  /** The shared table, and what other sweeps may do to it between two of our steps. */
  class OccurrenceTable {
    const rules: Rules
    var table: Table
    ghost var log: seq<Outcome>   // of this sweep's own claims
    ghost var own: seq<Key>       // the rows they added

    constructor (rules: Rules)
      ensures this.rules == rules && table == Table(map[], []) && log == [] && own == [] && TableInv(table, rules)
    {
      this.rules := rules;
      table := Table(map[], []);
      log, own := [], [];
    }

    /** One claim of this sweep. */
    method ClaimSlot(rule: Rule, n: nat, now: int, commits: bool) returns (outcome: Outcome)
      modifies this
      ensures (table, outcome) == Claim(old(table), rule, n, now, commits)
      ensures log == old(log) + [outcome]
      ensures own == old(own) + if Key(rule.id, n) in table.rows && Key(rule.id, n) !in old(table).rows
                                then [Key(rule.id, n)] else []
    {
      var claim := Claim(table, rule, n, now, commits);
      outcome := claim.1;
      if Key(rule.id, n) in claim.0.rows && Key(rule.id, n) !in table.rows {
        own := own + [Key(rule.id, n)];
      }
      table, log := claim.0, log + [outcome];
    }

    /** Any number of claims by other sweeps, each on top of its rule's claimed prefix. */
    method Interfere()
      requires TableInv(table, rules)
      modifies `table
      ensures TableInv(table, rules) && Grows(old(table), table)
    {
      var steps: nat := *;
      while steps > 0
        invariant TableInv(table, rules) && Grows(old(table), table)
      {
        var rule: Rule, n: nat, now: int, commits: bool := *, *, *, *;
        if rule.id in rules && rules[rule.id] == rule && (n == 0 || Claimed(table, rule.id, n - 1)) {
          assert AllClaimedBelow(table, rule.id, n) by {
            if n > 0 {
              assert AllClaimedBelow(table, rule.id, n - 1);
            }
          }
          ClaimKeepsInv(table, rules, rule, n, now, commits);
          var (next, outcome) := Claim(table, rule, n, now, commits);
          table := next;
        }
        steps := steps - 1;
      }
    }

    /** max(occursAt) over the rule's rows. */
    method LastOccurrence(id: string) returns (last: Option<int>)
      ensures IsLast(table, id, last)
    {
      last := None;
      var left := table.rows.Keys;
      while left != {}
        invariant left <= table.rows.Keys
        invariant last.None? ==> forall k :: k in table.rows.Keys - left ==> k.ruleId != id
        invariant last.Some? ==> exists k :: k in table.rows && k.ruleId == id && table.rows[k].occursAt == last.value
        invariant last.Some? ==> forall k :: k in table.rows.Keys - left && k.ruleId == id ==> table.rows[k].occursAt <= last.value
        decreases left
      {
        var k :| k in left;
        if k.ruleId == id && (last.None? || table.rows[k].occursAt > last.value) {
          last := Some(table.rows[k].occursAt);
        }
        left := left - {k};
      }
    }
  }

  /** Slot n lies at or before the end of the rule, now and the horizon. */
  predicate IsDue(rule: Rule, n: nat, now: int, horizon: int) {
    && OccurrenceMs(rule, n) <= now && OccurrenceMs(rule, n) <= horizon
    && (rule.until.Some? ==> OccurrenceMs(rule, n) <= rule.until.value)
  }

  /** Every due slot of the rule is claimed. */
  ghost predicate CaughtUp(t: Table, rule: Rule, now: int, horizon: int) {
    forall n: nat :: rule.startsAt <= now && IsDue(rule, n, now, horizon) ==> Claimed(t, rule.id, n)
  }

  lemma CaughtUpGrows(a: Table, b: Table, rule: Rule, now: int, horizon: int)
    requires CaughtUp(a, rule, now, horizon) && Grows(a, b)
    ensures CaughtUp(b, rule, now, horizon)
  {
    forall n: nat | rule.startsAt <= now && IsDue(rule, n, now, horizon)
      ensures Claimed(b, rule.id, n)
    {
      assert Claimed(a, rule.id, n);
    }
  }

  ghost predicate AllCaughtUp(t: Table, rules: seq<Rule>, now: int, horizon: int) {
    forall i :: 0 <= i < |rules| ==> CaughtUp(t, rules[i], now, horizon)
  }

  lemma AllCaughtUpGrows(a: Table, b: Table, rules: seq<Rule>, rule: Rule, now: int, horizon: int)
    requires Grows(a, b)
    ensures AllCaughtUp(a, rules, now, horizon) && CaughtUp(b, rule, now, horizon) ==>
              AllCaughtUp(b, rules + [rule], now, horizon)
  {
    if AllCaughtUp(a, rules, now, horizon) {
      forall i | 0 <= i < |rules|
        ensures CaughtUp(b, rules[i], now, horizon)
      {
        CaughtUpGrows(a, b, rules[i], now, horizon);
      }
    }
  }

  /** The rules dueRecurrenceOccurrences refuses. */
  function Refused(rules: seq<Rule>): nat {
    if rules == [] then 0 else Refused(rules[..|rules| - 1]) + if AssertRule(rules[|rules| - 1]).Some? then 1 else 0
  }

  /** The counters after some rules: those of the log's new entries, with a refused rule
      counted as failed too. */
  ghost predicate Accounted(before: seq<Outcome>, after: seq<Outcome>, created: nat, skipped: nat, stale: nat, failed: nat,
                            rules: seq<Rule>)
  {
    failed >= Refused(rules) && Logged(before, after, created, skipped, stale, failed - Refused(rules))
  }

  lemma RuleAccounted(a: seq<Outcome>, b: seq<Outcome>, c: seq<Outcome>,
                      created: nat, skipped: nat, stale: nat, failed: nat, rules: seq<Rule>,
                      rule: Rule, created2: nat, skipped2: nat, stale2: nat, ok: bool)
    requires Accounted(a, b, created, skipped, stale, failed, rules)
    requires Logged(b, c, created2, skipped2, stale2, if ok || AssertRule(rule).Some? then 0 else 1)
    requires AssertRule(rule).Some? ==> !ok
    ensures Accounted(a, c, created + created2, skipped + skipped2, stale + stale2, failed + (if ok then 0 else 1), rules + [rule])
  {
    LogsJoin(a, b, c, created, skipped, stale, failed - Refused(rules), created2, skipped2, stale2,
             if ok || AssertRule(rule).Some? then 0 else 1);
    assert (rules + [rule])[..|rules|] == rules;
  }

  const RULE_PAGE: nat := 200

  /** The counters of a sweep. */
  datatype Tally = Tally(created: nat, skipped: nat, stale: nat, failed: nat, truncated: bool, budget: nat)

  function Spent(t: Tally): nat { t.created + t.skipped + t.stale }

  /** After some rules of a page of the given size. */
  ghost predicate PageInv(table: Table, before: seq<Outcome>, log: seq<Outcome>, rules: seq<Rule>, size: nat, limit: int,
                          now: int, horizon: int, t: Tally)
  {
    && Spent(t) + t.budget == Clamp(limit)
    && Accounted(before, log, t.created, t.skipped, t.stale, t.failed, rules)
    && (size == RULE_PAGE ==> t.truncated)
    && (t.truncated ==> size == RULE_PAGE || t.failed > 0 || t.budget == 0)
    && (t.failed == 0 && (!t.truncated || t.budget > 0) ==> AllCaughtUp(table, rules, now, horizon))
  }

  function Tallied(t: Tally, created: nat, skipped: nat, stale: nat, ok: bool, more: bool): Tally
    requires created + skipped + stale <= t.budget
  {
    Tally(t.created + created, t.skipped + skipped, t.stale + stale, t.failed + (if ok then 0 else 1), t.truncated || more,
          t.budget - (created + skipped + stale))
  }

  lemma PageStep(a: Table, b: Table, before: seq<Outcome>, log: seq<Outcome>, after: seq<Outcome>, rules: seq<Rule>, rule: Rule,
                 size: nat, limit: int, now: int, horizon: int, t: Tally,
                 created: nat, skipped: nat, stale: nat, ok: bool, more: bool)
    requires PageInv(a, before, log, rules, size, limit, now, horizon, t) && t.budget > 0 && Grows(a, b)
    requires Logged(log, after, created, skipped, stale, if ok || AssertRule(rule).Some? then 0 else 1)
    requires AssertRule(rule).Some? ==> !ok
    requires created + skipped + stale <= t.budget && (ok && more ==> created + skipped + stale == t.budget)
    requires ok && !more ==> CaughtUp(b, rule, now, horizon)
    ensures PageInv(b, before, after, rules + [rule], size, limit, now, horizon, Tallied(t, created, skipped, stale, ok, more))
  {
    RuleAccounted(before, log, after, t.created, t.skipped, t.stale, t.failed, rules, rule, created, skipped, stale, ok);
    AllCaughtUpGrows(a, b, rules, rule, now, horizon);
  }

  /** Where a sweep stands after some rules of its page, since it started. */
  ghost predicate Progress(start: Table, own: seq<Key>, log: seq<Outcome>, table: Table, own2: seq<Key>, log2: seq<Outcome>,
                           rules: seq<Rule>, size: nat, limit: int, now: int, horizon: int, t: Tally)
  {
    && Grows(start, table) && Added(start, table, own, own2, now, t.created, t.stale)
    && PageInv(table, log, log2, rules, size, limit, now, horizon, t)
  }

  lemma StartOfPage(start: Table, own: seq<Key>, log: seq<Outcome>, size: nat, limit: int, now: int, horizon: int)
    ensures Progress(start, own, log, start, own, log, [], size, limit, now, horizon,
                     Tally(0, 0, 0, 0, size == RULE_PAGE, Clamp(limit)))
  {
    AddedNothing(start, start, own, now);
  }

  lemma SpentIsTruncated(start: Table, own: seq<Key>, log: seq<Outcome>, table: Table, own2: seq<Key>, log2: seq<Outcome>,
                         rules: seq<Rule>, size: nat, limit: int, now: int, horizon: int, t: Tally)
    requires Progress(start, own, log, table, own2, log2, rules, size, limit, now, horizon, t) && t.budget == 0
    ensures Progress(start, own, log, table, own2, log2, rules, size, limit, now, horizon, t.(truncated := true))
  {}

  /** The next rule of a page. */
  method SweepNext(db: OccurrenceTable, rule: Rule, now: int, horizon: int, limit: int, t: Tally,
                   ghost start: Table, ghost own: seq<Key>, ghost log: seq<Outcome>, ghost rules: seq<Rule>, ghost size: nat)
    returns (tally: Tally)
    requires TableInv(db.table, db.rules) && ValidDate(now) && ValidDate(horizon) && t.budget > 0
    requires rule.id in db.rules && db.rules[rule.id] == rule
    requires Progress(start, own, log, db.table, db.own, db.log, rules, size, limit, now, horizon, t)
    modifies db
    ensures TableInv(db.table, db.rules)
    ensures Progress(start, own, log, db.table, db.own, db.log, rules + [rule], size, limit, now, horizon, tally)
  {
    ghost var read, logged, sofar := db.table, db.log, db.own;
    var created, skipped, stale, ok, more;
    ghost var listed;
    created, skipped, stale, ok, more, listed := SweepRule(db, rule, now, horizon, t.budget);
    PageStep(read, db.table, log, logged, db.log, rules, rule, size, limit, now, horizon, t, created, skipped, stale, ok, more);
    tally := Tallied(t, created, skipped, stale, ok, more);
    AddedJoins(start, read, db.table, own, sofar, db.own, now, t.created, t.stale, created, stale);
    GrowsTransitive(start, read, db.table);
  }

  /** Rule by rule while there is budget; `swept` are the rules it came to. */
  method SweepPage(db: OccurrenceTable, page: seq<Rule>, now: int, horizon: int, limit: int)
    returns (tally: Tally, ghost swept: seq<Rule>)
    requires TableInv(db.table, db.rules) && ValidDate(now) && ValidDate(horizon)
    requires forall i :: 0 <= i < |page| ==> page[i].id in db.rules && db.rules[page[i].id] == page[i]
    modifies db
    ensures TableInv(db.table, db.rules) && swept <= page
    ensures Progress(old(db.table), old(db.own), old(db.log), db.table, db.own, db.log, swept, |page|, limit, now, horizon, tally)
    ensures swept != page ==> tally.truncated && tally.budget == 0
  {
    tally := Tally(0, 0, 0, 0, |page| == RULE_PAGE, Clamp(limit));
    swept := [];
    ghost var start, own, log := db.table, db.own, db.log;
    StartOfPage(start, own, log, |page|, limit, now, horizon);
    for r := 0 to |page|
      invariant TableInv(db.table, db.rules) && |swept| == r && swept <= page
      invariant Progress(start, own, log, db.table, db.own, db.log, swept, |page|, limit, now, horizon, tally)
    {
      if tally.budget == 0 {
        SpentIsTruncated(start, own, log, db.table, db.own, db.log, swept, |page|, limit, now, horizon, tally);
        tally := tally.(truncated := true);
        break;
      }
      tally := SweepNext(db, page[r], now, horizon, limit, tally, start, own, log, swept, |page|);
      swept := swept + [page[r]];
    }
  }

  /** One sweep over a page of rules while other sweeps claim slots too. */
  method GenerateDueRecurrences(db: OccurrenceTable, page: seq<Rule>, now: int, horizon: int, limit: int)
    returns (tally: Tally, ghost swept: seq<Rule>)
    requires TableInv(db.table, db.rules) && ValidDate(now) && ValidDate(horizon)
    requires forall i :: 0 <= i < |page| ==> page[i].id in db.rules && db.rules[page[i].id] == page[i]
    modifies db
    ensures TableInv(db.table, db.rules) && Grows(old(db.table), db.table)
    ensures Spent(tally) + tally.budget == Clamp(limit)
    ensures Added(old(db.table), db.table, old(db.own), db.own, now, tally.created, tally.stale)
    ensures swept <= page && Accounted(old(db.log), db.log, tally.created, tally.skipped, tally.stale, tally.failed, swept)
    ensures swept != page ==> tally.truncated && Spent(tally) == Clamp(limit)
    ensures |page| == 200 ==> tally.truncated
    ensures tally.truncated ==> |page| == 200 || tally.failed > 0 || Spent(tally) == Clamp(limit)
    ensures tally.failed == 0 && (!tally.truncated || Spent(tally) < Clamp(limit)) ==> AllCaughtUp(db.table, page, now, horizon)
  {
    tally, swept := SweepPage(db, page, now, horizon, limit);
  }

  lemma GrowsTransitive(a: Table, b: Table, c: Table)
    requires Grows(a, b) && Grows(b, c)
    ensures Grows(a, c)
  {}

  /** Every due slot of the rule is claimed or listed. */
  ghost predicate Listed(t: Table, rule: Rule, now: int, horizon: int, todo: seq<nat>) {
    forall n: nat :: rule.startsAt <= now && IsDue(rule, n, now, horizon) ==>
      Claimed(t, rule.id, n) || n in todo
  }

  /** A list that did not overflow its limit leaves out no due slot. */
  lemma ShortListIsComplete(
    t: Table, rule: Rule, now: int, horizon: int, existing: set<Key>, start: nat, todo: seq<nat>, limit: nat)
    requires Stored(rule) && AllClaimedBelow(t, rule.id, start)
    requires forall k :: k in existing ==> k in t.rows
    requires todo == DueOrdinals(rule, LastDue(rule, now, horizon), existing, limit, start) && |todo| < limit
    ensures Listed(t, rule, now, horizon, todo)
  {
    var last := LastDue(rule, now, horizon);
    UnclaimedExact(existing, rule.id, start, FirstAfter(rule, last));
    forall n: nat | IsDue(rule, n, now, horizon)
      ensures Claimed(t, rule.id, n) || n in todo
    {
      LastDueIsEarliest(rule, now, horizon, OccurrenceMs(rule, n));
      FirstAfterSplits(rule, last, n);
      if n >= start && Key(rule.id, n) in existing {
        assert Claimed(t, rule.id, n);
      }
    }
  }

  /** The reads of one rule: the cursor, the existing keys, the due slots. */
  method ListDue(db: OccurrenceTable, rule: Rule, now: int, horizon: int, budget: nat)
    returns (listed: Result<seq<DueOccurrence>, string>)
    requires TableInv(db.table, db.rules) && ValidDate(now) && ValidDate(horizon) && budget > 0
    requires rule.id in db.rules && db.rules[rule.id] == rule
    modifies db`table
    ensures TableInv(db.table, db.rules) && Grows(old(db.table), db.table)
    ensures listed.Err? <==> AssertRule(rule).Some?
    ensures listed.Ok? ==> TodoInv(db.table, rule.id, FirstN(Ordinals(listed.value), budget))
    ensures listed.Ok? && |listed.value| <= budget ==> Listed(db.table, rule, now, horizon, Ordinals(listed.value))
  {
    var lastOccurrence := db.LastOccurrence(rule.id);
    var startOrdinal := CursorOf(db, rule, lastOccurrence);
    var windowStart := if lastOccurrence.Some? then lastOccurrence.value else rule.startsAt;
    label cursor:
    db.Interfere();
    BelowGrows(old@cursor(db.table), db.table);
    var existingKeys := set k | k in db.table.rows && k.ruleId == rule.id && windowStart <= db.table.rows[k].occursAt <= now;
    listed := DueRecurrenceOccurrences(rule, now, horizon, existingKeys, budget + 1, startOrdinal);
    if listed.Ok? {
      ghost var hi: nat :| Ordinals(listed.value) == Unclaimed(existingKeys, rule.id, startOrdinal, hi);
      ListedFromPrefix(db.table, rule.id, existingKeys, startOrdinal, hi, budget);
      if |listed.value| <= budget && rule.startsAt <= now {
        ShortListIsComplete(db.table, rule, now, horizon, existingKeys, startOrdinal, Ordinals(listed.value), budget + 1);
      }
    }
  }

  /** The counters are those of the log's new entries. */
  ghost predicate Logged(before: seq<Outcome>, after: seq<Outcome>, created: nat, skipped: nat, stale: nat, failed: nat) {
    && before <= after
    && var outcomes := multiset(after[|before|..]);
       outcomes[Created] == created && outcomes[Skipped] == skipped && outcomes[Stale] == stale && outcomes[Failed] == failed
  }

  lemma LogGrows(before: seq<Outcome>, after: seq<Outcome>, created: nat, skipped: nat, stale: nat, outcome: Outcome)
    requires Logged(before, after, created, skipped, stale, 0)
    ensures Logged(before, after + [outcome], created + (if outcome == Created then 1 else 0),
                   skipped + (if outcome == Skipped then 1 else 0), stale + (if outcome == Stale then 1 else 0),
                   if outcome == Failed then 1 else 0)
  {
    assert (after + [outcome])[|before|..] == after[|before|..] + [outcome];
  }

  lemma LogsJoin(a: seq<Outcome>, b: seq<Outcome>, c: seq<Outcome>, created: nat, skipped: nat, stale: nat, failed: nat,
                 created2: nat, skipped2: nat, stale2: nat, failed2: nat)
    requires Logged(a, b, created, skipped, stale, failed) && Logged(b, c, created2, skipped2, stale2, failed2)
    ensures Logged(a, c, created + created2, skipped + skipped2, stale + stale2, failed + failed2)
  {
    assert c[|a|..] == b[|a|..] + c[|b|..];
  }

  /** How many of these slots lie at or after an instant. */
  ghost function AtOrAfter(t: Table, keys: seq<Key>, floor: int): nat {
    if keys == [] then 0
    else
      var key := keys[|keys| - 1];
      AtOrAfter(t, keys[..|keys| - 1], floor) + if key in t.rows && t.rows[key].occursAt >= floor then 1 else 0
  }

  /** The rows this sweep added in between: distinct and new; those at most seven days old
      on its clock have a ticket and are as many as it counts created, the others have none
      and are as many as it counts stale. */
  ghost predicate Added(a: Table, b: Table, before: seq<Key>, after: seq<Key>, now: int, created: int, stale: int) {
    && before <= after
    && var keys := after[|before|..];
       && NewRows(a, b, keys, now - 604_800_000)
       && AtOrAfter(b, keys, now - 604_800_000) == created && |keys| == created + stale
  }

  lemma {:induction false} AtOrAfterGrows(a: Table, b: Table, keys: seq<Key>, floor: int)
    requires Grows(a, b) && forall k :: k in keys ==> k in a.rows
    ensures AtOrAfter(a, keys, floor) == AtOrAfter(b, keys, floor)
  {
    if keys != [] {
      assert forall k :: k in keys[..|keys| - 1] ==> k in keys;
      AtOrAfterGrows(a, b, keys[..|keys| - 1], floor);
      assert keys[|keys| - 1] in keys;
    }
  }

  lemma {:induction false} AtOrAfterJoins(t: Table, a: seq<Key>, b: seq<Key>, floor: int)
    ensures AtOrAfter(t, a + b, floor) == AtOrAfter(t, a, floor) + AtOrAfter(t, b, floor)
  {
    if b == [] {
      assert a + b == a;
    } else {
      assert (a + b)[..|a + b| - 1] == a + b[..|b| - 1];
      AtOrAfterJoins(t, a, b[..|b| - 1], floor);
    }
  }

  lemma AddedJoins(a: Table, b: Table, c: Table, x: seq<Key>, y: seq<Key>, z: seq<Key>, now: int,
                   created: int, stale: int, created2: int, stale2: int)
    requires Grows(a, b) && Grows(b, c) && Added(a, b, x, y, now, created, stale) && Added(b, c, y, z, now, created2, stale2)
    ensures Added(a, c, x, z, now, created + created2, stale + stale2)
  {
    var first, second := y[|x|..], z[|y|..];
    assert z[|x|..] == first + second;
    AtOrAfterGrows(b, c, first, now - 604_800_000);
    AtOrAfterJoins(c, first, second, now - 604_800_000);
    KeysJoin(a, b, c, first, second, now - 604_800_000);
  }

  ghost predicate NewRows(a: Table, b: Table, keys: seq<Key>, floor: int) {
    && (forall i, j :: 0 <= i < j < |keys| ==> keys[i] != keys[j])
    && (forall k :: k in keys ==> k !in a.rows && k in b.rows && (b.rows[k].ticket.Some? <==> b.rows[k].occursAt >= floor))
  }

  lemma KeysJoin(a: Table, b: Table, c: Table, first: seq<Key>, second: seq<Key>, floor: int)
    requires Grows(a, b) && Grows(b, c) && NewRows(a, b, first, floor) && NewRows(b, c, second, floor)
    ensures NewRows(a, c, first + second, floor)
  {
    assert forall k :: k in first + second <==> k in first || k in second;
    assert forall i :: 0 <= i < |first| ==> first[i] in first;
    assert forall i :: 0 <= i < |second| ==> second[i] in second;
  }

  lemma AddedNothing(a: Table, b: Table, own: seq<Key>, now: int)
    ensures Added(a, b, own, own, now, 0, 0)
  {
    assert own[|own|..] == [];
  }

  /** One claim's share. */
  lemma ClaimAdds(t: Table, rules: Rules, rule: Rule, n: nat, now: int, commits: bool, own: seq<Key>)
    requires TableInv(t, rules) && rule.id in rules && rules[rule.id] == rule
    ensures var (u, outcome) := Claim(t, rule, n, now, commits);
      var key := Key(rule.id, n);
      Added(t, u, own, own + (if key in u.rows && key !in t.rows then [key] else []), now,
            if outcome == Created then 1 else 0, if outcome == Stale then 1 else 0)
  {
    var key := Key(rule.id, n);
    var (u, outcome) := Claim(t, rule, n, now, commits);
    assert (own + [key])[|own|..] == [key];
    assert own + [] == own && own[|own|..] == [];
    assert [key][..0] == [];
    assert AtOrAfter(u, [], now - 604_800_000) == 0;
  }

  /** Claims the next slot after whatever others did meanwhile. */
  method ClaimHead(db: OccurrenceTable, rule: Rule, now: int, todo: seq<nat>) returns (outcome: Outcome)
    requires TableInv(db.table, db.rules) && TodoInv(db.table, rule.id, todo) && todo != []
    requires rule.id in db.rules && db.rules[rule.id] == rule
    modifies db
    ensures TableInv(db.table, db.rules) && Grows(old(db.table), db.table)
    ensures db.log == old(db.log) + [outcome]
    ensures Added(old(db.table), db.table, old(db.own), db.own, now,
                  if outcome == Created then 1 else 0, if outcome == Stale then 1 else 0)
    ensures outcome != Failed ==> Claimed(db.table, rule.id, todo[0]) && TodoInv(db.table, rule.id, todo[1..])
  {
    ghost var before := db.table;
    db.Interfere();
    TodoGrows(before, db.table, rule.id, todo);
    HeadOnPrefix(db.table, rule.id, todo);
    var commits: bool := *;
    ClaimKeepsInv(db.table, db.rules, rule, todo[0], now, commits);
    TodoGrows(db.table, Claim(db.table, rule, todo[0], now, commits).0, rule.id, todo);
    ClaimAdds(db.table, db.rules, rule, todo[0], now, commits, db.own);
    AddedNothing(before, db.table, db.own, now);
    ghost var middle, own := db.table, db.own;
    outcome := db.ClaimSlot(rule, todo[0], now, commits);
    AddedJoins(before, middle, db.table, own, own, db.own, now, 0, 0,
               if outcome == Created then 1 else 0, if outcome == Stale then 1 else 0);
    if outcome != Failed {
      TodoTail(db.table, rule.id, todo);
    }
  }

  /** Claims the listed slots in order, one transaction each, until one fails. */
  method ClaimBatch(db: OccurrenceTable, rule: Rule, now: int, todo: seq<nat>)
    returns (created: nat, skipped: nat, stale: nat, ok: bool)
    requires TableInv(db.table, db.rules) && TodoInv(db.table, rule.id, todo)
    requires rule.id in db.rules && db.rules[rule.id] == rule
    modifies db
    ensures TableInv(db.table, db.rules) && Grows(old(db.table), db.table)
    ensures Logged(old(db.log), db.log, created, skipped, stale, if ok then 0 else 1)
    ensures Added(old(db.table), db.table, old(db.own), db.own, now, created, stale)
    ensures created + skipped + stale <= |todo|
    ensures ok ==> created + skipped + stale == |todo| && forall n :: n in todo ==> Claimed(db.table, rule.id, n)
  {
    created, skipped, stale := 0, 0, 0;
    var left := todo;
    AddedNothing(db.table, db.table, db.own, now);
    while left != []
      invariant TableInv(db.table, db.rules) && Grows(old(db.table), db.table)
      invariant TodoInv(db.table, rule.id, left)
      invariant created + skipped + stale + |left| == |todo|
      invariant Logged(old(db.log), db.log, created, skipped, stale, 0)
      invariant Added(old(db.table), db.table, old(db.own), db.own, now, created, stale)
      invariant forall n :: n in todo ==> n in left || Claimed(db.table, rule.id, n)
      decreases |left|
    {
      ghost var before, logged, own := db.table, db.log, db.own;
      var outcome := ClaimHead(db, rule, now, left);
      AddedJoins(old(db.table), before, db.table, old(db.own), own, db.own, now, created, stale,
                 if outcome == Created then 1 else 0, if outcome == Stale then 1 else 0);
      GrowsTransitive(old(db.table), before, db.table);
      LogGrows(old(db.log), logged, created, skipped, stale, outcome);
      match outcome {
        case Skipped => skipped := skipped + 1;
        case Stale => stale := stale + 1;
        case Created => created := created + 1;
        case Failed => return created, skipped, stale, false;
      }
      assert forall n :: n in left ==> n == left[0] || n in left[1..];
      left := left[1..];
    }
    ok := true;
  }

  /** The body of the try block for one rule; `more` says the budget cut the list. */
  method SweepRule(db: OccurrenceTable, rule: Rule, now: int, horizon: int, budget: nat)
    returns (created: nat, skipped: nat, stale: nat, ok: bool, more: bool, ghost listed: seq<nat>)
    requires TableInv(db.table, db.rules) && ValidDate(now) && ValidDate(horizon) && budget > 0
    requires rule.id in db.rules && db.rules[rule.id] == rule
    modifies db
    ensures TableInv(db.table, db.rules) && Grows(old(db.table), db.table)
    ensures Logged(old(db.log), db.log, created, skipped, stale, if ok || AssertRule(rule).Some? then 0 else 1)
    ensures Added(old(db.table), db.table, old(db.own), db.own, now, created, stale)
    ensures AssertRule(rule).Some? ==> !ok && !more && created + skipped + stale == 0
    ensures AssertRule(rule).None? ==> (more <==> |listed| > budget)
    ensures created + skipped + stale <= budget
    ensures ok ==> created + skipped + stale == Min(|listed|, budget)
                   && forall n :: n in FirstN(listed, budget) ==> Claimed(db.table, rule.id, n)
    ensures ok && !more ==> CaughtUp(db.table, rule, now, horizon)
  {
    listed := [];
    ghost var start := db.table;
    var due := ListDue(db, rule, now, horizon, budget);
    AddedNothing(start, db.table, db.own, now);
    if due.Err? {
      return 0, 0, 0, false, false, [];
    }
    listed := Ordinals(due.value);
    more := |due.value| > budget;
    var batch := if more then due.value[..budget] else due.value;
    var todo := seq(|batch|, i requires 0 <= i < |batch| => batch[i].key.ordinal);
    assert todo == FirstN(listed, budget);
    ghost var read := db.table;
    created, skipped, stale, ok := ClaimBatch(db, rule, now, todo);
    AddedJoins(start, read, db.table, old(db.own), old(db.own), db.own, now, 0, 0, created, stale);
    if ok && !more {
      assert todo == listed;
      ListedIsCaughtUp(read, db.table, rule, now, horizon, listed);
    }
  }

  lemma ListedIsCaughtUp(read: Table, after: Table, rule: Rule, now: int, horizon: int, todo: seq<nat>)
    requires Listed(read, rule, now, horizon, todo) && Grows(read, after)
    requires forall n :: n in todo ==> Claimed(after, rule.id, n)
    ensures CaughtUp(after, rule, now, horizon)
  {
    forall n: nat | rule.startsAt <= now && IsDue(rule, n, now, horizon)
      ensures Claimed(after, rule.id, n)
    {
      assert Claimed(read, rule.id, n) || n in todo;
    }
  }

  lemma TodoGrows(a: Table, b: Table, id: string, todo: seq<nat>)
    requires TodoInv(a, id, todo) && Grows(a, b)
    ensures TodoInv(b, id, todo)
  {
    forall i, m: nat | 0 <= i < |todo| && m < todo[i]
      ensures Claimed(b, id, m) || m in todo[..i]
    {
      assert Claimed(a, id, m) || m in todo[..i];
    }
  }

  /** The fast cursor on the last claimed instant never passes an unclaimed slot. */
  method CursorOf(db: OccurrenceTable, rule: Rule, last: Option<int>) returns (start: nat)
    requires TableInv(db.table, db.rules) && rule.id in db.rules && db.rules[rule.id] == rule
    requires IsLast(db.table, rule.id, last)
    ensures start == CursorStart(rule, last) && AllClaimedBelow(db.table, rule.id, start)
  {
    CursorBelow(db.table, db.rules, rule, last);
    if last.Some? {
      ghost var k :| k in db.table.rows && k.ruleId == rule.id && db.table.rows[k].occursAt == last.value;
      OccurrenceValue(rule, k.ordinal);
      if rule.startsAt <= last.value {
        StoredInstantIsRegular(rule, k.ordinal);
      }
    }
    ghost var advances;
    start, advances := OccurrenceOrdinalAfter(rule, last);
  }
}
