/**
 * Recurrence rules (scheduling.ts): the instant of the n-th occurrence, the fast
 * cursor that finds the first ordinal after an instant, and the list of due slots.
 */
module Scheduling {
  import opened Sequences
  import opened Calendar

  datatype Frequency = Daily | Weekly | Monthly

  datatype Rule = Rule(id: string, frequency: Frequency, interval: int, startsAt: int, until: Option<int>)

  /** Slots are keyed on the ordinal, not on the instant. */
  datatype Key = Key(ruleId: string, ordinal: nat)

  datatype DueOccurrence = DueOccurrence(recurringTicketId: string, occursAt: Instant, key: Key)

  predicate ValidDate(ms: int) { -MAX_TIME <= ms <= MAX_TIME }

  /** A rule as stored: its start is a Date and its interval is positive. */
  predicate Stored(rule: Rule) { ValidDate(rule.startsAt) && rule.interval >= 1 }

  function AssertRule(rule: Rule): Option<string> {
    if rule.id == "" then Some("recurrence id is required")
    else if !ValidDate(rule.startsAt) then Some("startsAt must be a valid date")
    else if rule.until.Some? && !ValidDate(rule.until.value) then Some("until must be a valid date")
    else if rule.until.Some? && rule.until.value < rule.startsAt then Some("until cannot precede startsAt")
    else if rule.interval < 1 then Some("interval must be a positive safe integer")
    else None
  }

  /** A rule is refused for want of an id, for a start or an end that is no Date, for an end
      before its start, and for an interval that is not positive, and for nothing else. */
  lemma RefusedIff(rule: Rule)
    ensures AssertRule(rule).Some? <==>
      || rule.id == "" || rule.interval <= 0
      || rule.startsAt < -8_640_000_000_000_000 || rule.startsAt > 8_640_000_000_000_000
      || (rule.until.Some? && (rule.until.value < rule.startsAt || rule.until.value > 8_640_000_000_000_000))
  {}

  // ---------------------------------------------------------------- the n-th occurrence

  function PeriodDays(rule: Rule): int
    requires rule.frequency != Monthly
  {
    if rule.frequency == Weekly then 7 else 1
  }

  /** Month of a monthly occurrence. */
  function TargetMonth(rule: Rule, n: nat): int { MonthAt(rule.startsAt) + n * rule.interval }

  /** The month length the clamp sees: Date.UTC turns February of year 0 into that of 1900. */
  function ClampLength(k: int): int { if k == 1 then 28 else DaysInMonth(k) }

  /** The instant of occurrence n, on an unbounded time line. */
  function OccurrenceMs(rule: Rule, n: nat): int {
    if rule.frequency == Monthly then
      var k := TargetMonth(rule, n);
      MakeTime(k, Min(DayOfMonth(rule.startsAt), ClampLength(k)), TimeInDay(rule.startsAt))
    else rule.startsAt + n * rule.interval * PeriodDays(rule) * MS_PER_DAY
  }

  /** The first day of the start's month is itself a Date. */
  predicate Anchored(rule: Rule) {
    rule.frequency == Monthly ==>
      MakeTime(MonthAt(rule.startsAt), 1, TimeInDay(rule.startsAt)) >= -MAX_TIME
  }

  /** Occurrence n as a Date: Invalid as soon as one step of its computation leaves the range. */
  function Occurrence(rule: Rule, n: nat): Instant {
    if rule.frequency == Monthly && !Anchored(rule) then Invalid
    else if rule.frequency == Monthly && (MonthStart(TargetMonth(rule, n) + 1) - 1) * MS_PER_DAY > MAX_TIME then Invalid
    else TimeClip(OccurrenceMs(rule, n))
  }

  predicate Representable(rule: Rule, n: nat) { Occurrence(rule, n).At? }

  lemma TwoDigitFebruary(k: int)
    requires 0 <= k < 1200
    ensures (k + 22800) / 12 == 1900 + k / 12 && (k + 22800) % 12 == k % 12
    ensures DaysInMonth(k + 22800) == ClampLength(k)
  {
    assert (k + 22800) / 12 == 1900 + k / 12 && (k + 22800) % 12 == k % 12;
    var y := k / 12;
    assert 0 <= y <= 99;
    assert Leap(1900 + y) <==> y % 4 == 0 && y != 0;
    assert Leap(y) <==> y % 4 == 0;
  }

  lemma LastDayOf(j: int)
    ensures MakeTime(j + 1, 0, 0) == (MonthStart(j + 1) - 1) * MS_PER_DAY
    ensures DayOfMonth(MakeTime(j + 1, 0, 0)) == DaysInMonth(j)
  {
    MonthLength(j);
    MakeTimeFields(j, DaysInMonth(j), 0);
    assert MakeTime(j + 1, 0, 0) == MakeTime(j, DaysInMonth(j), 0);
  }

  lemma TwoDigitRange(k: int)
    requires 0 <= k < 1200
    ensures -1_000_000 < MonthStart(k + 1) <= MonthStart(k + 22801) < 1_000_000
  {
    MonthStartMonotone(k + 1, k + 22801);
    MonthStartMonotone(EPOCH_MONTH, EPOCH_MONTH + 1200);
    MonthStartMonotone(k + 22801, EPOCH_MONTH + 1200);
    MonthStartMonotone(0, EPOCH_MONTH);
    MonthStartMonotone(0, k + 1);
  }

  /** The last day of month k, as the source reads it off Date.UTC(year, month + 1, 0). */
  lemma LastDayRead(k: int)
    requires MonthStart(k) >= -100_000_000
    ensures var d := DateUtc(k / 12, k % 12 + 1, 0);
            && (d.Invalid? <==> (MonthStart(k + 1) - 1) * MS_PER_DAY > MAX_TIME)
            && (d.At? ==> DayOfMonth(d.ms) == ClampLength(k))
  {
    assert 12 * (k / 12) + k % 12 == k;
    MonthLength(k);
    if 0 <= k / 12 <= 99 {
      TwoDigitFebruary(k);
      TwoDigitRange(k);
      LastDayOf(k + 22800);
    } else {
      LastDayOf(k);
    }
  }

  /** First edit of a monthly occurrence: to the first of the start's month. */
  lemma FirstEdit(rule: Rule)
    requires Stored(rule) && rule.frequency == Monthly
    ensures var first := SetUtcDate(At(rule.startsAt), 1);
            && (first.At? <==> Anchored(rule))
            && (first.At? ==> first.ms == MakeTime(MonthAt(rule.startsAt), 1, TimeInDay(rule.startsAt)))
  {
    FieldsMakeTime(rule.startsAt);
  }

  /** Second edit: to the first of the target month. */
  lemma SecondEdit(rule: Rule, n: nat, first: int)
    requires Stored(rule) && first == MakeTime(MonthAt(rule.startsAt), 1, TimeInDay(rule.startsAt))
    ensures var k := TargetMonth(rule, n);
            var target := SetUtcMonth(At(first), MonthAt(first) % 12 + n * rule.interval);
            && target == TimeClip(MakeTime(k, 1, TimeInDay(rule.startsAt)))
            && (target.At? ==> MonthAt(target.ms) == k && TimeInDay(target.ms) == TimeInDay(rule.startsAt))
  {
    var m0 := MonthAt(rule.startsAt);
    MakeTimeFields(m0, 1, TimeInDay(rule.startsAt));
    MakeTimeFields(TargetMonth(rule, n), 1, TimeInDay(rule.startsAt));
    assert 12 * (m0 / 12) + m0 % 12 == m0;
  }

  lemma TargetInRange(rule: Rule, n: nat)
    requires Stored(rule) && MakeTime(MonthAt(rule.startsAt), 1, TimeInDay(rule.startsAt)) >= -MAX_TIME
    ensures MonthStart(TargetMonth(rule, n)) >= -100_000_000
    ensures MonthStart(TargetMonth(rule, n)) + 28 <= MonthStart(TargetMonth(rule, n) + 1)
  {
    var m0 := MonthAt(rule.startsAt);
    MonthStartMonotone(m0, TargetMonth(rule, n));
    MonthLength(TargetMonth(rule, n));
  }

  lemma TargetTooLate(rule: Rule, n: nat)
    requires Stored(rule) && rule.frequency == Monthly && Anchored(rule)
    requires MakeTime(TargetMonth(rule, n), 1, TimeInDay(rule.startsAt)) > MAX_TIME
    ensures Occurrence(rule, n).Invalid?
  {
    MonthStartMonotone(TargetMonth(rule, n), TargetMonth(rule, n) + 1);
  }

  lemma LastEdit(rule: Rule, n: nat, target: int)
    requires Stored(rule) && rule.frequency == Monthly && Anchored(rule)
    requires MonthAt(target) == TargetMonth(rule, n) && TimeInDay(target) == TimeInDay(rule.startsAt)
    ensures (MonthStart(TargetMonth(rule, n) + 1) - 1) * MS_PER_DAY > MAX_TIME ==> Occurrence(rule, n).Invalid?
    ensures (MonthStart(TargetMonth(rule, n) + 1) - 1) * MS_PER_DAY <= MAX_TIME ==>
      SetUtcDate(At(target), Min(DayOfMonth(rule.startsAt), ClampLength(TargetMonth(rule, n)))) == Occurrence(rule, n)
  {}

  /** The monthly edits: to the first of the start's month, to the first of the target
      month, to the start's day or the month's last. */
  method MonthlyOccurrence(rule: Rule, ordinal: nat, amount: int) returns (result: Instant)
    requires Stored(rule) && rule.frequency == Monthly && amount == ordinal * rule.interval
    ensures result == Occurrence(rule, ordinal)
  {
    FirstEdit(rule);
    var day := DayOfMonth(rule.startsAt);
    result := SetUtcDate(At(rule.startsAt), 1);
    if result.Invalid? { return; }
    SecondEdit(rule, ordinal, result.ms);
    TargetInRange(rule, ordinal);
    result := SetUtcMonth(result, MonthAt(result.ms) % 12 + amount);
    if result.Invalid? {
      TargetTooLate(rule, ordinal);
      return;
    }
    LastEdit(rule, ordinal, result.ms);
    var k := MonthAt(result.ms);
    LastDayRead(k);
    var lastDay := DateUtc(k / 12, k % 12 + 1, 0);
    if lastDay.Invalid? { return Invalid; }
    result := SetUtcDate(result, Min(day, DayOfMonth(lastDay.ms)));
  }

  /** The edits of the source's mutable Date land on Occurrence. */
  method OccurrenceAt(rule: Rule, ordinal: nat) returns (result: Instant)
    requires Stored(rule)
    ensures result == Occurrence(rule, ordinal)
  {
    var amount := ordinal * rule.interval;
    result := At(rule.startsAt);
    FieldsMakeTime(rule.startsAt);
    if rule.frequency == Daily {
      result := SetUtcDate(result, DayOfMonth(result.ms) + amount);
    } else if rule.frequency == Weekly {
      result := SetUtcDate(result, DayOfMonth(result.ms) + amount * 7);
    } else {
      result := MonthlyOccurrence(rule, ordinal, amount);
    }
  }

  // ---------------------------------------------------------------- order and fields

  lemma {:induction false} StepsGrow(n: nat, m: nat, step: int)
    requires n < m && step >= 1
    ensures n * step + step <= m * step
    decreases m - n
  {
    if n + 1 < m {
      StepsGrow(n + 1, m, step);
    }
    assert (n + 1) * step == n * step + step;
  }

  /** A monthly occurrence keeps its time of day and its day, cut to the month's end:
      no drift. The one exception is what Date.UTC makes of February of year 0. */
  lemma MonthlyFields(rule: Rule, n: nat)
    requires Stored(rule) && rule.frequency == Monthly
    ensures var at, k := OccurrenceMs(rule, n), TargetMonth(rule, n);
            && MonthAt(at) == k && TimeInDay(at) == TimeInDay(rule.startsAt)
            && (DayOfMonth(at) == Min(DayOfMonth(rule.startsAt), DaysInMonth(k)) <==>
                !(k == 1 && DayOfMonth(rule.startsAt) >= 29))
  {
    var k := TargetMonth(rule, n);
    assert DaysInMonth(1) == 29;
    MakeTimeFields(k, Min(DayOfMonth(rule.startsAt), ClampLength(k)), TimeInDay(rule.startsAt));
  }

  /** The exception happens: a rule started on 31 January of year 0 next falls on the 28th. */
  lemma FebruaryOfYearZero()
    ensures var rule := Rule("r", Monthly, 1, MakeTime(0, 31, 0), None);
            Stored(rule) && DayOfMonth(OccurrenceMs(rule, 1)) == 28 && DaysInMonth(TargetMonth(rule, 1)) == 29
  {
    MonthStartMonotone(0, EPOCH_MONTH);
    MonthLength(0);
    assert DaysInMonth(0) == 31 && DaysInMonth(1) == 29;
    MakeTimeFields(0, 31, 0);
    MakeTimeFields(1, 28, 0);
  }

  lemma MonthlyBracket(rule: Rule, n: nat)
    requires rule.frequency == Monthly
    ensures var k := TargetMonth(rule, n);
            MonthStart(k) * MS_PER_DAY <= OccurrenceMs(rule, n) < MonthStart(k + 1) * MS_PER_DAY
  {
    MonthLength(TargetMonth(rule, n));
  }

  lemma OccurrencesIncrease(rule: Rule, n: nat, m: nat)
    requires Stored(rule) && n < m
    ensures OccurrenceMs(rule, n) < OccurrenceMs(rule, m)
  {
    StepsGrow(n, m, rule.interval);
    if rule.frequency == Monthly {
      MonthlyBracket(rule, n);
      MonthlyBracket(rule, m);
      MonthStartMonotone(TargetMonth(rule, n) + 1, TargetMonth(rule, m));
    }
  }

  lemma OccurrenceValue(rule: Rule, n: nat)
    requires Representable(rule, n)
    ensures Occurrence(rule, n).ms == OccurrenceMs(rule, n)
  {}

  /** Once an occurrence leaves the Date range, every later one has. */
  lemma UnrepresentableStays(rule: Rule, n: nat, m: nat)
    requires Stored(rule) && n <= m && Representable(rule, m)
    ensures Representable(rule, n)
  {
    if n < m {
      OccurrencesIncrease(rule, n, m);
      InRangeBelow(rule, n);
      if rule.frequency == Monthly {
        StepsGrow(n, m, rule.interval);
        MonthStartMonotone(TargetMonth(rule, n) + 1, TargetMonth(rule, m) + 1);
      }
    }
  }

  lemma InRangeBelow(rule: Rule, n: nat)
    requires Stored(rule)
    ensures OccurrenceMs(rule, n) >= -MAX_TIME
  {
    FirstOccurrence(rule);
    if n > 0 {
      OccurrencesIncrease(rule, 0, n);
    }
    MonthStartMonotone(1, EPOCH_MONTH);
  }

  /** Occurrence 0 is the start itself, unless the start is 29 February of year 0. */
  lemma FirstOccurrence(rule: Rule)
    ensures OccurrenceMs(rule, 0) == rule.startsAt <==>
            !(rule.frequency == Monthly && MonthAt(rule.startsAt) == 1 && DayOfMonth(rule.startsAt) == 29)
    ensures OccurrenceMs(rule, 0) == rule.startsAt || OccurrenceMs(rule, 0) == MakeTime(1, 28, TimeInDay(rule.startsAt))
  {
    FieldsMakeTime(rule.startsAt);
    assert DaysInMonth(1) == 29;
  }

  // ---------------------------------------------------------------- the fast cursor

  ghost function FirstAfterFrom(rule: Rule, t: int, n: nat): (r: nat)
    requires Stored(rule) && (n > 0 ==> OccurrenceMs(rule, n - 1) <= t)
    ensures OccurrenceMs(rule, r) > t && (r > 0 ==> OccurrenceMs(rule, r - 1) <= t)
    decreases t - OccurrenceMs(rule, n)
  {
    OccurrencesIncrease(rule, n, n + 1);
    if OccurrenceMs(rule, n) > t then n else FirstAfterFrom(rule, t, n + 1)
  }

  /** Linear search: the first ordinal whose occurrence is after t. */
  ghost function FirstAfter(rule: Rule, t: int): (r: nat)
    requires Stored(rule)
    ensures OccurrenceMs(rule, r) > t
    ensures r > 0 ==> OccurrenceMs(rule, r - 1) <= t
  {
    FirstAfterFrom(rule, t, 0)
  }

  /** FirstAfter splits the ordinals: below it occurrences are at or before t, from it on after. */
  lemma FirstAfterSplits(rule: Rule, t: int, n: nat)
    requires Stored(rule)
    ensures OccurrenceMs(rule, n) <= t <==> n < FirstAfter(rule, t)
  {
    var r := FirstAfter(rule, t);
    if n < r - 1 {
      OccurrencesIncrease(rule, n, r - 1);
    } else if r < n {
      OccurrencesIncrease(rule, r, n);
    }
  }

  /** The least ordinal past t is the one past t whose predecessor is not. */
  lemma FirstAfterUnique(rule: Rule, t: int, n: nat)
    requires Stored(rule)
    ensures n == FirstAfter(rule, t) <==> OccurrenceMs(rule, n) > t && (n > 0 ==> OccurrenceMs(rule, n - 1) <= t)
  {
    FirstAfterSplits(rule, t, n);
    if n > 0 {
      FirstAfterSplits(rule, t, n - 1);
    }
  }

  /** The ordinal the source starts its correction from. */
  function Guess(rule: Rule, last: int): int
    requires Stored(rule) && rule.startsAt <= last
  {
    if rule.frequency == Monthly then
      (12 * (MonthAt(last) / 12 - MonthAt(rule.startsAt) / 12)
       + (MonthAt(last) % 12 - MonthAt(rule.startsAt) % 12)) / rule.interval
    else (last - rule.startsAt) / MS_PER_DAY / (rule.interval * PeriodDays(rule))
  }

  lemma QuotientBounds(d: int, step: int)
    requires d >= 0 && step >= 1
    ensures 0 <= d / step && (d / step) * step <= d < (d / step + 1) * step
  {
    var q := d / step;
    assert d == step * q + d % step;
    assert (q + 1) * step == q * step + step;
  }

  lemma DayStep(rule: Rule, n: nat)
    requires Stored(rule) && rule.frequency != Monthly
    ensures OccurrenceMs(rule, n) == rule.startsAt + (n * (rule.interval * PeriodDays(rule))) * MS_PER_DAY
  {
    assert n * rule.interval * PeriodDays(rule) == n * (rule.interval * PeriodDays(rule));
  }

  lemma MonthOfInstant(ms: int)
    ensures MonthStart(MonthAt(ms)) * MS_PER_DAY <= ms < MonthStart(MonthAt(ms) + 1) * MS_PER_DAY
  {}

  lemma DayGuess(rule: Rule, last: int)
    requires Stored(rule) && rule.startsAt <= last && rule.frequency != Monthly
    ensures var n := Guess(rule, last);
            && n >= 0
            && OccurrenceMs(rule, n + 1) > last
            && OccurrenceMs(rule, n) <= last
  {
    var n := Guess(rule, last);
    var step := rule.interval * PeriodDays(rule);
    QuotientBounds((last - rule.startsAt) / MS_PER_DAY, step);
    DayStep(rule, n + 1);
    DayStep(rule, n);
  }

  lemma MonthGuess(rule: Rule, last: int)
    requires Stored(rule) && rule.startsAt <= last && rule.frequency == Monthly
    ensures var n := Guess(rule, last);
            && n >= 0
            && TargetMonth(rule, n) <= MonthAt(last) < TargetMonth(rule, n + 1)
  {
    var m0, ml := MonthAt(rule.startsAt), MonthAt(last);
    MonthMonotone(Day(rule.startsAt), Day(last));
    assert 12 * (ml / 12 - m0 / 12) + (ml % 12 - m0 % 12) == ml - m0;
    QuotientBounds(ml - m0, rule.interval);
  }

  /** The guess is never late, and at most one ordinal early. */
  lemma GuessIsClose(rule: Rule, last: int)
    requires Stored(rule) && rule.startsAt <= last
    ensures var n := Guess(rule, last);
            && n >= 0
            && OccurrenceMs(rule, n + 1) > last
            && (n > 0 ==> OccurrenceMs(rule, n - 1) <= last)
  {
    if rule.frequency == Monthly {
      MonthGuess(rule, last);
      var n := Guess(rule, last);
      MonthlyAgainst(rule, n + 1, last);
      if n > 0 {
        StepsGrow(n - 1, n, rule.interval);
        MonthlyAgainst(rule, n - 1, last);
      }
    } else {
      DayGuess(rule, last);
      var n := Guess(rule, last);
      if n > 0 {
        OccurrencesIncrease(rule, n - 1, n);
      }
    }
  }

  /** Months decide: an occurrence in another month than t lies on the same side of t. */
  lemma MonthlyAgainst(rule: Rule, n: nat, t: int)
    requires rule.frequency == Monthly
    ensures TargetMonth(rule, n) < MonthAt(t) ==> OccurrenceMs(rule, n) < t
    ensures TargetMonth(rule, n) > MonthAt(t) ==> OccurrenceMs(rule, n) > t
  {
    MonthOfInstant(t);
    MonthlyBracket(rule, n);
    if TargetMonth(rule, n) < MonthAt(t) {
      MonthStartMonotone(TargetMonth(rule, n) + 1, MonthAt(t));
    } else if TargetMonth(rule, n) > MonthAt(t) {
      MonthStartMonotone(MonthAt(t) + 1, TargetMonth(rule, n));
    }
  }

  /** The instants the calendar treats regularly for a rule: the start's month begins in
      the Date range, t's month ends in it, and t does not fall in the day that 29
      February of year 0 loses. Every date a ticket can carry is one. */
  predicate Regular(rule: Rule, t: int) {
    && Anchored(rule)
    && (rule.frequency == Monthly ==> (MonthStart(MonthAt(t) + 1) - 1) * MS_PER_DAY <= MAX_TIME)
    && (rule.startsAt <= t || OccurrenceMs(rule, 0) == rule.startsAt)
  }

  /** At a regular instant, an occurrence that is no Date lies after it. */
  lemma AtOrBeforeIsDate(rule: Rule, n: nat, t: int)
    requires Stored(rule) && Regular(rule, t) && ValidDate(t) && OccurrenceMs(rule, n) <= t
    ensures Representable(rule, n)
  {
    InRangeBelow(rule, n);
    if rule.frequency == Monthly {
      MonthlyAgainst(rule, n, t);
      MonthStartMonotone(TargetMonth(rule, n) + 1, MonthAt(t) + 1);
    }
  }

  /** The fast cursor: the guess plus at most one correction, and the linear search exactly
      when the guessed occurrence is a Date or lies after the instant; before the rule's
      start, exactly when its first occurrence lies after the instant. Both hold at every
      regular instant. */
  method OccurrenceOrdinalAfter(rule: Rule, lastOccurrence: Option<int>)
    returns (ordinal: nat, ghost advances: nat)
    requires Stored(rule)
    requires lastOccurrence.Some? ==> ValidDate(lastOccurrence.value)
    ensures lastOccurrence.None? || lastOccurrence.value < rule.startsAt ==> ordinal == 0
    ensures lastOccurrence.Some? && lastOccurrence.value < rule.startsAt ==>
              (ordinal == FirstAfter(rule, lastOccurrence.value) <==> OccurrenceMs(rule, 0) > lastOccurrence.value)
    ensures lastOccurrence.Some? && rule.startsAt <= lastOccurrence.value ==>
              var guess := Guess(rule, lastOccurrence.value);
              && guess >= 0 && ordinal == guess + advances
              && (ordinal == FirstAfter(rule, lastOccurrence.value) <==>
                  Representable(rule, guess) || OccurrenceMs(rule, guess) > lastOccurrence.value)
    ensures lastOccurrence.Some? && Regular(rule, lastOccurrence.value) ==>
              ordinal == FirstAfter(rule, lastOccurrence.value)
    ensures advances <= 1
  {
    advances := 0;
    if lastOccurrence.None? { return 0, 0; }
    var last := lastOccurrence.value;
    if last < rule.startsAt {
      FirstAfterUnique(rule, last, 0);
      return 0, 0;
    }
    ordinal, advances := Corrected(rule, last);
    CorrectionExact(rule, last, ordinal, advances);
    if Regular(rule, last) {
      CursorStops(rule, ordinal, last);
    }
  }

  /** The correction loop. */
  method Corrected(rule: Rule, last: int) returns (ordinal: nat, ghost advances: nat)
    requires Stored(rule) && ValidDate(last) && rule.startsAt <= last
    ensures Guess(rule, last) >= 0 && ordinal == Guess(rule, last) + advances && advances <= 1
    ensures Representable(rule, ordinal) ==> Occurrence(rule, ordinal).ms > last
    ensures advances > 0 ==> Representable(rule, Guess(rule, last)) && OccurrenceMs(rule, Guess(rule, last)) <= last
  {
    GuessIsClose(rule, last);
    ordinal, advances := Guess(rule, last), 0;
    var at := OccurrenceAt(rule, ordinal);
    while at.At? && at.ms <= last
      invariant at == Occurrence(rule, ordinal)
      invariant ordinal == Guess(rule, last) + advances && advances <= 1
      invariant advances > 0 ==> Representable(rule, Guess(rule, last)) && OccurrenceMs(rule, Guess(rule, last)) <= last
      decreases 1 - advances
    {
      OccurrenceValue(rule, ordinal);
      ordinal, advances := ordinal + 1, advances + 1;
      at := OccurrenceAt(rule, ordinal);
    }
  }

  lemma CorrectionExact(rule: Rule, last: int, ordinal: nat, advances: nat)
    requires Stored(rule) && ValidDate(last) && rule.startsAt <= last
    requires Guess(rule, last) >= 0 && ordinal == Guess(rule, last) + advances && advances <= 1
    requires advances == 0 && Representable(rule, ordinal) ==> Occurrence(rule, ordinal).ms > last
    requires advances > 0 ==> Representable(rule, Guess(rule, last)) && OccurrenceMs(rule, Guess(rule, last)) <= last
    ensures ordinal == FirstAfter(rule, last) <==>
            Representable(rule, Guess(rule, last)) || OccurrenceMs(rule, Guess(rule, last)) > last
    ensures ordinal > 0 ==> OccurrenceMs(rule, ordinal - 1) <= last
  {
    GuessIsClose(rule, last);
    FirstAfterUnique(rule, last, ordinal);
    if advances == 0 && Representable(rule, ordinal) {
      OccurrenceValue(rule, ordinal);
    } else if advances == 1 {
      assert ordinal - 1 == Guess(rule, last);
    }
  }

  lemma CursorStops(rule: Rule, n: nat, t: int)
    requires Stored(rule) && Regular(rule, t) && ValidDate(t)
    requires Representable(rule, n) ==> Occurrence(rule, n).ms > t
    requires n > 0 ==> OccurrenceMs(rule, n - 1) <= t
    ensures n == FirstAfter(rule, t)
  {
    if OccurrenceMs(rule, n) <= t {
      AtOrBeforeIsDate(rule, n, t);
      assert false;
    }
    FirstAfterUnique(rule, t, n);
  }

  // ---------------------------------------------------------------- due slots

  /** Ordinals of [lo, hi) whose slot of this rule is not claimed, in order. */
  function Unclaimed(existing: set<Key>, id: string, lo: nat, hi: nat): seq<nat>
    decreases hi
  {
    if hi <= lo then []
    else Unclaimed(existing, id, lo, hi - 1) + if Key(id, hi - 1) in existing then [] else [hi - 1]
  }

  lemma {:induction false} UnclaimedExact(existing: set<Key>, id: string, lo: nat, hi: nat)
    ensures forall n: nat :: n in Unclaimed(existing, id, lo, hi) <==> lo <= n < hi && Key(id, n) !in existing
    ensures forall i, j :: 0 <= i < j < |Unclaimed(existing, id, lo, hi)| ==>
              Unclaimed(existing, id, lo, hi)[i] < Unclaimed(existing, id, lo, hi)[j]
    decreases hi
  {
    if lo < hi {
      UnclaimedExact(existing, id, lo, hi - 1);
      var before := Unclaimed(existing, id, lo, hi - 1);
      assert forall i :: 0 <= i < |before| ==> before[i] in before;
    }
  }

  lemma {:induction false} UnclaimedExtends(existing: set<Key>, id: string, lo: nat, mid: nat, hi: nat)
    requires mid <= hi
    ensures Unclaimed(existing, id, lo, mid) <= Unclaimed(existing, id, lo, hi)
    decreases hi
  {
    if mid < hi {
      UnclaimedExtends(existing, id, lo, mid, hi - 1);
    }
  }

  /** The earliest of the rule's end, now and the horizon. */
  function LastDue(rule: Rule, now: int, horizon: int): int {
    Min(if rule.until.Some? then Min(rule.until.value, now) else now, horizon)
  }

  /** Not after the rule's end, now and the horizon. */
  lemma LastDueIsEarliest(rule: Rule, now: int, horizon: int, at: int)
    ensures at <= LastDue(rule, now, horizon) <==>
            at <= now && at <= horizon && (rule.until.Some? ==> at <= rule.until.value)
  {}

  /** A list short of its limit holds every due ordinal that is not claimed. */
  lemma ShortListHolds(rule: Rule, now: int, horizon: int, existing: set<Key>, limit: nat, start: nat, n: nat)
    requires Stored(rule) && |DueOrdinals(rule, LastDue(rule, now, horizon), existing, limit, start)| < limit
    requires start <= n && Key(rule.id, n) !in existing
    requires OccurrenceMs(rule, n) <= now && OccurrenceMs(rule, n) <= horizon
    requires rule.until.Some? ==> OccurrenceMs(rule, n) <= rule.until.value
    ensures n in DueOrdinals(rule, LastDue(rule, now, horizon), existing, limit, start)
  {
    LastDueIsEarliest(rule, now, horizon, OccurrenceMs(rule, n));
    FirstAfterSplits(rule, LastDue(rule, now, horizon), n);
    UnclaimedExact(existing, rule.id, start, FirstAfter(rule, LastDue(rule, now, horizon)));
  }

  /** The first `limit` unclaimed ordinals from start whose occurrence is not after last. */
  ghost function DueOrdinals(rule: Rule, last: int, existing: set<Key>, limit: nat, start: nat): seq<nat>
    requires Stored(rule)
  {
    FirstN(Unclaimed(existing, rule.id, start, FirstAfter(rule, last)), limit)
  }

  ghost function Ordinals(slots: seq<DueOccurrence>): seq<nat> {
    seq(|slots|, i requires 0 <= i < |slots| => slots[i].key.ordinal)
  }

  ghost function ClaimedFrom(existing: set<Key>, id: string, lo: nat): set<Key> {
    set k | k in existing && k.ruleId == id && k.ordinal >= lo
  }

  lemma ClaimedShrinks(existing: set<Key>, id: string, lo: nat)
    ensures |ClaimedFrom(existing, id, lo + 1)| <= |ClaimedFrom(existing, id, lo)|
    ensures Key(id, lo) in existing ==> |ClaimedFrom(existing, id, lo + 1)| < |ClaimedFrom(existing, id, lo)|
  {
    var a, b := ClaimedFrom(existing, id, lo), ClaimedFrom(existing, id, lo + 1);
    assert b == a - {Key(id, lo)};
  }

  /** Does the code's own stop test hold at ordinal n? An Invalid date never stops it. */
  predicate Stops(rule: Rule, last: int, n: nat) {
    Representable(rule, n) && Occurrence(rule, n).ms > last
  }

  /** The stop test first holds at the first ordinal after last, or never. */
  lemma StopsAt(rule: Rule, last: int, start: nat, n: nat)
    requires Stored(rule) && start <= n
    requires forall m: nat :: start <= m < n ==> !Stops(rule, last, m)
    ensures var stop := if start <= FirstAfter(rule, last) then FirstAfter(rule, last) else start;
            && (Stops(rule, last, n) ==> n == stop && Representable(rule, stop))
            && (!Stops(rule, last, n) ==> n < stop || !Representable(rule, stop))
  {
    var first := FirstAfter(rule, last);
    var stop := if start <= first then first else start;
    FirstAfterSplits(rule, last, n);
    FirstAfterSplits(rule, last, stop);
    if Stops(rule, last, n) && stop < n {
      UnrepresentableStays(rule, stop, n);
      assert Stops(rule, last, stop);
    }
    if !Stops(rule, last, n) && stop < n && Representable(rule, stop) {
      assert Stops(rule, last, stop);
    }
  }

  /** Terminates on every input, and returns the slots in order without duplicates.
      They are precisely the due ones exactly when the first occurrence past the end is
      still a Date or the limit was reached before it: an Invalid Date compares false,
      so it does not stop the loop. */
  method DueRecurrenceOccurrences(
    rule: Rule, now: int, horizon: int, existingKeys: set<Key>, limit: int, startOrdinal: int)
    returns (r: Result<seq<DueOccurrence>, string>)
    requires ValidDate(now) && ValidDate(horizon)
    ensures r.Err? <==> AssertRule(rule).Some? || limit < 1 || startOrdinal < 0
    ensures r.Ok? ==> forall i :: 0 <= i < |r.value| ==> var n := r.value[i].key.ordinal;
              r.value[i] == DueOccurrence(rule.id, Occurrence(rule, n), Key(rule.id, n))
    ensures r.Ok? ==> |r.value| <= limit
    ensures r.Ok? ==> forall i :: 0 <= i < |r.value| && r.value[i].occursAt.At? ==>
              && r.value[i].occursAt.ms <= now && r.value[i].occursAt.ms <= horizon
              && (rule.until.Some? ==> r.value[i].occursAt.ms <= rule.until.value)
    ensures r.Ok? && now >= rule.startsAt && |r.value| < limit ==>
              forall n: nat :: startOrdinal <= n && Key(rule.id, n) !in existingKeys
                               && OccurrenceMs(rule, n) <= now && OccurrenceMs(rule, n) <= horizon
                               && (rule.until.Some? ==> OccurrenceMs(rule, n) <= rule.until.value)
                               ==> n in Ordinals(r.value)
    ensures r.Ok? ==> exists hi: nat :: Ordinals(r.value) == Unclaimed(existingKeys, rule.id, startOrdinal, hi)
    ensures r.Ok? && now < rule.startsAt ==> r.value == []
    ensures r.Ok? && now >= rule.startsAt && |r.value| < limit ==>
      Ordinals(r.value) == DueOrdinals(rule, LastDue(rule, now, horizon), existingKeys, limit, startOrdinal)
    ensures r.Ok? && now >= rule.startsAt ==>
      var last := LastDue(rule, now, horizon);
      var first := FirstAfter(rule, last);
      var stop := if startOrdinal <= first then first else startOrdinal;
      (Ordinals(r.value) == DueOrdinals(rule, last, existingKeys, limit, startOrdinal) <==>
       Representable(rule, stop) || |Unclaimed(existingKeys, rule.id, startOrdinal, first)| >= limit)
  {
    var refused := AssertRule(rule);
    if refused.Some? { return Err(refused.value); }
    if limit < 1 { return Err("limit must be a positive safe integer"); }
    if startOrdinal < 0 { return Err("startOrdinal must be a non-negative safe integer"); }
    if now < rule.startsAt {
      assert Ordinals([]) == Unclaimed(existingKeys, rule.id, startOrdinal, startOrdinal);
      return Ok([]);
    }
    var last := LastDue(rule, now, horizon);
    var result: seq<DueOccurrence> := [];
    var ordinal: nat := startOrdinal;
    ghost var open: seq<nat> := [];
    while true
      invariant startOrdinal <= ordinal && |result| <= limit
      invariant open == Unclaimed(existingKeys, rule.id, startOrdinal, ordinal)
      invariant Ordinals(result) == open
      invariant forall i :: 0 <= i < |result| ==> var n := result[i].key.ordinal;
        result[i] == DueOccurrence(rule.id, Occurrence(rule, n), Key(rule.id, n))
      invariant forall i :: 0 <= i < |result| && result[i].occursAt.At? ==> result[i].occursAt.ms <= last
      invariant forall m: nat :: startOrdinal <= m < ordinal ==> !Stops(rule, last, m)
      decreases limit - |result| + |ClaimedFrom(existingKeys, rule.id, ordinal)|
    {
      ClaimedShrinks(existingKeys, rule.id, ordinal);
      var occursAt := OccurrenceAt(rule, ordinal);
      StopsAt(rule, last, startOrdinal, ordinal);
      if occursAt.At? && occursAt.ms > last {
        DueExact(rule, last, existingKeys, limit, startOrdinal, ordinal);
        break;
      }
      var key := Key(rule.id, ordinal);
      if key !in existingKeys {
        if |result| == limit {
          DueExact(rule, last, existingKeys, limit, startOrdinal, ordinal);
          break;
        }
        result := result + [DueOccurrence(rule.id, occursAt, key)];
        open := open + [ordinal];
      }
      ordinal := ordinal + 1;
    }
    if |result| < limit {
      forall n: nat | startOrdinal <= n && Key(rule.id, n) !in existingKeys
                      && OccurrenceMs(rule, n) <= now && OccurrenceMs(rule, n) <= horizon
                      && (rule.until.Some? ==> OccurrenceMs(rule, n) <= rule.until.value)
        ensures n in Ordinals(result)
      {
        ShortListHolds(rule, now, horizon, existingKeys, limit, startOrdinal, n);
      }
    }
    forall i | 0 <= i < |result| && result[i].occursAt.At?
      ensures && result[i].occursAt.ms <= now && result[i].occursAt.ms <= horizon
              && (rule.until.Some? ==> result[i].occursAt.ms <= rule.until.value)
    {
      LastDueIsEarliest(rule, now, horizon, result[i].occursAt.ms);
    }
    return Ok(result);
  }

  /** Consecutive occurrences are days, weeks, or months apart by the rule's interval. */
  lemma Spacing(rule: Rule, n: nat)
    requires Stored(rule)
    ensures rule.frequency == Daily ==> OccurrenceMs(rule, n + 1) == OccurrenceMs(rule, n) + rule.interval * 86_400_000
    ensures rule.frequency == Weekly ==> OccurrenceMs(rule, n + 1) == OccurrenceMs(rule, n) + rule.interval * 604_800_000
    ensures rule.frequency == Monthly ==> MonthAt(OccurrenceMs(rule, n + 1)) == MonthAt(OccurrenceMs(rule, n)) + rule.interval
    ensures rule.frequency != Monthly ==> OccurrenceMs(rule, 0) == rule.startsAt
  {
    assert (n + 1) * rule.interval == n * rule.interval + rule.interval;
    if rule.frequency == Monthly {
      MonthlyFields(rule, n);
      MonthlyFields(rule, n + 1);
    }
  }

  /** Where the loop leaves off, against the specification: at the stop, or at the first
      unclaimed ordinal the limit has no room for. */
  lemma DueExact(rule: Rule, last: int, existing: set<Key>, limit: nat, start: nat, n: nat)
    requires Stored(rule) && start <= n
    requires |Unclaimed(existing, rule.id, start, n)| <= limit
    requires forall m: nat :: start <= m < n ==> !Stops(rule, last, m)
    requires Stops(rule, last, n) || (|Unclaimed(existing, rule.id, start, n)| == limit && Key(rule.id, n) !in existing)
    ensures var first := FirstAfter(rule, last);
            var stop := if start <= first then first else start;
            (Unclaimed(existing, rule.id, start, n) == DueOrdinals(rule, last, existing, limit, start) <==>
             Representable(rule, stop) || |Unclaimed(existing, rule.id, start, first)| >= limit)
  {
    var first := FirstAfter(rule, last);
    var stop := if start <= first then first else start;
    var open, due := Unclaimed(existing, rule.id, start, n), Unclaimed(existing, rule.id, start, first);
    StopsAt(rule, last, start, n);
    if start > first {
      assert due == [];
    }
    if Stops(rule, last, n) {
      assert n == stop;
    } else if n < stop {
      UnclaimedExtends(existing, rule.id, start, n, first);
    } else {
      UnclaimedExtends(existing, rule.id, start, stop, n);
      assert Unclaimed(existing, rule.id, start, stop) == due;
    }
  }

  /** The exception happens: a daily rule whose interval steps out of the Date range
      yields an Invalid slot although only occurrence 0 is due. */
  lemma InvalidSlotReturned(limit: nat)
    requires limit >= 2
    ensures var rule := Rule("r", Daily, 200_000_000, 0, None);
            && AssertRule(rule).None? && FirstAfter(rule, 0) == 1
            && DueOrdinals(rule, 0, {}, limit, 0) == [0]
            && !Representable(rule, 1)
            && |Unclaimed({}, rule.id, 0, 1)| < limit
  {
    var rule := Rule("r", Daily, 200_000_000, 0, None);
    FirstAfterUnique(rule, 0, 1);
    assert Unclaimed({}, rule.id, 0, 1) == [0];
  }
}
