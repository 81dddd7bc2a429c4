/**
 * Service availability (status.ts). Downtime is computed by clipping, subtracting,
 * sorting and merging intervals; it is specified as a measure: the number of
 * milliseconds at which a counted incident is open and no planned change is.
 */
module Availability {
  import opened Sequences
  import opened Calendar

  datatype Incident = Incident(
    startedAt: int, resolvedAt: Option<int>, impactLevel: string, plannedMaintenance: bool)
  datatype PlannedChange = PlannedChange(startsAt: int, endsAt: int)
  datatype Span = Span(from: int, to: int)

  /** The arguments every availability function takes besides its window. */
  datatype StatusLog = StatusLog(
    incidents: seq<Incident>, impacts: map<string, bool>,
    excludePlannedMaintenance: bool, plannedChanges: seq<PlannedChange>)
  {
    predicate Counted(i: Incident) {
      && i.impactLevel in impacts && impacts[i.impactLevel]
      && (!excludePlannedMaintenance || !i.plannedMaintenance)
    }

    /** What downtime means at one millisecond. */
    ghost predicate DownAt(t: int) {
      && (exists i :: i in incidents && Counted(i) && OpenAt(i, t))
      && !(excludePlannedMaintenance && PlannedAt(plannedChanges, t))
    }
  }

  predicate OpenAt(i: Incident, t: int) {
    i.startedAt <= t && (i.resolvedAt.Some? ==> t < i.resolvedAt.value)
  }

  ghost predicate PlannedAt(windows: seq<PlannedChange>, t: int) {
    exists w :: w in windows && w.startsAt <= t < w.endsAt
  }

  // ---------------------------------------------------------------- measure

  /** Number of instants in [lo, hi) with property p. */
  ghost function Measure(p: int -> bool, lo: int, hi: int): nat
    decreases hi - lo
  {
    if hi <= lo then 0 else Measure(p, lo, hi - 1) + if p(hi - 1) then 1 else 0
  }

  lemma {:induction false} MeasureSplit(p: int -> bool, a: int, b: int, c: int)
    requires a <= b <= c
    ensures Measure(p, a, c) == Measure(p, a, b) + Measure(p, b, c)
    decreases c - b
  {
    if b < c {
      MeasureSplit(p, a, b, c - 1);
    }
  }

  lemma {:induction false} MeasureMonotone(p: int -> bool, q: int -> bool, lo: int, hi: int)
    requires forall t :: lo <= t < hi && p(t) ==> q(t)
    ensures Measure(p, lo, hi) <= Measure(q, lo, hi)
    decreases hi - lo
  {
    if lo < hi {
      MeasureMonotone(p, q, lo, hi - 1);
    }
  }

  lemma MeasureAgree(p: int -> bool, q: int -> bool, lo: int, hi: int)
    requires forall t :: lo <= t < hi ==> p(t) == q(t)
    ensures Measure(p, lo, hi) == Measure(q, lo, hi)
  {
    MeasureMonotone(p, q, lo, hi);
    MeasureMonotone(q, p, lo, hi);
  }

  lemma {:induction false} MeasureBounds(p: int -> bool, lo: int, hi: int)
    requires lo <= hi
    ensures Measure(p, lo, hi) <= hi - lo
    ensures Measure(p, lo, hi) == hi - lo <==> forall t :: lo <= t < hi ==> p(t)
    ensures Measure(p, lo, hi) == 0 <==> forall t :: lo <= t < hi ==> !p(t)
    decreases hi - lo
  {
    if lo < hi {
      MeasureBounds(p, lo, hi - 1);
    }
  }

  /** Milliseconds of downtime in the window, as the measure of DownAt. */
  ghost function DownMs(log: StatusLog, lo: int, hi: int): nat {
    Measure(t => log.DownAt(t), lo, hi)
  }

  // ---------------------------------------------------------------- intervals

  predicate Holds(s: Span, t: int) { s.from <= t < s.to }

  ghost predicate InSome(spans: seq<Span>, t: int) {
    exists s :: s in spans && Holds(s, t)
  }

  function Clip(i: Incident, start: int, end: int): Span {
    Span(Max(start, i.startedAt), Min(end, if i.resolvedAt.Some? then i.resolvedAt.value else end))
  }

  predicate Positive(s: Span) { s.to > s.from }

  function SubtractWindow(part: Span, w: PlannedChange): seq<Span> {
    if w.endsAt <= part.from || w.startsAt >= part.to then [part]
    else Filter([Span(part.from, Max(part.from, w.startsAt)), Span(Min(part.to, w.endsAt), part.to)], Positive)
  }

  function SubtractWindows(parts: seq<Span>, windows: seq<PlannedChange>): seq<Span>
    decreases windows
  {
    if windows == [] then parts
    else SubtractWindows(FlatMap(parts, p => SubtractWindow(p, windows[0])), windows[1..])
  }

  /** Everything before the sort: the non-empty pieces of counted downtime. */
  function Pieces(log: StatusLog, start: int, end: int): seq<Span> {
    var counted := Filter(log.incidents, i => log.Counted(i));
    var clipped := Map(counted, i => Clip(i, start, end));
    var open := FlatMap(clipped, s =>
      if log.excludePlannedMaintenance then SubtractWindows([s], log.plannedChanges) else [s]);
    Filter(open, Positive)
  }

  lemma SubtractWindowHolds(part: Span, w: PlannedChange, t: int)
    ensures InSome(SubtractWindow(part, w), t) <==> Holds(part, t) && !(w.startsAt <= t < w.endsAt)
  {
    var before := Span(part.from, Max(part.from, w.startsAt));
    var after := Span(Min(part.to, w.endsAt), part.to);
    assert forall s :: s in [before, after] <==> s == before || s == after;
    assert part in [part];
    if Holds(part, t) && !(w.startsAt <= t < w.endsAt) && !(w.endsAt <= part.from || w.startsAt >= part.to) {
      assert Holds(before, t) || Holds(after, t);
    }
  }

  /** Subtracting every window removes exactly the instants some window holds. */
  lemma {:induction false} SubtractWindowsHolds(parts: seq<Span>, windows: seq<PlannedChange>, t: int)
    ensures InSome(SubtractWindows(parts, windows), t) <==> InSome(parts, t) && !PlannedAt(windows, t)
    decreases windows
  {
    if windows != [] {
      var w := windows[0];
      var next := FlatMap(parts, p => SubtractWindow(p, w));
      assert InSome(next, t) <==> InSome(parts, t) && !(w.startsAt <= t < w.endsAt) by {
        forall p | p in parts
          ensures InSome(SubtractWindow(p, w), t) <==> Holds(p, t) && !(w.startsAt <= t < w.endsAt)
        {
          SubtractWindowHolds(p, w, t);
        }
      }
      SubtractWindowsHolds(next, windows[1..], t);
      assert forall v :: v in windows <==> v == w || v in windows[1..];
    }
  }

  lemma ClippedHold(counted: seq<Incident>, start: int, end: int, t: int)
    ensures InSome(Map(counted, i => Clip(i, start, end)), t) <==>
            start <= t < end && exists i :: i in counted && OpenAt(i, t)
  {
    var clipped := Map(counted, i => Clip(i, start, end));
    if i :| i in counted && start <= t < end && OpenAt(i, t) {
      var k :| 0 <= k < |counted| && counted[k] == i;
      assert clipped[k] in clipped && Holds(clipped[k], t);
    }
    if s :| s in clipped && Holds(s, t) {
      var k :| 0 <= k < |clipped| && clipped[k] == s;
      assert counted[k] in counted && OpenAt(counted[k], t);
    }
  }

  lemma FlatMapHold(clipped: seq<Span>, f: Span -> seq<Span>, planned: bool, t: int)
    requires forall s :: InSome(f(s), t) <==> Holds(s, t) && !planned
    ensures InSome(FlatMap(clipped, f), t) <==> InSome(clipped, t) && !planned
  {
    if s :| s in clipped && Holds(s, t) && !planned {
      assert InSome(f(s), t);
    }
    if p :| p in FlatMap(clipped, f) && Holds(p, t) {
      var s :| s in clipped && p in f(s);
      assert InSome(f(s), t);
    }
  }

  /** The pieces hold exactly the down instants of the window. */
  lemma PiecesHold(log: StatusLog, start: int, end: int, t: int)
    ensures InSome(Pieces(log, start, end), t) <==> start <= t < end && log.DownAt(t)
  {
    var counted := Filter(log.incidents, i => log.Counted(i));
    var clipped := Map(counted, i => Clip(i, start, end));
    var f := s => if log.excludePlannedMaintenance then SubtractWindows([s], log.plannedChanges) else [s];
    var planned := log.excludePlannedMaintenance && PlannedAt(log.plannedChanges, t);
    forall s
      ensures InSome(f(s), t) <==> Holds(s, t) && !planned
    {
      SubtractWindowsHolds([s], log.plannedChanges, t);
      assert s in [s];
    }
    ClippedHold(counted, start, end, t);
    FlatMapHold(clipped, f, planned, t);
    assert InSome(Pieces(log, start, end), t) <==> InSome(FlatMap(clipped, f), t);
  }

  // ---------------------------------------------------------------- sort and merge

  predicate Sorted(spans: seq<Span>) {
    forall i, j :: 0 <= i < j < |spans| ==> spans[i].from <= spans[j].from
  }

  function Position(s: Span, spans: seq<Span>): (k: nat)
    requires Sorted(spans)
    ensures k <= |spans|
    ensures forall i :: 0 <= i < k ==> spans[i].from < s.from
    ensures forall i :: k <= i < |spans| ==> s.from <= spans[i].from
  {
    if spans == [] || s.from <= spans[0].from then 0 else 1 + Position(s, spans[1..])
  }

  lemma InsertKeepsSorted(s: Span, spans: seq<Span>, k: nat)
    requires Sorted(spans) && k <= |spans|
    requires forall i :: 0 <= i < k ==> spans[i].from < s.from
    requires forall i :: k <= i < |spans| ==> s.from <= spans[i].from
    ensures Sorted(spans[..k] + [s] + spans[k..])
  {
    var r := spans[..k] + [s] + spans[k..];
    assert forall i :: 0 <= i < |r| ==> r[i] == if i < k then spans[i] else if i == k then s else spans[i - 1];
  }

  lemma InsertAdds(s: Span, spans: seq<Span>, k: nat)
    requires k <= |spans|
    ensures multiset(spans[..k] + [s] + spans[k..]) == multiset(spans) + multiset{s}
  {
    assert spans == spans[..k] + spans[k..];
  }

  function InsertByStart(s: Span, spans: seq<Span>): (r: seq<Span>)
    requires Sorted(spans)
    ensures Sorted(r) && multiset(r) == multiset(spans) + multiset{s}
  {
    var k := Position(s, spans);
    InsertKeepsSorted(s, spans, k);
    InsertAdds(s, spans, k);
    spans[..k] + [s] + spans[k..]
  }

  /** The stable sort by start the source calls the standard library for. */
  function SortByStart(spans: seq<Span>): (r: seq<Span>)
    ensures Sorted(r) && multiset(r) == multiset(spans)
  {
    if spans == [] then []
    else
      assert spans == [spans[0]] + spans[1..];
      InsertByStart(spans[0], SortByStart(spans[1..]))
  }

  ghost function Cover(spans: seq<Span>): int -> bool { t => InSome(spans, t) }

  lemma InSomeAppend(spans: seq<Span>, s: Span, t: int)
    ensures InSome(spans + [s], t) <==> InSome(spans, t) || Holds(s, t)
  {
    if InSome(spans, t) {
      var x :| x in spans && Holds(x, t);
      assert x in spans + [s];
    }
    assert s in spans + [s];
  }

  /** What the merge cursor knows after the spans in done: everything before
      cursorStart is counted in total, [cursorStart, cursorEnd) is one open run. */
  ghost predicate CursorInv(done: seq<Span>, total: int, cursorStart: int, cursorEnd: int) {
    && 0 <= cursorStart <= cursorEnd
    && (forall j :: 0 <= j < |done| ==> done[j].to <= cursorEnd)
    && (forall t :: cursorStart <= t < cursorEnd ==> InSome(done, t))
    && total == Measure(Cover(done), 0, cursorStart)
    && (cursorStart == 0 || exists j :: 0 <= j < |done| && done[j].from == cursorStart)
  }

  lemma CursorStep(done: seq<Span>, s: Span, total: int, cursorStart: int, cursorEnd: int)
    requires Sorted(done + [s]) && Positive(s)
    requires CursorInv(done, total, cursorStart, cursorEnd)
    ensures s.to <= cursorEnd ==> CursorInv(done + [s], total, cursorStart, cursorEnd)
    ensures s.to > cursorEnd && s.from > cursorEnd ==>
              CursorInv(done + [s], total + (cursorEnd - cursorStart), s.from, s.to)
    ensures s.to > cursorEnd && s.from <= cursorEnd ==>
              CursorInv(done + [s], total, cursorStart, s.to)
  {
    var next := done + [s];
    var before, after := Cover(done), Cover(next);
    forall t
      ensures InSome(next, t) <==> InSome(done, t) || Holds(s, t)
    {
      InSomeAppend(done, s, t);
    }
    assert forall j :: 0 <= j < |done| ==> next[j] == done[j];
    assert next[|done|] == s;
    assert cursorStart == 0 || cursorStart <= s.from;
    MeasureAgree(before, after, 0, cursorStart);
    if s.to > cursorEnd && s.from > cursorEnd {
      MeasureSplit(after, 0, cursorStart, s.from);
      MeasureSplit(after, cursorStart, cursorEnd, s.from);
      MeasureBounds(after, cursorStart, cursorEnd);
      MeasureBounds(after, cursorEnd, s.from);
    }
  }

  lemma NextSpan(spans: seq<Span>, k: nat, total: int, cursorStart: int, cursorEnd: int)
    requires Sorted(spans) && k < |spans| && Positive(spans[k])
    requires CursorInv(spans[..k], total, cursorStart, cursorEnd)
    ensures spans[k].to <= cursorEnd ==> CursorInv(spans[..k + 1], total, cursorStart, cursorEnd)
    ensures spans[k].to > cursorEnd && spans[k].from > cursorEnd ==>
              CursorInv(spans[..k + 1], total + (cursorEnd - cursorStart), spans[k].from, spans[k].to)
    ensures spans[k].to > cursorEnd && spans[k].from <= cursorEnd ==>
              CursorInv(spans[..k + 1], total, cursorStart, spans[k].to)
  {
    assert spans[..k + 1] == spans[..k] + [spans[k]];
    CursorStep(spans[..k], spans[k], total, cursorStart, cursorEnd);
  }

  /** When the spans run out the open run is the last one: nothing lies beyond it. */
  lemma CursorDone(spans: seq<Span>, total: int, cursorStart: int, cursorEnd: int, end: int)
    requires CursorInv(spans, total, cursorStart, cursorEnd)
    requires forall t :: InSome(spans, t) ==> t < end
    ensures total + cursorEnd - cursorStart == Measure(Cover(spans), 0, end)
  {
    var p := Cover(spans);
    MeasureSplit(p, 0, cursorStart, cursorEnd);
    MeasureBounds(p, cursorStart, cursorEnd);
    var top := Max(Max(end, cursorEnd), 0);
    MeasureSplit(p, 0, cursorEnd, top);
    MeasureBounds(p, cursorEnd, top);
    if 0 <= end {
      MeasureSplit(p, 0, end, top);
      MeasureBounds(p, end, top);
    } else {
      MeasureBounds(p, 0, top);
    }
  }

  lemma SortKeepsPieces(log: StatusLog, spans: seq<Span>, start: int, end: int)
    requires spans == SortByStart(Pieces(log, start, end))
    ensures forall k :: 0 <= k < |spans| ==> Positive(spans[k])
    ensures forall t :: InSome(spans, t) <==> start <= t < end && log.DownAt(t)
  {
    var pieces := Pieces(log, start, end);
    assert forall s :: s in spans <==> s in multiset(spans);
    assert forall s :: s in pieces <==> s in multiset(pieces);
    forall t
      ensures InSome(spans, t) <==> start <= t < end && log.DownAt(t)
    {
      PiecesHold(log, start, end, t);
      assert InSome(spans, t) <==> InSome(pieces, t);
    }
  }

  /** The whole pipeline: down milliseconds of the window that are not before the epoch. */
  method ClippedDowntime(log: StatusLog, start: int, end: int) returns (downtime: int)
    ensures downtime == DownMs(log, Max(start, 0), end)
  {
    var spans := SortByStart(Pieces(log, start, end));
    SortKeepsPieces(log, spans, start, end);
    var total, cursorStart, cursorEnd := 0, 0, 0;
    for k := 0 to |spans|
      invariant CursorInv(spans[..k], total, cursorStart, cursorEnd)
    {
      NextSpan(spans, k, total, cursorStart, cursorEnd);
      var Span(from, to) := spans[k];
      if to <= cursorEnd { continue; }
      if from > cursorEnd {
        total := total + (cursorEnd - cursorStart);
        cursorStart := from;
      }
      cursorEnd := to;
    }
    assert spans[..|spans|] == spans;
    CursorDone(spans, total, cursorStart, cursorEnd, end);
    CoverIsDownMs(log, spans, start, end);
    downtime := total + cursorEnd - cursorStart;
  }

  lemma CoverIsDownMs(log: StatusLog, spans: seq<Span>, start: int, end: int)
    requires forall t :: InSome(spans, t) <==> start <= t < end && log.DownAt(t)
    ensures Measure(Cover(spans), 0, end) == DownMs(log, Max(start, 0), end)
  {
    var p := Cover(spans);
    if start <= end && 0 <= end {
      MeasureSplit(p, 0, Max(start, 0), end);
      MeasureBounds(p, 0, Max(start, 0));
    } else if 0 <= end {
      MeasureBounds(p, 0, end);
    }
    MeasureAgree(p, t => log.DownAt(t), Max(start, 0), end);
  }

  // ---------------------------------------------------------------- availability

  /** The downtime the code reports for a window: it starts counting at the epoch. */
  ghost function ReportedDown(log: StatusLog, start: int, end: int): nat {
    DownMs(log, Max(start, 0), end)
  }

  ghost function Availability(log: StatusLog, start: int, end: int): real
    requires start < end
  {
    1.0 - ReportedDown(log, start, end) as real / (end - start) as real
  }

  method AvailabilityBetween(log: StatusLog, start: int, end: int) returns (r: Result<real, string>)
    ensures r.Err? <==> end <= start
    ensures r.Ok? ==> r.value == Availability(log, start, end)
  {
    if end <= start {
      return Err("Availability window must have a positive duration");
    }
    var downtime := ClippedDowntime(log, start, end);
    return Ok(1.0 - downtime as real / (end - start) as real);
  }

  /** Availability is a fraction; it is 1 exactly when nothing counted is down, and 0
      exactly when the whole window is down and does not start before the epoch. */
  lemma AvailabilityIsFraction(log: StatusLog, start: int, end: int)
    requires start < end
    ensures 0.0 <= Availability(log, start, end) <= 1.0
    ensures Availability(log, start, end) == 1.0 <==>
            forall t :: Max(start, 0) <= t < end ==> !log.DownAt(t)
    ensures Availability(log, start, end) == 0.0 <==>
            start >= 0 && forall t :: start <= t < end ==> log.DownAt(t)
  {
    var lo := Max(start, 0);
    var down := ReportedDown(log, start, end);
    var p := t => log.DownAt(t);
    assert forall t :: p(t) <==> log.DownAt(t);
    if lo <= end {
      MeasureBounds(p, lo, end);
    }
    FractionBounds(down, end - start);
  }

  lemma FractionBounds(part: nat, whole: int)
    requires 0 < whole && part <= whole
    ensures 0.0 <= part as real / whole as real <= 1.0
    ensures part as real / whole as real == 0.0 <==> part == 0
    ensures part as real / whole as real == 1.0 <==> part == whole
  {
    var q := part as real / whole as real;
    assert q * whole as real == part as real;
  }

  /** The figure is the downtime of the window, for every log, exactly when the
      window does not reach before the epoch. */
  lemma ExactFromTheEpoch(start: int, end: int)
    ensures (forall log :: ReportedDown(log, start, end) == DownMs(log, start, end)) <==>
            0 <= start || end <= start
  {
    if start < 0 && start < end {
      var i := Incident(start, None, "outage", false);
      var log := StatusLog([i], map["outage" := true], true, []);
      assert i in log.incidents && log.Counted(i);
      forall t | start <= t < end
        ensures log.DownAt(t)
      {
        assert OpenAt(i, t);
      }
      var p := t => log.DownAt(t);
      assert forall t :: p(t) <==> log.DownAt(t);
      MeasureBounds(p, start, end);
      if 0 < end {
        MeasureBounds(p, 0, end);
      }
      assert ReportedDown(log, start, end) != DownMs(log, start, end);
    }
  }

  /** Downtime is additive over adjacent windows. */
  lemma DowntimeAdditive(log: StatusLog, a: int, b: int, c: int)
    requires a <= b <= c
    ensures ReportedDown(log, a, c) == ReportedDown(log, a, b) + ReportedDown(log, b, c)
  {
    var p := t => log.DownAt(t);
    if 0 <= c {
      MeasureSplit(p, Max(a, 0), Max(b, 0), c);
    }
    if b < 0 {
      assert Measure(p, 0, b) == 0;
    }
  }

  /** What an added incident takes away: the instants at which it is open, if its level
      counts and it is not excluded as planned, outside the planned changes. */
  lemma IncidentAdds(log: StatusLog, i: Incident, t: int)
    ensures log.(incidents := log.incidents + [i]).DownAt(t) <==>
      || log.DownAt(t)
      || (&& i.impactLevel in log.impacts && log.impacts[i.impactLevel]
          && (log.excludePlannedMaintenance ==> !i.plannedMaintenance)
          && i.startedAt <= t && (i.resolvedAt.Some? ==> t < i.resolvedAt.value)
          && !(log.excludePlannedMaintenance && exists w :: w in log.plannedChanges && w.startsAt <= t < w.endsAt))
  {
    var more := log.(incidents := log.incidents + [i]);
    assert forall x :: x in more.incidents <==> x in log.incidents || x == i;
    assert forall x :: more.Counted(x) == log.Counted(x);
    assert log.Counted(i) && OpenAt(i, t) ==> exists x :: x in more.incidents && more.Counted(x) && OpenAt(x, t);
    assert PlannedAt(more.plannedChanges, t) == PlannedAt(log.plannedChanges, t);
    if x :| x in log.incidents && log.Counted(x) && OpenAt(x, t) {
      assert x in more.incidents && more.Counted(x);
    }
  }

  /** What an added planned change gives back, when planned maintenance is excluded. */
  lemma PlannedChangeRemoves(log: StatusLog, w: PlannedChange, t: int)
    ensures log.(plannedChanges := log.plannedChanges + [w]).DownAt(t) <==>
            log.DownAt(t) && !(log.excludePlannedMaintenance && w.startsAt <= t < w.endsAt)
    ensures log.incidents == [] ==> !log.DownAt(t)
  {
    var more := log.(plannedChanges := log.plannedChanges + [w]);
    assert forall x :: x in more.plannedChanges <==> x in log.plannedChanges || x == w;
    assert PlannedAt(more.plannedChanges, t) <==> PlannedAt(log.plannedChanges, t) || w.startsAt <= t < w.endsAt;
    assert forall x :: more.Counted(x) == log.Counted(x);
  }

  /** An added incident never raises availability. */
  lemma IncidentNeverRaises(log: StatusLog, i: Incident, start: int, end: int)
    requires start < end
    ensures Availability(log.(incidents := log.incidents + [i]), start, end) <= Availability(log, start, end)
  {
    var more := log.(incidents := log.incidents + [i]);
    forall t | log.DownAt(t)
      ensures more.DownAt(t)
    {
      var x :| x in log.incidents && log.Counted(x) && OpenAt(x, t);
      assert x in more.incidents && more.Counted(x);
    }
    MeasureMonotone(t => log.DownAt(t), t => more.DownAt(t), Max(start, 0), end);
    QuotientMonotone(ReportedDown(log, start, end), ReportedDown(more, start, end), end - start);
  }

  lemma PlannedAppend(windows: seq<PlannedChange>, w: PlannedChange, t: int)
    ensures PlannedAt(windows, t) ==> PlannedAt(windows + [w], t)
  {
    if v :| v in windows && v.startsAt <= t < v.endsAt {
      assert v in windows + [w];
    }
  }

  /** An added planned change never lowers it. */
  lemma PlannedChangeNeverLowers(log: StatusLog, w: PlannedChange, start: int, end: int)
    requires start < end
    ensures Availability(log.(plannedChanges := log.plannedChanges + [w]), start, end) >= Availability(log, start, end)
  {
    var more := log.(plannedChanges := log.plannedChanges + [w]);
    forall t | more.DownAt(t)
      ensures log.DownAt(t)
    {
      var x :| x in more.incidents && more.Counted(x) && OpenAt(x, t);
      assert log.Counted(x);
      PlannedAppend(log.plannedChanges, w, t);
    }
    MeasureMonotone(t => more.DownAt(t), t => log.DownAt(t), Max(start, 0), end);
    QuotientMonotone(ReportedDown(more, start, end), ReportedDown(log, start, end), end - start);
  }

  lemma QuotientMonotone(x: nat, y: nat, whole: int)
    requires x <= y && 0 < whole
    ensures x as real / whole as real <= y as real / whole as real
  {}

  /** Order and repetition of the inputs do not matter. */
  lemma DowntimeIgnoresOrder(a: StatusLog, b: StatusLog, start: int, end: int)
    requires a.impacts == b.impacts && a.excludePlannedMaintenance == b.excludePlannedMaintenance
    requires forall i :: i in a.incidents <==> i in b.incidents
    requires forall w :: w in a.plannedChanges <==> w in b.plannedChanges
    ensures ReportedDown(a, start, end) == ReportedDown(b, start, end)
  {
    forall t
      ensures a.DownAt(t) == b.DownAt(t)
    {
      assert forall i :: a.Counted(i) == b.Counted(i);
      assert PlannedAt(a.plannedChanges, t) == PlannedAt(b.plannedChanges, t);
    }
    MeasureAgree(t => a.DownAt(t), t => b.DownAt(t), Max(start, 0), end);
  }

  // ---------------------------------------------------------------- daily figures

  /** Midnight of the last day: the calendar fields of end put back through Date.UTC. */
  function FinalDay(end: int): Instant {
    var k := MonthAt(end);
    DateUtc(k / 12, k % 12, DayOfMonth(end))
  }

  lemma TwoDigitYear(k: int)
    requires 0 <= k / 12 <= 99
    ensures 12 * (1900 + k / 12) + k % 12 == k + 22800
    ensures MonthStart(k) < MonthStart(k + 22800)
    ensures -1_000_000 <= MonthStart(k + 22800) <= 1_000_000
  {
    MonthStartMonotone(k, k + 22800);
    MonthStartMonotone(k + 22800, EPOCH_MONTH + 1200);
    MonthStartMonotone(EPOCH_MONTH - 840, k + 22800);
    MonthStartMonotone(EPOCH_MONTH - 840, EPOCH_MONTH);
    MonthStartMonotone(EPOCH_MONTH, EPOCH_MONTH + 1200);
  }

  lemma MidnightOf(end: int)
    requires -MAX_TIME <= end <= MAX_TIME
    ensures MakeTime(MonthAt(end), DayOfMonth(end), 0) == end - TimeInDay(end)
    ensures -MAX_TIME <= end - TimeInDay(end)
  {
    FieldsMakeTime(end);
  }

  /** It is the midnight before end in every year but 0 to 99, which Date.UTC moves. */
  lemma FinalDayIsMidnight(end: int)
    requires -MAX_TIME <= end <= MAX_TIME
    ensures FinalDay(end).At?
    ensures FinalDay(end) == At(end - TimeInDay(end)) <==> !(0 <= MonthAt(end) / 12 <= 99)
  {
    var k := MonthAt(end);
    MidnightOf(end);
    if 0 <= k / 12 <= 99 {
      TwoDigitYear(k);
    } else {
      assert 12 * (k / 12) + k % 12 == k;
    }
  }

  datatype AvailabilityDay = AvailabilityDay(start: int, availability: real)

  method DailyAvailability(log: StatusLog, end: int, days: int)
    returns (r: Result<seq<AvailabilityDay>, string>)
    requires -MAX_TIME <= end < MAX_TIME
    ensures FinalDay(end).At?
    ensures r.Err? <==> days < 1 || FinalDay(end).ms - (days - 1) * MS_PER_DAY < -MAX_TIME
    ensures r.Ok? ==> |r.value| == days
    ensures r.Ok? ==> forall i :: 0 <= i < days ==>
      var start := FinalDay(end).ms - (days - i - 1) * MS_PER_DAY;
      r.value[i] == AvailabilityDay(start, Availability(log, start, start + MS_PER_DAY))
  {
    FinalDayIsMidnight(end);
    if days < 1 {
      return Err("days must be a positive integer");
    }
    var finalDay := FinalDay(end).ms;
    var report := [];
    for index := 0 to days
      invariant |report| == index
      invariant index > 0 ==> finalDay - (days - 1) * MS_PER_DAY >= -MAX_TIME
      invariant forall i :: 0 <= i < index ==>
        var start := finalDay - (days - i - 1) * MS_PER_DAY;
        report[i] == AvailabilityDay(start, Availability(log, start, start + MS_PER_DAY))
    {
      var start := finalDay - (days - index - 1) * MS_PER_DAY;
      if start < -MAX_TIME {
        return Err("Invalid time value");
      }
      var day := AvailabilityBetween(log, start, start + MS_PER_DAY);
      report := report + [AvailabilityDay(start, day.value)];
    }
    return Ok(report);
  }

  /** Milliseconds lost over a daily report, read off its availability figures. */
  ghost function LostMs(report: seq<AvailabilityDay>): real {
    if report == [] then 0.0
    else (1.0 - report[0].availability) * MS_PER_DAY as real + LostMs(report[1..])
  }

  /** The daily figures add up to the downtime of the whole span. */
  lemma {:induction false} DailyFiguresSum(log: StatusLog, report: seq<AvailabilityDay>, first: int)
    requires forall i :: 0 <= i < |report| ==>
      var start := first + i * MS_PER_DAY;
      report[i] == AvailabilityDay(start, Availability(log, start, start + MS_PER_DAY))
    ensures LostMs(report) == ReportedDown(log, first, first + |report| * MS_PER_DAY) as real
  {
    if report == [] {
      assert ReportedDown(log, first, first) == 0;
    } else {
      var next := first + MS_PER_DAY;
      var rest := report[1..];
      forall i | 0 <= i < |rest|
        ensures rest[i] == AvailabilityDay(next + i * MS_PER_DAY, 
          Availability(log, next + i * MS_PER_DAY, next + i * MS_PER_DAY + MS_PER_DAY))
      {
        assert rest[i] == report[i + 1];
        assert first + (i + 1) * MS_PER_DAY == next + i * MS_PER_DAY;
      }
      DailyFiguresSum(log, rest, next);
      assert report[0] == AvailabilityDay(first, Availability(log, first, next)) by {
        assert first + 0 * MS_PER_DAY == first;
      }
      var down := ReportedDown(log, first, next);
      assert (1.0 - report[0].availability) * MS_PER_DAY as real == down as real;
      DowntimeAdditive(log, first, next, first + |report| * MS_PER_DAY);
    }
  }
}
