/**
 * The worker's side of run results (server.py): terminal messages are retained, oldest
 * first, until the gateway acknowledges them, and a connection retains a terminal message
 * before it tries to send it.
 */
module RetainedTerminals {
  import opened Sequences

  datatype RunStatus = Running | Resolved | Escalated | Failed | Exhausted

  /** A terminal run update. */
  datatype Terminal = Terminal(run: nat, ordinal: nat, status: RunStatus)

  datatype Retained = Retained(at: nat, terminal: Terminal)

  /** retained_terminal_limit and retained_terminal_max_age_seconds. */
  datatype Limits = Limits(size: nat, age: nat)

  // ---------------------------------------------------------------- the ordered map

  predicate Fresh(r: Retained, now: nat, limits: Limits) { r.at + limits.age >= now }

  function Pruned(rs: seq<Retained>, now: nat, limits: Limits): seq<Retained> {
    Filter(rs, (r: Retained) => Fresh(r, now, limits))
  }

  function Without(rs: seq<Retained>, run: nat): seq<Retained> {
    Filter(rs, (r: Retained) => r.terminal.run != run)
  }

  /** An entry for the run that is at least as new. */
  predicate Holds(rs: seq<Retained>, t: Terminal) {
    exists r :: r in rs && r.terminal.run == t.run && r.terminal.ordinal >= t.ordinal
  }

  function Youngest(rs: seq<Retained>, size: nat): seq<Retained> {
    if |rs| > size then rs[|rs| - size..] else rs
  }

  /** _retain_terminal. */
  function Retain(rs: seq<Retained>, now: nat, limits: Limits, t: Terminal): seq<Retained> {
    var pruned := Pruned(rs, now, limits);
    if Holds(pruned, t) then pruned
    else Youngest(Without(pruned, t.run) + [Retained(now, t)], limits.size)
  }

  /** Some of these messages is for the run and at least as new. */
  ghost predicate Covers(terminals: set<Terminal>, x: Terminal) {
    exists t :: t in terminals && t.run == x.run && t.ordinal >= x.ordinal
  }

  /** The messages that _retain_terminal drops because of the age and the size limit. */
  ghost function Evicted(rs: seq<Retained>, now: nat, limits: Limits, t: Terminal): set<Terminal> {
    var pruned := Pruned(rs, now, limits);
    var full := Without(pruned, t.run) + [Retained(now, t)];
    (set r | r in rs && !Fresh(r, now, limits) :: r.terminal)
    + (if Holds(pruned, t) || |full| <= limits.size then {}
       else set r | r in full[..|full| - limits.size] :: r.terminal)
  }

  function Acknowledged(rs: seq<Retained>, run: nat, ordinal: nat): seq<Retained> {
    Filter(rs, (r: Retained) => !(r.terminal.run == run && r.terminal.ordinal == ordinal))
  }

  /** One entry per run, oldest first. */
  ghost predicate Ordered(rs: seq<Retained>, now: nat) {
    && (forall i, j :: 0 <= i < j < |rs| ==> rs[i].at <= rs[j].at && rs[i].terminal.run != rs[j].terminal.run)
    && (forall i :: 0 <= i < |rs| ==> rs[i].at <= now)
  }

  lemma {:induction false} FilterKeepsOrder(rs: seq<Retained>, now: nat, keep: Retained -> bool)
    requires Ordered(rs, now)
    ensures Ordered(Filter(rs, keep), now)
  {
    if rs != [] {
      FilterKeepsOrder(rs[1..], now, keep);
      var rest := Filter(rs[1..], keep);
      forall i | 0 <= i < |rest|
        ensures rs[0].at <= rest[i].at && rs[0].terminal.run != rest[i].terminal.run
      {
        assert rest[i] in rest;
        var k :| 0 <= k < |rs[1..]| && rs[1..][k] == rest[i];
      }
    }
  }

  lemma AppendKeepsOrder(rs: seq<Retained>, now: nat, t: Terminal, size: nat)
    requires Ordered(rs, now) && forall i :: 0 <= i < |rs| ==> rs[i].terminal.run != t.run
    ensures Ordered(Youngest(rs + [Retained(now, t)], size), now)
    ensures |Youngest(rs + [Retained(now, t)], size)| <= size
  {
    assert Ordered(rs + [Retained(now, t)], now);
  }

  /** Retaining keeps the order, the uniqueness and the size limit. */
  lemma RetainKeepsOrder(rs: seq<Retained>, now: nat, limits: Limits, t: Terminal)
    requires Ordered(rs, now) && |rs| <= limits.size
    ensures Ordered(Retain(rs, now, limits, t), now) && |Retain(rs, now, limits, t)| <= limits.size
  {
    var pruned := Pruned(rs, now, limits);
    assert Ordered(pruned, now) by {
      FilterKeepsOrder(rs, now, (r: Retained) => Fresh(r, now, limits));
    }
    var others := Without(pruned, t.run);
    assert Ordered(others, now) by {
      FilterKeepsOrder(pruned, now, (r: Retained) => r.terminal.run != t.run);
    }
    assert forall i :: 0 <= i < |others| ==> others[i] in others;
    AppendKeepsOrder(others, now, t, limits.size);
  }

  /** Retaining loses nothing but what the two limits evict, and nothing it was given. */
  lemma RetainHolds(rs: seq<Retained>, now: nat, limits: Limits, t: Terminal, x: Terminal)
    requires Ordered(rs, now)
    requires Holds(rs, x) || x == t
    ensures Holds(Retain(rs, now, limits, t), x) || Covers(Evicted(rs, now, limits, t), x)
  {
    var pruned := Pruned(rs, now, limits);
    var full := Without(pruned, t.run) + [Retained(now, t)];
    if Holds(pruned, t) {
      if x != t {
        var r :| r in rs && r.terminal.run == x.run && r.terminal.ordinal >= x.ordinal;
        assert Fresh(r, now, limits) ==> r in pruned;
      }
    } else {
      HoldsWhole(rs, now, limits, t, x);
      if Holds(full, x) && |full| > limits.size {
        var r :| r in full && r.terminal.run == x.run && r.terminal.ordinal >= x.ordinal;
        assert full == full[..|full| - limits.size] + full[|full| - limits.size..];
      }
    }
  }

  lemma HoldsWhole(rs: seq<Retained>, now: nat, limits: Limits, t: Terminal, x: Terminal)
    requires Ordered(rs, now) && (Holds(rs, x) || x == t) && !Holds(Pruned(rs, now, limits), t)
    ensures Holds(Without(Pruned(rs, now, limits), t.run) + [Retained(now, t)], x)
            || Covers(Evicted(rs, now, limits, t), x)
  {
    var pruned := Pruned(rs, now, limits);
    var full := Without(pruned, t.run) + [Retained(now, t)];
    assert full[|full| - 1] == Retained(now, t);
    if x != t {
      var r :| r in rs && r.terminal.run == x.run && r.terminal.ordinal >= x.ordinal;
      if Fresh(r, now, limits) {
        assert r in pruned;
        if r.terminal.run != t.run {
          assert r in Without(pruned, t.run);
          assert r in full;
        } else {
          assert Retained(now, t) in full;
        }
      }
    }
  }

  lemma {:induction false} NothingFiltered(rs: seq<Retained>, keep: Retained -> bool)
    requires |Filter(rs, keep)| == |rs|
    ensures Filter(rs, keep) == rs
  {
    if rs != [] {
      NothingFiltered(rs[1..], keep);
    }
  }

  lemma ExpiredIsAnother(rs: seq<Retained>, now: nat, limits: Limits, i: nat)
    requires Ordered(rs, now) && i < |rs| && Fresh(rs[i], now, limits)
    ensures forall r :: r in rs && !Fresh(r, now, limits) ==> r.terminal != rs[i].terminal
  {}

  /** The map overflows only when it was full and nothing else made room. */
  lemma OverflowIsFull(rs: seq<Retained>, now: nat, limits: Limits, t: Terminal)
    requires |rs| <= limits.size && |Without(Pruned(rs, now, limits), t.run)| >= limits.size
    ensures |rs| == limits.size && Without(Pruned(rs, now, limits), t.run) == rs
  {
    NothingFiltered(Pruned(rs, now, limits), (r: Retained) => r.terminal.run != t.run);
    NothingFiltered(rs, (r: Retained) => Fresh(r, now, limits));
  }

  /** What a limit takes: an entry past the age, or, when nothing else makes room and the
      map is full, the oldest. */
  lemma EvictionNeedsReason(rs: seq<Retained>, now: nat, limits: Limits, t: Terminal, i: nat)
    requires Ordered(rs, now) && |rs| <= limits.size
    requires i < |rs| && rs[i].terminal in Evicted(rs, now, limits, t)
    ensures rs[i].at + limits.age < now || (i == 0 && |rs| == limits.size)
  {
    if Fresh(rs[i], now, limits) {
      ExpiredIsAnother(rs, now, limits, i);
      OverflowIsFull(rs, now, limits, t);
      assert (rs + [Retained(now, t)])[..1] == [rs[0]];
    }
  }

  lemma {:induction false} DistinctRuns(rs: seq<Retained>, runs: set<nat>)
    requires forall i, j :: 0 <= i < j < |rs| ==> rs[i].terminal.run != rs[j].terminal.run
    requires forall r :: r in rs ==> r.terminal.run in runs
    ensures |rs| <= |runs|
  {
    if rs != [] {
      var init, last := rs[..|rs| - 1], rs[|rs| - 1];
      DistinctRuns(init, runs - {last.terminal.run});
    }
  }

  /** Without age, and with room for an entry per run, nothing is evicted. */
  lemma RetainEvictsNothing(rs: seq<Retained>, now: nat, limits: Limits, t: Terminal, runs: set<nat>)
    requires Ordered(rs, now) && now <= limits.age && |runs| <= limits.size
    requires t.run in runs && forall r :: r in rs ==> r.terminal.run in runs
    ensures Evicted(rs, now, limits, t) == {}
    ensures forall r :: r in Retain(rs, now, limits, t) ==> r.terminal.run in runs
  {
    var pruned := Pruned(rs, now, limits);
    var others := Without(pruned, t.run);
    assert Ordered(others, now) by {
      FilterKeepsOrder(rs, now, (r: Retained) => Fresh(r, now, limits));
      FilterKeepsOrder(pruned, now, (r: Retained) => r.terminal.run != t.run);
    }
    DistinctRuns(others, runs - {t.run});
  }

  /** With room for one entry, the message just retained is held. */
  lemma RetainedIsHeld(rs: seq<Retained>, now: nat, limits: Limits, t: Terminal)
    requires limits.size > 0
    ensures Holds(Retain(rs, now, limits, t), t)
  {
    var full := Without(Pruned(rs, now, limits), t.run) + [Retained(now, t)];
    var kept := Youngest(full, limits.size);
    assert kept[|kept| - 1] == Retained(now, t);
  }

  /** An acknowledgement drops what it names and nothing else. */
  lemma AcknowledgedHolds(rs: seq<Retained>, run: nat, ordinal: nat, x: Terminal)
    requires Holds(rs, x)
    ensures Holds(Acknowledged(rs, run, ordinal), x) || (x.run == run && x.ordinal <= ordinal)
  {
    var r :| r in rs && r.terminal.run == x.run && r.terminal.ordinal >= x.ordinal;
    assert r in Acknowledged(rs, run, ordinal) || (r.terminal.run == run && r.terminal.ordinal == ordinal);
  }

  /** Nothing fresh lies before the first fresh entry, so pruning may stop there. */
  lemma {:induction false} PrefixIsExpired(rs: seq<Retained>, now: nat, limits: Limits, k: nat)
    requires Ordered(rs, now) && k <= |rs|
    requires forall i :: 0 <= i < k ==> !Fresh(rs[i], now, limits)
    requires k < |rs| ==> Fresh(rs[k], now, limits)
    ensures Pruned(rs, now, limits) == rs[k..]
  {
    if k > 0 {
      PrefixIsExpired(rs[1..], now, limits, k - 1);
    } else {
      AllFresh(rs, now, limits);
    }
  }

  lemma {:induction false} AllFresh(rs: seq<Retained>, now: nat, limits: Limits)
    requires Ordered(rs, now) && (rs != [] ==> Fresh(rs[0], now, limits))
    ensures Pruned(rs, now, limits) == rs
  {
    if rs != [] {
      AllFresh(rs[1..], now, limits);
    }
  }

  /** Removing a unique run from the map, and adding it at the end. */
  lemma {:induction false} WithoutAt(rs: seq<Retained>, now: nat, k: nat)
    requires Ordered(rs, now) && k < |rs|
    ensures Without(rs, rs[k].terminal.run) == rs[..k] + rs[k + 1..]
  {
    var run := rs[k].terminal.run;
    if k > 0 {
      WithoutAt(rs[1..], now, k - 1);
      assert rs[1..][..k - 1] == rs[1..k];
      assert rs[..k] == [rs[0]] + rs[1..k];
    } else {
      NothingToRemove(rs[1..], run);
    }
  }

  lemma {:induction false} NothingToRemove(rs: seq<Retained>, run: nat)
    requires forall i :: 0 <= i < |rs| ==> rs[i].terminal.run != run
    ensures Without(rs, run) == rs
  {
    if rs != [] {
      NothingToRemove(rs[1..], run);
    }
  }

  predicate Retains(rs: seq<Retained>, run: nat, ordinal: nat) {
    exists r :: r in rs && r.terminal.run == run && r.terminal.ordinal == ordinal
  }

  /** Popping the run's entry is dropping it by run and ordinal: the map has one per run. */
  lemma AcknowledgedAt(rs: seq<Retained>, now: nat, k: nat)
    requires Ordered(rs, now) && k < |rs|
    ensures Acknowledged(rs, rs[k].terminal.run, rs[k].terminal.ordinal) == Without(rs, rs[k].terminal.run)
  {
    SameFilter(rs, (r: Retained) => !(r.terminal.run == rs[k].terminal.run && r.terminal.ordinal == rs[k].terminal.ordinal),
               (r: Retained) => r.terminal.run != rs[k].terminal.run);
  }

  lemma {:induction false} SameFilter(rs: seq<Retained>, p: Retained -> bool, q: Retained -> bool)
    requires forall r :: r in rs ==> p(r) == q(r)
    ensures Filter(rs, p) == Filter(rs, q)
  {
    if rs != [] {
      SameFilter(rs[1..], p, q);
    }
  }

  lemma {:induction false} NothingAcknowledged(rs: seq<Retained>, run: nat, ordinal: nat)
    requires !Retains(rs, run, ordinal)
    ensures Acknowledged(rs, run, ordinal) == rs
  {
    if rs != [] {
      assert rs[0] in rs;
      assert forall r :: r in rs[1..] ==> r in rs;
      NothingAcknowledged(rs[1..], run, ordinal);
    }
  }

  /** The module's ordered map. */
  class Retention {
    const limits: Limits
    var entries: seq<Retained>

    ghost predicate Valid(now: nat)
      reads this
    {
      Ordered(entries, now) && |entries| <= limits.size
    }

    constructor (limits: Limits)
      ensures this.limits == limits && entries == []
    {
      this.limits := limits;
      entries := [];
    }

    /** Stops at the first fresh entry, and yet removes every expired one. */
    method Prune(now: nat)
      requires Valid(now)
      modifies this
      ensures Valid(now) && entries == Pruned(old(entries), now, limits)
    {
      var items := entries;
      var i := 0;
      while i < |items| && !Fresh(items[i], now, limits)
        invariant 0 <= i <= |items| && entries == items[i..]
        invariant forall k :: 0 <= k < i ==> !Fresh(items[k], now, limits)
      {
        WithoutAt(entries, now, 0);
        entries := Without(entries, items[i].terminal.run);
        i := i + 1;
      }
      PrefixIsExpired(items, now, limits, i);
    }

    method Keep(now: nat, t: Terminal)
      requires Valid(now)
      modifies this
      ensures Valid(now) && entries == Retain(old(entries), now, limits, t)
    {
      RetainKeepsOrder(entries, now, limits, t);
      Prune(now);
      if Holds(entries, t) {
        return;
      }
      entries := Without(entries, t.run) + [Retained(now, t)];
      ghost var full := entries;
      ghost var dropped := 0;
      while |entries| > limits.size
        invariant 0 <= dropped <= |full| && entries == full[dropped..]
        invariant dropped > 0 ==> |entries| >= limits.size
      {
        assert full[dropped..][1..] == full[dropped + 1..];
        entries := entries[1..];
        dropped := dropped + 1;
      }
      assert entries == Youngest(full, limits.size);
    }

    method Acknowledge(now: nat, run: nat, ordinal: nat)
      requires Valid(now)
      modifies this
      ensures Valid(now) && entries == Acknowledged(old(entries), run, ordinal)
    {
      FilterKeepsOrder(entries, now, (r: Retained) => !(r.terminal.run == run && r.terminal.ordinal == ordinal));
      if Retains(entries, run, ordinal) {
        ghost var k :| 0 <= k < |entries| && entries[k].terminal.run == run && entries[k].terminal.ordinal == ordinal;
        AcknowledgedAt(entries, now, k);
        entries := Without(entries, run);
      } else {
        NothingAcknowledged(entries, run, ordinal);
      }
    }
  }

  // ---------------------------------------------------------------- connections

  datatype Message = Update(terminal: Terminal) | Other | Finish

  datatype Link = Link(outbound: seq<Message>, closing: bool)

  /** Retains every terminal message of a queue that will not be sent. */
  function Drain(rs: seq<Retained>, now: nat, limits: Limits, outbound: seq<Message>): seq<Retained>
    decreases |outbound|
  {
    if outbound == [] then rs
    else Drain(if outbound[0].Update? then Retain(rs, now, limits, outbound[0].terminal) else rs, now, limits, outbound[1..])
  }

  ghost function DrainEvicted(rs: seq<Retained>, now: nat, limits: Limits, outbound: seq<Message>): set<Terminal>
    decreases |outbound|
  {
    if outbound == [] then {}
    else if !outbound[0].Update? then DrainEvicted(rs, now, limits, outbound[1..])
    else Evicted(rs, now, limits, outbound[0].terminal)
         + DrainEvicted(Retain(rs, now, limits, outbound[0].terminal), now, limits, outbound[1..])
  }

  /** _send; `stuck` when the queue stays full until the timeout. */
  function Send(rs: seq<Retained>, link: Link, now: nat, limits: Limits, m: Message, stuck: bool): (seq<Retained>, Link) {
    var kept := if m.Update? then Retain(rs, now, limits, m.terminal) else rs;
    if link.closing then (kept, link)
    else if !stuck then (kept, link.(outbound := link.outbound + [m]))
    else (Drain(kept, now, limits, link.outbound), Link([Finish], true))
  }

  ghost function SendEvicted(rs: seq<Retained>, link: Link, now: nat, limits: Limits, m: Message, stuck: bool): set<Terminal> {
    var kept := if m.Update? then Retain(rs, now, limits, m.terminal) else rs;
    (if m.Update? then Evicted(rs, now, limits, m.terminal) else {})
    + (if !link.closing && stuck then DrainEvicted(kept, now, limits, link.outbound) else {})
  }

  lemma {:induction false} DrainKeepsOrder(rs: seq<Retained>, now: nat, limits: Limits, outbound: seq<Message>)
    requires Ordered(rs, now) && |rs| <= limits.size
    ensures Ordered(Drain(rs, now, limits, outbound), now) && |Drain(rs, now, limits, outbound)| <= limits.size
    decreases |outbound|
  {
    if outbound != [] {
      if outbound[0].Update? {
        RetainKeepsOrder(rs, now, limits, outbound[0].terminal);
        DrainKeepsOrder(Retain(rs, now, limits, outbound[0].terminal), now, limits, outbound[1..]);
      } else {
        DrainKeepsOrder(rs, now, limits, outbound[1..]);
      }
    }
  }

  /** Draining a queue loses nothing that was retained or queued, but to the limits. */
  lemma {:induction false} DrainHolds(rs: seq<Retained>, now: nat, limits: Limits, outbound: seq<Message>, x: Terminal)
    requires Ordered(rs, now) && |rs| <= limits.size
    requires Holds(rs, x) || Update(x) in outbound
    ensures Holds(Drain(rs, now, limits, outbound), x) || Covers(DrainEvicted(rs, now, limits, outbound), x)
    decreases |outbound|
  {
    if outbound != [] {
      if outbound[0].Update? {
        var t := outbound[0].terminal;
        RetainKeepsOrder(rs, now, limits, t);
        if Holds(rs, x) || x == t {
          RetainHolds(rs, now, limits, t, x);
        }
        if Holds(Retain(rs, now, limits, t), x) || Update(x) in outbound[1..] {
          DrainHolds(Retain(rs, now, limits, t), now, limits, outbound[1..], x);
        }
      } else {
        DrainHolds(rs, now, limits, outbound[1..], x);
      }
    }
  }

  lemma {:induction false} DrainEvictsNothing(rs: seq<Retained>, now: nat, limits: Limits, outbound: seq<Message>, runs: set<nat>)
    requires Ordered(rs, now) && |rs| <= limits.size && now <= limits.age && |runs| <= limits.size
    requires forall r :: r in rs ==> r.terminal.run in runs
    requires forall m :: m in outbound && m.Update? ==> m.terminal.run in runs
    ensures DrainEvicted(rs, now, limits, outbound) == {}
    decreases |outbound|
  {
    if outbound != [] {
      if outbound[0].Update? {
        RetainEvictsNothing(rs, now, limits, outbound[0].terminal, runs);
        RetainKeepsOrder(rs, now, limits, outbound[0].terminal);
        DrainEvictsNothing(Retain(rs, now, limits, outbound[0].terminal), now, limits, outbound[1..], runs);
      } else {
        DrainEvictsNothing(rs, now, limits, outbound[1..], runs);
      }
    }
  }

  lemma SendEvictsNothing(rs: seq<Retained>, link: Link, now: nat, limits: Limits, m: Message, stuck: bool, runs: set<nat>)
    requires Ordered(rs, now) && |rs| <= limits.size && now <= limits.age && |runs| <= limits.size
    requires forall r :: r in rs ==> r.terminal.run in runs
    requires forall x :: (x in link.outbound || x == m) && x.Update? ==> x.terminal.run in runs
    ensures SendEvicted(rs, link, now, limits, m, stuck) == {}
  {
    if m.Update? {
      RetainEvictsNothing(rs, now, limits, m.terminal, runs);
      RetainKeepsOrder(rs, now, limits, m.terminal);
      DrainEvictsNothing(Retain(rs, now, limits, m.terminal), now, limits, link.outbound, runs);
    } else {
      DrainEvictsNothing(rs, now, limits, link.outbound, runs);
    }
  }

  lemma SendKeepsOrder(rs: seq<Retained>, link: Link, now: nat, limits: Limits, m: Message, stuck: bool)
    requires Ordered(rs, now) && |rs| <= limits.size
    ensures Ordered(Send(rs, link, now, limits, m, stuck).0, now)
    ensures |Send(rs, link, now, limits, m, stuck).0| <= limits.size
  {
    if m.Update? {
      RetainKeepsOrder(rs, now, limits, m.terminal);
    }
    var kept := if m.Update? then Retain(rs, now, limits, m.terminal) else rs;
    DrainKeepsOrder(kept, now, limits, link.outbound);
  }

  /** Whether the message is queued, refused because the stream is closing, or stuck behind
      a full queue: what was retained stays, and a terminal message joins it. */
  lemma SendHolds(rs: seq<Retained>, link: Link, now: nat, limits: Limits, m: Message, stuck: bool, x: Terminal)
    requires Ordered(rs, now) && |rs| <= limits.size
    requires Holds(rs, x) || m == Update(x)
    ensures Holds(Send(rs, link, now, limits, m, stuck).0, x)
            || Covers(SendEvicted(rs, link, now, limits, m, stuck), x)
  {
    var kept := if m.Update? then Retain(rs, now, limits, m.terminal) else rs;
    if m.Update? {
      RetainHolds(rs, now, limits, m.terminal, x);
      RetainKeepsOrder(rs, now, limits, m.terminal);
    }
    if Holds(kept, x) {
      DrainHolds(kept, now, limits, link.outbound, x);
    }
  }

  /** One connection of the worker. */
  class Connection {
    const retention: Retention
    var outbound: seq<Message>
    var closing: bool

    constructor (retention: Retention)
      ensures this.retention == retention && outbound == [] && !closing
    {
      this.retention := retention;
      outbound, closing := [], false;
    }

    method DrainQueue(now: nat)
      requires retention.Valid(now)
      modifies this, retention
      ensures retention.Valid(now) && outbound == [Finish] && closing == old(closing)
      ensures retention.entries == Drain(old(retention.entries), now, retention.limits, old(outbound))
    {
      while outbound != []
        invariant retention.Valid(now) && closing == old(closing)
        invariant Drain(retention.entries, now, retention.limits, outbound)
                  == Drain(old(retention.entries), now, retention.limits, old(outbound))
        decreases |outbound|
      {
        var queued := outbound[0];
        outbound := outbound[1..];
        if queued.Update? {
          retention.Keep(now, queued.terminal);
        }
      }
      outbound := [Finish];
    }

    /** Retains first, sends afterwards. */
    method SendMessage(now: nat, m: Message, stuck: bool) returns (sent: bool)
      requires retention.Valid(now)
      modifies this, retention
      ensures retention.Valid(now)
      ensures (retention.entries, Link(outbound, closing))
              == Send(old(retention.entries), old(Link(outbound, closing)), now, retention.limits, m, stuck)
      ensures sent <==> !old(closing) && !stuck
    {
      if m.Update? {
        retention.Keep(now, m.terminal);
      }
      if closing {
        return false;
      }
      if stuck {
        closing := true;
        DrainQueue(now);
        return false;
      }
      outbound := outbound + [m];
      return true;
    }

    /** The end of close(): the runs were cancelled, what is queued is retained. */
    method Close(now: nat)
      requires retention.Valid(now)
      modifies this, retention
      ensures retention.Valid(now) && outbound == [Finish] && closing
      ensures retention.entries == Drain(old(retention.entries), now, retention.limits, old(outbound))
    {
      closing := true;
      DrainQueue(now);
    }
  }
}
