/** Timers of one expiry that were armed at one tick are called back in the order in which
    they were armed, whatever the callbacks do: they are always on the same list. */
module TimerFifo {
  import opened TimerSpec
  import opened TimerSlots
  import opened TimerWheel
  import opened TimerRuns
  import opened Seqs

  /** When a pending timer was armed, and as which event of the history. */
  datatype Stamp = Stamp(expires: Tick, at: nat, no: nat)

  type Stamps = map<TimerId, Stamp>

  /** The clock at the end of a history. */
  function ClockAt(start: nat, log: seq<Event>): nat {
    if log == [] then start
    else ClockAt(start, log[..|log| - 1]) + if log[|log| - 1].Ticked? then 1 else 0
  }

  /** What pends after one more event. */
  function Stamped(stamps: Stamps, clock: nat, no: nat, ev: Event): Stamps {
    match ev
    case Did(op) => if op.Mod? then stamps[op.t := Stamp(op.expires, clock, no)] else stamps - {op.t}
    case Fired(t) => stamps - {t}
    case Ticked => stamps
  }

  /** What is pending at the end of a history. */
  function StampsOf(start: nat, log: seq<Event>): Stamps {
    if log == [] then map[]
    else
      var front := log[..|log| - 1];
      Stamped(StampsOf(start, front), ClockAt(start, front), |front|, log[|log| - 1])
  }

  /** Same expiry, armed at the same tick, t before u. */
  predicate Earlier(stamps: Stamps, t: TimerId, u: TimerId) {
    t in stamps && u in stamps
    && stamps[t].expires == stamps[u].expires && stamps[t].at == stamps[u].at && stamps[t].no < stamps[u].no
  }

  /** No timer is called back while an earlier one pends. */
  ghost predicate InTurn(start: nat, log: seq<Event>) {
    forall n | 0 <= n < |log| && log[n].Fired? ::
      forall t :: !Earlier(StampsOf(start, log[..n]), t, log[n].t)
  }

  predicate Precedes(s: seq<TimerId>, t: TimerId, u: TimerId) {
    exists i, j :: 0 <= i < j < |s| && s[i] == t && s[j] == u
  }

  /** Where a timer of this stamp is. */
  predicate StampRight(now: Tick, h: Head, s: Stamp) {
    && s.expires == h.expires && s.at <= now
    && (h.slot == WORK ==> s.at < now)
    && (h.slot < WORK && s.at == now ==> h.slot == SlotFor(now, h.expires))
  }

  /** The lists keep the order, those of `rest` being on none of them. */
  ghost predicate Lined(w: Wheel, stamps: Stamps, rest: seq<TimerId>) {
    && stamps.Keys == w.heads.Keys
    && (forall t | t in w.heads && t !in rest :: StampRight(w.now, w.heads[t], stamps[t]))
    && (forall t | t in w.heads && t in rest :: stamps[t].expires == w.heads[t].expires && stamps[t].at <= w.now)
    && (forall t, u | Earlier(stamps, t, u) :: LinedAt(w, rest, t, u))
  }

  ghost predicate LinedAt(w: Wheel, rest: seq<TimerId>, t: TimerId, u: TimerId)
    requires t in w.heads && u in w.heads
  {
    if u !in rest then t !in rest && w.heads[t].slot == w.heads[u].slot && Precedes(w.lists[w.heads[t].slot], t, u)
    else if t in rest then Precedes(rest, t, u)
    else w.heads[t].slot == SlotFor(w.now, w.heads[t].expires)
  }

  lemma {:induction false} WithoutPrecedes(s: seq<TimerId>, x: TimerId, t: TimerId, u: TimerId)
    requires Precedes(s, t, u) && t != x && u != x
    ensures Precedes(Without(s, x), t, u)
  {
    var i, j :| 0 <= i < j < |s| && s[i] == t && s[j] == u;
    if s[0] == x {
      assert s[1..][i - 1] == t && s[1..][j - 1] == u;
    } else if i == 0 {
      WithoutKeeps(s[1..], x, u);
      assert s[1..][j - 1] == u;
      var k :| 0 <= k < |Without(s[1..], x)| && Without(s[1..], x)[k] == u;
      assert Without(s, x)[k + 1] == u && Without(s, x)[0] == t;
    } else {
      assert s[1..][i - 1] == t && s[1..][j - 1] == u;
      WithoutPrecedes(s[1..], x, t, u);
      var k, l :| 0 <= k < l < |Without(s[1..], x)| && Without(s[1..], x)[k] == t && Without(s[1..], x)[l] == u;
      assert Without(s, x)[k + 1] == t && Without(s, x)[l + 1] == u;
    }
  }

  lemma {:induction false} WithoutKeeps(s: seq<TimerId>, x: TimerId, u: TimerId)
    requires u in s && u != x
    ensures u in Without(s, x)
  {
    if s[0] != x && s[0] != u {
      WithoutKeeps(s[1..], x, u);
    }
  }

  lemma AppendPrecedes(s: seq<TimerId>, x: TimerId, t: TimerId, u: TimerId)
    ensures Precedes(s, t, u) ==> Precedes(s + [x], t, u)
    ensures t in s ==> Precedes(s + [x], t, x)
  {
    if Precedes(s, t, u) {
      var i, j :| 0 <= i < j < |s| && s[i] == t && s[j] == u;
      assert (s + [x])[i] == t && (s + [x])[j] == u;
    }
    if t in s {
      var i :| 0 <= i < |s| && s[i] == t;
      assert (s + [x])[i] == t && (s + [x])[|s|] == x;
    }
  }

  // Requests

  lemma UnlinkLined(w: Wheel, stamps: Stamps, t: TimerId)
    requires Linked(w.lists, w.heads, {}) && Lined(w, stamps, [])
    ensures Lined(Unlink(w, t), stamps - {t}, [])
  {
    var w', stamps' := Unlink(w, t), stamps - {t};
    hide SlotFor, NoDup;
    forall x, y | Earlier(stamps', x, y) ensures LinedAt(w', [], x, y) {
      assert Earlier(stamps, x, y) && LinedAt(w, [], x, y);
      if t in w.heads && w.heads[x].slot == w.heads[t].slot {
        WithoutPrecedes(w.lists[w.heads[x].slot], t, x, y);
      }
    }
  }

  lemma LinkLined(w: Wheel, stamps: Stamps, t: TimerId, e: Tick, no: nat)
    requires Linked(w.lists, w.heads, {}) && Lined(w, stamps, []) && t !in w.heads
    requires forall x | x in stamps :: stamps[x].no < no
    ensures Lined(Link(w, t, e), stamps[t := Stamp(e, w.now, no)], [])
  {
    var w', stamps' := Link(w, t, e), stamps[t := Stamp(e, w.now, no)];
    hide SlotFor, NoDup;
    forall x, y | Earlier(stamps', x, y) ensures LinedAt(w', [], x, y) {
      assert x != t;
      if y != t {
        assert Earlier(stamps, x, y) && LinedAt(w, [], x, y);
        AppendPrecedes(w.lists[w.heads[x].slot], t, x, y);
      } else {
        assert StampRight(w.now, w.heads[x], stamps[x]);
        assert x in w.lists[w.heads[x].slot];
        AppendPrecedes(w.lists[w.heads[x].slot], t, x, t);
      }
    }
  }

  lemma {:induction false} StampNos(start: nat, log: seq<Event>)
    ensures forall x | x in StampsOf(start, log) :: StampsOf(start, log)[x].no < |log|
  {
    if log != [] {
      StampNos(start, log[..|log| - 1]);
    }
  }

  lemma StampsSnoc(start: nat, log: seq<Event>, ev: Event)
    ensures ClockAt(start, log + [ev]) == ClockAt(start, log) + if ev.Ticked? then 1 else 0
    ensures StampsOf(start, log + [ev]) == Stamped(StampsOf(start, log), ClockAt(start, log), |log|, ev)
  {
    assert (log + [ev])[..|log|] == log;
  }

  lemma TurnSnoc(start: nat, log: seq<Event>, ev: Event)
    requires InTurn(start, log)
    requires ev.Fired? ==> forall t :: !Earlier(StampsOf(start, log), t, ev.t)
    ensures InTurn(start, log + [ev])
  {
    var log' := log + [ev];
    forall n | 0 <= n < |log'| && log'[n].Fired? ensures forall t :: !Earlier(StampsOf(start, log'[..n]), t, log'[n].t) {
      if n < |log| {
        assert log'[..n] == log[..n];
      } else {
        assert log'[..n] == log;
      }
    }
  }

  /** The wheel keeps the order of its history. */
  ghost predicate Fifo(start: nat, w: Wheel) {
    && Linked(w.lists, w.heads, {})
    && ClockAt(start, w.log) == w.now
    && InTurn(start, w.log)
    && Lined(w, StampsOf(start, w.log), [])
  }

  lemma ModLined(w: Wheel, stamps: Stamps, t: TimerId, e: Tick, no: nat)
    requires Linked(w.lists, w.heads, {}) && Lined(w, stamps, []) && forall x | x in stamps :: stamps[x].no < no
    ensures Lined(Link(Unlink(w, t), t, e), stamps[t := Stamp(e, w.now, no)], [])
  {
    UnlinkLined(w, stamps, t);
    UnlinkLinked(w, t, {});
    hide Linked, Lined;
    LinkLined(Unlink(w, t), stamps - {t}, t, e, no);
    assert (stamps - {t})[t := Stamp(e, w.now, no)] == stamps[t := Stamp(e, w.now, no)];
  }

  lemma OpLined(w: Wheel, stamps: Stamps, op: Op, no: nat)
    requires Linked(w.lists, w.heads, {}) && Lined(w, stamps, []) && forall x | x in stamps :: stamps[x].no < no
    ensures Linked(DoOp(w, op).lists, DoOp(w, op).heads, {}) && Lined(DoOp(w, op), Stamped(stamps, w.now, no, Did(op)), [])
  {
    match op {
      case Mod(t, e) =>
        ModLined(w, stamps, t, e, no);
        ModLinked(w, t, e);
        LinedLog(Link(Unlink(w, t), t, e), stamps[t := Stamp(e, w.now, no)], w.log + [Did(op)]);
      case Del(t) =>
        UnlinkLined(w, stamps, t);
        UnlinkLinked(w, t, {});
        LinedLog(Unlink(w, t), stamps - {t}, w.log + [Did(op)]);
    }
    SameLog(w, op);
    hide Linked, Lined, Link, Unlink;
  }

  lemma SameLog(w: Wheel, op: Op)
    ensures Link(Unlink(w, op.t), op.t, if op.Mod? then op.expires else 0).log == w.log && Unlink(w, op.t).log == w.log
  {
  }

  lemma OpFifo(start: nat, w: Wheel, op: Op)
    requires Fifo(start, w)
    ensures Fifo(start, DoOp(w, op))
  {
    StampsSnoc(start, w.log, Did(op));
    TurnSnoc(start, w.log, Did(op));
    StampNos(start, w.log);
    hide Lined, Linked, InTurn, StampsOf, ClockAt;
    OpLined(w, StampsOf(start, w.log), op, |w.log|);
    assert DoOp(w, op).log == w.log + [Did(op)];
  }

  /** The lists do not depend on the history. */
  lemma LinedLog(w: Wheel, stamps: Stamps, log: seq<Event>)
    requires Lined(w, stamps, [])
    ensures Lined(w.(log := log), stamps, [])
  {
    forall x, y | Earlier(stamps, x, y) ensures LinedAt(w.(log := log), [], x, y) {
      assert LinedAt(w, [], x, y);
    }
  }

  lemma {:induction false} OpsFifo(start: nat, w: Wheel, ops: seq<Op>)
    requires Fifo(start, w)
    ensures Fifo(start, DoOps(w, ops))
    decreases |ops|
  {
    hide Fifo;
    if ops != [] {
      OpFifo(start, w, ops[0]);
      OpsFifo(start, DoOp(w, ops[0]), ops[1..]);
    }
  }

  // Cascades

  lemma TailPrecedes(s: seq<TimerId>, t: TimerId, u: TimerId)
    requires Precedes(s, t, u) && s[0] != t
    ensures Precedes(s[1..], t, u)
  {
    var i, j :| 0 <= i < j < |s| && s[i] == t && s[j] == u;
    assert s[1..][i - 1] == t && s[1..][j - 1] == u;
  }

  lemma NotBeforeFirst(s: seq<TimerId>, t: TimerId)
    requires s != [] && NoDup(s)
    ensures !Precedes(s, t, s[0])
  {
  }

  /** Adding the first timer of `rest`. */
  lemma RelinkOne(w: Wheel, stamps: Stamps, rest: seq<TimerId>)
    requires Linked(w.lists, w.heads, Elements(rest)) && NoDup(rest) && rest != [] && rest[0] in w.heads && Lined(w, stamps, rest)
    ensures var r := Link(w, rest[0], Expiry(w, rest[0]));
            Linked(r.lists, r.heads, Elements(rest[1..])) && Lined(r, stamps, rest[1..])
  {
    var t := rest[0];
    var r := Link(w, t, Expiry(w, t));
    RestFacts(rest);
    LinkLinked(w, t, w.heads[t].expires, Elements(rest));
    hide SlotFor;
    forall x, y | Earlier(stamps, x, y) ensures LinedAt(r, rest[1..], x, y) {
      assert LinedAt(w, rest, x, y);
      RelinkAt(w, stamps, rest, x, y);
    }
  }

  lemma RelinkAt(w: Wheel, stamps: Stamps, rest: seq<TimerId>, x: TimerId, y: TimerId)
    requires Linked(w.lists, w.heads, Elements(rest)) && NoDup(rest) && rest != [] && rest[0] in w.heads
    requires x in w.heads && y in w.heads && x != y && w.heads[x].expires == w.heads[y].expires && LinedAt(w, rest, x, y)
    ensures LinedAt(Link(w, rest[0], Expiry(w, rest[0])), rest[1..], x, y)
  {
    var t := rest[0];
    RestFacts(rest);
    hide SlotFor;
    if y == t {
      NotBeforeFirst(rest, x);
      assert x in w.lists[w.heads[x].slot];
      AppendPrecedes(w.lists[w.heads[x].slot], t, x, t);
    } else if y !in rest {
      AppendPrecedes(w.lists[w.heads[x].slot], t, x, y);
    } else if x in rest && x != t {
      TailPrecedes(rest, x, y);
    }
  }

  lemma {:induction false} RelinkLined(w: Wheel, stamps: Stamps, rest: seq<TimerId>)
    requires Linked(w.lists, w.heads, Elements(rest)) && NoDup(rest) && (forall t | t in rest :: t in w.heads) && Lined(w, stamps, rest)
    ensures var r := Relink(w, rest);
            Linked(r.lists, r.heads, {}) && Lined(r, stamps, []) && r.lists[WORK] == w.lists[WORK] && r.log == w.log
    decreases |rest|
  {
    if rest == [] {
      assert Elements(rest) == {};
    } else {
      RestFacts(rest);
      RelinkOne(w, stamps, rest);
      hide Linked, Lined, NoDup;
      RelinkLined(Link(w, rest[0], Expiry(w, rest[0])), stamps, rest[1..]);
    }
  }

  lemma OffLined(w: Wheel, stamps: Stamps, p: ListNo)
    requires Linked(w.lists, w.heads, {}) && Lined(w, stamps, []) && p < WORK
    ensures var off := w.(lists := w.lists[p := []]); Linked(off.lists, off.heads, Elements(w.lists[p])) && Lined(off, stamps, w.lists[p])
  {
    var rest, off := w.lists[p], w.(lists := w.lists[p := []]);
    OffLinked(w, p);
    hide SlotFor, NoDup;
    forall x, y | Earlier(stamps, x, y) ensures LinedAt(off, rest, x, y) {
      assert LinedAt(w, [], x, y);
    }
  }

  lemma OffLinked(w: Wheel, p: ListNo)
    requires Linked(w.lists, w.heads, {}) && p < WORK
    ensures Linked(w.lists[p := []], w.heads, Elements(w.lists[p]))
  {
    var lists, rest := w.lists[p := []], w.lists[p];
    assert lists[p] == [] && NoDup(lists[p]);
    assert forall q | 0 <= q < 513 && q != p :: lists[q] == w.lists[q];
    forall q, t | 0 <= q < 513 && t in lists[q] ensures t in w.heads && t !in Elements(rest) && w.heads[t].slot == q {
      assert q != p && t in w.lists[q];
    }
  }

  lemma CascadeLined(w: Wheel, stamps: Stamps, p: ListNo)
    requires Linked(w.lists, w.heads, {}) && Lined(w, stamps, []) && p < WORK
    ensures var r := Cascade(w, p);
            Linked(r.lists, r.heads, {}) && Lined(r, stamps, []) && r.lists[WORK] == w.lists[WORK] && r.log == w.log
  {
    OffLined(w, stamps, p);
    assert NoDup(w.lists[p]) && forall t | t in w.lists[p] :: t in w.heads;
    hide Linked, Lined, NoDup;
    RelinkLined(w.(lists := w.lists[p := []]), stamps, w.lists[p]);
  }

  lemma {:induction false} CascadeFromLined(w: Wheel, stamps: Stamps, k: nat)
    requires Linked(w.lists, w.heads, {}) && Lined(w, stamps, []) && 1 <= k <= 4
    ensures var r := CascadeFrom(w, k);
            Linked(r.lists, r.heads, {}) && Lined(r, stamps, []) && r.lists[WORK] == w.lists[WORK] && r.log == w.log
    decreases 4 - k
  {
    hide Linked, Lined, Floor, Cascade;
    var p := LevelBase(k) + Index(k, w.now);
    assert p < WORK;
    CascadeLined(w, stamps, p);
    hide Index, LevelBase;
    if Index(k, w.now) == 0 && k < 4 {
      CascadeFromLined(Cascade(w, p), stamps, k + 1);
    }
  }

  // A tick

  lemma OpenLined(w: Wheel, stamps: Stamps)
    requires Linked(w.lists, w.heads, {}) && Lined(w, stamps, []) && w.now + 1 < TIME_LIMIT && w.lists[WORK] == []
    ensures Lined(Open(w), stamps, [])
  {
    var r := Open(w);
    hide SlotFor, NoDup;
    forall t | t in w.heads ensures w.heads[t].slot < WORK && StampRight(r.now, r.heads[t], stamps[t]) {
      assert t in w.lists[w.heads[t].slot];
      assert StampRight(w.now, w.heads[t], stamps[t]);
    }
    forall x, y | Earlier(stamps, x, y) ensures LinedAt(r, [], x, y) {
      assert LinedAt(w, [], x, y);
    }
  }

  lemma OpenFifo(start: nat, w: Wheel)
    requires Fifo(start, w) && w.now + 1 < TIME_LIMIT && w.lists[WORK] == []
    ensures Fifo(start, Open(w))
  {
    OpenLined(w, StampsOf(start, w.log));
    TimerWheel.OpenLinked(w);
    StampsSnoc(start, w.log, Ticked);
    TurnSnoc(start, w.log, Ticked);
    hide Lined, Linked, InTurn, StampsOf, ClockAt;
  }

  lemma CascadeAllFifo(start: nat, w: Wheel)
    requires Fifo(start, w)
    ensures Fifo(start, CascadeAll(w)) && CascadeAll(w).lists[WORK] == w.lists[WORK]
  {
    hide Lined, Linked, InTurn, CascadeFrom;
    if w.now % TVR_SIZE == 0 {
      CascadeFromLined(w, StampsOf(start, w.log), 1);
    }
  }

  lemma FirstInTurn(w: Wheel, stamps: Stamps, t: TimerId)
    requires Linked(w.lists, w.heads, {}) && Lined(w, stamps, []) && w.lists[WORK] != []
    ensures !Earlier(stamps, t, w.lists[WORK][0])
  {
    var u := w.lists[WORK][0];
    if Earlier(stamps, t, u) {
      assert LinedAt(w, [], t, u);
      assert u in w.lists[WORK];
      NotBeforeFirst(w.lists[WORK], t);
    }
  }

  lemma FireLined(w: Wheel, stamps: Stamps)
    requires Linked(w.lists, w.heads, {}) && Lined(w, stamps, []) && w.lists[WORK] != []
    ensures Lined(Fire(w), stamps - {w.lists[WORK][0]}, [])
  {
    var t, r := w.lists[WORK][0], Fire(w);
    hide SlotFor, NoDup;
    forall x, y | Earlier(stamps - {t}, x, y) ensures LinedAt(r, [], x, y) {
      assert Earlier(stamps, x, y) && LinedAt(w, [], x, y);
      if w.heads[x].slot == WORK {
        TailPrecedes(w.lists[WORK], x, y);
      }
    }
  }

  lemma FireFifo(start: nat, w: Wheel)
    requires Fifo(start, w) && w.lists[WORK] != []
    ensures Fifo(start, Fire(w))
  {
    var t, stamps := w.lists[WORK][0], StampsOf(start, w.log);
    forall x ensures !Earlier(stamps, x, t) {
      FirstInTurn(w, stamps, x);
    }
    FireLined(w, stamps);
    FireLinked(w);
    StampsSnoc(start, w.log, Fired(t));
    TurnSnoc(start, w.log, Fired(t));
    hide Lined, Linked, InTurn, StampsOf, ClockAt;
  }

  lemma {:induction false} DrainFifo(script: Script, start: nat, w: Wheel)
    requires Fifo(start, w)
    ensures Fifo(start, Drain(script, w))
    decreases |w.lists[WORK]|
  {
    hide Fifo;
    if w.lists[WORK] != [] {
      FireFifo(start, w);
      OpsFifo(start, Fire(w), script(w.calls));
      DrainFifo(script, start, DoOps(Fire(w), script(w.calls)));
    }
  }

  lemma TickFifo(script: Script, start: nat, w: Wheel)
    requires Fifo(start, w) && w.now + 1 < TIME_LIMIT && w.lists[WORK] == []
    ensures Fifo(start, RunTick(script, w))
  {
    hide Fifo;
    CascadeAllFifo(start, w);
    OpenFifo(start, CascadeAll(w));
    DrainFifo(script, start, Open(CascadeAll(w)));
  }

  lemma {:induction false} RunFifo(script: Script, start: nat, w: Wheel, j: Deadline)
    requires Fifo(start, w) && w.lists[WORK] == []
    ensures Fifo(start, RunTo(script, w, j)) && RunTo(script, w, j).lists[WORK] == []
    decreases j + 1 - w.now
  {
    hide Fifo;
    if w.now <= j {
      TickFifo(script, start, w);
      RunFifo(script, start, RunTick(script, w), j);
    }
  }

  // Every run

  lemma {:induction false} CallsFifo(script: Script, start: nat, w: Wheel, calls: seq<Call>)
    requires Fifo(start, w) && w.lists[WORK] == []
    ensures Fifo(start, RunCalls(script, w, calls))
    decreases |calls|
  {
    hide Fifo;
    if calls != [] {
      match calls[0] {
        case Request(op) =>
          OpFifo(start, w, op);
        case Advance(j) =>
          RunFifo(script, start, w, j);
      }
      CallsFifo(script, start, DoCall(script, w, calls[0]), calls[1..]);
    }
  }

  lemma EmptyFifo(start: Tick)
    ensures Fifo(start, Empty(start))
  {
  }

  /** What the history says of a timer that was armed and left alone. */
  lemma {:induction false} StampStays(start: nat, log: seq<Event>, i: nat, n: nat, t: TimerId, e: Tick)
    requires i < n <= |log| && log[i] == Did(Mod(t, e))
    requires forall k | i < k < n :: LeavesAlone(log[k], t) && log[k] != Fired(t)
    ensures var stamps := StampsOf(start, log[..n]); t in stamps && stamps[t] == Stamp(e, ClockAt(start, log[..i]), i)
    decreases n
  {
    assert log[..n][..n - 1] == log[..n - 1];
    if n > i + 1 {
      StampStays(start, log, i, n - 1, t, e);
    }
  }

  lemma {:induction false} NoTickBetween(start: nat, log: seq<Event>, i: nat, j: nat)
    requires i < j <= |log| && forall k | i <= k < j :: log[k] != Ticked
    ensures ClockAt(start, log[..j]) == ClockAt(start, log[..i])
    decreases j
  {
    assert log[..j][..j - 1] == log[..j - 1];
    if j > i + 1 {
      NoTickBetween(start, log, i, j - 1);
    }
  }

  /** First armed, first called back: over every run, with any callbacks.  Take two timers
      armed for one expiry with no tick in between, and neither armed again or deleted since.
      When the second is called back, the first has been. */
  lemma {:induction false} SameTickFifo(script: Script, start: Tick, calls: seq<Call>, i: nat, j: nat, n: nat, t: TimerId, u: TimerId, e: Tick)
    requires var log := After(script, start, calls).log;
             && i < j < n < |log| && t != u
             && log[i] == Did(Mod(t, e)) && log[j] == Did(Mod(u, e)) && log[n] == Fired(u)
             && (forall k | i < k < j :: log[k] != Ticked)
             && (forall k | i < k < n :: LeavesAlone(log[k], t))
             && (forall k | j < k < n :: LeavesAlone(log[k], u))
    ensures exists m :: i < m < n && After(script, start, calls).log[m] == Fired(t)
    decreases n
  {
    var log := After(script, start, calls).log;
    EmptyFifo(start);
    CallsFifo(script, start, Empty(start), calls);
    assert InTurn(start, log);
    hide After, Fifo, InTurn;
    if k :| j < k < n && log[k] == Fired(u) {
      SameTickFifo(script, start, calls, i, j, k, t, u, e);
    } else if forall m | i < m < n :: log[m] != Fired(t) {
      StampStays(start, log, i, n, t, e);
      StampStays(start, log, j, n, u, e);
      NoTickBetween(start, log, i, j);
      TurnAt(start, log, n, t);
    }
  }

  lemma TurnAt(start: nat, log: seq<Event>, n: nat, t: TimerId)
    requires InTurn(start, log) && n < |log| && log[n].Fired?
    ensures !Earlier(StampsOf(start, log[..n]), t, log[n].t)
  {
  }
}
