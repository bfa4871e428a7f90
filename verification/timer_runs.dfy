/** Whole runs of a timer base: any sequence of `timer_mod`, `timer_del` and
    `timers_run` calls, with any callbacks. */
module TimerRuns {
  import opened TimerSpec
  import opened TimerSlots
  import opened TimerWheel
  import opened TimerNext

  type Deadline = x: int | 0 <= x < TIME_LIMIT - 1

  datatype Call = Request(op: Op) | Advance(jiffies: Deadline)

  function DoCall(script: Script, w: Wheel, call: Call): Wheel {
    match call
    case Request(op) => DoOp(w, op)
    case Advance(j) => RunTo(script, w, j)
  }

  function RunCalls(script: Script, w: Wheel, calls: seq<Call>): Wheel
    decreases |calls|
  {
    if calls == [] then w else RunCalls(script, DoCall(script, w, calls[0]), calls[1..])
  }

  lemma CallIdle(script: Script, start: nat, w: Wheel, call: Call)
    requires Idle(script, start, w)
    ensures Idle(script, start, DoCall(script, w, call))
  {
    match call {
      case Request(op) => OpGood(script, start, w, [], op);
      case Advance(j) => RunIdle(script, start, w, j);
    }
  }

  /** The wheel refines the specification over every run. */
  lemma {:induction false} RunCallsIdle(script: Script, start: nat, w: Wheel, calls: seq<Call>)
    requires Idle(script, start, w)
    ensures Idle(script, start, RunCalls(script, w, calls))
    decreases |calls|
  {
    hide Idle;
    if calls != [] {
      CallIdle(script, start, w, calls[0]);
      RunCallsIdle(script, start, DoCall(script, w, calls[0]), calls[1..]);
    }
  }

  function After(script: Script, start: Tick, calls: seq<Call>): Wheel {
    RunCalls(script, Empty(start), calls)
  }

  /** Wheel exactness.  In the history of every run, a timer armed by event i with
      expiry e at tick A, and not re-armed or deleted since, has fired if and only
      if the clock is past tick max(e, A); it has fired at most once, and then in
      the processing of tick max(e, A). */
  lemma WheelFiresExactlyOnce(script: Script, start: Tick, calls: seq<Call>, i: nat, t: TimerId, e: Tick)
    requires var log := After(script, start, calls).log;
             i < |log| && log[i] == Did(Mod(t, e)) && forall k | i < k < |log| :: LeavesAlone(log[k], t)
    ensures var w := After(script, start, calls);
            && (forall k | 0 <= k <= |w.log| :: Replay(script, start, w.log, k).Some?)
            && var due := Arming(e, Clock(script, start, w.log, i)).Due();
            && ((exists k :: i < k < |w.log| && w.log[k] == Fired(t)) <==> due < w.now)
            && (forall k | i < k < |w.log| && w.log[k] == Fired(t) :: Clock(script, start, w.log, k) == due + 1)
            && (forall k, m | i < k < |w.log| && i < m < |w.log| && w.log[k] == Fired(t) && w.log[m] == Fired(t) :: k == m)
  {
    EmptyIdle(script, start);
    RunCallsIdle(script, start, Empty(start), calls);
    var w := After(script, start, calls);
    FiresExactlyOnce(script, start, w.log, i, |w.log|, t, e);
    var fire := FollowArming(script, start, w.log, i, |w.log|, t, e);
    AllAhead(script, start, w);
    if fire != -1 {
      ClockGrows(script, start, w.log, fire, |w.log|);
    }
  }

  lemma {:induction false} ClockGrows(script: Script, start: nat, log: seq<Event>, k: nat, n: nat)
    requires k <= n <= |log| && Replay(script, start, log, n).Some?
    ensures Replay(script, start, log, k).Some? && Clock(script, start, log, k) <= Clock(script, start, log, n)
    decreases n
  {
    if k < n {
      ClockGrows(script, start, log, k, n - 1);
    }
  }

  function Pending(script: Script, start: nat, w: Wheel): map<TimerId, Arming>
    requires Legal(script, start, w.log)
  {
    Final(script, start, w.log).pend
  }

  ghost predicate ArmedWithin(pend: map<TimerId, Arming>, d: nat) {
    forall t | t in pend :: pend[t].expires <= pend[t].at + d
  }

  ghost predicate NoneOverdue(pend: map<TimerId, Arming>, now: nat) {
    forall t | t in pend :: now <= pend[t].expires
  }

  /** r is min(smallest pending expiry, now + NEXT_TIMER_MAX_DELTA). */
  ghost predicate IsEarliest(pend: map<TimerId, Arming>, now: nat, r: nat) {
    && r <= now + MAX_DELTA
    && (forall t | t in pend :: r <= pend[t].expires)
    && (r == now + MAX_DELTA || exists t :: t in pend && pend[t].expires == r)
  }

  lemma IdleNear(script: Script, start: nat, w: Wheel)
    requires Idle(script, start, w) && ArmedWithin(Pending(script, start, w), REACH)
    ensures Near(w, Pending(script, start, w)) && Pending(script, start, w).Keys == w.heads.Keys
  {
    AllAhead(script, start, w);
  }

  /** After these calls `timer_next_interrupt` is exact, if the timers that pend were
      armed no further than d ahead and none is overdue. */
  ghost predicate ExactAfter(script: Script, start: Tick, calls: seq<Call>, d: nat) {
    var w := After(script, start, calls);
    Legal(script, start, w.log) && w.now + MAX_DELTA < TIME_LIMIT
    && ArmedWithin(Pending(script, start, w), d) && NoneOverdue(Pending(script, start, w), w.now)
    ==> IsEarliest(Pending(script, start, w), w.now, NextOf(w))
  }

  /** After these calls nothing pending is due before `timer_next_interrupt`. */
  ghost predicate InTimeAfter(script: Script, start: Tick, calls: seq<Call>, d: nat) {
    var w := After(script, start, calls);
    Legal(script, start, w.log) && w.now + MAX_DELTA < TIME_LIMIT && ArmedWithin(Pending(script, start, w), d)
    ==> forall t | t in Pending(script, start, w) :: NextOf(w) <= Pending(script, start, w)[t].Due()
  }

  lemma ReachSuffices(script: Script, start: Tick, calls: seq<Call>, d: nat)
    requires d <= REACH
    ensures ExactAfter(script, start, calls, d) && InTimeAfter(script, start, calls, d)
  {
    var w := After(script, start, calls);
    EmptyIdle(script, start);
    RunCallsIdle(script, start, Empty(start), calls);
    var pend := Pending(script, start, w);
    if w.now + MAX_DELTA < TIME_LIMIT && ArmedWithin(pend, d) {
      IdleNear(script, start, w);
      NextInTime(w, pend);
      assert forall t | t in pend :: pend[t].expires == w.heads[t].expires;
    }
  }

  /** A tick nothing is due at: no callback runs. */
  lemma QuietTick(script: Script, start: nat, w: Wheel)
    requires Idle(script, start, w) && w.now + 1 < TIME_LIMIT
    requires forall t | t in Pending(script, start, w) :: w.now < Pending(script, start, w)[t].Due()
    ensures var r := RunTick(script, w);
            && r.calls == w.calls && r.log == w.log + [Ticked]
            && Legal(script, start, r.log) && Pending(script, start, r) == Pending(script, start, w)
  {
    hide Linked, Settled, CascadeAll, Placed;
    var pend := Pending(script, start, w);
    CascadeAllGood(w, pend);
    var c := CascadeAll(w);
    OpenGood(script, start, c);
    LegalTick(script, start, w.log);
    var work := Open(c).lists[WORK];
    if work != [] {
      FireLinked(Open(c));
      assert false;
    }
  }

  /** `timers_run` up to a tick before every due tick runs no callback, and takes no
      timer away: it returns 0. */
  lemma {:induction false} QuietRun(script: Script, start: nat, w: Wheel, j: Deadline)
    requires Idle(script, start, w)
    requires forall t | t in Pending(script, start, w) :: j < Pending(script, start, w)[t].Due()
    ensures var r := RunTo(script, w, j);
            && r.calls == w.calls && Legal(script, start, r.log) && Pending(script, start, r) == Pending(script, start, w)
    decreases j + 1 - w.now
  {
    if w.now <= j {
      QuietTick(script, start, w);
      TickIdle(script, start, w);
      QuietRun(script, start, RunTick(script, w), j);
    }
  }

  /** Sleeping until `timer_next_interrupt` misses nothing: running the wheel to any
      earlier tick fires no timer. */
  lemma SleepIsSafe(script: Script, start: nat, w: Wheel, j: Deadline)
    requires Idle(script, start, w) && w.now + MAX_DELTA < TIME_LIMIT
    requires ArmedWithin(Pending(script, start, w), REACH) && j < NextOf(w)
    ensures RunTo(script, w, j).calls == w.calls
  {
    IdleNear(script, start, w);
    NextInTime(w, Pending(script, start, w));
    QuietRun(script, start, w, j);
  }
}
