/** Runs of the engine's wheel with its clock: `process_block` sets the clock and runs the
    wheel up to it, and requests ask for expiries that were computed from the clock as it
    was when they were sent.  A callback deletes its timer and arms none. */
module EpollClock {
  import opened TimerSpec
  import opened TimerSlots
  import opened TimerWheel
  import opened TimerNext
  import opened TimerRuns
  import opened TimerHistory
  import opened EpollSleep
  import TimerLimits

  /** The clock only goes on, and requests are no more than d ticks behind it. */
  predicate Clocked(clock: Tick, calls: seq<Call>, d: nat)
    decreases |calls|
  {
    calls == []
    || match calls[0]
       case Request(op) => (op.Mod? ==> clock <= op.expires + d) && Clocked(clock, calls[1..], d)
       case Advance(j) => clock <= j && Clocked(j, calls[1..], d)
  }

  function ClockAfter(clock: Tick, calls: seq<Call>): Tick
    decreases |calls|
  {
    if calls == [] then clock
    else ClockAfter(if calls[0].Advance? then calls[0].jiffies else clock, calls[1..])
  }

  // Requests that are not behind the clock

  /** The wheel is run up to the clock, or not yet; and no timer was armed for an earlier tick
      than the clock showed. */
  ghost predicate Timely(w: Wheel, pend: map<TimerId, Arming>, clock: nat) {
    && clock <= w.now <= clock + 1
    && forall t | t in pend :: pend[t].at <= pend[t].expires + (w.now - clock)
  }

  lemma RequestTimely(script: Script, start: nat, w: Wheel, clock: Tick, op: Op)
    requires Idle(script, start, w) && Timely(w, Pending(script, start, w), clock)
    requires op.Mod? ==> clock <= op.expires
    ensures Idle(script, start, DoOp(w, op)) && Timely(DoOp(w, op), Pending(script, start, DoOp(w, op)), clock)
  {
    RequestPending(script, start, w, op);
    hide Idle;
  }

  lemma AdvanceTimely(script: Script, start: nat, w: Wheel, clock: Tick, j: Deadline)
    requires Keeps(script, Deletes) && clock <= j
    requires Idle(script, start, w) && Timely(w, Pending(script, start, w), clock)
    ensures var w' := RunTo(script, w, j); Idle(script, start, w') && Timely(w', Pending(script, start, w'), j)
  {
    RunIdle(script, start, w, j);
    RunGoesOn(script, w, j, Deletes);
    var w' := RunTo(script, w, j);
    PendingShrinks(script, start, w.log, w'.log);
    hide Idle, RunTo;
  }

  lemma {:induction false} CallsTimely(script: Script, start: nat, w: Wheel, clock: Tick, calls: seq<Call>)
    requires Keeps(script, Deletes) && Clocked(clock, calls, 0)
    requires Idle(script, start, w) && Timely(w, Pending(script, start, w), clock)
    ensures var w' := RunCalls(script, w, calls);
            Idle(script, start, w') && Timely(w', Pending(script, start, w'), ClockAfter(clock, calls))
    decreases |calls|
  {
    hide Idle, Timely, Keeps, RunTo, DoOp;
    if calls != [] {
      match calls[0] {
        case Request(op) =>
          RequestTimely(script, start, w, clock, op);
          CallsTimely(script, start, DoOp(w, op), clock, calls[1..]);
        case Advance(j) =>
          AdvanceTimely(script, start, w, clock, j);
          CallsTimely(script, start, RunTo(script, w, j), j, calls[1..]);
      }
    }
  }

  lemma TimelyNotOverdue(script: Script, start: nat, w: Wheel, clock: nat)
    requires Idle(script, start, w) && Timely(w, Pending(script, start, w), clock)
    ensures NoneOverdue(Pending(script, start, w), clock)
  {
    AllAhead(script, start, w);
    hide Idle;
  }

  /** After these calls the timeout of the engine has an end, if timers were armed within reach
      and what is pending is not weeks overdue. */
  ghost predicate EndsAfter(script: Script, start: Tick, calls: seq<Call>) {
    var w, now := After(script, start, calls), ClockAfter(start, calls);
    Legal(script, start, w.log) && w.now + MAX_DELTA < TIME_LIMIT
    && ArmedWithin(Pending(script, start, w), REACH) && FitsInt(Pending(script, start, w), w.now, now)
    ==> Timeout(w, now) >= 0
  }

  ghost predicate AlwaysEnds(d: nat) {
    forall script: Script, start: Tick, calls: seq<Call> | Keeps(script, Deletes) && Clocked(start, calls, d) ::
      EndsAfter(script, start, calls)
  }

  lemma PromptEnds(script: Script, start: Tick, calls: seq<Call>)
    requires Keeps(script, Deletes) && Clocked(start, calls, 0)
    ensures EndsAfter(script, start, calls)
  {
    var w, now := After(script, start, calls), ClockAfter(start, calls);
    EmptyIdle(script, start);
    CallsTimely(script, start, Empty(start), start, calls);
    if w.now + MAX_DELTA < TIME_LIMIT && ArmedWithin(Pending(script, start, w), REACH) {
      TimelyNotOverdue(script, start, w, now);
      hide Idle, Clocked;
      SleepsInTime(script, start, w, now);
    }
  }

  /** One tick behind is enough: the run of OverdueSleepsOn. */
  lemma BehindFails(d: nat)
    requires d > 0
    ensures !AlwaysEnds(d)
  {
    var script := TimerLimits.Quiet();
    OverdueSleepsOn();
    assert OVERDUE[1..] == [];
    assert Keeps(script, Deletes) && Clocked(10, OVERDUE, d) && ClockAfter(10, OVERDUE) == 10;
    var w := After(script, 10, OVERDUE);
    hide Idle, After, Timeout;
    OverdueReach(w);
    assert !EndsAfter(script, 10, OVERDUE);
  }

  lemma OverdueReach(w: Wheel)
    requires w == After(TimerLimits.Quiet(), 10, OVERDUE)
    ensures Legal(TimerLimits.Quiet(), 10, w.log)
    ensures var pend := Pending(TimerLimits.Quiet(), 10, w); ArmedWithin(pend, REACH) && FitsInt(pend, w.now, 10)
  {
    OverdueSleepsOn();
    hide After, Timeout, Linked;
  }

  /** Over all runs the engine's sleep always has an end just when requests are never behind
      the clock. */
  lemma AlwaysEndsIff(d: nat)
    ensures AlwaysEnds(d) <==> d == 0
  {
    if d == 0 {
      forall script: Script, start: Tick, calls: seq<Call> | Keeps(script, Deletes) && Clocked(start, calls, d)
        ensures EndsAfter(script, start, calls)
      {
        PromptEnds(script, start, calls);
      }
    } else {
      BehindFails(d);
    }
  }
}
