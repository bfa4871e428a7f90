/** How long the epoll engine sleeps: `process_block` gives `epoll_wait` the difference of
    `timer_next_interrupt` and the clock, as an `int`. */
module EpollSleep {
  import opened TimerSpec
  import opened TimerSlots
  import opened TimerWheel
  import opened TimerNext
  import opened TimerRuns
  import TimerLimits

  const INT_RANGE := 0x1_0000_0000
  const INT_LIMIT := 0x8000_0000

  /** A 64-bit word converted to `int`: its low 32 bits. */
  function ToInt(a: nat): int {
    var low := a % INT_RANGE;
    if low < INT_LIMIT then low else low - INT_RANGE
  }

  /** The timeout of `epoll_wait`; `now` is `msock_now_msecs`. */
  function Timeout(w: Wheel, now: Tick): int
    requires w.now + MAX_DELTA < TIME_LIMIT
  {
    NextBound(w);
    ToInt(Sub64(NextOf(w), now))
  }

  lemma NextBound(w: Wheel)
    requires w.now + MAX_DELTA < TIME_LIMIT
    ensures NextOf(w) < TIME_LIMIT
  {
    hide LevelScan, Expiry;
  }

  lemma ToIntOf(a: nat, b: nat)
    requires a < TIME_LIMIT && b < TIME_LIMIT && -INT_LIMIT <= a - b < INT_LIMIT
    ensures ToInt(Sub64(a, b)) == a - b
  {
  }

  /** `epoll_wait` returns at this tick at the latest, if anything ends the wait at all: a
      negative timeout has no end. */
  predicate EndsBy(timeout: int, now: nat, tick: nat) {
    timeout >= 0 && now + timeout <= tick
  }

  /** As long as the difference fits an `int`, the timeout is the time to the answer. */
  lemma TimeoutIs(w: Wheel, now: Tick)
    requires w.now + MAX_DELTA < TIME_LIMIT && -INT_LIMIT <= NextOf(w) - now < INT_LIMIT
    ensures Timeout(w, now) == NextOf(w) - now
  {
    hide NextOf;
    NextBound(w);
    ToIntOf(NextOf(w), now);
  }

  // What the search answers

  /** Timers beyond tv1 expire no earlier than the next tick. */
  lemma LevelsAhead(w: Wheel, pend: map<TimerId, Arming>, t: TimerId)
    requires Near(w, pend) && t in w.heads && w.heads[t].slot >= TVR_SIZE
    ensures w.now <= w.heads[t].expires
  {
    assert InPlace(w.now, w.heads[t], pend[t]);
    SlotTickNow(w.now, w.heads[t].slot);
  }

  ghost predicate LevelsFrom(w: Wheel, m: nat) {
    forall p, t | 256 <= p < 512 && t in w.lists[p] :: m <= Expiry(w, t)
  }

  lemma {:induction false} LevelScanFrom(w: Wheel, k: nat, q: nat, j: nat, best: nat, found: bool, m: nat)
    requires 1 <= k <= 5 && j < 64 && m <= best < TIME_LIMIT && LevelsFrom(w, m)
    ensures m <= LevelScan(w, k, q, j, best, found)
    decreases 5 - k, 64 - j
  {
    if k < 5 {
      var best' := SlotFrom(w, k, q, j, best, m);
      var q' := CeilDiv(q, 64);
      hide LevelScan, CeilDiv, LevelsFrom;
      LevelScanFrom(w, k + 1, q', 0, best', true, m);
      LevelScanFrom(w, k + 1, q', 0, best', false, m);
      if j + 1 < 64 {
        LevelScanFrom(w, k, q, j + 1, best', false, m);
      }
      OneScan(w, k, q, j, best, found, best');
    }
  }

  lemma OneScan(w: Wheel, k: nat, q: nat, j: nat, best: nat, found: bool, best': nat)
    requires 1 <= k <= 4 && j < 64 && best < TIME_LIMIT && best' == MinExpiry(w, w.lists[LevelBase(k) + (q + j) % 64], best)
    ensures LevelScan(w, k, q, j, best, found) == best'
         || LevelScan(w, k, q, j, best, found) == LevelScan(w, k + 1, CeilDiv(q, 64), 0, best', true)
         || LevelScan(w, k, q, j, best, found) == LevelScan(w, k + 1, CeilDiv(q, 64), 0, best', false)
         || (j + 1 < 64 && LevelScan(w, k, q, j, best, found) == LevelScan(w, k, q, j + 1, best', false))
  {
    ScanUnfold(w, k, q, j, best, found);
    hide LevelScan, CeilDiv, MinExpiry;
  }

  lemma SlotFrom(w: Wheel, k: nat, q: nat, j: nat, best: nat, m: nat) returns (best': nat)
    requires 1 <= k <= 4 && j < 64 && m <= best < TIME_LIMIT && LevelsFrom(w, m)
    ensures best' == MinExpiry(w, w.lists[LevelBase(k) + (q + j) % 64], best) && m <= best' < TIME_LIMIT
  {
    hide Expiry;
    best' := MinExpiry(w, w.lists[LevelBase(k) + (q + j) % 64], best);
    assert 256 <= LevelBase(k) + (q + j) % 64 < 512;
  }

  lemma HeadDue(w: Wheel, pend: map<TimerId, Arming>)
    requires Near(w, pend) && RootList(w, 0) != []
    ensures Expiry(w, RootList(w, 0)[0]) <= w.now
  {
    var t := RootList(w, 0)[0];
    RootDue(w, pend, 0, t);
    assert InPlace(w.now, w.heads[t], pend[t]);
  }

  lemma LevelsOver(w: Wheel, pend: map<TimerId, Arming>, m: nat)
    requires Near(w, pend) && m <= w.now
    ensures LevelsFrom(w, m)
  {
    forall p, t | 256 <= p < 512 && t in w.lists[p] ensures m <= Expiry(w, t) {
      assert t in w.heads && w.heads[t].slot == p;
      LevelsAhead(w, pend, t);
    }
  }

  /** When a timer is in `tv1[timer_jiffies & 255]`, the search answers with the first one
      there, whatever the others expire at. */
  lemma AnswerIsHead(w: Wheel, pend: map<TimerId, Arming>)
    requires Near(w, pend) && w.now + MAX_DELTA < TIME_LIMIT && RootList(w, 0) != []
    ensures NextOf(w) == Expiry(w, RootList(w, 0)[0])
  {
    var e := Expiry(w, RootList(w, 0)[0]);
    HeadDue(w, pend);
    LevelsOver(w, pend, e);
    assert RootScan(w, 0) == 0;
    hide Near, LevelScan, Expiry, CeilDiv, RootScan;
    LevelScanFrom(w, 1, CeilDiv(w.now, 256), 0, e, true, e);
  }

  /** Otherwise no pending timer is overdue. */
  lemma NoHeadNoneOverdue(w: Wheel, pend: map<TimerId, Arming>, t: TimerId)
    requires Near(w, pend) && RootList(w, 0) == [] && t in w.heads
    ensures w.now <= w.heads[t].expires && pend[t].Due() == w.heads[t].expires
  {
    assert InPlace(w.now, w.heads[t], pend[t]);
    if w.heads[t].slot < TVR_SIZE {
      RootFacts(w, pend, t);
    } else {
      LevelsAhead(w, pend, t);
    }
  }

  /** The first timer of `tv1[timer_jiffies & 255]` has expired by the clock; if none is
      there, some pending timer has. */
  ghost predicate HeadExpired(w: Wheel, now: nat) {
    if RootList(w, 0) != [] then Expiry(w, RootList(w, 0)[0]) < now
    else exists t :: t in w.heads && w.heads[t].expires < now
  }

  lemma AnswerPastIff(w: Wheel, pend: map<TimerId, Arming>, now: Tick)
    requires pend.Keys == w.heads.Keys && Near(w, pend) && w.now + MAX_DELTA < TIME_LIMIT && now <= w.now + MAX_DELTA
    ensures NextOf(w) < now <==> HeadExpired(w, now)
  {
    if RootList(w, 0) != [] {
      AnswerIsHead(w, pend);
    } else {
      NextInTime(w, pend);
      forall t | t in w.heads ensures pend[t].Due() == w.heads[t].expires {
        NoHeadNoneOverdue(w, pend, t);
      }
      hide Near, NextOf, RootList;
    }
  }

  // When the engine sleeps too long

  /** The wait goes on past the due tick of a pending timer. */
  ghost predicate Late(script: Script, start: nat, w: Wheel, now: Tick)
    requires Idle(script, start, w) && w.now + MAX_DELTA < TIME_LIMIT
  {
    var pend := Pending(script, start, w);
    exists t :: t in pend && !EndsBy(Timeout(w, now), now, pend[t].Due())
  }

  /** Clock and wheel are not weeks apart, and no timer is weeks overdue. */
  ghost predicate FitsInt(pend: map<TimerId, Arming>, wheel: nat, now: nat) {
    wheel <= now + MAX_DELTA && now <= wheel + MAX_DELTA && forall t | t in pend :: now <= pend[t].expires + INT_LIMIT
  }

  lemma AnswerFits(w: Wheel, pend: map<TimerId, Arming>, now: Tick)
    requires pend.Keys == w.heads.Keys && Matches(w.now, w.heads, pend) && FitsInt(pend, w.now, now)
    requires w.now + MAX_DELTA < TIME_LIMIT && InTime(w, pend, NextOf(w))
    ensures -INT_LIMIT <= NextOf(w) - now < INT_LIMIT
  {
    hide NextOf;
    if NextOf(w) != w.now + MAX_DELTA {
      var t :| t in w.heads && w.heads[t].expires == NextOf(w);
      assert InPlace(w.now, w.heads[t], pend[t]);
    }
  }

  /** The engine sleeps too long for a pending timer just when the first timer of
      `tv1[timer_jiffies & 255]` has expired by the clock, or none is there and another
      one has. */
  lemma LateIff(script: Script, start: nat, w: Wheel, now: Tick)
    requires Idle(script, start, w) && w.now + MAX_DELTA < TIME_LIMIT
    requires ArmedWithin(Pending(script, start, w), REACH) && FitsInt(Pending(script, start, w), w.now, now)
    ensures Late(script, start, w, now) <==> HeadExpired(w, now)
    ensures !HeadExpired(w, now) ==> now + Timeout(w, now) == NextOf(w) && Timeout(w, now) >= 0
    ensures HeadExpired(w, now) ==> Timeout(w, now) < 0
  {
    var pend := Pending(script, start, w);
    IdleNear(script, start, w);
    NextInTime(w, pend);
    AnswerFits(w, pend, now);
    AnswerPastIff(w, pend, now);
    TimeoutIs(w, now);
    if HeadExpired(w, now) {
      SomePending(w, pend, now);
    }
    hide Near, NextOf, HeadExpired, Idle;
  }

  lemma SomePending(w: Wheel, pend: map<TimerId, Arming>, now: nat)
    requires Near(w, pend) && pend.Keys == w.heads.Keys && HeadExpired(w, now)
    ensures exists t :: t in pend
  {
    if RootList(w, 0) != [] {
      RootDue(w, pend, 0, RootList(w, 0)[0]);
      assert RootList(w, 0)[0] in pend;
    } else {
      var t :| t in w.heads && w.heads[t].expires < now;
      assert t in pend;
    }
  }

  /** As `process_block` finds its wheel, run up to the clock or a tick further: only the
      first timer of that list counts. */
  lemma BlockLateIff(script: Script, start: nat, w: Wheel, now: Tick)
    requires Idle(script, start, w) && w.now + MAX_DELTA < TIME_LIMIT && now <= w.now
    requires ArmedWithin(Pending(script, start, w), REACH) && FitsInt(Pending(script, start, w), w.now, now)
    ensures Late(script, start, w, now) <==> RootList(w, 0) != [] && Expiry(w, RootList(w, 0)[0]) < now
  {
    LateIff(script, start, w, now);
    var pend := Pending(script, start, w);
    IdleNear(script, start, w);
    if RootList(w, 0) == [] {
      forall t | t in w.heads ensures now <= w.heads[t].expires {
        NoHeadNoneOverdue(w, pend, t);
      }
    }
    hide Near, NextOf, Idle, Late;
  }

  /** With no pending timer overdue by the clock, and timers armed within reach, the engine
      sleeps no longer than until the first due tick. */
  lemma SleepsInTime(script: Script, start: nat, w: Wheel, now: Tick)
    requires Idle(script, start, w) && w.now + MAX_DELTA < TIME_LIMIT
    requires w.now <= now + MAX_DELTA && now <= w.now + MAX_DELTA
    requires var pend := Pending(script, start, w); ArmedWithin(pend, REACH) && NoneOverdue(pend, now)
    ensures Timeout(w, now) >= 0 && now + Timeout(w, now) == NextOf(w) && !Late(script, start, w, now)
  {
    var pend := Pending(script, start, w);
    LateIff(script, start, w, now);
    IdleNear(script, start, w);
    NotExpired(w, pend, now);
    hide Idle, NextOf, Late, HeadExpired;
  }

  /** And to run the wheel to any tick before the sleep ends would run no callback. */
  lemma NothingMissed(script: Script, start: nat, w: Wheel, now: Tick, j: Deadline)
    requires Idle(script, start, w) && w.now + MAX_DELTA < TIME_LIMIT
    requires w.now <= now + MAX_DELTA && now <= w.now + MAX_DELTA
    requires var pend := Pending(script, start, w); ArmedWithin(pend, REACH) && NoneOverdue(pend, now)
    requires j < now + Timeout(w, now)
    ensures RunTo(script, w, j).calls == w.calls
  {
    SleepsInTime(script, start, w, now);
    hide Idle, NextOf;
    SleepIsSafe(script, start, w, j);
  }

  lemma NotExpired(w: Wheel, pend: map<TimerId, Arming>, now: nat)
    requires pend.Keys == w.heads.Keys && Near(w, pend) && NoneOverdue(pend, now)
    ensures !HeadExpired(w, now)
  {
    forall t | t in w.heads ensures now <= w.heads[t].expires {
      assert InPlace(w.now, w.heads[t], pend[t]);
    }
    if RootList(w, 0) != [] {
      RootDue(w, pend, 0, RootList(w, 0)[0]);
    }
  }

  /** A new wheel at tick 10 with a timer for tick 9. */
  const OVERDUE: seq<Call> := [Request(Mod(0, 9))]

  predicate HoldsOverdue(w: Wheel) {
    w.now == 10 && w.heads == map[0 := Head(9, 10)] && w.lists[10] == [0] && w.log == [Did(Mod(0, 9))]
  }

  lemma OverdueWheel()
    ensures HoldsOverdue(After(TimerLimits.Quiet(), 10, OVERDUE))
  {
    assert OVERDUE[1..] == [];
    assert SlotFor(10, 9) == 10;
    hide SlotFor;
    var w := Empty(10);
    assert DoOp(w, Mod(0, 9)).lists[10] == [0];
  }

  lemma OverdueNext(w: Wheel)
    requires HoldsOverdue(w)
    ensures NextOf(w) == 9
  {
    hide LevelScan;
    assert RootSlot(10, 0) == 10;
    assert RootList(w, 0) == [0];
    assert RootScan(w, 0) == 0;
  }

  lemma OverduePending(w: Wheel)
    requires HoldsOverdue(w) && Idle(TimerLimits.Quiet(), 10, w)
    ensures Pending(TimerLimits.Quiet(), 10, w).Keys == {0} && Pending(TimerLimits.Quiet(), 10, w)[0].expires == 9
  {
    hide Replay, Linked;
    assert InPlace(10, w.heads[0], Pending(TimerLimits.Quiet(), 10, w)[0]);
  }

  /** A timer armed one tick behind the clock, alone in a new wheel: the timeout is negative,
      and the engine sleeps until something else wakes it. */
  lemma OverdueSleepsOn()
    ensures var w := After(TimerLimits.Quiet(), 10, OVERDUE);
            && w.now == 10 && Idle(TimerLimits.Quiet(), 10, w) && Timeout(w, 10) == -1
            && Pending(TimerLimits.Quiet(), 10, w).Keys == {0} && Pending(TimerLimits.Quiet(), 10, w)[0].expires == 9
            && forall tick :: !EndsBy(Timeout(w, 10), 10, tick)
  {
    var w := After(TimerLimits.Quiet(), 10, OVERDUE);
    EmptyIdle(TimerLimits.Quiet(), 10);
    RunCallsIdle(TimerLimits.Quiet(), 10, Empty(10), OVERDUE);
    OverdueWheel();
    hide After, Idle, NextOf;
    OverdueNext(w);
    OverduePending(w);
    ToIntOf(9, 10);
  }
}
