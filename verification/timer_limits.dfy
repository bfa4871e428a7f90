/** How far ahead timers may be armed for `timer_next_interrupt` to be right: up to
    0x1_0000_0000 ticks and not one more.  A timer armed further out is parked in
    the last slot of tv5; once the wheel comes round to it, the search takes it
    for the nearest one and misses a timer in the next slot. */
module TimerLimits {
  import opened TimerSpec
  import opened TimerSlots
  import opened TimerWheel
  import opened TimerNext
  import opened TimerRuns

  const FAR := 0x1_0000_0001
  const NEAR := 0x1_0000_0000
  const PARKED := 511
  const LATE := 62 * 0x400_0000

  function Quiet(): Script {
    (k: nat) => []
  }

  function Story(): seq<Call> {
    [Request(Mod(0, FAR)), Advance(LATE), Request(Mod(1, NEAR))]
  }

  /** Only timer 0 pends, in the last slot of tv5. */
  ghost predicate OnlyParked(w: Wheel) {
    && w.heads == map[0 := Head(FAR, PARKED)]
    && w.lists[PARKED] == [0]
    && forall p | 0 <= p < 513 && p != PARKED :: w.lists[p] == []
  }

  lemma {:induction false} CascadeParked(w: Wheel, k: nat)
    requires OnlyParked(w) && 1 <= k <= 4 && w.now < 63 * 0x400_0000
    ensures CascadeFrom(w, k) == w
    decreases 4 - k
  {
    var p := LevelBase(k) + Index(k, w.now);
    assert p != PARKED;
    assert w.lists[p := []] == w.lists;
    if k < 4 {
      CascadeParked(w, k + 1);
    }
  }

  lemma TickParked(w: Wheel)
    requires OnlyParked(w) && w.now < 63 * 0x400_0000
    ensures OnlyParked(RunTick(Quiet(), w))
  {
    CascadeParked(w, 1);
    assert OnlyParked(Open(w));
  }

  lemma {:induction false} RunParked(w: Wheel, j: Tick)
    requires OnlyParked(w) && j < 63 * 0x400_0000
    ensures OnlyParked(RunTo(Quiet(), w, j))
    decreases j + 1 - w.now
  {
    hide OnlyParked, RunTick;
    if w.now <= j {
      TickParked(w);
      RunParked(RunTick(Quiet(), w), j);
    }
  }

  lemma {:induction false} EmptyLevel(w: Wheel, k: nat, q: nat, j: nat, best: nat)
    requires 1 <= k <= 4 && j < 64 && best < TIME_LIMIT
    requires forall p | LevelBase(k) <= p < LevelBase(k) + 64 :: w.lists[p] == []
    ensures LevelScan(w, k, q, j, best, false) == LevelScan(w, k + 1, CeilDiv(q, 64), 0, best, false)
    decreases 64 - j
  {
    if j + 1 < 64 {
      EmptyLevel(w, k, q, j + 1, best);
    }
  }

  /** Timers 0 and 1 pend in the last and the first slot of tv5. */
  ghost predicate Hidden(w: Wheel) {
    && w.now == LATE + 1
    && w.heads == map[0 := Head(FAR, PARKED), 1 := Head(NEAR, 448)]
    && w.lists[PARKED] == [0]
    && forall p | 0 <= p < 513 && p != PARKED && p != 448 :: w.lists[p] == []
  }

  lemma StoryStart()
    ensures OnlyParked(DoOp(Empty(0), Mod(0, FAR)))
  {
    assert SlotFor(0, FAR) == PARKED;
    assert DoOp(Empty(0), Mod(0, FAR)).heads == map[0 := Head(FAR, PARKED)];
  }

  lemma StoryEnd(w: Wheel)
    requires OnlyParked(w) && w.now == LATE + 1
    ensures Hidden(DoOp(w, Mod(1, NEAR)))
  {
    assert SlotFor(LATE + 1, NEAR) == 448;
    assert DoOp(w, Mod(1, NEAR)).heads == map[0 := Head(FAR, PARKED), 1 := Head(NEAR, 448)];
  }

  lemma StoryUnfolds()
    ensures After(Quiet(), 0, Story()) == DoOp(RunTo(Quiet(), DoOp(Empty(0), Mod(0, FAR)), LATE), Mod(1, NEAR))
  {
    hide RunTo, DoOp, Empty;
    var calls := Story();
    assert calls[1..] == [Advance(LATE), Request(Mod(1, NEAR))];
    assert calls[1..][1..] == [Request(Mod(1, NEAR))];
    assert calls[1..][1..][1..] == [];
    var w1 := DoOp(Empty(0), Mod(0, FAR));
    calc {
      After(Quiet(), 0, calls);
      RunCalls(Quiet(), w1, calls[1..]);
      RunCalls(Quiet(), RunTo(Quiet(), w1, LATE), calls[1..][1..]);
    }
  }

  lemma StoryHides()
    ensures Hidden(After(Quiet(), 0, Story()))
  {
    hide OnlyParked, Hidden, After, RunTo;
    StoryStart();
    var w1 := DoOp(Empty(0), Mod(0, FAR));
    RunParked(w1, LATE);
    RunClock(Quiet(), w1, LATE);
    StoryEnd(RunTo(Quiet(), w1, LATE));
    StoryUnfolds();
  }

  lemma RunClock(script: Script, w: Wheel, j: Deadline)
    requires w.now <= j
    ensures RunTo(script, w, j).now == j + 1
  {
  }

  lemma HiddenRoot(w: Wheel)
    requires Hidden(w)
    ensures RootScan(w, 0) == 256
  {
    assert forall i | 0 <= i < 256 :: RootList(w, i) == [];
  }

  lemma HiddenScan(w: Wheel, best: nat)
    requires Hidden(w) && FAR < best < TIME_LIMIT
    ensures LevelScan(w, 4, 63, 0, best, false) == FAR
  {
    ScanUnfold(w, 4, 63, 0, best, false);
    assert w.lists[PARKED] == [0] && Expiry(w, 0) == FAR;
    assert MinExpiry(w, [0], best) == MinExpiry(w, [], FAR) by {
      assert [0][1..] == [];
    }
  }

  lemma HiddenMissed(w: Wheel)
    requires Hidden(w)
    ensures w.now + MAX_DELTA < TIME_LIMIT && NextOf(w) == FAR
  {
    hide LevelScan, RootScan;
    var bound := w.now + MAX_DELTA;
    HiddenRoot(w);
    assert CeilDiv(w.now, 256) == 16252929 && CeilDiv(16252929, 64) == 253953;
    assert CeilDiv(253953, 64) == 3969 && CeilDiv(3969, 64) == 63;
    EmptyLevel(w, 1, 16252929, 0, bound);
    EmptyLevel(w, 2, 253953, 0, bound);
    EmptyLevel(w, 3, 3969, 0, bound);
    HiddenScan(w, bound);
  }

  lemma HiddenPending(script: Script, w: Wheel)
    requires Idle(script, 0, w) && Hidden(w)
    ensures var pend := Pending(script, 0, w);
            && pend.Keys == {0, 1} && pend[0].expires == FAR && pend[1].expires == NEAR
            && pend[1].at <= w.now <= NEAR
  {
    assert InPlace(w.now, w.heads[0], Pending(script, 0, w)[0]);
    assert InPlace(w.now, w.heads[1], Pending(script, 0, w)[1]);
  }

  /** The run in which a timer armed at 0x1_0000_0001 hides one that expires a tick
      earlier: the search answers one tick late. */
  lemma HiddenTimer()
    ensures var w := After(Quiet(), 0, Story());
            && Idle(Quiet(), 0, w) && w.now + MAX_DELTA < TIME_LIMIT
            && var pend := Pending(Quiet(), 0, w);
            && pend.Keys == {0, 1} && pend[0].expires == FAR && pend[1].expires == NEAR
            && pend[1].at <= w.now <= NEAR && NextOf(w) == FAR
  {
    hide Idle, Hidden, NextOf, After;
    EmptyIdle(Quiet(), 0);
    StoryHides();
    StoryIdle();
    HiddenMissed(After(Quiet(), 0, Story()));
    HiddenPending(Quiet(), After(Quiet(), 0, Story()));
    IdleLegal(After(Quiet(), 0, Story()));
  }

  lemma StoryIdle()
    ensures Idle(Quiet(), 0, After(Quiet(), 0, Story()))
  {
    hide Idle;
    EmptyIdle(Quiet(), 0);
    RunCallsIdle(Quiet(), 0, Empty(0), Story());
  }

  lemma IdleLegal(w: Wheel)
    requires Idle(Quiet(), 0, w)
    ensures Legal(Quiet(), 0, w.log)
  {
  }

  /** A run in which nothing is armed further than d ahead, yet the search is late. */
  lemma HiddenLate(d: nat)
    requires d > REACH
    ensures !ExactAfter(Quiet(), 0, Story(), d) && !InTimeAfter(Quiet(), 0, Story(), d)
  {
    hide After, Replay, NextOf, Idle;
    HiddenTimer();
    IdleLegal(After(Quiet(), 0, Story()));
    var pend := Pending(Quiet(), 0, After(Quiet(), 0, Story()));
    assert 0 in pend && 1 in pend;
    assert pend[1].Due() == NEAR;
  }

  /** `timer_next_interrupt` returns min(smallest pending expiry, now + 2^30 - 1) after
      every run whose pending timers are not overdue and were armed at most d ticks
      ahead, if and only if d is at most 0x1_0000_0000. */
  lemma NextExactIff(d: nat)
    ensures (forall script: Script, start: Tick, calls: seq<Call> :: ExactAfter(script, start, calls, d)) <==> d <= REACH
  {
    hide ExactAfter, InTimeAfter;
    if d <= REACH {
      forall script: Script, start: Tick, calls: seq<Call> ensures ExactAfter(script, start, calls, d) {
        ReachSuffices(script, start, calls, d);
      }
    } else {
      HiddenLate(d);
    }
  }

  /** Nothing pending is ever due before `timer_next_interrupt`, overdue timers
      included, if and only if timers are armed at most 0x1_0000_0000 ticks ahead. */
  lemma NextInTimeIff(d: nat)
    ensures (forall script: Script, start: Tick, calls: seq<Call> :: InTimeAfter(script, start, calls, d)) <==> d <= REACH
  {
    hide ExactAfter, InTimeAfter;
    if d <= REACH {
      forall script: Script, start: Tick, calls: seq<Call> ensures InTimeAfter(script, start, calls, d) {
        ReachSuffices(script, start, calls, d);
      }
    } else {
      HiddenLate(d);
    }
  }
}
