/** Timers are FIFO among those armed for one expiry at one tick only: of two armed at
    different ticks the later one may be called back first, when it goes straight to the list
    on which a cascade puts the other. */
module TimerOvertaken {
  import opened TimerSpec
  import opened TimerSlots
  import opened TimerWheel
  import opened TimerRuns

  const DUE := 256
  const PARKED := 257

  function Quiet(): Script {
    (k: nat) => []
  }

  function Story(): seq<Call> {
    [Request(Mod(0, DUE)), Advance(DUE - 1), Request(Mod(1, DUE)), Advance(DUE)]
  }

  /** What has happened when timer 1 is armed. */
  function Before(ticks: nat): seq<Event> {
    [Did(Mod(0, DUE))] + seq(ticks, _ => Ticked)
  }

  /** Only timer 0 pends, in tv2. */
  ghost predicate OnlyParked(w: Wheel) {
    && w.heads == map[0 := Head(DUE, PARKED)]
    && w.lists[PARKED] == [0]
    && (forall p | 0 <= p < 513 && p != PARKED :: w.lists[p] == [])
    && w.log == Before(w.now)
  }

  lemma {:induction false} CascadeParked(w: Wheel, k: nat)
    requires OnlyParked(w) && 1 <= k <= 4 && w.now < DUE
    ensures CascadeFrom(w, k) == w
    decreases 4 - k
  {
    var p := LevelBase(k) + Index(k, w.now);
    assert p != PARKED;
    assert w.lists[p := []] == w.lists;
    if k < 4 {
      CascadeParked(w, k + 1);
    }
  }

  lemma TickParked(w: Wheel)
    requires OnlyParked(w) && w.now < DUE
    ensures OnlyParked(RunTick(Quiet(), w))
  {
    CascadeParked(w, 1);
    assert Before(w.now) + [Ticked] == Before(w.now + 1);
    assert OnlyParked(Open(w));
  }

  lemma {:induction false} RunParked(w: Wheel, j: Tick)
    requires OnlyParked(w) && j < DUE
    ensures OnlyParked(RunTo(Quiet(), w, j))
    decreases j + 1 - w.now
  {
    hide OnlyParked, RunTick;
    if w.now <= j {
      TickParked(w);
      RunParked(RunTick(Quiet(), w), j);
    }
  }

  lemma StoryStart()
    ensures OnlyParked(DoOp(Empty(0), Mod(0, DUE)))
  {
    assert SlotFor(0, DUE) == PARKED;
    assert DoOp(Empty(0), Mod(0, DUE)).heads == map[0 := Head(DUE, PARKED)];
  }

  /** Both pend: the one in tv2, the other in tv1. */
  ghost predicate Both(w: Wheel) {
    && w.now == DUE
    && w.heads == map[0 := Head(DUE, PARKED), 1 := Head(DUE, 0)]
    && w.lists[PARKED] == [0] && w.lists[0] == [1] && w.lists[WORK] == []
    && w.log == Before(DUE) + [Did(Mod(1, DUE))]
  }

  lemma StoryMiddle(w: Wheel)
    requires OnlyParked(w) && w.now == DUE
    ensures Both(DoOp(w, Mod(1, DUE)))
  {
    assert SlotFor(DUE, DUE) == 0;
    assert DoOp(w, Mod(1, DUE)).heads == map[0 := Head(DUE, PARKED), 1 := Head(DUE, 0)];
  }

  /** The cascade puts timer 0 behind timer 1. */
  lemma Overtakes(w: Wheel)
    requires Both(w)
    ensures Open(CascadeAll(w)).lists[WORK] == [1, 0] && Open(CascadeAll(w)).log == w.log + [Ticked]
  {
    assert SlotFor(DUE, DUE) == 0 && Index(1, DUE) == 1;
    var off := w.(lists := w.lists[PARKED := []]);
    assert Relink(off, [0]) == Relink(Link(off, 0, DUE), []) by {
      assert [0][1..] == [];
    }
    assert CascadeAll(w) == Link(off, 0, DUE);
  }

  lemma DrainTwo(w: Wheel, t: TimerId, u: TimerId)
    requires w.lists[WORK] == [t, u]
    ensures Drain(Quiet(), w).log == w.log + [Fired(t), Fired(u)]
  {
    var w1 := Fire(w);
    assert w1.lists[WORK] == [u];
    var w2 := Fire(w1);
    assert w2.lists[WORK] == [];
    assert Drain(Quiet(), w) == Drain(Quiet(), w1);
    assert Drain(Quiet(), w1) == Drain(Quiet(), w2);
    assert Drain(Quiet(), w2) == w2;
  }

  lemma StoryEnd(w: Wheel)
    requires Both(w)
    ensures RunTo(Quiet(), w, DUE).log == w.log + [Ticked, Fired(1), Fired(0)]
  {
    var w' := RunTick(Quiet(), w);
    Overtakes(w);
    DrainTwo(Open(CascadeAll(w)), 1, 0);
    hide RunTick;
    assert RunTo(Quiet(), w, DUE) == RunTo(Quiet(), w', DUE);
    assert RunTo(Quiet(), w', DUE) == w';
  }

  lemma StoryUnfolds()
    ensures After(Quiet(), 0, Story()) == RunTo(Quiet(), DoOp(RunTo(Quiet(), DoOp(Empty(0), Mod(0, DUE)), DUE - 1), Mod(1, DUE)), DUE)
  {
    hide RunTo, DoOp, Empty;
    var calls := Story();
    assert calls[1..] == [Advance(DUE - 1), Request(Mod(1, DUE)), Advance(DUE)];
    assert calls[1..][1..] == [Request(Mod(1, DUE)), Advance(DUE)];
    assert calls[1..][1..][1..] == [Advance(DUE)];
    assert calls[1..][1..][1..][1..] == [];
    var w1 := DoOp(Empty(0), Mod(0, DUE));
    var w2 := RunTo(Quiet(), w1, DUE - 1);
    calc {
      After(Quiet(), 0, calls);
      RunCalls(Quiet(), w1, calls[1..]);
      RunCalls(Quiet(), w2, calls[1..][1..]);
      RunCalls(Quiet(), DoOp(w2, Mod(1, DUE)), calls[1..][1..][1..]);
    }
  }

  /** Timer 0 is armed for tick 256 at tick 0, timer 1 for the same tick 256 ticks later; and
      timer 1 is called back first. */
  lemma LaterFirst()
    ensures After(Quiet(), 0, Story()).log == Before(DUE) + [Did(Mod(1, DUE))] + [Ticked, Fired(1), Fired(0)]
  {
    hide OnlyParked, RunTo, DoOp, Empty;
    StoryStart();
    var w1 := DoOp(Empty(0), Mod(0, DUE));
    var w2 := RunTo(Quiet(), w1, DUE - 1);
    RunParked(w1, DUE - 1);
    assert w2.now == DUE by { StartsAt(); }
    StoryMiddle(w2);
    StoryEnd(DoOp(w2, Mod(1, DUE)));
    StoryUnfolds();
  }

  lemma StartsAt()
    ensures DoOp(Empty(0), Mod(0, DUE)).now == 0
  {
  }
}
