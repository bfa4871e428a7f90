/** The timer base of timer.c: slot lists and a clock, changed in place. */
module TimerBase {
  import opened TimerSpec
  import opened Seqs
  import opened TimerSlots
  import opened TimerWheel
  import opened TimerNext
  import opened TimerRuns

  class Base {
    /** `timer_jiffies` */
    var jiffies: Tick
    /** The slot lists of tv1 to tv5, and `work_list`. */
    const lists: array<seq<TimerId>>
    /** The linked timers: `expires`, and the list that `entry` is on. */
    var heads: map<TimerId, Head>
    var calls: nat
    ghost var log: seq<Event>
    const script: Script
    ghost const start: Tick

    ghost predicate Shaped()
      reads this
    {
      lists.Length == 513
    }

    ghost function View(): Wheel
      reads this, lists
      requires Shaped()
    {
      Wheel(jiffies, lists[..], heads, calls, log)
    }

    ghost predicate Valid()
      reads this, lists
    {
      Shaped() && Idle(script, start, View())
    }

    /** `init_timer_base` */
    constructor (script: Script, now: Tick)
      ensures Valid() && View() == Empty(now) && fresh(lists)
      ensures this.script == script && this.start == now
    {
      jiffies, heads, calls, log := now, map[], 0, [];
      lists := new seq<TimerId>[513];
      this.script, this.start := script, now;
      new;
      for j := 0 to 64
        modifies lists
        invariant forall p | 448 <= p < 448 + j :: lists[p] == []
        invariant forall p | 384 <= p < 384 + j :: lists[p] == []
        invariant forall p | 320 <= p < 320 + j :: lists[p] == []
        invariant forall p | 256 <= p < 256 + j :: lists[p] == []
      {
        lists[448 + j] := [];
        lists[384 + j] := [];
        lists[320 + j] := [];
        lists[256 + j] := [];
      }
      for j := 0 to 256
        modifies lists
        invariant forall p | 0 <= p < j || 256 <= p < 512 :: lists[p] == []
      {
        lists[j] := [];
      }
      lists[WORK] := [];
      assert lists[..] == Empty(now).lists;
      EmptyIdle(script, now);
    }

    /** `timer_pending` */
    method Pending(t: TimerId) returns (r: bool)
      ensures r <==> t in heads
    {
      r := t in heads;
    }

    /** `timer_del`: takes t off whichever list it is on. */
    method UnlinkTimer(t: TimerId)
      requires Shaped()
      modifies this`heads, lists
      ensures View() == Unlink(old(View()), t)
    {
      var pending := Pending(t);
      if pending {
        var p := heads[t].slot;
        lists[p] := Without(lists[p], t);
        heads := heads - {t};
      }
    }

    /** `__internal_add_timer` */
    method InternalAdd(t: TimerId, expires: Tick)
      requires Shaped()
      modifies this`heads, lists
      ensures View() == Link(old(View()), t, expires)
      ensures t in heads && heads[t].expires == expires && heads == old(heads)[t := heads[t]]
      ensures lists[heads[t].slot] == old(lists[..])[heads[t].slot] + [t]
      ensures forall p | 0 <= p < lists.Length && p != heads[t].slot :: lists[p] == old(lists[p])
    {
      var idx := Sub64(expires, jiffies);
      var p: ListNo;
      if idx < 0x100 {
        p := expires % 256;
      } else if idx < 0x4000 {
        p := 256 + expires / 0x100 % 64;
      } else if idx < 0x10_0000 {
        p := 320 + expires / 0x4000 % 64;
      } else if idx < 0x400_0000 {
        p := 384 + expires / 0x10_0000 % 64;
      } else if Signed(idx) < 0 {
        p := jiffies % 256;
      } else {
        var e: nat := expires;
        if idx > 0xffff_ffff {
          idx := 0xffff_ffff;
          e := idx + jiffies;
        }
        p := 448 + e / 0x400_0000 % 64;
      }
      lists[p] := lists[p] + [t];
      heads := heads[t := Head(expires, p)];
    }

    /** `timer_mod`, and `timer_add`, which is the same. */
    method Mod(t: TimerId, expires: Tick)
      requires Shaped()
      modifies this`heads, this`log, lists
      ensures View() == DoOp(old(View()), Op.Mod(t, expires))
      ensures old(Valid()) ==> Valid()
    {
      ghost var w := View();
      var pending := Pending(t);
      if pending {
        UnlinkTimer(t);
      }
      InternalAdd(t, expires);
      log := log + [Did(Op.Mod(t, expires))];
      if Idle(script, start, w) {
        OpGood(script, start, w, [], Op.Mod(t, expires));
      }
    }

    /** `timer_del` as a request of the user. */
    method Del(t: TimerId)
      requires Shaped()
      modifies this`heads, this`log, lists
      ensures View() == DoOp(old(View()), Op.Del(t))
      ensures old(Valid()) ==> Valid()
    {
      ghost var w := View();
      UnlinkTimer(t);
      log := log + [Did(Op.Del(t))];
      if Idle(script, start, w) {
        OpGood(script, start, w, [], Op.Del(t));
      }
    }

    /** `cascade` */
    method CascadeList(k: nat, index: nat) returns (r: nat)
      requires Shaped() && 1 <= k <= 4 && index < 64
      modifies this`heads, lists
      ensures View() == Cascade(old(View()), LevelBase(k) + index) && r == index
    {
      var p := LevelBase(k) + index;
      var tvList := lists[p];
      lists[p] := [];
      ghost var w := View();
      assert w == old(View()).(lists := old(View()).lists[p := []]);
      var i := 0;
      while i < |tvList|
        invariant 0 <= i <= |tvList|
        invariant View().now == w.now
        invariant Relink(View(), tvList[i..]) == Relink(w, tvList)
      {
        var t := tvList[i];
        ghost var before := View();
        var expires := ExpiresOf(t);
        InternalAdd(t, expires);
        assert tvList[i..][0] == t && tvList[i..][1..] == tvList[i + 1..];
        assert View() == Link(before, t, Expiry(before, t));
        i := i + 1;
      }
      assert tvList[i..] == [];
      r := index;
    }

    /** The body of a callback. */
    method Callback(ops: seq<Op>)
      requires Shaped()
      modifies this`heads, this`log, lists
      ensures View() == DoOps(old(View()), ops)
    {
      var i := 0;
      while i < |ops|
        invariant 0 <= i <= |ops|
        invariant DoOps(View(), ops[i..]) == DoOps(old(View()), ops)
      {
        assert ops[i..][0] == ops[i] && ops[i..][1..] == ops[i + 1..];
        match ops[i] {
          case Mod(t, e) => Mod(t, e);
          case Del(t) => Del(t);
        }
        i := i + 1;
      }
      assert ops[i..] == [];
    }

    /** The chain of cascades in `timers_run`, when the low clock byte is zero. */
    method Cascades()
      requires Shaped() && jiffies % 256 == 0
      modifies this`heads, lists
      ensures View() == CascadeAll(old(View()))
    {
      hide Cascade;
      CascadeChain(View());
      var now := jiffies;
      var i := CascadeList(1, now / 0x100 % 64);
      if i == 0 {
        i := CascadeList(2, now / 0x4000 % 64);
        if i == 0 {
          i := CascadeList(3, now / 0x10_0000 % 64);
          if i == 0 {
            i := CascadeList(4, now / 0x400_0000 % 64);
          }
        }
      }
    }

    /** The start of a tick: cascades, then the clock moves on and the timers of
        this tick move to the work list. */
    method OpenTick()
      requires Shaped() && jiffies + 1 < TIME_LIMIT
      modifies this`jiffies, this`heads, this`log, lists
      ensures View() == Open(CascadeAll(old(View())))
    {
      hide CascadeFrom;
      var index := jiffies % 256;
      if index == 0 {
        Cascades();
      }
      ghost var c := View();
      jiffies := jiffies + 1;
      lists[WORK] := lists[index];
      lists[index] := [];
      heads := map t | t in heads :: if heads[t].slot == index then heads[t].(slot := WORK) else heads[t];
      log := log + [Ticked];
      assert lists[..] == c.lists[WORK := c.lists[index]][index := []];
    }

    /** Takes the first timer off the work list and runs its callback. */
    method FireFirst()
      requires Shaped() && Good(script, start, View(), []) && lists[WORK] != []
      modifies this`heads, this`log, this`calls, lists
      ensures Shaped() && Good(script, start, View(), [])
      ensures View() == DoOps(Fire(old(View())), script(old(calls)))
      ensures calls == old(calls) + 1
    {
      ghost var v := View();
      var timer := lists[WORK][0];
      FireLinked(v);
      FireGood(script, start, v);
      UnlinkTimer(timer);
      log := log + [Fired(timer)];
      var ops := script(calls);
      calls := calls + 1;
      assert View() == Fire(v) by {
        assert Unlink(v, timer).lists == Fire(v).lists;
      }
      OpsGood(script, start, Fire(v), ops);
      Callback(ops);
      OpsCalls(Fire(v), ops);
    }

    /** Empties the work list. */
    method DrainWork() returns (expired: nat)
      requires Shaped() && Good(script, start, View(), [])
      modifies this`heads, this`log, this`calls, lists
      ensures Shaped() && View() == Drain(script, old(View()))
      ensures expired == calls - old(calls)
    {
      hide Good, DoOps;
      expired := 0;
      while lists[WORK] != []
        invariant Shaped() && Good(script, start, View(), [])
        invariant Drain(script, View()) == Drain(script, old(View()))
        invariant expired == calls - old(calls)
        decreases |lists[WORK]|
      {
        FireFirst();
        expired := expired + 1;
      }
    }

    /** `timers_run` */
    method TimersRun(until: Deadline) returns (expired: nat)
      requires Valid()
      modifies this, lists
      ensures Valid()
      ensures View() == RunTo(script, old(View()), until)
      ensures expired == calls - old(calls)
    {
      hide Idle, RunTick;
      expired := 0;
      if !TimeAfterEq(until, jiffies) {
        return;
      }
      while TimeAfterEq(until, jiffies)
        invariant Valid()
        invariant RunTo(script, View(), until) == RunTo(script, old(View()), until)
        invariant expired == calls - old(calls)
        decreases until + 1 - jiffies
      {
        ghost var before := View();
        TickIdle(script, start, before);
        OpenGoodAt(script, start, before);
        OpenTick();
        var n := DrainWork();
        expired := expired + n;
        TickIs(script, before);
      }
    }

    /** The part of `timer_next_interrupt` that looks at tv1. */
    method SearchRoot() returns (expires: nat, found: bool, done: bool)
      requires Shaped() && jiffies + MAX_DELTA < TIME_LIMIT
      ensures expires < TIME_LIMIT
      ensures NextOf(View()) == if done then expires else LevelScan(View(), 1, CeilDiv(jiffies, 256), 0, expires, found)
    {
      hide LevelScan, CeilDiv, NextOf, Expiry, RootSlot, RootScan;
      expires, found, done := jiffies + MAX_DELTA, false, false;
      var index: nat := jiffies % 256;
      var slot, go := index, true;
      ghost var j := 0;
      ghost var w := View();
      assert slot == RootSlot(jiffies, 0) by {
        RootStart(jiffies);
      }
      while go
        invariant 0 <= j <= 256 && slot == RootSlot(jiffies, j) && (go <==> j < 256)
        invariant View() == w
        invariant RootScan(w, 0) == RootScan(w, j)
        decreases 256 - j
      {
        if lists[slot] != [] {
          NextFound(w, j);
          expires := ExpiresOf(lists[slot][0]);
          found := true;
          done := !(index == 0 || slot < index);
          return;
        }
        RootStep(w, j);
        slot := (slot + 1) % 256;
        j := j + 1;
        go := slot != index;
      }
      NextNotFound(w);
    }

    /** Reads the `expires` field of a timer. */
    method ExpiresOf(t: TimerId) returns (e: Tick)
      requires Shaped()
      ensures e == Expiry(View(), t)
    {
      e := if t in heads then heads[t].expires else 0;
    }

    /** One slot of that search. */
    method VisitSlot(k: nat, slot: nat, best: nat, hit: bool) returns (expires: nat, found: bool)
      requires Shaped() && 1 <= k <= 4 && slot < 64 && best < TIME_LIMIT
      ensures expires == MinExpiry(View(), lists[LevelBase(k) + slot], best) && expires < TIME_LIMIT
      ensures found == (hit || lists[LevelBase(k) + slot] != [])
    {
      var list := lists[LevelBase(k) + slot];
      expires := LowestExpiry(list, best);
      found := hit;
      if list != [] {
        found := true;
      }
    }

    /** The search of one of tv2 to tv5 in `timer_next_interrupt`. */
    method SearchLevel(k: nat, clock: nat, best: nat, hit: bool) returns (expires: nat, found: bool, done: bool)
      requires Shaped() && 1 <= k <= 4 && best < TIME_LIMIT
      ensures expires < TIME_LIMIT
      ensures LevelScan(View(), k, clock, 0, best, hit) ==
              if done then expires else LevelScan(View(), k + 1, CeilDiv(clock, 64), 0, expires, found)
    {
      hide LevelScan, CeilDiv, MinExpiry;
      expires, found, done := best, hit, false;
      var index: nat := clock % 64;
      var slot, go := index, true;
      ghost var j := 0;
      while go
        invariant 0 <= j <= 64 && slot == (clock + j) % 64 && (go <==> j < 64)
        invariant expires < TIME_LIMIT && (j > 0 ==> !found) && !done
        invariant LevelScan(View(), k, clock, 0, best, hit) ==
                  if go then LevelScan(View(), k, clock, j, expires, found)
                  else LevelScan(View(), k + 1, CeilDiv(clock, 64), 0, expires, found)
        decreases 64 - j
      {
        ScanUnfold(View(), k, clock, j, expires, found);
        expires, found := VisitSlot(k, slot, expires, found);
        if found {
          done := !(index == 0 || slot < index);
          return;
        }
        SlotStep(clock, j);
        slot := (slot + 1) % 64;
        j := j + 1;
        go := slot != index;
      }
    }

    /** `timer_next_interrupt` */
    method NextInterrupt() returns (expires: nat)
      requires Shaped() && jiffies + MAX_DELTA < TIME_LIMIT
      ensures expires == NextOf(View())
    {
      hide NextOf, LevelScan;
      var found, done;
      expires, found, done := SearchRoot();
      if done {
        return;
      }
      var index: nat := jiffies % 256;
      var clock: nat := (if index != 0 then jiffies + 256 - index else jiffies) / 256;
      assert clock == CeilDiv(jiffies, 256);
      for k := 1 to 5
        invariant expires < TIME_LIMIT
        invariant NextOf(View()) == LevelScan(View(), k, clock, 0, expires, found)
      {
        expires, found, done := SearchLevel(k, clock, expires, found);
        if done {
          return;
        }
        index := clock % 64;
        ghost var q := clock;
        clock := (if index != 0 then clock + 64 - index else clock) / 64;
        assert clock == CeilDiv(q, 64);
      }
      ScanEnd(View(), clock, expires, found);
    }

    /** The walk over one slot list in `timer_next_interrupt`. */
    method LowestExpiry(list: seq<TimerId>, best: nat) returns (expires: nat)
      requires Shaped() && best < TIME_LIMIT
      ensures expires == MinExpiry(View(), list, best)
    {
      expires := best;
      var i := 0;
      while i < |list|
        invariant 0 <= i <= |list| && expires < TIME_LIMIT
        invariant MinExpiry(View(), list[i..], expires) == MinExpiry(View(), list, best)
      {
        assert list[i..][0] == list[i] && list[i..][1..] == list[i + 1..];
        var e := ExpiresOf(list[i]);
        if TimeBefore(e, expires) {
          expires := e;
        }
        i := i + 1;
      }
      assert list[i..] == [];
    }
  }

  /** The short-circuit chain of `timers_run`, written out. */
  lemma CascadeChain(w: Wheel)
    requires w.now % 256 == 0
    ensures CascadeAll(w) ==
            var w1 := Cascade(w, LevelBase(1) + Index(1, w.now));
            if Index(1, w.now) != 0 then w1
            else
              var w2 := Cascade(w1, LevelBase(2) + Index(2, w.now));
              if Index(2, w.now) != 0 then w2
              else
                var w3 := Cascade(w2, LevelBase(3) + Index(3, w.now));
                if Index(3, w.now) != 0 then w3 else Cascade(w3, LevelBase(4) + Index(4, w.now))
  {
    var w1 := Cascade(w, LevelBase(1) + Index(1, w.now));
    var w2 := Cascade(w1, LevelBase(2) + Index(2, w.now));
    var w3 := Cascade(w2, LevelBase(3) + Index(3, w.now));
    assert CascadeFrom(w3, 4) == Cascade(w3, LevelBase(4) + Index(4, w.now));
    assert Index(1, w.now) == 0 && Index(2, w.now) == 0 ==> CascadeFrom(w2, 3) == if Index(3, w.now) != 0 then w3 else CascadeFrom(w3, 4);
    assert Index(1, w.now) == 0 ==> CascadeFrom(w1, 2) == if Index(2, w.now) != 0 then w2 else CascadeFrom(w2, 3);
  }

  lemma SlotStep(clock: nat, j: nat)
    requires j < 64
    ensures ((clock + j) % 64 + 1) % 64 == (clock + j + 1) % 64
    ensures ((clock + j) % 64 + 1) % 64 != clock % 64 <==> j + 1 < 64
  {
  }

  lemma RootStart(now: nat)
    ensures RootSlot(now, 0) == now % 256
  {
  }

  lemma RootStep(w: Wheel, j: nat)
    requires j < 256 && RootList(w, j) == []
    ensures (RootSlot(w.now, j) + 1) % 256 == RootSlot(w.now, j + 1)
    ensures RootSlot(w.now, j + 1) == w.now % 256 <==> j == 255
    ensures RootScan(w, j) == RootScan(w, j + 1)
  {
  }

  lemma ScanTo(w: Wheel, j: nat)
    requires j < 256 && RootScan(w, 0) == RootScan(w, j) && RootList(w, j) != []
    ensures RootScan(w, 0) == j
  {
  }

  lemma NextFound(w: Wheel, j: nat)
    requires w.now + MAX_DELTA < TIME_LIMIT && j < 256 && RootScan(w, 0) == RootScan(w, j) && RootList(w, j) != []
    ensures var index, slot := w.now % 256, RootSlot(w.now, j);
            && RootList(w, j) == w.lists[slot]
            && NextOf(w) == if index == 0 || slot < index
                            then LevelScan(w, 1, CeilDiv(w.now, 256), 0, Expiry(w, RootList(w, j)[0]), true)
                            else Expiry(w, RootList(w, j)[0])
  {
    ScanTo(w, j);
    hide LevelScan, Expiry, CeilDiv, RootScan, RootSlot;
  }

  lemma NextNotFound(w: Wheel)
    requires w.now + MAX_DELTA < TIME_LIMIT && RootScan(w, 0) == RootScan(w, 256)
    ensures NextOf(w) == LevelScan(w, 1, CeilDiv(w.now, 256), 0, w.now + MAX_DELTA, false)
  {
    hide LevelScan, Expiry, CeilDiv;
  }

  lemma TickIs(script: Script, w: Wheel)
    requires w.now + 1 < TIME_LIMIT
    ensures RunTick(script, w) == Drain(script, Open(CascadeAll(w)))
  {
  }

  lemma {:induction false} OpsCalls(w: Wheel, ops: seq<Op>)
    ensures DoOps(w, ops).calls == w.calls
    decreases |ops|
  {
    if ops != [] {
      OpsCalls(DoOp(w, ops[0]), ops[1..]);
    }
  }

  lemma OpenGoodAt(script: Script, start: nat, w: Wheel)
    requires Idle(script, start, w) && w.now + 1 < TIME_LIMIT
    ensures Good(script, start, Open(CascadeAll(w)), [])
  {
    hide Linked, Matches, Settled, CascadeAll, Open;
    CascadeAllGood(w, Final(script, start, w.log).pend);
    OpenGood(script, start, CascadeAll(w));
  }
}
