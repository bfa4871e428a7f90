/** `timer_next_interrupt`: the sparse search for the next expiry, against the
    least expiry of all pending timers. */
module TimerNext {
  import opened TimerSpec
  import opened TimerSlots
  import opened TimerWheel

  /** Lowers `best` to the least expiry on a list. */
  function MinExpiry(w: Wheel, list: seq<TimerId>, best: nat): (r: nat)
    requires best < TIME_LIMIT
    ensures r <= best
    ensures forall t | t in list :: r <= Expiry(w, t)
    ensures r == best || exists t :: t in list && Expiry(w, t) == r
  {
    if list == [] then best
    else
      var e := Expiry(w, list[0]);
      assert list == [list[0]] + list[1..];
      MinExpiry(w, list[1..], if TimeBefore(e, best) then e else best)
  }

  function RootSlot(now: nat, i: nat): (p: nat)
    ensures p < 256
  {
    (now + i) % 256
  }

  /** The list of tv1 that is i steps after slot `now & TVR_MASK`. */
  function RootList(w: Wheel, i: nat): seq<TimerId> {
    w.lists[RootSlot(w.now, i)]
  }

  /** Steps from slot `now & TVR_MASK` to the first list of tv1 with a timer, or 256. */
  function RootScan(w: Wheel, j: nat): (r: nat)
    requires j <= 256
    ensures j <= r <= 256
    ensures forall i | j <= i < r :: RootList(w, i) == []
    ensures r < 256 ==> RootList(w, r) != []
    decreases 256 - j
  {
    if j == 256 || RootList(w, j) != [] then j else RootScan(w, j + 1)
  }

  /** The search of tv2 to tv5, at step j of level k, whose clock is q. */
  function LevelScan(w: Wheel, k: nat, q: nat, j: nat, best: nat, found: bool): (r: nat)
    requires 1 <= k <= 5 && j < 64 && best < TIME_LIMIT
    ensures r <= best
    decreases 5 - k, 64 - j
  {
    if k == 5 then best
    else
      var index, slot := q % 64, (q + j) % 64;
      var list := w.lists[LevelBase(k) + slot];
      var best' := MinExpiry(w, list, best);
      if found || list != [] then
        if index == 0 || slot < index then LevelScan(w, k + 1, CeilDiv(q, 64), 0, best', true) else best'
      else if j + 1 < 64 then LevelScan(w, k, q, j + 1, best', false)
      else LevelScan(w, k + 1, CeilDiv(q, 64), 0, best', false)
  }

  /** The value of `timer_next_interrupt`. */
  function NextOf(w: Wheel): nat
    requires w.now + MAX_DELTA < TIME_LIMIT
  {
    var j := RootScan(w, 0);
    if j == 256 then LevelScan(w, 1, CeilDiv(w.now, 256), 0, w.now + MAX_DELTA, false)
    else
      var index, slot := w.now % 256, RootSlot(w.now, j);
      var e := Expiry(w, RootList(w, j)[0]);
      if index == 0 || slot < index then LevelScan(w, 1, CeilDiv(w.now, 256), 0, e, true) else e
  }

  lemma CeilAgain(k: nat, now: nat)
    requires 1 <= k <= 3
    ensures Ceil(k + 1, now) == CeilDiv(Ceil(k, now), 64)
    ensures Ticks(k + 1, Ceil(k + 1, now)) == Ticks(k, 64 * CeilDiv(Ceil(k, now), 64))
  {
    FloorAgain(k, now);
    NextMultiple(k, now);
    CeilFacts(k, now);
    var f := Floor(k, now);
    assert f == 64 * (f / 64) + f % 64;
    assert Ticks(k + 1, f / 64) == Ticks(k, 64 * (f / 64));
  }

  lemma {:induction false} CeilGrows(k: nat, l: nat, now: nat)
    requires 1 <= k <= l <= 4
    ensures Ticks(k, Ceil(k, now)) <= Ticks(l, Ceil(l, now))
    decreases l
  {
    if k < l {
      CeilAgain(l - 1, now);
      CeilGrows(k, l - 1, now);
    }
  }

  lemma TicksMonotone(k: nat, a: nat, b: nat)
    requires a <= b
    ensures Ticks(k, a) <= Ticks(k, b)
    ensures Ticks(k, a + 1) == Ticks(k, a) + Ticks(k, 1)
  {
  }

  /** Every linked timer is in place, due, and was armed within reach. */
  ghost predicate Near(w: Wheel, pend: map<TimerId, Arming>) {
    && Linked(w.lists, w.heads, {}) && Matches(w.now, w.heads, pend)
    && forall t | t in w.heads :: w.heads[t].slot < WORK && pend[t].expires <= pend[t].at + REACH
  }

  /** Level k has been searched up to step j. */
  predicate Visited(h: Head, k: nat, q: nat, j: nat) {
    h.slot < TVR_SIZE
    || (h.slot < WORK && (LevelOf(h.slot) < k || (LevelOf(h.slot) == k && Lap(q, h.slot % 64) < q + j)))
  }

  ghost predicate Attained(w: Wheel, r: nat) {
    r == w.now + MAX_DELTA || exists t :: t in w.heads && w.heads[t].expires == r
  }

  ghost predicate Searched(w: Wheel, pend: map<TimerId, Arming>, k: nat, q: nat, j: nat, best: nat, found: bool)
    requires pend.Keys == w.heads.Keys
  {
    && (k <= 4 ==> q == Ceil(k, w.now))
    && best <= w.now + MAX_DELTA && Attained(w, best)
    && (forall t | t in w.heads && Visited(w.heads[t], k, q, j) :: best <= pend[t].Due())
    && (found && k <= 4 ==> j == 0 && best <= Ticks(k, q + 1))
    && (!found ==> forall t | t in w.heads :: !Visited(w.heads[t], k, q, j))
  }

  lemma NoWrap(q: nat, j: nat)
    requires j < 64 && q % 64 != 0 && (q + j) % 64 >= q % 64
    ensures q + j + 1 <= 64 * CeilDiv(q, 64)
  {
  }

  /** Step j of level k has just been looked at; `found`: it or an earlier list had a timer. */
  ghost predicate Scanned(w: Wheel, pend: map<TimerId, Arming>, k: nat, q: nat, j: nat, best: nat, found: bool)
    requires pend.Keys == w.heads.Keys
  {
    && q == Ceil(k, w.now)
    && best <= w.now + MAX_DELTA && Attained(w, best)
    && (forall t | t in w.heads && Visited(w.heads[t], k, q, j + 1) :: best <= pend[t].Due())
    && (found ==> best <= Ticks(k, q + j + 1))
    && (!found ==> forall t | t in w.heads :: !Visited(w.heads[t], k, q, j + 1))
  }

  /** A timer further out than the slot just searched expires no earlier than the
      end of that slot, as long as the search has not wrapped around. */
  lemma Beyond(now: nat, h: Head, a: Arming, k: nat, q: nat, j: nat)
    requires 1 <= k <= 4 && j < 64 && q == Ceil(k, now)
    requires TVR_SIZE <= h.slot < WORK && Placed(now, h.slot, a)
    requires LevelOf(h.slot) >= k && !Visited(h, k, q, j + 1)
    requires LevelOf(h.slot) > k ==> q % 64 != 0 && (q + j) % 64 >= q % 64
    ensures Ticks(k, q + j + 1) <= a.expires
  {
    hide Ticks, Ceil, Floor, Lap, CeilDiv;
    var l := LevelOf(h.slot);
    LapFacts(Ceil(l, now), h.slot % 64);
    if l == k {
      TicksMonotone(k, q + j + 1, Lap(q, h.slot % 64));
    } else {
      TicksMonotone(l, Ceil(l, now), Lap(Ceil(l, now), h.slot % 64));
      CeilGrows(k + 1, l, now);
      CeilAgain(k, now);
      NoWrap(q, j);
      TicksMonotone(k, q + j + 1, 64 * CeilDiv(q, 64));
    }
  }

  lemma LapOf(q: nat, j: nat)
    requires j < 64
    ensures Lap(q, (q + j) % 64) == q + j
  {
  }

  /** A timer on the list searched at step j of level k. */
  lemma AtStep(now: nat, h: Head, a: Arming, k: nat, q: nat, j: nat)
    requires 1 <= k <= 4 && j < 64 && q == Ceil(k, now)
    requires h.slot == LevelBase(k) + (q + j) % 64 && Placed(now, h.slot, a)
    requires a.expires <= a.at + REACH
    ensures a.expires <= Ticks(k, q + j + 1) && now <= a.expires
  {
    hide Ticks, Ceil, Floor, Lap;
    assert LevelOf(h.slot) == k && h.slot % 64 == (q + j) % 64;
    LapOf(q, j);
    TicksMonotone(k, q, q + j);
    TicksMonotone(k, q + j, q + j);
    CeilFacts(k, now);
  }

  lemma VisitedStep(h: Head, k: nat, q: nat, j: nat)
    requires 1 <= k <= 4 && j < 64
    ensures Visited(h, k, q, j + 1) <==> Visited(h, k, q, j) || h.slot == LevelBase(k) + (q + j) % 64
  {
    hide Lap;
    LapFacts(q, h.slot % 64);
    LapOf(q, j);
  }

  /** Searching one list keeps what is known of the search. */
  lemma StepSearched(w: Wheel, pend: map<TimerId, Arming>, k: nat, q: nat, j: nat, best: nat, found: bool)
    requires pend.Keys == w.heads.Keys && Near(w, pend) && 1 <= k <= 4 && j < 64 && w.now + MAX_DELTA < TIME_LIMIT
    requires Searched(w, pend, k, q, j, best, found)
    ensures var list := w.lists[LevelBase(k) + (q + j) % 64];
            var best' := MinExpiry(w, list, best);
            Scanned(w, pend, k, q, j, best', found || list != [])
  {
    hide Near, Ceil, Ticks, MinExpiry, Visited;
    var p := LevelBase(k) + (q + j) % 64;
    var list := w.lists[p];
    ListAtStep(w, pend, k, q, j);
    forall t | t in w.heads ensures Visited(w.heads[t], k, q, j + 1) <==> Visited(w.heads[t], k, q, j) || t in list {
      VisitedStep(w.heads[t], k, q, j);
    }
    if list != [] {
      assert list[0] in list;
    }
  }

  lemma ListAtStep(w: Wheel, pend: map<TimerId, Arming>, k: nat, q: nat, j: nat)
    requires Near(w, pend) && 1 <= k <= 4 && j < 64 && q == Ceil(k, w.now)
    ensures var p := LevelBase(k) + (q + j) % 64;
            && (forall t | t in w.heads :: t in w.lists[p] <==> w.heads[t].slot == p)
            && (forall t | t in w.lists[p] :: t in w.heads && Expiry(w, t) == pend[t].Due() <= Ticks(k, q + j + 1))
  {
    hide Placed, Ceil, Ticks;
    var p := LevelBase(k) + (q + j) % 64;
    forall t | t in w.lists[p] ensures t in w.heads && Expiry(w, t) == pend[t].Due() <= Ticks(k, q + j + 1) {
      AtStep(w.now, w.heads[t], pend[t], k, q, j);
    }
  }

  /** r is no later than any pending timer is due, no later than the horizon, and
      one of these expiries or the horizon. */
  ghost predicate InTime(w: Wheel, pend: map<TimerId, Arming>, r: nat)
    requires pend.Keys == w.heads.Keys
  {
    r <= w.now + MAX_DELTA && Attained(w, r) && forall t | t in w.heads :: r <= pend[t].Due()
  }

  /** Everything not searched when the search stops is out of reach of `best`. */
  lemma StopInTime(w: Wheel, pend: map<TimerId, Arming>, k: nat, q: nat, j: nat, best: nat)
    requires Near(w, pend) && 1 <= k <= 4 && j < 64 && Scanned(w, pend, k, q, j, best, true)
    requires q % 64 != 0 && (q + j) % 64 >= q % 64
    ensures InTime(w, pend, best)
  {
    hide Placed, Ticks, Ceil;
    forall t | t in w.heads ensures best <= pend[t].Due() {
      if !Visited(w.heads[t], k, q, j + 1) {
        assert InPlace(w.now, w.heads[t], pend[t]);
        Beyond(w.now, w.heads[t], pend[t], k, q, j);
      }
    }
  }

  /** The next level, after a list was found at step j or the whole level was empty. */
  lemma NextLevelSearched(w: Wheel, pend: map<TimerId, Arming>, k: nat, q: nat, j: nat, best: nat, found: bool)
    requires Near(w, pend) && 1 <= k <= 4 && j < 64 && Scanned(w, pend, k, q, j, best, found)
    requires found || j == 63
    ensures Searched(w, pend, k + 1, CeilDiv(q, 64), 0, best, found)
  {
    hide Placed, Ticks, Ceil, CeilDiv;
    if k < 4 {
      CeilAgain(k, w.now);
      WholeLevel(k, q, j);
    }
    forall t | t in w.heads && Visited(w.heads[t], k + 1, CeilDiv(q, 64), 0)
      ensures Visited(w.heads[t], k, q, j + 1) || (found && best <= pend[t].Due())
    {
      assert InPlace(w.now, w.heads[t], pend[t]);
      BelowNext(w.heads[t], k, q, CeilDiv(q, 64));
      if !Visited(w.heads[t], k, q, j + 1) {
        Beyond(w.now, w.heads[t], pend[t], k, q, j);
      }
    }
  }

  lemma BelowNext(h: Head, k: nat, q: nat, q': nat)
    requires 1 <= k <= 4
    ensures Visited(h, k + 1, q', 0) <==> h.slot < TVR_SIZE || (h.slot < WORK && LevelOf(h.slot) <= k)
    ensures Visited(h, k + 1, q', 0) <==> Visited(h, k, q, 64)
  {
    if TVR_SIZE <= h.slot < WORK {
      LapFacts(q', h.slot % 64);
      LapFacts(q, h.slot % 64);
    }
  }

  lemma WholeLevel(k: nat, q: nat, j: nat)
    requires 1 <= k <= 3 && j < 64
    ensures Ticks(k, q + j + 1) <= Ticks(k + 1, CeilDiv(q, 64) + 1)
  {
    FloorAgain(k, 0);
    assert q + j + 1 <= 64 * (CeilDiv(q, 64) + 1);
    TicksMonotone(k, q + j + 1, 64 * (CeilDiv(q, 64) + 1));
  }

  lemma ScanEnd(w: Wheel, q: nat, best: nat, found: bool)
    requires best < TIME_LIMIT
    ensures LevelScan(w, 5, q, 0, best, found) == best
  {
  }

  lemma ScanUnfold(w: Wheel, k: nat, q: nat, j: nat, best: nat, found: bool)
    requires 1 <= k <= 4 && j < 64 && best < TIME_LIMIT
    ensures var list := w.lists[LevelBase(k) + (q + j) % 64];
            var best' := MinExpiry(w, list, best);
            LevelScan(w, k, q, j, best, found) ==
            if found || list != [] then
              if q % 64 == 0 || (q + j) % 64 < q % 64 then LevelScan(w, k + 1, CeilDiv(q, 64), 0, best', true) else best'
            else if j + 1 < 64 then LevelScan(w, k, q, j + 1, best', false)
            else LevelScan(w, k + 1, CeilDiv(q, 64), 0, best', false)
  {
  }

  lemma LastLevel(w: Wheel, pend: map<TimerId, Arming>, q: nat, best: nat, found: bool)
    requires Near(w, pend) && Searched(w, pend, 5, q, 0, best, found)
    ensures InTime(w, pend, best)
  {
    hide Attained, Placed;
    forall t | t in w.heads ensures Visited(w.heads[t], 5, q, 0) {
    }
  }

  lemma SameLevelSearched(w: Wheel, pend: map<TimerId, Arming>, k: nat, q: nat, j: nat, best: nat)
    requires Near(w, pend) && 1 <= k <= 4 && j < 63 && Scanned(w, pend, k, q, j, best, false)
    ensures Searched(w, pend, k, q, j + 1, best, false)
  {
  }

  /** The search of tv2 to tv5 finds what is left to find. */
  lemma {:induction false} ScanInTime(w: Wheel, pend: map<TimerId, Arming>, k: nat, q: nat, j: nat, best: nat, found: bool)
    requires pend.Keys == w.heads.Keys && Near(w, pend) && 1 <= k <= 5 && j < 64 && w.now + MAX_DELTA < TIME_LIMIT
    requires Searched(w, pend, k, q, j, best, found) && (k == 5 ==> j == 0) && best < TIME_LIMIT
    ensures InTime(w, pend, LevelScan(w, k, q, j, best, found))
    decreases 5 - k, 64 - j
  {
    hide Near, Searched, Scanned, InTime, MinExpiry, CeilDiv, LevelScan;
    if k == 5 {
      LastLevel(w, pend, q, best, found);
      ScanEnd(w, q, best, found);
    } else {
      StepSearched(w, pend, k, q, j, best, found);
      ScanUnfold(w, k, q, j, best, found);
      var list := w.lists[LevelBase(k) + (q + j) % 64];
      var best' := MinExpiry(w, list, best);
      if found || list != [] {
        if q % 64 == 0 || (q + j) % 64 < q % 64 {
          NextLevelSearched(w, pend, k, q, j, best', true);
          ScanInTime(w, pend, k + 1, CeilDiv(q, 64), 0, best', true);
        } else {
          StopInTime(w, pend, k, q, j, best');
        }
      } else if j + 1 < 64 {
        SameLevelSearched(w, pend, k, q, j, best');
        ScanInTime(w, pend, k, q, j + 1, best', false);
      } else {
        NextLevelSearched(w, pend, k, q, j, best', false);
        ScanInTime(w, pend, k + 1, CeilDiv(q, 64), 0, best', false);
      }
    }
  }

  lemma RootNear(now: nat, due: nat, slot: nat)
    requires slot < TVR_SIZE && now <= due && due == RootLap(now, slot)
    ensures 0 <= due - now < 256 && slot == due % 256
  {
    RootLapFacts(now, slot);
  }

  /** A timer of tv1 is on the list of its due tick; the others are not due before
      the next multiple of 256. */
  lemma RootFacts(w: Wheel, pend: map<TimerId, Arming>, t: TimerId)
    requires Near(w, pend) && t in w.heads
    ensures var h := w.heads[t];
            && w.now <= pend[t].Due()
            && (h.slot < TVR_SIZE ==>
                  exists i :: 0 <= i < 256 && t in RootList(w, i) && h.slot == (w.now + i) % 256 && pend[t].Due() == w.now + i)
            && (h.slot >= TVR_SIZE ==> Ticks(1, Ceil(1, w.now)) <= pend[t].Due())
  {
    var h := w.heads[t];
    assert InPlace(w.now, h, pend[t]);
    assert t in w.lists[h.slot];
    hide Near, Linked, Matches, Ceil, Ticks, Lap, RootLap;
    if h.slot < TVR_SIZE {
      RootNear(w.now, pend[t].Due(), h.slot);
      var i := pend[t].Due() - w.now;
      assert t in RootList(w, i);
    } else {
      var l := LevelOf(h.slot);
      var q := Ceil(l, w.now);
      LapFacts(q, h.slot % 64);
      TicksMonotone(l, q, Lap(q, h.slot % 64));
      CeilGrows(1, l, w.now);
    }
  }

  /** All timers on the same list of tv1 are due at its tick. */
  lemma RootDue(w: Wheel, pend: map<TimerId, Arming>, i: nat, t: TimerId)
    requires Near(w, pend) && i < 256 && t in RootList(w, i)
    ensures t in w.heads && pend[t].Due() == w.now + i && w.heads[t].slot < TVR_SIZE
  {
    hide RootLap;
    assert w.heads[t].slot == (w.now + i) % 256;
    assert InPlace(w.now, w.heads[t], pend[t]);
    RootLapOf(w.now, i);
  }

  lemma RootLapOf(now: nat, i: nat)
    requires i < 256
    ensures RootLap(now, (now + i) % 256) == now + i
  {
  }

  lemma RootReach(now: nat, j: nat)
    requires j < 256
    ensures now + j < Ticks(1, CeilDiv(now, 256) + 1)
    ensures now % 256 != 0 && (now + j) % 256 >= now % 256 ==> now + j < Ticks(1, CeilDiv(now, 256))
    ensures CeilDiv(now, 256) == Ceil(1, now)
  {
  }

  lemma RootSearchedAt(w: Wheel, pend: map<TimerId, Arming>, j: nat, t: TimerId)
    requires Near(w, pend) && j == RootScan(w, 0) && t in w.heads
    ensures w.heads[t].slot < TVR_SIZE ==> j < 256 && w.now + j <= pend[t].Due()
    ensures w.heads[t].slot >= TVR_SIZE ==> Ticks(1, CeilDiv(w.now, 256)) <= pend[t].Due()
    ensures Visited(w.heads[t], 1, CeilDiv(w.now, 256), 0) <==> w.heads[t].slot < TVR_SIZE
  {
    hide Near, Ceil, Ticks, CeilDiv, RootList;
    RootFacts(w, pend, t);
    RootReach(w.now, 0);
    FirstLevel(w.heads[t], CeilDiv(w.now, 256));
  }

  lemma RootStops(now: nat, j: nat)
    requires j < 256 && !(now % 256 == 0 || (now + j) % 256 < now % 256)
    ensures now + j < Ticks(1, CeilDiv(now, 256))
  {
    RootReach(now, j);
  }

  lemma RootGoesOn(now: nat, j: nat)
    requires j < 256
    ensures now + j < Ticks(1, CeilDiv(now, 256) + 1) && CeilDiv(now, 256) == Ceil(1, now)
  {
    RootReach(now, j);
  }

  lemma RootNotFound(w: Wheel, pend: map<TimerId, Arming>)
    requires pend.Keys == w.heads.Keys && Near(w, pend) && w.now + MAX_DELTA < TIME_LIMIT && RootScan(w, 0) == 256
    ensures Searched(w, pend, 1, CeilDiv(w.now, 256), 0, w.now + MAX_DELTA, false)
  {
    RootGoesOn(w.now, 0);
    hide Near, Ceil, Ticks, CeilDiv, RootScan, Visited;
    forall t | t in w.heads
      ensures w.heads[t].slot >= TVR_SIZE && Ticks(1, CeilDiv(w.now, 256)) <= pend[t].Due()
      ensures !Visited(w.heads[t], 1, CeilDiv(w.now, 256), 0)
    {
      RootSearchedAt(w, pend, 256, t);
    }
  }

  lemma RootFound(w: Wheel, pend: map<TimerId, Arming>, j: nat)
    requires pend.Keys == w.heads.Keys && Near(w, pend) && w.now + MAX_DELTA < TIME_LIMIT && j == RootScan(w, 0) && j < 256
    ensures Searched(w, pend, 1, CeilDiv(w.now, 256), 0, Expiry(w, RootList(w, j)[0]), true)
  {
    var e := Expiry(w, RootList(w, j)[0]);
    hide Near, Ceil, Ticks, CeilDiv, RootScan, Visited, Expiry, RootList;
    FirstOfList(w, pend, j);
    RootGoesOn(w.now, j);
    forall t | t in w.heads
      ensures w.heads[t].slot < TVR_SIZE ==> w.now + j <= pend[t].Due()
      ensures w.heads[t].slot >= TVR_SIZE ==> Ticks(1, CeilDiv(w.now, 256)) <= pend[t].Due()
      ensures Visited(w.heads[t], 1, CeilDiv(w.now, 256), 0) <==> w.heads[t].slot < TVR_SIZE
    {
      RootSearchedAt(w, pend, j, t);
    }
  }

  /** The search ends in tv1 when the timer found there is due before the next cascade. */
  lemma RootEnough(w: Wheel, pend: map<TimerId, Arming>, j: nat)
    requires pend.Keys == w.heads.Keys && Near(w, pend) && w.now + MAX_DELTA < TIME_LIMIT && j == RootScan(w, 0) && j < 256
    requires !(w.now % 256 == 0 || (w.now + j) % 256 < w.now % 256)
    ensures InTime(w, pend, Expiry(w, RootList(w, j)[0]))
  {
    hide Near, Ceil, Ticks, CeilDiv, RootScan, Visited, Expiry, RootList;
    FirstOfList(w, pend, j);
    RootStops(w.now, j);
    forall t | t in w.heads ensures w.now + j <= pend[t].Due() {
      RootSearchedAt(w, pend, j, t);
    }
  }

  /** After tv1: either nothing is in it, or the first timer found is no later than
      any other of tv1. */
  lemma RootSearched(w: Wheel, pend: map<TimerId, Arming>, j: nat)
    requires pend.Keys == w.heads.Keys && Near(w, pend) && w.now + MAX_DELTA < TIME_LIMIT && j == RootScan(w, 0)
    ensures j == 256 ==> Searched(w, pend, 1, CeilDiv(w.now, 256), 0, w.now + MAX_DELTA, false)
    ensures j < 256 ==> Searched(w, pend, 1, CeilDiv(w.now, 256), 0, Expiry(w, RootList(w, j)[0]), true)
    ensures j < 256 && !(w.now % 256 == 0 || (w.now + j) % 256 < w.now % 256) ==> InTime(w, pend, Expiry(w, RootList(w, j)[0]))
  {
    hide Searched, InTime, Near, Expiry, CeilDiv;
    if j == 256 {
      RootNotFound(w, pend);
    } else {
      RootFound(w, pend, j);
      if !(w.now % 256 == 0 || (w.now + j) % 256 < w.now % 256) {
        RootEnough(w, pend, j);
      }
    }
  }

  lemma FirstLevel(h: Head, q: nat)
    ensures Visited(h, 1, q, 0) <==> h.slot < TVR_SIZE
  {
    if TVR_SIZE <= h.slot < WORK {
      LapFacts(q, h.slot % 64);
    }
  }

  lemma FirstOfList(w: Wheel, pend: map<TimerId, Arming>, j: nat)
    requires Near(w, pend) && j < 256 && RootList(w, j) != []
    ensures var e := Expiry(w, RootList(w, j)[0]); e <= w.now + j && Attained(w, e)
  {
    var t := RootList(w, j)[0];
    RootDue(w, pend, j, t);
    assert t in w.heads && w.heads[t].expires == Expiry(w, t);
  }

  /** With every pending timer armed within reach, the search is exact. */
  lemma NextInTime(w: Wheel, pend: map<TimerId, Arming>)
    requires pend.Keys == w.heads.Keys && Near(w, pend) && w.now + MAX_DELTA < TIME_LIMIT
    ensures InTime(w, pend, NextOf(w))
  {
    hide Near, Searched, InTime, CeilDiv, LevelScan, Expiry, RootScan, RootList;
    var j := RootScan(w, 0);
    RootSearched(w, pend, j);
    var q := CeilDiv(w.now, 256);
    if j == 256 {
      ScanInTime(w, pend, 1, q, 0, w.now + MAX_DELTA, false);
    } else if w.now % 256 == 0 || (w.now + j) % 256 < w.now % 256 {
      ScanInTime(w, pend, 1, q, 0, Expiry(w, RootList(w, j)[0]), true);
    }
  }
}
