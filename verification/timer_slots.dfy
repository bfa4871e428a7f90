/** Where the wheel keeps a timer: slot numbers, granularities and the tick at
    which a slot is next emptied.

    The slot lists of `struct timer_base` are numbered through: 0..255 are tv1,
    256..319 tv2, 320..383 tv3, 384..447 tv4 and 448..511 tv5.  Level k, from 1
    to 4, stands for tv2 to tv5. */
module TimerSlots {
  import opened TimerSpec

  const TVR_SIZE := 256
  const TVN_SIZE := 64
  const SLOTS := 512
  const MAX_DELTA := 0x3fff_ffff
  const MAX_IDX := 0xffff_ffff
  const WORD := 0x1_0000_0000_0000_0000

  /** Subtraction of 64-bit words, wrapping around. */
  function Sub64(a: nat, b: nat): nat
    requires a < WORD && b < WORD
  {
    if a >= b then a - b else a - b + WORD
  }

  /** The value of a 64-bit word read as `long`. */
  function Signed(a: nat): int
    requires a < WORD
  {
    if a < TIME_LIMIT then a else a - WORD
  }

  predicate TimeAfterEq(a: nat, b: nat)
    requires a < WORD && b < WORD
  {
    Signed(a) - Signed(b) >= 0
  }

  predicate TimeBefore(a: nat, b: nat)
    requires a < WORD && b < WORD
  {
    Signed(a) - Signed(b) < 0
  }

  /** x divided by the granularity of level k, rounded down. */
  function Floor(k: nat, x: nat): nat {
    if k == 1 then x / 0x100 else if k == 2 then x / 0x4000 else if k == 3 then x / 0x10_0000 else x / 0x400_0000
  }

  /** m units of level k, in ticks. */
  function Ticks(k: nat, m: nat): nat {
    if k == 1 then m * 0x100 else if k == 2 then m * 0x4000 else if k == 3 then m * 0x10_0000 else m * 0x400_0000
  }

  function CeilDiv(x: nat, n: nat): nat
    requires n > 0
  {
    if x % n == 0 then x / n else x / n + 1
  }

  /** x divided by the granularity of level k, rounded up. */
  function Ceil(k: nat, x: nat): nat {
    if Ticks(k, Floor(k, x)) == x then Floor(k, x) else Floor(k, x) + 1
  }

  function LevelBase(k: nat): nat
    requires 1 <= k <= 4
  {
    TVR_SIZE + (k - 1) * TVN_SIZE
  }

  function LevelOf(p: nat): nat
    requires TVR_SIZE <= p < SLOTS
  {
    (p - TVR_SIZE) / TVN_SIZE + 1
  }

  /** The least number that is at least q and congruent to s modulo 64. */
  function Lap(q: nat, s: nat): nat {
    q + (s - q) % 64
  }

  /** The same modulo 256. */
  function RootLap(q: nat, s: nat): nat {
    q + (s - q) % 256
  }

  /** The choice made by `__internal_add_timer`. */
  function SlotFor(now: Tick, expires: Tick): (p: nat)
    ensures p < SLOTS
  {
    var idx := Sub64(expires, now);
    if idx < 0x100 then expires % TVR_SIZE
    else if idx < 0x4000 then 256 + Floor(1, expires) % TVN_SIZE
    else if idx < 0x10_0000 then 320 + Floor(2, expires) % TVN_SIZE
    else if idx < 0x400_0000 then 384 + Floor(3, expires) % TVN_SIZE
    else if Signed(idx) < 0 then now % TVR_SIZE
    else
      var clamped := if idx > MAX_IDX then MAX_IDX + now else expires;
      448 + Floor(4, clamped) % TVN_SIZE
  }

  /** The tick at which slot p is next emptied, seen from tick `now`: fired when p
      is in tv1, cascaded otherwise. */
  function SlotTick(now: nat, p: nat): nat
    requires p < SLOTS
  {
    if p < TVR_SIZE then RootLap(now, p)
    else Ticks(LevelOf(p), Lap(Ceil(LevelOf(p), now), p % TVN_SIZE))
  }

  /** The distance up to which the wheel keeps the order of timers. */
  const REACH := 0x1_0000_0000

  /** A timer may sit in slot p at tick `now`: an entry of tv1 is there for the
      tick it must fire at; an entry further out is taken up again no later than
      it expires and, when it was armed within reach, at most one slot early. */
  ghost predicate Placed(now: nat, p: nat, a: Arming)
    requires p < SLOTS
  {
    if p < TVR_SIZE then SlotTick(now, p) == a.Due()
    else
      && SlotTick(now, p) <= a.expires
      && (a.expires <= a.at + REACH ==> a.expires <= SlotTick(now, p) + Ticks(LevelOf(p), 1))
  }

  lemma CeilFacts(k: nat, now: nat)
    requires 1 <= k <= 4
    ensures Ceil(k, now + 1) == if Ticks(k, Floor(k, now)) == now then Ceil(k, now) + 1 else Ceil(k, now)
    ensures Ticks(k, Floor(k, now)) <= now <= Ticks(k, Ceil(k, now))
    ensures now < Ticks(k, Floor(k, now)) + Ticks(k, 1)
    ensures Ticks(k, Ceil(k, now)) == now <==> Ticks(k, Floor(k, now)) == now
  {
  }

  lemma LapFacts(q: nat, s: nat)
    requires s < 64
    ensures q <= Lap(q, s) < q + 64 && Lap(q, s) % 64 == s
    ensures s == q % 64 <==> Lap(q, s) == q
    ensures s != q % 64 ==> Lap(q + 1, s) == Lap(q, s)
  {
  }

  lemma RootLapFacts(q: nat, s: nat)
    requires s < 256
    ensures q <= RootLap(q, s) < q + 256 && RootLap(q, s) % 256 == s
    ensures s == q % 256 <==> RootLap(q, s) == q
    ensures s != q % 256 ==> RootLap(q + 1, s) == RootLap(q, s)
  {
  }

  lemma LevelReach(k: nat, now: nat, c: nat)
    requires 1 <= k <= 4 && now <= c && Ticks(k, 1) <= c - now < Ticks(k, 64)
    ensures Ceil(k, now) <= Floor(k, c) < Ceil(k, now) + 64
    ensures now < Ticks(k, Floor(k, c))
  {
  }

  /** Level k, at the slot computed from the clamped expiry c. */
  lemma LevelPlaced(k: nat, now: Tick, c: nat, a: Arming)
    requires 1 <= k <= 4 && now <= c <= a.expires && a.at <= now
    requires Ticks(k, 1) <= c - now < Ticks(k, 64)
    requires a.expires <= a.at + REACH ==> a.expires <= c + 1
    ensures var p := LevelBase(k) + Floor(k, c) % TVN_SIZE;
            p < SLOTS && LevelOf(p) == k && SlotTick(now, p) == Ticks(k, Floor(k, c)) > now && Placed(now, p, a)
  {
    hide Ticks, Floor, Ceil;
    var p := LevelBase(k) + Floor(k, c) % TVN_SIZE;
    assert LevelOf(p) == k && p % TVN_SIZE == Floor(k, c) % TVN_SIZE;
    LevelReach(k, now, c);
    assert Lap(Ceil(k, now), Floor(k, c) % 64) == Floor(k, c);
    CeilFacts(k, c);
  }

  /** The part of `__internal_add_timer` that picks level k. */
  lemma SlotForFar(k: nat, now: Tick, a: Arming)
    requires 1 <= k <= 4 && now <= a.expires < TIME_LIMIT && a.at <= now
    requires Ticks(k, 1) <= a.expires - now && (k < 4 ==> a.expires - now < Ticks(k, 64))
    ensures var p := SlotFor(now, a.expires); Placed(now, p, a) && p >= TVR_SIZE && SlotTick(now, p) > now
  {
    var e := a.expires;
    var c := if k == 4 && e - now > MAX_IDX then MAX_IDX + now else e;
    LevelPlaced(k, now, c, a);
    assert SlotFor(now, e) == LevelBase(k) + Floor(k, c) % TVN_SIZE;
  }

  lemma SlotForNear(now: Tick, a: Arming)
    requires a.expires < TIME_LIMIT && a.at <= now <= a.Due() && a.expires < now + 0x100
    ensures var p := SlotFor(now, a.expires); p < TVR_SIZE && Placed(now, p, a)
  {
    var due := a.Due();
    assert SlotFor(now, a.expires) == due % 256;
    assert RootLap(now, due % 256) == due;
  }

  /** A timer goes to a slot that is emptied in time, and never to a slot of a
      higher level that is due to be cascaded now. */
  lemma SlotForPlaced(now: Tick, a: Arming)
    requires a.expires < TIME_LIMIT && a.at <= now <= a.Due()
    ensures Placed(now, SlotFor(now, a.expires), a)
    ensures SlotFor(now, a.expires) >= TVR_SIZE ==> SlotTick(now, SlotFor(now, a.expires)) > now
  {
    var d := a.expires - now;
    if d < 0x100 {
      SlotForNear(now, a);
    } else {
      SlotForFar(if d < 0x4000 then 1 else if d < 0x10_0000 then 2 else if d < 0x400_0000 then 3 else 4, now, a);
    }
  }

  /** The slot that is emptied at tick `now`, if any: `now & TVR_MASK` in tv1, and
      INDEX(k) of a higher level when its granularity divides `now`. */
  lemma SlotTickNow(now: nat, p: nat)
    requires p < SLOTS
    ensures SlotTick(now, p) >= now
    ensures SlotTick(now, p) == now <==>
            if p < TVR_SIZE then p == now % TVR_SIZE
            else Ticks(LevelOf(p), Floor(LevelOf(p), now)) == now && p % TVN_SIZE == Floor(LevelOf(p), now) % TVN_SIZE
  {
    if p < TVR_SIZE {
      RootLapFacts(now, p);
    } else {
      CeilFacts(LevelOf(p), now);
      LapFacts(Ceil(LevelOf(p), now), p % TVN_SIZE);
    }
  }

  /** As time moves on, only the slots emptied at this tick get a new tick. */
  lemma SlotTickStep(now: nat, p: nat)
    requires p < SLOTS && SlotTick(now, p) != now
    ensures SlotTick(now + 1, p) == SlotTick(now, p)
  {
    if p < TVR_SIZE {
      RootLapFacts(now, p);
    } else {
      CeilFacts(LevelOf(p), now);
      LapFacts(Ceil(LevelOf(p), now), p % TVN_SIZE);
    }
  }

  ghost predicate Multiple(k: nat, now: nat) {
    Ticks(k, Floor(k, now)) == now
  }

  lemma FloorAgain(k: nat, x: nat)
    requires 1 <= k <= 3
    ensures Floor(k + 1, x) == Floor(k, x) / 64
    ensures forall m: nat :: Ticks(k + 1, m) == Ticks(k, 64 * m)
  {
    if k == 1 {
      assert x / 0x100 / 64 == x / 0x4000;
    } else if k == 2 {
      assert x / 0x4000 / 64 == x / 0x10_0000;
    } else {
      assert x / 0x10_0000 / 64 == x / 0x400_0000;
    }
  }

  /** INDEX is zero just when the next level is due as well. */
  lemma NextMultiple(k: nat, now: nat)
    requires 1 <= k <= 3
    ensures Multiple(k + 1, now) <==> Multiple(k, now) && Floor(k, now) % TVN_SIZE == 0
  {
    FloorAgain(k, now);
    var f := Floor(k, now);
    assert Ticks(k + 1, f / 64) == Ticks(k, 64 * (f / 64));
  }

  lemma {:induction false} MultipleBelow(k: nat, l: nat, now: nat)
    requires 1 <= k <= l <= 4 && Multiple(l, now)
    ensures Multiple(k, now)
    decreases l
  {
    if k < l {
      NextMultiple(l - 1, now);
      MultipleBelow(k, l - 1, now);
    }
  }
}
