/** The wheel as a value, and the functions its operations compute.

    List 512 stands for the local `work_list` of `timers_run`: the timers of the
    tick in progress whose callbacks have not run yet. */
module TimerWheel {
  import opened TimerSpec
  import opened TimerSlots
  import opened Seqs

  const WORK := 512

  type Lists = s: seq<seq<TimerId>> | |s| == 513 witness seq(513, i => [])
  type ListNo = p: nat | p <= 512

  /** A linked timer: its expiry and the list its entry is on. */
  datatype Head = Head(expires: Tick, slot: ListNo)

  datatype Wheel = Wheel(now: Tick, lists: Lists, heads: map<TimerId, Head>, calls: nat, log: seq<Event>)

  function Empty(now: Tick): Wheel {
    Wheel(now, seq(513, i => []), map[], 0, [])
  }

  function Unlink(w: Wheel, t: TimerId): (r: Wheel)
    ensures |r.lists[WORK]| <= |w.lists[WORK]| && r.now == w.now
  {
    if t in w.heads then
      var p := w.heads[t].slot;
      w.(lists := w.lists[p := Without(w.lists[p], t)], heads := w.heads - {t})
    else w
  }

  function Link(w: Wheel, t: TimerId, e: Tick): (r: Wheel)
    ensures r.lists[WORK] == w.lists[WORK] && r.now == w.now
  {
    var p := SlotFor(w.now, e);
    w.(lists := w.lists[p := w.lists[p] + [t]], heads := w.heads[t := Head(e, p)])
  }

  function DoOp(w: Wheel, op: Op): (r: Wheel)
    ensures r.now == w.now
    ensures |r.lists[WORK]| <= |w.lists[WORK]|
  {
    match op
    case Mod(t, e) => Link(Unlink(w, t), t, e).(log := w.log + [Did(op)])
    case Del(t) => Unlink(w, t).(log := w.log + [Did(op)])
  }

  function DoOps(w: Wheel, ops: seq<Op>): (r: Wheel)
    ensures r.now == w.now
    ensures |r.lists[WORK]| <= |w.lists[WORK]|
    decreases |ops|
  {
    if ops == [] then w else DoOps(DoOp(w, ops[0]), ops[1..])
  }

  /** The `expires` field of timer t. */
  function Expiry(w: Wheel, t: TimerId): Tick {
    if t in w.heads then w.heads[t].expires else 0
  }

  /** Adds the timers of `rest`, which are on no list, where they now belong. */
  function Relink(w: Wheel, rest: seq<TimerId>): (r: Wheel)
    ensures r.now == w.now
    decreases |rest|
  {
    if rest == [] then w else Relink(Link(w, rest[0], Expiry(w, rest[0])), rest[1..])
  }

  function Cascade(w: Wheel, p: ListNo): (r: Wheel)
    ensures r.now == w.now
  {
    Relink(w.(lists := w.lists[p := []]), w.lists[p])
  }

  /** INDEX(k - 1). */
  function Index(k: nat, now: Tick): nat {
    Floor(k, now) % TVN_SIZE
  }

  /** Every linked timer, apart from those in `out`, is on the list it names, once. */
  ghost predicate Linked(lists: Lists, heads: map<TimerId, Head>, out: set<TimerId>) {
    && (forall t | t in heads && t !in out :: t in lists[heads[t].slot])
    && (forall p, t | 0 <= p < 513 && t in lists[p] :: t in heads && t !in out && heads[t].slot == p)
    && (forall p | 0 <= p < 513 :: NoDup(lists[p]))
  }

  /** A timer armed as a may be linked as h at tick `now`. */
  ghost predicate InPlace(now: nat, h: Head, a: Arming) {
    && a.expires == h.expires && a.at <= now
    && (h.slot < WORK ==> now <= a.Due() && Placed(now, h.slot, a))
    && (h.slot == WORK ==> a.Due() == now - 1)
  }

  ghost predicate Matches(now: nat, heads: map<TimerId, Head>, pend: map<TimerId, Arming>) {
    && pend.Keys == heads.Keys
    && forall t | t in heads :: InPlace(now, heads[t], pend[t])
  }

  /** The wheel refines the specification: its history is legal and leads to a map
      of pending timers that the lists represent. */
  ghost predicate Good(script: Script, start: nat, w: Wheel, owed: seq<Op>) {
    && Linked(w.lists, w.heads, {})
    && Legal(script, start, w.log)
    && var s := Final(script, start, w.log);
       s.now == w.now && s.calls == w.calls && s.owed == owed && Matches(w.now, w.heads, s.pend)
  }

  lemma UnlinkLinked(w: Wheel, t: TimerId, out: set<TimerId>)
    requires Linked(w.lists, w.heads, out) && t !in out
    ensures var r := Unlink(w, t); Linked(r.lists, r.heads, out)
  {
    if t in w.heads {
      WithoutFacts(w.lists[w.heads[t].slot], t);
    }
  }

  lemma LinkLinked(w: Wheel, t: TimerId, e: Tick, out: set<TimerId>)
    requires Linked(w.lists, w.heads, out) && (t in w.heads ==> t in out)
    ensures var r := Link(w, t, e); Linked(r.lists, r.heads, out - {t})
  {
  }

  lemma LinkMatches(w: Wheel, pend: map<TimerId, Arming>, t: TimerId, a: Arming)
    requires Matches(w.now, w.heads, pend) && a.expires < TIME_LIMIT && a.at <= w.now <= a.Due()
    ensures Matches(w.now, Link(w, t, a.expires).heads, pend[t := a])
  {
    SlotForPlaced(w.now, a);
  }

  lemma UnlinkMatches(w: Wheel, pend: map<TimerId, Arming>, t: TimerId)
    requires Matches(w.now, w.heads, pend)
    ensures Matches(w.now, Unlink(w, t).heads, pend - {t})
  {
    assert Unlink(w, t).heads == w.heads - {t};
  }

  lemma ModLinked(w: Wheel, t: TimerId, e: Tick)
    requires Linked(w.lists, w.heads, {})
    ensures var r := Link(Unlink(w, t), t, e); Linked(r.lists, r.heads, {})
  {
    UnlinkLinked(w, t, {});
    LinkLinked(Unlink(w, t), t, e, {});
    assert {} - {t} == {};
  }

  lemma ModMatches(w: Wheel, pend: map<TimerId, Arming>, t: TimerId, e: Tick)
    requires Matches(w.now, w.heads, pend)
    ensures Matches(w.now, Link(Unlink(w, t), t, e).heads, pend[t := Arming(e, w.now)])
  {
    UnlinkMatches(w, pend, t);
    LinkMatches(Unlink(w, t), pend - {t}, t, Arming(e, w.now));
    assert (pend - {t})[t := Arming(e, w.now)] == pend[t := Arming(e, w.now)];
  }

  lemma OpGood(script: Script, start: nat, w: Wheel, owed: seq<Op>, op: Op)
    requires Good(script, start, w, owed) && (owed == [] || owed[0] == op)
    ensures Good(script, start, DoOp(w, op), if owed == [] then [] else owed[1..])
  {
    var pend := Final(script, start, w.log).pend;
    match op {
      case Mod(t, e) =>
        ModLinked(w, t, e);
        ModMatches(w, pend, t, e);
      case Del(t) =>
        UnlinkLinked(w, t, {});
        UnlinkMatches(w, pend, t);
    }
    ReplaySnoc(script, start, w.log, Did(op));
  }

  lemma {:induction false} OpsGood(script: Script, start: nat, w: Wheel, ops: seq<Op>)
    requires Good(script, start, w, ops)
    ensures Good(script, start, DoOps(w, ops), [])
    decreases |ops|
  {
    if ops != [] {
      OpGood(script, start, w, ops, ops[0]);
      OpsGood(script, start, DoOp(w, ops[0]), ops[1..]);
    }
  }

  /** The list that t is on is not about to be cascaded. */
  ghost predicate Settled(now: nat, h: Head) {
    TVR_SIZE <= h.slot < WORK ==> SlotTick(now, h.slot) > now
  }

  /** What a cascade leaves as it was. */
  ghost predicate SameBut(w: Wheel, r: Wheel) {
    r.now == w.now && r.calls == w.calls && r.log == w.log && r.lists[WORK] == w.lists[WORK]
  }

  lemma RestFacts(rest: seq<TimerId>)
    requires NoDup(rest) && rest != []
    ensures NoDup(rest[1..]) && rest[0] !in rest[1..] && Elements(rest) - {rest[0]} == Elements(rest[1..])
    ensures forall t :: t in rest <==> t == rest[0] || t in rest[1..]
  {
    assert rest == [rest[0]] + rest[1..];
  }

  /** Adding the first timer of `rest`. */
  lemma RelinkStep(w: Wheel, pend: map<TimerId, Arming>, rest: seq<TimerId>)
    requires Linked(w.lists, w.heads, Elements(rest)) && NoDup(rest) && rest != []
    requires rest[0] in w.heads && w.heads[rest[0]].slot < WORK
    requires Matches(w.now, w.heads, pend)
    ensures var t := rest[0];
            var r := Link(w, t, Expiry(w, t));
            && SameBut(w, r) && Linked(r.lists, r.heads, Elements(rest[1..])) && Matches(r.now, r.heads, pend)
            && r.heads == w.heads[t := r.heads[t]] && r.heads[t].slot < WORK && Settled(w.now, r.heads[t])
  {
    var t := rest[0];
    RestFacts(rest);
    LinkLinked(w, t, w.heads[t].expires, Elements(rest));
    assert InPlace(w.now, w.heads[t], pend[t]);
    LinkMatches(w, pend, t, pend[t]);
    assert pend[t := pend[t]] == pend;
    SlotForPlaced(w.now, pend[t]);
  }

  lemma {:induction false} RelinkGood(w: Wheel, pend: map<TimerId, Arming>, rest: seq<TimerId>)
    requires Linked(w.lists, w.heads, Elements(rest)) && NoDup(rest)
    requires forall t | t in rest :: t in w.heads && w.heads[t].slot < WORK
    requires Matches(w.now, w.heads, pend)
    ensures var r := Relink(w, rest);
            && SameBut(w, r) && Linked(r.lists, r.heads, {}) && Matches(r.now, r.heads, pend)
            && r.heads.Keys == w.heads.Keys
            && (forall t | t in r.heads && t in rest :: r.heads[t].slot < WORK && Settled(w.now, r.heads[t]))
            && (forall t | t in r.heads && t !in rest :: r.heads[t] == w.heads[t])
    decreases |rest|
  {
    hide SlotFor, Settled, Linked, Matches;
    if rest == [] {
      assert Elements(rest) == {};
    } else {
      RestFacts(rest);
      RelinkStep(w, pend, rest);
      RelinkGood(Link(w, rest[0], Expiry(w, rest[0])), pend, rest[1..]);
    }
  }

  /** Cascading a list keeps the wheel good and settles the timers of that list. */
  lemma CascadeGood(w: Wheel, pend: map<TimerId, Arming>, p: ListNo)
    requires Linked(w.lists, w.heads, {}) && Matches(w.now, w.heads, pend) && p < WORK
    ensures var r := Cascade(w, p);
            && SameBut(w, r) && Linked(r.lists, r.heads, {}) && Matches(r.now, r.heads, pend)
            && (forall t | t in r.heads ::
                  t in w.heads && (r.heads[t].slot == WORK <==> w.heads[t].slot == WORK)
                  && if w.heads[t].slot == p then Settled(w.now, r.heads[t]) else r.heads[t] == w.heads[t])
  {
    var rest := w.lists[p];
    var w1 := w.(lists := w.lists[p := []]);
    assert w1.lists[p] == [] && NoDup(w1.lists[p]);
    assert forall q | 0 <= q < 513 && q != p :: w1.lists[q] == w.lists[q];
    forall q, t | 0 <= q < 513 && t in w1.lists[q]
      ensures t in w1.heads && t !in Elements(rest) && w1.heads[t].slot == q
    {
      assert q != p && t in w.lists[q];
    }
    assert Linked(w1.lists, w1.heads, Elements(rest));
    RelinkGood(w1, pend, rest);
  }

  /** The chain of cascades of one tick, from level k on. */
  function CascadeFrom(w: Wheel, k: nat): (r: Wheel)
    requires 1 <= k <= 4
    ensures r.now == w.now
    decreases 4 - k
  {
    var r := Cascade(w, LevelBase(k) + Index(k, w.now));
    if Index(k, w.now) != 0 || k == 4 then r else CascadeFrom(r, k + 1)
  }

  ghost predicate SettledBelow(w: Wheel, k: nat) {
    forall t | t in w.heads && TVR_SIZE <= w.heads[t].slot < WORK && LevelOf(w.heads[t].slot) < k :: Settled(w.now, w.heads[t])
  }

  /** One cascade of the chain. */
  lemma CascadeSettles(w: Wheel, pend: map<TimerId, Arming>, k: nat)
    requires Linked(w.lists, w.heads, {}) && Matches(w.now, w.heads, pend)
    requires 1 <= k <= 4 && Multiple(k, w.now) && SettledBelow(w, k)
    ensures var r := Cascade(w, LevelBase(k) + Index(k, w.now));
            && SameBut(w, r) && Linked(r.lists, r.heads, {}) && Matches(r.now, r.heads, pend)
            && SettledBelow(r, k + 1)
            && (Index(k, w.now) != 0 || k == 4 ==> forall t | t in r.heads :: Settled(r.now, r.heads[t]))
  {
    hide Linked, Matches, SlotTick, Floor, Ticks, Cascade;
    var p := LevelBase(k) + Index(k, w.now);
    CascadeGood(w, pend, p);
    var r := Cascade(w, p);
    forall t | t in r.heads && TVR_SIZE <= r.heads[t].slot < WORK
      ensures Settled(w.now, r.heads[t]) || (LevelOf(r.heads[t].slot) > k && Index(k, w.now) == 0)
    {
      var h := r.heads[t];
      var l := LevelOf(h.slot);
      if l >= k && !Settled(w.now, h) {
        SlotTickNow(w.now, h.slot);
        assert Multiple(l, w.now) && h.slot % TVN_SIZE == Index(l, w.now);
        if l > k {
          MultipleBelow(k + 1, l, w.now);
          NextMultiple(k, w.now);
        }
      }
    }
  }

  /** Cascading from level k, with everything below settled, settles everything. */
  lemma {:induction false} CascadeFromGood(w: Wheel, pend: map<TimerId, Arming>, k: nat)
    requires Linked(w.lists, w.heads, {}) && Matches(w.now, w.heads, pend)
    requires 1 <= k <= 4 && Multiple(k, w.now)
    requires SettledBelow(w, k)
    ensures var r := CascadeFrom(w, k);
            && SameBut(w, r) && Linked(r.lists, r.heads, {}) && Matches(r.now, r.heads, pend)
            && forall t | t in r.heads :: Settled(w.now, r.heads[t])
    decreases 4 - k
  {
    hide Linked, Matches, SlotTick, Floor, Ticks;
    CascadeSettles(w, pend, k);
    if Index(k, w.now) == 0 && k < 4 {
      NextMultiple(k, w.now);
      CascadeFromGood(Cascade(w, LevelBase(k) + Index(k, w.now)), pend, k + 1);
    }
  }

  /** The cascades at the start of a tick. */
  function CascadeAll(w: Wheel): (r: Wheel)
    ensures r.now == w.now
  {
    if w.now % TVR_SIZE == 0 then CascadeFrom(w, 1) else w
  }

  lemma SettledOff(now: Tick, h: Head)
    requires now % TVR_SIZE != 0 && TVR_SIZE <= h.slot < WORK
    ensures Settled(now, h)
  {
    SlotTickNow(now, h.slot);
    if Multiple(LevelOf(h.slot), now) {
      MultipleBelow(1, LevelOf(h.slot), now);
    }
  }

  lemma CascadeAllGood(w: Wheel, pend: map<TimerId, Arming>)
    requires Linked(w.lists, w.heads, {}) && Matches(w.now, w.heads, pend)
    ensures var r := CascadeAll(w);
            && SameBut(w, r) && Linked(r.lists, r.heads, {}) && Matches(r.now, r.heads, pend)
            && forall t | t in r.heads :: Settled(w.now, r.heads[t])
  {
    if w.now % TVR_SIZE == 0 {
      CascadeFromGood(w, pend, 1);
    } else {
      forall t | t in w.heads ensures Settled(w.now, w.heads[t]) {
        if TVR_SIZE <= w.heads[t].slot < WORK {
          SettledOff(w.now, w.heads[t]);
        }
      }
    }
  }

  /** Moves list i, the timers of this tick, to the work list and the clock on. */
  function Open(w: Wheel): (r: Wheel)
    requires w.now + 1 < TIME_LIMIT
  {
    var i := w.now % TVR_SIZE;
    Wheel(w.now + 1, w.lists[WORK := w.lists[i]][i := []],
          map t | t in w.heads :: if w.heads[t].slot == i then w.heads[t].(slot := WORK) else w.heads[t],
          w.calls, w.log + [Ticked])
  }

  lemma OpenLinked(w: Wheel)
    requires Linked(w.lists, w.heads, {}) && w.now + 1 < TIME_LIMIT && w.lists[WORK] == []
    ensures Linked(Open(w).lists, Open(w).heads, {})
  {
    forall t | t in w.heads ensures w.heads[t].slot < WORK {
      assert t in w.lists[w.heads[t].slot];
    }
  }

  lemma OpenInPlace(now: nat, h: Head, a: Arming)
    requires h.slot < WORK && InPlace(now, h, a) && Settled(now, h)
    ensures now <= a.Due()
    ensures InPlace(now + 1, if h.slot == now % TVR_SIZE then h.(slot := WORK) else h, a)
  {
    SlotTickNow(now, h.slot);
    if SlotTick(now, h.slot) != now {
      SlotTickStep(now, h.slot);
    }
  }

  lemma LinkedOn(w: Wheel, t: TimerId)
    requires Linked(w.lists, w.heads, {}) && t in w.heads
    ensures t in w.lists[w.heads[t].slot]
  {
  }

  lemma LegalTick(script: Script, start: nat, log: seq<Event>)
    requires Legal(script, start, log)
    requires var s := Final(script, start, log); s.owed == [] && forall t | t in s.pend :: s.now <= s.pend[t].Due()
    ensures var s := Final(script, start, log);
            Legal(script, start, log + [Ticked]) && Final(script, start, log + [Ticked]) == s.(now := s.now + 1)
  {
    ReplaySnoc(script, start, log, Ticked);
  }

  lemma LegalFire(script: Script, start: nat, log: seq<Event>, t: TimerId)
    requires Legal(script, start, log)
    requires var s := Final(script, start, log); s.owed == [] && t in s.pend && s.pend[t].Due() == s.now - 1
    ensures var s := Final(script, start, log);
            Legal(script, start, log + [Fired(t)])
            && Final(script, start, log + [Fired(t)]) == Spec(s.now, s.pend - {t}, script(s.calls), s.calls + 1)
  {
    ReplaySnoc(script, start, log, Fired(t));
  }

  lemma OpenGood(script: Script, start: nat, w: Wheel)
    requires Good(script, start, w, []) && w.now + 1 < TIME_LIMIT && w.lists[WORK] == []
    requires forall t | t in w.heads :: Settled(w.now, w.heads[t])
    ensures Good(script, start, Open(w), [])
  {
    hide Settled, InPlace, Replay, Step, NoDup, Linked;
    var pend := Final(script, start, w.log).pend;
    OpenLinked(w);
    forall t | t in w.heads ensures w.now <= pend[t].Due() && InPlace(w.now + 1, Open(w).heads[t], pend[t]) {
      LinkedOn(w, t);
      OpenInPlace(w.now, w.heads[t], pend[t]);
    }
    LegalTick(script, start, w.log);
  }

  /** The first timer of the work list, fired. */
  function Fire(w: Wheel): Wheel
    requires w.lists[WORK] != []
  {
    var work := w.lists[WORK];
    w.(lists := w.lists[WORK := work[1..]], heads := w.heads - {work[0]}, calls := w.calls + 1, log := w.log + [Fired(work[0])])
  }

  /** Runs the callbacks of the timers on the work list. */
  function Drain(script: Script, w: Wheel): (r: Wheel)
    ensures r.now == w.now && r.lists[WORK] == []
    decreases |w.lists[WORK]|
  {
    if w.lists[WORK] == [] then w else Drain(script, DoOps(Fire(w), script(w.calls)))
  }

  lemma FireLinked(w: Wheel)
    requires Linked(w.lists, w.heads, {}) && w.lists[WORK] != []
    ensures var t := w.lists[WORK][0];
            Linked(Fire(w).lists, Fire(w).heads, {}) && t in w.heads && w.heads[t].slot == WORK
  {
    var work := w.lists[WORK];
    assert work == [work[0]] + work[1..];
    assert work[0] in work && work[0] !in work[1..] && NoDup(work[1..]);
    var w' := Fire(w);
    hide NoDup;
    forall p, t: TimerId | 0 <= p < 513 && t in w'.lists[p] ensures t in w'.heads && w'.heads[t].slot == p {
      assert t in w.lists[p];
    }
  }

  lemma FireGood(script: Script, start: nat, w: Wheel)
    requires Good(script, start, w, []) && w.lists[WORK] != []
    ensures Good(script, start, Fire(w), script(w.calls))
  {
    hide Linked, Placed, Replay, Step;
    FireLinked(w);
    LegalFire(script, start, w.log, w.lists[WORK][0]);
  }

  lemma {:induction false} DrainGood(script: Script, start: nat, w: Wheel)
    requires Good(script, start, w, [])
    ensures Good(script, start, Drain(script, w), [])
    decreases |w.lists[WORK]|
  {
    hide Good, DoOps;
    if w.lists[WORK] != [] {
      FireGood(script, start, w);
      OpsGood(script, start, Fire(w), script(w.calls));
      DrainGood(script, start, DoOps(Fire(w), script(w.calls)));
    }
  }

  /** One tick of `timers_run`. */
  function RunTick(script: Script, w: Wheel): (r: Wheel)
    requires w.now + 1 < TIME_LIMIT
    ensures r.now == w.now + 1 && r.lists[WORK] == []
  {
    Drain(script, Open(CascadeAll(w)))
  }

  /** `timers_run(base, jiffies)`. */
  function RunTo(script: Script, w: Wheel, jiffies: Tick): (r: Wheel)
    requires jiffies + 1 < TIME_LIMIT
    ensures r.now == if jiffies < w.now then w.now else jiffies + 1
    decreases jiffies + 1 - w.now
  {
    if jiffies < w.now then w else RunTo(script, RunTick(script, w), jiffies)
  }

  /** The base between two calls: nothing on the work list. */
  ghost predicate Idle(script: Script, start: nat, w: Wheel) {
    Good(script, start, w, []) && w.lists[WORK] == []
  }

  lemma EmptyIdle(script: Script, now: Tick)
    ensures Idle(script, now, Empty(now))
  {
  }

  lemma TickIdle(script: Script, start: nat, w: Wheel)
    requires Idle(script, start, w) && w.now + 1 < TIME_LIMIT
    ensures Idle(script, start, RunTick(script, w))
  {
    hide Linked, Matches, Settled, CascadeAll, Open;
    CascadeAllGood(w, Final(script, start, w.log).pend);
    OpenGood(script, start, CascadeAll(w));
    DrainGood(script, start, Open(CascadeAll(w)));
  }

  /** Every run of the wheel is one the specification allows, and leaves nothing
      behind that is due. */
  lemma {:induction false} RunIdle(script: Script, start: nat, w: Wheel, jiffies: Tick)
    requires Idle(script, start, w) && jiffies + 1 < TIME_LIMIT
    ensures var r := RunTo(script, w, jiffies);
            && Idle(script, start, r)
            && var pend := Final(script, start, r.log).pend;
               forall t | t in pend :: jiffies < pend[t].Due()
    decreases jiffies + 1 - w.now
  {
    if jiffies < w.now {
      AllAhead(script, start, w);
    } else {
      TickIdle(script, start, w);
      RunIdle(script, start, RunTick(script, w), jiffies);
    }
  }

  lemma AllAhead(script: Script, start: nat, w: Wheel)
    requires Idle(script, start, w)
    ensures var pend := Final(script, start, w.log).pend;
            forall t | t in pend :: w.now <= pend[t].Due() && t in w.heads && w.heads[t].slot < WORK
  {
    var pend := Final(script, start, w.log).pend;
    forall t | t in pend ensures w.now <= pend[t].Due() && w.heads[t].slot < WORK {
      assert t in w.lists[w.heads[t].slot];
    }
  }
}
