/** What a timer facility promises, with no wheel in sight.

    A history of a timer base is a sequence of events.  The specification
    replays it over a plain map from pending timers to their arming, and says
    which events may happen when.  The clock `now` is the next tick that has
    not been processed; while the callbacks of tick `now - 1` run it has
    already moved on. */
module TimerSpec {
  import opened Wrappers

  type TimerId = nat

  const TIME_LIMIT := 0x8000_0000_0000_0000

  /** A time stamp: an `unsigned long` whose sign bit is clear. */
  type Tick = x: int | 0 <= x < TIME_LIMIT

  /** What a caller, or a callback, can ask of the base. */
  datatype Op = Mod(t: TimerId, expires: Tick) | Del(t: TimerId)

  datatype Event = Did(op: Op) | Fired(t: TimerId) | Ticked

  /** Behaviour of the callbacks: the k-th callback ever run performs `script(k)`. */
  type Script = nat -> seq<Op>

  /** A pending timer: its expiry and the tick at which it was armed. */
  datatype Arming = Arming(expires: Tick, at: nat) {
    /** The tick whose processing must fire this timer. */
    function Due(): nat {
      if expires < at then at else expires
    }
  }

  /** `owed`: what the running callback has still to do.  `calls`: callbacks run so far. */
  datatype Spec = Spec(now: nat, pend: map<TimerId, Arming>, owed: seq<Op>, calls: nat)

  function Init(now: nat): Spec {
    Spec(now, map[], [], 0)
  }

  function Perform(s: Spec, op: Op): Spec {
    match op
    case Mod(t, e) => s.(pend := s.pend[t := Arming(e, s.now)])
    case Del(t) => s.(pend := s.pend - {t})
  }

  /** The next state, or None when the event breaks the promise. */
  function Step(script: Script, s: Spec, ev: Event): Option<Spec> {
    match ev
    case Did(op) =>
      if s.owed == [] then Some(Perform(s, op))
      else if s.owed[0] == op then Some(Perform(s, op).(owed := s.owed[1..]))
      else None
    case Fired(t) =>
      if s.owed == [] && t in s.pend && s.pend[t].Due() == s.now - 1
      then Some(Spec(s.now, s.pend - {t}, script(s.calls), s.calls + 1))
      else None
    case Ticked =>
      if s.owed == [] && forall t | t in s.pend :: s.now <= s.pend[t].Due()
      then Some(s.(now := s.now + 1))
      else None
  }

  /** The state after the first n events. */
  function Replay(script: Script, start: nat, log: seq<Event>, n: nat): Option<Spec>
    requires n <= |log|
  {
    if n == 0 then Some(Init(start))
    else
      var before := Replay(script, start, log, n - 1);
      if before.None? then None else Step(script, before.value, log[n - 1])
  }

  ghost predicate Legal(script: Script, start: nat, log: seq<Event>) {
    Replay(script, start, log, |log|).Some?
  }

  function Final(script: Script, start: nat, log: seq<Event>): Spec
    requires Legal(script, start, log)
  {
    Replay(script, start, log, |log|).value
  }

  /** The clock after the first n events of a legal history. */
  function Clock(script: Script, start: nat, log: seq<Event>, n: nat): nat
    requires n <= |log| && Replay(script, start, log, n).Some?
  {
    Replay(script, start, log, n).value.now
  }

  lemma {:induction false} PrefixLegal(script: Script, start: nat, log: seq<Event>, k: nat, n: nat)
    requires k <= n <= |log| && Replay(script, start, log, n).Some?
    ensures Replay(script, start, log, k).Some?
    decreases n
  {
    if k < n {
      PrefixLegal(script, start, log, k, n - 1);
    }
  }

  lemma {:induction false} ReplayPrefix(script: Script, start: nat, log: seq<Event>, more: seq<Event>, n: nat)
    requires n <= |log|
    ensures Replay(script, start, log + more, n) == Replay(script, start, log, n)
  {
    if n > 0 {
      ReplayPrefix(script, start, log, more, n - 1);
    }
  }

  lemma ReplaySnoc(script: Script, start: nat, log: seq<Event>, ev: Event)
    requires Legal(script, start, log)
    requires Step(script, Final(script, start, log), ev).Some?
    ensures Legal(script, start, log + [ev])
    ensures Final(script, start, log + [ev]) == Step(script, Final(script, start, log), ev).value
  {
    ReplayPrefix(script, start, log, [ev], |log|);
  }

  /** Event k concerns the arming of t only by firing it. */
  predicate LeavesAlone(ev: Event, t: TimerId) {
    !(ev.Did? && ev.op.t == t)
  }

  /** One event that leaves t alone: t keeps its arming, overstays its due tick
      by no more than the tick in progress, and only its own firing removes it. */
  lemma StepAlone(script: Script, s: Spec, ev: Event, t: TimerId)
    requires LeavesAlone(ev, t) && Step(script, s, ev).Some?
    ensures var s' := Step(script, s, ev).value;
            && (t !in s.pend ==> t !in s'.pend && ev != Fired(t))
            && (t in s.pend && ev == Fired(t) ==> t !in s'.pend && s.now == s.pend[t].Due() + 1)
            && (t in s.pend && ev != Fired(t) ==>
                  t in s'.pend && s'.pend[t] == s.pend[t]
                  && (s.now <= s.pend[t].Due() + 1 ==> s'.now <= s.pend[t].Due() + 1))
  {
  }

  /** What became of an arming between events i and n: `fire` is the event that
      fired it, or -1. */
  ghost predicate Followed(script: Script, start: nat, log: seq<Event>, i: nat, n: nat, t: TimerId, arming: Arming, fire: int)
    requires i < n <= |log| && Replay(script, start, log, n).Some?
  {
    var s := Replay(script, start, log, n).value;
    if fire == -1 then
      t in s.pend && s.pend[t] == arming && s.now <= arming.Due() + 1
      && forall k | i < k < n :: log[k] != Fired(t)
    else
      i < fire < n && t !in s.pend && Replay(script, start, log, fire).Some?
      && (forall k | i < k < n :: log[k] == Fired(t) <==> k == fire)
      && Clock(script, start, log, fire) == arming.Due() + 1
  }

  /** While nobody re-arms or deletes t, either t is still pending with its
      original arming and has not fired, or it has fired exactly once, in the
      processing of its due tick, and is gone. */
  lemma {:induction false} FollowArming(script: Script, start: nat, log: seq<Event>, i: nat, n: nat, t: TimerId, e: Tick)
    returns (fire: int)
    requires i < n <= |log| && Replay(script, start, log, n).Some?
    requires log[i] == Did(Mod(t, e))
    requires forall k | i < k < n :: LeavesAlone(log[k], t)
    ensures Replay(script, start, log, i).Some?
    ensures Followed(script, start, log, i, n, t, Arming(e, Clock(script, start, log, i)), fire)
    decreases n
  {
    PrefixLegal(script, start, log, i, n);
    if n == i + 1 {
      return -1;
    }
    fire := FollowArming(script, start, log, i, n - 1, t, e);
    StepAlone(script, Replay(script, start, log, n - 1).value, log[n - 1], t);
    if log[n - 1] == Fired(t) {
      fire := n - 1;
    }
  }

  /** Exactness: a timer armed by event i with expiry e at tick A, and neither
      re-armed nor deleted before event n, has fired exactly once once the clock
      has passed tick max(e, A), and every firing of it was in the processing
      of that very tick. */
  lemma FiresExactlyOnce(script: Script, start: nat, log: seq<Event>, i: nat, n: nat, t: TimerId, e: Tick)
    requires i < n <= |log| && Legal(script, start, log)
    requires log[i] == Did(Mod(t, e))
    requires forall k | i < k < n :: LeavesAlone(log[k], t)
    ensures forall k | 0 <= k <= |log| :: Replay(script, start, log, k).Some?
    ensures var due := Arming(e, Clock(script, start, log, i)).Due();
            && (forall k | i < k < n && log[k] == Fired(t) :: Clock(script, start, log, k) == due + 1)
            && (forall k, m | i < k < n && i < m < n && log[k] == Fired(t) && log[m] == Fired(t) :: k == m)
            && (Clock(script, start, log, n) > due + 1 ==> exists k :: i < k < n && log[k] == Fired(t))
  {
    forall k | 0 <= k <= |log| ensures Replay(script, start, log, k).Some? {
      PrefixLegal(script, start, log, k, |log|);
    }
    var fire := FollowArming(script, start, log, i, n, t, e);
  }

  /** Nothing is pending, hence nothing fires, that was not armed: there is a last
      arming of t, and no firing, deletion or re-arming of t since. */
  lemma {:induction false} PendingWasArmed(script: Script, start: nat, log: seq<Event>, n: nat, t: TimerId) returns (i: nat)
    requires n <= |log| && Replay(script, start, log, n).Some?
    requires t in Replay(script, start, log, n).value.pend
    ensures i < n && log[i].Did? && log[i].op.Mod? && log[i].op.t == t
    ensures Replay(script, start, log, i).Some?
    ensures Replay(script, start, log, n).value.pend[t] == Arming(log[i].op.expires, Clock(script, start, log, i))
    ensures forall k | i < k < n :: LeavesAlone(log[k], t) && log[k] != Fired(t)
    decreases n
  {
    if log[n - 1].Did? && log[n - 1].op.t == t {
      i := n - 1;
    } else {
      i := PendingWasArmed(script, start, log, n - 1, t);
    }
  }
}
