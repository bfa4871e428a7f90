/** The epoll engine with its timer wheel: `process_block` runs the wheel up to the clock
    after the events, and the timers that the wheel calls back are the timeouts.

    A timer that is called back is off its list, so that `timer_del` in `timer_callback`
    does nothing to the wheel: as far as the wheel goes, callbacks do nothing. */
module EpollTimers {
  import opened Wrappers
  import opened Seqs
  import opened Epoll
  import Spec = TimerSpec
  import Wheels = TimerWheel
  import TimerRuns
  import TimerLimits
  import TimerHistory

  type Pendings = map<Spec.TimerId, Spec.Arming>

  datatype Timed = Timed(e: Engine, w: Wheels.Wheel)

  /** A request, or a block that ends with these events at this time. */
  datatype Call = Asks(r: Request) | Blocks(events: seq<Event>, now: TimerRuns.Deadline)

  function Script(): Spec.Script {
    TimerLimits.Quiet()
  }

  lemma ScriptSilent()
    ensures TimerHistory.Keeps(Script(), TimerHistory.Silent)
  {
  }

  function Pending(start: nat, w: Wheels.Wheel): Pendings
    requires Spec.Legal(Script(), start, w.log)
  {
    TimerRuns.Pending(Script(), start, w)
  }

  /** The end of `schedule_change`. */
  function SetTimer(w: Wheels.Wheel, fd: Fd, expires: Spec.Tick): Wheels.Wheel {
    Wheels.DoOp(w, if expires != 0 then Spec.Mod(fd, expires) else Spec.Del(fd))
  }

  function Expires(r: Request): nat {
    if r.Register? then r.expires else 0
  }

  /** The wheel after the loop over the events. */
  function AfterEvents(w: Wheels.Wheel, pipe: Fd, events: seq<Event>): Wheels.Wheel
    decreases |events|
  {
    if events == [] then w
    else AfterEvents(if events[0].readable && events[0].fd == pipe then w else SetTimer(w, events[0].fd, 0), pipe, events[1..])
  }

  /** The timers that `timers_run` calls back, in this order. */
  function DueBy(w: Wheels.Wheel, now: TimerRuns.Deadline): seq<Fd> {
    TimerHistory.FiredSince(Wheels.RunTo(Script(), w, now).log, |w.log|)
  }

  // The wheel has the timers of the table

  predicate TimerOf(e: Engine, pend: Pendings, fd: Fd) {
    if Armed(e, fd) then fd in pend && pend[fd].expires == e.items[fd].timer else fd !in pend
  }

  ghost predicate TimersRight(e: Engine, pend: Pendings) {
    forall fd: Fd :: TimerOf(e, pend, fd)
  }

  ghost predicate Agree(start: nat, s: Timed) {
    && Inv(s.e)
    && Wheels.Idle(Script(), start, s.w)
    && TimersRight(s.e, Pending(start, s.w))
  }

  lemma ChangedTimer(e: Engine, pend: Pendings, victim: Pid, fd: Fd, mask: Mask, expires: Spec.Tick, at: nat, log: seq<Entry>)
    requires fd < |e.items| && TimersRight(e, pend)
    ensures TimersRight(ScheduleChange(e, victim, fd, mask, expires).(log := log),
                        if expires != 0 then pend[fd := Spec.Arming(expires, at)] else pend - {fd})
  {
    var e' := ScheduleChange(e, victim, fd, mask, expires).(log := log);
    assert e'.items == e.items[fd := e.items[fd].(newMask := mask, victim := victim, timer := expires)];
    var pend' := if expires != 0 then pend[fd := Spec.Arming(expires, at)] else pend - {fd};
    hide ScheduleChange;
    forall x: Fd ensures TimerOf(e', pend', x) {
      assert TimerOf(e, pend, x);
    }
  }

  lemma SetRight(e: Engine, start: nat, w: Wheels.Wheel, victim: Pid, fd: Fd, mask: Mask, expires: Spec.Tick, log: seq<Entry>)
    requires fd < |e.items| && Wheels.Idle(Script(), start, w) && TimersRight(e, Pending(start, w))
    ensures var w' := SetTimer(w, fd, expires);
            Wheels.Idle(Script(), start, w') && TimersRight(ScheduleChange(e, victim, fd, mask, expires).(log := log), Pending(start, w'))
  {
    TimerHistory.RequestPending(Script(), start, w, if expires != 0 then Spec.Mod(fd, expires) else Spec.Del(fd));
    hide Wheels.Idle, TimersRight, ScheduleChange, Wheels.DoOp;
    ChangedTimer(e, Pending(start, w), victim, fd, mask, expires, w.now, log);
  }

  lemma AskAgrees(start: nat, s: Timed, r: Request)
    requires Agree(start, s) && Proper(s.e, r) && Expires(r) < Spec.TIME_LIMIT
    ensures Agree(start, Timed(Serve(s.e, r), SetTimer(s.w, r.fd, Expires(r))))
  {
    ServeRight(s.e, r);
    var mask := if r.Register? then r.mask else Off;
    SetRight(s.e, start, s.w, r.victim, r.fd, mask, Expires(r), Serve(s.e, r).log);
    hide Inv, Wheels.Idle, ScheduleChange, TimersRight;
  }

  lemma FlushedTimers(e: Engine, e': Engine, pend: Pendings)
    requires SameRequests(e, e') && TimersRight(e, pend)
    ensures TimersRight(e', pend)
  {
    forall fd: Fd ensures TimerOf(e', pend, fd) {
      assert TimerOf(e, pend, fd);
      if fd < |e.items| {
        assert e'.items[fd].(epollMask := Off) == e.items[fd].(epollMask := Off);
      }
    }
  }

  lemma HandleTimers(e: Engine, start: nat, w: Wheels.Wheel, ev: Event)
    requires ev.fd < |e.items| && Wheels.Idle(Script(), start, w) && TimersRight(e, Pending(start, w))
    ensures var w' := if ev.readable && ev.fd == e.pipe then w else SetTimer(w, ev.fd, 0);
            Wheels.Idle(Script(), start, w') && TimersRight(Handle(e, ev), Pending(start, w'))
  {
    if !(ev.readable && ev.fd == e.pipe) {
      SetRight(e, start, w, 0, ev.fd, Off, 0, Handle(e, ev).log);
    }
  }

  lemma {:induction false} EventsTimers(e: Engine, start: nat, w: Wheels.Wheel, events: seq<Event>)
    requires forall i | 0 <= i < |events| :: events[i].fd < |e.items|
    requires Wheels.Idle(Script(), start, w) && TimersRight(e, Pending(start, w))
    ensures var w' := AfterEvents(w, e.pipe, events);
            Wheels.Idle(Script(), start, w') && TimersRight(HandleAll(e, events), Pending(start, w'))
    decreases |events|
  {
    hide Wheels.Idle, TimersRight, SetTimer;
    if events != [] {
      HandleTimers(e, start, w, events[0]);
      EventsTimers(Handle(e, events[0]), start,
        if events[0].readable && events[0].fd == e.pipe then w else SetTimer(w, events[0].fd, 0), events[1..]);
    }
  }

  lemma WokenTimers(start: nat, s: Timed, events: seq<Event>)
    requires Agree(start, s) && CanWake(s.e, events)
    ensures var w := AfterEvents(s.w, s.e.pipe, events);
            Wheels.Idle(Script(), start, w) && TimersRight(Woken(s.e, events), Pending(start, w))
  {
    FlushRight(s.e);
    FlushedTimers(s.e, Flush(s.e), Pending(start, s.w));
    forall i | 0 <= i < |events| ensures events[i].fd < |Flush(s.e).items| {
      assert Happens(Flush(s.e), events[i]);
    }
    hide Flush, HandleAll, TimersRight, Wheels.Idle, Inv;
    EventsTimers(Flush(s.e), start, s.w, events);
  }

  /** The timer of a descriptor is due. */
  predicate RunsOut(e: Engine, pend: Pendings, fd: Fd, now: nat) {
    Armed(e, fd) && fd in pend && pend[fd].Due() <= now
  }

  /** What the wheel calls back: the timers of the table that are due, each once. */
  lemma DueRight(e: Engine, start: nat, w: Wheels.Wheel, now: TimerRuns.Deadline)
    requires Wheels.Idle(Script(), start, w) && TimersRight(e, Pending(start, w))
    ensures NoDup(DueBy(w, now)) && forall fd: Fd :: fd in DueBy(w, now) <==> RunsOut(e, Pending(start, w), fd, now)
  {
    ScriptSilent();
    TimerHistory.RunFires(Script(), start, w, now);
    hide Wheels.Idle, Wheels.RunTo, NoDup;
    forall fd: Fd ensures fd in DueBy(w, now) <==> RunsOut(e, Pending(start, w), fd, now) {
      assert TimerOf(e, Pending(start, w), fd);
    }
  }

  lemma DueArmed(start: nat, s: Timed, events: seq<Event>, now: TimerRuns.Deadline)
    requires Agree(start, s) && CanWake(s.e, events)
    ensures CanBlock(s.e, events, DueBy(AfterEvents(s.w, s.e.pipe, events), now))
  {
    WokenTimers(start, s, events);
    var w, e := AfterEvents(s.w, s.e.pipe, events), Woken(s.e, events);
    hide Agree, Wheels.Idle, AfterEvents, TimersRight, NoDup, CanWake, Woken, DueBy;
    DueRight(e, start, w, now);
    forall i | 0 <= i < |DueBy(w, now)| ensures Armed(e, DueBy(w, now)[i]) {
      assert RunsOut(e, Pending(start, w), DueBy(w, now)[i], now);
    }
  }

  /** What the log gains from the timeouts. */
  function Timeouts(e: Engine, due: seq<Fd>): seq<Entry>
    requires forall i | 0 <= i < |due| :: due[i] < |e.items|
  {
    seq(|due|, i requires 0 <= i < |due| => Notified(due[i], e.items[due[i]].victim, Timeouted))
  }

  lemma {:induction false} ExpireAllFacts(e: Engine, due: seq<Fd>)
    requires NoDup(due) && forall i | 0 <= i < |due| :: due[i] < |e.items|
    ensures var e' := ExpireAll(e, due);
            && |e'.items| == |e.items| && e'.log == e.log + Timeouts(e, due)
            && forall fd | 0 <= fd < |e.items| :: if fd in due then e'.items[fd].timer == 0 else e'.items[fd] == e.items[fd]
    decreases |due|
  {
    if due != [] {
      var e1 := Expire(e, due[0]);
      FirstOnly(due);
      ExpireAllFacts(e1, due[1..]);
      assert Timeouts(e, due) == [Timeouts(e, due)[0]] + Timeouts(e1, due[1..]);
    } else {
      assert Timeouts(e, due) == [];
    }
  }

  lemma ExpiredTimers(e: Engine, due: seq<Fd>, pend: Pendings)
    requires NoDup(due) && (forall i | 0 <= i < |due| :: due[i] < |e.items|) && TimersRight(e, pend)
    ensures TimersRight(ExpireAll(e, due), pend - Elements(due))
  {
    ExpireAllFacts(e, due);
    hide ExpireAll, NoDup;
    forall fd: Fd ensures TimerOf(ExpireAll(e, due), pend - Elements(due), fd) {
      assert TimerOf(e, pend, fd);
    }
  }

  /** What is left of a block. */
  function Blocked(s: Timed, events: seq<Event>, now: TimerRuns.Deadline): Timed
    requires CanWake(s.e, events) && CanBlock(s.e, events, DueBy(AfterEvents(s.w, s.e.pipe, events), now))
  {
    var w := AfterEvents(s.w, s.e.pipe, events);
    Timed(Epoll.Next(s.e, Block(events, DueBy(w, now))), Wheels.RunTo(Script(), w, now))
  }

  lemma BlockAgrees(start: nat, s: Timed, events: seq<Event>, now: TimerRuns.Deadline)
    requires Agree(start, s) && CanWake(s.e, events)
    ensures CanBlock(s.e, events, DueBy(AfterEvents(s.w, s.e.pipe, events), now))
    ensures Agree(start, Blocked(s, events, now))
  {
    DueArmed(start, s, events, now);
    WokenTimers(start, s, events);
    ScriptSilent();
    var w, e := AfterEvents(s.w, s.e.pipe, events), Woken(s.e, events);
    TimerHistory.RunFires(Script(), start, w, now);
    BlockRight(s.e, events, DueBy(w, now));
    hide Flush, Woken, ExpireAll, Wheels.Idle, Wheels.RunTo, Inv, AfterEvents, NoDup, TimersRight;
    ExpiredTimers(e, DueBy(w, now), Pending(start, w));
  }

  // Whole runs

  predicate Can(s: Timed, call: Call) {
    match call
    case Asks(r) => Proper(s.e, r) && Expires(r) < Spec.TIME_LIMIT
    case Blocks(events, _) => CanWake(s.e, events)
  }

  ghost function Do(start: nat, s: Timed, call: Call): (s': Timed)
    requires Agree(start, s) && Can(s, call)
    ensures Agree(start, s')
  {
    match call
    case Asks(r) =>
      AskAgrees(start, s, r);
      Timed(Serve(s.e, r), SetTimer(s.w, r.fd, Expires(r)))
    case Blocks(events, now) =>
      BlockAgrees(start, s, events, now);
      Blocked(s, events, now)
  }

  ghost predicate CanAll(start: nat, s: Timed, run: seq<Call>)
    requires Agree(start, s)
    decreases |run|
  {
    run == [] || (Can(s, run[0]) && CanAll(start, Do(start, s, run[0]), run[1..]))
  }

  ghost function RunAll(start: nat, s: Timed, run: seq<Call>): (s': Timed)
    requires Agree(start, s) && CanAll(start, s, run)
    ensures Agree(start, s')
    decreases |run|
  {
    if run == [] then s else RunAll(start, Do(start, s, run[0]), run[1..])
  }

  ghost function New(size: nat, pipe: Fd, self: Pid, start: Spec.Tick): (s: Timed)
    requires pipe < size
    ensures Agree(start, s)
  {
    NewAgrees(size, pipe, self, start);
    Timed(Epoll.New(size, pipe, self), SetTimer(Wheels.Empty(start), pipe, 0))
  }

  lemma NewAgrees(size: nat, pipe: Fd, self: Pid, start: Spec.Tick)
    requires pipe < size
    ensures Agree(start, Timed(Epoll.New(size, pipe, self), SetTimer(Wheels.Empty(start), pipe, 0)))
  {
    var blank := Engine(seq(size, _ => Item(Off, Off, 0, 0)), [], map[], pipe, []);
    NewRight(size, pipe, self);
    Wheels.EmptyIdle(Script(), start);
    SetRight(blank, start, Wheels.Empty(start), self, pipe, In, 0, Epoll.New(size, pipe, self).log);
    hide Inv, Wheels.Idle, TimersRight;
  }

  /** With the wheel in place of the choice of timers, the runs are runs of module Epoll. */
  lemma {:induction false} RunsThere(start: nat, s: Timed, run: seq<Call>) returns (plain: seq<Action>)
    requires Agree(start, s) && CanAll(start, s, run)
    ensures |plain| == |run| && EnabledAll(s.e, plain) && After(s.e, plain) == RunAll(start, s, run).e
    decreases |run|
  {
    plain := [];
    if run != [] {
      var a;
      match run[0] {
        case Asks(r) =>
          a := Ask(r);
        case Blocks(events, now) =>
          BlockAgrees(start, s, events, now);
          a := Block(events, DueBy(AfterEvents(s.w, s.e.pipe, events), now));
      }
      assert Enabled(s.e, a) && Epoll.Next(s.e, a) == Do(start, s, run[0]).e;
      hide Agree, Enabled, Epoll.Next, Can;
      var rest := RunsThere(start, Do(start, s, run[0]), run[1..]);
      plain := [a] + rest;
    }
  }

  /** A process is told of a timeout, after the first n entries. */
  ghost predicate Told(log: seq<Entry>, n: nat, fd: Fd, victim: Pid) {
    exists i :: n <= i < |log| && log[i] == Notified(fd, victim, Timeouted)
  }

  /** The descriptor's registration is open, and gave an expiry. */
  predicate Timing(log: seq<Entry>, fd: Fd) {
    Last(log, fd).Some? && Last(log, fd).value.Registered? && Last(log, fd).value.expires != 0
  }

  lemma TimingArmed(e: Engine, fd: Fd)
    requires Inv(e) && fd != e.pipe && (fd < |e.items| || !Timing(e.log, fd))
    ensures Timing(e.log, fd) <==> Armed(e, fd)
    ensures Armed(e, fd) ==> Last(e.log, fd) == Some(Asked(e, fd))
  {
    if fd < |e.items| {
      assert PendingRight(e, fd);
    }
  }

  lemma ToldDue(e: Engine, due: seq<Fd>, fd: Fd, victim: Pid)
    requires NoDup(due) && forall i | 0 <= i < |due| :: due[i] < |e.items|
    ensures Told(ExpireAll(e, due).log, |e.log|, fd, victim) <==> fd in due && victim == e.items[fd].victim
  {
    ExpireAllFacts(e, due);
    hide ExpireAll, NoDup;
    var log := e.log + Timeouts(e, due);
    if fd in due {
      var i :| 0 <= i < |due| && due[i] == fd;
      assert log[|e.log| + i] == Notified(fd, e.items[fd].victim, Timeouted);
    }
  }

  lemma BlockOnTime(start: nat, s: Timed, events: seq<Event>, now: TimerRuns.Deadline, fd: Fd, victim: Pid)
    requires Agree(start, s) && CanWake(s.e, events) && fd != s.e.pipe && fd < |s.e.items|
    ensures var e, w := Woken(s.e, events), AfterEvents(s.w, s.e.pipe, events);
            && Spec.Legal(Script(), start, w.log)
            && (Timing(e.log, fd) ==> fd in Pending(start, w) && Pending(start, w)[fd].expires == Last(e.log, fd).value.expires)
            && (Told(Do(start, s, Blocks(events, now)).e.log, |e.log|, fd, victim) <==>
                  Timing(e.log, fd) && Last(e.log, fd).value.victim == victim && Pending(start, w)[fd].Due() <= now)
  {
    DueArmed(start, s, events, now);
    WokenTimers(start, s, events);
    WokenRight(s.e, events);
    var w, e := AfterEvents(s.w, s.e.pipe, events), Woken(s.e, events);
    hide Flush, Woken, ExpireAll, Wheels.Idle, Wheels.RunTo, Inv, AfterEvents, NoDup, DueBy, TimersRight, Last;
    DueRight(e, start, w, now);
    TimingArmed(e, fd);
    ToldDue(e, DueBy(w, now), fd, victim);
    HasTimer(e, Pending(start, w), fd);
  }

  lemma HasTimer(e: Engine, pend: Pendings, fd: Fd)
    requires TimersRight(e, pend)
    ensures TimerOf(e, pend, fd)
  {
  }

  /** No timer that is due is left by a block. */
  lemma NoneLeft(start: nat, s: Timed, events: seq<Event>, now: TimerRuns.Deadline)
    requires Agree(start, s) && CanWake(s.e, events)
    ensures var s' := Do(start, s, Blocks(events, now));
            forall fd | Armed(s'.e, fd) :: fd in Pending(start, s'.w) && now < Pending(start, s'.w)[fd].Due()
  {
    WokenTimers(start, s, events);
    Wheels.RunIdle(Script(), start, AfterEvents(s.w, s.e.pipe, events), now);
    var s' := Do(start, s, Blocks(events, now));
    hide Flush, Woken, ExpireAll, Wheels.Idle, Wheels.RunTo, Inv, AfterEvents, NoDup, DueBy, TimersRight;
    forall fd | Armed(s'.e, fd) ensures fd in Pending(start, s'.w) && now < Pending(start, s'.w)[fd].Due() {
      HasTimer(s'.e, Pending(start, s'.w), fd);
    }
  }

  /** Over every run, at the end of every block: a process is told of a timeout just when its
      registration is still open after the events, gave an expiry, and the clock has come to
      that expiry, or to the tick of the wheel at which it was asked for if that is later;
      none that is due is left; and every notification answers one registration. */
  lemma TimeoutsOnTime(size: nat, pipe: Fd, self: Pid, start: Spec.Tick, run: seq<Call>, events: seq<Event>, now: TimerRuns.Deadline, fd: Fd, victim: Pid)
    requires pipe < size && CanAll(start, New(size, pipe, self, start), run)
    requires var s := RunAll(start, New(size, pipe, self, start), run); CanWake(s.e, events) && fd != s.e.pipe && fd < |s.e.items|
    ensures var s := RunAll(start, New(size, pipe, self, start), run);
            var e, w := Woken(s.e, events), AfterEvents(s.w, s.e.pipe, events);
            var s' := Do(start, s, Blocks(events, now));
            && Spec.Legal(Script(), start, w.log) && Spec.Legal(Script(), start, s'.w.log)
            && (Timing(e.log, fd) ==> fd in Pending(start, w) && Pending(start, w)[fd].expires == Last(e.log, fd).value.expires)
            && (Told(s'.e.log, |e.log|, fd, victim) <==>
                  Timing(e.log, fd) && Last(e.log, fd).value.victim == victim && Pending(start, w)[fd].Due() <= now)
            && (forall x | Armed(s'.e, x) :: x in Pending(start, s'.w) && now < Pending(start, s'.w)[x].Due())
            && OneShot(s'.e.log)
  {
    var s := RunAll(start, New(size, pipe, self, start), run);
    BlockOnTime(start, s, events, now, fd, victim);
    NoneLeft(start, s, events, now);
    hide CanAll, RunAll, CanWake, Woken, AfterEvents, Told, TimersRight;
  }
}
