/** The epoll engine: interests asked for by processes, changes batched until the engine
    blocks, and the interests the kernel has. */
module Epoll {
  import opened Wrappers
  import opened Seqs

  type Fd = nat
  type Pid = nat

  datatype Mask = Off | In | Out

  /** What `sd->map` has for a descriptor; `timer`: when it expires, 0 if it is not armed. */
  datatype Item = Item(newMask: Mask, epollMask: Mask, victim: Pid, timer: nat)

  datatype Kind = Read | Write | Close | Timeouted

  /** What happened, for a descriptor: a process asked for it, or gave it up, or was told. */
  datatype Entry = Registered(fd: Fd, victim: Pid, mask: Mask, expires: nat) | Unregistered(fd: Fd) | Notified(fd: Fd, victim: Pid, kind: Kind)

  /** `changed`: the descriptors to tell the kernel about; `kernel`: the ones it watches;
      `pipe`: the read end of the wake pipe. */
  datatype Engine = Engine(items: seq<Item>, changed: seq<Fd>, kernel: map<Fd, Mask>, pipe: Fd, log: seq<Entry>)

  /** An event that `epoll_wait` returns. */
  datatype Event = Event(fd: Fd, readable: bool, writable: bool, failed: bool)

  /** `schedule_change` */
  function ScheduleChange(e: Engine, victim: Pid, fd: Fd, mask: Mask, expires: nat): Engine
    requires fd < |e.items|
  {
    e.(items := e.items[fd := e.items[fd].(newMask := mask, victim := victim, timer := expires)],
       changed := if mask == e.items[fd].epollMask then Without(e.changed, fd)
                  else if fd in e.changed then e.changed else e.changed + [fd])
  }

  /** The requests that `process_callback` takes. */
  datatype Request = Register(fd: Fd, victim: Pid, mask: Mask, expires: nat) | Unregister(fd: Fd, victim: Pid)

  function Serve(e: Engine, r: Request): Engine
    requires r.fd < |e.items|
  {
    match r
    case Register(fd, victim, mask, expires) => ScheduleChange(e, victim, fd, mask, expires).(log := e.log + [Registered(fd, victim, mask, expires)])
    case Unregister(fd, victim) => ScheduleChange(e, victim, fd, Off, 0).(log := e.log + [Unregistered(fd)])
  }

  datatype Op = Add | Mod | Del

  /** What `epoll_ctl` accepts: to add what it does not watch, and to change or drop what
      it watches. */
  predicate Accepts(kernel: map<Fd, Mask>, op: Op, fd: Fd) {
    if op == Add then fd !in kernel else fd in kernel
  }

  function Ctl(kernel: map<Fd, Mask>, op: Op, fd: Fd, mask: Mask): map<Fd, Mask> {
    if op == Del then kernel - {fd} else kernel[fd := mask]
  }

  /** The call that the loop in `process_block` makes for an item. */
  function OpFor(item: Item): Op {
    if item.newMask == Off then Del else if item.epollMask == Off then Add else Mod
  }

  /** Its call to `fatal`. */
  predicate Fatal(item: Item) {
    item.newMask == Off && item.epollMask == Off
  }

  /** One turn of that loop. */
  function FlushOne(e: Engine): Engine
    requires e.changed != [] && e.changed[0] < |e.items|
  {
    var fd := e.changed[0];
    var item := e.items[fd];
    e.(changed := e.changed[1..],
       kernel := Ctl(e.kernel, OpFor(item), fd, item.newMask),
       items := e.items[fd := item.(epollMask := item.newMask)])
  }

  function Flush(e: Engine): Engine
    decreases |e.changed|
  {
    if e.changed == [] || e.changed[0] >= |e.items| then e else Flush(FlushOne(e))
  }

  /** The kernel watches this, and for what happened. */
  predicate Happens(e: Engine, ev: Event) {
    && ev.fd < |e.items| && ev.fd in e.kernel
    && (ev.readable || ev.writable || ev.failed)
    && (ev.readable ==> e.kernel[ev.fd] == In) && (ev.writable ==> e.kernel[ev.fd] == Out)
    && (ev.fd == e.pipe ==> ev.readable)
  }

  function KindOf(ev: Event): Kind {
    if ev.readable then Read else if ev.writable then Write else Close
  }

  /** What `process_block` does for an event; the byte in the wake pipe is just read. */
  function Handle(e: Engine, ev: Event): Engine
    requires ev.fd < |e.items|
  {
    if ev.readable && ev.fd == e.pipe then e
    else ScheduleChange(e, 0, ev.fd, Off, 0).(log := e.log + [Notified(ev.fd, e.items[ev.fd].victim, KindOf(ev))])
  }

  function HandleAll(e: Engine, events: seq<Event>): Engine
    requires forall i | 0 <= i < |events| :: events[i].fd < |e.items|
    decreases |events|
  {
    if events == [] then e else HandleAll(Handle(e, events[0]), events[1..])
  }

  /** `timer_callback` */
  function Expire(e: Engine, fd: Fd): Engine
    requires fd < |e.items|
  {
    ScheduleChange(e, e.items[fd].victim, fd, Off, 0).(log := e.log + [Notified(fd, e.items[fd].victim, Timeouted)])
  }

  function ExpireAll(e: Engine, due: seq<Fd>): Engine
    requires forall i | 0 <= i < |due| :: due[i] < |e.items|
    decreases |due|
  {
    if due == [] then e else ExpireAll(Expire(e, due[0]), due[1..])
  }

  // Invariants

  /** A descriptor is in `changed`, once, just when the kernel does not have its mask. */
  ghost predicate ChangedRight(e: Engine) {
    && NoDup(e.changed)
    && forall fd: Fd :: fd in e.changed <==> fd < |e.items| && e.items[fd].newMask != e.items[fd].epollMask
  }

  /** The kernel has what the items say it has. */
  ghost predicate Mirror(e: Engine) {
    && (forall fd: Fd | fd in e.kernel :: fd < |e.items|)
    && (forall fd | 0 <= fd < |e.items| :: MirrorAt(e, fd))
  }

  predicate MirrorAt(e: Engine, fd: Fd)
    requires fd < |e.items|
  {
    if e.items[fd].epollMask == Off then fd !in e.kernel
    else fd in e.kernel && e.kernel[fd] == e.items[fd].epollMask
  }

  /** The last thing that happened to a descriptor. */
  function Last(log: seq<Entry>, fd: Fd): Option<Entry> {
    if log == [] then None
    else if log[|log| - 1].fd == fd then Some(log[|log| - 1])
    else Last(log[..|log| - 1], fd)
  }

  /** A descriptor is waited for just when the last thing that happened to it is that the
      victim asked for it. */
  predicate PendingRight(e: Engine, fd: Fd)
    requires fd < |e.items|
  {
    && (fd != e.pipe ==>
        if e.items[fd].newMask == Off then !(Last(e.log, fd).Some? && Last(e.log, fd).value.Registered?)
        else Last(e.log, fd) == Some(Registered(fd, e.items[fd].victim, e.items[fd].newMask, e.items[fd].timer)))
    && (e.items[fd].timer != 0 ==> e.items[fd].newMask != Off)
  }

  predicate PipeRight(e: Engine) {
    e.pipe < |e.items| && e.items[e.pipe].newMask == In && e.items[e.pipe].timer == 0
  }

  /** A notification is what a registration asked for: of the same process, to read or to
      write as it said, and a timeout only if it gave one. */
  predicate Answers(told: Entry, asked: Entry) {
    && told.Notified? && asked.Registered? && told.fd == asked.fd && told.victim == asked.victim
    && (told.kind == Read ==> asked.mask == In)
    && (told.kind == Write ==> asked.mask == Out)
    && (told.kind == Timeouted ==> asked.expires != 0)
  }

  /** Every notification answers a registration, with nothing for that descriptor in
      between. */
  predicate OneShot(log: seq<Entry>) {
    forall i | 0 <= i < |log| && log[i].Notified? ::
      Last(log[..i], log[i].fd).Some? && Answers(log[i], Last(log[..i], log[i].fd).value)
  }

  ghost predicate Inv(e: Engine) {
    && ChangedRight(e)
    && Mirror(e)
    && (forall fd | 0 <= fd < |e.items| :: PendingRight(e, fd))
    && PipeRight(e)
    && OneShot(e.log)
  }

  lemma ScheduleRight(e: Engine, victim: Pid, fd: Fd, mask: Mask, expires: nat)
    requires fd < |e.items| && ChangedRight(e) && Mirror(e)
    ensures ChangedRight(ScheduleChange(e, victim, fd, mask, expires)) && Mirror(ScheduleChange(e, victim, fd, mask, expires))
  {
    var e' := ScheduleChange(e, victim, fd, mask, expires);
    WithoutFacts(e.changed, fd);
    if fd !in e.changed {
      ConsNoDup(fd, e.changed);
    }
    hide NoDup;
    forall x | 0 <= x < |e'.items| ensures MirrorAt(e', x) {
      assert MirrorAt(e, x);
    }
  }

  lemma LastSnoc(log: seq<Entry>, entry: Entry, fd: Fd)
    ensures Last(log + [entry], fd) == if entry.fd == fd then Some(entry) else Last(log, fd)
  {
    assert (log + [entry])[..|log|] == log;
  }

  lemma OneShotSnoc(log: seq<Entry>, entry: Entry)
    requires OneShot(log)
    requires entry.Notified? ==> Last(log, entry.fd).Some? && Answers(entry, Last(log, entry.fd).value)
    ensures OneShot(log + [entry])
  {
    var log' := log + [entry];
    forall i | 0 <= i < |log'| && log'[i].Notified?
      ensures Last(log'[..i], log'[i].fd).Some? && Answers(log'[i], Last(log'[..i], log'[i].fd).value)
    {
      assert log'[..i] == log[..i];
      assert log[..|log|] == log;
    }
  }

  /** What the item of a descriptor says that was asked for. */
  function Asked(e: Engine, fd: Fd): Entry
    requires fd < |e.items|
  {
    Registered(fd, e.items[fd].victim, e.items[fd].newMask, e.items[fd].timer)
  }

  /** What the log gains says what becomes of the descriptor. */
  lemma LoggedRight(e: Engine, victim: Pid, fd: Fd, mask: Mask, expires: nat, entry: Entry)
    requires Inv(e) && fd < |e.items| && fd != e.pipe && entry.fd == fd
    requires entry == Registered(fd, victim, mask, expires) <==> mask != Off
    requires entry.Registered? ==> mask != Off
    requires expires != 0 ==> mask != Off
    requires entry.Notified? ==> e.items[fd].newMask != Off && Answers(entry, Asked(e, fd))
    ensures Inv(ScheduleChange(e, victim, fd, mask, expires).(log := e.log + [entry]))
  {
    ScheduleRight(e, victim, fd, mask, expires);
    assert PendingRight(e, fd);
    OneShotSnoc(e.log, entry);
    var e' := ScheduleChange(e, victim, fd, mask, expires).(log := e.log + [entry]);
    forall x | 0 <= x < |e'.items| ensures PendingRight(e', x) {
      assert PendingRight(e, x);
      LastSnoc(e.log, entry, x);
    }
    hide Last, OneShot, PendingRight, NoDup;
    ChangedLogged(ScheduleChange(e, victim, fd, mask, expires), e.log + [entry]);
  }

  lemma ChangedLogged(e: Engine, log: seq<Entry>)
    requires ChangedRight(e) && Mirror(e)
    ensures ChangedRight(e.(log := log)) && Mirror(e.(log := log))
  {
    forall fd | 0 <= fd < |e.items| ensures MirrorAt(e.(log := log), fd) {
      assert MirrorAt(e, fd);
    }
  }

  /** A user asks for a mask, and not for the engine's own pipe. */
  predicate Proper(e: Engine, r: Request) {
    r.fd < |e.items| && r.fd != e.pipe && (r.Register? ==> r.mask != Off)
  }

  lemma ServeRight(e: Engine, r: Request)
    requires Inv(e) && Proper(e, r)
    ensures Inv(Serve(e, r))
  {
    match r {
      case Register(fd, victim, mask, expires) => LoggedRight(e, victim, fd, mask, expires, Registered(fd, victim, mask, expires));
      case Unregister(fd, victim) => LoggedRight(e, victim, fd, Off, 0, Unregistered(fd));
    }
  }

  // process_block: the changes

  /** In a turn of the loop the kernel accepts the call, and `fatal` is out of reach. */
  predicate TurnLegal(e: Engine) {
    && e.changed != [] && e.changed[0] < |e.items|
    && !Fatal(e.items[e.changed[0]])
    && Accepts(e.kernel, OpFor(e.items[e.changed[0]]), e.changed[0])
  }

  predicate FlushLegal(e: Engine)
    decreases |e.changed|
  {
    e.changed == [] || (TurnLegal(e) && FlushLegal(FlushOne(e)))
  }

  /** Nothing but what the kernel has changes. */
  predicate SameRequests(e: Engine, e': Engine) {
    && |e'.items| == |e.items| && e'.log == e.log && e'.pipe == e.pipe
    && forall fd | 0 <= fd < |e.items| :: e'.items[fd].(epollMask := Off) == e.items[fd].(epollMask := Off)
  }

  lemma TurnRight(e: Engine)
    requires ChangedRight(e) && Mirror(e) && e.changed != []
    ensures TurnLegal(e) && ChangedRight(FlushOne(e)) && Mirror(FlushOne(e)) && SameRequests(e, FlushOne(e))
  {
    assert e.changed[0] in e.changed;
    var e' := FlushOne(e);
    FirstOnly(e.changed);
    assert MirrorAt(e, e.changed[0]);
    forall fd | 0 <= fd < |e'.items| ensures MirrorAt(e', fd) {
      assert MirrorAt(e, fd);
    }
  }

  lemma SamePending(e: Engine, e': Engine)
    requires Inv(e) && SameRequests(e, e') && ChangedRight(e') && Mirror(e')
    ensures Inv(e')
  {
    forall fd | 0 <= fd < |e'.items| ensures PendingRight(e', fd) {
      assert PendingRight(e, fd);
      assert e'.items[fd].(epollMask := Off) == e.items[fd].(epollMask := Off);
    }
    assert e'.items[e.pipe].(epollMask := Off) == e.items[e.pipe].(epollMask := Off);
  }

  /** Batched changes: every call to the kernel is legal, and in the end it watches just
      what was asked for last. */
  lemma {:induction false} FlushRight(e: Engine)
    requires Inv(e)
    ensures FlushLegal(e) && Inv(Flush(e)) && SameRequests(e, Flush(e)) && Flush(e).changed == []
    ensures forall fd | 0 <= fd < |e.items| ::
              if e.items[fd].newMask == Off then fd !in Flush(e).kernel
              else fd in Flush(e).kernel && Flush(e).kernel[fd] == e.items[fd].newMask
    decreases |e.changed|
  {
    if e.changed != [] {
      TurnRight(e);
      var e' := FlushOne(e);
      SamePending(e, e');
      hide Inv, ChangedRight, Mirror, FlushOne;
      FlushRight(e');
      forall fd | 0 <= fd < |e.items| ensures e'.items[fd].newMask == e.items[fd].newMask {
        assert e'.items[fd].(epollMask := Off) == e.items[fd].(epollMask := Off);
      }
    } else {
      forall fd | 0 <= fd < |e.items| ensures e.items[fd].newMask == e.items[fd].epollMask && MirrorAt(e, fd) {
        assert fd !in e.changed;
      }
    }
  }

  // process_block: the events, and the timers

  /** The event is one that is waited for. */
  predicate Awaited(e: Engine, ev: Event) {
    && ev.fd < |e.items| && e.items[ev.fd].newMask != Off
    && (ev.readable ==> e.items[ev.fd].newMask == In) && (ev.writable ==> e.items[ev.fd].newMask == Out)
    && (ev.fd == e.pipe ==> ev.readable)
  }

  predicate EventsApart(events: seq<Event>) {
    forall i, j | 0 <= i < j < |events| :: events[i].fd != events[j].fd
  }

  lemma HandleRight(e: Engine, ev: Event)
    requires Inv(e) && Awaited(e, ev)
    ensures Inv(Handle(e, ev)) && |Handle(e, ev).items| == |e.items| && Handle(e, ev).pipe == e.pipe
    ensures forall fd | 0 <= fd < |e.items| && fd != ev.fd :: Handle(e, ev).items[fd] == e.items[fd]
  {
    if !(ev.readable && ev.fd == e.pipe) {
      LoggedRight(e, 0, ev.fd, Off, 0, Notified(ev.fd, e.items[ev.fd].victim, KindOf(ev)));
    }
  }

  lemma {:induction false} HandleAllRight(e: Engine, events: seq<Event>)
    requires Inv(e) && EventsApart(events)
    requires forall i | 0 <= i < |events| :: events[i].fd < |e.items| && Awaited(e, events[i])
    ensures Inv(HandleAll(e, events)) && |HandleAll(e, events).items| == |e.items| && HandleAll(e, events).pipe == e.pipe
    decreases |events|
  {
    hide Inv, Handle;
    if events != [] {
      HandleRight(e, events[0]);
      var e' := Handle(e, events[0]);
      forall i | 0 <= i < |events| - 1 ensures Awaited(e', events[1..][i]) {
        assert events[1..][i] == events[i + 1] && Awaited(e, events[i + 1]);
      }
      HandleAllRight(e', events[1..]);
    }
  }

  predicate Armed(e: Engine, fd: Fd) {
    fd < |e.items| && e.items[fd].timer != 0
  }

  lemma ExpireRight(e: Engine, fd: Fd)
    requires Inv(e) && Armed(e, fd)
    ensures Inv(Expire(e, fd)) && |Expire(e, fd).items| == |e.items|
    ensures forall x | 0 <= x < |e.items| && x != fd :: Expire(e, fd).items[x] == e.items[x]
  {
    assert PendingRight(e, fd);
    LoggedRight(e, e.items[fd].victim, fd, Off, 0, Notified(fd, e.items[fd].victim, Timeouted));
  }

  lemma {:induction false} ExpireAllRight(e: Engine, due: seq<Fd>)
    requires Inv(e) && NoDup(due) && forall i | 0 <= i < |due| :: due[i] < |e.items| && Armed(e, due[i])
    ensures Inv(ExpireAll(e, due))
    decreases |due|
  {
    hide Inv, Expire;
    if due != [] {
      ExpireRight(e, due[0]);
      forall i | 0 <= i < |due| - 1 ensures Armed(Expire(e, due[0]), due[1..][i]) {
        assert due[1..][i] == due[i + 1] && Armed(e, due[i + 1]);
      }
      ExpireAllRight(Expire(e, due[0]), due[1..]);
    }
  }

  // Whole runs

  /** A request, or a block that ends with these events and, after them, these timers. */
  datatype Action = Ask(r: Request) | Block(events: seq<Event>, due: seq<Fd>)

  /** What the kernel may report of the descriptors it watches, once each. */
  predicate CanWake(e: Engine, events: seq<Event>) {
    EventsApart(events) && forall i | 0 <= i < |events| :: Happens(Flush(e), events[i])
  }

  /** Where the engine is when the timers are run. */
  function Woken(e: Engine, events: seq<Event>): Engine
    requires CanWake(e, events)
  {
    HandleAll(Flush(e), events)
  }

  /** Which timers may run out: those that are still armed after the events. */
  predicate CanBlock(e: Engine, events: seq<Event>, due: seq<Fd>) {
    && CanWake(e, events)
    && NoDup(due)
    && (forall i | 0 <= i < |due| :: Armed(Woken(e, events), due[i]))
  }

  predicate Enabled(e: Engine, a: Action) {
    match a
    case Ask(r) => Proper(e, r)
    case Block(events, due) => CanBlock(e, events, due)
  }

  function Next(e: Engine, a: Action): Engine
    requires Enabled(e, a)
  {
    match a
    case Ask(r) => Serve(e, r)
    case Block(events, due) => ExpireAll(Woken(e, events), due)
  }

  lemma WatchedAwaited(e: Engine, ev: Event)
    requires Inv(e) && e.changed == [] && Happens(e, ev)
    ensures Awaited(e, ev)
  {
    assert MirrorAt(e, ev.fd);
    assert ev.fd !in e.changed;
  }

  lemma WokenRight(e: Engine, events: seq<Event>)
    requires Inv(e) && CanWake(e, events)
    ensures FlushLegal(e) && Inv(Woken(e, events)) && |Woken(e, events).items| == |e.items| && Woken(e, events).pipe == e.pipe
  {
    FlushRight(e);
    assert |Flush(e).items| == |e.items| && Flush(e).pipe == e.pipe;
    hide Inv, Flush, SameRequests, HandleAll;
    forall i | 0 <= i < |events| ensures Awaited(Flush(e), events[i]) {
      assert Happens(Flush(e), events[i]);
      WatchedAwaited(Flush(e), events[i]);
    }
    HandleAllRight(Flush(e), events);
  }

  lemma BlockRight(e: Engine, events: seq<Event>, due: seq<Fd>)
    requires Inv(e) && CanBlock(e, events, due)
    ensures FlushLegal(e) && Inv(Next(e, Block(events, due)))
  {
    hide Inv, Flush, HandleAll;
    WokenRight(e, events);
    ExpireAllRight(Woken(e, events), due);
  }

  lemma NextRight(e: Engine, a: Action)
    requires Inv(e) && Enabled(e, a)
    ensures Inv(Next(e, a))
  {
    match a {
      case Ask(r) => ServeRight(e, r);
      case Block(events, due) => BlockRight(e, events, due);
    }
  }

  /** `epoll_constructor` */
  function New(size: nat, pipe: Fd, self: Pid): Engine
    requires pipe < size
  {
    Serve(Engine(seq(size, _ => Item(Off, Off, 0, 0)), [], map[], pipe, []), Register(pipe, self, In, 0))
  }

  lemma BlankRight(size: nat, pipe: Fd)
    ensures var e := Engine(seq(size, _ => Item(Off, Off, 0, 0)), [], map[], pipe, []); ChangedRight(e) && Mirror(e)
  {
  }

  lemma NewRight(size: nat, pipe: Fd, self: Pid)
    requires pipe < size
    ensures Inv(New(size, pipe, self))
  {
    var blank := Engine(seq(size, _ => Item(Off, Off, 0, 0)), [], map[], pipe, []);
    var e := ScheduleChange(blank, self, pipe, In, 0);
    var log := [Registered(pipe, self, In, 0)];
    assert blank.log + log == log;
    BlankRight(size, pipe);
    ScheduleRight(blank, self, pipe, In, 0);
    ChangedLogged(e, log);
    hide ChangedRight, Mirror;
    forall fd | 0 <= fd < size ensures PendingRight(e.(log := log), fd) {
      LastSnoc([], log[0], fd);
      assert [] + log == log;
    }
  }

  predicate EnabledAll(e: Engine, run: seq<Action>)
    decreases |run|
  {
    run == [] || (Enabled(e, run[0]) && EnabledAll(Next(e, run[0]), run[1..]))
  }

  function After(e: Engine, run: seq<Action>): Engine
    requires EnabledAll(e, run)
    decreases |run|
  {
    if run == [] then e else After(Next(e, run[0]), run[1..])
  }

  lemma {:induction false} RunRight(e: Engine, run: seq<Action>)
    requires Inv(e) && EnabledAll(e, run)
    ensures Inv(After(e, run))
    decreases |run|
  {
    hide Inv, Enabled, Next;
    if run != [] {
      NextRight(e, run[0]);
      RunRight(Next(e, run[0]), run[1..]);
    }
  }

  function Registrations(log: seq<Entry>, fd: Fd): nat {
    if log == [] then 0
    else Registrations(log[..|log| - 1], fd) + if log[|log| - 1].Registered? && log[|log| - 1].fd == fd then 1 else 0
  }

  function Notifications(log: seq<Entry>, fd: Fd): nat {
    if log == [] then 0
    else Notifications(log[..|log| - 1], fd) + if log[|log| - 1].Notified? && log[|log| - 1].fd == fd then 1 else 0
  }

  /** One shot: at most one notification for each registration, and none left over for one
      that is still open. */
  lemma {:induction false} OneShotCounts(log: seq<Entry>, fd: Fd)
    requires OneShot(log)
    ensures Notifications(log, fd) + (if Last(log, fd).Some? && Last(log, fd).value.Registered? then 1 else 0) <= Registrations(log, fd)
  {
    if log != [] {
      var front := log[..|log| - 1];
      assert forall i | 0 <= i < |front| :: front[..i] == log[..i];
      OneShotCounts(front, fd);
    }
  }

  /** Over every run: a notification goes to the process that asked last, says what it asked
      for, and answers its request alone; so an event and a timeout never both answer one
      request. */
  lemma NotifiedOnce(size: nat, pipe: Fd, self: Pid, run: seq<Action>, fd: Fd)
    requires pipe < size && EnabledAll(New(size, pipe, self), run)
    ensures var log := After(New(size, pipe, self), run).log;
            OneShot(log) && Notifications(log, fd) <= Registrations(log, fd)
  {
    NewRight(size, pipe, self);
    RunRight(New(size, pipe, self), run);
    OneShotCounts(After(New(size, pipe, self), run).log, fd);
  }

  /** Whenever the engine blocks, the calls it makes to the kernel are legal, and it then
      watches what was last asked for: in particular its own pipe. */
  lemma BlocksRight(size: nat, pipe: Fd, self: Pid, run: seq<Action>)
    requires pipe < size && EnabledAll(New(size, pipe, self), run)
    ensures var e := After(New(size, pipe, self), run);
            && FlushLegal(e)
            && (forall fd | 0 <= fd < |e.items| ::
                 if e.items[fd].newMask == Off then fd !in Flush(e).kernel
                 else fd in Flush(e).kernel && Flush(e).kernel[fd] == e.items[fd].newMask)
            && e.pipe in Flush(e).kernel && Flush(e).kernel[e.pipe] == In
  {
    NewRight(size, pipe, self);
    RunRight(New(size, pipe, self), run);
    FlushRight(After(New(size, pipe, self), run));
  }
}
