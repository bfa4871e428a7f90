/** The engine's process, on its table of descriptors in place. */
module EpollEngine {
  import opened Epoll
  import opened EpollAnswers
  import opened Seqs

  class LocalData {
    const pipeRead: Fd
    const items: array<Item>
    var changed: seq<Fd>
    /** What `epoll_ctl` has told the kernel. */
    var kernel: map<Fd, Mask>
    var log: seq<Entry>

    ghost function View(): Engine
      reads this, items
    {
      Engine(items[..], changed, kernel, pipeRead, log)
    }

    /** `epoll_constructor` */
    constructor (size: nat, pipeRead: Fd, self: Pid)
      requires pipeRead < size
      ensures View() == New(size, pipeRead, self) && Inv(View()) && fresh(items)
    {
      this.pipeRead := pipeRead;
      items := new Item[size](_ => Item(Off, Off, 0, 0));
      changed, kernel, log := [], map[], [];
      new;
      assert items[..] == seq(size, _ => Item(Off, Off, 0, 0));
      NewRight(size, pipeRead, self);
      Change(self, pipeRead, In, 0);
      log := log + [Registered(pipeRead, self, In, 0)];
    }

    /** `schedule_change` */
    method Change(victim: Pid, fd: Fd, newMask: Mask, expires: nat)
      requires fd < items.Length
      modifies this`changed, items
      ensures View() == ScheduleChange(old(View()), victim, fd, newMask, expires)
    {
      var item := items[fd];
      if newMask == item.epollMask {
        if fd in changed {
          changed := Without(changed, fd);
        } else {
          WithoutNone(changed, fd);
        }
      } else {
        if fd !in changed {
          changed := changed + [fd];
        }
      }
      items[fd] := Item(newMask, item.epollMask, victim, expires);
    }

    /** `process_callback`, for its three requests */
    method ProcessCallback(r: Request)
      requires Inv(View()) && Proper(View(), r)
      modifies this`changed, this`log, items
      ensures Inv(View()) && View() == Serve(old(View()), r)
      ensures log == old(log) + [Taken(r)]
      ensures items[r.fd].newMask == (if r.Register? then r.mask else Off) && (r.Register? ==> Victim(log, r.fd) == r.victim)
      ensures forall fd | 0 <= fd < items.Length && fd != r.fd :: items[fd] == old(items[fd])
    {
      ServeRight(View(), r);
      RequestTaken(View(), r);
      hide Inv, ScheduleChange;
      match r {
        case Register(fd, victim, mask, expires) =>
          Change(victim, fd, mask, expires);
          log := log + [Registered(fd, victim, mask, expires)];
        case Unregister(fd, victim) =>
          Change(victim, fd, Off, 0);
          log := log + [Unregistered(fd)];
      }
    }

    /** The first loop of `process_block`.  The calls of `epoll_ctl` are legal, and the call
        of `fatal` is not reached. */
    method FlushChanges()
      requires Inv(View())
      modifies this`changed, this`kernel, items
      ensures Inv(View()) && View() == Flush(old(View())) && changed == []
    {
      FlushRight(View());
      assert ChangedRight(View()) && Mirror(View());
      hide Inv, SameRequests, ChangedRight, Mirror;
      while changed != []
        invariant ChangedRight(View()) && Mirror(View()) && Flush(View()) == Flush(old(View()))
        decreases |changed|
      {
        TurnRight(View());
        Turn();
      }
    }

    /** Its body. */
    method Turn()
      requires TurnLegal(View())
      modifies this`changed, this`kernel, items
      ensures View() == FlushOne(old(View()))
    {
      var fd := changed[0];
      var item := items[fd];
      changed := changed[1..];
      if item.newMask != Off {
        if item.epollMask == Off {
          assert Accepts(kernel, Add, fd);
          kernel := Ctl(kernel, Add, fd, item.newMask);
        } else {
          assert Accepts(kernel, Mod, fd);
          kernel := Ctl(kernel, Mod, fd, item.newMask);
        }
      } else {
        assert item.epollMask != Off && Accepts(kernel, Del, fd);
        kernel := Ctl(kernel, Del, fd, item.newMask);
      }
      items[fd] := item.(epollMask := item.newMask);
    }

    /** The loop of `process_block` over the events. */
    method HandleEvents(events: seq<Event>)
      requires forall i | 0 <= i < |events| :: events[i].fd < items.Length && (events[i].readable || events[i].writable || events[i].failed)
      modifies this`changed, this`log, items
      ensures View() == HandleAll(old(View()), events)
      ensures old(Inv(View())) && EventsApart(events) && (forall i | 0 <= i < |events| :: Awaited(old(View()), events[i])) ==>
                log == old(log) + Replies(old(log), pipeRead, events)
    {
      if Inv(View()) && EventsApart(events) && forall i | 0 <= i < |events| :: Awaited(View(), events[i]) {
        HandleAllReplies(View(), events);
      }
      hide ScheduleChange, Inv, EventsApart, Awaited, Replies;
      var i := 0;
      assert events[0..] == events;
      while i < |events|
        invariant 0 <= i <= |events|
        invariant HandleAll(View(), events[i..]) == HandleAll(old(View()), events)
      {
        assert events[i..][0] == events[i] && events[i..][1..] == events[i + 1..];
        HandleOne(events[i]);
        i := i + 1;
      }
    }

    /** Its body. */
    method HandleOne(ev: Event)
      requires ev.fd < items.Length && (ev.readable || ev.writable || ev.failed)
      modifies this`changed, this`log, items
      ensures View() == Handle(old(View()), ev)
    {
      hide ScheduleChange;
      var victim := items[ev.fd].victim;
      var kind;
      if ev.readable {
        if ev.fd == pipeRead {
          return;
        }
        kind := Read;
      } else if ev.writable {
        kind := Write;
      } else {
        kind := Close;
      }
      log := log + [Notified(ev.fd, victim, kind)];
      ghost var before := View();
      Change(0, ev.fd, Off, 0);
      ScheduleLog(before, 0, ev.fd, Off, 0, old(log));
    }

    /** `timer_callback` */
    method TimerCallback(fd: Fd)
      requires fd < items.Length
      modifies this`changed, this`log, items
      ensures View() == Expire(old(View()), fd)
    {
      hide ScheduleChange;
      log := log + [Notified(fd, items[fd].victim, Timeouted)];
      ghost var before := View();
      Change(items[fd].victim, fd, Off, 0);
      ScheduleLog(before, before.items[fd].victim, fd, Off, 0, old(log));
    }

    /** `timers_run`, for the timers that are due. */
    method TimersRun(due: seq<Fd>)
      requires forall i | 0 <= i < |due| :: due[i] < items.Length
      modifies this`changed, this`log, items
      ensures View() == ExpireAll(old(View()), due)
    {
      hide ScheduleChange;
      var i := 0;
      assert due[0..] == due;
      while i < |due|
        invariant 0 <= i <= |due|
        invariant ExpireAll(View(), due[i..]) == ExpireAll(old(View()), due)
      {
        assert due[i..][0] == due[i] && due[i..][1..] == due[i + 1..];
        TimerCallback(due[i]);
        i := i + 1;
      }
    }

    /** `process_block` */
    method ProcessBlock(events: seq<Event>, due: seq<Fd>)
      requires Inv(View()) && CanBlock(View(), events, due)
      modifies this, items
      ensures Inv(View()) && View() == Next(old(View()), Block(events, due))
      ensures log == old(log) + Replies(old(log), pipeRead, events) + Expiries(old(log), due)
      ensures forall fd | 0 <= fd < items.Length && (Reported(pipeRead, events, fd) || fd in due) :: items[fd].newMask == Off
    {
      BlockRight(View(), events, due);
      BlockReplies(View(), events, due);
      hide Reported, Replies, Expiries;
      hide Inv, Flush, HandleAll, ExpireAll;
      FlushChanges();
      assert forall i | 0 <= i < |events| :: Happens(View(), events[i]);
      HandleEvents(events);
      assert forall i | 0 <= i < |due| :: Armed(View(), due[i]);
      TimersRun(due);
    }
  }

  /** Scheduling does not look at the log. */
  lemma ScheduleLog(e: Engine, victim: Pid, fd: Fd, mask: Mask, expires: nat, log: seq<Entry>)
    requires fd < |e.items|
    ensures ScheduleChange(e.(log := log), victim, fd, mask, expires).(log := e.log) == ScheduleChange(e, victim, fd, mask, expires)
  {
  }
}
