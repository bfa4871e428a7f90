/** What a block tells whom: read off the history of requests alone. */
module EpollAnswers {
  import opened Wrappers
  import opened Seqs
  import opened Epoll

  /** The process that registered last for a descriptor. */
  function Victim(log: seq<Entry>, fd: Fd): Pid {
    var last := Last(log, fd);
    if last.Some? && last.value.Registered? then last.value.victim else 0
  }

  /** The answer to an event: a readable descriptor is told so, else a writable one, else it
      has failed. */
  function Reply(log: seq<Entry>, ev: Event): Entry {
    Notified(ev.fd, Victim(log, ev.fd), if ev.readable then Read else if ev.writable then Write else Close)
  }

  /** One answer for each event, in this order, but none for the wake pipe. */
  function Replies(log: seq<Entry>, pipe: Fd, events: seq<Event>): seq<Entry> {
    if events == [] then []
    else (if events[0].fd == pipe then [] else [Reply(log, events[0])]) + Replies(log, pipe, events[1..])
  }

  /** One for each timer that runs out. */
  function Expiries(log: seq<Entry>, due: seq<Fd>): seq<Entry> {
    if due == [] then [] else [Notified(due[0], Victim(log, due[0]), Timeouted)] + Expiries(log, due[1..])
  }

  /** Somebody is told about the descriptor. */
  ghost predicate Reported(pipe: Fd, events: seq<Event>, fd: Fd) {
    fd != pipe && exists i :: 0 <= i < |events| && events[i].fd == fd
  }

  lemma AskedVictim(e: Engine, fd: Fd)
    requires Inv(e) && fd < |e.items| && fd != e.pipe && e.items[fd].newMask != Off
    ensures e.items[fd].victim == Victim(e.log, fd)
  {
    assert PendingRight(e, fd);
  }

  lemma {:induction false} RepliesSame(log: seq<Entry>, entry: Entry, pipe: Fd, events: seq<Event>)
    requires forall i | 0 <= i < |events| :: events[i].fd != entry.fd
    ensures Replies(log + [entry], pipe, events) == Replies(log, pipe, events)
  {
    if events != [] {
      LastSnoc(log, entry, events[0].fd);
      RepliesSame(log, entry, pipe, events[1..]);
    }
  }

  lemma {:induction false} ExpiriesSame(log: seq<Entry>, entry: Entry, due: seq<Fd>)
    requires entry.fd !in due
    ensures Expiries(log + [entry], due) == Expiries(log, due)
  {
    if due != [] {
      LastSnoc(log, entry, due[0]);
      ExpiriesSame(log, entry, due[1..]);
    }
  }

  /** An event is answered, and nothing else is. */
  lemma HandleReplies(e: Engine, ev: Event)
    requires Inv(e) && Awaited(e, ev)
    ensures var e' := Handle(e, ev);
            && e'.log == e.log + (if ev.fd == e.pipe then [] else [Reply(e.log, ev)])
            && |e'.items| == |e.items| && e'.pipe == e.pipe
            && (ev.fd != e.pipe ==> e'.items[ev.fd].newMask == Off && e'.items[ev.fd].timer == 0)
            && (forall fd | 0 <= fd < |e.items| && (fd != ev.fd || fd == e.pipe) :: e'.items[fd] == e.items[fd])
  {
    if ev.fd != e.pipe {
      AskedVictim(e, ev.fd);
    }
    hide Inv, Victim;
  }

  lemma {:induction false} HandleAllReplies(e: Engine, events: seq<Event>)
    requires Inv(e) && EventsApart(events) && forall i | 0 <= i < |events| :: events[i].fd < |e.items| && Awaited(e, events[i])
    ensures var e' := HandleAll(e, events);
            && e'.log == e.log + Replies(e.log, e.pipe, events) && |e'.items| == |e.items| && e'.pipe == e.pipe
            && forall fd | 0 <= fd < |e.items| ::
                 if Reported(e.pipe, events, fd) then e'.items[fd].newMask == Off && e'.items[fd].timer == 0 else e'.items[fd] == e.items[fd]
    decreases |events|
  {
    hide Inv;
    if events != [] {
      var ev, rest := events[0], events[1..];
      assert Reply(e.log, ev).fd == ev.fd;
      hide Reply;
      HandleReplies(e, ev);
      HandleRight(e, ev);
      var e1 := Handle(e, ev);
      forall i | 0 <= i < |rest| ensures rest[i].fd != ev.fd && Awaited(e1, rest[i]) {
        assert rest[i] == events[i + 1] && Awaited(e, events[i + 1]);
      }
      hide Handle;
      HandleAllReplies(e1, rest);
      if ev.fd != e.pipe {
        RepliesSame(e.log, Reply(e.log, ev), e.pipe, rest);
      } else {
        assert e.log + [] == e.log;
      }
      forall fd ensures Reported(e.pipe, events, fd) <==> Reported(e.pipe, rest, fd) || (fd == ev.fd && fd != e.pipe) {
        ReportedFirst(e.pipe, events, fd);
      }
      hide Reported;
    }
  }

  lemma ReportedFirst(pipe: Fd, events: seq<Event>, fd: Fd)
    requires events != []
    ensures Reported(pipe, events, fd) <==> Reported(pipe, events[1..], fd) || (fd == events[0].fd && fd != pipe)
  {
    if Reported(pipe, events[1..], fd) {
      var i :| 0 <= i < |events| - 1 && events[1..][i].fd == fd;
      assert events[i + 1].fd == fd;
    }
    if i :| 0 < i < |events| && events[i].fd == fd {
      assert events[1..][i - 1].fd == fd;
    }
  }

  lemma {:induction false} ExpireAllReplies(e: Engine, due: seq<Fd>)
    requires Inv(e) && NoDup(due) && forall i | 0 <= i < |due| :: due[i] < |e.items| && Armed(e, due[i])
    ensures var e' := ExpireAll(e, due);
            && e'.log == e.log + Expiries(e.log, due) && |e'.items| == |e.items|
            && forall fd | 0 <= fd < |e.items| ::
                 if fd in due then e'.items[fd].newMask == Off && e'.items[fd].timer == 0 else e'.items[fd] == e.items[fd]
    decreases |due|
  {
    hide Inv, Victim;
    if due != [] {
      var e1 := Expire(e, due[0]);
      ExpireRight(e, due[0]);
      ExpireReplies(e, due[0]);
      FirstOnly(due);
      forall i | 0 <= i < |due| - 1 ensures due[1..][i] < |e1.items| && Armed(e1, due[1..][i]) {
        assert due[1..][i] == due[i + 1] && Armed(e, due[i + 1]);
      }
      hide Expire, NoDup;
      ExpireAllReplies(e1, due[1..]);
      ExpiriesSame(e.log, Notified(due[0], Victim(e.log, due[0]), Timeouted), due[1..]);
    }
  }

  lemma ExpireReplies(e: Engine, fd: Fd)
    requires Inv(e) && Armed(e, fd)
    ensures var e' := Expire(e, fd);
            && e'.log == e.log + [Notified(fd, Victim(e.log, fd), Timeouted)]
            && e'.items[fd].newMask == Off && e'.items[fd].timer == 0
  {
    assert PendingRight(e, fd);
    AskedVictim(e, fd);
    hide Inv, Victim;
  }

  /** Who is told of a timeout was not told of an event, and asked before. */
  lemma {:induction false} ExpiriesLater(e: Engine, more: seq<Entry>, due: seq<Fd>)
    requires forall i | 0 <= i < |more| :: more[i].fd !in due
    ensures Expiries(e.log + more, due) == Expiries(e.log, due)
    decreases |more|
  {
    if more != [] {
      var front, last := more[..|more| - 1], more[|more| - 1];
      assert e.log + more == (e.log + front) + [last];
      ExpiriesSame(e.log + front, last, due);
      ExpiriesLater(e, front, due);
    } else {
      assert e.log + more == e.log;
    }
  }

  lemma {:induction false} ReplyFds(log: seq<Entry>, pipe: Fd, events: seq<Event>)
    ensures forall i | 0 <= i < |Replies(log, pipe, events)| :: Reported(pipe, events, Replies(log, pipe, events)[i].fd)
  {
    if events != [] {
      ReplyFds(log, pipe, events[1..]);
      var all, rest := Replies(log, pipe, events), Replies(log, pipe, events[1..]);
      var k := |all| - |rest|;
      forall i | 0 <= i < |all| ensures Reported(pipe, events, all[i].fd) {
        ReportedFirst(pipe, events, all[i].fd);
        assert i >= k ==> all[i] == rest[i - k];
      }
    }
  }

  /** A block answers each event once, in the order in which they are reported, and then each
      timer that runs out; it tells the process that registered last what it waited for; and
      what was told of is not asked for any more, while all else is as it was. */
  lemma BlockReplies(e: Engine, events: seq<Event>, due: seq<Fd>)
    requires Inv(e) && CanBlock(e, events, due)
    ensures var e' := Next(e, Block(events, due));
            && e'.log == e.log + Replies(e.log, e.pipe, events) + Expiries(e.log, due)
            && |e'.items| == |e.items|
            && forall fd | 0 <= fd < |e.items| ::
                 if Reported(e.pipe, events, fd) || fd in due then e'.items[fd].newMask == Off && e'.items[fd].timer == 0
                 else e'.items[fd].(epollMask := Off) == e.items[fd].(epollMask := Off)
  {
    FlushRight(e);
    WokenRight(e, events);
    assert |Flush(e).items| == |e.items| && Flush(e).pipe == e.pipe && Flush(e).log == e.log;
    forall i | 0 <= i < |events| ensures events[i].fd < |Flush(e).items| && Awaited(Flush(e), events[i]) {
      assert Happens(Flush(e), events[i]);
      WatchedAwaited(Flush(e), events[i]);
    }
    assert SameRequests(e, Flush(e));
    hide Inv, Flush, Armed;
    HandleAllReplies(Flush(e), events);
    var w := Woken(e, events);
    ExpireAllReplies(w, due);
    NotDue(e, events, due);
    ReplyFds(e.log, e.pipe, events);
    hide Reported;
    ExpiriesLater(e, Replies(e.log, e.pipe, events), due);
  }

  lemma NotDue(e: Engine, events: seq<Event>, due: seq<Fd>)
    requires Inv(e) && CanBlock(e, events, due) && Flush(e).pipe == e.pipe
    requires forall fd | 0 <= fd < |Woken(e, events).items| && Reported(e.pipe, events, fd) :: Woken(e, events).items[fd].timer == 0
    ensures forall fd | Reported(e.pipe, events, fd) :: fd !in due
  {
    hide Inv, Flush, HandleAll;
    forall fd | Reported(e.pipe, events, fd) ensures fd !in due {
      assert forall i | 0 <= i < |due| :: Armed(Woken(e, events), due[i]);
    }
  }

  /** What the log says of one descriptor. */
  function About(log: seq<Entry>, fd: Fd): seq<Entry> {
    if log == [] then [] else (if log[0].fd == fd then [log[0]] else []) + About(log[1..], fd)
  }

  /** Each event on a descriptor but the pipe is answered exactly once. */
  lemma {:induction false} RepliedOnce(log: seq<Entry>, pipe: Fd, events: seq<Event>, i: nat)
    requires EventsApart(events) && i < |events| && events[i].fd != pipe
    ensures About(Replies(log, pipe, events), events[i].fd) == [Reply(log, events[i])]
    decreases i
  {
    var rest := events[1..];
    AboutConcat(if events[0].fd == pipe then [] else [Reply(log, events[0])], Replies(log, pipe, rest), events[i].fd);
    if i > 0 {
      assert rest[i - 1] == events[i] && events[0].fd != events[i].fd;
      RepliedOnce(log, pipe, rest, i - 1);
    } else {
      RepliedNone(log, pipe, rest, events[0].fd);
      var one := [Reply(log, events[0])];
      assert one[1..] == [];
      assert About(one, events[0].fd) == one;
    }
  }

  lemma {:induction false} RepliedNone(log: seq<Entry>, pipe: Fd, events: seq<Event>, fd: Fd)
    requires fd == pipe || forall i | 0 <= i < |events| :: events[i].fd != fd
    ensures About(Replies(log, pipe, events), fd) == []
  {
    if events != [] {
      RepliedNone(log, pipe, events[1..], fd);
      AboutConcat(if events[0].fd == pipe then [] else [Reply(log, events[0])], Replies(log, pipe, events[1..]), fd);
      var one := [Reply(log, events[0])];
      assert one[1..] == [];
    }
  }

  lemma {:induction false} AboutConcat(a: seq<Entry>, b: seq<Entry>, fd: Fd)
    ensures About(a + b, fd) == About(a, fd) + About(b, fd)
  {
    if a == [] {
      assert a + b == b;
    } else {
      var first := if a[0].fd == fd then [a[0]] else [];
      assert (a + b)[1..] == a[1..] + b;
      AboutConcat(a[1..], b, fd);
      assert About(a + b, fd) == first + (About(a[1..], fd) + About(b, fd));
      assert About(a, fd) == first + About(a[1..], fd);
    }
  }

  /** Over every run of the engine. */
  lemma RunReplies(size: nat, pipe: Fd, self: Pid, run: seq<Action>, events: seq<Event>, due: seq<Fd>)
    requires pipe < size && EnabledAll(New(size, pipe, self), run) && CanBlock(After(New(size, pipe, self), run), events, due)
    ensures var e := After(New(size, pipe, self), run);
            var e' := Next(e, Block(events, due));
            && e'.log == e.log + Replies(e.log, e.pipe, events) + Expiries(e.log, due)
            && (forall i | 0 <= i < |events| && events[i].fd != e.pipe :: About(Replies(e.log, e.pipe, events), events[i].fd) == [Reply(e.log, events[i])])
            && About(Replies(e.log, e.pipe, events), e.pipe) == []
            && |e'.items| == |e.items|
            && forall fd | 0 <= fd < |e.items| && (Reported(e.pipe, events, fd) || fd in due) :: e'.items[fd].newMask == Off
  {
    NewRight(size, pipe, self);
    RunRight(New(size, pipe, self), run);
    var e := After(New(size, pipe, self), run);
    hide EnabledAll, After, Inv;
    BlockReplies(e, events, due);
    hide CanBlock, Next, Reported;
    RepliedNone(e.log, e.pipe, events, e.pipe);
    forall i | 0 <= i < |events| && events[i].fd != e.pipe ensures About(Replies(e.log, e.pipe, events), events[i].fd) == [Reply(e.log, events[i])] {
      Apart(e, events, due);
      RepliedOnce(e.log, e.pipe, events, i);
    }
  }

  lemma Apart(e: Engine, events: seq<Event>, due: seq<Fd>)
    requires CanBlock(e, events, due)
    ensures EventsApart(events)
  {
  }

  /** What the log says of a request. */
  function Taken(r: Request): Entry {
    if r.Register? then Registered(r.fd, r.victim, r.mask, r.expires) else Unregistered(r.fd)
  }

  /** A request is on the log, and is what is asked for. */
  lemma RequestTaken(e: Engine, r: Request)
    requires Inv(e) && Proper(e, r)
    ensures var e' := Serve(e, r);
            && e'.log == e.log + [Taken(r)]
            && e'.kernel == e.kernel && |e'.items| == |e.items|
            && e'.items[r.fd].newMask == (if r.Register? then r.mask else Off)
            && e'.items[r.fd].timer == (if r.Register? then r.expires else 0)
            && (r.Register? ==> e'.items[r.fd].victim == r.victim && Victim(e'.log, r.fd) == r.victim)
            && forall fd | 0 <= fd < |e.items| && fd != r.fd :: e'.items[fd] == e.items[fd]
  {
    hide Inv;
    if r.Register? {
      LastSnoc(e.log, Registered(r.fd, r.victim, r.mask, r.expires), r.fd);
    }
  }
}
